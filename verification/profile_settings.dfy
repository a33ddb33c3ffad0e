/**
 * The profile rules that the home screen's profile menu
 * (src/components/HomeView.tsx) and the settings screen
 * (src/components/SettingsView.tsx) both apply, with the same code: the
 * passcode dialog, the name-and-colour editor, the "remove data" dialog and the
 * search-history switch. Each is a function from the stored state (or profile)
 * and the dialog's fields to what gets saved.
 */
module ProfileSettings {
  import opened Types
  import opened Text
  import opened Collections
  import opened StorageState
  import StorageLaws
  import Storage

  /** The passcode dialog's mode: `'add' | 'change' | 'remove'`. */
  datatype PasscodeMode = AddPasscode | ChangePasscode | RemovePasscode

  const MismatchMessage := "Passcodes must be 4 digits and match"
  const WordRequiredMessage := "Security word is required"

  /** The length and confirmation check shared by 'add' and 'change'. */
  predicate PasscodeAccepted(newPasscode: string, confirmPasscode: string)
  {
    |newPasscode| == 4 && newPasscode == confirmPasscode
  }

  /**
   * handlePasscodeAction: a failed check is an alert and nothing else
   * (`Failure`); with no dialog open nothing is saved (`Success(None)`);
   * otherwise the profile to save.
   */
  function PasscodeUpdate(mode: Option<PasscodeMode>, p: Profile, newPasscode: string, confirmPasscode: string,
                          securityWord: string): Result<Option<Profile>>
  {
    match mode
    case None => Success(None)
    case Some(AddPasscode) =>
      if !PasscodeAccepted(newPasscode, confirmPasscode) then Failure(MismatchMessage)
      else if Trim(securityWord) == [] then Failure(WordRequiredMessage)
      else Success(Some(p.(pin := Some(newPasscode), securityWord := Some(securityWord))))
    case Some(ChangePasscode) =>
      if !PasscodeAccepted(newPasscode, confirmPasscode) then Failure(MismatchMessage)
      else Success(Some(p.(pin := Some(newPasscode))))
    case Some(RemovePasscode) =>
      Success(Some(p.(pin := None, securityWord := None)))
  }

  /**
   * 'add' succeeds exactly when the passcode has four characters, matches its
   * confirmation and the security word is not blank; it then stores the PIN and
   * the word as typed (untrimmed). 'change' applies the same check and keeps the
   * word. 'remove' always clears both. No mode touches any other field.
   */
  lemma PasscodeLaws(mode: Option<PasscodeMode>, p: Profile, newPasscode: string, confirmPasscode: string,
                     securityWord: string)
    ensures var r := PasscodeUpdate(mode, p, newPasscode, confirmPasscode, securityWord);
      && (mode.None? ==> r == Success(None))
      && (mode == Some(AddPasscode) ==>
            (r.Success? <==> PasscodeAccepted(newPasscode, confirmPasscode)
                             && exists i :: 0 <= i < |securityWord| && !IsSpace(securityWord[i]))
            && (r.Success? ==> r.value == Some(p.(pin := Some(newPasscode), securityWord := Some(securityWord)))))
      && (mode == Some(ChangePasscode) ==>
            (r.Success? <==> PasscodeAccepted(newPasscode, confirmPasscode))
            && (r.Success? ==> r.value.value.securityWord == p.securityWord && r.value.value.pin == Some(newPasscode)))
      && (mode == Some(RemovePasscode) ==> r == Success(Some(p.(pin := None, securityWord := None))))
      && (r.Success? && r.value.Some? ==>
            r.value.value.(pin := p.pin, securityWord := p.securityWord) == p)
  {
    BlankIffAllSpace(securityWord);
  }

  /**
   * After 'add' or 'change' the profile asks for its PIN when selected, and
   * after 'add' its PIN can be recovered by the security word; after 'remove'
   * it is entered directly.
   */
  lemma PasscodeGatesSelection(mode: PasscodeMode, p: Profile, newPasscode: string, confirmPasscode: string,
                               securityWord: string)
    requires PasscodeUpdate(Some(mode), p, newPasscode, confirmPasscode, securityWord).Success?
    ensures var q := PasscodeUpdate(Some(mode), p, newPasscode, confirmPasscode, securityWord).value.value;
      && (mode != RemovePasscode <==> Truthy(q.pin))
      && (mode == AddPasscode ==> Truthy(q.securityWord))
  {
  }

  /** Passcode fields hold only digits (the input drops the rest), so a saved PIN is four digits. */
  lemma SavedPinIsFourDigits(mode: PasscodeMode, p: Profile, newPasscode: string, confirmPasscode: string,
                             securityWord: string)
    requires forall i :: 0 <= i < |newPasscode| ==> IsDigit(newPasscode[i])
    requires PasscodeUpdate(Some(mode), p, newPasscode, confirmPasscode, securityWord).Success?
    requires mode != RemovePasscode
    ensures var q := PasscodeUpdate(Some(mode), p, newPasscode, confirmPasscode, securityWord).value.value;
      q.pin.Some? && |q.pin.value| == 4 && forall i :: 0 <= i < 4 ==> IsDigit(q.pin.value[i])
  {
  }

  /** handleSaveProfile: the edited name and colour, nothing else. */
  function WithNameAndColor(p: Profile, name: string, color: string): (q: Profile)
    ensures q.name == name && q.avatarColor == color
    ensures q.(name := p.name, avatarColor := p.avatarColor) == p
  {
    p.(name := name, avatarColor := color)
  }

  /** Whether the "remove data" dialog has any box ticked. */
  predicate AnySelected(options: RemoveOptions)
  {
    options.watchlist || options.watchHistory || options.security
  }

  /**
   * handleRemoveData: with nothing ticked nothing happens; otherwise
   * removeProfileData, and for watch history also the search history.
   */
  function RemoveData(s: StoreState, profileId: string, options: RemoveOptions): StoreState
  {
    if !AnySelected(options) then s
    else
      var removed := RemoveProfileData(s, profileId, options);
      if options.watchHistory then ClearSearchHistory(removed, profileId) else removed
  }

  /**
   * With nothing ticked the store is unchanged. Otherwise only the profile's
   * own rows go: ticking history also forgets its searches (which the storage
   * operation alone keeps), and other profiles' searches always stay.
   */
  lemma RemoveDataLaws(s: StoreState, profileId: string, options: RemoveOptions, other: string)
    requires Valid(s) && other != profileId
    ensures var r := RemoveData(s, profileId, options);
      && Valid(r)
      && (!AnySelected(options) ==> r == s)
      && (options.watchHistory ==> profileId !in r.searchHistory
                                   && (forall h :: h in r.history ==> h.profileId != profileId)
                                   && (forall x :: x in r.ratings ==> x.profileId != profileId))
      && (!options.watchHistory ==> r.searchHistory == s.searchHistory && r.history == s.history)
      && (options.watchlist ==> forall w :: w in r.watchlist ==> w.profileId != profileId)
      && (forall w :: w in s.watchlist && w.profileId != profileId ==> w in r.watchlist)
      && (other in s.searchHistory ==> other in r.searchHistory && r.searchHistory[other] == s.searchHistory[other])
  {
    if AnySelected(options) {
      StorageLaws.RemoveProfileDataLaws(s, profileId, options);
      StorageLaws.RemoveProfileRowsLaws(s, profileId, options);
    }
  }

  /**
   * handleToggleSearchHistory, from the switch's current position: flip the
   * stored flag, and when turning history off also forget the searches.
   */
  function ToggleSearchHistory(s: StoreState, profileId: string, enabled: bool): StoreState
  {
    var flipped := SetSearchHistoryEnabled(s, profileId, !enabled);
    if enabled then ClearSearchHistory(flipped, profileId) else flipped
  }

  /**
   * For a stored profile the flag ends up the opposite of the switch; turning
   * history off empties the searches, turning it on keeps them.
   */
  lemma ToggleSearchHistoryLaws(s: StoreState, profileId: string, enabled: bool)
    requires Valid(s) && FindProfile(s, profileId).Some?
    ensures var r := ToggleSearchHistory(s, profileId, enabled);
      && GetSearchHistoryEnabled(r, profileId) == Success(!enabled)
      && (enabled ==> GetSearchHistory(r, profileId) == [])
      && (!enabled ==> r.searchHistory == s.searchHistory)
  {
    StorageLaws.SearchHistoryEnabledLaws(s, profileId, !enabled);
  }

  /** The storage calls of handleRemoveData, once some box is ticked. */
  method ApplyRemoval(store: Storage.Store, profileId: string, options: RemoveOptions)
    requires AnySelected(options)
    modifies store
    ensures store.State() == RemoveData(old(store.State()), profileId, options)
  {
    store.RemoveProfileData(profileId, options);
    if options.watchHistory {
      store.ClearSearchHistory(profileId);
    }
  }

  /** The storage calls of handleToggleSearchHistory, from the switch's position `enabled`. */
  method ApplyToggle(store: Storage.Store, profileId: string, enabled: bool)
    modifies store
    ensures store.State() == ToggleSearchHistory(old(store.State()), profileId, enabled)
  {
    store.SetSearchHistoryEnabled(profileId, !enabled);
    if enabled {
      store.ClearSearchHistory(profileId);
    }
  }
}
