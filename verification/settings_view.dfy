/**
 * The settings screen (src/components/SettingsView.tsx): the hero-trailer
 * switches kept under their own storage keys, and the same profile handlers as
 * the home screen's menu, here holding the search-history switch in screen
 * state.
 */
module SettingsView {
  import opened Types
  import opened StorageState
  import opened ProfileSettings
  import Storage

  /** getHeroAutoplayEnabled / getHeroMuted: on unless the stored text is exactly 'false'. */
  predicate HeroFlag(stored: Option<string>)
    ensures stored.None? ==> HeroFlag(stored)
    ensures HeroFlag(stored) <==> stored.None? || stored.value != "false"
  {
    stored != Some("false")
  }

  /** setHeroAutoplayEnabled / setHeroMuted: the text stored for a switch position. */
  function HeroText(on: bool): string
  {
    if on then "true" else "false"
  }

  /**
   * A switch reads back what its setter stored; a missing key and any text other
   * than 'false' read as on.
   */
  lemma HeroFlagLaws(on: bool, stored: Option<string>)
    ensures HeroFlag(Some(HeroText(on))) == on
    ensures HeroFlag(None)
    ensures HeroFlag(stored) <==> stored.None? || stored.value != "false"
  {
  }

  class Settings {
    var profile: Profile
    var passcodeMode: Option<PasscodeMode>
    var newPasscode: string
    var confirmPasscode: string
    var securityWord: string
    var showProfileSettings: bool
    var newName: string
    var newColor: string
    var searchHistoryEnabled: bool
    var heroAutoplay: bool
    var heroMuted: bool
    var showRemoveData: bool
    var removeWatchlist: bool
    var removeHistory: bool
    var removeSecurity: bool

    /** The switches on screen show what the store holds. */
    predicate Synced(store: Storage.Store)
      reads this, store
    {
      && heroAutoplay == HeroFlag(store.heroAutoplay)
      && heroMuted == HeroFlag(store.heroMuted)
      && GetSearchHistoryEnabled(store.State(), profile.id) == Success(searchHistoryEnabled)
    }

    /**
     * The screen as first rendered: the switches read from the store. Reading
     * the history flag of a profile that is not stored throws, so the screen is
     * only shown for a stored profile.
     */
    constructor (store: Storage.Store, p: Profile)
      requires GetSearchHistoryEnabled(store.State(), p.id).Success?
      ensures profile == p && Synced(store)
      ensures passcodeMode.None? && newPasscode == "" && confirmPasscode == "" && securityWord == ""
      ensures newName == p.name && newColor == p.avatarColor
      ensures !showRemoveData && !removeWatchlist && !removeHistory && !removeSecurity
    {
      profile := p;
      passcodeMode := None;
      newPasscode, confirmPasscode, securityWord := "", "", "";
      showProfileSettings := false;
      newName, newColor := p.name, p.avatarColor;
      searchHistoryEnabled := GetSearchHistoryEnabled(store.State(), p.id).value;
      heroAutoplay := HeroFlag(store.heroAutoplay);
      heroMuted := HeroFlag(store.heroMuted);
      showRemoveData := false;
      removeWatchlist, removeHistory, removeSecurity := false, false, false;
    }

    /**
     * A render with a new `profile` prop, which the shell passes after every
     * onProfileUpdate (see App.Shell.ProfileUpdate). The shell re-reads the
     * stored profile of the same id, so the screen's own state stays as it was.
     */
    method ProfileChanged(p: Profile)
      requires p.id == profile.id
      modifies this
      ensures profile == p
      ensures passcodeMode == old(passcodeMode) && newPasscode == old(newPasscode)
      ensures confirmPasscode == old(confirmPasscode) && securityWord == old(securityWord)
      ensures showProfileSettings == old(showProfileSettings) && newName == old(newName) && newColor == old(newColor)
      ensures searchHistoryEnabled == old(searchHistoryEnabled) && heroAutoplay == old(heroAutoplay)
      ensures heroMuted == old(heroMuted) && showRemoveData == old(showRemoveData)
      ensures removeWatchlist == old(removeWatchlist) && removeHistory == old(removeHistory)
      ensures removeSecurity == old(removeSecurity)
    {
      profile := p;
    }

    /** handleSaveProfile: the edited name and colour are saved. */
    method SaveProfileSettings(store: Storage.Store)
      modifies this, store
      ensures store.State() == StorageState.SaveProfile(old(store.State()), WithNameAndColor(profile, newName, newColor))
      ensures !showProfileSettings && profile == old(profile)
    {
      store.SaveProfile(WithNameAndColor(profile, newName, newColor));
      showProfileSettings := false;
    }

    /**
     * handlePasscodeAction: a failed check returns its alert before anything is
     * saved or the dialog closes; otherwise the new profile (if any) is saved
     * and the dialog closes with its fields cleared.
     */
    method PasscodeAction(store: Storage.Store) returns (alert: Option<string>)
      modifies this, store
      ensures var u := PasscodeUpdate(old(passcodeMode), profile, old(newPasscode), old(confirmPasscode), old(securityWord));
        && (u.Failure? ==> alert == Some(u.message) && unchanged(this) && unchanged(store))
        && (u.Success? ==>
              && alert.None? && passcodeMode.None?
              && newPasscode == "" && confirmPasscode == "" && securityWord == ""
              && store.State() == (if u.value.Some? then StorageState.SaveProfile(old(store.State()), u.value.value)
                                   else old(store.State())))
      ensures profile == old(profile)
    {
      var u := PasscodeUpdate(passcodeMode, profile, newPasscode, confirmPasscode, securityWord);
      if u.Failure? {
        return Some(u.message);
      }
      if u.value.Some? {
        store.SaveProfile(u.value.value);
      }
      alert := None;
      passcodeMode := None;
      newPasscode, confirmPasscode, securityWord := "", "", "";
    }

    /** handleToggleSearchHistory: flip the switch and the stored flag; turning it off forgets the searches. */
    method ToggleSearchHistory(store: Storage.Store)
      modifies this, store
      ensures store.State() == ProfileSettings.ToggleSearchHistory(old(store.State()), profile.id, old(searchHistoryEnabled))
      ensures searchHistoryEnabled == !old(searchHistoryEnabled) && profile == old(profile)
      ensures heroAutoplay == old(heroAutoplay) && heroMuted == old(heroMuted)
    {
      var newEnabled := !searchHistoryEnabled;
      ApplyToggle(store, profile.id, searchHistoryEnabled);
      searchHistoryEnabled := newEnabled;
    }

    /** handleHeroAutoplayToggle: flip the switch and store its text. */
    method HeroAutoplayToggle(store: Storage.Store)
      modifies this, store
      ensures heroAutoplay == !old(heroAutoplay)
      ensures store.State() == old(store.State()).(heroAutoplay := Some(HeroText(heroAutoplay)))
      ensures HeroFlag(store.heroAutoplay) == heroAutoplay
      ensures profile == old(profile) && heroMuted == old(heroMuted) && searchHistoryEnabled == old(searchHistoryEnabled)
    {
      var newValue := !heroAutoplay;
      heroAutoplay := newValue;
      store.SetHeroAutoplay(HeroText(newValue));
    }

    /** handleHeroMutedToggle: flip the switch and store its text. */
    method HeroMutedToggle(store: Storage.Store)
      modifies this, store
      ensures heroMuted == !old(heroMuted)
      ensures store.State() == old(store.State()).(heroMuted := Some(HeroText(heroMuted)))
      ensures HeroFlag(store.heroMuted) == heroMuted
      ensures profile == old(profile) && heroAutoplay == old(heroAutoplay) && searchHistoryEnabled == old(searchHistoryEnabled)
    {
      var newValue := !heroMuted;
      heroMuted := newValue;
      store.SetHeroMuted(HeroText(newValue));
    }

    /** handleRemoveData: nothing when no box is ticked; otherwise the removal and the dialog closed. */
    method RemoveData(store: Storage.Store)
      modifies this, store
      ensures var options := RemoveOptions(old(removeWatchlist), old(removeHistory), old(removeSecurity));
        && (!AnySelected(options) ==> unchanged(this) && unchanged(store))
        && (AnySelected(options) ==>
              && store.State() == ProfileSettings.RemoveData(old(store.State()), profile.id, options)
              && !showRemoveData && !removeWatchlist && !removeHistory && !removeSecurity)
      ensures profile == old(profile)
    {
      var options := RemoveOptions(removeWatchlist, removeHistory, removeSecurity);
      if !AnySelected(options) {
        return;
      }
      ApplyRemoval(store, profile.id, options);
      showRemoveData := false;
      removeWatchlist, removeHistory, removeSecurity := false, false, false;
    }
  }

  /**
   * Toggling search history keeps the switch in step with the stored flag, for
   * a stored profile in a consistent store.
   */
  lemma ToggleKeepsSwitchInStep(s: StoreState, profileId: string, enabled: bool)
    requires Valid(s) && GetSearchHistoryEnabled(s, profileId) == Success(enabled)
    ensures GetSearchHistoryEnabled(ProfileSettings.ToggleSearchHistory(s, profileId, enabled), profileId) == Success(!enabled)
  {
    ToggleSearchHistoryLaws(s, profileId, enabled);
  }
}
