/**
 * The home screen (src/components/HomeView.tsx): the continue-watching row, the
 * seasonal popup and its date windows, the first-login welcome, and the profile
 * menu's handlers. The screen's state is a class; the clock is passed in as a
 * calendar day, and network loads are left out.
 */
module HomeView {
  import opened Types
  import opened Text
  import opened Collections
  import opened StorageState
  import opened ProfileSettings
  import Storage

  // ---------------------------------------------------------------------------
  // Continue watching
  // ---------------------------------------------------------------------------

  /** Rows are the same title when `tmdb_id` and `media_type` agree. */
  function TitleKey(h: WatchHistory): (Option<int>, MediaType)
  {
    (h.tmdbId, h.mediaType)
  }

  /** At most this many rows are shown. */
  const ContinueWatchingLimit := 10

  /**
   * loadContinueWatching over the profile's rows: a reduce that keeps a row
   * unless an earlier one has the same title, then the first ten.
   */
  method ContinueWatching(history: seq<WatchHistory>) returns (rows: seq<WatchHistory>)
    ensures rows == Take(DedupFirst(history, TitleKey), ContinueWatchingLimit)
  {
    var acc: seq<WatchHistory> := [];
    var i := 0;
    while i < |history|
      invariant 0 <= i <= |history|
      invariant acc == DedupFirst(history[..i], TitleKey)
    {
      var current := history[i];
      var exists_ := Find(acc, (item: WatchHistory) => TitleKey(item) == TitleKey(current));
      assert exists_.Some? <==> TitleKey(current) in Keys(history[..i], TitleKey) by {
        if TitleKey(current) in Keys(acc, TitleKey) {
          var j :| 0 <= j < |acc| && TitleKey(acc[j]) == TitleKey(current);
        }
      }
      DedupFirstSnoc(history[..i], TitleKey, current);
      assert history[..i + 1] == history[..i] + [current];
      if exists_.None? {
        acc := acc + [current];
      }
      i := i + 1;
    }
    assert history[..i] == history;
    rows := Take(acc, ContinueWatchingLimit);
  }

  /**
   * The row keeps at most ten rows, one per title, each the earliest saved row
   * of its title, in store order; when there are at most ten titles every
   * watched title appears.
   */
  lemma ContinueWatchingLaws(history: seq<WatchHistory>)
    ensures var rows := Take(DedupFirst(history, TitleKey), ContinueWatchingLimit);
      && |rows| <= ContinueWatchingLimit
      && Subseq(rows, history)
      && UniqueBy(rows, TitleKey)
      && (forall j :: 0 <= j < |rows| ==> FirstWithKey(history, TitleKey, TitleKey(rows[j])) == Some(rows[j]))
      && (|Keys(history, TitleKey)| <= ContinueWatchingLimit ==> Keys(rows, TitleKey) == Keys(history, TitleKey))
      && |rows| == (if |Keys(history, TitleKey)| <= ContinueWatchingLimit then |Keys(history, TitleKey)| else ContinueWatchingLimit)
      && rows == DedupFirst(history, TitleKey)[..|rows|]
  {
    var d := DedupFirst(history, TitleKey);
    var rows := Take(d, ContinueWatchingLimit);
    PrefixOfDedup(history, |rows|);
    UniqueKeysCount(d, TitleKey);
    if |d| <= ContinueWatchingLimit {
      assert rows == d;
    }
  }

  /** A prefix of the deduplicated history keeps its order, uniqueness and first rows. */
  lemma PrefixOfDedup(history: seq<WatchHistory>, n: nat)
    requires n <= |DedupFirst(history, TitleKey)|
    ensures var rows := DedupFirst(history, TitleKey)[..n];
      && Subseq(rows, history)
      && UniqueBy(rows, TitleKey)
      && (forall j :: 0 <= j < n ==> FirstWithKey(history, TitleKey, TitleKey(rows[j])) == Some(rows[j]))
  {
    var d := DedupFirst(history, TitleKey);
    SubseqPrefix(d, n);
    SubseqTrans(d[..n], d, history);
  }

  /** isWatched: some row of the profile has this title. */
  predicate IsWatched(history: seq<WatchHistory>, tmdbId: int, mediaType: MediaType)
    ensures IsWatched(history, tmdbId, mediaType) <==> (Some(tmdbId), mediaType) in Keys(history, TitleKey)
  {
    exists j :: 0 <= j < |history| && history[j].tmdbId == Some(tmdbId) && history[j].mediaType == mediaType
  }

  /** A title is watched exactly when the deduplicated history holds a row for it. */
  lemma IsWatchedLaws(history: seq<WatchHistory>, tmdbId: int, mediaType: MediaType)
    ensures IsWatched(history, tmdbId, mediaType) <==>
              (Some(tmdbId), mediaType) in Keys(DedupFirst(history, TitleKey), TitleKey)
  {
    if IsWatched(history, tmdbId, mediaType) {
      var j :| 0 <= j < |history| && history[j].tmdbId == Some(tmdbId) && history[j].mediaType == mediaType;
      assert TitleKey(history[j]) == (Some(tmdbId), mediaType);
    }
  }

  // ---------------------------------------------------------------------------
  // Seasonal popup
  // ---------------------------------------------------------------------------

  /** A day as `Date` reports it: `getFullYear()`, `getMonth()` (0-based) and `getDate()`. */
  datatype Day = Day(year: int, month: nat, date: nat)

  predicate ValidDay(d: Day)
  {
    d.month < 12 && 1 <= d.date <= 31
  }

  datatype Season = Halloween | Christmas | Valentines | Summer

  /** The order of days within one year, as `Date` comparison orders their midnights. */
  function DayIndex(month: nat, date: nat): nat
  {
    month * 32 + date
  }

  /**
   * `inRange(new Date(y, m1, d1), new Date(y, m2, d2))` for a moment of day `d`
   * in year y: at or after the first midnight and before the second. The time
   * of day does not matter because both ends are midnights.
   */
  predicate InRange(d: Day, m1: nat, d1: nat, m2: nat, d2: nat)
  {
    DayIndex(m1, d1) <= DayIndex(d.month, d.date) < DayIndex(m2, d2)
  }

  /** getSeasonalData: the first window containing the day, or null. */
  function SeasonOf(d: Day): (r: Option<Season>)
    ensures ValidDay(d) && r.Some? ==> d.month in {1, 5, 9, 10, 11}
    ensures ValidDay(d) ==> (r == Some(Summer) <==> d.month == 5)
  {
    if InRange(d, 9, 6, 10, 2) then Some(Halloween)
    else if InRange(d, 10, 12, 11, 27) then Some(Christmas)
    else if InRange(d, 1, 1, 1, 21) then Some(Valentines)
    else if InRange(d, 5, 1, 6, 1) then Some(Summer)
    else None
  }

  /**
   * The windows by calendar date, both ends inclusive: Halloween Oct 6 to Nov 1,
   * Christmas Nov 12 to Dec 26, Valentine's Feb 1 to Feb 20, summer all of June;
   * no popup on any other day.
   */
  lemma SeasonWindows(d: Day)
    requires ValidDay(d)
    ensures SeasonOf(d) == Some(Halloween) <==> (d.month == 9 && d.date >= 6) || (d.month == 10 && d.date <= 1)
    ensures SeasonOf(d) == Some(Christmas) <==> (d.month == 10 && d.date >= 12) || (d.month == 11 && d.date <= 26)
    ensures SeasonOf(d) == Some(Valentines) <==> d.month == 1 && d.date <= 20
    ensures SeasonOf(d) == Some(Summer) <==> d.month == 5
    ensures SeasonOf(d).None? <==>
              !((d.month == 9 && d.date >= 6) || (d.month == 10 && d.date <= 1)
                || (d.month == 10 && d.date >= 12) || (d.month == 11 && d.date <= 26)
                || (d.month == 1 && d.date <= 20) || d.month == 5)
  {
  }

  /** `${today.getMonth()}-${today.getDate()}`: the key remembering the day the popup was closed. */
  function SeasonalKey(d: Day): string
  {
    NatToString(d.month) + "-" + NatToString(d.date)
  }

  /** Two digit strings joined by '-' determine both parts. */
  lemma DashJoinInjective(a: string, b: string, c: string, e: string)
    requires forall i :: 0 <= i < |a| ==> IsDigit(a[i])
    requires forall i :: 0 <= i < |c| ==> IsDigit(c[i])
    requires a + "-" + b == c + "-" + e
    ensures a == c && b == e
  {
    var s := a + "-" + b;
    assert s[|a|] == '-';
    assert s == c + "-" + e;
    assert s[|c|] == '-';
    assert a == s[..|a|] == c;
    assert b == s[|a| + 1..] == e;
  }

  /** Days with the same key share month and date (the year is not part of the key). */
  lemma SeasonalKeyInjective(d1: Day, d2: Day)
    requires SeasonalKey(d1) == SeasonalKey(d2)
    ensures d1.month == d2.month && d1.date == d2.date
  {
    DashJoinInjective(NatToString(d1.month), NatToString(d1.date), NatToString(d2.month), NatToString(d2.date));
    NatToStringInjective(d1.month, d2.month);
    NatToStringInjective(d1.date, d2.date);
  }

  /** The popup is considered when the profile's remembered key is not today's. */
  predicate ConsidersSeasonal(p: Profile, today: Day)
  {
    p.seasonalShown != Some(SeasonalKey(today))
  }

  /**
   * Once closed on a day, the popup is not considered again on a day with the
   * same month and date, and is considered on every other.
   */
  lemma SeasonalOncePerDay(p: Profile, closed: Day, today: Day)
    ensures ConsidersSeasonal(p.(seasonalShown := Some(SeasonalKey(closed))), today) <==>
              (today.month, today.date) != (closed.month, closed.date)
  {
    if SeasonalKey(closed) == SeasonalKey(today) {
      SeasonalKeyInjective(closed, today);
    }
  }

  // ---------------------------------------------------------------------------
  // The screen
  // ---------------------------------------------------------------------------

  class Home {
    var profile: Profile                        // the current profile, as passed in
    var watchlist: seq<WatchlistItem>
    var continueWatching: seq<WatchHistory>
    var showWelcome: bool
    var showSeasonal: bool
    var seasonal: Option<Season>
    var passcodeMode: Option<PasscodeMode>      // showPasscodeModal
    var newPasscode: string
    var confirmPasscode: string
    var securityWord: string
    var showProfileSettings: bool
    var newName: string
    var newColor: string
    var showRemoveData: bool
    var removeWatchlist: bool
    var removeHistory: bool
    var removeSecurity: bool

    /** The screen as first rendered for a profile: the welcome shows when `first_login` is true. */
    constructor (p: Profile)
      ensures profile == p && showWelcome == (p.firstLogin == Some(true))
      ensures !showSeasonal && seasonal.None? && passcodeMode.None?
      ensures newPasscode == "" && confirmPasscode == "" && securityWord == ""
      ensures newName == p.name && newColor == p.avatarColor
      ensures !showRemoveData && !removeWatchlist && !removeHistory && !removeSecurity
      ensures watchlist == [] && continueWatching == []
    {
      profile := p;
      watchlist, continueWatching := [], [];
      showWelcome := p.firstLogin == Some(true);
      showSeasonal, seasonal := false, None;
      passcodeMode := None;
      newPasscode, confirmPasscode, securityWord := "", "", "";
      showProfileSettings := false;
      newName, newColor := p.name, p.avatarColor;
      showRemoveData := false;
      removeWatchlist, removeHistory, removeSecurity := false, false, false;
    }

    /**
     * A render with a new `profile` prop, which the shell passes after every
     * onProfileUpdate (see App.Shell.ProfileUpdate). The shell re-reads the
     * stored profile of the same id, so the effects keyed on the id do not run
     * again and the screen's own state stays as it was.
     */
    method ProfileChanged(p: Profile)
      requires p.id == profile.id
      modifies this
      ensures profile == p
      ensures watchlist == old(watchlist) && continueWatching == old(continueWatching)
      ensures showWelcome == old(showWelcome) && showSeasonal == old(showSeasonal) && seasonal == old(seasonal)
      ensures passcodeMode == old(passcodeMode) && newPasscode == old(newPasscode)
      ensures confirmPasscode == old(confirmPasscode) && securityWord == old(securityWord)
      ensures showProfileSettings == old(showProfileSettings) && newName == old(newName) && newColor == old(newColor)
      ensures showRemoveData == old(showRemoveData) && removeWatchlist == old(removeWatchlist)
      ensures removeHistory == old(removeHistory) && removeSecurity == old(removeSecurity)
    {
      profile := p;
    }

    /** loadWatchlist and loadContinueWatching: read the profile's rows from the store. */
    method Reload(store: Storage.Store)
      modifies this
      ensures watchlist == GetWatchlist(store.State(), Some(profile.id))
      ensures continueWatching == Take(DedupFirst(GetWatchHistory(store.State(), Some(profile.id)), TitleKey),
                                       ContinueWatchingLimit)
      ensures profile == old(profile) && showWelcome == old(showWelcome) && showSeasonal == old(showSeasonal)
      ensures passcodeMode == old(passcodeMode) && showRemoveData == old(showRemoveData)
      ensures removeWatchlist == old(removeWatchlist) && removeHistory == old(removeHistory)
      ensures removeSecurity == old(removeSecurity)
    {
      watchlist := GetWatchlist(store.State(), Some(profile.id));
      continueWatching := ContinueWatching(GetWatchHistory(store.State(), Some(profile.id)));
    }

    /**
     * The effect run when the screen opens for a profile on day `today`: a
     * profile that never logged in is saved with `first_login` true and greeted;
     * the seasonal popup opens when today's key is not remembered and today is
     * in a window (the poster refresh is left out).
     */
    method Open(store: Storage.Store, today: Day)
      modifies this, store
      ensures profile.firstLogin.None? ==>
        store.State() == StorageState.SaveProfile(old(store.State()), profile.(firstLogin := Some(true))) && showWelcome
      ensures profile.firstLogin.Some? ==> store.State() == old(store.State()) && showWelcome == old(showWelcome)
      ensures ConsidersSeasonal(profile, today) ==>
        && showSeasonal == SeasonOf(today).Some?
        && seasonal == (if SeasonOf(today).Some? then SeasonOf(today) else old(seasonal))
      ensures !ConsidersSeasonal(profile, today) ==> seasonal == old(seasonal) && showSeasonal == old(showSeasonal)
      ensures profile == old(profile) && passcodeMode == old(passcodeMode)
    {
      FirstLogin(store);
      if ConsidersSeasonal(profile, today) {
        var s := SeasonOf(today);
        if s.Some? {
          seasonal := s;
          showSeasonal := true;
        } else {
          showSeasonal := false;
        }
      }
    }

    /** The first-login half of Open. */
    method FirstLogin(store: Storage.Store)
      modifies this, store
      ensures profile.firstLogin.None? ==>
        store.State() == StorageState.SaveProfile(old(store.State()), profile.(firstLogin := Some(true))) && showWelcome
      ensures profile.firstLogin.Some? ==> store.State() == old(store.State()) && showWelcome == old(showWelcome)
      ensures profile == old(profile) && passcodeMode == old(passcodeMode)
      ensures seasonal == old(seasonal) && showSeasonal == old(showSeasonal)
    {
      if profile.firstLogin.None? {
        store.SaveProfile(profile.(firstLogin := Some(true)));
        showWelcome := true;
      }
    }

    /** handleWelcomeClose: the profile is saved with `first_login` false. */
    method WelcomeClose(store: Storage.Store)
      modifies this, store
      ensures store.State() == StorageState.SaveProfile(old(store.State()), profile.(firstLogin := Some(false)))
      ensures !showWelcome && profile == old(profile)
    {
      store.SaveProfile(profile.(firstLogin := Some(false)));
      showWelcome := false;
    }

    /** handleSeasonalClose on day `today`: the profile remembers today's key. */
    method SeasonalClose(store: Storage.Store, today: Day)
      modifies this, store
      ensures store.State() == StorageState.SaveProfile(old(store.State()), profile.(seasonalShown := Some(SeasonalKey(today))))
      ensures !showSeasonal && profile == old(profile)
    {
      store.SaveProfile(profile.(seasonalShown := Some(SeasonalKey(today))));
      showSeasonal := false;
    }

    /** handleSaveProfile: the edited name and colour are saved. */
    method SaveProfileSettings(store: Storage.Store)
      modifies this, store
      ensures store.State() == StorageState.SaveProfile(old(store.State()), WithNameAndColor(profile, newName, newColor))
      ensures !showProfileSettings && profile == old(profile)
    {
      store.SaveProfile(WithNameAndColor(profile, newName, newColor));
      showProfileSettings := false;
    }

    /**
     * handlePasscodeAction: a failed check returns its alert and changes
     * nothing; otherwise the new profile (if any) is saved and the dialog closes
     * with its fields cleared.
     */
    method PasscodeAction(store: Storage.Store) returns (alert: Option<string>)
      modifies this, store
      ensures var u := PasscodeUpdate(old(passcodeMode), profile, old(newPasscode), old(confirmPasscode), old(securityWord));
        && (u.Failure? ==> alert == Some(u.message) && unchanged(this) && unchanged(store))
        && (u.Success? ==>
              && alert.None? && passcodeMode.None?
              && newPasscode == "" && confirmPasscode == "" && securityWord == ""
              && store.State() == (if u.value.Some? then StorageState.SaveProfile(old(store.State()), u.value.value)
                                   else old(store.State())))
      ensures profile == old(profile)
    {
      var u := PasscodeUpdate(passcodeMode, profile, newPasscode, confirmPasscode, securityWord);
      if u.Failure? {
        return Some(u.message);
      }
      if u.value.Some? {
        store.SaveProfile(u.value.value);
      }
      alert := None;
      passcodeMode := None;
      newPasscode, confirmPasscode, securityWord := "", "", "";
    }

    /**
     * handleRemoveData: nothing when no box is ticked; otherwise the removal, the
     * rows reloaded and the dialog closed with its boxes cleared.
     */
    method RemoveData(store: Storage.Store)
      modifies this, store
      ensures var options := RemoveOptions(old(removeWatchlist), old(removeHistory), old(removeSecurity));
        && (!AnySelected(options) ==> unchanged(this) && unchanged(store))
        && (AnySelected(options) ==>
              && store.State() == ProfileSettings.RemoveData(old(store.State()), profile.id, options)
              && watchlist == GetWatchlist(store.State(), Some(profile.id))
              && continueWatching == Take(DedupFirst(GetWatchHistory(store.State(), Some(profile.id)), TitleKey),
                                          ContinueWatchingLimit)
              && !showRemoveData && !removeWatchlist && !removeHistory && !removeSecurity)
      ensures profile == old(profile)
    {
      var options := RemoveOptions(removeWatchlist, removeHistory, removeSecurity);
      if !AnySelected(options) {
        return;
      }
      showRemoveData := false;
      removeWatchlist, removeHistory, removeSecurity := false, false, false;
      ApplyRemoval(store, profile.id, options);
      Reload(store);
    }

    /**
     * handleToggleSearchHistory, with the switch position read from the store.
     * Reading it for a profile that is no longer stored throws, which is the
     * `Failure` result; the store is then unchanged.
     */
    method ToggleSearchHistory(store: Storage.Store) returns (r: Result<bool>)
      modifies store
      ensures r == GetSearchHistoryEnabled(old(store.State()), profile.id)
      ensures r.Failure? ==> store.State() == old(store.State())
      ensures r.Success? ==> store.State() == ProfileSettings.ToggleSearchHistory(old(store.State()), profile.id, r.value)
    {
      r := GetSearchHistoryEnabled(store.State(), profile.id);
      if r.Success? {
        ApplyToggle(store, profile.id, r.value);
      }
    }

    /** handleAddToWatchlist: a new row for the title, under a fresh id, then the list reloaded. */
    method AddToWatchlist(store: Storage.Store, tmdbId: int, mediaType: MediaType, title: string,
                          posterPath: Option<string>, newId: string, createdAt: string)
      modifies this, store
      ensures var item := WatchlistItem(newId, profile.id, Some(tmdbId), mediaType, title,
                                        if Truthy(posterPath) then posterPath else None, None, createdAt);
        store.State() == StorageState.AddToWatchlist(old(store.State()), item)
      ensures watchlist == GetWatchlist(store.State(), Some(profile.id)) && profile == old(profile)
    {
      var item := WatchlistItem(newId, profile.id, Some(tmdbId), mediaType, title,
                                if Truthy(posterPath) then posterPath else None, None, createdAt);
      store.AddToWatchlist(item);
      watchlist := GetWatchlist(store.State(), Some(profile.id));
    }

    /** handleRemoveFromWatchlist: the profile's row for the title goes, then the list is reloaded. */
    method RemoveFromWatchlist(store: Storage.Store, tmdbId: int)
      modifies this, store
      ensures store.State() == StorageState.RemoveFromWatchlist(old(store.State()), profile.id, tmdbId)
      ensures watchlist == GetWatchlist(store.State(), Some(profile.id)) && profile == old(profile)
    {
      store.RemoveFromWatchlist(profile.id, tmdbId);
      watchlist := GetWatchlist(store.State(), Some(profile.id));
    }
  }
}
