/**
 * What the storage operations of src/lib/storage.ts guarantee: uniqueness of the
 * stored rows, what each mutator changes and what it leaves alone, the search
 * history and pinned-channel rules, the attempt counter, and the export/import
 * round trip.
 */
module StorageLaws {
  import opened Types
  import opened Text
  import opened Collections
  import opened StorageState
  import Base64
  import Codec

  // ---------------------------------------------------------------------------
  // Profiles
  // ---------------------------------------------------------------------------

  /**
   * saveProfile replaces the profile with the same id in place or appends it; the
   * other profiles and their order are unchanged, and nothing else is touched.
   */
  lemma SaveProfileLaws(s: StoreState, p: Profile)
    requires Valid(s)
    ensures var r := SaveProfile(s, p);
      && Valid(r)
      && FindProfile(r, p.id) == Some(p)
      && Filter(r.profiles, (q: Profile) => q.id != p.id) == Filter(s.profiles, (q: Profile) => q.id != p.id)
      && (|r.profiles| == |s.profiles| <==> FindProfile(s, p.id).Some?)
      && (FindProfile(s, p.id).None? ==> r.profiles == s.profiles + [p])
      && r.(profiles := s.profiles) == s
  {
    UpsertLaws(s.profiles, ProfileKey, p, (q: Profile) => q.id == p.id, (q: Profile) => q.id != p.id);
  }

  /** The capacity test reads the number of stored profiles; deleting one of ten stored profiles lifts it. */
  lemma ProfileLimitAfterDelete(s: StoreState, id: string)
    requires Valid(s) && |s.profiles| == 10 && FindProfile(s, id).Some?
    ensures IsProfileLimitReached(s)
    ensures !IsProfileLimitReached(DeleteProfile(s, id))
  {
    var p := FindProfile(s, id).value;
    var r := Filter(s.profiles, (q: Profile) => q.id != id);
    assert p in s.profiles && p !in r;
    assert |r| < |s.profiles| by {
      SubseqShorter(r, s.profiles, p);
    }
  }

  lemma {:induction false} SubseqShorter<T(!new)>(a: seq<T>, b: seq<T>, x: T)
    requires Subseq(a, b) && x in b && x !in a
    ensures |a| < |b|
  {
    SubseqLength(a, b);
    if |a| == |b| {
      SubseqSameLength(a, b);
    }
  }

  lemma {:induction false} SubseqLength<T(!new)>(a: seq<T>, b: seq<T>)
    requires Subseq(a, b)
    ensures |a| <= |b|
  {
    if |a| > 0 {
      if a[0] == b[0] {
        SubseqLength(a[1..], b[1..]);
      } else {
        SubseqLength(a, b[1..]);
      }
    }
  }

  lemma {:induction false} SubseqSameLength<T(!new)>(a: seq<T>, b: seq<T>)
    requires Subseq(a, b) && |a| == |b|
    ensures a == b
  {
    if |a| > 0 {
      if a[0] == b[0] {
        SubseqSameLength(a[1..], b[1..]);
        assert a == [a[0]] + a[1..] && b == [b[0]] + b[1..];
      } else {
        SubseqLength(a, b[1..]);
      }
    }
  }

  /**
   * deleteProfile removes the profile and every history and watchlist row of it,
   * keeps every row of other profiles, and does not touch ratings, search
   * history, avatars, pinned channels or failed attempts.
   */
  lemma DeleteProfileLaws(s: StoreState, id: string)
    requires Valid(s)
    ensures var r := DeleteProfile(s, id);
      && Valid(r)
      && FindProfile(r, id).None?
      && (forall p :: p in r.profiles <==> p in s.profiles && p.id != id)
      && (forall h :: h in r.history <==> h in s.history && h.profileId != id)
      && (forall w :: w in r.watchlist <==> w in s.watchlist && w.profileId != id)
      && r.ratings == s.ratings && r.searchHistory == s.searchHistory && r.customAvatars == s.customAvatars
      && r.pinnedChannels == s.pinnedChannels && r.failedAttempts == s.failedAttempts
  {
    FilterUnique(s.profiles, (p: Profile) => p.id != id, ProfileKey);
    var r := DeleteProfile(s, id);
    forall j | 0 <= j < |r.profiles| ensures r.profiles[j].id != id {
      assert r.profiles[j] in r.profiles;
    }
    FilterUnique(s.history, (h: WatchHistory) => h.profileId != id, HistoryKey);
    FilterUnique(s.watchlist, (w: WatchlistItem) => w.profileId != id, WatchKey);
  }

  /**
   * deleteAllData empties the seven keys of STORAGE_KEYS; ratings, pinned channels,
   * saved recommendations, failed attempts, the access lock and the hero settings
   * survive.
   */
  lemma DeleteAllDataLaws(s: StoreState, id: string)
    ensures var r := DeleteAllData(s);
      && GetProfiles(r) == [] && GetWatchHistory(r, None) == [] && GetWatchlist(r, None) == []
      && GetTheme(r) == System && GetPreferredServer(r) == None
      && GetSearchHistory(r, id) == [] && GetCustomAvatar(r, id) == None
      && r.ratings == s.ratings && r.pinnedChannels == s.pinnedChannels
      && r.savedRecommendations == s.savedRecommendations && r.failedAttempts == s.failedAttempts
      && r.accessLocked == s.accessLocked && r.heroAutoplay == s.heroAutoplay && r.heroMuted == s.heroMuted
  {
  }

  // ---------------------------------------------------------------------------
  // Watch history
  // ---------------------------------------------------------------------------

  /** saveWatchHistory keeps one row per id; the row with h's id is h; other rows keep their order. */
  lemma SaveWatchHistoryLaws(s: StoreState, h: WatchHistory)
    requires Valid(s)
    ensures var r := SaveWatchHistory(s, h);
      && Valid(r)
      && Find(r.history, (x: WatchHistory) => x.id == h.id) == Some(h)
      && Filter(r.history, (x: WatchHistory) => x.id != h.id) == Filter(s.history, (x: WatchHistory) => x.id != h.id)
      && r.(history := s.history) == s
  {
    UpsertLaws(s.history, HistoryKey, h, (x: WatchHistory) => x.id == h.id, (x: WatchHistory) => x.id != h.id);
  }

  // ---------------------------------------------------------------------------
  // Watchlist
  // ---------------------------------------------------------------------------

  /**
   * addToWatchlist appends only when no row has the same (profile, tmdb id), so it
   * keeps rows unique, adding twice is adding once, and afterwards the title is in
   * the profile's watchlist.
   */
  lemma AddToWatchlistLaws(s: StoreState, item: WatchlistItem)
    requires Valid(s)
    ensures var r := AddToWatchlist(s, item);
      && Valid(r)
      && AddToWatchlist(r, item) == r
      && (item.tmdbId.Some? ==> IsInWatchlist(r, item.profileId, item.tmdbId.value))
      && (r == s <==> exists w :: w in s.watchlist && WatchKey(w) == WatchKey(item))
      && (r != s ==> r.watchlist == s.watchlist + [item])
  {
    var r := AddToWatchlist(s, item);
    var same := (w: WatchlistItem) => WatchKey(w) == WatchKey(item);
    if Find(s.watchlist, same).None? {
      var l := s.watchlist + [item];
      assert l[|s.watchlist|] == item;
      forall i, j | 0 <= i < j < |l| ensures WatchKey(l[i]) != WatchKey(l[j]) {
        if j == |s.watchlist| {
          assert !same(s.watchlist[i]);
        }
      }
      assert r.watchlist == l;
      assert r != s by { assert |r.watchlist| != |s.watchlist|; }
    }
    var found := Find(r.watchlist, same);
    assert found.Some?;
    if item.tmdbId.Some? {
      var w := found.value;
      if item.profileId != "" {
        assert w in GetWatchlist(r, Some(item.profileId));
      }
    }
  }

  /** After removeFromWatchlist the title is no longer in the profile's watchlist; every other row stays. */
  lemma RemoveFromWatchlistLaws(s: StoreState, profileId: string, tmdbId: int)
    requires Valid(s) && profileId != ""
    ensures var r := RemoveFromWatchlist(s, profileId, tmdbId);
      && Valid(r)
      && !IsInWatchlist(r, profileId, tmdbId)
      && (forall w :: w in r.watchlist <==> w in s.watchlist && WatchKey(w) != (profileId, Some(tmdbId)))
  {
    var p := (w: WatchlistItem) => !(w.profileId == profileId && w.tmdbId == Some(tmdbId));
    FilterUnique(s.watchlist, p, WatchKey);
  }

  // ---------------------------------------------------------------------------
  // Ratings
  // ---------------------------------------------------------------------------

  /**
   * saveRating keeps one rating per (profile, tmdb id, media type), replacing in
   * place; getRating then returns the saved rating.
   */
  lemma SaveRatingLaws(s: StoreState, rating: Rating)
    requires Valid(s) && rating.profileId != ""
    ensures var r := SaveRating(s, rating);
      && Valid(r)
      && GetRating(r, rating.profileId, rating.tmdbId, rating.mediaType) == Some(rating)
      && Filter(r.ratings, (x: Rating) => RatingKey(x) != RatingKey(rating))
         == Filter(s.ratings, (x: Rating) => RatingKey(x) != RatingKey(rating))
      && (|r.ratings| == |s.ratings| <==> exists x :: x in s.ratings && RatingKey(x) == RatingKey(rating))
  {
    var same := (x: Rating) => RatingKey(x) == RatingKey(rating);
    UpsertLaws(s.ratings, RatingKey, rating, same, (x: Rating) => RatingKey(x) != RatingKey(rating));
    var r := SaveRating(s, rating);
    assert rating in r.ratings by {
      assert Find(r.ratings, same) == Some(rating);
    }
    var mine := GetRatings(r, Some(rating.profileId));
    var test := (x: Rating) => x.tmdbId == rating.tmdbId && x.mediaType == rating.mediaType;
    assert rating in mine;
    var got := Find(mine, test);
    assert got.Some?;
    var g := got.value;
    assert g in r.ratings && RatingKey(g) == RatingKey(rating);
    UniqueMember(r.ratings, RatingKey, g, rating);
  }

  /** Two members of a sequence with unique keys that share a key are the same element. */
  lemma UniqueMember<T(!new), K>(s: seq<T>, key: T -> K, x: T, y: T)
    requires UniqueBy(s, key) && x in s && y in s && key(x) == key(y)
    ensures x == y
  {
    var i :| 0 <= i < |s| && s[i] == x;
    var j :| 0 <= j < |s| && s[j] == y;
    assert key(s[i]) == key(s[j]);
    assert !(i < j) && !(j < i);
  }

  // ---------------------------------------------------------------------------
  // Selective removal
  // ---------------------------------------------------------------------------

  /**
   * removeProfileData acts on the given profile only: the watchlist option drops its
   * watchlist rows, the history option drops its history rows and its ratings (not
   * its search history), the security option clears its pin and security word.
   * With no option selected nothing changes.
   */
  lemma RemoveProfileDataLaws(s: StoreState, profileId: string, options: RemoveOptions)
    requires Valid(s)
    ensures var r := RemoveProfileData(s, profileId, options);
      && Valid(r)
      && (options == RemoveOptions(false, false, false) ==> r == s)
      && r.searchHistory == s.searchHistory && r.customAvatars == s.customAvatars
      && r.pinnedChannels == s.pinnedChannels && r.failedAttempts == s.failedAttempts
  {
    var s1 := if options.watchlist then
        s.(watchlist := Filter(s.watchlist, (w: WatchlistItem) => w.profileId != profileId))
      else s;
    if options.watchlist {
      FilterUnique(s.watchlist, (w: WatchlistItem) => w.profileId != profileId, WatchKey);
    }
    var s2 := if options.watchHistory then
        s1.(history := Filter(s1.history, (h: WatchHistory) => h.profileId != profileId),
            ratings := Filter(s1.ratings, (r: Rating) => r.profileId != profileId))
      else s1;
    if options.watchHistory {
      FilterUnique(s1.history, (h: WatchHistory) => h.profileId != profileId, HistoryKey);
      FilterUnique(s1.ratings, (r: Rating) => r.profileId != profileId, RatingKey);
    }
    if options.security && FindProfile(s2, profileId).Some? {
      SaveProfileLaws(s2, ClearSecurity(FindProfile(s2, profileId).value));
    }
  }

  /**
   * removeProfileData drops the profile's watchlist rows when asked, and its
   * history and ratings together when asked, and keeps every other row.
   */
  lemma RemoveProfileRowsLaws(s: StoreState, profileId: string, options: RemoveOptions)
    ensures var r := RemoveProfileData(s, profileId, options);
      && (forall w :: w in r.watchlist <==> w in s.watchlist && !(options.watchlist && w.profileId == profileId))
      && (forall h :: h in r.history <==> h in s.history && !(options.watchHistory && h.profileId == profileId))
      && (forall x :: x in r.ratings <==> x in s.ratings && !(options.watchHistory && x.profileId == profileId))
  {
    var r := RemoveProfileData(s, profileId, options);
    assert r.watchlist == if options.watchlist then Filter(s.watchlist, (w: WatchlistItem) => w.profileId != profileId)
                          else s.watchlist;
    if options.watchHistory {
      assert r.history == Filter(s.history, (h: WatchHistory) => h.profileId != profileId);
      assert r.ratings == Filter(s.ratings, (x: Rating) => x.profileId != profileId);
    } else {
      assert r.history == s.history && r.ratings == s.ratings;
    }
  }

  /**
   * With the security option, removeProfileData clears the PIN and security word of
   * an existing profile and leaves the other profiles alone; otherwise, or when
   * there is no such profile, the profiles are unchanged.
   */
  lemma RemoveProfileSecurityLaws(s: StoreState, profileId: string, options: RemoveOptions)
    requires Valid(s)
    ensures var r := RemoveProfileData(s, profileId, options);
      && (!options.security || FindProfile(s, profileId).None? ==> r.profiles == s.profiles)
      && (options.security && FindProfile(s, profileId).Some? ==>
            && FindProfile(r, profileId) == Some(ClearSecurity(FindProfile(s, profileId).value))
            && Filter(r.profiles, (q: Profile) => q.id != profileId) == Filter(s.profiles, (q: Profile) => q.id != profileId))
  {
    RemoveProfileDataProfiles(s, profileId, options);
    if options.security && FindProfile(s, profileId).Some? {
      var p := ClearSecurity(FindProfile(s, profileId).value);
      UpsertLaws(s.profiles, ProfileKey, p, (q: Profile) => q.id == p.id, (q: Profile) => q.id != p.id);
    }
  }

  /** The profiles removeProfileData leaves: only the security step touches them. */
  lemma RemoveProfileDataProfiles(s: StoreState, profileId: string, options: RemoveOptions)
    ensures RemoveProfileData(s, profileId, options).profiles
      == if options.security && FindProfile(s, profileId).Some? then
           Upsert(s.profiles, ProfileKey, ClearSecurity(FindProfile(s, profileId).value))
         else s.profiles
  {
  }

  // ---------------------------------------------------------------------------
  // Search history
  // ---------------------------------------------------------------------------

  /** No two entries are equal ignoring case. */
  predicate NoCaseDuplicates(history: seq<string>)
  {
    UniqueBy(history, ToLower)
  }

  /**
   * addSearchHistory puts the query first, keeps no other entry equal to it
   * ignoring case, keeps the remaining entries in their order, holds at most 20,
   * and keeps the history free of case-insensitive duplicates.
   */
  lemma WithQueryLaws(history: seq<string>, query: string)
    ensures var r := WithQuery(history, query);
      && 1 <= |r| <= SearchHistoryLimit
      && r[0] == query
      && (forall i :: 1 <= i < |r| ==> ToLower(r[i]) != ToLower(query))
      && r[1..] == Filter(history, (q: string) => ToLower(q) != ToLower(query))[..|r| - 1]
      && |r| == (var n := 1 + |Filter(history, (q: string) => ToLower(q) != ToLower(query))|;
                 if n <= SearchHistoryLimit then n else SearchHistoryLimit)
      && (NoCaseDuplicates(history) ==> NoCaseDuplicates(r))
  {
    var keep := (q: string) => ToLower(q) != ToLower(query);
    var f := Filter(history, keep);
    var full := [query] + f;
    var r := WithQuery(history, query);
    assert r == full[..|r|];
    forall i | 1 <= i < |r| ensures ToLower(r[i]) != ToLower(query) {
      assert r[i] == f[i - 1];
      assert f[i - 1] in f;
    }
    assert r[1..] == f[..|r| - 1];
    if NoCaseDuplicates(history) {
      FilterUnique(history, keep, ToLower);
      forall i, j | 0 <= i < j < |r| ensures ToLower(r[i]) != ToLower(r[j]) {
        if i > 0 {
          assert r[i] == f[i - 1] && r[j] == f[j - 1];
        }
      }
    }
  }

  /** Searching for the same query twice in a row leaves the history as after the first search. */
  lemma WithQueryIdempotent(history: seq<string>, query: string)
    ensures WithQuery(WithQuery(history, query), query) == WithQuery(history, query)
  {
    var keep := (q: string) => ToLower(q) != ToLower(query);
    var r := WithQuery(history, query);
    WithQueryLaws(history, query);
    assert r == [r[0]] + r[1..];
    assert Filter(r, keep) == Filter(r[1..], keep);
    FilterKeepsAll(r[1..], keep);
    assert [query] + Filter(r, keep) == r;
  }

  /** addSearchHistory and clearSearchHistory change only the given profile's entry. */
  lemma SearchHistoryLocal(s: StoreState, profileId: string, query: string, other: string)
    requires other != profileId
    ensures GetSearchHistory(AddSearchHistory(s, profileId, query), other) == GetSearchHistory(s, other)
    ensures GetSearchHistory(ClearSearchHistory(s, profileId), other) == GetSearchHistory(s, other)
    ensures GetSearchHistory(ClearSearchHistory(s, profileId), profileId) == []
    ensures GetSearchHistory(AddSearchHistory(s, profileId, query), profileId)[0] == query
    ensures AddSearchHistory(s, profileId, query).(searchHistory := s.searchHistory) == s
  {
    WithQueryLaws(GetSearchHistory(s, profileId), query);
  }

  /** getSearchHistoryEnabled reads the flag setSearchHistoryEnabled wrote (history is on unless set to false). */
  lemma SearchHistoryEnabledLaws(s: StoreState, profileId: string, enabled: bool)
    requires Valid(s)
    ensures FindProfile(s, profileId).None? <==> GetSearchHistoryEnabled(s, profileId).Failure?
    ensures FindProfile(s, profileId).Some? ==>
      GetSearchHistoryEnabled(SetSearchHistoryEnabled(s, profileId, enabled), profileId) == Success(enabled)
    ensures FindProfile(s, profileId).None? ==> SetSearchHistoryEnabled(s, profileId, enabled) == s
  {
    if FindProfile(s, profileId).Some? {
      var p := FindProfile(s, profileId).value;
      SaveProfileLaws(s, p.(searchHistoryEnabled := Some(enabled)));
    }
  }

  // ---------------------------------------------------------------------------
  // Pinned channels
  // ---------------------------------------------------------------------------

  predicate NoDuplicates(s: seq<string>)
  {
    forall i, j :: 0 <= i < j < |s| ==> s[i] != s[j]
  }

  /** Toggling a name that is not pinned appends it, and toggling again gives back the list. */
  lemma ToggledAbsent(pinned: seq<string>, name: string)
    requires name !in pinned
    ensures Toggled(pinned, name) == pinned + [name]
    ensures Toggled(Toggled(pinned, name), name) == pinned
  {
    var eq := (n: string) => n == name;
    var t := pinned + [name];
    IndexWhereFirst(t, eq, |pinned|);
    assert t[..|pinned|] == pinned;
    assert t[|pinned| + 1..] == [];
  }

  /** Toggling a pinned name removes exactly one copy of it. */
  lemma ToggledRemoves(pinned: seq<string>, name: string)
    requires name in pinned
    ensures multiset(Toggled(pinned, name)) == multiset(pinned) - multiset{name}
  {
    var index := IndexWhere(pinned, (n: string) => n == name);
    assert pinned == pinned[..index] + [name] + pinned[index + 1..];
  }

  /** On a list without duplicates a toggle keeps it duplicate-free and flips whether the name is pinned. */
  lemma ToggledNoDuplicates(pinned: seq<string>, name: string)
    requires NoDuplicates(pinned)
    ensures NoDuplicates(Toggled(pinned, name))
    ensures name in Toggled(pinned, name) <==> name !in pinned
  {
    var index := IndexWhere(pinned, (n: string) => n == name);
    if index >= 0 {
      var t := pinned[..index] + pinned[index + 1..];
      forall i | 0 <= i < |t| ensures t[i] != name && (t[i] == if i < index then pinned[i] else pinned[i + 1]) {
        if i < index { assert t[i] == pinned[i]; } else { assert t[i] == pinned[i + 1]; }
      }
    } else {
      ToggledAbsent(pinned, name);
    }
  }

  /**
   * On a list without duplicates two toggles of the same name give back the same
   * pinned names (a pinned name comes back at the end of the list).
   */
  lemma ToggledTwice(pinned: seq<string>, name: string)
    requires NoDuplicates(pinned)
    ensures multiset(Toggled(Toggled(pinned, name), name)) == multiset(pinned)
  {
    if name in pinned {
      var t := Toggled(pinned, name);
      ToggledRemoves(pinned, name);
      ToggledNoDuplicates(pinned, name);
      ToggledAbsent(t, name);
    } else {
      ToggledAbsent(pinned, name);
    }
  }

  /** togglePinnedChannel changes the given profile's list only. */
  lemma TogglePinnedChannelLocal(s: StoreState, profileId: string, channelName: string, other: string)
    requires other != profileId
    ensures var r := TogglePinnedChannel(s, profileId, channelName);
      && GetPinnedChannels(r, other) == GetPinnedChannels(s, other)
      && GetPinnedChannels(r, profileId) == Toggled(GetPinnedChannels(s, profileId), channelName)
      && r.(pinnedChannels := s.pinnedChannels) == s
  {
  }

  // ---------------------------------------------------------------------------
  // Access tokens, failed attempts, lock
  // ---------------------------------------------------------------------------

  /** verifyAccessToken ignores case (through toUpperCase) and accepts only five-character tokens. */
  lemma VerifyAccessTokenLaws(token: string)
    ensures VerifyAccessToken(token) ==> |token| == 5
    ensures VerifyAccessToken(ToLower(token)) <==> VerifyAccessToken(token)
  {
    assert ToUpper(ToLower(token)) == ToUpper(token);
  }

  /**
   * incrementFailedAttempts counts one more failure for the profile and returns the
   * new count; from the fifth failure on the access lock is set; other profiles'
   * counts and the rest of the store are untouched.
   */
  lemma IncrementFailedAttemptsLaws(s: StoreState, profileId: string, other: string)
    requires other != profileId
    ensures var t := IncrementFailedAttempts(s, profileId);
      && t.1 == GetFailedAttempts(s, profileId) + 1
      && GetFailedAttempts(t.0, profileId) == t.1
      && GetFailedAttempts(t.0, other) == GetFailedAttempts(s, other)
      && (GetAccessLockStatus(t.0) <==> GetAccessLockStatus(s) || t.1 >= AttemptsBeforeLock)
      && t.0.(failedAttempts := s.failedAttempts, accessLocked := s.accessLocked) == s
  {
  }

  /** n failed attempts in a row for one profile. */
  function FailTimes(s: StoreState, profileId: string, n: nat): StoreState
  {
    if n == 0 then s else IncrementFailedAttempts(FailTimes(s, profileId, n - 1), profileId).0
  }

  lemma {:induction false} FailTimesLaws(s: StoreState, profileId: string, n: nat)
    ensures GetFailedAttempts(FailTimes(s, profileId, n), profileId) == GetFailedAttempts(s, profileId) + n
    ensures GetAccessLockStatus(FailTimes(s, profileId, n)) <==>
      GetAccessLockStatus(s) || (n > 0 && GetFailedAttempts(s, profileId) + n >= AttemptsBeforeLock)
    ensures FailTimes(s, profileId, n).(failedAttempts := s.failedAttempts, accessLocked := s.accessLocked) == s
  {
    if n > 0 {
      FailTimesLaws(s, profileId, n - 1);
    }
  }

  /**
   * After resetFailedAttempts, with the app unlocked, the lock is set exactly when
   * five or more wrong entries follow.
   */
  lemma LockAfterFiveFailures(s: StoreState, profileId: string, n: nat)
    requires !GetAccessLockStatus(s)
    ensures GetAccessLockStatus(FailTimes(ResetFailedAttempts(s, profileId), profileId, n)) <==> n >= AttemptsBeforeLock
  {
    FailTimesLaws(ResetFailedAttempts(s, profileId), profileId, n);
  }

  /** resetFailedAttempts sets the profile's count back to 0 and touches nothing else. */
  lemma ResetFailedAttemptsLaws(s: StoreState, profileId: string, other: string)
    requires other != profileId
    ensures GetFailedAttempts(ResetFailedAttempts(s, profileId), profileId) == 0
    ensures GetFailedAttempts(ResetFailedAttempts(s, profileId), other) == GetFailedAttempts(s, other)
    ensures ResetFailedAttempts(s, profileId).(failedAttempts := s.failedAttempts) == s
  {
  }

  // ---------------------------------------------------------------------------
  // Theme, avatars, saved recommendations
  // ---------------------------------------------------------------------------

  /** The effective theme is never "system": it resolves to the stored theme or the system preference. */
  lemma EffectiveThemeLaws(s: StoreState, theme: Theme, systemPrefersDark: bool)
    ensures GetEffectiveTheme(s, systemPrefersDark) != System
    ensures GetTheme(SaveTheme(s, theme)) == theme
    ensures GetEffectiveTheme(SaveTheme(s, theme), systemPrefersDark)
      == (if theme != System then theme else if systemPrefersDark then Dark else Light)
    ensures GetTheme(Empty) == System
  {
  }

  /** A saved avatar is read back; deleting it or another profile's avatar leaves the others. */
  lemma CustomAvatarLaws(s: StoreState, profileId: string, avatar: Avatar, other: string)
    requires other != profileId
    ensures GetCustomAvatar(SaveCustomAvatar(s, profileId, avatar), profileId) == Some(avatar)
    ensures GetCustomAvatar(SaveCustomAvatar(s, profileId, avatar), other) == GetCustomAvatar(s, other)
    ensures GetCustomAvatar(DeleteCustomAvatar(s, profileId), profileId) == None
    ensures GetCustomAvatar(DeleteCustomAvatar(s, profileId), other) == GetCustomAvatar(s, other)
    ensures DeleteCustomAvatar(SaveCustomAvatar(s, profileId, avatar), profileId) == DeleteCustomAvatar(s, profileId)
  {
    assert (s.customAvatars[profileId := avatar]) - {profileId} == s.customAvatars - {profileId};
  }

  /** A saved set of recommendations is listed last for its profile; deleting by id removes only that id. */
  lemma SavedRecommendationsLaws(s: StoreState, profileId: string, recommendations: seq<string>, filters: string,
                                 newId: string, savedAt: string, other: string)
    requires other != profileId
    ensures var r := SaveRecommendations(s, profileId, recommendations, filters, newId, savedAt);
      && GetSavedRecommendations(r, profileId)
         == GetSavedRecommendations(s, profileId) + [SavedRecommendation(newId, profileId, recommendations, filters, savedAt)]
      && GetSavedRecommendations(r, other) == GetSavedRecommendations(s, other)
    ensures forall x :: x in DeleteSavedRecommendations(s, newId).savedRecommendations <==>
      x in s.savedRecommendations && x.id != newId
  {
    var x := SavedRecommendation(newId, profileId, recommendations, filters, savedAt);
    FilterAppend(s.savedRecommendations, [x], (r: SavedRecommendation) => r.profileId == profileId);
    FilterAppend(s.savedRecommendations, [x], (r: SavedRecommendation) => r.profileId == other);
  }
}
