/**
 * localStorage as the application uses it (src/lib/storage.ts): one field per
 * storage key, and one method per mutator. Every mutator reads the whole
 * collection, changes it in place and writes it back; its contract ties the new
 * contents to the matching function of StorageState, whose laws are proved in
 * StorageLaws and ImportLaws.
 */
module Storage {
  import opened Types
  import opened Collections
  import opened StorageState
  import StorageLaws
  import ImportLaws
  import Base64
  import Codec

  class Store {
    var profiles: seq<Profile>
    var history: seq<WatchHistory>
    var watchlist: seq<WatchlistItem>
    var theme: Option<Theme>
    var preferredServer: Option<string>
    var searchHistory: map<string, seq<string>>
    var customAvatars: map<string, Avatar>
    var ratings: seq<Rating>
    var savedRecommendations: seq<SavedRecommendation>
    var pinnedChannels: map<string, seq<string>>
    var failedAttempts: map<string, int>
    var accessLocked: bool
    var heroAutoplay: Option<string>
    var heroMuted: Option<string>

    /** The contents of every key, as a value. */
    function State(): StoreState
      reads this
    {
      StoreState(profiles, history, watchlist, theme, preferredServer, searchHistory, customAvatars, ratings,
                 savedRecommendations, pinnedChannels, failedAttempts, accessLocked, heroAutoplay, heroMuted)
    }

    /** A fresh browser profile: every key absent. */
    constructor ()
      ensures State() == Empty
    {
      profiles := [];
      history := [];
      watchlist := [];
      theme := None;
      preferredServer := None;
      searchHistory := map[];
      customAvatars := map[];
      ratings, savedRecommendations := [], [];
      pinnedChannels, failedAttempts := map[], map[];
      accessLocked := false;
      heroAutoplay, heroMuted := None, None;
    }

    // -------------------------------------------------------------------------
    // Profiles
    // -------------------------------------------------------------------------

    method SaveProfile(profile: Profile)
      modifies this
      ensures State() == StorageState.SaveProfile(old(State()), profile)
      ensures Valid(old(State())) ==> Valid(State())
    {
      var all := profiles;
      var index := IndexWhere(all, (p: Profile) => ProfileKey(p) == ProfileKey(profile));
      if index >= 0 {
        all := all[index := profile];
      } else {
        all := all + [profile];
      }
      profiles := all;
      ghost var after := StorageState.SaveProfile(old(State()), profile);
      assert State() == after;
      if Valid(old(State())) {
        assert Valid(after) by {
          ImportLaws.SaveProfileValid(old(State()), profile);
        }
      }
    }

    method DeleteProfile(profileId: string)
      modifies this
      ensures State() == StorageState.DeleteProfile(old(State()), profileId)
      ensures Valid(old(State())) ==> Valid(State())
    {
      profiles := Filter(profiles, (p: Profile) => p.id != profileId);
      history := Filter(history, (h: WatchHistory) => h.profileId != profileId);
      watchlist := Filter(watchlist, (w: WatchlistItem) => w.profileId != profileId);
      ghost var after := StorageState.DeleteProfile(old(State()), profileId);
      assert State() == after;
      if Valid(old(State())) {
        assert Valid(after) by {
          StorageLaws.DeleteProfileLaws(old(State()), profileId);
        }
      }
    }

    /** Removes the seven keys of STORAGE_KEYS, one after another. */
    method DeleteAllData()
      modifies this
      ensures State() == StorageState.DeleteAllData(old(State()))
    {
      ClearProfileKeys();
      ClearSettingKeys();
    }

    /** Removes the profiles, watch history and watchlist keys. */
    method ClearProfileKeys()
      modifies this
      ensures State() == old(State()).(profiles := [], history := [], watchlist := [])
    {
      profiles, history, watchlist := [], [], [];
    }

    /** Removes the theme, preferred server, search history and avatar keys. */
    method ClearSettingKeys()
      modifies this
      ensures State() == old(State()).(theme := None, preferredServer := None, searchHistory := map[], customAvatars := map[])
    {
      theme, preferredServer := None, None;
      searchHistory, customAvatars := map[], map[];
    }

    method SaveProfiles(all: seq<Profile>)
      modifies this
      ensures State() == StorageState.SaveProfiles(old(State()), all)
    {
      profiles := all;
    }

    // -------------------------------------------------------------------------
    // Watch history, watchlist, ratings
    // -------------------------------------------------------------------------

    method SaveWatchHistory(h: WatchHistory)
      modifies this
      ensures State() == StorageState.SaveWatchHistory(old(State()), h)
      ensures Valid(old(State())) ==> Valid(State())
    {
      var all := history;
      var index := IndexWhere(all, (x: WatchHistory) => HistoryKey(x) == HistoryKey(h));
      if index >= 0 {
        all := all[index := h];
      } else {
        all := all + [h];
      }
      history := all;
      ghost var after := StorageState.SaveWatchHistory(old(State()), h);
      assert State() == after;
      if Valid(old(State())) {
        assert Valid(after) by {
          UpsertUnique(old(State()).history, HistoryKey, h);
        }
      }
    }

    method AddToWatchlist(item: WatchlistItem)
      modifies this
      ensures State() == StorageState.AddToWatchlist(old(State()), item)
      ensures Valid(old(State())) ==> Valid(State())
    {
      var all := watchlist;
      var exists_ := Find(all, (w: WatchlistItem) => WatchKey(w) == WatchKey(item));
      if exists_.None? {
        all := all + [item];
        watchlist := all;
      }
      ghost var after := StorageState.AddToWatchlist(old(State()), item);
      assert State() == after;
      if Valid(old(State())) {
        assert Valid(after) by {
          ImportLaws.AddRowUnique(old(State()).watchlist, item);
        }
      }
    }

    method RemoveFromWatchlist(profileId: string, tmdbId: int)
      modifies this
      ensures State() == StorageState.RemoveFromWatchlist(old(State()), profileId, tmdbId)
      ensures Valid(old(State())) ==> Valid(State())
    {
      watchlist := Filter(watchlist, (w: WatchlistItem) => !(w.profileId == profileId && w.tmdbId == Some(tmdbId)));
      ghost var after := StorageState.RemoveFromWatchlist(old(State()), profileId, tmdbId);
      assert State() == after;
      if Valid(old(State())) {
        assert Valid(after) by {
          FilterUnique(old(State()).watchlist,
                       (w: WatchlistItem) => !(w.profileId == profileId && w.tmdbId == Some(tmdbId)), WatchKey);
        }
      }
    }

    method SaveRating(rating: Rating)
      modifies this
      ensures State() == StorageState.SaveRating(old(State()), rating)
      ensures Valid(old(State())) ==> Valid(State())
    {
      var all := ratings;
      var index := IndexWhere(all, (r: Rating) => RatingKey(r) == RatingKey(rating));
      if index >= 0 {
        all := all[index := rating];
      } else {
        all := all + [rating];
      }
      ratings := all;
      ghost var after := StorageState.SaveRating(old(State()), rating);
      assert State() == after;
      if Valid(old(State())) {
        assert Valid(after) by {
          UpsertUnique(old(State()).ratings, RatingKey, rating);
        }
      }
    }

    // -------------------------------------------------------------------------
    // Theme, preferred server, hero settings
    // -------------------------------------------------------------------------

    method SaveTheme(t: Theme)
      modifies this
      ensures State() == StorageState.SaveTheme(old(State()), t)
    {
      theme := Some(t);
    }

    method SetPreferredServer(serverKey: string)
      modifies this
      ensures State() == StorageState.SetPreferredServer(old(State()), serverKey)
    {
      preferredServer := Some(serverKey);
    }

    /** localStorage.setItem('simplstream_hero_autoplay', value). */
    method SetHeroAutoplay(value: string)
      modifies this
      ensures State() == old(State()).(heroAutoplay := Some(value))
    {
      heroAutoplay := Some(value);
    }

    /** localStorage.setItem('simplstream_hero_muted', value). */
    method SetHeroMuted(value: string)
      modifies this
      ensures State() == old(State()).(heroMuted := Some(value))
    {
      heroMuted := Some(value);
    }

    // -------------------------------------------------------------------------
    // Saved recommendations
    // -------------------------------------------------------------------------

    method SaveRecommendations(profileId: string, recommendations: seq<string>, filters: string,
                               newId: string, savedAt: string)
      modifies this
      ensures State() == StorageState.SaveRecommendations(old(State()), profileId, recommendations, filters, newId, savedAt)
    {
      var saved := savedRecommendations;
      saved := saved + [SavedRecommendation(newId, profileId, recommendations, filters, savedAt)];
      savedRecommendations := saved;
    }

    method DeleteSavedRecommendations(savedId: string)
      modifies this
      ensures State() == StorageState.DeleteSavedRecommendations(old(State()), savedId)
    {
      savedRecommendations := Filter(savedRecommendations, (r: SavedRecommendation) => r.id != savedId);
    }

    // -------------------------------------------------------------------------
    // Selective removal
    // -------------------------------------------------------------------------

    method RemoveProfileData(profileId: string, options: RemoveOptions)
      modifies this
      ensures State() == StorageState.RemoveProfileData(old(State()), profileId, options)
      ensures Valid(old(State())) ==> Valid(State())
    {
      ghost var s0 := State();
      if options.watchlist {
        RemoveWatchlistOf(profileId);
      }
      ghost var s1 := State();
      if options.watchHistory {
        RemoveHistoryOf(profileId);
      }
      ghost var s2 := State();
      if options.security {
        ClearSecurityOf(profileId);
      }
      ghost var s3 := State();
      RemoveProfileDataSteps(s0, s1, s2, s3, profileId, options);
      if Valid(s0) {
        assert Valid(s3) by {
          StorageLaws.RemoveProfileDataLaws(s0, profileId, options);
        }
      }
    }

    /** The watchlist part of removeProfileData: drops the profile's watchlist rows. */
    method RemoveWatchlistOf(profileId: string)
      modifies this
      ensures State() == old(State()).(watchlist := Filter(old(watchlist), (w: WatchlistItem) => w.profileId != profileId))
    {
      watchlist := Filter(watchlist, (w: WatchlistItem) => w.profileId != profileId);
    }

    /** The history part of removeProfileData: drops the profile's history rows and ratings. */
    method RemoveHistoryOf(profileId: string)
      modifies this
      ensures State() == old(State()).(history := Filter(old(history), (h: WatchHistory) => h.profileId != profileId),
                                       ratings := Filter(old(ratings), (r: Rating) => r.profileId != profileId))
    {
      history := Filter(history, (h: WatchHistory) => h.profileId != profileId);
      ratings := Filter(ratings, (r: Rating) => r.profileId != profileId);
    }

    /** The security part of removeProfileData: clears the profile's PIN and security word. */
    method ClearSecurityOf(profileId: string)
      modifies this
      ensures State() == if FindProfile(old(State()), profileId).Some? then
                           StorageState.SaveProfile(old(State()), ClearSecurity(FindProfile(old(State()), profileId).value))
                         else old(State())
    {
      var profile := FindProfile(State(), profileId);
      if profile.Some? {
        SaveProfile(ClearSecurity(profile.value));
      }
    }

    // -------------------------------------------------------------------------
    // Pinned channels and search history
    // -------------------------------------------------------------------------

    method TogglePinnedChannel(profileId: string, channelName: string)
      modifies this
      ensures State() == StorageState.TogglePinnedChannel(old(State()), profileId, channelName)
    {
      var pinned := pinnedChannels;
      var userPinned := if profileId in pinned then pinned[profileId] else [];
      var index := IndexWhere(userPinned, (n: string) => n == channelName);
      if index >= 0 {
        userPinned := userPinned[..index] + userPinned[index + 1..];
      } else {
        userPinned := userPinned + [channelName];
      }
      pinned := pinned[profileId := userPinned];
      pinnedChannels := pinned;
    }

    method AddSearchHistory(profileId: string, query: string)
      modifies this
      ensures State() == StorageState.AddSearchHistory(old(State()), profileId, query)
    {
      var allHistory := searchHistory;
      var profileHistory := if profileId in allHistory then allHistory[profileId] else [];
      var filtered := Filter(profileHistory, (q: string) => Text.ToLower(q) != Text.ToLower(query));
      filtered := [query] + filtered;
      allHistory := allHistory[profileId := Take(filtered, SearchHistoryLimit)];
      searchHistory := allHistory;
    }

    method ClearSearchHistory(profileId: string)
      modifies this
      ensures State() == StorageState.ClearSearchHistory(old(State()), profileId)
    {
      searchHistory := searchHistory - {profileId};
    }

    method SetSearchHistoryEnabled(profileId: string, enabled: bool)
      modifies this
      ensures State() == StorageState.SetSearchHistoryEnabled(old(State()), profileId, enabled)
    {
      var profile := FindProfile(State(), profileId);
      if profile.Some? {
        SaveProfile(profile.value.(searchHistoryEnabled := Some(enabled)));
      }
    }

    // -------------------------------------------------------------------------
    // Access lock and failed attempts
    // -------------------------------------------------------------------------

    method SetAccessLockStatus(locked: bool)
      modifies this
      ensures State() == StorageState.SetAccessLockStatus(old(State()), locked)
    {
      accessLocked := locked;
    }

    /** Returns the new count; the fifth failure (or any later one) sets the global lock. */
    method IncrementFailedAttempts(profileId: string) returns (count: int)
      modifies this
      ensures (State(), count) == StorageState.IncrementFailedAttempts(old(State()), profileId)
    {
      var attempts := failedAttempts;
      attempts := attempts[profileId := (if profileId in attempts then attempts[profileId] else 0) + 1];
      failedAttempts := attempts;
      if attempts[profileId] >= AttemptsBeforeLock {
        SetAccessLockStatus(true);
      }
      count := attempts[profileId];
    }

    method ResetFailedAttempts(profileId: string)
      modifies this
      ensures State() == StorageState.ResetFailedAttempts(old(State()), profileId)
    {
      failedAttempts := failedAttempts - {profileId};
    }

    // -------------------------------------------------------------------------
    // Custom avatars
    // -------------------------------------------------------------------------

    method SaveCustomAvatar(profileId: string, avatar: Avatar)
      modifies this
      ensures State() == StorageState.SaveCustomAvatar(old(State()), profileId, avatar)
    {
      customAvatars := customAvatars[profileId := avatar];
    }

    method DeleteCustomAvatar(profileId: string)
      modifies this
      ensures State() == StorageState.DeleteCustomAvatar(old(State()), profileId)
    {
      customAvatars := customAvatars - {profileId};
    }

    // -------------------------------------------------------------------------
    // Export and import
    // -------------------------------------------------------------------------

    /** exportProfileData: the envelope of the profile's rows, serialised and encrypted. */
    method ExportProfileData(profileId: string, exportedAt: string, serialize: ExportEnvelope -> seq<Base64.Unit>)
      returns (r: Result<seq<Base64.Unit>>)
      ensures r == StorageState.ExportProfileData(State(), profileId, exportedAt, serialize)
      ensures r.Success? <==> Base64.IsBinary(serialize(ExportEnvelopeOf(State(), profileId, exportedAt)))
    {
      var data := ExportEnvelopeOf(State(), profileId, exportedAt);
      var jsonData := serialize(data);
      r := Codec.EncryptData(jsonData);
    }

    /**
     * importProfileData: decrypt, parse, check the envelope, then save the profile
     * under the new id and each history row, watchlist row and rating in turn,
     * re-keyed to it. A successful import of a valid store leaves it valid.
     */
    method ImportProfileData(encrypted: seq<Base64.Unit>, parse: seq<Base64.Unit> -> Option<ImportEnvelope>,
                             newProfileId: string, rowId: nat -> string) returns (ok: bool)
      modifies this
      ensures (State(), ok) == StorageState.ImportProfileData(old(State()), encrypted, parse, newProfileId, rowId)
      ensures Valid(old(State())) ==> Valid(State())
    {
      var decrypted := Codec.DecryptData(encrypted);
      if decrypted.Failure? {
        ImportLaws.ImportFailureLaws(State(), encrypted, parse, newProfileId, rowId);
        return false;
      }
      var data := parse(decrypted.value);
      if !Acceptable(data) {
        ImportLaws.ImportFailureLaws(State(), encrypted, parse, newProfileId, rowId);
        return false;
      }
      ImportLaws.ImportSucceeds(State(), encrypted, parse, newProfileId, rowId, decrypted.value, data.value);
      ImportEnvelope(data.value, newProfileId, rowId);
      ok := true;
    }

    /**
     * The writes of a successful import: the profile under the new id, then the
     * history rows, the watchlist rows and the ratings, each re-keyed to it.
     */
    method ImportEnvelope(d: ImportEnvelope, newProfileId: string, rowId: nat -> string)
      requires d.profile.Some?
      modifies this
      ensures State() == ImportEnvelopeInto(old(State()), d, newProfileId, rowId)
      ensures Valid(old(State())) ==> Valid(State())
    {
      ghost var s0 := State();
      SaveProfile(d.profile.value.(id := newProfileId));
      ghost var s1 := State();
      var rows := OrEmpty(d.watchHistory);
      var items := OrEmpty(d.watchlist);
      var rated := OrEmpty(d.ratings);
      ImportHistory(rows, newProfileId, rowId, 0);
      ghost var s2 := State();
      ImportWatchlist(items, newProfileId, rowId, |rows|);
      ghost var s3 := State();
      var first := |rows| + |items|;
      ImportRatings(rated, newProfileId, rowId, first);
      ghost var s4 := State();
      ImportEnvelopeSteps(s0, s1, s2, s3, s4, d, newProfileId, rowId, rows, items, rated, first);
      ghost var after := ImportEnvelopeInto(old(State()), d, newProfileId, rowId);
      assert State() == after;
      if Valid(old(State())) {
        assert Valid(after) by {
          ImportLaws.ImportEnvelopeValid(old(State()), d, newProfileId, rowId);
        }
      }
    }

    /** The forEach over imported history rows; row i gets the row id rowId(first + i). */
    method ImportHistory(rows: seq<WatchHistory>, profileId: string, rowId: nat -> string, first: nat)
      modifies this
      ensures State() == StorageState.ImportHistory(old(State()), rows, profileId, rowId, first)
    {
      ghost var s0 := State();
      var i := 0;
      while i < |rows|
        invariant 0 <= i <= |rows|
        invariant State() == StorageState.ImportHistory(s0, rows[..i], profileId, rowId, first)
      {
        ImportLaws.ImportHistoryNext(s0, rows, profileId, rowId, first, i);
        SaveWatchHistory(RekeyHistory(rows[i], rowId(first + i), profileId));
        i := i + 1;
      }
      assert rows[..|rows|] == rows;
    }

    /** The forEach over imported watchlist rows. */
    method ImportWatchlist(rows: seq<WatchlistItem>, profileId: string, rowId: nat -> string, first: nat)
      modifies this
      ensures State() == StorageState.ImportWatchlist(old(State()), rows, profileId, rowId, first)
    {
      ghost var s0 := State();
      var i := 0;
      while i < |rows|
        invariant 0 <= i <= |rows|
        invariant State() == StorageState.ImportWatchlist(s0, rows[..i], profileId, rowId, first)
      {
        ImportLaws.ImportWatchlistNext(s0, rows, profileId, rowId, first, i);
        AddToWatchlist(RekeyWatchlist(rows[i], rowId(first + i), profileId));
        i := i + 1;
      }
      assert rows[..|rows|] == rows;
    }

    /** The forEach over imported ratings. */
    method ImportRatings(rows: seq<Rating>, profileId: string, rowId: nat -> string, first: nat)
      modifies this
      ensures State() == StorageState.ImportRatings(old(State()), rows, profileId, rowId, first)
    {
      ghost var s0 := State();
      var i := 0;
      while i < |rows|
        invariant 0 <= i <= |rows|
        invariant State() == StorageState.ImportRatings(s0, rows[..i], profileId, rowId, first)
      {
        ImportLaws.ImportRatingsNext(s0, rows, profileId, rowId, first, i);
        SaveRating(RekeyRating(rows[i], rowId(first + i), profileId));
        i := i + 1;
      }
      assert rows[..|rows|] == rows;
    }
  }

  /** The three optional steps of removeProfileData, composed. */
  lemma RemoveProfileDataSteps(s0: StoreState, s1: StoreState, s2: StoreState, s3: StoreState,
                               profileId: string, options: RemoveOptions)
    requires s1 == if options.watchlist then
                     s0.(watchlist := Filter(s0.watchlist, (w: WatchlistItem) => w.profileId != profileId))
                   else s0
    requires s2 == if options.watchHistory then
                     s1.(history := Filter(s1.history, (h: WatchHistory) => h.profileId != profileId),
                         ratings := Filter(s1.ratings, (r: Rating) => r.profileId != profileId))
                   else s1
    requires s3 == if options.security && FindProfile(s2, profileId).Some? then
                     StorageState.SaveProfile(s2, ClearSecurity(FindProfile(s2, profileId).value))
                   else s2
    ensures s3 == StorageState.RemoveProfileData(s0, profileId, options)
  {
  }

  /** The four stages of a successful import, composed. */
  lemma ImportEnvelopeSteps(s0: StoreState, s1: StoreState, s2: StoreState, s3: StoreState, s4: StoreState,
                            d: ImportEnvelope, newProfileId: string, rowId: nat -> string,
                            rows: seq<WatchHistory>, items: seq<WatchlistItem>, rated: seq<Rating>, first: nat)
    requires d.profile.Some?
    requires rows == OrEmpty(d.watchHistory) && items == OrEmpty(d.watchlist) && rated == OrEmpty(d.ratings)
    requires s1 == StorageState.SaveProfile(s0, d.profile.value.(id := newProfileId))
    requires s2 == StorageState.ImportHistory(s1, rows, newProfileId, rowId, 0)
    requires s3 == StorageState.ImportWatchlist(s2, items, newProfileId, rowId, |rows|)
    requires first == |rows| + |items|
    requires s4 == StorageState.ImportRatings(s3, rated, newProfileId, rowId, first)
    ensures s4 == ImportEnvelopeInto(s0, d, newProfileId, rowId)
  {
  }
}
