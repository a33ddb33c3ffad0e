/**
 * The contents of the application's localStorage (src/lib/storage.ts) as a value,
 * and every storage operation as a function from the old contents to the new.
 * Each field is one storage key, already parsed; a key that is absent reads as the
 * default the source substitutes for it ([] for arrays, {} for objects), except
 * where absence is observable (theme, preferred server, hero flags).
 */
module StorageState {
  import opened Types
  import opened Text
  import opened Collections
  import Base64
  import Codec

  datatype Theme = Light | Dark | System

  /** A custom avatar picture: its URL, the offset of the picture and the zoom factor. */
  datatype Avatar = Avatar(url: string, x: real, y: real, zoom: real)

  /** A saved set of recommendations; the recommended items and the filters are kept as opaque text. */
  datatype SavedRecommendation = SavedRecommendation(
    id: string, profileId: string, recommendations: seq<string>, filters: string, savedAt: string)

  /** The three check boxes of the "remove data" dialog. */
  datatype RemoveOptions = RemoveOptions(watchlist: bool, watchHistory: bool, security: bool)

  datatype StoreState = StoreState(
    profiles: seq<Profile>,                       // simplstream_profiles
    history: seq<WatchHistory>,                   // simplstream_watch_history
    watchlist: seq<WatchlistItem>,                // simplstream_watchlist
    theme: Option<Theme>,                         // simplstream_theme
    preferredServer: Option<string>,              // simplstream_preferred_server
    searchHistory: map<string, seq<string>>,      // simplstream_search_history
    customAvatars: map<string, Avatar>,           // simplstream_custom_avatars
    ratings: seq<Rating>,                         // simplstream_ratings
    savedRecommendations: seq<SavedRecommendation>, // simplstream_saved_recommendations
    pinnedChannels: map<string, seq<string>>,     // simplstream_pinned_channels
    failedAttempts: map<string, int>,             // simplstream_failed_attempts
    accessLocked: bool,                           // simplstream_access_locked
    heroAutoplay: Option<string>,                 // simplstream_hero_autoplay
    heroMuted: Option<string>)                    // simplstream_hero_muted

  const Empty := StoreState([], [], [], None, None, map[], map[], [], [], map[], map[], false, None, None)

  // ---------------------------------------------------------------------------
  // Identities
  // ---------------------------------------------------------------------------

  function ProfileKey(p: Profile): string { p.id }
  function HistoryKey(h: WatchHistory): string { h.id }
  function WatchKey(w: WatchlistItem): (string, Option<int>) { (w.profileId, w.tmdbId) }
  function RatingKey(r: Rating): (string, int, MediaType) { (r.profileId, r.tmdbId, r.mediaType) }

  /** The uniqueness every operation keeps: one profile per id, one history row per id,
    * one watchlist row per (profile, title), one rating per (profile, title, media type). */
  predicate Valid(s: StoreState)
  {
    && UniqueBy(s.profiles, ProfileKey)
    && UniqueBy(s.history, HistoryKey)
    && UniqueBy(s.watchlist, WatchKey)
    && UniqueBy(s.ratings, RatingKey)
  }

  // ---------------------------------------------------------------------------
  // Profiles
  // ---------------------------------------------------------------------------

  function GetProfiles(s: StoreState): seq<Profile>
  {
    s.profiles
  }

  function FindProfile(s: StoreState, id: string): Option<Profile>
  {
    Find(s.profiles, (p: Profile) => p.id == id)
  }

  /** saveProfile: replace the profile with the same id, or append it. */
  function SaveProfile(s: StoreState, profile: Profile): (r: StoreState)
    ensures profile in r.profiles
    ensures |s.profiles| <= |r.profiles| <= |s.profiles| + 1
    ensures r.(profiles := s.profiles) == s
  {
    s.(profiles := Upsert(s.profiles, ProfileKey, profile))
  }

  /** deleteProfile: the profile, and the history and watchlist rows that belong to it. */
  function DeleteProfile(s: StoreState, id: string): (r: StoreState)
    ensures forall p :: p in r.profiles <==> p in s.profiles && p.id != id
    ensures forall h :: h in r.history ==> h in s.history && h.profileId != id
    ensures forall w :: w in r.watchlist ==> w in s.watchlist && w.profileId != id
    ensures r.(profiles := s.profiles, history := s.history, watchlist := s.watchlist) == s
  {
    s.(profiles := Filter(s.profiles, (p: Profile) => p.id != id),
       history := Filter(s.history, (h: WatchHistory) => h.profileId != id),
       watchlist := Filter(s.watchlist, (w: WatchlistItem) => w.profileId != id))
  }

  /** deleteAllData: removes the seven keys of STORAGE_KEYS and no other. */
  function DeleteAllData(s: StoreState): StoreState
  {
    s.(profiles := [], history := [], watchlist := [], theme := None, preferredServer := None,
       searchHistory := map[], customAvatars := map[])
  }

  function SaveProfiles(s: StoreState, profiles: seq<Profile>): StoreState
  {
    s.(profiles := profiles)
  }

  /** isProfileLimitReached: ten profiles or more. */
  predicate IsProfileLimitReached(s: StoreState)
  {
    |s.profiles| >= 10
  }

  // ---------------------------------------------------------------------------
  // Watch history
  // ---------------------------------------------------------------------------

  /** getWatchHistory(profileId?): all rows, or those of the profile when the id is truthy. */
  function GetWatchHistory(s: StoreState, profileId: Option<string>): seq<WatchHistory>
  {
    if Truthy(profileId) then
      var id := profileId.value;
      Filter(s.history, (h: WatchHistory) => h.profileId == id)
    else s.history
  }

  /** saveWatchHistory (and its alias saveHistory): replace the row with the same id, or append. */
  function SaveWatchHistory(s: StoreState, h: WatchHistory): StoreState
  {
    s.(history := Upsert(s.history, HistoryKey, h))
  }

  // ---------------------------------------------------------------------------
  // Watchlist
  // ---------------------------------------------------------------------------

  function GetWatchlist(s: StoreState, profileId: Option<string>): seq<WatchlistItem>
  {
    if Truthy(profileId) then
      var id := profileId.value;
      Filter(s.watchlist, (w: WatchlistItem) => w.profileId == id)
    else s.watchlist
  }

  /** addToWatchlist: append unless a row with the same (profile, tmdb id) exists. */
  function AddToWatchlist(s: StoreState, item: WatchlistItem): StoreState
  {
    s.(watchlist := AddRow(s.watchlist, item))
  }

  /** The stored watchlist after addToWatchlist. */
  function AddRow(watchlist: seq<WatchlistItem>, item: WatchlistItem): seq<WatchlistItem>
  {
    if Find(watchlist, (w: WatchlistItem) => WatchKey(w) == WatchKey(item)).Some? then watchlist
    else watchlist + [item]
  }

  function RemoveFromWatchlist(s: StoreState, profileId: string, tmdbId: int): StoreState
  {
    s.(watchlist := Filter(s.watchlist, (w: WatchlistItem) => !(w.profileId == profileId && w.tmdbId == Some(tmdbId))))
  }

  predicate IsInWatchlist(s: StoreState, profileId: string, tmdbId: int)
  {
    exists w :: w in GetWatchlist(s, Some(profileId)) && w.tmdbId == Some(tmdbId)
  }

  // ---------------------------------------------------------------------------
  // Theme and preferred server
  // ---------------------------------------------------------------------------

  function GetTheme(s: StoreState): Theme
  {
    if s.theme.Some? then s.theme.value else System
  }

  function SaveTheme(s: StoreState, theme: Theme): StoreState
  {
    s.(theme := Some(theme))
  }

  /** getEffectiveTheme; the system preference is a parameter. */
  function GetEffectiveTheme(s: StoreState, systemPrefersDark: bool): Theme
  {
    var theme := GetTheme(s);
    if theme == System then (if systemPrefersDark then Dark else Light) else theme
  }

  function GetPreferredServer(s: StoreState): Option<string>
  {
    s.preferredServer
  }

  function SetPreferredServer(s: StoreState, serverKey: string): StoreState
  {
    s.(preferredServer := Some(serverKey))
  }

  // ---------------------------------------------------------------------------
  // Ratings
  // ---------------------------------------------------------------------------

  function GetRatings(s: StoreState, profileId: Option<string>): seq<Rating>
  {
    if Truthy(profileId) then
      var id := profileId.value;
      Filter(s.ratings, (r: Rating) => r.profileId == id)
    else s.ratings
  }

  /** saveRating: replace the rating with the same (profile, tmdb id, media type), or append. */
  function SaveRating(s: StoreState, rating: Rating): StoreState
  {
    s.(ratings := Upsert(s.ratings, RatingKey, rating))
  }

  function GetRating(s: StoreState, profileId: string, tmdbId: int, mediaType: MediaType): Option<Rating>
  {
    Find(GetRatings(s, Some(profileId)), (r: Rating) => r.tmdbId == tmdbId && r.mediaType == mediaType)
  }

  // ---------------------------------------------------------------------------
  // Saved recommendations
  // ---------------------------------------------------------------------------

  function GetSavedRecommendations(s: StoreState, profileId: string): seq<SavedRecommendation>
  {
    Filter(s.savedRecommendations, (r: SavedRecommendation) => r.profileId == profileId)
  }

  /** saveRecommendations; the fresh id and the ISO time stamp are parameters. */
  function SaveRecommendations(s: StoreState, profileId: string, recommendations: seq<string>, filters: string,
                               newId: string, savedAt: string): StoreState
  {
    s.(savedRecommendations := s.savedRecommendations
         + [SavedRecommendation(newId, profileId, recommendations, filters, savedAt)])
  }

  function DeleteSavedRecommendations(s: StoreState, savedId: string): StoreState
  {
    s.(savedRecommendations := Filter(s.savedRecommendations, (r: SavedRecommendation) => r.id != savedId))
  }

  // ---------------------------------------------------------------------------
  // Selective removal
  // ---------------------------------------------------------------------------

  function ClearSecurity(p: Profile): Profile
  {
    p.(pin := None, securityWord := None)
  }

  /** removeProfileData: the three optional steps, in the source's order. */
  function RemoveProfileData(s: StoreState, profileId: string, options: RemoveOptions): (r: StoreState)
    ensures !options.watchlist ==> r.watchlist == s.watchlist
    ensures !options.watchHistory ==> r.history == s.history && r.ratings == s.ratings
    ensures !options.security ==> r.profiles == s.profiles
    ensures r.(profiles := s.profiles, history := s.history, watchlist := s.watchlist, ratings := s.ratings) == s
  {
    var s1 := if options.watchlist then
        s.(watchlist := Filter(s.watchlist, (w: WatchlistItem) => w.profileId != profileId))
      else s;
    var s2 := if options.watchHistory then
        s1.(history := Filter(s1.history, (h: WatchHistory) => h.profileId != profileId),
            ratings := Filter(s1.ratings, (r: Rating) => r.profileId != profileId))
      else s1;
    if options.security then
      match FindProfile(s2, profileId)
      case None => s2
      case Some(p) => SaveProfile(s2, ClearSecurity(p))
    else s2
  }

  // ---------------------------------------------------------------------------
  // Pinned channels
  // ---------------------------------------------------------------------------

  function GetPinnedChannels(s: StoreState, profileId: string): seq<string>
  {
    if profileId in s.pinnedChannels then s.pinnedChannels[profileId] else []
  }

  /** The profile's pinned list after a toggle: splice out the first occurrence, or push. */
  function Toggled(pinned: seq<string>, name: string): seq<string>
  {
    var index := IndexWhere(pinned, (n: string) => n == name);
    if index >= 0 then pinned[..index] + pinned[index + 1..] else pinned + [name]
  }

  function TogglePinnedChannel(s: StoreState, profileId: string, channelName: string): StoreState
  {
    s.(pinnedChannels := s.pinnedChannels[profileId := Toggled(GetPinnedChannels(s, profileId), channelName)])
  }

  // ---------------------------------------------------------------------------
  // Search history
  // ---------------------------------------------------------------------------

  const SearchHistoryLimit := 20

  function GetSearchHistory(s: StoreState, profileId: string): seq<string>
  {
    if profileId in s.searchHistory then s.searchHistory[profileId] else []
  }

  /** Drop entries equal to the query ignoring case, put the query first, keep 20. */
  function WithQuery(history: seq<string>, query: string): (r: seq<string>)
    ensures 1 <= |r| <= SearchHistoryLimit && r[0] == query
    ensures forall i :: 1 <= i < |r| ==> r[i] in history && ToLower(r[i]) != ToLower(query)
  {
    Take([query] + Filter(history, (q: string) => ToLower(q) != ToLower(query)), SearchHistoryLimit)
  }

  function AddSearchHistory(s: StoreState, profileId: string, query: string): (r: StoreState)
    ensures 1 <= |GetSearchHistory(r, profileId)| <= SearchHistoryLimit
    ensures GetSearchHistory(r, profileId)[0] == query
    ensures forall other :: other != profileId ==> GetSearchHistory(r, other) == GetSearchHistory(s, other)
    ensures r.(searchHistory := s.searchHistory) == s
  {
    s.(searchHistory := s.searchHistory[profileId := WithQuery(GetSearchHistory(s, profileId), query)])
  }

  function ClearSearchHistory(s: StoreState, profileId: string): StoreState
  {
    s.(searchHistory := s.searchHistory - {profileId})
  }

  /** getSearchHistoryEnabled: reading the flag of a missing profile throws a TypeError. */
  function GetSearchHistoryEnabled(s: StoreState, profileId: string): Result<bool>
  {
    match FindProfile(s, profileId)
    case None => Failure("TypeError")
    case Some(p) => Success(p.searchHistoryEnabled != Some(false))
  }

  function SetSearchHistoryEnabled(s: StoreState, profileId: string, enabled: bool): StoreState
  {
    match FindProfile(s, profileId)
    case None => s
    case Some(p) => SaveProfile(s, p.(searchHistoryEnabled := Some(enabled)))
  }

  // ---------------------------------------------------------------------------
  // Access lock, tokens, failed attempts
  // ---------------------------------------------------------------------------

  const AccessTokens: seq<string> := ["3F12B", "8H6R0", "DDLX7"]
  const AttemptsBeforeLock := 5

  function GetAccessLockStatus(s: StoreState): bool
  {
    s.accessLocked
  }

  /** setAccessLockStatus: true stores 'true', false removes the key. */
  function SetAccessLockStatus(s: StoreState, locked: bool): StoreState
  {
    s.(accessLocked := locked)
  }

  predicate VerifyAccessToken(token: string)
  {
    ToUpper(token) in AccessTokens
  }

  function GetFailedAttempts(s: StoreState, profileId: string): int
  {
    if profileId in s.failedAttempts then s.failedAttempts[profileId] else 0
  }

  /** incrementFailedAttempts: the new state and the new count. */
  function IncrementFailedAttempts(s: StoreState, profileId: string): (StoreState, int)
  {
    var count := GetFailedAttempts(s, profileId) + 1;
    var s1 := s.(failedAttempts := s.failedAttempts[profileId := count]);
    (if count >= AttemptsBeforeLock then SetAccessLockStatus(s1, true) else s1, count)
  }

  function ResetFailedAttempts(s: StoreState, profileId: string): StoreState
  {
    s.(failedAttempts := s.failedAttempts - {profileId})
  }

  // ---------------------------------------------------------------------------
  // Custom avatars
  // ---------------------------------------------------------------------------

  function GetCustomAvatar(s: StoreState, profileId: string): Option<Avatar>
  {
    if profileId in s.customAvatars then Some(s.customAvatars[profileId]) else None
  }

  function SaveCustomAvatar(s: StoreState, profileId: string, avatar: Avatar): StoreState
  {
    s.(customAvatars := s.customAvatars[profileId := avatar])
  }

  function DeleteCustomAvatar(s: StoreState, profileId: string): StoreState
  {
    s.(customAvatars := s.customAvatars - {profileId})
  }

  // ---------------------------------------------------------------------------
  // Export and import
  // ---------------------------------------------------------------------------

  /** The object exportProfileData serialises. */
  datatype ExportEnvelope = ExportEnvelope(
    profile: Option<Profile>,
    watchHistory: seq<WatchHistory>,
    watchlist: seq<WatchlistItem>,
    ratings: seq<Rating>,
    exportedAt: string,
    version: string)

  /** What importProfileData reads from the parsed JSON; a field that is absent or not an array is None. */
  datatype ImportEnvelope = ImportEnvelope(
    profile: Option<Profile>,
    version: Option<string>,
    watchHistory: Option<seq<WatchHistory>>,
    watchlist: Option<seq<WatchlistItem>>,
    ratings: Option<seq<Rating>>)

  const ExportVersion := "1.0"

  function ExportEnvelopeOf(s: StoreState, profileId: string, exportedAt: string): ExportEnvelope
  {
    ExportEnvelope(FindProfile(s, profileId), GetWatchHistory(s, Some(profileId)), GetWatchlist(s, Some(profileId)),
                   GetRatings(s, Some(profileId)), exportedAt, ExportVersion)
  }

  /** exportProfileData: JSON.stringify (a parameter) of the envelope, then encryptData. */
  function ExportProfileData(s: StoreState, profileId: string, exportedAt: string,
                             serialize: ExportEnvelope -> seq<Base64.Unit>): Result<seq<Base64.Unit>>
  {
    Codec.Encrypt(serialize(ExportEnvelopeOf(s, profileId, exportedAt)))
  }

  function RekeyHistory(h: WatchHistory, id: string, profileId: string): WatchHistory
  {
    h.(id := id, profileId := profileId)
  }

  function RekeyWatchlist(w: WatchlistItem, id: string, profileId: string): WatchlistItem
  {
    w.(id := id, profileId := profileId)
  }

  function RekeyRating(r: Rating, id: string, profileId: string): Rating
  {
    r.(id := id, profileId := profileId)
  }

  /** The forEach over history rows: row k is saved with row id rowId(first + k). */
  function ImportHistory(s: StoreState, rows: seq<WatchHistory>, profileId: string, rowId: nat -> string,
                         first: nat): StoreState
  {
    s.(history := ImportHistoryRows(s.history, rows, profileId, rowId, first))
  }

  /** The stored history after saveWatchHistory of each imported row in turn. */
  function ImportHistoryRows(history: seq<WatchHistory>, rows: seq<WatchHistory>, profileId: string,
                             rowId: nat -> string, first: nat): seq<WatchHistory>
  {
    if |rows| == 0 then history
    else
      var k := |rows| - 1;
      Upsert(ImportHistoryRows(history, rows[..k], profileId, rowId, first), HistoryKey,
             RekeyHistory(rows[k], rowId(first + k), profileId))
  }

  function ImportWatchlist(s: StoreState, rows: seq<WatchlistItem>, profileId: string, rowId: nat -> string,
                           first: nat): StoreState
  {
    s.(watchlist := ImportWatchlistRows(s.watchlist, rows, profileId, rowId, first))
  }

  /** The stored watchlist after addToWatchlist of each imported row in turn. */
  function ImportWatchlistRows(watchlist: seq<WatchlistItem>, rows: seq<WatchlistItem>, profileId: string,
                               rowId: nat -> string, first: nat): seq<WatchlistItem>
  {
    if |rows| == 0 then watchlist
    else
      var k := |rows| - 1;
      AddRow(ImportWatchlistRows(watchlist, rows[..k], profileId, rowId, first),
             RekeyWatchlist(rows[k], rowId(first + k), profileId))
  }

  function ImportRatings(s: StoreState, rows: seq<Rating>, profileId: string, rowId: nat -> string,
                         first: nat): StoreState
  {
    s.(ratings := ImportRatingRows(s.ratings, rows, profileId, rowId, first))
  }

  /** The stored ratings after saveRating of each imported row in turn. */
  function ImportRatingRows(ratings: seq<Rating>, rows: seq<Rating>, profileId: string, rowId: nat -> string,
                            first: nat): seq<Rating>
  {
    if |rows| == 0 then ratings
    else
      var k := |rows| - 1;
      Upsert(ImportRatingRows(ratings, rows[..k], profileId, rowId, first), RatingKey,
             RekeyRating(rows[k], rowId(first + k), profileId))
  }

  function OrEmpty<T>(rows: Option<seq<T>>): seq<T>
  {
    if rows.Some? then rows.value else []
  }

  /** The envelope check: a profile and a truthy version. */
  predicate Acceptable(data: Option<ImportEnvelope>)
  {
    data.Some? && data.value.profile.Some? && Truthy(data.value.version)
  }

  /**
   * importProfileData. decryptData and JSON.parse (a parameter; None when it throws
   * or yields something that is not an object) may fail, as may the envelope check;
   * each failure returns false with the store untouched. The fresh profile id and the
   * fresh row ids (one generateId call per row, in order) are parameters.
   */
  function ImportProfileData(s: StoreState, encrypted: seq<Base64.Unit>,
                             parse: seq<Base64.Unit> -> Option<ImportEnvelope>,
                             newProfileId: string, rowId: nat -> string): (r: (StoreState, bool))
    ensures r.1 <==> Codec.Decrypt(encrypted).Success? && Acceptable(parse(Codec.Decrypt(encrypted).value))
    ensures !r.1 ==> r.0 == s
  {
    match Codec.Decrypt(encrypted)
    case Failure(_) => (s, false)
    case Success(json) =>
      var data := parse(json);
      if !Acceptable(data) then (s, false)
      else (ImportEnvelopeInto(s, data.value, newProfileId, rowId), true)
  }

  /**
   * The writes of a successful import: the profile under the new id, then every
   * history row, every watchlist row and every rating, re-keyed to that id.
   */
  function ImportEnvelopeInto(s: StoreState, d: ImportEnvelope, newProfileId: string, rowId: nat -> string): StoreState
    requires d.profile.Some?
  {
    var h := OrEmpty(d.watchHistory);
    var w := OrEmpty(d.watchlist);
    var s1 := SaveProfile(s, d.profile.value.(id := newProfileId));
    var s2 := ImportHistory(s1, h, newProfileId, rowId, 0);
    var s3 := ImportWatchlist(s2, w, newProfileId, rowId, |h|);
    ImportRatings(s3, OrEmpty(d.ratings), newProfileId, rowId, |h| + |w|)
  }
}
