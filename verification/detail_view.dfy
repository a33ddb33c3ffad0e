/**
 * The title screen (src/components/DetailView.tsx): the viewer's own star
 * rating, the watchlist button driven by the screen's own flag, and the season
 * and episode pickers that start playback. The details request is a
 * parameter holding its outcome.
 */
module DetailView {
  import opened Types
  import opened StorageState
  import StorageLaws
  import WatchlistToggle
  import Storage
  import App

  /** The part of the details response the screen reads. */
  datatype DetailInfo = DetailInfo(
    title: Option<string>,
    name: Option<string>,
    posterPath: Option<string>,
    genres: Option<seq<Genre>>,
    numberOfSeasons: Option<nat>)

  /** loadUserRating: the stored star value for this title, 0 when there is none. */
  function ShownRating(s: StoreState, profileId: string, tmdbId: int, mediaType: MediaType): int
  {
    match GetRating(s, profileId, tmdbId, mediaType)
    case Some(r) => r.rating
    case None => 0
  }

  /**
   * loadUserRating run again on a mounted screen: the stored star value when
   * there is one, otherwise the value the screen already shows.
   */
  function ReloadedRating(s: StoreState, profileId: string, tmdbId: int, mediaType: MediaType, shown: int): int
  {
    match GetRating(s, profileId, tmdbId, mediaType)
    case Some(r) => r.rating
    case None => shown
  }

  /**
   * Moving from a title rated with nonzero stars to an unrated one keeps the
   * first title's stars on screen, where a fresh screen would show none.
   */
  lemma AsWrittenStaleRating(s: StoreState, profileId: string, rated: Rating, tmdbId: int, mediaType: MediaType)
    requires GetRating(s, profileId, rated.tmdbId, rated.mediaType) == Some(rated) && rated.rating != 0
    requires GetRating(s, profileId, tmdbId, mediaType).None?
    ensures ReloadedRating(s, profileId, tmdbId, mediaType, ShownRating(s, profileId, rated.tmdbId, rated.mediaType))
      == rated.rating
    ensures ShownRating(s, profileId, tmdbId, mediaType) == 0
  {
  }

  /** The reload as evidently intended: clear the stars, then load the stored ones. */
  function CorrectedReload(s: StoreState, profileId: string, tmdbId: int, mediaType: MediaType): int
  {
    ReloadedRating(s, profileId, tmdbId, mediaType, 0)
  }

  /**
   * The corrected reload shows exactly what a freshly mounted screen shows for
   * the new title, whatever the screen showed before; it differs from the
   * reload as written only when the new title has no stored rating.
   */
  lemma CorrectedReloadLaws(s: StoreState, profileId: string, tmdbId: int, mediaType: MediaType, shown: int)
    ensures CorrectedReload(s, profileId, tmdbId, mediaType) == ShownRating(s, profileId, tmdbId, mediaType)
    ensures GetRating(s, profileId, tmdbId, mediaType).None? ==> CorrectedReload(s, profileId, tmdbId, mediaType) == 0
    ensures ReloadedRating(s, profileId, tmdbId, mediaType, shown) != CorrectedReload(s, profileId, tmdbId, mediaType)
      ==> GetRating(s, profileId, tmdbId, mediaType).None? && shown != 0
  {
  }

  /** The rating row handleRating saves: the star value with the title's genres (none before the details arrive). */
  function RatingRow(profileId: string, tmdbId: int, mediaType: MediaType, detail: Option<DetailInfo>,
                     rating: int, id: string, now: string): Rating
  {
    var genres := if detail.Some? && detail.value.genres.Some? then detail.value.genres.value else [];
    Rating(id, profileId, tmdbId, mediaType, rating, genres, now, now)
  }

  /**
   * Rating and then reopening the screen shows the stars just given: the row
   * replaces any earlier rating of the same title by the same profile, whatever
   * the store held before.
   */
  lemma RatingShownAfterReload(s: StoreState, row: Rating)
    requires Valid(s) && row.profileId != ""
    ensures var r := SaveRating(s, row);
      && Valid(r)
      && ShownRating(r, row.profileId, row.tmdbId, row.mediaType) == row.rating
      && GetRating(r, row.profileId, row.tmdbId, row.mediaType) == Some(row)
  {
    StorageLaws.SaveRatingLaws(s, row);
  }

  /** The row the watchlist button adds: the title, else the name, else ''; a falsy poster is left out. */
  function WatchRow(profileId: string, tmdbId: int, mediaType: MediaType, detail: Option<DetailInfo>,
                    id: string, createdAt: string): WatchlistItem
  {
    var title :=
      if detail.Some? && Truthy(detail.value.title) then detail.value.title.value
      else if detail.Some? && Truthy(detail.value.name) then detail.value.name.value
      else "";
    var poster := if detail.Some? && Truthy(detail.value.posterPath) then detail.value.posterPath else None;
    WatchlistItem(id, profileId, Some(tmdbId), mediaType, title, poster, None, createdAt)
  }

  /** toggleWatchlist on the store: remove when the screen's flag says the title is listed, add otherwise. */
  function FlagToggle(s: StoreState, inWatchlist: bool, item: WatchlistItem): StoreState
    requires item.tmdbId.Some?
  {
    if inWatchlist then RemoveFromWatchlist(s, item.profileId, item.tmdbId.value)
    else AddToWatchlist(s, item)
  }

  /**
   * After a press the flag agrees with the store even if it did not before (a
   * stale 'listed' flag removes nothing and a stale 'not listed' flag adds
   * nothing); while the flag agrees, the press is the shared watchlist toggle.
   */
  lemma FlagToggleLaws(s: StoreState, inWatchlist: bool, item: WatchlistItem)
    requires Valid(s) && item.profileId != "" && item.tmdbId.Some?
    ensures var r := FlagToggle(s, inWatchlist, item);
      && Valid(r)
      && (IsInWatchlist(r, item.profileId, item.tmdbId.value) <==> !inWatchlist)
      && (inWatchlist == IsInWatchlist(s, item.profileId, item.tmdbId.value) ==> r == WatchlistToggle.Toggle(s, item))
  {
    if inWatchlist {
      StorageLaws.RemoveFromWatchlistLaws(s, item.profileId, item.tmdbId.value);
    } else {
      StorageLaws.AddToWatchlistLaws(s, item);
    }
  }

  /** The season buttons: 1 up to the number of seasons. */
  function SeasonNumbers(n: nat): (r: seq<int>)
    ensures |r| == n
    ensures forall i :: 0 <= i < n ==> r[i] == i + 1
  {
    if n == 0 then [] else SeasonNumbers(n - 1) + [n]
  }

  /** The season row: shown only for a show with a truthy season count. */
  function SeasonRow(mediaType: MediaType, detail: DetailInfo): seq<int>
  {
    if mediaType == Tv && detail.numberOfSeasons.Some? && detail.numberOfSeasons.value != 0
    then SeasonNumbers(detail.numberOfSeasons.value)
    else []
  }

  /** The season row lists each season once, in order, and nothing for a movie. */
  lemma SeasonRowLaws(mediaType: MediaType, detail: DetailInfo, season: int)
    ensures var r := SeasonRow(mediaType, detail);
      && (mediaType != Tv ==> r == [])
      && (season in r <==> mediaType == Tv && detail.numberOfSeasons.Some? && 1 <= season <= detail.numberOfSeasons.value)
      && (forall i, j :: 0 <= i < j < |r| ==> r[i] < r[j])
  {
    var r := SeasonRow(mediaType, detail);
    if mediaType == Tv && detail.numberOfSeasons.Some? && 1 <= season <= detail.numberOfSeasons.value {
      assert r[season - 1] == season;
    }
  }

  class Detail {
    const profileId: string
    var tmdbId: int
    var mediaType: MediaType
    var detail: Option<DetailInfo>
    var userRating: int
    var inWatchlist: bool
    var selectedSeason: int
    var selectedEpisode: int

    /** The screen's flag agrees with the store. */
    predicate Synced(store: Storage.Store)
      reads this, store
    {
      inWatchlist == IsInWatchlist(store.State(), profileId, tmdbId)
    }

    /**
     * The screen as mounted: no details yet, the stored rating (0 when none),
     * the watchlist flag read from the store, season 1 episode 1.
     */
    constructor (store: Storage.Store, profileId: string, tmdbId: int, mediaType: MediaType)
      ensures this.profileId == profileId && this.tmdbId == tmdbId && this.mediaType == mediaType
      ensures detail.None? && userRating == ShownRating(store.State(), profileId, tmdbId, mediaType)
      ensures Synced(store) && selectedSeason == 1 && selectedEpisode == 1
    {
      this.profileId := profileId;
      this.tmdbId := tmdbId;
      this.mediaType := mediaType;
      detail := None;
      var stored := GetRating(store.State(), profileId, tmdbId, mediaType);
      userRating := if stored.Some? then stored.value.rating else 0;
      inWatchlist := IsInWatchlist(store.State(), profileId, tmdbId);
      selectedSeason, selectedEpisode := 1, 1;
    }

    /** loadDetail: a successful request replaces the details; a failed one leaves them. */
    method LoadDetail(response: Option<DetailInfo>)
      modifies this
      ensures detail == (if response.Some? then response else old(detail))
      ensures tmdbId == old(tmdbId) && mediaType == old(mediaType)
      ensures userRating == old(userRating) && inWatchlist == old(inWatchlist)
      ensures selectedSeason == old(selectedSeason) && selectedEpisode == old(selectedEpisode)
    {
      if response.Some? {
        detail := response;
      }
    }

    /**
     * The same screen given another title (a "More Like This" card): the effect
     * keyed on the title loads the stored rating, which replaces the stars only
     * when there is one, and reads the watchlist flag again. The details stay
     * until the new request answers, and the selected season and episode carry over.
     */
    method TitleChanged(store: Storage.Store, tmdbId: int, mediaType: MediaType)
      modifies this
      ensures this.tmdbId == tmdbId && this.mediaType == mediaType
      ensures userRating == ReloadedRating(store.State(), profileId, tmdbId, mediaType, old(userRating))
      ensures Synced(store) && detail == old(detail)
      ensures selectedSeason == old(selectedSeason) && selectedEpisode == old(selectedEpisode)
    {
      this.tmdbId := tmdbId;
      this.mediaType := mediaType;
      var stored := GetRating(store.State(), profileId, tmdbId, mediaType);
      if stored.Some? {
        userRating := stored.value.rating;
      }
      inWatchlist := IsInWatchlist(store.State(), profileId, tmdbId);
    }

    /** handleRating: save the star value with the current genres, then show it. */
    method Rate(store: Storage.Store, rating: int, id: string, now: string)
      modifies this, store
      ensures store.State() == SaveRating(old(store.State()), RatingRow(profileId, tmdbId, mediaType, detail, rating, id, now))
      ensures userRating == rating && detail == old(detail) && inWatchlist == old(inWatchlist)
      ensures tmdbId == old(tmdbId) && mediaType == old(mediaType)
    {
      store.SaveRating(RatingRow(profileId, tmdbId, mediaType, detail, rating, id, now));
      userRating := rating;
    }

    /** toggleWatchlist: act on the screen's flag, then flip it. */
    method ToggleWatchlist(store: Storage.Store, id: string, createdAt: string)
      modifies this, store
      ensures store.State() == FlagToggle(old(store.State()), old(inWatchlist),
                                          WatchRow(profileId, tmdbId, mediaType, detail, id, createdAt))
      ensures inWatchlist == !old(inWatchlist) && detail == old(detail) && userRating == old(userRating)
      ensures tmdbId == old(tmdbId) && mediaType == old(mediaType)
      ensures Valid(old(store.State())) && profileId != "" ==> Synced(store)
    {
      var item := WatchRow(profileId, tmdbId, mediaType, detail, id, createdAt);
      ghost var before := store.State();
      if inWatchlist {
        store.RemoveFromWatchlist(profileId, tmdbId);
        inWatchlist := false;
      } else {
        store.AddToWatchlist(item);
        inWatchlist := true;
      }
      if Valid(before) && profileId != "" {
        FlagToggleLaws(before, !inWatchlist, item);
      }
    }

    /** A season button. */
    method SelectSeason(season: int)
      modifies this
      ensures selectedSeason == season && selectedEpisode == old(selectedEpisode)
      ensures tmdbId == old(tmdbId) && mediaType == old(mediaType)
      ensures detail == old(detail) && inWatchlist == old(inWatchlist) && userRating == old(userRating)
    {
      selectedSeason := season;
    }

    /** An episode card: select the episode and open the player on it in the selected season. */
    method PlayEpisode(episode: int) returns (view: App.View)
      modifies this
      ensures selectedEpisode == episode && selectedSeason == old(selectedSeason)
      ensures tmdbId == old(tmdbId) && mediaType == old(mediaType)
      ensures view == App.Player(tmdbId, mediaType, Some(selectedSeason), Some(episode), None, None)
      ensures detail == old(detail) && inWatchlist == old(inWatchlist) && userRating == old(userRating)
    {
      selectedEpisode := episode;
      view := App.Player(tmdbId, mediaType, Some(selectedSeason), Some(episode), None, None);
    }

    /** The Play button: the selected season and episode, for a movie too. */
    method Play() returns (view: App.View)
      ensures view == App.Player(tmdbId, mediaType, Some(selectedSeason), Some(selectedEpisode), None, None)
    {
      view := App.Player(tmdbId, mediaType, Some(selectedSeason), Some(selectedEpisode), None, None);
    }
  }
}
