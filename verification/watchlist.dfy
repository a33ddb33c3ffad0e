/**
 * The watchlist button of the detail, search and smart-search screens: take the
 * title off the profile's list when it is there, put it on otherwise. The
 * search and smart-search screens ask the store which case applies; the detail
 * screen keeps its own flag (see DetailView).
 */
module WatchlistToggle {
  import opened Types
  import opened StorageState
  import StorageLaws
  import Storage

  /** The store after one press of the button for `item` (its profile and TMDB id). */
  function Toggle(s: StoreState, item: WatchlistItem): (r: StoreState)
    requires item.tmdbId.Some?
    ensures r.(watchlist := s.watchlist) == s
    ensures IsInWatchlist(s, item.profileId, item.tmdbId.value) ==>
              forall w :: w in r.watchlist ==> w in s.watchlist && !(w.profileId == item.profileId && w.tmdbId == item.tmdbId)
  {
    if IsInWatchlist(s, item.profileId, item.tmdbId.value) then RemoveFromWatchlist(s, item.profileId, item.tmdbId.value)
    else AddToWatchlist(s, item)
  }

  /** For a real profile id, "on the profile's list" means a stored row carries that (profile, TMDB id) key. */
  lemma InWatchlistIffKeyStored(s: StoreState, profileId: string, tmdbId: int)
    requires profileId != ""
    ensures IsInWatchlist(s, profileId, tmdbId) <==> exists w :: w in s.watchlist && WatchKey(w) == (profileId, Some(tmdbId))
  {
    if w :| w in s.watchlist && WatchKey(w) == (profileId, Some(tmdbId)) {
      assert w in GetWatchlist(s, Some(profileId));
    }
  }

  /**
   * One press flips whether the title is on the profile's list, keeps the
   * store consistent, leaves every other (profile, TMDB id) row where it was
   * and touches nothing but the watchlist; adding appends the new row.
   */
  lemma ToggleLaws(s: StoreState, item: WatchlistItem)
    requires Valid(s) && item.profileId != "" && item.tmdbId.Some?
    ensures var r := Toggle(s, item);
      var id := item.tmdbId.value;
      && Valid(r)
      && (IsInWatchlist(r, item.profileId, id) <==> !IsInWatchlist(s, item.profileId, id))
      && (forall w :: WatchKey(w) != WatchKey(item) ==> (w in r.watchlist <==> w in s.watchlist))
      && r.(watchlist := s.watchlist) == s
      && (!IsInWatchlist(s, item.profileId, id) ==> r.watchlist == s.watchlist + [item])
  {
    var id := item.tmdbId.value;
    InWatchlistIffKeyStored(s, item.profileId, id);
    if IsInWatchlist(s, item.profileId, id) {
      assert Toggle(s, item) == RemoveFromWatchlist(s, item.profileId, id);
      StorageLaws.RemoveFromWatchlistLaws(s, item.profileId, id);
    } else {
      assert Toggle(s, item) == AddToWatchlist(s, item);
      StorageLaws.AddToWatchlistLaws(s, item);
    }
  }

  /** The button's handler; `added` tells which toast follows ('Added to watchlist' or 'Removed from watchlist'). */
  method ApplyToggle(store: Storage.Store, item: WatchlistItem) returns (added: bool)
    requires item.tmdbId.Some?
    modifies store
    ensures store.State() == Toggle(old(store.State()), item)
    ensures added <==> !IsInWatchlist(old(store.State()), item.profileId, item.tmdbId.value)
  {
    if IsInWatchlist(store.State(), item.profileId, item.tmdbId.value) {
      store.RemoveFromWatchlist(item.profileId, item.tmdbId.value);
      added := false;
    } else {
      store.AddToWatchlist(item);
      added := true;
    }
  }
}
