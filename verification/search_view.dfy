/**
 * The search screen (src/components/SearchView.tsx): results restricted to
 * movies and shows, the per-profile search history (recorded and shown only
 * while the profile's history switch is on), and the watchlist plus button.
 * The search request is a parameter holding its outcome.
 */
module SearchView {
  import opened Types
  import opened Text
  import opened Collections
  import opened StorageState
  import StorageLaws
  import WatchlistToggle
  import Storage

  /** A /search/multi result: its media type as sent ('movie', 'tv', 'person', …); only movies carry a title. */
  datatype SearchItem = SearchItem(id: int, mediaType: string, title: Option<string>, name: Option<string>,
                                   posterPath: Option<string>)

  predicate IsPlayable(x: SearchItem)
  {
    x.mediaType == "movie" || x.mediaType == "tv"
  }

  /** The results shown for a response: its movie and TV entries in order; none when the list is missing. */
  function ShownResults(response: Option<seq<SearchItem>>): seq<SearchItem>
  {
    if response.Some? then Filter(response.value, IsPlayable) else []
  }

  /** Exactly the movie and TV entries of the response are shown, in the response's order. */
  lemma ShownResultsLaws(response: seq<SearchItem>, x: SearchItem)
    ensures x in ShownResults(Some(response)) <==> x in response && IsPlayable(x)
    ensures Subseq(ShownResults(Some(response)), response)
    ensures ShownResults(None) == []
  {
  }

  /**
   * The history under the search box: the profile's stored history while its
   * switch is on, nothing while it is off; reading the switch of a profile
   * that is not stored throws.
   */
  function ShownHistory(s: StoreState, profileId: string): Result<seq<string>>
  {
    match GetSearchHistoryEnabled(s, profileId)
    case Failure(e) => Failure(e)
    case Success(enabled) => Success(if enabled then GetSearchHistory(s, profileId) else [])
  }

  /**
   * The store after searchContent's history step: the trimmed query is added
   * only when the request succeeded, the switch is on and the query is not
   * blank.
   */
  function Recorded(s: StoreState, profileId: string, enabled: bool, query: string, fetched: bool): StoreState
  {
    if fetched && enabled && Trim(query) != "" then AddSearchHistory(s, profileId, Trim(query)) else s
  }

  /**
   * A recorded search is shown first in the profile's history and nothing else
   * in the store changes; with the switch off the history shown is empty
   * whatever is stored, and a search records nothing.
   */
  lemma RecordedLaws(s: StoreState, profileId: string, query: string, fetched: bool, other: string)
    requires Valid(s) && FindProfile(s, profileId).Some? && other != profileId
    ensures var enabled := GetSearchHistoryEnabled(s, profileId).value;
      var r := Recorded(s, profileId, enabled, query, fetched);
      && r.(searchHistory := s.searchHistory) == s
      && GetSearchHistory(r, other) == GetSearchHistory(s, other)
      && (!enabled ==> r == s && ShownHistory(r, profileId) == Success([]))
      && (fetched && enabled && Trim(query) != "" ==>
            ShownHistory(r, profileId).Success? && ShownHistory(r, profileId).value[0] == Trim(query))
      && (!fetched || Trim(query) == "" ==> r == s)
  {
    var enabled := GetSearchHistoryEnabled(s, profileId).value;
    StorageLaws.SearchHistoryLocal(s, profileId, Trim(query), other);
    var r := Recorded(s, profileId, enabled, query, fetched);
    assert r.profiles == s.profiles;
    assert GetSearchHistoryEnabled(r, profileId) == GetSearchHistoryEnabled(s, profileId);
  }

  /** Switching history off hides the stored history from the search screen without erasing it. */
  lemma SwitchedOffShowsNothing(s: StoreState, profileId: string)
    requires Valid(s) && FindProfile(s, profileId).Some?
    ensures var r := SetSearchHistoryEnabled(s, profileId, false);
      && ShownHistory(r, profileId) == Success([])
      && GetSearchHistory(r, profileId) == GetSearchHistory(s, profileId)
  {
    StorageLaws.SearchHistoryEnabledLaws(s, profileId, false);
  }

  /** The row the plus button adds: the title when the result has one, else its name; a falsy poster is left out. */
  function WatchItem(profileId: string, item: SearchItem, id: string, createdAt: string): WatchlistItem
  {
    WatchlistItem(id, profileId, Some(item.id), if item.mediaType == "movie" then Movie else Tv,
                  if item.title.Some? then item.title.value else if item.name.Some? then item.name.value else "",
                  if Truthy(item.posterPath) then item.posterPath else None, None, createdAt)
  }

  /** The ids among the shown results whose `inList` flag a render computes as set: those on the profile's list. */
  function ListedAtRender(s: StoreState, profileId: string, results: seq<SearchItem>): (r: set<int>)
    ensures forall x :: x in results ==> (x.id in r <==> IsInWatchlist(s, profileId, x.id))
    ensures forall id :: id in r ==> exists x :: x in results && x.id == id
  {
    set i | 0 <= i < |results| && IsInWatchlist(s, profileId, results[i].id) :: results[i].id
  }

  /** The store after one press of a result's plus button, which branches on the flag of the last render. */
  function Pressed(s: StoreState, listed: set<int>, profileId: string, item: SearchItem, id: string, createdAt: string)
    : (r: StoreState)
    ensures r.(watchlist := s.watchlist) == s
  {
    if item.id in listed then RemoveFromWatchlist(s, profileId, item.id)
    else AddToWatchlist(s, WatchItem(profileId, item, id, createdAt))
  }

  /**
   * A press right after a render is one press of the shared toggle. The
   * handlers set no state, so nothing renders again and a second press
   * branches on the same flag: pressing an unlisted title twice adds it twice,
   * and the second add finds the row and changes nothing, so the title stays
   * listed; pressing a listed title twice removes it twice and it stays off.
   */
  lemma PressedLaws(s: StoreState, profileId: string, results: seq<SearchItem>, item: SearchItem,
                    id: string, createdAt: string, id2: string, createdAt2: string)
    requires Valid(s) && profileId != "" && item in results
    ensures var listed := ListedAtRender(s, profileId, results);
      var once := Pressed(s, listed, profileId, item, id, createdAt);
      var twice := Pressed(once, listed, profileId, item, id2, createdAt2);
      && once == WatchlistToggle.Toggle(s, WatchItem(profileId, item, id, createdAt))
      && (IsInWatchlist(once, profileId, item.id) <==> !IsInWatchlist(s, profileId, item.id))
      && (!IsInWatchlist(s, profileId, item.id) ==> twice == once && IsInWatchlist(twice, profileId, item.id))
      && (IsInWatchlist(s, profileId, item.id) ==> !IsInWatchlist(twice, profileId, item.id))
  {
    var listed := ListedAtRender(s, profileId, results);
    var w := WatchItem(profileId, item, id, createdAt);
    var w2 := WatchItem(profileId, item, id2, createdAt2);
    var once := Pressed(s, listed, profileId, item, id, createdAt);
    WatchlistToggle.ToggleLaws(s, w);
    if IsInWatchlist(s, profileId, item.id) {
      StorageLaws.RemoveFromWatchlistLaws(once, profileId, item.id);
    } else {
      StorageLaws.AddToWatchlistLaws(s, w);
      StorageLaws.AddToWatchlistLaws(once, w2);
      WatchlistToggle.InWatchlistIffKeyStored(once, profileId, item.id);
      assert WatchKey(w2) == (profileId, Some(item.id));
    }
  }

  class Search {
    const profileId: string
    var query: string
    var results: seq<SearchItem>
    var showHistory: bool
    var listed: set<int>       // the ids whose `inList` flag the last render set

    constructor (profileId: string)
      ensures this.profileId == profileId && query == "" && results == [] && !showHistory && listed == {}
    {
      this.profileId := profileId;
      query := "";
      results := [];
      showHistory := false;
      listed := {};
    }

    /** A render: each shown result's `inList` flag is read from the store. */
    method Render(store: Storage.Store)
      modifies this
      ensures listed == ListedAtRender(store.State(), profileId, results)
      ensures query == old(query) && results == old(results) && showHistory == old(showHistory)
    {
      listed := ListedAtRender(store.State(), profileId, results);
    }

    /** Typing: a blank query clears the results at once (a non-blank one is searched after the debounce). */
    method Type(q: string)
      modifies this
      ensures query == q && showHistory == old(showHistory)
      ensures results == (if Trim(q) == "" then [] else old(results))
    {
      query := q;
      if Trim(q) == "" {
        results := [];
      }
    }

    /**
     * searchContent, given the request's outcome (a failure, or the response's
     * results list, which may be missing): the dropdown closes; on success the
     * movie and TV results are shown and the search is recorded.
     */
    method SearchContent(store: Storage.Store, response: Result<Option<seq<SearchItem>>>)
      requires GetSearchHistoryEnabled(store.State(), profileId).Success?
      modifies this, store
      ensures store.State() == Recorded(old(store.State()), profileId,
                                        GetSearchHistoryEnabled(old(store.State()), profileId).value,
                                        query, response.Success?)
      ensures results == (if response.Success? then ShownResults(response.value) else old(results))
      ensures !showHistory && query == old(query)
    {
      var enabled := GetSearchHistoryEnabled(store.State(), profileId).value;
      showHistory := false;
      if response.Success? {
        results := ShownResults(response.value);
        if enabled && Trim(query) != "" {
          store.AddSearchHistory(profileId, Trim(query));
        }
      }
    }

    /** The dropdown of past searches: open, something to show, and an empty box. */
    predicate DropdownShown(store: Storage.Store)
      reads this, store
    {
      var h := ShownHistory(store.State(), profileId);
      showHistory && h.Success? && |h.value| > 0 && query == ""
    }

    /** Focusing the box opens the dropdown. */
    method Focus()
      modifies this
      ensures showHistory && query == old(query) && results == old(results)
    {
      showHistory := true;
    }

    /** Picking a past search puts it in the box and closes the dropdown. */
    method PickHistory(store: Storage.Store, index: nat)
      requires DropdownShown(store) && index < |ShownHistory(store.State(), profileId).value|
      modifies this
      ensures query == ShownHistory(store.State(), profileId).value[index]
      ensures !showHistory && !DropdownShown(store) && results == old(results)
    {
      query := ShownHistory(store.State(), profileId).value[index];
      showHistory := false;
    }

    /**
     * The plus button on a result: remove when the last render flagged it as
     * listed, add otherwise. Neither handler sets state, so `listed` stays.
     */
    method PlusButton(store: Storage.Store, item: SearchItem, id: string, createdAt: string) returns (added: bool)
      modifies store
      ensures store.State() == Pressed(old(store.State()), listed, profileId, item, id, createdAt)
      ensures added <==> item.id !in listed
    {
      if item.id in listed {
        store.RemoveFromWatchlist(profileId, item.id);
        added := false;
      } else {
        store.AddToWatchlist(WatchItem(profileId, item, id, createdAt));
        added := true;
      }
    }
  }
}
