/**
 * The "Surprise Me" wizard (src/components/SurpriseMeWizardView.tsx): five
 * steps (genres, movies or shows, age ratings, years, favourite titles) and a
 * sixth that shows the suggestions. The list requests are a parameter holding
 * their outcome; the score each result brings with it (vote average times
 * popularity over a hundred, in floating point) is an integer `base`.
 */
module SurpriseMeWizard {
  import opened Types
  import opened Text
  import opened Collections
  import StorageState
  import Storage

  const MaxGenres := 3
  const FirstYear := 1940
  const MaxShortlist := 5
  const MaxSuggestions := 30
  const GenreBoost := 50
  const FavoriteBoost := 30

  predicate Distinct<T(==)>(s: seq<T>)
  {
    forall i, j :: 0 <= i < j < |s| ==> s[i] != s[j]
  }

  /** Filtering keeps a list free of repeats. */
  lemma FilterDistinct<T(!new)>(s: seq<T>, p: T -> bool)
    requires Distinct(s)
    ensures Distinct(Filter(s, p))
  {
    var same := (x: T) => x;
    assert UniqueBy(s, same);
    FilterUnique(s, p, same);
    assert UniqueBy(Filter(s, p), same);
  }

  // ---------------------------------------------------------------------------
  // Step 1 and step 3: genres and age ratings
  // ---------------------------------------------------------------------------

  /** toggleGenre: a selected genre is removed; another is added only while fewer than three are selected. */
  function ToggleGenre(prev: seq<int>, id: int): (r: seq<int>)
    ensures id in prev ==> id !in r
    ensures forall g :: g != id ==> (g in r <==> g in prev)
    ensures |r| <= |prev| + 1
  {
    if id in prev then Filter(prev, g => g != id)
    else if |prev| < MaxGenres then prev + [id]
    else prev
  }

  /**
   * The selection never exceeds three genres nor repeats one; a press selects
   * the genre exactly when it was unselected and there was room, and no other
   * genre changes.
   */
  lemma ToggleGenreLaws(prev: seq<int>, id: int, other: int)
    requires |prev| <= MaxGenres && Distinct(prev)
    ensures var r := ToggleGenre(prev, id);
      && |r| <= MaxGenres
      && Distinct(r)
      && (id in r <==> id !in prev && |prev| < MaxGenres)
      && (other != id ==> (other in r <==> other in prev))
  {
    if id in prev {
      FilterDistinct(prev, g => g != id);
    }
  }

  /** toggleRating: remove the value when selected, append it otherwise. */
  function ToggleRating(prev: seq<string>, value: string): seq<string>
  {
    if value in prev then Filter(prev, r => r != value) else prev + [value]
  }

  /**
   * A press flips whether the value is selected and leaves the others; the
   * list never repeats a value; selecting and then deselecting restores it.
   */
  lemma ToggleRatingLaws(prev: seq<string>, value: string, other: string)
    requires Distinct(prev)
    ensures var r := ToggleRating(prev, value);
      && Distinct(r)
      && (value in r <==> value !in prev)
      && (other != value ==> (other in r <==> other in prev))
      && (value !in prev ==> ToggleRating(r, value) == prev)
  {
    var keep := (r: string) => r != value;
    if value in prev {
      FilterDistinct(prev, keep);
    } else {
      FilterAppend(prev, [value], keep);
      FilterKeepsAll(prev, keep);
      assert Filter([value], keep) == [];
    }
  }

  /** The Next button of steps 1 to 4 is disabled with no genre (step 1) or no age rating (step 3). */
  predicate NextBlocked(step: int, genres: seq<int>, ratings: seq<string>)
  {
    (step == 1 && |genres| == 0) || (step == 3 && |ratings| == 0)
  }

  // ---------------------------------------------------------------------------
  // Step 5: favourite titles
  // ---------------------------------------------------------------------------

  /** A title from the search popup. */
  datatype Fav = Fav(id: int, mediaType: MediaType, genreIds: Option<seq<int>>)

  /** A /search/multi result: its media type as sent ('movie', 'tv', 'person', …). */
  datatype Hit = Hit(id: int, mediaType: string, genreIds: Option<seq<int>>)

  predicate IsTitle(h: Hit)
  {
    h.mediaType == "movie" || h.mediaType == "tv"
  }

  function AsFavs(hits: seq<Hit>): (r: seq<Fav>)
    ensures |r| == |hits|
    ensures forall k :: 0 <= k < |r| ==> r[k] == Fav(hits[k].id, if hits[k].mediaType == "movie" then Movie else Tv, hits[k].genreIds)
  {
    if |hits| == 0 then []
    else [Fav(hits[0].id, if hits[0].mediaType == "movie" then Movie else Tv, hits[0].genreIds)] + AsFavs(hits[1..])
  }

  /** The popup's titles: the first five movie or TV results; none when the list is missing. */
  function Shortlist(results: Option<seq<Hit>>): seq<Fav>
  {
    if results.None? then [] else Take(AsFavs(Filter(results.value, IsTitle)), MaxShortlist)
  }

  /**
   * The popup shows the first five movie or TV results of the search (all of
   * them when there are fewer), in the search's order.
   */
  lemma ShortlistLaws(results: seq<Hit>, k: nat)
    ensures var r := Shortlist(Some(results));
      && |r| <= MaxShortlist
      && (k < |r| ==> exists h :: h in results && IsTitle(h) && h.id == r[k].id && h.genreIds == r[k].genreIds)
      && |r| == (var n := |Filter(results, IsTitle)|; if n <= MaxShortlist then n else MaxShortlist)
      && r == AsFavs(Filter(results, IsTitle))[..|r|]
  {
    var titles := Filter(results, IsTitle);
    var r := Shortlist(Some(results));
    if k < |r| {
      assert r[k] == AsFavs(titles)[k];
      assert titles[k] in titles;
    }
  }

  function FavId(f: Fav): int
  {
    f.id
  }

  /** addMovie: a title whose id is already a favourite is ignored, any other is appended. */
  function AddFavorite(favs: seq<Fav>, movie: Fav): (r: seq<Fav>)
    ensures |favs| <= |r| <= |favs| + 1 && r[..|favs|] == favs
    ensures |r| == |favs| + 1 ==> r[|favs|] == movie
  {
    if Find(favs, (m: Fav) => m.id == movie.id).Some? then favs else favs + [movie]
  }

  /** removeMovie: drop the favourites with that id. */
  function RemoveFavorite(favs: seq<Fav>, id: int): seq<Fav>
  {
    Filter(favs, (m: Fav) => m.id != id)
  }

  /**
   * Favourites never repeat an id; after adding, the title's id is a
   * favourite; adding a new title appends it and removing it again restores
   * the list; removing leaves no favourite with that id and keeps the others.
   */
  lemma FavoritesLaws(favs: seq<Fav>, movie: Fav, f: Fav)
    requires UniqueBy(favs, FavId)
    ensures var r := AddFavorite(favs, movie);
      && UniqueBy(r, FavId)
      && (exists m :: m in r && m.id == movie.id)
      && ((forall m :: m in favs ==> m.id != movie.id) ==> r == favs + [movie] && RemoveFavorite(r, movie.id) == favs)
      && (f in RemoveFavorite(favs, movie.id) <==> f in favs && f.id != movie.id)
  {
    var r := AddFavorite(favs, movie);
    var keep := (m: Fav) => m.id != movie.id;
    if forall m :: m in favs ==> m.id != movie.id {
      assert r == favs + [movie];
      assert movie in r;
      FilterAppend(favs, [movie], keep);
      FilterKeepsAll(favs, keep);
      assert Filter([movie], keep) == [];
      forall i, j | 0 <= i < j < |r| ensures FavId(r[i]) != FavId(r[j]) {
        if j == |favs| {
          assert r[i] in favs;
        }
      }
    } else {
      var j :| 0 <= j < |favs| && favs[j].id == movie.id;
      assert favs[j] in favs;
    }
  }

  // ---------------------------------------------------------------------------
  // The requests
  // ---------------------------------------------------------------------------

  datatype Mode = MoviesOnly | ShowsOnly | Both

  /** A list request: a /discover page, or a favourite's /recommendations (similar = false) or /similar list. */
  datatype Query = Discover(kind: MediaType, page: int) | Related(fav: Fav, similar: bool)

  /** The /discover pages 1 to n of one kind. */
  function Pages(kind: MediaType, n: nat): seq<Query>
  {
    if n == 0 then [] else Pages(kind, n - 1) + [Discover(kind, n)]
  }

  /** Two requests per favourite, in order. */
  function FavQueries(favs: seq<Fav>): seq<Query>
  {
    if |favs| == 0 then []
    else FavQueries(favs[..|favs| - 1]) + [Related(favs[|favs| - 1], false), Related(favs[|favs| - 1], true)]
  }

  /** `queries`: three movie pages, three TV pages (as the mode asks), then the first two favourites' lists. */
  function Queries(mode: Mode, favs: seq<Fav>): (r: seq<Query>)
    ensures |r| == (if mode == Both then 6 else 3) + 2 * (if |favs| < 2 then |favs| else 2)
  {
    PagesLaws(Movie, 3);
    PagesLaws(Tv, 3);
    FavQueriesLaws(Take(favs, 2));
    (if mode != ShowsOnly then Pages(Movie, 3) else [])
    + (if mode != MoviesOnly then Pages(Tv, 3) else [])
    + FavQueries(Take(favs, 2))
  }

  lemma {:induction false} PagesLaws(kind: MediaType, n: nat)
    ensures |Pages(kind, n)| == n
    ensures forall i :: 0 <= i < n ==> Pages(kind, n)[i] == Discover(kind, i + 1)
  {
    if n > 0 {
      PagesLaws(kind, n - 1);
    }
  }

  lemma {:induction false} FavQueriesLaws(favs: seq<Fav>)
    ensures |FavQueries(favs)| == 2 * |favs|
    ensures forall q :: q in FavQueries(favs) ==> q.Related? && q.fav in favs
  {
    if |favs| > 0 {
      var init := favs[..|favs| - 1];
      FavQueriesLaws(init);
      forall q | q in FavQueries(favs) ensures q.Related? && q.fav in favs {
        if q in FavQueries(init) {
          var k :| 0 <= k < |init| && init[k] == q.fav;
          assert favs[k] == q.fav;
        }
      }
    }
  }

  /**
   * Three discover pages per kind the mode asks for, then two requests for
   * each of at most two favourites, and no favourite beyond the second.
   */
  lemma QueriesLaws(mode: Mode, favs: seq<Fav>)
    ensures var qs := Queries(mode, favs);
      && |qs| == (if mode == Both then 6 else 3) + 2 * (if |favs| < 2 then |favs| else 2)
      && (forall q :: q in qs && q.Related? ==> q.fav in favs[..(if |favs| < 2 then |favs| else 2)])
      && (forall q :: q in qs && q.Discover? ==> (q.kind == Movie ==> mode != ShowsOnly) && (q.kind == Tv ==> mode != MoviesOnly))
  {
    PagesLaws(Movie, 3);
    PagesLaws(Tv, 3);
    FavQueriesLaws(Take(favs, 2));
    var a := if mode != ShowsOnly then Pages(Movie, 3) else [];
    var b := if mode != MoviesOnly then Pages(Tv, 3) else [];
    forall q | q in Queries(mode, favs) && q.Discover?
      ensures (q.kind == Movie ==> mode != ShowsOnly) && (q.kind == Tv ==> mode != MoviesOnly)
    {
      assert q in a || q in b;
    }
  }

  /** The request loops of generateRecommendations. */
  method BuildQueries(mode: Mode, favs: seq<Fav>) returns (qs: seq<Query>)
    ensures qs == Queries(mode, favs)
  {
    qs := [];
    if mode == MoviesOnly || mode == Both {
      for page := 1 to 4
        invariant qs == Pages(Movie, page - 1)
      {
        qs := qs + [Discover(Movie, page)];
      }
    }
    ghost var movies := qs;
    if mode == ShowsOnly || mode == Both {
      for page := 1 to 4
        invariant qs == movies + Pages(Tv, page - 1)
      {
        qs := qs + [Discover(Tv, page)];
      }
    }
    ghost var discover := qs;
    var firstTwo := Take(favs, 2);
    for k := 0 to |firstTwo|
      invariant qs == discover + FavQueries(firstTwo[..k])
    {
      assert firstTwo[..k + 1][..k] == firstTwo[..k];
      qs := qs + [Related(firstTwo[k], false), Related(firstTwo[k], true)];
    }
    assert firstTwo[..|firstTwo|] == firstTwo;
  }

  // ---------------------------------------------------------------------------
  // Labelling the results
  // ---------------------------------------------------------------------------

  /** The kind the source gives the results of request `index` that carry no media type of their own. */
  function AsWrittenLabel(mode: Mode, index: nat): (r: MediaType)
    ensures r != Live
    ensures mode == Both ==> (r == Tv <==> index % 2 == 1)
    ensures mode != Both ==> (r == Movie <==> mode == MoviesOnly)
  {
    if mode == Both then (if index % 2 == 0 then Movie else Tv)
    else if mode == MoviesOnly then Movie
    else Tv
  }

  /**
   * With both kinds asked for, the second request is the second page of
   * /discover/movie, yet its results are labelled as TV shows, and the
   * fifth, the second page of /discover/tv, is labelled as movies.
   */
  lemma AsWrittenMislabels(favs: seq<Fav>)
    ensures Queries(Both, favs)[1] == Discover(Movie, 2) && AsWrittenLabel(Both, 1) == Tv
    ensures Queries(Both, favs)[4] == Discover(Tv, 2) && AsWrittenLabel(Both, 4) == Movie
  {
    PagesLaws(Movie, 3);
    PagesLaws(Tv, 3);
    var qs := Queries(Both, favs);
    assert qs[1] == Pages(Movie, 3)[1];
    assert qs[4] == Pages(Tv, 3)[1];
  }

  /**
   * With only movies asked for, the /similar list of a TV favourite is the
   * fifth request, and its results are labelled as movies.
   */
  lemma AsWrittenMislabelsFavorite(f: Fav)
    requires f.mediaType == Tv
    ensures Queries(MoviesOnly, [f])[4] == Related(f, true) && AsWrittenLabel(MoviesOnly, 4) == Movie
    ensures AsWrittenLabel(MoviesOnly, 4) != f.mediaType
  {
    PagesLaws(Movie, 3);
    assert Take([f], 2) == [f];
    assert FavQueries([f]) == [Related(f, false), Related(f, true)] by {
      assert [f][..0] == [];
    }
    assert Queries(MoviesOnly, [f]) == Pages(Movie, 3) + FavQueries([f]);
  }

  /** The kind of list a request returns: the discover kind, or the favourite's own kind. */
  function QueryKind(q: Query): MediaType
  {
    match q
    case Discover(kind, _) => kind
    case Related(fav, _) => fav.mediaType
  }

  function Kinds(qs: seq<Query>): (r: seq<MediaType>)
    ensures |r| == |qs| && forall i :: 0 <= i < |qs| ==> r[i] == QueryKind(qs[i])
  {
    if |qs| == 0 then [] else [QueryKind(qs[0])] + Kinds(qs[1..])
  }

  /** One result of a list: its own media type when it has one, titles, poster, genre ids and its score. */
  datatype Pick = Pick(id: int, mediaType: Option<MediaType>, title: Option<string>, name: Option<string>,
                       posterPath: Option<string>, genreIds: Option<seq<int>>, base: int)

  /** A result with the media type it is shown and saved under. */
  datatype Rec = Rec(pick: Pick, mediaType: MediaType)

  /** `items.map(m => ({ ...m, media_type: m.media_type || type }))`. */
  function Label(items: seq<Pick>, kind: MediaType): (r: seq<Rec>)
    ensures |r| == |items|
    ensures forall k :: 0 <= k < |r| ==> r[k] == Rec(items[k], if items[k].mediaType.Some? then items[k].mediaType.value else kind)
  {
    if |items| == 0 then []
    else [Rec(items[0], if items[0].mediaType.Some? then items[0].mediaType.value else kind)] + Label(items[1..], kind)
  }

  /** `allResults`: every list's results (none for a missing list), labelled, in request order. */
  function Gathered(results: seq<Option<seq<Pick>>>, kinds: seq<MediaType>): seq<Rec>
    requires |kinds| == |results|
  {
    if |results| == 0 then []
    else
      var n := |results| - 1;
      Gathered(results[..n], kinds[..n]) + Label(if results[n].Some? then results[n].value else [], kinds[n])
  }

  /**
   * `x` is result `j` of list `i` as the gathering labels it: its own media
   * type when it has one, otherwise `kinds[i]`.
   */
  predicate LabelledFrom(results: seq<Option<seq<Pick>>>, kinds: seq<MediaType>, i: int, j: int, x: Rec)
  {
    && 0 <= i < |results| && i < |kinds| && results[i].Some? && 0 <= j < |results[i].value|
    && x == Rec(results[i].value[j], if results[i].value[j].mediaType.Some? then results[i].value[j].mediaType.value else kinds[i])
  }

  /** The labelled results of the first `n` lists are those of the whole that come from the first `n` lists. */
  lemma LabelledFromPrefix(results: seq<Option<seq<Pick>>>, kinds: seq<MediaType>, n: nat, i: int, j: int, x: Rec)
    requires |kinds| == |results| && n <= |results| && i < n
    ensures LabelledFrom(results[..n], kinds[..n], i, j, x) <==> LabelledFrom(results, kinds, i, j, x)
  {
    if 0 <= i {
      assert results[..n][i] == results[i] && kinds[..n][i] == kinds[i];
    }
  }

  /** The gathered results are exactly the lists' results, each labelled with its own list's kind. */
  lemma {:induction false} GatheredLaws(results: seq<Option<seq<Pick>>>, kinds: seq<MediaType>, x: Rec)
    requires |kinds| == |results|
    ensures x in Gathered(results, kinds) <==> exists i, j :: LabelledFrom(results, kinds, i, j, x)
  {
    if |results| > 0 {
      var n := |results| - 1;
      var items := if results[n].Some? then results[n].value else [];
      var last := Label(items, kinds[n]);
      var front := Gathered(results[..n], kinds[..n]);
      assert Gathered(results, kinds) == front + last;
      GatheredLaws(results[..n], kinds[..n], x);
      if x in front {
        var i, j :| LabelledFrom(results[..n], kinds[..n], i, j, x);
        LabelledFromPrefix(results, kinds, n, i, j, x);
      } else if x in last {
        var k :| 0 <= k < |last| && last[k] == x;
        assert LabelledFrom(results, kinds, n, k, x);
      }
      if i, j :| LabelledFrom(results, kinds, i, j, x) {
        if i < n {
          LabelledFromPrefix(results, kinds, n, i, j, x);
          assert x in front;
        } else {
          assert i == n && items == results[n].value && j < |last|;
          assert last[j] == x;
          assert x in last;
        }
        assert x in Gathered(results, kinds);
      }
    }
  }

  /** The forEach that grows `allResults` with concat. */
  method Gather(results: seq<Option<seq<Pick>>>, kinds: seq<MediaType>) returns (all: seq<Rec>)
    requires |kinds| == |results|
    ensures all == Gathered(results, kinds)
    ensures forall x :: x in all <==> exists i, j :: LabelledFrom(results, kinds, i, j, x)
  {
    all := [];
    for i := 0 to |results|
      invariant all == Gathered(results[..i], kinds[..i])
    {
      var items := if results[i].Some? then results[i].value else [];
      assert results[..i + 1][..i] == results[..i] && kinds[..i + 1][..i] == kinds[..i];
      all := all + Label(items, kinds[i]);
    }
    assert results[..|results|] == results && kinds[..|kinds|] == kinds;
    forall x {
      GatheredLaws(results, kinds, x);
    }
  }

  // ---------------------------------------------------------------------------
  // Scoring
  // ---------------------------------------------------------------------------

  function RecKey(r: Rec): (int, MediaType)
  {
    (r.pick.id, r.mediaType)
  }

  /** Some favourite shares a genre with the result (both must list genres). */
  predicate LikeAFavorite(favs: seq<Fav>, item: Rec)
  {
    exists f :: f in favs && f.genreIds.Some? && item.pick.genreIds.Some?
      && exists g :: g in f.genreIds.value && g in item.pick.genreIds.value
  }

  /** `finalScore`: the result's score, fifty per selected genre it lists, thirty when like a favourite. */
  function FinalScore(item: Rec, genres: seq<int>, favs: seq<Fav>): int
  {
    item.pick.base
    + (if item.pick.genreIds.Some? && |genres| > 0 then GenreBoost * |Filter(item.pick.genreIds.value, g => g in genres)| else 0)
    + (if LikeAFavorite(favs, item) then FavoriteBoost else 0)
  }

  /**
   * The final score never falls below the result's own score nor exceeds it by
   * more than fifty per listed genre plus thirty; with no favourites and no
   * genre of the result selected, it is the result's own score.
   */
  lemma FinalScoreLaws(item: Rec, genres: seq<int>, favs: seq<Fav>)
    ensures var s := FinalScore(item, genres, favs);
      && item.pick.base <= s
      && (item.pick.genreIds.Some? ==> s <= item.pick.base + GenreBoost * |item.pick.genreIds.value| + FavoriteBoost)
      && (item.pick.genreIds.None? ==> s == item.pick.base)
      && (favs == [] && (item.pick.genreIds.Some? ==> forall g :: g in item.pick.genreIds.value ==> g !in genres)
          ==> s == item.pick.base)
  {
    if item.pick.genreIds.Some? {
      if forall g :: g in item.pick.genreIds.value ==> g !in genres {
        FilterNone(item.pick.genreIds.value, g => g in genres);
      }
    }
  }

  datatype Suggestion = Suggestion(rec: Rec, finalScore: int)

  function ScoreAll(items: seq<Rec>, genres: seq<int>, favs: seq<Fav>): (r: seq<Suggestion>)
    ensures |r| == |items| && forall k :: 0 <= k < |r| ==> r[k] == Suggestion(items[k], FinalScore(items[k], genres, favs))
  {
    if |items| == 0 then [] else [Suggestion(items[0], FinalScore(items[0], genres, favs))] + ScoreAll(items[1..], genres, favs)
  }

  function ByFinalScore(s: Suggestion): int
  {
    s.finalScore
  }

  function SuggestionKey(s: Suggestion): (int, MediaType)
  {
    RecKey(s.rec)
  }

  /** The deduplicated results scored, best first, at most thirty. */
  function Best(unique: seq<Rec>, genres: seq<int>, favs: seq<Fav>): seq<Suggestion>
  {
    Take(SortDesc(ScoreAll(unique, genres, favs), ByFinalScore), MaxSuggestions)
  }

  /** Every result of every list, labelled, in request order. */
  function Pool(mode: Mode, favs: seq<Fav>, results: seq<Option<seq<Pick>>>): seq<Rec>
    requires |results| == |Queries(mode, favs)|
  {
    Gathered(results, Kinds(Queries(mode, favs)))
  }

  /**
   * The pool holds exactly the results of the requests, each labelled with its
   * own media type or else with the kind of its request: a discover page's
   * kind, or the kind of the favourite whose list it is.
   */
  lemma PoolLabelsByRequest(mode: Mode, favs: seq<Fav>, results: seq<Option<seq<Pick>>>, x: Rec)
    requires |results| == |Queries(mode, favs)|
    ensures x in Pool(mode, favs, results) <==> exists i, j :: LabelledFrom(results, Kinds(Queries(mode, favs)), i, j, x)
    ensures forall i, j :: LabelledFrom(results, Kinds(Queries(mode, favs)), i, j, x) && x.pick.mediaType.None? ==>
              x.mediaType == QueryKind(Queries(mode, favs)[i])
  {
    var kinds := Kinds(Queries(mode, favs));
    assert Pool(mode, favs, results) == Gathered(results, kinds);
    GatheredLaws(results, kinds, x);
    assert x in Pool(mode, favs, results) ==> exists i, j :: LabelledFrom(results, Kinds(Queries(mode, favs)), i, j, x);
    assert x in Pool(mode, favs, results) <== exists i, j :: LabelledFrom(results, Kinds(Queries(mode, favs)), i, j, x);
    forall i, j | LabelledFrom(results, kinds, i, j, x) && x.pick.mediaType.None?
      ensures x.mediaType == QueryKind(Queries(mode, favs)[i])
    {
      assert x.mediaType == kinds[i];
    }
  }

  /**
   * With the labels taken from the requests and both kinds asked for, a result
   * without a media type on the second page of /discover/movie is a movie and
   * one on the second page of /discover/tv is a TV show.
   */
  lemma CorrectedLabels(favs: seq<Fav>, results: seq<Option<seq<Pick>>>, j: nat)
    requires |results| == |Queries(Both, favs)|
    ensures results[1].Some? && j < |results[1].value| && results[1].value[j].mediaType.None? ==>
              Rec(results[1].value[j], Movie) in Pool(Both, favs, results)
    ensures results[4].Some? && j < |results[4].value| && results[4].value[j].mediaType.None? ==>
              Rec(results[4].value[j], Tv) in Pool(Both, favs, results)
  {
    AsWrittenMislabels(favs);
    var kinds := Kinds(Queries(Both, favs));
    assert results[1].Some? && j < |results[1].value| && results[1].value[j].mediaType.None? ==>
             Rec(results[1].value[j], Movie) in Pool(Both, favs, results) by {
      if results[1].Some? && j < |results[1].value| && results[1].value[j].mediaType.None? {
        var x := Rec(results[1].value[j], Movie);
        assert kinds[1] == Movie;
        PoolLabelsByRequest(Both, favs, results, x);
        assert LabelledFrom(results, kinds, 1, j, x);
        assert exists i, k :: LabelledFrom(results, Kinds(Queries(Both, favs)), i, k, x);
      }
    }
    if results[4].Some? && j < |results[4].value| && results[4].value[j].mediaType.None? {
      var x := Rec(results[4].value[j], Tv);
      assert kinds[4] == Tv;
      PoolLabelsByRequest(Both, favs, results, x);
      assert LabelledFrom(results, kinds, 4, j, x);
      assert exists i, k :: LabelledFrom(results, Kinds(Queries(Both, favs)), i, k, x);
    }
  }

  /**
   * With the labels taken from the requests and only movies asked for, a result
   * without a media type on the /similar list of a TV favourite is a TV show.
   */
  lemma CorrectedFavoriteLabel(f: Fav, results: seq<Option<seq<Pick>>>, j: nat)
    requires f.mediaType == Tv && |results| == |Queries(MoviesOnly, [f])|
    ensures results[4].Some? && j < |results[4].value| && results[4].value[j].mediaType.None? ==>
              Rec(results[4].value[j], Tv) in Pool(MoviesOnly, [f], results)
  {
    if results[4].Some? && j < |results[4].value| && results[4].value[j].mediaType.None? {
      AsWrittenMislabelsFavorite(f);
      var kinds := Kinds(Queries(MoviesOnly, [f]));
      var x := Rec(results[4].value[j], Tv);
      assert kinds[4] == Tv;
      PoolLabelsByRequest(MoviesOnly, [f], results, x);
      assert LabelledFrom(results, kinds, 4, j, x);
    }
  }

  /**
   * generateRecommendations after the requests: the results deduplicated by
   * (id, media type) keeping the first, scored, best first, at most thirty.
   */
  function Suggestions(mode: Mode, genres: seq<int>, favs: seq<Fav>, results: seq<Option<seq<Pick>>>): (r: seq<Suggestion>)
    requires |results| == |Queries(mode, favs)|
    ensures |r| <= MaxSuggestions
  {
    Best(DedupFirst(Pool(mode, favs, results), RecKey), genres, favs)
  }

  lemma BestLaws(unique: seq<Rec>, genres: seq<int>, favs: seq<Fav>, x: Suggestion)
    requires UniqueBy(unique, RecKey)
    ensures var r := Best(unique, genres, favs);
      && |r| <= MaxSuggestions
      && SortedDesc(r, ByFinalScore)
      && UniqueBy(r, SuggestionKey)
      && (x in r ==> x.rec in unique && x.finalScore == FinalScore(x.rec, genres, favs))
      && (r == [] <==> unique == [])
      && |r| == (if |unique| <= MaxSuggestions then |unique| else MaxSuggestions)
  {
    var scored := ScoreAll(unique, genres, favs);
    var sorted := SortDesc(scored, ByFinalScore);
    var r := Best(unique, genres, favs);
    SortDescSorted(scored, ByFinalScore);
    assert |sorted| == |scored| by {
      assert |multiset(sorted)| == |multiset(scored)|;
    }
    assert UniqueBy(scored, SuggestionKey) by {
      forall i, j | 0 <= i < j < |scored| ensures SuggestionKey(scored[i]) != SuggestionKey(scored[j]) {
        assert RecKey(unique[i]) != RecKey(unique[j]);
      }
    }
    SortDescUnique(scored, ByFinalScore, SuggestionKey);
    assert r == sorted[..|r|];
    if x in r {
      assert x in multiset(scored);
      var k :| 0 <= k < |scored| && scored[k] == x;
      assert unique[k] in unique;
    }
  }

  /**
   * Thirty suggestions (all distinct titles when there are fewer), best first,
   * no (id, media type) twice, each a result of some list with its final
   * score; there are none exactly when no list returned anything.
   */
  lemma SuggestionsLaws(mode: Mode, genres: seq<int>, favs: seq<Fav>, results: seq<Option<seq<Pick>>>, x: Suggestion)
    requires |results| == |Queries(mode, favs)|
    ensures var all := Pool(mode, favs, results);
      var r := Suggestions(mode, genres, favs, results);
      && |r| <= MaxSuggestions
      && SortedDesc(r, ByFinalScore)
      && UniqueBy(r, SuggestionKey)
      && (x in r ==> x.rec in all && x.finalScore == FinalScore(x.rec, genres, favs))
      && (x in r ==> exists i, j :: LabelledFrom(results, Kinds(Queries(mode, favs)), i, j, x.rec))
      && (r == [] <==> all == [])
      && |r| == (var n := |Keys(all, RecKey)|; if n <= MaxSuggestions then n else MaxSuggestions)
  {
    var all := Pool(mode, favs, results);
    PoolLabelsByRequest(mode, favs, results, x.rec);
    var unique := DedupFirst(all, RecKey);
    BestLaws(unique, genres, favs, x);
    UniqueKeysCount(unique, RecKey);
    if x in Suggestions(mode, genres, favs, results) {
      SubseqIn(unique, all, x.rec);
    }
    if |all| > 0 {
      assert RecKey(all[0]) in Keys(all, RecKey);
      assert unique != [];
    }
  }

  /** The row the plus button on a suggestion adds: title, else name; a falsy poster is left out. */
  function WatchItem(profileId: string, s: Suggestion, id: string, createdAt: string): WatchlistItem
  {
    var p := s.rec.pick;
    WatchlistItem(id, profileId, Some(p.id), s.rec.mediaType,
                  if Truthy(p.title) then p.title.value else if p.name.Some? then p.name.value else "",
                  if Truthy(p.posterPath) then p.posterPath else None, None, createdAt)
  }

  class Wizard {
    var step: int
    var selectedGenres: seq<int>
    var selectedRatings: seq<string>
    var mediaType: Mode
    var yearFrom: int
    var yearTo: int
    var favorites: seq<Fav>
    var movieInput: string
    var searchResults: seq<Fav>
    var showSearchPopup: bool
    var recommendations: seq<Suggestion>

    /**
     * Steps run from 1 to 6; at most three genres and no repeats; the steps
     * after the first are reached only with a genre chosen, those after the
     * third only with an age rating chosen.
     */
    predicate Valid()
      reads this
    {
      && 1 <= step <= 6
      && |selectedGenres| <= MaxGenres && Distinct(selectedGenres)
      && Distinct(selectedRatings)
      && UniqueBy(favorites, FavId)
      && (step >= 2 ==> |selectedGenres| > 0)
      && (step >= 4 ==> |selectedRatings| > 0)
    }

    constructor (currentYear: int)
      ensures Valid() && step == 1 && selectedGenres == [] && selectedRatings == [] && mediaType == Both
      ensures yearFrom == FirstYear && yearTo == currentYear
      ensures favorites == [] && movieInput == "" && searchResults == [] && !showSearchPopup && recommendations == []
    {
      step := 1;
      selectedGenres, selectedRatings := [], [];
      mediaType := Both;
      yearFrom, yearTo := FirstYear, currentYear;
      favorites := [];
      movieInput := "";
      searchResults := [];
      showSearchPopup := false;
      recommendations := [];
    }

    /** A genre chip (step 1). */
    method PressGenre(id: int)
      requires Valid() && step == 1
      modifies this
      ensures Valid() && selectedGenres == ToggleGenre(old(selectedGenres), id)
      ensures step == old(step) && selectedRatings == old(selectedRatings) && favorites == old(favorites)
    {
      ToggleGenreLaws(selectedGenres, id, id);
      selectedGenres := ToggleGenre(selectedGenres, id);
    }

    /** An age rating card (step 3). */
    method PressRating(value: string)
      requires Valid() && step == 3
      modifies this
      ensures Valid() && selectedRatings == ToggleRating(old(selectedRatings), value)
      ensures step == old(step) && selectedGenres == old(selectedGenres) && favorites == old(favorites)
    {
      ToggleRatingLaws(selectedRatings, value, value);
      selectedRatings := ToggleRating(selectedRatings, value);
    }

    /** A movies / TV shows / both card (step 2). */
    method ChooseMode(mode: Mode)
      requires Valid()
      modifies this
      ensures Valid() && mediaType == mode && step == old(step)
      ensures selectedGenres == old(selectedGenres) && selectedRatings == old(selectedRatings) && favorites == old(favorites)
    {
      mediaType := mode;
    }

    /** The two year sliders (step 4). */
    method SetYears(from: int, to: int)
      requires Valid()
      modifies this
      ensures Valid() && yearFrom == from && yearTo == to && step == old(step)
      ensures selectedGenres == old(selectedGenres) && selectedRatings == old(selectedRatings) && favorites == old(favorites)
    {
      yearFrom, yearTo := from, to;
    }

    /** Next on steps 1 to 4: one step on unless the button is disabled. */
    method Next()
      requires Valid() && 1 <= step <= 4
      modifies this
      ensures Valid()
      ensures step == if NextBlocked(old(step), selectedGenres, selectedRatings) then old(step) else old(step) + 1
      ensures selectedGenres == old(selectedGenres) && selectedRatings == old(selectedRatings) && favorites == old(favorites)
    {
      if !NextBlocked(step, selectedGenres, selectedRatings) {
        step := step + 1;
      }
    }

    /** Back on steps 2 to 5. */
    method Back()
      requires Valid() && 2 <= step <= 5
      modifies this
      ensures Valid() && step == old(step) - 1
      ensures selectedGenres == old(selectedGenres) && selectedRatings == old(selectedRatings) && favorites == old(favorites)
    {
      step := step - 1;
    }

    method TypeTitle(text: string)
      requires Valid()
      modifies this
      ensures Valid() && movieInput == text && step == old(step) && favorites == old(favorites)
      ensures selectedGenres == old(selectedGenres) && selectedRatings == old(selectedRatings)
    {
      movieInput := text;
    }

    /**
     * searchMovies, given the request's outcome: nothing for a blank entry or a
     * failed request; otherwise the popup opens on the shortlist.
     */
    method SearchTitles(response: Result<Option<seq<Hit>>>)
      requires Valid()
      modifies this
      ensures Valid() && step == old(step) && favorites == old(favorites) && movieInput == old(movieInput)
      ensures selectedGenres == old(selectedGenres) && selectedRatings == old(selectedRatings)
      ensures Trim(movieInput) == "" || response.Failure? ==> searchResults == old(searchResults) && showSearchPopup == old(showSearchPopup)
      ensures Trim(movieInput) != "" && response.Success? ==> searchResults == Shortlist(response.value) && showSearchPopup
    {
      if Trim(movieInput) == "" {
        return;
      }
      if response.Success? {
        searchResults := Shortlist(response.value);
        showSearchPopup := true;
      }
    }

    /** Picking a title in the popup: a new favourite closes the popup and clears the entry. */
    method PickTitle(movie: Fav)
      requires Valid()
      modifies this
      ensures Valid() && favorites == AddFavorite(old(favorites), movie) && step == old(step)
      ensures selectedGenres == old(selectedGenres) && selectedRatings == old(selectedRatings)
      ensures favorites != old(favorites) ==> movieInput == "" && !showSearchPopup && searchResults == []
      ensures favorites == old(favorites) ==>
        movieInput == old(movieInput) && showSearchPopup == old(showSearchPopup) && searchResults == old(searchResults)
    {
      FavoritesLaws(favorites, movie, movie);
      if Find(favorites, (m: Fav) => m.id == movie.id).None? {
        favorites := favorites + [movie];
        movieInput := "";
        showSearchPopup := false;
        searchResults := [];
      }
    }

    /** The remove button on a favourite. */
    method Unfavorite(id: int)
      requires Valid()
      modifies this
      ensures Valid() && favorites == RemoveFavorite(old(favorites), id) && step == old(step)
      ensures selectedGenres == old(selectedGenres) && selectedRatings == old(selectedRatings)
    {
      FilterUnique(favorites, (m: Fav) => m.id != id, FavId);
      favorites := RemoveFavorite(favorites, id);
    }

    /**
     * generateRecommendations (step 5, or Refresh on step 6), given the
     * responses in request order or None when a request failed: with
     * suggestions the wizard moves to step 6 and shows them; with none, or on
     * failure, it stays where it is.
     */
    method Generate(outcome: Option<seq<Option<seq<Pick>>>>) returns (found: bool)
      requires Valid() && step >= 5
      requires outcome.Some? ==> |outcome.value| == |Queries(mediaType, favorites)|
      modifies this
      ensures Valid()
      ensures selectedGenres == old(selectedGenres) && selectedRatings == old(selectedRatings) && favorites == old(favorites)
      ensures mediaType == old(mediaType)
      ensures found <==> outcome.Some? && Suggestions(mediaType, selectedGenres, favorites, outcome.value) != []
      ensures found ==> step == 6 && recommendations == Suggestions(mediaType, selectedGenres, favorites, outcome.value)
      ensures !found ==> step == old(step) && recommendations == old(recommendations)
    {
      var qs := BuildQueries(mediaType, favorites);
      if outcome.None? {
        return false;
      }
      var all := Gather(outcome.value, Kinds(qs));
      var scored := Best(DedupFirst(all, RecKey), selectedGenres, favorites);
      if |scored| == 0 {
        return false;
      }
      recommendations := scored;
      step := 6;
      found := true;
    }

    /** The plus button on a suggestion. */
    method AddToWatchlist(store: Storage.Store, profileId: string, s: Suggestion, id: string, createdAt: string)
      modifies store
      ensures store.State() == StorageState.AddToWatchlist(old(store.State()), WatchItem(profileId, s, id, createdAt))
    {
      store.AddToWatchlist(WatchItem(profileId, s, id, createdAt));
    }

    /** Start Over: every choice back to its default and step 1. */
    method StartOver(currentYear: int)
      requires Valid()
      modifies this
      ensures Valid() && step == 1 && selectedGenres == [] && selectedRatings == [] && mediaType == Both
      ensures yearFrom == FirstYear && yearTo == currentYear && favorites == [] && recommendations == []
      ensures movieInput == old(movieInput) && searchResults == old(searchResults) && showSearchPopup == old(showSearchPopup)
    {
      step := 1;
      selectedGenres, selectedRatings := [], [];
      mediaType := Both;
      yearFrom, yearTo := FirstYear, currentYear;
      favorites := [];
      recommendations := [];
    }
  }
}
