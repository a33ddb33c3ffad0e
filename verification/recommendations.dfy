/**
 * The recommendation engine (src/lib/recommendations.ts): the profile's
 * favourite genres come from its ratings, the candidates from four TMDB lists,
 * and a candidate the profile has already listed or watched is never offered.
 *
 * The four list requests are a parameter holding their outcome. The part of a
 * candidate's score that the source computes in floating point (twice the vote
 * average plus a hundredth of the popularity) is an integer `base` given with
 * each candidate.
 */
module Recommendations {
  import opened Types
  import opened Collections
  import opened StorageState
  import Storage

  // ---------------------------------------------------------------------------
  // Already seen titles
  // ---------------------------------------------------------------------------

  /** `seenIds`: the truthy TMDB ids of the profile's watchlist and watch history. */
  function SeenIds(watchlist: seq<WatchlistItem>, history: seq<WatchHistory>): (r: set<int>)
    ensures 0 !in r
    ensures forall w :: w in watchlist && TruthyId(w.tmdbId) ==> w.tmdbId.value in r
    ensures forall h :: h in history && TruthyId(h.tmdbId) ==> h.tmdbId.value in r
  {
    (set k | 0 <= k < |watchlist| && TruthyId(watchlist[k].tmdbId) :: watchlist[k].tmdbId.value)
    + (set k | 0 <= k < |history| && TruthyId(history[k].tmdbId) :: history[k].tmdbId.value)
  }

  /** The two forEach loops that fill `seenIds`. */
  method CollectSeen(watchlist: seq<WatchlistItem>, history: seq<WatchHistory>) returns (seen: set<int>)
    ensures seen == SeenIds(watchlist, history)
  {
    seen := {};
    for i := 0 to |watchlist|
      invariant forall id :: id in seen <==>
        exists k :: 0 <= k < i && TruthyId(watchlist[k].tmdbId) && watchlist[k].tmdbId.value == id
    {
      if TruthyId(watchlist[i].tmdbId) {
        seen := seen + {watchlist[i].tmdbId.value};
      }
    }
    for i := 0 to |history|
      invariant forall id :: id in seen <==>
        (exists k :: 0 <= k < |watchlist| && TruthyId(watchlist[k].tmdbId) && watchlist[k].tmdbId.value == id)
        || (exists k :: 0 <= k < i && TruthyId(history[k].tmdbId) && history[k].tmdbId.value == id)
    {
      if TruthyId(history[i].tmdbId) {
        seen := seen + {history[i].tmdbId.value};
      }
    }
    assert forall id :: id in seen <==> id in SeenIds(watchlist, history);
  }

  // ---------------------------------------------------------------------------
  // Genre weights
  // ---------------------------------------------------------------------------

  /** One `genreMap` update: the genre id and the rating added to its weight. */
  function Pairs(genres: seq<Genre>, rating: int): (r: seq<(int, int)>)
    ensures |r| == |genres| && forall k :: 0 <= k < |genres| ==> r[k] == (genres[k].id, rating)
  {
    if |genres| == 0 then [] else [(genres[0].id, rating)] + Pairs(genres[1..], rating)
  }

  /** Every update the ratings make to `genreMap`, in the order they are made. */
  function Contributions(ratings: seq<Rating>): seq<(int, int)>
  {
    if |ratings| == 0 then []
    else Contributions(ratings[..|ratings| - 1]) + Pairs(ratings[|ratings| - 1].genres, ratings[|ratings| - 1].rating)
  }

  /** A genre's weight: the sum of the ratings added to it. */
  function Tally(cs: seq<(int, int)>, g: int): int
  {
    if |cs| == 0 then 0
    else Tally(cs[..|cs| - 1], g) + (if cs[|cs| - 1].0 == g then cs[|cs| - 1].1 else 0)
  }

  /** The map's keys in insertion order: each genre id once, where it first appears. */
  function FirstSeen(cs: seq<(int, int)>): (r: seq<int>)
    ensures forall g :: g in r <==> exists k :: 0 <= k < |cs| && cs[k].0 == g
    ensures forall i, j :: 0 <= i < j < |r| ==> r[i] != r[j]
  {
    if |cs| == 0 then []
    else
      var prev := FirstSeen(cs[..|cs| - 1]);
      assert forall k :: 0 <= k < |cs| - 1 ==> cs[..|cs| - 1][k] == cs[k];
      if cs[|cs| - 1].0 in prev then prev else prev + [cs[|cs| - 1].0]
  }

  /** A genre no rating names has weight zero. */
  lemma {:induction false} TallyUnseen(cs: seq<(int, int)>, g: int)
    requires g !in FirstSeen(cs)
    ensures Tally(cs, g) == 0
  {
    if |cs| > 0 {
      var init := cs[..|cs| - 1];
      assert forall k :: 0 <= k < |init| ==> init[k] == cs[k];
      TallyUnseen(init, g);
    }
  }

  lemma SnocUnfold(cs: seq<(int, int)>, p: (int, int))
    ensures forall g :: Tally(cs + [p], g) == Tally(cs, g) + (if p.0 == g then p.1 else 0)
    ensures FirstSeen(cs + [p]) == if p.0 in FirstSeen(cs) then FirstSeen(cs) else FirstSeen(cs) + [p.0]
  {
    assert (cs + [p])[..|cs|] == cs;
  }

  lemma ContributionsStep(ratings: seq<Rating>, i: nat)
    requires i < |ratings|
    ensures Contributions(ratings[..i + 1]) == Contributions(ratings[..i]) + Pairs(ratings[i].genres, ratings[i].rating)
  {
    assert ratings[..i + 1][..i] == ratings[..i];
  }

  /**
   * `order` lists the keys of `weights` in insertion order and each key maps
   * to its weight, after the updates `cs`.
   */
  ghost predicate Tallied(order: seq<int>, weights: map<int, int>, cs: seq<(int, int)>)
  {
    && order == FirstSeen(cs)
    && (forall g :: g in weights <==> g in order)
    && (forall g :: g in weights ==> weights[g] == Tally(cs, g))
  }

  /** One `genreMap.set(id, (genreMap.get(id) || 0) + rating)`. */
  method AddWeight(order: seq<int>, weights: map<int, int>, ghost cs: seq<(int, int)>, id: int, rating: int)
    returns (order': seq<int>, weights': map<int, int>)
    requires Tallied(order, weights, cs)
    ensures Tallied(order', weights', cs + [(id, rating)])
  {
    SnocUnfold(cs, (id, rating));
    if id !in weights {
      TallyUnseen(cs, id);
    }
    order' := if id in weights then order else order + [id];
    weights' := weights[id := (if id in weights then weights[id] else 0) + rating];
  }

  lemma PrefixStep(cs: seq<(int, int)>, ps: seq<(int, int)>, j: nat)
    requires j < |ps|
    ensures cs + ps[..j + 1] == (cs + ps[..j]) + [ps[j]]
  {
    assert ps[..j + 1] == ps[..j] + [ps[j]];
  }

  /** The inner forEach: one rating's genres, in order. */
  method AddRating(order: seq<int>, weights: map<int, int>, ghost cs: seq<(int, int)>, r: Rating)
    returns (order': seq<int>, weights': map<int, int>)
    requires Tallied(order, weights, cs)
    ensures Tallied(order', weights', cs + Pairs(r.genres, r.rating))
  {
    ghost var ps := Pairs(r.genres, r.rating);
    order', weights' := order, weights;
    assert cs + ps[..0] == cs;
    for j := 0 to |r.genres|
      invariant Tallied(order', weights', cs + ps[..j])
    {
      PrefixStep(cs, ps, j);
      order', weights' := AddWeight(order', weights', cs + ps[..j], r.genres[j].id, r.rating);
    }
    assert ps[..|r.genres|] == ps;
  }

  /**
   * The nested forEach that fills `genreMap`, as an insertion-ordered key list
   * and a map from key to weight.
   */
  method GenreWeights(ratings: seq<Rating>) returns (order: seq<int>, weights: map<int, int>)
    ensures Tallied(order, weights, Contributions(ratings))
  {
    order, weights := [], map[];
    for i := 0 to |ratings|
      invariant Tallied(order, weights, Contributions(ratings[..i]))
    {
      order, weights := AddRating(order, weights, Contributions(ratings[..i]), ratings[i]);
      ContributionsStep(ratings, i);
    }
    assert ratings[..|ratings|] == ratings;
  }

  /** A genre's weight as a scoring function. */
  function Weight(cs: seq<(int, int)>): int -> int
  {
    g => Tally(cs, g)
  }

  /** The genre ids ordered by descending weight, equal weights in first-seen order. */
  function Ranking(cs: seq<(int, int)>): seq<int>
  {
    SortDesc(FirstSeen(cs), Weight(cs))
  }

  /** `topGenres`: the first three of the ranking. */
  function TopGenres(cs: seq<(int, int)>): (r: seq<int>)
    ensures |r| <= 3
    ensures forall g :: g in r ==> g in Ranking(cs)
  {
    Take(Ranking(cs), 3)
  }

  lemma RankingPerm(cs: seq<(int, int)>)
    ensures SortedDesc(Ranking(cs), Weight(cs))
    ensures multiset(Ranking(cs)) == multiset(FirstSeen(cs))
    ensures |Ranking(cs)| == |FirstSeen(cs)|
  {
    SortDescSorted(FirstSeen(cs), Weight(cs));
    assert |multiset(Ranking(cs))| == |multiset(FirstSeen(cs))|;
  }

  /**
   * The top genres are rated genres, three of them whenever three were rated
   * (all of them otherwise), and no genre left out outweighs one that was
   * kept.
   */
  lemma TopGenresLaws(cs: seq<(int, int)>, g: int, h: int)
    ensures var top := TopGenres(cs);
      && |top| == (if |FirstSeen(cs)| < 3 then |FirstSeen(cs)| else 3)
      && (g in top ==> exists k :: 0 <= k < |cs| && cs[k].0 == g)
      && (g in top && h in FirstSeen(cs) && h !in top ==> Tally(cs, g) >= Tally(cs, h))
  {
    var order := FirstSeen(cs);
    var sorted := Ranking(cs);
    var top := TopGenres(cs);
    RankingPerm(cs);
    if g in top {
      var i :| 0 <= i < |top| && top[i] == g;
      assert sorted[i] == g;
      assert g in multiset(order);
      assert g in order;
      if h in order && h !in top {
        assert h in multiset(sorted);
        var k :| 0 <= k < |sorted| && sorted[k] == h;
        assert i < |top| <= k;
        assert Weight(cs)(g) >= Weight(cs)(h);
      }
    }
  }

  /** Genres of equal weight keep the order in which the ratings first named them. */
  lemma RankingTies(cs: seq<(int, int)>, v: int)
    ensures Filter(Ranking(cs), g => Tally(cs, g) == v) == Filter(FirstSeen(cs), g => Tally(cs, g) == v)
  {
    SortDescStable(FirstSeen(cs), Weight(cs), v, g => Tally(cs, g) == v);
  }

  // ---------------------------------------------------------------------------
  // Candidates and scores
  // ---------------------------------------------------------------------------

  /** One entry of a list response: its id, its genre ids (none when missing) and the non-genre part of its score. */
  datatype Item = Item(id: int, genreIds: seq<int>, base: int)

  /** An entry labelled with the kind of list it came from. */
  datatype Candidate = Candidate(item: Item, mediaType: MediaType)

  datatype Scored = Scored(candidate: Candidate, score: int)

  /** The `results` of the four list responses (missing when a response has none). */
  datatype Lists = Lists(
    trendingMovies: Option<seq<Item>>,
    trendingShows: Option<seq<Item>>,
    popularMovies: Option<seq<Item>>,
    popularShows: Option<seq<Item>>)

  /** `(results || []).map(item => ({ ...item, media_type }))`. */
  function Labelled(results: Option<seq<Item>>, mediaType: MediaType): (r: seq<Candidate>)
    ensures results.None? ==> r == []
    ensures results.Some? ==> |r| == |results.value|
    ensures results.Some? ==> forall k :: 0 <= k < |r| ==> r[k] == Candidate(results.value[k], mediaType)
  {
    if results.None? then [] else LabelAll(results.value, mediaType)
  }

  function LabelAll(items: seq<Item>, mediaType: MediaType): (r: seq<Candidate>)
    ensures |r| == |items| && forall k :: 0 <= k < |r| ==> r[k] == Candidate(items[k], mediaType)
  {
    if |items| == 0 then [] else [Candidate(items[0], mediaType)] + LabelAll(items[1..], mediaType)
  }

  /** `allContent`: trending movies, trending shows, popular movies, popular shows. */
  function AllContent(l: Lists): seq<Candidate>
  {
    Labelled(l.trendingMovies, Movie) + Labelled(l.trendingShows, Tv)
    + Labelled(l.popularMovies, Movie) + Labelled(l.popularShows, Tv)
  }

  /** Ten points for each of the candidate's genre ids that is a top genre. */
  function GenreBonus(genreIds: seq<int>, top: seq<int>): (r: int)
    ensures r == 10 * |Filter(genreIds, g => g in top)|
  {
    if |genreIds| == 0 then 0
    else
      var init := genreIds[..|genreIds| - 1];
      var last := genreIds[|genreIds| - 1];
      assert genreIds == init + [last];
      FilterAppend(init, [last], g => g in top);
      GenreBonus(init, top) + (if last in top then 10 else 0)
  }

  function ScoreOf(c: Candidate, top: seq<int>): Scored
  {
    Scored(c, GenreBonus(c.item.genreIds, top) + c.item.base)
  }

  /** The map step over the unseen candidates. */
  function ScoreAll(cands: seq<Candidate>, top: seq<int>): (r: seq<Scored>)
    ensures |r| == |cands| && forall k :: 0 <= k < |r| ==> r[k] == ScoreOf(cands[k], top)
  {
    if |cands| == 0 then []
    else ScoreAll(cands[..|cands| - 1], top) + [ScoreOf(cands[|cands| - 1], top)]
  }

  function ScoreKey(x: Scored): int
  {
    x.score
  }

  /** The candidates whose id is not among the seen ones (repeats are kept). */
  function Unseen(all: seq<Candidate>, seen: set<int>): seq<Candidate>
  {
    Filter(all, (c: Candidate) => c.item.id !in seen)
  }

  /** The list returned: unseen candidates by descending score, equal scores in list order, at most twenty. */
  function Rank(all: seq<Candidate>, seen: set<int>, top: seq<int>): (r: seq<Scored>)
    ensures |r| <= 20
    ensures forall x :: x in r ==> x in SortDesc(ScoreAll(Unseen(all, seen), top), ScoreKey)
  {
    Take(SortDesc(ScoreAll(Unseen(all, seen), top), ScoreKey), 20)
  }

  /** The sorted scores: best first, the same candidates. */
  lemma SortedScores(scored: seq<Scored>)
    ensures SortedDesc(SortDesc(scored, ScoreKey), ScoreKey)
    ensures multiset(SortDesc(scored, ScoreKey)) == multiset(scored)
    ensures |SortDesc(scored, ScoreKey)| == |scored|
  {
    SortDescSorted(scored, ScoreKey);
    assert |multiset(SortDesc(scored, ScoreKey))| == |multiset(scored)|;
  }

  /**
   * The list holds twenty unseen candidates of the lists (all of them when
   * there are fewer), each with its score, best first.
   */
  lemma RankLaws(all: seq<Candidate>, seen: set<int>, top: seq<int>, x: Scored)
    ensures var r := Rank(all, seen, top);
      && |r| <= 20
      && SortedDesc(r, ScoreKey)
      && (x in r ==> x.candidate in all && x.candidate.item.id !in seen && x == ScoreOf(x.candidate, top))
      && (|Unseen(all, seen)| <= 20 ==> multiset(r) == multiset(ScoreAll(Unseen(all, seen), top)))
      && |r| == (if |Unseen(all, seen)| <= 20 then |Unseen(all, seen)| else 20)
      && multiset(r) <= multiset(ScoreAll(Unseen(all, seen), top))
  {
    var unseen := Unseen(all, seen);
    var r := Rank(all, seen, top);
    RankedShape(unseen, top, r);
    RankedAreScored(unseen, top, r, x);
  }

  /** The slice is sorted, twenty long unless fewer candidates are unseen, and then all of them. */
  lemma RankedShape(unseen: seq<Candidate>, top: seq<int>, r: seq<Scored>)
    requires r == Take(SortDesc(ScoreAll(unseen, top), ScoreKey), 20)
    ensures SortedDesc(r, ScoreKey)
    ensures |r| == (if |unseen| <= 20 then |unseen| else 20)
    ensures |unseen| <= 20 ==> multiset(r) == multiset(ScoreAll(unseen, top))
  {
    var scored := ScoreAll(unseen, top);
    SortedScores(scored);
    if |unseen| <= 20 {
      assert r == SortDesc(scored, ScoreKey);
    }
  }

  /** The slice keeps a prefix of the sorted scores, so each kept entry is a scored candidate. */
  lemma RankedAreScored(unseen: seq<Candidate>, top: seq<int>, r: seq<Scored>, x: Scored)
    requires r == Take(SortDesc(ScoreAll(unseen, top), ScoreKey), 20)
    ensures multiset(r) <= multiset(ScoreAll(unseen, top))
    ensures x in r ==> x.candidate in unseen && x == ScoreOf(x.candidate, top)
  {
    var scored := ScoreAll(unseen, top);
    var sorted := SortDesc(scored, ScoreKey);
    SortedScores(scored);
    assert sorted == r + sorted[|r|..];
    assert multiset(sorted) == multiset(r) + multiset(sorted[|r|..]);
    if x in r {
      assert x in multiset(scored);
      var k :| 0 <= k < |scored| && scored[k] == x;
      assert unseen[k] in unseen;
    }
  }

  /** Nothing the slice drops scores above anything it keeps. */
  lemma RankKeepsBest(all: seq<Candidate>, seen: set<int>, top: seq<int>, x: Scored, y: Scored)
    requires x in ScoreAll(Unseen(all, seen), top) && x !in Rank(all, seen, top)
    requires y in Rank(all, seen, top)
    ensures y.score >= x.score
  {
    var scored := ScoreAll(Unseen(all, seen), top);
    var sorted := SortDesc(scored, ScoreKey);
    var r := Rank(all, seen, top);
    SortedScores(scored);
    assert x in multiset(sorted);
    var k :| 0 <= k < |sorted| && sorted[k] == x;
    var i :| 0 <= i < |r| && r[i] == y;
    assert sorted[i] == y;
    assert i < |r| <= k;
    assert ScoreKey(sorted[i]) >= ScoreKey(sorted[k]);
  }

  /**
   * generateRecommendations for a profile: the lists' outcome decides; a failed
   * request gives no recommendations.
   */
  function Recommend(s: StoreState, profileId: string, fetched: Result<Lists>): (r: seq<Scored>)
    ensures fetched.Failure? ==> r == []
    ensures |r| <= 20
  {
    if fetched.Failure? then []
    else
      var seen := SeenIds(GetWatchlist(s, Some(profileId)), GetWatchHistory(s, Some(profileId)));
      var top := TopGenres(Contributions(GetRatings(s, Some(profileId))));
      Rank(AllContent(fetched.value), seen, top)
  }

  /**
   * Nothing on the profile's watchlist or in its watch history is recommended,
   * and a failed request recommends nothing.
   */
  lemma RecommendNeverSeen(s: StoreState, profileId: string, fetched: Result<Lists>, x: Scored,
                           w: WatchlistItem, h: WatchHistory)
    ensures fetched.Failure? ==> Recommend(s, profileId, fetched) == []
    ensures x in Recommend(s, profileId, fetched) && w in GetWatchlist(s, Some(profileId)) && TruthyId(w.tmdbId)
            ==> x.candidate.item.id != w.tmdbId.value
    ensures x in Recommend(s, profileId, fetched) && h in GetWatchHistory(s, Some(profileId)) && TruthyId(h.tmdbId)
            ==> x.candidate.item.id != h.tmdbId.value
  {
    if fetched.Success? {
      var wl := GetWatchlist(s, Some(profileId));
      var hs := GetWatchHistory(s, Some(profileId));
      var seen := SeenIds(wl, hs);
      var top := TopGenres(Contributions(GetRatings(s, Some(profileId))));
      RankLaws(AllContent(fetched.value), seen, top, x);
      if w in wl && TruthyId(w.tmdbId) {
        var k :| 0 <= k < |wl| && wl[k] == w;
        assert w.tmdbId.value in seen;
      }
      if h in hs && TruthyId(h.tmdbId) {
        var k :| 0 <= k < |hs| && hs[k] == h;
        assert h.tmdbId.value in seen;
      }
    }
  }

  /** The score of one candidate, by the callback's loop over its genre ids. */
  method ScoreItem(c: Candidate, top: seq<int>) returns (x: Scored)
    ensures x == ScoreOf(c, top)
  {
    var ids := c.item.genreIds;
    var score := 0;
    for k := 0 to |ids|
      invariant score == GenreBonus(ids[..k], top)
    {
      assert ids[..k + 1][..k] == ids[..k];
      if ids[k] in top {
        score := score + 10;
      }
    }
    assert ids[..|ids|] == ids;
    x := Scored(c, score + c.item.base);
  }

  /** topGenres from the profile's ratings: the genre weights, sorted, the first three. */
  method TopGenresOf(ratings: seq<Rating>) returns (top: seq<int>)
    ensures top == TopGenres(Contributions(ratings))
  {
    ghost var cs := Contributions(ratings);
    var order, weights := GenreWeights(ratings);
    var byWeight := (g: int) => if g in weights then weights[g] else 0;
    SortDescExt(order, byWeight, Weight(cs));
    top := Take(SortDesc(order, byWeight), 3);
  }

  /** The filter and map steps: score every unseen candidate. */
  method ScoreUnseen(all: seq<Candidate>, seen: set<int>, top: seq<int>) returns (scored: seq<Scored>)
    ensures scored == ScoreAll(Unseen(all, seen), top)
  {
    var unseen := Unseen(all, seen);
    scored := [];
    for i := 0 to |unseen|
      invariant scored == ScoreAll(unseen[..i], top)
    {
      var x := ScoreItem(unseen[i], top);
      assert unseen[..i + 1][..i] == unseen[..i];
      scored := scored + [x];
    }
    assert unseen[..|unseen|] == unseen;
  }

  /** generateRecommendations, reading the profile's rows from the store. */
  method GenerateRecommendations(store: Storage.Store, profileId: string, fetched: Result<Lists>)
    returns (r: seq<Scored>)
    ensures r == Recommend(store.State(), profileId, fetched)
  {
    var s := store.State();
    var seen := CollectSeen(GetWatchlist(s, Some(profileId)), GetWatchHistory(s, Some(profileId)));
    var top := TopGenresOf(GetRatings(s, Some(profileId)));
    if fetched.Failure? {
      return [];
    }
    var scored := ScoreUnseen(AllContent(fetched.value), seen, top);
    r := Take(SortDesc(scored, ScoreKey), 20);
  }
}
