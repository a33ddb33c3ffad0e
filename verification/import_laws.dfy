/**
 * What importProfileData does to the store (src/lib/storage.ts): each imported
 * row is saved under a fresh id and the new profile, the store stays valid, and
 * an export followed by an import restores the exported profile and rows.
 */
module ImportLaws {
  import opened Types
  import opened Collections
  import opened StorageState
  import StorageLaws
  import Base64
  import Codec

  /** The row ids importProfileData draws for n rows, starting with the first-th call. */
  function RowIds(rowId: nat -> string, first: nat, n: nat): (ids: seq<string>)
    ensures |ids| == n
    ensures forall k {:trigger ids[k]} :: 0 <= k < n ==> ids[k] == rowId(first + k)
  {
    if n == 0 then [] else RowIds(rowId, first, n - 1) + [rowId(first + (n - 1))]
  }

  /** The row ids importProfileData draws for n ratings: after one per history row and one per watchlist row. */
  function RatingRowIds(rowId: nat -> string, h: seq<WatchHistory>, w: seq<WatchlistItem>, n: nat): (ids: seq<string>)
    ensures |ids| == n
  {
    RowIds(rowId, |h| + |w|, n)
  }

  /** Ids that are pairwise distinct and none of them already used. */
  predicate FreshIds(ids: seq<string>, used: set<string>)
  {
    && (forall i :: 0 <= i < |ids| ==> ids[i] !in used)
    && (forall i, j :: 0 <= i < j < |ids| ==> ids[i] != ids[j])
  }

  /** The imported history rows: each row with its fresh id and the new profile id. */
  function RekeyedHistory(rows: seq<WatchHistory>, ids: seq<string>, profileId: string): (r: seq<WatchHistory>)
    requires |ids| == |rows|
    ensures |r| == |rows|
    ensures forall k :: 0 <= k < |rows| ==> r[k] == RekeyHistory(rows[k], ids[k], profileId)
  {
    if |rows| == 0 then []
    else
      var k := |rows| - 1;
      RekeyedHistory(rows[..k], ids[..k], profileId) + [RekeyHistory(rows[k], ids[k], profileId)]
  }

  /**
   * With fresh row ids, importing history rows appends them, in order, each under
   * its new id and the new profile, keeps the store valid and changes nothing else.
   */
  lemma ImportHistoryLaws(s: StoreState, rows: seq<WatchHistory>, profileId: string, rowId: nat -> string, first: nat)
    requires Valid(s)
    requires FreshIds(RowIds(rowId, first, |rows|), Keys(s.history, HistoryKey))
    ensures var r := ImportHistory(s, rows, profileId, rowId, first);
      && Valid(r)
      && r.history == s.history + RekeyedHistory(rows, RowIds(rowId, first, |rows|), profileId)
      && r.(history := s.history) == s
  {
    ImportHistoryRowsUnique(s.history, rows, profileId, rowId, first);
    ImportHistoryRowsAppend(s.history, rows, profileId, rowId, first);
  }

  lemma {:induction false} ImportHistoryRowsAppend(history: seq<WatchHistory>, rows: seq<WatchHistory>,
                                                   profileId: string, rowId: nat -> string, first: nat)
    requires FreshIds(RowIds(rowId, first, |rows|), Keys(history, HistoryKey))
    ensures ImportHistoryRows(history, rows, profileId, rowId, first)
      == history + RekeyedHistory(rows, RowIds(rowId, first, |rows|), profileId)
  {
    if |rows| > 0 {
      assert FreshIds(RowIds(rowId, first, |rows| - 1), Keys(history, HistoryKey)) by {
        RowIdsPrefix(rowId, first, |rows|, |rows| - 1);
        FreshIdsPrefix(RowIds(rowId, first, |rows|), Keys(history, HistoryKey), |rows| - 1);
      }
      ImportHistoryRowsAppend(history, rows[..|rows| - 1], profileId, rowId, first);
      ImportHistoryRowsLast(history, rows, profileId, rowId, first);
      HistoryIdsStep(history, rows, profileId, rowId, first,
                     ImportHistoryRows(history, rows[..|rows| - 1], profileId, rowId, first));
    }
  }

  /** The inductive step of ImportHistoryRowsAppend: the next row is appended under its fresh id. */
  lemma HistoryIdsStep(history: seq<WatchHistory>, rows: seq<WatchHistory>, profileId: string,
                       rowId: nat -> string, first: nat, prev: seq<WatchHistory>)
    requires |rows| > 0
    requires FreshIds(RowIds(rowId, first, |rows|), Keys(history, HistoryKey))
    requires prev == history + RekeyedHistory(rows[..|rows| - 1], RowIds(rowId, first, |rows| - 1), profileId)
    ensures Upsert(prev, HistoryKey, RekeyHistory(rows[|rows| - 1], rowId(first + (|rows| - 1)), profileId))
      == history + RekeyedHistory(rows, RowIds(rowId, first, |rows|), profileId)
  {
    RowIdsPrefix(rowId, first, |rows|, |rows| - 1);
    RowIdsLast(rowId, first, |rows|);
    AppendStep(history, rows, RowIds(rowId, first, |rows|), profileId, prev,
               RekeyHistory(rows[|rows| - 1], rowId(first + (|rows| - 1)), profileId));
  }

  /** Saving the next row under its fresh id appends it to the rows imported before it. */
  lemma AppendStep(history: seq<WatchHistory>, rows: seq<WatchHistory>, ids: seq<string>, profileId: string,
                   prev: seq<WatchHistory>, x: WatchHistory)
    requires 0 < |rows| == |ids|
    requires FreshIds(ids, Keys(history, HistoryKey))
    requires prev == history + RekeyedHistory(rows[..|rows| - 1], ids[..|rows| - 1], profileId)
    requires x == RekeyHistory(rows[|rows| - 1], ids[|rows| - 1], profileId)
    ensures Upsert(prev, HistoryKey, x) == history + RekeyedHistory(rows, ids, profileId)
  {
    var before := RekeyedHistory(rows[..|rows| - 1], ids[..|rows| - 1], profileId);
    RekeyedIds(rows[..|rows| - 1], ids, profileId);
    AppendFresh(history, before, x);
    assert RekeyedHistory(rows, ids, profileId) == before + [x];
    assert history + before + [x] == history + (before + [x]);
  }

  lemma ImportHistoryRowsLast(history: seq<WatchHistory>, rows: seq<WatchHistory>, profileId: string,
                              rowId: nat -> string, first: nat)
    requires |rows| > 0
    ensures ImportHistoryRows(history, rows, profileId, rowId, first)
      == Upsert(ImportHistoryRows(history, rows[..|rows| - 1], profileId, rowId, first), HistoryKey,
                RekeyHistory(rows[|rows| - 1], rowId(first + (|rows| - 1)), profileId))
  {
  }

  lemma ImportWatchlistRowsLast(watchlist: seq<WatchlistItem>, rows: seq<WatchlistItem>, profileId: string,
                                rowId: nat -> string, first: nat)
    requires |rows| > 0
    ensures ImportWatchlistRows(watchlist, rows, profileId, rowId, first)
      == AddRow(ImportWatchlistRows(watchlist, rows[..|rows| - 1], profileId, rowId, first),
                RekeyWatchlist(rows[|rows| - 1], rowId(first + (|rows| - 1)), profileId))
  {
  }

  lemma ImportRatingRowsLast(ratings: seq<Rating>, rows: seq<Rating>, profileId: string,
                             rowId: nat -> string, first: nat)
    requires |rows| > 0
    ensures ImportRatingRows(ratings, rows, profileId, rowId, first)
      == Upsert(ImportRatingRows(ratings, rows[..|rows| - 1], profileId, rowId, first), RatingKey,
                RekeyRating(rows[|rows| - 1], rowId(first + (|rows| - 1)), profileId))
  {
  }

  /** Importing one more history row is one more saveWatchHistory. */
  lemma ImportHistoryNext(s: StoreState, rows: seq<WatchHistory>, profileId: string, rowId: nat -> string,
                          first: nat, i: nat)
    requires i < |rows|
    ensures ImportHistory(s, rows[..i + 1], profileId, rowId, first)
      == SaveWatchHistory(ImportHistory(s, rows[..i], profileId, rowId, first),
                          RekeyHistory(rows[i], rowId(first + i), profileId))
  {
    assert rows[..i + 1][..i] == rows[..i];
    ImportHistoryRowsLast(s.history, rows[..i + 1], profileId, rowId, first);
  }

  /** Importing one more watchlist row is one more addToWatchlist. */
  lemma ImportWatchlistNext(s: StoreState, rows: seq<WatchlistItem>, profileId: string, rowId: nat -> string,
                            first: nat, i: nat)
    requires i < |rows|
    ensures ImportWatchlist(s, rows[..i + 1], profileId, rowId, first)
      == AddToWatchlist(ImportWatchlist(s, rows[..i], profileId, rowId, first),
                        RekeyWatchlist(rows[i], rowId(first + i), profileId))
  {
    assert rows[..i + 1][..i] == rows[..i];
    ImportWatchlistRowsLast(s.watchlist, rows[..i + 1], profileId, rowId, first);
  }

  /** Importing one more rating is one more saveRating. */
  lemma ImportRatingsNext(s: StoreState, rows: seq<Rating>, profileId: string, rowId: nat -> string,
                          first: nat, i: nat)
    requires i < |rows|
    ensures ImportRatings(s, rows[..i + 1], profileId, rowId, first)
      == SaveRating(ImportRatings(s, rows[..i], profileId, rowId, first),
                    RekeyRating(rows[i], rowId(first + i), profileId))
  {
    assert rows[..i + 1][..i] == rows[..i];
    ImportRatingRowsLast(s.ratings, rows[..i + 1], profileId, rowId, first);
  }

  lemma RowIdsLast(rowId: nat -> string, first: nat, n: nat)
    requires n > 0
    ensures RowIds(rowId, first, n)[n - 1] == rowId(first + (n - 1))
  {
  }

  lemma RowIdsPrefix(rowId: nat -> string, first: nat, n: nat, k: nat)
    requires k <= n
    ensures RowIds(rowId, first, k) == RowIds(rowId, first, n)[..k]
  {
  }

  lemma FreshIdsPrefix(ids: seq<string>, used: set<string>, k: nat)
    requires FreshIds(ids, used) && k <= |ids|
    ensures FreshIds(ids[..k], used)
  {
  }

  /** With distinct ids, the id of the last row differs from the ids given to the rows before it. */
  lemma RekeyedIds(rows: seq<WatchHistory>, ids: seq<string>, profileId: string)
    requires |ids| == |rows| + 1 && forall i, j :: 0 <= i < j < |ids| ==> ids[i] != ids[j]
    ensures forall j :: 0 <= j < |rows| ==> RekeyedHistory(rows, ids[..|rows|], profileId)[j].id != ids[|rows|]
  {
  }

  /** Saving a history row whose id is not yet stored appends it. */
  lemma AppendFresh(stored: seq<WatchHistory>, before: seq<WatchHistory>, x: WatchHistory)
    requires x.id !in Keys(stored, HistoryKey)
    requires forall j :: 0 <= j < |before| ==> before[j].id != x.id
    ensures Upsert(stored + before, HistoryKey, x) == stored + before + [x]
  {
    var t := stored + before;
    forall j | 0 <= j < |t| ensures HistoryKey(t[j]) != HistoryKey(x) {
      if j < |stored| {
        assert HistoryKey(stored[j]) in Keys(stored, HistoryKey);
      } else {
        assert t[j] == before[j - |stored|];
      }
    }
    UpsertAbsent(t, HistoryKey, x);
  }

  /**
   * Importing watchlist rows keeps the store valid and changes nothing but the
   * watchlist; afterwards every title listed before is still listed and every
   * imported title is listed under the new profile.
   */
  lemma ImportWatchlistLaws(s: StoreState, rows: seq<WatchlistItem>, profileId: string, rowId: nat -> string, first: nat)
    requires Valid(s)
    ensures var r := ImportWatchlist(s, rows, profileId, rowId, first);
      && Valid(r)
      && (forall key :: Present(s.watchlist, WatchKey, key) ==> Present(r.watchlist, WatchKey, key))
      && (forall j :: 0 <= j < |rows| ==> Present(r.watchlist, WatchKey, (profileId, rows[j].tmdbId)))
      && r.(watchlist := s.watchlist) == s
  {
    ImportWatchlistRowsLaws(s.watchlist, rows, profileId, rowId, first);
    forall key | Present(s.watchlist, WatchKey, key)
      ensures Present(ImportWatchlistRows(s.watchlist, rows, profileId, rowId, first), WatchKey, key)
    {
      ImportWatchlistKeeps(s.watchlist, rows, profileId, rowId, first, key);
    }
  }

  lemma {:induction false} ImportWatchlistRowsLaws(watchlist: seq<WatchlistItem>, rows: seq<WatchlistItem>,
                                                   profileId: string, rowId: nat -> string, first: nat)
    requires UniqueBy(watchlist, WatchKey)
    ensures var r := ImportWatchlistRows(watchlist, rows, profileId, rowId, first);
      && UniqueBy(r, WatchKey)
      && (forall j :: 0 <= j < |rows| ==> Present(r, WatchKey, (profileId, rows[j].tmdbId)))
  {
    if |rows| > 0 {
      ImportWatchlistRowsLaws(watchlist, rows[..|rows| - 1], profileId, rowId, first);
      ImportWatchlistStep(watchlist, rows, profileId, rowId, first);
      ImportWatchlistListed(watchlist, rows, profileId, rowId, first);
    }
  }

  /** One step of the import loop for watchlist rows: pairs stay unique. */
  lemma ImportWatchlistStep(watchlist: seq<WatchlistItem>, rows: seq<WatchlistItem>,
                            profileId: string, rowId: nat -> string, first: nat)
    requires |rows| > 0
    requires UniqueBy(ImportWatchlistRows(watchlist, rows[..|rows| - 1], profileId, rowId, first), WatchKey)
    ensures UniqueBy(ImportWatchlistRows(watchlist, rows, profileId, rowId, first), WatchKey)
  {
    var r0 := ImportWatchlistRows(watchlist, rows[..|rows| - 1], profileId, rowId, first);
    ImportWatchlistRowsLast(watchlist, rows, profileId, rowId, first);
    AddRowUnique(r0, RekeyWatchlist(rows[|rows| - 1], rowId(first + (|rows| - 1)), profileId));
  }

  /** One step of the import loop for watchlist rows: every imported title is listed. */
  lemma ImportWatchlistListed(watchlist: seq<WatchlistItem>, rows: seq<WatchlistItem>,
                              profileId: string, rowId: nat -> string, first: nat)
    requires |rows| > 0
    requires var r0 := ImportWatchlistRows(watchlist, rows[..|rows| - 1], profileId, rowId, first);
      forall j :: 0 <= j < |rows| - 1 ==> Present(r0, WatchKey, (profileId, rows[j].tmdbId))
    ensures var r := ImportWatchlistRows(watchlist, rows, profileId, rowId, first);
      forall j :: 0 <= j < |rows| ==> Present(r, WatchKey, (profileId, rows[j].tmdbId))
  {
    var r0 := ImportWatchlistRows(watchlist, rows[..|rows| - 1], profileId, rowId, first);
    ImportWatchlistRowsLast(watchlist, rows, profileId, rowId, first);
    AddRowKeeps(r0, RekeyWatchlist(rows[|rows| - 1], rowId(first + (|rows| - 1)), profileId));
  }

  /** A (profile, title) pair listed before an import is still listed after it. */
  lemma {:induction false} ImportWatchlistKeeps(watchlist: seq<WatchlistItem>, rows: seq<WatchlistItem>,
                                                profileId: string, rowId: nat -> string, first: nat,
                                                key: (string, Option<int>))
    requires Present(watchlist, WatchKey, key)
    ensures Present(ImportWatchlistRows(watchlist, rows, profileId, rowId, first), WatchKey, key)
  {
    if |rows| > 0 {
      var r0 := ImportWatchlistRows(watchlist, rows[..|rows| - 1], profileId, rowId, first);
      ImportWatchlistRowsLast(watchlist, rows, profileId, rowId, first);
      AddRowKeeps(r0, RekeyWatchlist(rows[|rows| - 1], rowId(first + (|rows| - 1)), profileId));
      ImportWatchlistKeeps(watchlist, rows[..|rows| - 1], profileId, rowId, first, key);
    }
  }

  /** addToWatchlist keeps every (profile, title) pair present and makes the item's pair present. */
  lemma AddRowKeeps(watchlist: seq<WatchlistItem>, x: WatchlistItem)
    ensures Present(AddRow(watchlist, x), WatchKey, WatchKey(x))
    ensures forall key :: Present(watchlist, WatchKey, key) ==> Present(AddRow(watchlist, x), WatchKey, key)
  {
    var same := (w: WatchlistItem) => WatchKey(w) == WatchKey(x);
    if Find(watchlist, same).Some? {
      var j :| 0 <= j < |watchlist| && same(watchlist[j]);
    } else {
      var r := watchlist + [x];
      assert r[|watchlist|] == x;
      forall key | Present(watchlist, WatchKey, key) ensures Present(r, WatchKey, key) {
        var i :| 0 <= i < |watchlist| && WatchKey(watchlist[i]) == key;
        assert r[i] == watchlist[i];
      }
    }
  }

  /** addToWatchlist keeps (profile, title) pairs unique. */
  lemma AddRowUnique(watchlist: seq<WatchlistItem>, x: WatchlistItem)
    requires UniqueBy(watchlist, WatchKey)
    ensures UniqueBy(AddRow(watchlist, x), WatchKey)
  {
    var same := (w: WatchlistItem) => WatchKey(w) == WatchKey(x);
    if Find(watchlist, same).None? {
      var l := watchlist + [x];
      forall i, j | 0 <= i < j < |l| ensures WatchKey(l[i]) != WatchKey(l[j]) {
        if j == |watchlist| {
          assert !same(watchlist[i]);
        }
      }
    }
  }

  /**
   * Importing ratings keeps the store valid and changes nothing but the ratings;
   * afterwards every title rated before is still rated, every imported title is
   * rated under the new profile, and the rating of the last imported row is the
   * one stored for its title.
   */
  lemma ImportRatingsLaws(s: StoreState, rows: seq<Rating>, profileId: string, rowId: nat -> string, first: nat)
    requires Valid(s) && profileId != ""
    ensures var r := ImportRatings(s, rows, profileId, rowId, first);
      && Valid(r)
      && (forall key :: Present(s.ratings, RatingKey, key) ==> Present(r.ratings, RatingKey, key))
      && (forall k :: 0 <= k < |rows| ==> GetRating(r, profileId, rows[k].tmdbId, rows[k].mediaType).Some?)
      && (|rows| > 0 ==> GetRating(r, profileId, rows[|rows| - 1].tmdbId, rows[|rows| - 1].mediaType)
                          == Some(RekeyRating(rows[|rows| - 1], rowId(first + (|rows| - 1)), profileId)))
      && r.(ratings := s.ratings) == s
  {
    var r := ImportRatings(s, rows, profileId, rowId, first);
    ImportRatingRowsLaws(s.ratings, rows, profileId, rowId, first);
    forall key | Present(s.ratings, RatingKey, key) ensures Present(r.ratings, RatingKey, key) {
      ImportRatingsKeep(s.ratings, rows, profileId, rowId, first, key);
    }
    forall k | 0 <= k < |rows| ensures GetRating(r, profileId, rows[k].tmdbId, rows[k].mediaType).Some? {
      GetRatingByKey(r, profileId, rows[k].tmdbId, rows[k].mediaType);
    }
    if |rows| > 0 {
      ImportLastRating(s, rows, profileId, rowId, first);
    }
  }

  lemma ImportLastRating(s: StoreState, rows: seq<Rating>, profileId: string, rowId: nat -> string, first: nat)
    requires Valid(s) && profileId != "" && |rows| > 0
    requires var r := ImportRatings(s, rows, profileId, rowId, first);
      && UniqueBy(r.ratings, RatingKey)
      && RekeyRating(rows[|rows| - 1], rowId(first + (|rows| - 1)), profileId) in r.ratings
    ensures GetRating(ImportRatings(s, rows, profileId, rowId, first), profileId, rows[|rows| - 1].tmdbId, rows[|rows| - 1].mediaType)
            == Some(RekeyRating(rows[|rows| - 1], rowId(first + (|rows| - 1)), profileId))
  {
    var r := ImportRatings(s, rows, profileId, rowId, first);
    var x := RekeyRating(rows[|rows| - 1], rowId(first + (|rows| - 1)), profileId);
    var i :| 0 <= i < |r.ratings| && r.ratings[i] == x;
    GetRatingByKey(r, profileId, rows[|rows| - 1].tmdbId, rows[|rows| - 1].mediaType);
    StorageLaws.UniqueMember(r.ratings, RatingKey, x, GetRating(r, profileId, rows[|rows| - 1].tmdbId, rows[|rows| - 1].mediaType).value);
  }

  lemma {:induction false} ImportRatingRowsLaws(ratings: seq<Rating>, rows: seq<Rating>, profileId: string,
                                                rowId: nat -> string, first: nat)
    requires UniqueBy(ratings, RatingKey)
    ensures var r := ImportRatingRows(ratings, rows, profileId, rowId, first);
      && UniqueBy(r, RatingKey)
      && (forall j :: 0 <= j < |rows| ==> Present(r, RatingKey, (profileId, rows[j].tmdbId, rows[j].mediaType)))
      && (|rows| > 0 ==> RekeyRating(rows[|rows| - 1], rowId(first + (|rows| - 1)), profileId) in r)
  {
    if |rows| > 0 {
      ImportRatingRowsLaws(ratings, rows[..|rows| - 1], profileId, rowId, first);
      ImportRatingStep(ratings, rows, profileId, rowId, first);
      ImportRatingRated(ratings, rows, profileId, rowId, first);
    }
  }

  /** One step of the import loop for ratings: keys stay unique and the new row is stored. */
  lemma ImportRatingStep(ratings: seq<Rating>, rows: seq<Rating>, profileId: string,
                         rowId: nat -> string, first: nat)
    requires |rows| > 0
    requires UniqueBy(ImportRatingRows(ratings, rows[..|rows| - 1], profileId, rowId, first), RatingKey)
    ensures var r := ImportRatingRows(ratings, rows, profileId, rowId, first);
      && UniqueBy(r, RatingKey)
      && RekeyRating(rows[|rows| - 1], rowId(first + (|rows| - 1)), profileId) in r
  {
    var r0 := ImportRatingRows(ratings, rows[..|rows| - 1], profileId, rowId, first);
    ImportRatingRowsLast(ratings, rows, profileId, rowId, first);
    UpsertUnique(r0, RatingKey, RekeyRating(rows[|rows| - 1], rowId(first + (|rows| - 1)), profileId));
  }

  /** One step of the import loop for ratings: every imported title is rated. */
  lemma ImportRatingRated(ratings: seq<Rating>, rows: seq<Rating>, profileId: string,
                          rowId: nat -> string, first: nat)
    requires |rows| > 0
    requires var r0 := ImportRatingRows(ratings, rows[..|rows| - 1], profileId, rowId, first);
      forall j :: 0 <= j < |rows| - 1 ==> Present(r0, RatingKey, (profileId, rows[j].tmdbId, rows[j].mediaType))
    ensures var r := ImportRatingRows(ratings, rows, profileId, rowId, first);
      forall j :: 0 <= j < |rows| ==> Present(r, RatingKey, (profileId, rows[j].tmdbId, rows[j].mediaType))
  {
    var r0 := ImportRatingRows(ratings, rows[..|rows| - 1], profileId, rowId, first);
    var x := RekeyRating(rows[|rows| - 1], rowId(first + (|rows| - 1)), profileId);
    ImportRatingRowsLast(ratings, rows, profileId, rowId, first);
    UpsertPresent(r0, RatingKey, x);
    forall j | 0 <= j < |rows| - 1 ensures Present(Upsert(r0, RatingKey, x), RatingKey, (profileId, rows[j].tmdbId, rows[j].mediaType)) {
      assert rows[..|rows| - 1][j] == rows[j];
      UpsertKeeps(r0, RatingKey, x, (profileId, rows[j].tmdbId, rows[j].mediaType));
    }
  }

  /** A (profile, title, media type) rated before an import is still rated after it. */
  lemma {:induction false} ImportRatingsKeep(ratings: seq<Rating>, rows: seq<Rating>, profileId: string,
                                             rowId: nat -> string, first: nat, key: (string, int, MediaType))
    requires Present(ratings, RatingKey, key)
    ensures Present(ImportRatingRows(ratings, rows, profileId, rowId, first), RatingKey, key)
  {
    if |rows| > 0 {
      var r0 := ImportRatingRows(ratings, rows[..|rows| - 1], profileId, rowId, first);
      ImportRatingRowsLast(ratings, rows, profileId, rowId, first);
      ImportRatingsKeep(ratings, rows[..|rows| - 1], profileId, rowId, first, key);
      UpsertKeeps(r0, RatingKey, RekeyRating(rows[|rows| - 1], rowId(first + (|rows| - 1)), profileId), key);
    }
  }

  /**
   * getRating finds a rating exactly when one with that (profile, title, media type)
   * is stored, and then it is that one.
   */
  lemma GetRatingByKey(s: StoreState, profileId: string, tmdbId: int, mediaType: MediaType)
    requires profileId != ""
    ensures GetRating(s, profileId, tmdbId, mediaType).Some? <==> Present(s.ratings, RatingKey, (profileId, tmdbId, mediaType))
    ensures GetRating(s, profileId, tmdbId, mediaType).Some? ==>
      var g := GetRating(s, profileId, tmdbId, mediaType).value;
      g in s.ratings && RatingKey(g) == (profileId, tmdbId, mediaType)
  {
    var mine := GetRatings(s, Some(profileId));
    if Present(s.ratings, RatingKey, (profileId, tmdbId, mediaType)) {
      var i :| 0 <= i < |s.ratings| && RatingKey(s.ratings[i]) == (profileId, tmdbId, mediaType);
      assert s.ratings[i] in mine;
    }
    if GetRating(s, profileId, tmdbId, mediaType).Some? {
      var g := GetRating(s, profileId, tmdbId, mediaType).value;
      assert g in mine;
      var i :| 0 <= i < |s.ratings| && s.ratings[i] == g;
    }
  }

  /** Saving history rows one by one keeps row ids unique, whatever ids the rows get. */
  lemma {:induction false} ImportHistoryRowsUnique(history: seq<WatchHistory>, rows: seq<WatchHistory>,
                                                   profileId: string, rowId: nat -> string, first: nat)
    requires UniqueBy(history, HistoryKey)
    ensures UniqueBy(ImportHistoryRows(history, rows, profileId, rowId, first), HistoryKey)
  {
    if |rows| > 0 {
      ImportHistoryRowsLast(history, rows, profileId, rowId, first);
      ImportHistoryRowsUnique(history, rows[..|rows| - 1], profileId, rowId, first);
      UpsertUnique(ImportHistoryRows(history, rows[..|rows| - 1], profileId, rowId, first), HistoryKey,
                   RekeyHistory(rows[|rows| - 1], rowId(first + (|rows| - 1)), profileId));
    }
  }

  // ---------------------------------------------------------------------------
  // importProfileData as a whole
  // ---------------------------------------------------------------------------

  /**
   * importProfileData reports failure exactly when the text does not decrypt or the
   * parsed envelope lacks a profile or a version, and a failed import writes nothing.
   */
  lemma ImportFailureLaws(s: StoreState, encrypted: seq<Base64.Unit>, parse: seq<Base64.Unit> -> Option<ImportEnvelope>,
                          newProfileId: string, rowId: nat -> string)
    ensures var res := ImportProfileData(s, encrypted, parse, newProfileId, rowId);
      && (!res.1 <==> Codec.Decrypt(encrypted).Failure? || !Acceptable(parse(Codec.Decrypt(encrypted).value)))
      && (!res.1 ==> res.0 == s)
  {
  }

  /** A decrypted, parsed and accepted envelope is imported and reported as such. */
  lemma ImportSucceeds(s: StoreState, encrypted: seq<Base64.Unit>, parse: seq<Base64.Unit> -> Option<ImportEnvelope>,
                       newProfileId: string, rowId: nat -> string, json: seq<Base64.Unit>, env: ImportEnvelope)
    requires Codec.Decrypt(encrypted) == Success(json) && parse(json) == Some(env)
    requires env.profile.Some? && Truthy(env.version)
    ensures ImportProfileData(s, encrypted, parse, newProfileId, rowId) == (ImportEnvelopeInto(s, env, newProfileId, rowId), true)
  {
  }

  /**
   * The writes of a successful import save the imported profile under the new id,
   * with fresh row ids append the imported history rows in order, and leave the
   * settings, search history, pins, avatars and attempt counts alone.
   */
  lemma ImportEnvelopeLaws(s: StoreState, env: ImportEnvelope, newProfileId: string, rowId: nat -> string)
    requires Valid(s) && env.profile.Some?
    ensures var r := ImportEnvelopeInto(s, env, newProfileId, rowId);
      var h := OrEmpty(env.watchHistory);
      && FindProfile(r, newProfileId) == Some(env.profile.value.(id := newProfileId))
      && (FreshIds(RowIds(rowId, 0, |h|), Keys(s.history, HistoryKey)) ==>
            r.history == s.history + RekeyedHistory(h, RowIds(rowId, 0, |h|), newProfileId))
      && r.searchHistory == s.searchHistory && r.pinnedChannels == s.pinnedChannels
      && r.customAvatars == s.customAvatars && r.failedAttempts == s.failedAttempts
      && r.theme == s.theme && r.accessLocked == s.accessLocked
  {
    var h := OrEmpty(env.watchHistory);
    SaveProfileFinds(s, env.profile.value.(id := newProfileId));
    if FreshIds(RowIds(rowId, 0, |h|), Keys(s.history, HistoryKey)) {
      ImportHistoryRowsAppend(s.history, h, newProfileId, rowId, 0);
    }
  }

  lemma SaveProfileFinds(s: StoreState, p: Profile)
    requires Valid(s)
    ensures FindProfile(SaveProfile(s, p), p.id) == Some(p)
  {
    UpsertFinds(s.profiles, ProfileKey, p);
    IndexWhereExt(Upsert(s.profiles, ProfileKey, p), (q: Profile) => ProfileKey(q) == ProfileKey(p), (q: Profile) => q.id == p.id);
  }

  /** The writes of a successful import keep the store valid. */
  lemma ImportEnvelopeValid(s: StoreState, env: ImportEnvelope, newProfileId: string, rowId: nat -> string)
    requires Valid(s) && env.profile.Some?
    ensures Valid(ImportEnvelopeInto(s, env, newProfileId, rowId))
  {
    var h := OrEmpty(env.watchHistory);
    var w := OrEmpty(env.watchlist);
    var s1 := SaveProfile(s, env.profile.value.(id := newProfileId));
    SaveProfileValid(s, env.profile.value.(id := newProfileId));
    var s2 := ImportHistory(s1, h, newProfileId, rowId, 0);
    ImportHistoryValid(s1, h, newProfileId, rowId, 0);
    var s3 := ImportWatchlist(s2, w, newProfileId, rowId, |h|);
    ImportWatchlistValid(s2, w, newProfileId, rowId, |h|);
    ImportRatingsValid(s3, OrEmpty(env.ratings), newProfileId, rowId, |h| + |w|);
  }

  lemma SaveProfileValid(s: StoreState, p: Profile)
    requires Valid(s)
    ensures Valid(SaveProfile(s, p))
  {
    UpsertUnique(s.profiles, ProfileKey, p);
  }

  lemma ImportHistoryValid(s: StoreState, rows: seq<WatchHistory>, profileId: string, rowId: nat -> string, first: nat)
    requires Valid(s)
    ensures Valid(ImportHistory(s, rows, profileId, rowId, first))
  {
    ImportHistoryRowsUnique(s.history, rows, profileId, rowId, first);
  }

  lemma ImportWatchlistValid(s: StoreState, rows: seq<WatchlistItem>, profileId: string, rowId: nat -> string, first: nat)
    requires Valid(s)
    ensures Valid(ImportWatchlist(s, rows, profileId, rowId, first))
  {
    ImportWatchlistRowsLaws(s.watchlist, rows, profileId, rowId, first);
  }

  lemma ImportRatingsValid(s: StoreState, rows: seq<Rating>, profileId: string, rowId: nat -> string, first: nat)
    requires Valid(s)
    ensures Valid(ImportRatings(s, rows, profileId, rowId, first))
  {
    ImportRatingRowsLaws(s.ratings, rows, profileId, rowId, first);
  }

  /** After the writes of a successful import every imported watchlist title is listed under the new id. */
  lemma ImportEnvelopeWatchlist(s: StoreState, env: ImportEnvelope, newProfileId: string, rowId: nat -> string)
    requires Valid(s) && env.profile.Some?
    ensures var r := ImportEnvelopeInto(s, env, newProfileId, rowId);
      var w := OrEmpty(env.watchlist);
      forall j :: 0 <= j < |w| ==> Present(r.watchlist, WatchKey, (newProfileId, w[j].tmdbId))
  {
    ImportWatchlistRowsLaws(s.watchlist, OrEmpty(env.watchlist), newProfileId, rowId, |OrEmpty(env.watchHistory)|);
  }

  /** After the writes of a successful import every imported title is rated under the new id. */
  lemma ImportEnvelopeRatings(s: StoreState, env: ImportEnvelope, newProfileId: string, rowId: nat -> string)
    requires Valid(s) && env.profile.Some?
    ensures var r := ImportEnvelopeInto(s, env, newProfileId, rowId);
      var g := OrEmpty(env.ratings);
      forall j :: 0 <= j < |g| ==> Present(r.ratings, RatingKey, (newProfileId, g[j].tmdbId, g[j].mediaType))
  {
    ImportRatingRowsPresent(s.ratings, OrEmpty(env.ratings), newProfileId, rowId,
                            |OrEmpty(env.watchHistory)| + |OrEmpty(env.watchlist)|);
  }

  lemma ImportRatingRowsPresent(ratings: seq<Rating>, rows: seq<Rating>, profileId: string,
                                rowId: nat -> string, first: nat)
    requires UniqueBy(ratings, RatingKey)
    ensures var r := ImportRatingRows(ratings, rows, profileId, rowId, first);
      forall j :: 0 <= j < |rows| ==> Present(r, RatingKey, (profileId, rows[j].tmdbId, rows[j].mediaType))
  {
    ImportRatingRowsLaws(ratings, rows, profileId, rowId, first);
  }

  /**
   * A row whose (tmdb id, media type) no later row repeats survives the rest of
   * the import loop: it is stored re-keyed under its row id and the new profile.
   */
  lemma {:induction false} ImportRatingRowsStored(ratings: seq<Rating>, rows: seq<Rating>, profileId: string,
                                                  rowId: nat -> string, first: nat, j: nat)
    requires UniqueBy(ratings, RatingKey)
    requires j < |rows|
    requires forall k :: j < k < |rows| ==> (rows[k].tmdbId, rows[k].mediaType) != (rows[j].tmdbId, rows[j].mediaType)
    ensures RekeyRating(rows[j], rowId(first + j), profileId) in ImportRatingRows(ratings, rows, profileId, rowId, first)
  {
    var k := |rows| - 1;
    if j == k {
      ImportRatingRowsLaws(ratings, rows, profileId, rowId, first);
    } else {
      var init := rows[..k];
      assert init[j] == rows[j];
      forall k' | j < k' < |init|
        ensures (init[k'].tmdbId, init[k'].mediaType) != (init[j].tmdbId, init[j].mediaType)
      {
        assert init[k'] == rows[k'];
      }
      ImportRatingRowsStored(ratings, init, profileId, rowId, first, j);
      ImportRatingRowsLaws(ratings, init, profileId, rowId, first);
      ImportRatingRowsLast(ratings, rows, profileId, rowId, first);
      UpsertKeepsOther(ImportRatingRows(ratings, init, profileId, rowId, first), RatingKey,
                       RekeyRating(rows[k], rowId(first + k), profileId), RekeyRating(rows[j], rowId(first + j), profileId));
    }
  }

  /** An upsert under another key keeps an element. */
  lemma UpsertKeepsOther<T(!new), K>(s: seq<T>, key: T -> K, y: T, x: T)
    requires UniqueBy(s, key) && x in s && key(x) != key(y)
    ensures x in Upsert(s, key, y)
  {
    var other := (z: T) => key(z) != key(y);
    UpsertLaws(s, key, y, (z: T) => key(z) == key(y), other);
    assert x in Filter(s, other);
  }

  /** The ratings after an import are those of the store, then the rating loop. */
  lemma ImportEnvelopeRatingRows(s: StoreState, env: ImportEnvelope, newProfileId: string, rowId: nat -> string, first: nat)
    requires env.profile.Some? && first == |OrEmpty(env.watchHistory)| + |OrEmpty(env.watchlist)|
    ensures ImportEnvelopeInto(s, env, newProfileId, rowId).ratings
      == ImportRatingRows(s.ratings, OrEmpty(env.ratings), newProfileId, rowId, first)
  {
  }

  /** getRating reads back a row of an import loop whose (tmdb id, media type) pairs are distinct. */
  lemma ImportRatingRowRead(r: StoreState, ratings: seq<Rating>, g: seq<Rating>, profileId: string,
                            rowId: nat -> string, first: nat, j: nat)
    requires UniqueBy(ratings, RatingKey) && profileId != ""
    requires r.ratings == ImportRatingRows(ratings, g, profileId, rowId, first)
    requires forall i, k :: 0 <= i < k < |g| ==> (g[i].tmdbId, g[i].mediaType) != (g[k].tmdbId, g[k].mediaType)
    requires j < |g|
    ensures GetRating(r, profileId, g[j].tmdbId, g[j].mediaType) == Some(RekeyRating(g[j], rowId(first + j), profileId))
  {
    ImportRatingRowsLaws(ratings, g, profileId, rowId, first);
    ImportRatingRowsStored(ratings, g, profileId, rowId, first, j);
    ImportRatingsStoredGot(r, RekeyRating(g[j], rowId(first + j), profileId));
  }

  /** The ratings of one profile have distinct (tmdb id, media type) pairs. */
  lemma ProfileRatingsDistinct(s: StoreState, profileId: string)
    requires Valid(s) && profileId != ""
    ensures var g := GetRatings(s, Some(profileId));
      forall i, k :: 0 <= i < k < |g| ==> (g[i].tmdbId, g[i].mediaType) != (g[k].tmdbId, g[k].mediaType)
  {
    var g := GetRatings(s, Some(profileId));
    FilterUnique(s.ratings, (r: Rating) => r.profileId == profileId, RatingKey);
    forall i, k | 0 <= i < k < |g| ensures (g[i].tmdbId, g[i].mediaType) != (g[k].tmdbId, g[k].mediaType) {
      assert g[i] in g && g[k] in g;
      assert RatingKey(g[i]) != RatingKey(g[k]);
    }
  }

  /**
   * Exporting a profile and importing the result (when the serialiser and the parser
   * agree on the envelope) succeeds and recreates the profile under the new id with
   * every exported watchlist title, every exported rating re-keyed with its stars
   * and genres, and, with fresh row ids, every exported history row appended.
   */
  lemma ExportThenImport(s: StoreState, profileId: string, exportedAt: string,
                         serialize: ExportEnvelope -> seq<Base64.Unit>, parse: seq<Base64.Unit> -> Option<ImportEnvelope>,
                         newProfileId: string, rowId: nat -> string)
    requires Valid(s) && newProfileId != "" && FindProfile(s, profileId).Some?
    requires ExportProfileData(s, profileId, exportedAt, serialize).Success?
    requires var e := ExportEnvelopeOf(s, profileId, exportedAt);
      parse(serialize(e)) == Some(ImportEnvelope(e.profile, Some(e.version), Some(e.watchHistory), Some(e.watchlist), Some(e.ratings)))
    ensures var res := ImportProfileData(s, ExportProfileData(s, profileId, exportedAt, serialize).value, parse, newProfileId, rowId);
      var h := GetWatchHistory(s, Some(profileId));
      var w := GetWatchlist(s, Some(profileId));
      var g := GetRatings(s, Some(profileId));
      && res.1
      && Valid(res.0)
      && FindProfile(res.0, newProfileId) == Some(FindProfile(s, profileId).value.(id := newProfileId))
      && (forall j :: 0 <= j < |w| ==> Present(res.0.watchlist, WatchKey, (newProfileId, w[j].tmdbId)))
      && (forall j :: 0 <= j < |g| ==> GetRating(res.0, newProfileId, g[j].tmdbId, g[j].mediaType).Some?)
      && (profileId != "" ==>
            forall j :: 0 <= j < |g| ==> IsRekeyed(GetRating(res.0, newProfileId, g[j].tmdbId, g[j].mediaType), g[j], newProfileId))
      && (FreshIds(RowIds(rowId, 0, |h|), Keys(s.history, HistoryKey)) ==>
            res.0.history == s.history + RekeyedHistory(h, RowIds(rowId, 0, |h|), newProfileId))
  {
    var e := ExportEnvelopeOf(s, profileId, exportedAt);
    var json := serialize(e);
    Codec.DecryptEncrypt(json);
    var env := ImportEnvelope(e.profile, Some(e.version), Some(e.watchHistory), Some(e.watchlist), Some(e.ratings));
    ImportSucceeds(s, ExportProfileData(s, profileId, exportedAt, serialize).value, parse, newProfileId, rowId, json, env);
    ImportEnvelopeValid(s, env, newProfileId, rowId);
    ImportEnvelopeLaws(s, env, newProfileId, rowId);
    ImportEnvelopeWatchlist(s, env, newProfileId, rowId);
    var r := ImportEnvelopeInto(s, env, newProfileId, rowId);
    var g := GetRatings(s, Some(profileId));
    ImportEnvelopeRatings(s, env, newProfileId, rowId);
    forall j | 0 <= j < |g| ensures GetRating(r, newProfileId, g[j].tmdbId, g[j].mediaType).Some? {
      GetRatingByKey(r, newProfileId, g[j].tmdbId, g[j].mediaType);
    }
    if profileId != "" {
      var first := |OrEmpty(env.watchHistory)| + |OrEmpty(env.watchlist)|;
      ImportEnvelopeRatingRows(s, env, newProfileId, rowId, first);
      ExportedRatingsRead(s, profileId, r, newProfileId, rowId, OrEmpty(env.ratings), first);
    }
  }

  /** x holds the rating g, stored under some row id and the given profile. */
  predicate IsRekeyed(x: Option<Rating>, g: Rating, profileId: string)
  {
    x.Some? && x.value == RekeyRating(g, x.value.id, profileId)
  }

  /** getRating reads back every rating of one profile after the rating loop has imported them. */
  lemma ExportedRatingsRead(s: StoreState, profileId: string, r: StoreState, newProfileId: string, rowId: nat -> string,
                            g: seq<Rating>, first: nat)
    requires Valid(s) && profileId != "" && newProfileId != ""
    requires g == GetRatings(s, Some(profileId))
    requires r.ratings == ImportRatingRows(s.ratings, g, newProfileId, rowId, first)
    ensures forall j :: 0 <= j < |GetRatings(s, Some(profileId))| ==>
      IsRekeyed(GetRating(r, newProfileId, GetRatings(s, Some(profileId))[j].tmdbId, GetRatings(s, Some(profileId))[j].mediaType),
                GetRatings(s, Some(profileId))[j], newProfileId)
  {
    ProfileRatingsDistinct(s, profileId);
    forall j | 0 <= j < |g|
      ensures IsRekeyed(GetRating(r, newProfileId, g[j].tmdbId, g[j].mediaType), g[j], newProfileId)
    {
      ImportRatingRowRead(r, s.ratings, g, newProfileId, rowId, first, j);
    }
  }

  /** A stored rating is what getRating returns for its key. */
  lemma ImportRatingsStoredGot(r: StoreState, x: Rating)
    requires UniqueBy(r.ratings, RatingKey) && x in r.ratings && x.profileId != ""
    ensures GetRating(r, x.profileId, x.tmdbId, x.mediaType) == Some(x)
  {
    GetRatingByKey(r, x.profileId, x.tmdbId, x.mediaType);
    assert Present(r.ratings, RatingKey, RatingKey(x)) by {
      var i :| 0 <= i < |r.ratings| && r.ratings[i] == x;
    }
    StorageLaws.UniqueMember(r.ratings, RatingKey, GetRating(r, x.profileId, x.tmdbId, x.mediaType).value, x);
  }

  // ---------------------------------------------------------------------------
  // Export, then import under an unused profile id
  // ---------------------------------------------------------------------------

  /** The imported watchlist rows: each row with its fresh id and the new profile id. */
  function RekeyedWatchlist(rows: seq<WatchlistItem>, ids: seq<string>, profileId: string): (r: seq<WatchlistItem>)
    requires |ids| == |rows|
    ensures |r| == |rows|
    ensures forall k :: 0 <= k < |rows| ==> r[k] == RekeyWatchlist(rows[k], ids[k], profileId)
  {
    if |rows| == 0 then []
    else
      var k := |rows| - 1;
      RekeyedWatchlist(rows[..k], ids[..k], profileId) + [RekeyWatchlist(rows[k], ids[k], profileId)]
  }

  /** The imported ratings: each row with its fresh id and the new profile id. */
  function RekeyedRatings(rows: seq<Rating>, ids: seq<string>, profileId: string): (r: seq<Rating>)
    requires |ids| == |rows|
    ensures |r| == |rows|
    ensures forall k :: 0 <= k < |rows| ==> r[k] == RekeyRating(rows[k], ids[k], profileId)
  {
    if |rows| == 0 then []
    else
      var k := |rows| - 1;
      RekeyedRatings(rows[..k], ids[..k], profileId) + [RekeyRating(rows[k], ids[k], profileId)]
  }

  /** No stored profile has the id and no stored row belongs to it. */
  predicate Unclaimed(s: StoreState, id: string)
  {
    && (forall i :: 0 <= i < |s.profiles| ==> s.profiles[i].id != id)
    && (forall i :: 0 <= i < |s.history| ==> s.history[i].profileId != id)
    && (forall i :: 0 <= i < |s.watchlist| ==> s.watchlist[i].profileId != id)
    && (forall i :: 0 <= i < |s.ratings| ==> s.ratings[i].profileId != id)
  }

  /** addToWatchlist of an item whose (profile, title) pair is not listed appends it. */
  lemma AddRowAbsent(watchlist: seq<WatchlistItem>, x: WatchlistItem)
    requires forall j :: 0 <= j < |watchlist| ==> WatchKey(watchlist[j]) != WatchKey(x)
    ensures AddRow(watchlist, x) == watchlist + [x]
  {
    var same := (w: WatchlistItem) => WatchKey(w) == WatchKey(x);
    assert Find(watchlist, same).None?;
  }

  /** No two rows list the same title. */
  predicate DistinctTitles(rows: seq<WatchlistItem>)
  {
    forall i, k :: 0 <= i < k < |rows| ==> rows[i].tmdbId != rows[k].tmdbId
  }

  /** No two rows rate the same (title, media type) pair. */
  predicate DistinctRated(rows: seq<Rating>)
  {
    forall i, k :: 0 <= i < k < |rows| ==> (rows[i].tmdbId, rows[i].mediaType) != (rows[k].tmdbId, rows[k].mediaType)
  }

  /**
   * Importing watchlist rows with distinct titles under a profile that no listed row
   * belongs to appends them, in order, each under its row id and the profile.
   */
  lemma {:induction false} ImportWatchlistRowsAppend(watchlist: seq<WatchlistItem>, rows: seq<WatchlistItem>,
                                                     profileId: string, rowId: nat -> string, first: nat)
    requires forall i :: 0 <= i < |watchlist| ==> watchlist[i].profileId != profileId
    requires DistinctTitles(rows)
    ensures ImportWatchlistRows(watchlist, rows, profileId, rowId, first)
      == watchlist + RekeyedWatchlist(rows, RowIds(rowId, first, |rows|), profileId)
  {
    if |rows| > 0 {
      var k := |rows| - 1;
      assert DistinctTitles(rows[..k]);
      ImportWatchlistRowsAppend(watchlist, rows[..k], profileId, rowId, first);
      ImportWatchlistRowsLast(watchlist, rows, profileId, rowId, first);
      RowIdsPrefix(rowId, first, |rows|, k);
      RowIdsLast(rowId, first, |rows|);
      WatchlistAppendStep(watchlist, rows, RowIds(rowId, first, |rows|), profileId,
                          ImportWatchlistRows(watchlist, rows[..k], profileId, rowId, first),
                          RekeyWatchlist(rows[k], rowId(first + k), profileId));
    }
  }

  /** The inductive step of ImportWatchlistRowsAppend: the next row's title is not listed yet. */
  lemma WatchlistAppendStep(watchlist: seq<WatchlistItem>, rows: seq<WatchlistItem>, ids: seq<string>,
                            profileId: string, prev: seq<WatchlistItem>, x: WatchlistItem)
    requires 0 < |rows| == |ids|
    requires forall i :: 0 <= i < |watchlist| ==> watchlist[i].profileId != profileId
    requires DistinctTitles(rows)
    requires prev == watchlist + RekeyedWatchlist(rows[..|rows| - 1], ids[..|rows| - 1], profileId)
    requires x == RekeyWatchlist(rows[|rows| - 1], ids[|rows| - 1], profileId)
    ensures AddRow(prev, x) == watchlist + RekeyedWatchlist(rows, ids, profileId)
  {
    var k := |rows| - 1;
    var before := RekeyedWatchlist(rows[..k], ids[..k], profileId);
    forall j | 0 <= j < |prev| ensures WatchKey(prev[j]) != WatchKey(x) {
      if j >= |watchlist| {
        assert prev[j] == before[j - |watchlist|];
        assert rows[..k][j - |watchlist|] == rows[j - |watchlist|];
      }
    }
    AddRowAbsent(prev, x);
    assert RekeyedWatchlist(rows, ids, profileId) == before + [x];
    assert prev + [x] == watchlist + (before + [x]);
  }

  /**
   * Importing ratings with distinct (title, media type) pairs under a profile that no
   * stored rating belongs to appends them, in order, each under its row id and the profile.
   */
  lemma {:induction false} ImportRatingRowsAppend(ratings: seq<Rating>, rows: seq<Rating>,
                                                  profileId: string, rowId: nat -> string, first: nat)
    requires forall i :: 0 <= i < |ratings| ==> ratings[i].profileId != profileId
    requires DistinctRated(rows)
    ensures ImportRatingRows(ratings, rows, profileId, rowId, first)
      == ratings + RekeyedRatings(rows, RowIds(rowId, first, |rows|), profileId)
  {
    if |rows| > 0 {
      var k := |rows| - 1;
      assert DistinctRated(rows[..k]);
      ImportRatingRowsAppend(ratings, rows[..k], profileId, rowId, first);
      ImportRatingRowsLast(ratings, rows, profileId, rowId, first);
      RowIdsPrefix(rowId, first, |rows|, k);
      RowIdsLast(rowId, first, |rows|);
      RatingAppendStep(ratings, rows, RowIds(rowId, first, |rows|), profileId,
                       ImportRatingRows(ratings, rows[..k], profileId, rowId, first),
                       RekeyRating(rows[k], rowId(first + k), profileId));
    }
  }

  /** The inductive step of ImportRatingRowsAppend: the next row's pair is not rated yet. */
  lemma RatingAppendStep(ratings: seq<Rating>, rows: seq<Rating>, ids: seq<string>,
                         profileId: string, prev: seq<Rating>, x: Rating)
    requires 0 < |rows| == |ids|
    requires forall i :: 0 <= i < |ratings| ==> ratings[i].profileId != profileId
    requires DistinctRated(rows)
    requires prev == ratings + RekeyedRatings(rows[..|rows| - 1], ids[..|rows| - 1], profileId)
    requires x == RekeyRating(rows[|rows| - 1], ids[|rows| - 1], profileId)
    ensures Upsert(prev, RatingKey, x) == ratings + RekeyedRatings(rows, ids, profileId)
  {
    var k := |rows| - 1;
    var before := RekeyedRatings(rows[..k], ids[..k], profileId);
    forall j | 0 <= j < |prev| ensures RatingKey(prev[j]) != RatingKey(x) {
      if j >= |ratings| {
        assert prev[j] == before[j - |ratings|];
        assert rows[..k][j - |ratings|] == rows[j - |ratings|];
      }
    }
    UpsertAbsent(prev, RatingKey, x);
    assert RekeyedRatings(rows, ids, profileId) == before + [x];
    assert prev + [x] == ratings + (before + [x]);
  }

  /**
   * The writes of a successful import under a profile id nobody uses, with fresh
   * history row ids and the distinct titles an export holds, append the profile and
   * every imported row, re-keyed and in order, and change nothing else.
   */
  lemma ImportEnvelopeAppends(s: StoreState, env: ImportEnvelope, newProfileId: string, rowId: nat -> string)
    requires env.profile.Some? && Unclaimed(s, newProfileId)
    requires FreshIds(RowIds(rowId, 0, |OrEmpty(env.watchHistory)|), Keys(s.history, HistoryKey))
    requires DistinctTitles(OrEmpty(env.watchlist)) && DistinctRated(OrEmpty(env.ratings))
    ensures ImportEnvelopeInto(s, env, newProfileId, rowId).profiles
      == s.profiles + [env.profile.value.(id := newProfileId)]
    ensures ImportEnvelopeInto(s, env, newProfileId, rowId).history
      == s.history + RekeyedHistory(OrEmpty(env.watchHistory), RowIds(rowId, 0, |OrEmpty(env.watchHistory)|), newProfileId)
    ensures ImportEnvelopeInto(s, env, newProfileId, rowId).watchlist
      == s.watchlist + RekeyedWatchlist(OrEmpty(env.watchlist),
                                        RowIds(rowId, |OrEmpty(env.watchHistory)|, |OrEmpty(env.watchlist)|), newProfileId)
    ensures ImportEnvelopeInto(s, env, newProfileId, rowId).ratings
      == s.ratings + RekeyedRatings(OrEmpty(env.ratings),
                                    RatingRowIds(rowId, OrEmpty(env.watchHistory), OrEmpty(env.watchlist), |OrEmpty(env.ratings)|),
                                    newProfileId)
  {
    EnvelopeProfilesAppend(s, env, newProfileId, rowId);
    EnvelopeHistoryAppend(s, env, newProfileId, rowId);
    EnvelopeWatchlistAppend(s, env, newProfileId, rowId);
    EnvelopeRatingsAppend(s, env, newProfileId, rowId);
  }

  lemma EnvelopeRatingsAppend(s: StoreState, env: ImportEnvelope, newProfileId: string, rowId: nat -> string)
    requires env.profile.Some?
    requires forall i :: 0 <= i < |s.ratings| ==> s.ratings[i].profileId != newProfileId
    requires DistinctRated(OrEmpty(env.ratings))
    ensures ImportEnvelopeInto(s, env, newProfileId, rowId).ratings
      == s.ratings + RekeyedRatings(OrEmpty(env.ratings),
                                    RatingRowIds(rowId, OrEmpty(env.watchHistory), OrEmpty(env.watchlist), |OrEmpty(env.ratings)|),
                                    newProfileId)
  {
    var h := OrEmpty(env.watchHistory);
    var w := OrEmpty(env.watchlist);
    var first := |h| + |w|;
    ImportEnvelopeRatingRows(s, env, newProfileId, rowId, first);
    RatingRowsAppendAfter(s.ratings, OrEmpty(env.ratings), newProfileId, rowId, h, w, first);
  }

  /** ImportRatingRowsAppend for the ratings of an envelope, numbered after its history and watchlist rows. */
  lemma RatingRowsAppendAfter(ratings: seq<Rating>, rows: seq<Rating>, profileId: string, rowId: nat -> string,
                              h: seq<WatchHistory>, w: seq<WatchlistItem>, first: nat)
    requires first == |h| + |w|
    requires forall i :: 0 <= i < |ratings| ==> ratings[i].profileId != profileId
    requires DistinctRated(rows)
    ensures ImportRatingRows(ratings, rows, profileId, rowId, first)
      == ratings + RekeyedRatings(rows, RatingRowIds(rowId, h, w, |rows|), profileId)
  {
    var ids := RowIds(rowId, first, |rows|);
    assert RatingRowIds(rowId, h, w, |rows|) == ids;
    ImportRatingRowsAppend(ratings, rows, profileId, rowId, first);
    assert ImportRatingRows(ratings, rows, profileId, rowId, first) == ratings + RekeyedRatings(rows, ids, profileId);
  }

  lemma EnvelopeProfilesAppend(s: StoreState, env: ImportEnvelope, newProfileId: string, rowId: nat -> string)
    requires env.profile.Some?
    requires forall i :: 0 <= i < |s.profiles| ==> s.profiles[i].id != newProfileId
    ensures ImportEnvelopeInto(s, env, newProfileId, rowId).profiles == s.profiles + [env.profile.value.(id := newProfileId)]
  {
    SaveProfileAppends(s, env.profile.value.(id := newProfileId));
  }

  lemma EnvelopeHistoryAppend(s: StoreState, env: ImportEnvelope, newProfileId: string, rowId: nat -> string)
    requires env.profile.Some?
    requires FreshIds(RowIds(rowId, 0, |OrEmpty(env.watchHistory)|), Keys(s.history, HistoryKey))
    ensures var h := OrEmpty(env.watchHistory);
      ImportEnvelopeInto(s, env, newProfileId, rowId).history == s.history + RekeyedHistory(h, RowIds(rowId, 0, |h|), newProfileId)
  {
    ImportHistoryRowsAppend(s.history, OrEmpty(env.watchHistory), newProfileId, rowId, 0);
  }

  lemma EnvelopeWatchlistAppend(s: StoreState, env: ImportEnvelope, newProfileId: string, rowId: nat -> string)
    requires env.profile.Some?
    requires forall i :: 0 <= i < |s.watchlist| ==> s.watchlist[i].profileId != newProfileId
    requires DistinctTitles(OrEmpty(env.watchlist))
    ensures var h := OrEmpty(env.watchHistory);
      var w := OrEmpty(env.watchlist);
      ImportEnvelopeInto(s, env, newProfileId, rowId).watchlist
        == s.watchlist + RekeyedWatchlist(w, RowIds(rowId, |h|, |w|), newProfileId)
  {
    ImportWatchlistRowsAppend(s.watchlist, OrEmpty(env.watchlist), newProfileId, rowId, |OrEmpty(env.watchHistory)|);
  }

  /** saveProfile of a profile whose id no stored profile has appends it. */
  lemma SaveProfileAppends(s: StoreState, p: Profile)
    requires forall i :: 0 <= i < |s.profiles| ==> s.profiles[i].id != p.id
    ensures SaveProfile(s, p) == s.(profiles := s.profiles + [p])
  {
    UpsertAbsent(s.profiles, ProfileKey, p);
  }

  /** The watchlist of one profile lists each title once. */
  lemma ProfileWatchlistDistinct(s: StoreState, profileId: string)
    requires Valid(s) && profileId != ""
    ensures DistinctTitles(GetWatchlist(s, Some(profileId)))
  {
    var w := GetWatchlist(s, Some(profileId));
    FilterUnique(s.watchlist, (x: WatchlistItem) => x.profileId == profileId, WatchKey);
    forall i, k | 0 <= i < k < |w| ensures w[i].tmdbId != w[k].tmdbId {
      assert w[i] in w && w[k] in w;
      assert WatchKey(w[i]) != WatchKey(w[k]);
    }
  }

  /** Appending a profile with another id does not change what getProfile finds. */
  lemma FindProfileAppend(s: StoreState, r: StoreState, p: Profile, id: string)
    requires p.id != id && r.profiles == s.profiles + [p]
    ensures FindProfile(r, id) == FindProfile(s, id)
  {
    IndexWhereAppendMiss(s.profiles, p, (q: Profile) => q.id == id);
  }

  /**
   * After history rows of another profile are appended, a profile's history reads as
   * before, and the other profile's history is exactly the appended rows when no row
   * belonged to it before.
   */
  lemma HistoryAppendRead(s: StoreState, r: StoreState, rows: seq<WatchHistory>, profileId: string, newProfileId: string)
    requires profileId != "" && newProfileId != "" && profileId != newProfileId
    requires forall i :: 0 <= i < |s.history| ==> s.history[i].profileId != newProfileId
    requires forall i :: 0 <= i < |rows| ==> rows[i].profileId == newProfileId
    requires r.history == s.history + rows
    ensures GetWatchHistory(r, Some(profileId)) == GetWatchHistory(s, Some(profileId))
    ensures GetWatchHistory(r, Some(newProfileId)) == rows
  {
    FilterAppend(s.history, rows, (h: WatchHistory) => h.profileId == profileId);
    FilterNone(rows, (h: WatchHistory) => h.profileId == profileId);
    FilterAppend(s.history, rows, (h: WatchHistory) => h.profileId == newProfileId);
    FilterNone(s.history, (h: WatchHistory) => h.profileId == newProfileId);
    FilterKeepsAll(rows, (h: WatchHistory) => h.profileId == newProfileId);
  }

  /** HistoryAppendRead for the watchlist. */
  lemma WatchlistAppendRead(s: StoreState, r: StoreState, rows: seq<WatchlistItem>, profileId: string, newProfileId: string)
    requires profileId != "" && newProfileId != "" && profileId != newProfileId
    requires forall i :: 0 <= i < |s.watchlist| ==> s.watchlist[i].profileId != newProfileId
    requires forall i :: 0 <= i < |rows| ==> rows[i].profileId == newProfileId
    requires r.watchlist == s.watchlist + rows
    ensures GetWatchlist(r, Some(profileId)) == GetWatchlist(s, Some(profileId))
    ensures GetWatchlist(r, Some(newProfileId)) == rows
  {
    FilterAppend(s.watchlist, rows, (w: WatchlistItem) => w.profileId == profileId);
    FilterNone(rows, (w: WatchlistItem) => w.profileId == profileId);
    FilterAppend(s.watchlist, rows, (w: WatchlistItem) => w.profileId == newProfileId);
    FilterNone(s.watchlist, (w: WatchlistItem) => w.profileId == newProfileId);
    FilterKeepsAll(rows, (w: WatchlistItem) => w.profileId == newProfileId);
  }

  /** HistoryAppendRead for the ratings. */
  lemma RatingsAppendRead(s: StoreState, r: StoreState, rows: seq<Rating>, profileId: string, newProfileId: string)
    requires profileId != "" && newProfileId != "" && profileId != newProfileId
    requires forall i :: 0 <= i < |s.ratings| ==> s.ratings[i].profileId != newProfileId
    requires forall i :: 0 <= i < |rows| ==> rows[i].profileId == newProfileId
    requires r.ratings == s.ratings + rows
    ensures GetRatings(r, Some(profileId)) == GetRatings(s, Some(profileId))
    ensures GetRatings(r, Some(newProfileId)) == rows
  {
    FilterAppend(s.ratings, rows, (x: Rating) => x.profileId == profileId);
    FilterNone(rows, (x: Rating) => x.profileId == profileId);
    FilterAppend(s.ratings, rows, (x: Rating) => x.profileId == newProfileId);
    FilterNone(s.ratings, (x: Rating) => x.profileId == newProfileId);
    FilterKeepsAll(rows, (x: Rating) => x.profileId == newProfileId);
  }

  /** What an export followed by an import under an unclaimed profile id assumes of the store. */
  predicate ReimportSetting(s: StoreState, profileId: string, exportedAt: string,
                            serialize: ExportEnvelope -> seq<Base64.Unit>, parse: seq<Base64.Unit> -> Option<ImportEnvelope>,
                            newProfileId: string, rowId: nat -> string)
  {
    && Valid(s) && profileId != "" && FindProfile(s, profileId).Some?
    && newProfileId != "" && Unclaimed(s, newProfileId)
    && ExportProfileData(s, profileId, exportedAt, serialize).Success?
    && (var e := ExportEnvelopeOf(s, profileId, exportedAt);
        parse(serialize(e)) == Some(ImportEnvelope(e.profile, Some(e.version), Some(e.watchHistory), Some(e.watchlist), Some(e.ratings))))
    && FreshIds(RowIds(rowId, 0, |GetWatchHistory(s, Some(profileId))|), Keys(s.history, HistoryKey))
  }

  /**
   * Exporting a profile and importing the result under a profile id that no stored
   * profile or row uses, with fresh history row ids, leaves the exported profile and
   * its history, watchlist and ratings exactly as they were.
   */
  lemma ExportThenImportKeeps(s: StoreState, profileId: string, exportedAt: string,
                              serialize: ExportEnvelope -> seq<Base64.Unit>, parse: seq<Base64.Unit> -> Option<ImportEnvelope>,
                              newProfileId: string, rowId: nat -> string)
    requires ReimportSetting(s, profileId, exportedAt, serialize, parse, newProfileId, rowId)
    ensures var res := ImportProfileData(s, ExportProfileData(s, profileId, exportedAt, serialize).value, parse, newProfileId, rowId);
      && res.1
      && FindProfile(res.0, profileId) == FindProfile(s, profileId)
      && GetWatchHistory(res.0, Some(profileId)) == GetWatchHistory(s, Some(profileId))
      && GetWatchlist(res.0, Some(profileId)) == GetWatchlist(s, Some(profileId))
      && GetRatings(res.0, Some(profileId)) == GetRatings(s, Some(profileId))
  {
    var res := ImportProfileData(s, ExportProfileData(s, profileId, exportedAt, serialize).value, parse, newProfileId, rowId);
    ReimportRead(s, profileId, exportedAt, serialize, parse, newProfileId, rowId, res.0);
  }

  /**
   * Exporting a profile and importing the result under a profile id that no stored
   * profile or row uses, with fresh history row ids, creates a copy of the profile
   * under the new id that holds exactly the exported rows, in order, each with all
   * its fields but its row id (the next one drawn) and its profile id.
   */
  lemma ExportThenImportCopies(s: StoreState, profileId: string, exportedAt: string,
                               serialize: ExportEnvelope -> seq<Base64.Unit>, parse: seq<Base64.Unit> -> Option<ImportEnvelope>,
                               newProfileId: string, rowId: nat -> string)
    requires ReimportSetting(s, profileId, exportedAt, serialize, parse, newProfileId, rowId)
    ensures var res := ImportProfileData(s, ExportProfileData(s, profileId, exportedAt, serialize).value, parse, newProfileId, rowId);
      var h := GetWatchHistory(s, Some(profileId));
      var w := GetWatchlist(s, Some(profileId));
      var g := GetRatings(s, Some(profileId));
      && res.1
      && FindProfile(res.0, newProfileId) == Some(FindProfile(s, profileId).value.(id := newProfileId))
      && GetWatchHistory(res.0, Some(newProfileId)) == RekeyedHistory(h, RowIds(rowId, 0, |h|), newProfileId)
      && GetWatchlist(res.0, Some(newProfileId)) == RekeyedWatchlist(w, RowIds(rowId, |h|, |w|), newProfileId)
      && GetRatings(res.0, Some(newProfileId)) == RekeyedRatings(g, RatingRowIds(rowId, h, w, |g|), newProfileId)
  {
    var res := ImportProfileData(s, ExportProfileData(s, profileId, exportedAt, serialize).value, parse, newProfileId, rowId);
    ReimportRead(s, profileId, exportedAt, serialize, parse, newProfileId, rowId, res.0);
  }

  /** ExportThenImportKeeps and ExportThenImportCopies, for the store the import yields. */
  lemma ReimportRead(s: StoreState, profileId: string, exportedAt: string,
                     serialize: ExportEnvelope -> seq<Base64.Unit>, parse: seq<Base64.Unit> -> Option<ImportEnvelope>,
                     newProfileId: string, rowId: nat -> string, r: StoreState)
    requires ReimportSetting(s, profileId, exportedAt, serialize, parse, newProfileId, rowId)
    requires r == ImportProfileData(s, ExportProfileData(s, profileId, exportedAt, serialize).value, parse, newProfileId, rowId).0
    ensures ImportProfileData(s, ExportProfileData(s, profileId, exportedAt, serialize).value, parse, newProfileId, rowId).1
    ensures FindProfile(r, profileId) == FindProfile(s, profileId)
    ensures GetWatchHistory(r, Some(profileId)) == GetWatchHistory(s, Some(profileId))
    ensures GetWatchlist(r, Some(profileId)) == GetWatchlist(s, Some(profileId))
    ensures GetRatings(r, Some(profileId)) == GetRatings(s, Some(profileId))
    ensures FindProfile(r, newProfileId) == Some(FindProfile(s, profileId).value.(id := newProfileId))
    ensures var h := GetWatchHistory(s, Some(profileId));
      var w := GetWatchlist(s, Some(profileId));
      var g := GetRatings(s, Some(profileId));
      && GetWatchHistory(r, Some(newProfileId)) == RekeyedHistory(h, RowIds(rowId, 0, |h|), newProfileId)
      && GetWatchlist(r, Some(newProfileId)) == RekeyedWatchlist(w, RowIds(rowId, |h|, |w|), newProfileId)
      && GetRatings(r, Some(newProfileId)) == RekeyedRatings(g, RatingRowIds(rowId, h, w, |g|), newProfileId)
  {
    var h := GetWatchHistory(s, Some(profileId));
    var w := GetWatchlist(s, Some(profileId));
    var g := GetRatings(s, Some(profileId));
    ExportImportAppends(s, profileId, exportedAt, serialize, parse, newProfileId, rowId);
    assert profileId != newProfileId by {
      var i := IndexWhere(s.profiles, (q: Profile) => q.id == profileId);
      assert s.profiles[i].id == profileId;
    }
    FreshRead(s, r, FindProfile(s, profileId).value.(id := newProfileId), profileId, newProfileId,
              RekeyedHistory(h, RowIds(rowId, 0, |h|), newProfileId),
              RekeyedWatchlist(w, RowIds(rowId, |h|, |w|), newProfileId),
              RekeyedRatings(g, RatingRowIds(rowId, h, w, |g|), newProfileId));
  }

  /**
   * Exporting a profile and importing the result under a profile id that no stored
   * profile or row uses, with fresh history row ids, succeeds and appends the profile
   * copy and the re-keyed rows to the stored lists, changing no stored row.
   */
  lemma ExportImportAppends(s: StoreState, profileId: string, exportedAt: string,
                            serialize: ExportEnvelope -> seq<Base64.Unit>, parse: seq<Base64.Unit> -> Option<ImportEnvelope>,
                            newProfileId: string, rowId: nat -> string)
    requires ReimportSetting(s, profileId, exportedAt, serialize, parse, newProfileId, rowId)
    ensures var res := ImportProfileData(s, ExportProfileData(s, profileId, exportedAt, serialize).value, parse, newProfileId, rowId);
      var h := GetWatchHistory(s, Some(profileId));
      var w := GetWatchlist(s, Some(profileId));
      var g := GetRatings(s, Some(profileId));
      && res.1
      && res.0.profiles == s.profiles + [FindProfile(s, profileId).value.(id := newProfileId)]
      && res.0.history == s.history + RekeyedHistory(h, RowIds(rowId, 0, |h|), newProfileId)
      && res.0.watchlist == s.watchlist + RekeyedWatchlist(w, RowIds(rowId, |h|, |w|), newProfileId)
      && res.0.ratings == s.ratings + RekeyedRatings(g, RatingRowIds(rowId, h, w, |g|), newProfileId)
  {
    var e := ExportEnvelopeOf(s, profileId, exportedAt);
    var json := serialize(e);
    Codec.DecryptEncrypt(json);
    var env := ImportEnvelope(e.profile, Some(e.version), Some(e.watchHistory), Some(e.watchlist), Some(e.ratings));
    ImportSucceeds(s, ExportProfileData(s, profileId, exportedAt, serialize).value, parse, newProfileId, rowId, json, env);
    ProfileWatchlistDistinct(s, profileId);
    ProfileRatingsDistinct(s, profileId);
    var h := GetWatchHistory(s, Some(profileId));
    var w := GetWatchlist(s, Some(profileId));
    assert OrEmpty(env.watchHistory) == h && OrEmpty(env.watchlist) == w;
    assert OrEmpty(env.ratings) == GetRatings(s, Some(profileId));
    ImportEnvelopeAppends(s, env, newProfileId, rowId);
  }

  /**
   * After a profile and rows that all belong
   * to an unclaimed id are appended, every other profile reads as before and the
   * new profile reads exactly the appended rows.
   */
  lemma FreshRead(s: StoreState, r: StoreState, p: Profile, profileId: string, newProfileId: string,
                  hs: seq<WatchHistory>, ws: seq<WatchlistItem>, gs: seq<Rating>)
    requires Valid(s) && Unclaimed(s, newProfileId) && p.id == newProfileId
    requires profileId != "" && newProfileId != "" && profileId != newProfileId
    requires forall i :: 0 <= i < |hs| ==> hs[i].profileId == newProfileId
    requires forall i :: 0 <= i < |ws| ==> ws[i].profileId == newProfileId
    requires forall i :: 0 <= i < |gs| ==> gs[i].profileId == newProfileId
    requires r.profiles == s.profiles + [p] && r.history == s.history + hs
    requires r.watchlist == s.watchlist + ws && r.ratings == s.ratings + gs
    ensures FindProfile(r, profileId) == FindProfile(s, profileId)
    ensures FindProfile(r, newProfileId) == Some(p)
    ensures GetWatchHistory(r, Some(profileId)) == GetWatchHistory(s, Some(profileId))
    ensures GetWatchlist(r, Some(profileId)) == GetWatchlist(s, Some(profileId))
    ensures GetRatings(r, Some(profileId)) == GetRatings(s, Some(profileId))
    ensures GetWatchHistory(r, Some(newProfileId)) == hs
    ensures GetWatchlist(r, Some(newProfileId)) == ws
    ensures GetRatings(r, Some(newProfileId)) == gs
  {
    FindProfileAppend(s, r, p, profileId);
    FindProfileAppended(s, r, p);
    HistoryAppendRead(s, r, hs, profileId, newProfileId);
    WatchlistAppendRead(s, r, ws, profileId, newProfileId);
    RatingsAppendRead(s, r, gs, profileId, newProfileId);
  }

  /** A profile appended under an id no stored profile has is what getProfile finds for it. */
  lemma FindProfileAppended(s: StoreState, r: StoreState, p: Profile)
    requires forall i :: 0 <= i < |s.profiles| ==> s.profiles[i].id != p.id
    requires r.profiles == s.profiles + [p]
    ensures FindProfile(r, p.id) == Some(p)
  {
    IndexWhereFirst(r.profiles, (q: Profile) => q.id == p.id, |s.profiles|);
  }
}
