/**
 * The array operations the application builds everything from: filter, find and
 * findIndex, replace-or-append keyed by an identity, keep-the-first-per-key
 * deduplication, a stable sort by descending score, and slice(0, n).
 */
module Collections {
  import opened Types

  /** a is a subsequence of b: b with some elements dropped, order kept. */
  predicate Subseq<T(==,!new)>(a: seq<T>, b: seq<T>)
  {
    if |a| == 0 then true
    else if |b| == 0 then false
    else if a[0] == b[0] then Subseq(a[1..], b[1..])
    else Subseq(a, b[1..])
  }

  /** Every key occurs at most once. */
  predicate UniqueBy<T, K(==)>(s: seq<T>, key: T -> K)
  {
    forall i, j :: 0 <= i < j < |s| ==> key(s[i]) != key(s[j])
  }

  /** Some element of s has key k. */
  predicate Present<T, K(==)>(s: seq<T>, key: T -> K, k: K)
  {
    exists i :: 0 <= i < |s| && key(s[i]) == k
  }

  function Keys<T, K>(s: seq<T>, key: T -> K): set<K>
  {
    set i | 0 <= i < |s| :: key(s[i])
  }

  // ---------------------------------------------------------------------------
  // filter
  // ---------------------------------------------------------------------------

  /** Array.prototype.filter. */
  function Filter<T(==,!new)>(s: seq<T>, p: T -> bool): (r: seq<T>)
    ensures |r| <= |s|
    ensures forall x :: x in r <==> x in s && p(x)
    ensures Subseq(r, s)
  {
    if |s| == 0 then []
    else if p(s[0]) then
      SubseqCons(Filter(s[1..], p), s);
      [s[0]] + Filter(s[1..], p)
    else
      SubseqSkip(Filter(s[1..], p), s);
      Filter(s[1..], p)
  }

  lemma SubseqCons<T(!new)>(a: seq<T>, b: seq<T>)
    requires |b| > 0 && Subseq(a, b[1..])
    ensures Subseq([b[0]] + a, b)
  {
    assert ([b[0]] + a)[1..] == a;
  }

  lemma {:induction false} SubseqSkip<T(!new)>(a: seq<T>, b: seq<T>)
    requires |b| > 0 && Subseq(a, b[1..])
    ensures Subseq(a, b)
    decreases |a| + |b|
  {
    if |a| > 0 && a[0] == b[0] {
      SubseqDropHead(a, b[1..]);
    }
  }

  lemma {:induction false} SubseqDropHead<T(!new)>(a: seq<T>, c: seq<T>)
    requires |a| > 0 && Subseq(a, c)
    ensures Subseq(a[1..], c)
    decreases |a| + |c|
  {
    if a[0] == c[0] {
      SubseqSkip(a[1..], c);
    } else {
      SubseqDropHead(a, c[1..]);
      SubseqSkip(a[1..], c);
    }
  }

  /** A prefix is a subsequence. */
  lemma {:induction false} SubseqPrefix<T(!new)>(s: seq<T>, n: nat)
    requires n <= |s|
    ensures Subseq(s[..n], s)
  {
    if n > 0 {
      SubseqPrefix(s[1..], n - 1);
      assert s[..n][1..] == s[1..][..n - 1];
    }
  }

  lemma {:induction false} SubseqTrans<T(!new)>(a: seq<T>, b: seq<T>, c: seq<T>)
    requires Subseq(a, b) && Subseq(b, c)
    ensures Subseq(a, c)
    decreases |c|
  {
    if |a| > 0 {
      if a[0] == b[0] && b[0] == c[0] {
        SubseqTrans(a[1..], b[1..], c[1..]);
      } else if b[0] == c[0] {
        SubseqTrans(a, b[1..], c[1..]);
        SubseqSkip(a, c);
      } else {
        SubseqTrans(a, b, c[1..]);
        SubseqSkip(a, c);
      }
    }
  }

  /** Every element of a subsequence is an element of the sequence. */
  lemma {:induction false} SubseqIn<T(!new)>(a: seq<T>, b: seq<T>, x: T)
    requires Subseq(a, b) && x in a
    ensures x in b
  {
    if a[0] == b[0] {
      if x != a[0] {
        SubseqIn(a[1..], b[1..], x);
      }
    } else {
      SubseqIn(a, b[1..], x);
    }
  }

  /** Filtering with a predicate that holds nowhere leaves nothing. */
  lemma {:induction false} FilterNone<T(!new)>(s: seq<T>, p: T -> bool)
    requires forall x :: x in s ==> !p(x)
    ensures Filter(s, p) == []
  {
    if |s| > 0 {
      FilterNone(s[1..], p);
    }
  }

  lemma {:induction false} FilterAppend<T(!new)>(s: seq<T>, t: seq<T>, p: T -> bool)
    ensures Filter(s + t, p) == Filter(s, p) + Filter(t, p)
  {
    if |s| > 0 {
      assert (s + t)[1..] == s[1..] + t;
      FilterAppend(s[1..], t, p);
    } else {
      assert s + t == t;
    }
  }

  /** Filtering with a predicate that holds everywhere keeps the sequence. */
  lemma {:induction false} FilterKeepsAll<T(!new)>(s: seq<T>, p: T -> bool)
    requires forall x :: x in s ==> p(x)
    ensures Filter(s, p) == s
  {
    if |s| > 0 {
      FilterKeepsAll(s[1..], p);
    }
  }

  /** Replacing an element the predicate rejects by another one it rejects does not change the filter. */
  lemma {:induction false} FilterUpdateRejected<T(!new)>(s: seq<T>, i: nat, x: T, p: T -> bool)
    requires i < |s| && !p(s[i]) && !p(x)
    ensures Filter(s[i := x], p) == Filter(s, p)
  {
    if i == 0 {
      assert s[i := x][1..] == s[1..];
    } else {
      assert s[i := x][1..] == s[1..][i - 1 := x];
      FilterUpdateRejected(s[1..], i - 1, x, p);
    }
  }

  /** Filtering keeps keys unique. */
  lemma {:induction false} FilterUnique<T(!new), K>(s: seq<T>, p: T -> bool, key: T -> K)
    requires UniqueBy(s, key)
    ensures UniqueBy(Filter(s, p), key)
  {
    if |s| > 0 {
      var rest := Filter(s[1..], p);
      FilterUnique(s[1..], p, key);
      if p(s[0]) {
        var r := [s[0]] + rest;
        forall i, j | 0 <= i < j < |r| ensures key(r[i]) != key(r[j]) {
          assert r[j] == rest[j - 1];
          if i == 0 {
            assert r[j] in s[1..];
            var k :| 0 <= k < |s| - 1 && s[1..][k] == r[j];
            assert s[k + 1] == r[j];
          } else {
            assert r[i] == rest[i - 1];
          }
        }
      }
    }
  }

  /** Filtering by pointwise-equal predicates gives the same result. */
  lemma {:induction false} FilterExt<T(!new)>(s: seq<T>, p: T -> bool, q: T -> bool)
    requires forall x :: p(x) == q(x)
    ensures Filter(s, p) == Filter(s, q)
  {
    if |s| > 0 {
      FilterExt(s[1..], p, q);
    }
  }

  // ---------------------------------------------------------------------------
  // findIndex, find
  // ---------------------------------------------------------------------------

  /** Array.prototype.findIndex: the first index satisfying p, or -1. */
  function IndexWhere<T>(s: seq<T>, p: T -> bool): (i: int)
    ensures -1 <= i < |s|
    ensures i >= 0 ==> p(s[i])
    ensures forall j :: 0 <= j < |s| && (i < 0 || j < i) ==> !p(s[j])
  {
    if |s| == 0 then -1
    else if p(s[0]) then 0
    else
      var k := IndexWhere(s[1..], p);
      if k < 0 then -1 else k + 1
  }

  lemma {:induction false} IndexWhereExt<T(!new)>(s: seq<T>, p: T -> bool, q: T -> bool)
    requires forall x :: p(x) == q(x)
    ensures IndexWhere(s, p) == IndexWhere(s, q)
  {
    if |s| > 0 {
      IndexWhereExt(s[1..], p, q);
    }
  }

  /** Array.prototype.find. */
  function Find<T>(s: seq<T>, p: T -> bool): (r: Option<T>)
    ensures r.Some? <==> exists j :: 0 <= j < |s| && p(s[j])
    ensures r.Some? ==> p(r.value) && r.value == s[IndexWhere(s, p)]
  {
    var i := IndexWhere(s, p);
    if i < 0 then None else Some(s[i])
  }

  // ---------------------------------------------------------------------------
  // replace-or-append
  // ---------------------------------------------------------------------------

  /**
   * `i = s.findIndex(y => key(y) === key(x)); if (i >= 0) s[i] = x; else s.push(x)`.
   */
  function Upsert<T, K(==)>(s: seq<T>, key: T -> K, x: T): (r: seq<T>)
    ensures |r| == |s| || |r| == |s| + 1
    ensures x in r
  {
    var i := IndexWhere(s, y => key(y) == key(x));
    if i >= 0 then
      assert s[i := x][i] == x;
      s[i := x]
    else
      assert (s + [x])[|s|] == x;
      s + [x]
  }

  /**
   * Upserting keeps every key unique; afterwards the element found for key(x) is x,
   * the elements with other keys are exactly the old ones in the old order, and the
   * sequence grows exactly when no element had key(x). `same` and `other` are any
   * predicates that test for key(x) and for a different key.
   */
  lemma UpsertLaws<T(!new), K>(s: seq<T>, key: T -> K, x: T, same: T -> bool, other: T -> bool)
    requires UniqueBy(s, key)
    requires forall y :: same(y) <==> key(y) == key(x)
    requires forall y :: other(y) <==> key(y) != key(x)
    ensures var r := Upsert(s, key, x);
      && UniqueBy(r, key)
      && Find(r, same) == Some(x)
      && Filter(r, other) == Filter(s, other)
      && (|r| == |s| <==> Find(s, same).Some?)
      && (Find(s, same).None? ==> r == s + [x])
  {
    var p := y => key(y) == key(x);
    IndexWhereExt(s, p, same);
    IndexWhereExt(Upsert(s, key, x), p, same);
    UpsertUnique(s, key, x);
    UpsertFinds(s, key, x);
    UpsertOthers(s, key, x);
    FilterExt(Upsert(s, key, x), y => key(y) != key(x), other);
    FilterExt(s, y => key(y) != key(x), other);
  }

  /** Upserting an element whose key no element has appends it. */
  lemma UpsertAbsent<T, K>(s: seq<T>, key: T -> K, x: T)
    requires forall j :: 0 <= j < |s| ==> key(s[j]) != key(x)
    ensures Upsert(s, key, x) == s + [x]
  {
  }

  lemma UpsertUnique<T(!new), K>(s: seq<T>, key: T -> K, x: T)
    requires UniqueBy(s, key)
    ensures UniqueBy(Upsert(s, key, x), key)
  {
    var p := y => key(y) == key(x);
    var i := IndexWhere(s, p);
    var r := Upsert(s, key, x);
    if i >= 0 {
      forall j | 0 <= j < |r| && j != i ensures key(r[j]) != key(x) {
        assert key(s[j]) != key(s[i]);
      }
    } else {
      assert r == s + [x];
    }
  }

  lemma UpsertFinds<T(!new), K>(s: seq<T>, key: T -> K, x: T)
    requires UniqueBy(s, key)
    ensures IndexWhere(Upsert(s, key, x), y => key(y) == key(x)) == IndexWhere(s, y => key(y) == key(x))
            || (IndexWhere(s, y => key(y) == key(x)) < 0 && IndexWhere(Upsert(s, key, x), y => key(y) == key(x)) == |s|)
    ensures Upsert(s, key, x)[IndexWhere(Upsert(s, key, x), y => key(y) == key(x))] == x
  {
    var p := y => key(y) == key(x);
    var i := IndexWhere(s, p);
    var r := Upsert(s, key, x);
    if i >= 0 {
      IndexWhereFirst(r, p, i);
    } else {
      assert r == s + [x];
      IndexWhereFirst(r, p, |s|);
    }
  }

  lemma UpsertOthers<T(!new), K>(s: seq<T>, key: T -> K, x: T)
    requires UniqueBy(s, key)
    ensures Filter(Upsert(s, key, x), y => key(y) != key(x)) == Filter(s, y => key(y) != key(x))
  {
    var p := y => key(y) == key(x);
    var q := y => key(y) != key(x);
    var i := IndexWhere(s, p);
    if i >= 0 {
      FilterUpdateRejectedNot(s, i, x, key);
    } else {
      FilterAppend(s, [x], q);
      assert Filter([x], q) == [];
      assert s + [] == s;
    }
  }

  /** After an upsert, key(x) is present. */
  lemma UpsertPresent<T, K>(s: seq<T>, key: T -> K, x: T)
    ensures Present(Upsert(s, key, x), key, key(x))
  {
    var r := Upsert(s, key, x);
    var i :| 0 <= i < |r| && r[i] == x;
  }

  /** An upsert keeps every key that was present. */
  lemma UpsertKeeps<T, K>(s: seq<T>, key: T -> K, x: T, k: K)
    requires Present(s, key, k)
    ensures Present(Upsert(s, key, x), key, k)
  {
    var r := Upsert(s, key, x);
    var i := IndexWhere(s, y => key(y) == key(x));
    var j :| 0 <= j < |s| && key(s[j]) == k;
    if i >= 0 {
      if j == i { assert key(r[i]) == k; } else { assert r[j] == s[j]; }
    } else {
      assert r[j] == s[j];
    }
  }

  lemma FilterUpdateRejectedNot<T(!new), K>(s: seq<T>, i: nat, x: T, key: T -> K)
    requires i < |s| && key(s[i]) == key(x)
    ensures Filter(s[i := x], y => key(y) != key(x)) == Filter(s, y => key(y) != key(x))
  {
    FilterUpdateRejected(s, i, x, y => key(y) != key(x));
  }

  /** Appending an element the predicate rejects does not move the first match. */
  lemma {:induction false} IndexWhereAppendMiss<T(!new)>(s: seq<T>, x: T, p: T -> bool)
    requires !p(x)
    ensures IndexWhere(s + [x], p) == IndexWhere(s, p)
  {
    if |s| > 0 {
      assert (s + [x])[1..] == s[1..] + [x];
      IndexWhereAppendMiss(s[1..], x, p);
    } else {
      assert s + [x] == [x];
    }
  }

  lemma IndexWhereFirst<T(!new)>(s: seq<T>, p: T -> bool, i: nat)
    requires i < |s| && p(s[i]) && forall j :: 0 <= j < i ==> !p(s[j])
    ensures IndexWhere(s, p) == i
  {
  }

  // ---------------------------------------------------------------------------
  // keep the first element per key
  // ---------------------------------------------------------------------------

  /** The first element of s with the given key. */
  function FirstWithKey<T, K(==)>(s: seq<T>, key: T -> K, k: K): Option<T>
  {
    if |s| == 0 then None else if key(s[0]) == k then Some(s[0]) else FirstWithKey(s[1..], key, k)
  }

  /** Scan left to right, dropping any element whose key was already seen. */
  function DedupFrom<T(==,!new), K(==)>(s: seq<T>, key: T -> K, seen: set<K>): (r: seq<T>)
    ensures Subseq(r, s)
    ensures UniqueBy(r, key)
    ensures Keys(r, key) == Keys(s, key) - seen
    ensures forall j :: 0 <= j < |r| ==> key(r[j]) !in seen && FirstWithKey(s, key, key(r[j])) == Some(r[j])
  {
    if |s| == 0 then []
    else if key(s[0]) in seen then
      var rest := DedupFrom(s[1..], key, seen);
      SubseqSkip(rest, s);
      KeysCons(s, key);
      rest
    else
      var rest := DedupFrom(s[1..], key, seen + {key(s[0])});
      SubseqCons(rest, s);
      KeysCons(s, key);
      var r := [s[0]] + rest;
      assert Keys(r, key) == {key(s[0])} + Keys(rest, key) by {
        KeysCons(r, key);
        assert r[1..] == rest;
      }
      forall i, j | 0 <= i < j < |r| ensures key(r[i]) != key(r[j]) {
        if i == 0 {
          assert r[j] == rest[j - 1];
        } else {
          assert r[i] == rest[i - 1] && r[j] == rest[j - 1];
        }
      }
      r
  }

  lemma KeysCons<T(!new), K>(s: seq<T>, key: T -> K)
    requires |s| > 0
    ensures Keys(s, key) == {key(s[0])} + Keys(s[1..], key)
  {
    var a := Keys(s, key);
    var b := {key(s[0])} + Keys(s[1..], key);
    forall k | k in a ensures k in b {
      var i :| 0 <= i < |s| && key(s[i]) == k;
      if i > 0 { assert s[1..][i - 1] == s[i]; }
    }
    forall k | k in b ensures k in a {
      if k != key(s[0]) {
        var i :| 0 <= i < |s| - 1 && key(s[1..][i]) == k;
        assert s[i + 1] == s[1..][i];
      }
    }
  }

  /** Without repeated keys there are as many keys as elements. */
  lemma {:induction false} UniqueKeysCount<T(!new), K>(s: seq<T>, key: T -> K)
    requires UniqueBy(s, key)
    ensures |Keys(s, key)| == |s|
  {
    if |s| > 0 {
      KeysCons(s, key);
      assert UniqueBy(s[1..], key) by {
        forall i, j | 0 <= i < j < |s| - 1 ensures key(s[1..][i]) != key(s[1..][j]) {
          assert s[1..][i] == s[i + 1] && s[1..][j] == s[j + 1];
        }
      }
      UniqueKeysCount(s[1..], key);
    }
  }

  /**
   * `s.reduce((acc, x) => acc.find(y => key(y) === key(x)) ? acc : [...acc, x], [])`:
   * one element per key, the first one in s, in the order of s.
   */
  function DedupFirst<T(==,!new), K(==)>(s: seq<T>, key: T -> K): (r: seq<T>)
    ensures Subseq(r, s)
    ensures UniqueBy(r, key)
    ensures Keys(r, key) == Keys(s, key)
    ensures forall j :: 0 <= j < |r| ==> FirstWithKey(s, key, key(r[j])) == Some(r[j])
  {
    DedupFrom(s, key, {})
  }

  /** Scanning one more element keeps it exactly when its key was neither seen nor met before. */
  lemma {:induction false} DedupFromSnoc<T(!new), K>(s: seq<T>, key: T -> K, seen: set<K>, x: T)
    ensures DedupFrom(s + [x], key, seen)
         == DedupFrom(s, key, seen) + (if key(x) in Keys(s, key) + seen then [] else [x])
  {
    if |s| == 0 {
      assert s + [x] == [x];
      assert [x][1..] == [];
    } else {
      var t := s + [x];
      assert t[0] == s[0] && t[1..] == s[1..] + [x];
      KeysCons(s, key);
      var seen' := if key(s[0]) in seen then seen else seen + {key(s[0])};
      assert Keys(s, key) + seen == Keys(s[1..], key) + seen';
      DedupFromSnoc(s[1..], key, seen', x);
    }
  }

  /** The reduce that builds DedupFirst, one element at a time. */
  lemma DedupFirstSnoc<T(!new), K>(s: seq<T>, key: T -> K, x: T)
    ensures DedupFirst(s + [x], key) == DedupFirst(s, key) + (if key(x) in Keys(s, key) then [] else [x])
  {
    DedupFromSnoc(s, key, {}, x);
    assert Keys(s, key) + {} == Keys(s, key);
  }

  // ---------------------------------------------------------------------------
  // stable sort by descending score, slice
  // ---------------------------------------------------------------------------

  predicate SortedDesc<T>(s: seq<T>, score: T -> int)
  {
    forall i, j :: 0 <= i < j < |s| ==> score(s[i]) >= score(s[j])
  }

  /** Insert x before the first element whose score is not larger than x's. */
  function InsertDesc<T>(x: T, t: seq<T>, score: T -> int): seq<T>
  {
    if |t| == 0 then [x]
    else if score(t[0]) > score(x) then [t[0]] + InsertDesc(x, t[1..], score)
    else [x] + t
  }

  /** `s.sort((a, b) => score(b) - score(a))`, which is a stable sort. */
  function SortDesc<T>(s: seq<T>, score: T -> int): seq<T>
  {
    if |s| == 0 then [] else InsertDesc(s[0], SortDesc(s[1..], score), score)
  }

  lemma {:induction false} InsertDescPerm<T(!new)>(x: T, t: seq<T>, score: T -> int)
    ensures multiset(InsertDesc(x, t, score)) == multiset(t) + multiset{x}
  {
    if |t| > 0 && score(t[0]) > score(x) {
      InsertDescPerm(x, t[1..], score);
      assert t == [t[0]] + t[1..];
    }
  }

  lemma {:induction false} InsertDescBound<T(!new)>(x: T, t: seq<T>, score: T -> int, v: int)
    requires score(x) <= v && forall i :: 0 <= i < |t| ==> score(t[i]) <= v
    ensures forall i :: 0 <= i < |InsertDesc(x, t, score)| ==> score(InsertDesc(x, t, score)[i]) <= v
  {
    if |t| > 0 && score(t[0]) > score(x) {
      InsertDescBound(x, t[1..], score, v);
    }
  }

  lemma {:induction false} InsertDescSorted<T(!new)>(x: T, t: seq<T>, score: T -> int)
    requires SortedDesc(t, score)
    ensures SortedDesc(InsertDesc(x, t, score), score)
  {
    if |t| > 0 && score(t[0]) > score(x) {
      var rest := InsertDesc(x, t[1..], score);
      InsertDescSorted(x, t[1..], score);
      InsertDescBound(x, t[1..], score, score(t[0]));
      var r := [t[0]] + rest;
      forall i, j | 0 <= i < j < |r| ensures score(r[i]) >= score(r[j]) {
        assert r[j] == rest[j - 1];
        if i > 0 {
          assert r[i] == rest[i - 1];
        }
      }
    }
  }

  /** The sort orders by descending score and is a permutation of its input. */
  lemma {:induction false} SortDescSorted<T(!new)>(s: seq<T>, score: T -> int)
    ensures SortedDesc(SortDesc(s, score), score)
    ensures multiset(SortDesc(s, score)) == multiset(s)
  {
    if |s| > 0 {
      SortDescSorted(s[1..], score);
      InsertDescSorted(s[0], SortDesc(s[1..], score), score);
      InsertDescPerm(s[0], SortDesc(s[1..], score), score);
      assert s == [s[0]] + s[1..];
    }
  }

  lemma {:induction false} InsertDescStable<T(!new)>(x: T, t: seq<T>, score: T -> int, v: int, same: T -> bool)
    requires forall y :: same(y) <==> score(y) == v
    ensures Filter(InsertDesc(x, t, score), same) == (if score(x) == v then [x] else []) + Filter(t, same)
  {
    if |t| > 0 && score(t[0]) > score(x) {
      InsertDescStable(x, t[1..], score, v, same);
      assert ([t[0]] + InsertDesc(x, t[1..], score))[1..] == InsertDesc(x, t[1..], score);
    } else if |t| > 0 {
      assert ([x] + t)[1..] == t;
    }
  }

  /**
   * Stability: the elements of any one score (those `same` selects) keep their
   * relative order from the input.
   */
  lemma {:induction false} SortDescStable<T(!new)>(s: seq<T>, score: T -> int, v: int, same: T -> bool)
    requires forall y :: same(y) <==> score(y) == v
    ensures Filter(SortDesc(s, score), same) == Filter(s, same)
  {
    if |s| > 0 {
      SortDescStable(s[1..], score, v, same);
      InsertDescStable(s[0], SortDesc(s[1..], score), score, v, same);
    }
  }

  lemma {:induction false} InsertDescExt<T(!new)>(x: T, t: seq<T>, f: T -> int, g: T -> int)
    requires f(x) == g(x) && forall y :: y in t ==> f(y) == g(y)
    ensures InsertDesc(x, t, f) == InsertDesc(x, t, g)
  {
    if |t| > 0 {
      assert t[0] in t;
      InsertDescExt(x, t[1..], f, g);
    }
  }

  /** Sorting by two scores that agree on every element gives the same order. */
  lemma {:induction false} SortDescExt<T(!new)>(s: seq<T>, f: T -> int, g: T -> int)
    requires forall y :: y in s ==> f(y) == g(y)
    ensures SortDesc(s, f) == SortDesc(s, g)
  {
    if |s| > 0 {
      SortDescExt(s[1..], f, g);
      var t := SortDesc(s[1..], f);
      SortDescSorted(s[1..], f);
      forall y | y in t ensures f(y) == g(y) {
        assert y in multiset(s[1..]);
      }
      assert s[0] in s;
      InsertDescExt(s[0], t, f, g);
    }
  }

  lemma UniqueTail<T, K>(s: seq<T>, key: T -> K)
    requires |s| > 0 && UniqueBy(s, key)
    ensures UniqueBy(s[1..], key)
    ensures forall y :: y in s[1..] ==> key(y) != key(s[0])
  {
    forall i, j | 0 <= i < j < |s| - 1 ensures key(s[1..][i]) != key(s[1..][j]) {
      assert s[1..][i] == s[i + 1] && s[1..][j] == s[j + 1];
    }
    forall y | y in s[1..] ensures key(y) != key(s[0]) {
      var m :| 0 <= m < |s| - 1 && s[1..][m] == y;
      assert s[m + 1] == y;
    }
  }

  lemma {:induction false} InsertDescUnique<T(!new), K>(x: T, t: seq<T>, score: T -> int, key: T -> K)
    requires UniqueBy(t, key) && forall y :: y in t ==> key(y) != key(x)
    ensures UniqueBy(InsertDesc(x, t, score), key)
  {
    if |t| > 0 && score(t[0]) > score(x) {
      UniqueTail(t, key);
      var rest := InsertDesc(x, t[1..], score);
      InsertDescUnique(x, t[1..], score, key);
      InsertDescPerm(x, t[1..], score);
      var r := [t[0]] + rest;
      assert t[0] in t;
      forall i, j | 0 <= i < j < |r| ensures key(r[i]) != key(r[j]) {
        assert r[j] == rest[j - 1];
        if i == 0 {
          assert r[j] in multiset(rest);
        } else {
          assert r[i] == rest[i - 1];
        }
      }
    }
  }

  /** Sorting keeps keys unique. */
  lemma {:induction false} SortDescUnique<T(!new), K>(s: seq<T>, score: T -> int, key: T -> K)
    requires UniqueBy(s, key)
    ensures UniqueBy(SortDesc(s, score), key)
  {
    if |s| > 0 {
      UniqueTail(s, key);
      SortDescUnique(s[1..], score, key);
      SortDescSorted(s[1..], score);
      forall y | y in SortDesc(s[1..], score) ensures key(y) != key(s[0]) {
        assert y in multiset(s[1..]);
      }
      InsertDescUnique(s[0], SortDesc(s[1..], score), score, key);
    }
  }

  /** Array.prototype.slice(0, n). */
  function Take<T>(s: seq<T>, n: nat): (r: seq<T>)
    ensures |r| <= n && |r| <= |s|
    ensures |s| <= n ==> r == s
    ensures |s| > n ==> |r| == n
    ensures r == s[..|r|]
  {
    if |s| <= n then s else s[..n]
  }
}
