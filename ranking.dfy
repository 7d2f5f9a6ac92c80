/**
 * Stable ranking by descending score, as the stream pipeline
 * `sorted(comparing(score).reversed()).limit(n)` does it: Java's object sort is
 * stable, so items with equal scores keep their input order.
 */
module Ranking {

  /** An item with the score it is ranked by (`Map.Entry<String, Integer>`, `ScoredTweet`). */
  datatype Scored<T> = Scored(item: T, score: int)

  /** Scores never increase along the sequence. */
  predicate SortedDesc<T>(s: seq<Scored<T>>) {
    forall i, j :: 0 <= i < j < |s| ==> s[i].score >= s[j].score
  }

  /** The elements with score `v`, in their order in `s`. */
  function WithScore<T>(s: seq<Scored<T>>, v: int): seq<Scored<T>>
    decreases |s|
  {
    if s == [] then [] else (if s[0].score == v then [s[0]] else []) + WithScore(s[1..], v)
  }

  function Items<T>(s: seq<Scored<T>>): (r: seq<T>)
    ensures |r| == |s| && forall i :: 0 <= i < |s| ==> r[i] == s[i].item
  {
    seq(|s|, i requires 0 <= i < |s| => s[i].item)
  }

  /** Every item paired with its score under `f`, in input order. */
  function ScoreWith<T>(items: seq<T>, f: T -> int): (r: seq<Scored<T>>)
    ensures |r| == |items|
    decreases |items|
  {
    if items == [] then []
    else ScoreWith(items[..|items| - 1], f) + [Scored(items[|items| - 1], f(items[|items| - 1]))]
  }

  /** Scoring one more item appends it with its score. */
  lemma ScoreWithSnoc<T>(items: seq<T>, f: T -> int, i: nat)
    requires i < |items|
    ensures ScoreWith(items[..i + 1], f) == ScoreWith(items[..i], f) + [Scored(items[i], f(items[i]))]
  {
    assert items[..i + 1][..i] == items[..i];
  }

  /** Position `k` holds item `k` with its score. */
  lemma {:induction false} ScoreWithAt<T>(items: seq<T>, f: T -> int, k: nat)
    requires k < |items|
    ensures ScoreWith(items, f)[k] == Scored(items[k], f(items[k]))
    decreases |items|
  {
    if k < |items| - 1 {
      ScoreWithAt(items[..|items| - 1], f, k);
    }
  }

  /** Places `x` in front of the first element that does not outscore it. */
  function Insert<T(==)>(x: Scored<T>, s: seq<Scored<T>>): (r: seq<Scored<T>>)
    ensures |r| == |s| + 1
    ensures multiset(r) == multiset(s) + multiset{x}
    decreases |s|
  {
    if s == [] || x.score >= s[0].score then [x] + s
    else
      assert s == [s[0]] + s[1..];
      [s[0]] + Insert(x, s[1..])
  }

  lemma {:induction false} InsertSorted<T>(x: Scored<T>, s: seq<Scored<T>>)
    requires SortedDesc(s)
    ensures SortedDesc(Insert(x, s))
    decreases |s|
  {
    if s != [] && x.score < s[0].score {
      var t := Insert(x, s[1..]);
      InsertSorted(x, s[1..]);
      assert Insert(x, s) == [s[0]] + t;
      forall j | 0 <= j < |t| ensures s[0].score >= t[j].score {
        assert t[j] in multiset(t);
        if t[j] != x {
          assert t[j] in multiset(s[1..]);
          var k :| 0 <= k < |s[1..]| && s[1..][k] == t[j];
          assert s[k + 1] == t[j];
        }
      }
    }
  }

  lemma {:induction false} InsertWithScore<T>(x: Scored<T>, s: seq<Scored<T>>, v: int)
    ensures WithScore(Insert(x, s), v) == if x.score == v then [x] + WithScore(s, v) else WithScore(s, v)
    decreases |s|
  {
    if s == [] || x.score >= s[0].score {
      assert ([x] + s)[1..] == s;
    } else {
      var t := Insert(x, s[1..]);
      InsertWithScore(x, s[1..], v);
      assert ([s[0]] + t)[1..] == t;
    }
  }

  /** Stable insertion sort by descending score. */
  function SortDesc<T(==)>(s: seq<Scored<T>>): (r: seq<Scored<T>>)
    ensures |r| == |s|
    ensures multiset(r) == multiset(s)
    decreases |s|
  {
    if s == [] then []
    else
      assert s == [s[0]] + s[1..];
      Insert(s[0], SortDesc(s[1..]))
  }

  /** The sort orders by score, and elements of equal score keep their input order. */
  lemma {:induction false} SortDescStable<T>(s: seq<Scored<T>>)
    ensures SortedDesc(SortDesc(s))
    ensures forall v :: WithScore(SortDesc(s), v) == WithScore(s, v)
    decreases |s|
  {
    if s != [] {
      SortDescStable(s[1..]);
      InsertSorted(s[0], SortDesc(s[1..]));
      forall v ensures WithScore(SortDesc(s), v) == WithScore(s, v) {
        InsertWithScore(s[0], SortDesc(s[1..]), v);
      }
    }
  }

  /** Keeping a prefix keeps a prefix of every score class. */
  lemma {:induction false} WithScorePrefix<T>(s: seq<Scored<T>>, k: nat, v: int)
    requires k <= |s|
    ensures WithScore(s[..k], v) <= WithScore(s, v)
    decreases k
  {
    if k > 0 {
      assert s[..k][1..] == s[1..][..k - 1];
      WithScorePrefix(s[1..], k - 1, v);
    }
  }

  function Min(a: int, b: int): int {
    if a <= b then a else b
  }

  /** In a sorted sequence, nothing after position `k` outscores anything before it. */
  lemma PrefixOutscoresRest<T>(a: seq<Scored<T>>, k: nat)
    requires SortedDesc(a) && k <= |a|
    ensures multiset(a[..k]) <= multiset(a)
    ensures forall x :: x in multiset(a) - multiset(a[..k]) ==>
      forall i :: 0 <= i < k ==> a[i].score >= x.score
  {
    var r, rest := a[..k], a[k..];
    assert a == r + rest;
    assert multiset(a) == multiset(r) + multiset(rest);
    forall x | x in multiset(a) - multiset(r)
      ensures forall i :: 0 <= i < k ==> a[i].score >= x.score
    {
      assert x in multiset(rest);
      var j :| 0 <= j < |rest| && rest[j] == x;
      assert a[k + j] == x;
    }
  }

  /** The first `k` elements of a stable descending sort of `s`: sorted, drawn from `s`,
      outscoring everything left out, and a prefix of every score class of `s`. */
  lemma SortedPrefix<T>(s: seq<Scored<T>>, sorted: seq<Scored<T>>, k: nat)
    requires SortedDesc(sorted) && multiset(sorted) == multiset(s) && k <= |sorted|
    requires forall v :: WithScore(sorted, v) == WithScore(s, v)
    ensures SortedDesc(sorted[..k])
    ensures multiset(sorted[..k]) <= multiset(s)
    ensures forall x :: x in multiset(s) - multiset(sorted[..k]) ==>
      forall i :: 0 <= i < k ==> sorted[..k][i].score >= x.score
    ensures forall v :: WithScore(sorted[..k], v) <= WithScore(s, v)
  {
    PrefixOutscoresRest(sorted, k);
    forall v ensures WithScore(sorted[..k], v) <= WithScore(s, v) {
      WithScorePrefix(sorted, k, v);
    }
  }

  /** `sorted(...).limit(n)`: the first `n` elements of the stable descending sort. */
  function TopN<T(==)>(s: seq<Scored<T>>, n: nat): (r: seq<Scored<T>>)
    ensures |r| == Min(n, |s|)
    ensures SortedDesc(r)
    ensures multiset(r) <= multiset(s)
    ensures forall x :: x in multiset(s) - multiset(r) ==>
      forall i :: 0 <= i < |r| ==> r[i].score >= x.score
    ensures forall v :: WithScore(r, v) <= WithScore(s, v)
  {
    SortDescStable(s);
    SortedPrefix(s, SortDesc(s), Min(n, |s|));
    SortDesc(s)[..Min(n, |s|)]
  }

  // ---------------------------------------------------------------- ranking items by a score function

  /** Every pair drawn from the scored items is an item with its own score. */
  lemma DrawnFromScored<T>(items: seq<T>, f: T -> int, t: seq<Scored<T>>)
    requires multiset(t) <= multiset(ScoreWith(items, f))
    ensures forall i :: 0 <= i < |t| ==> t[i].item in items && t[i].score == f(t[i].item)
  {
    var scored := ScoreWith(items, f);
    forall i | 0 <= i < |t| ensures t[i].item in items && t[i].score == f(t[i].item) {
      assert t[i] in multiset(t);
      var j :| 0 <= j < |scored| && scored[j] == t[i];
      ScoreWithAt(items, f, j);
    }
  }

  /** An item none of whose pairs was drawn is outscored by every drawn pair. */
  lemma UndrawnOutscored<T>(items: seq<T>, f: T -> int, t: seq<Scored<T>>)
    requires forall x :: x in multiset(ScoreWith(items, f)) - multiset(t) ==>
      forall i :: 0 <= i < |t| ==> t[i].score >= x.score
    ensures forall k :: 0 <= k < |items| && items[k] !in Items(t) ==>
      forall i :: 0 <= i < |t| ==> t[i].score >= f(items[k])
  {
    var scored := ScoreWith(items, f);
    forall k | 0 <= k < |items| && items[k] !in Items(t)
      ensures forall i :: 0 <= i < |t| ==> t[i].score >= f(items[k])
    {
      ScoreWithAt(items, f, k);
      assert scored[k] in multiset(scored);
      NotDrawn(t, scored[k]);
    }
  }

  /** A pair whose item is not among the drawn items was not drawn. */
  lemma NotDrawn<T>(t: seq<Scored<T>>, x: Scored<T>)
    requires x.item !in Items(t)
    ensures x !in multiset(t)
  {
    forall i | 0 <= i < |t| ensures t[i] != x {
      assert Items(t)[i] == t[i].item;
    }
  }

  /** The `n` best items under `f`: `min(n, |items|)` of the input's items, by
      non-increasing score, and no item left out outscores one kept. */
  lemma RankedBy<T>(items: seq<T>, f: T -> int, n: nat)
    ensures var r := Items(TopN(ScoreWith(items, f), n));
      && |r| == Min(n, |items|)
      && (forall i :: 0 <= i < |r| ==> r[i] in items)
      && (forall i, j :: 0 <= i < j < |r| ==> f(r[i]) >= f(r[j]))
      && (forall k :: 0 <= k < |items| && items[k] !in r ==>
            forall i :: 0 <= i < |r| ==> f(r[i]) >= f(items[k]))
  {
    var t := TopN(ScoreWith(items, f), n);
    var r := Items(t);
    DrawnFromScored(items, f, t);
    UndrawnOutscored(items, f, t);
    forall i | 0 <= i < |r| ensures r[i] in items && f(r[i]) == t[i].score {
      assert r[i] == t[i].item;
    }
    forall i, j | 0 <= i < j < |r| ensures f(r[i]) >= f(r[j]) {
      assert t[i].score >= t[j].score;
    }
  }

  lemma MultisetDuplicate<T>(s: seq<T>, i: nat, j: nat)
    requires i < j < |s| && s[i] == s[j]
    ensures multiset(s)[s[i]] >= 2
  {
    assert s == s[..j] + s[j..];
    assert s[i] in s[..j];
    assert s[j] in s[j..];
  }

  lemma {:induction false} MultisetDistinct<T>(s: seq<T>, x: T)
    requires forall i, j :: 0 <= i < j < |s| ==> s[i] != s[j]
    ensures multiset(s)[x] <= 1
    decreases |s|
  {
    if s != [] {
      assert s == [s[0]] + s[1..];
      MultisetDistinct(s[1..], x);
      if x == s[0] {
        assert x !in s[1..];
      }
    }
  }

  /** A sub-multiset of a sequence without repetitions has no repetitions. */
  lemma SubMultisetDistinct<T>(s: seq<T>, t: seq<T>)
    requires forall i, j :: 0 <= i < j < |s| ==> s[i] != s[j]
    requires multiset(t) <= multiset(s)
    ensures forall i, j :: 0 <= i < j < |t| ==> t[i] != t[j]
  {
    forall i, j | 0 <= i < j < |t| ensures t[i] != t[j] {
      if t[i] == t[j] {
        MultisetDuplicate(t, i, j);
        MultisetDistinct(s, t[i]);
      }
    }
  }

  /** Scoring distinct items gives distinct pairs. */
  lemma ScoredDistinct<T>(items: seq<T>, f: T -> int)
    requires forall i, j :: 0 <= i < j < |items| ==> items[i] != items[j]
    ensures var scored := ScoreWith(items, f);
      forall i, j :: 0 <= i < j < |scored| ==> scored[i] != scored[j]
  {
    var scored := ScoreWith(items, f);
    forall i, j | 0 <= i < j < |scored| ensures scored[i] != scored[j] {
      ScoreWithAt(items, f, i);
      ScoreWithAt(items, f, j);
    }
  }

  /** Ranking items that are pairwise distinct keeps them distinct. */
  lemma RankedDistinct<T>(items: seq<T>, f: T -> int, n: nat)
    requires forall i, j :: 0 <= i < j < |items| ==> items[i] != items[j]
    ensures var r := Items(TopN(ScoreWith(items, f), n));
      forall i, j :: 0 <= i < j < |r| ==> r[i] != r[j]
  {
    var scored := ScoreWith(items, f);
    var t := TopN(scored, n);
    DrawnFromScored(items, f, t);
    ScoredDistinct(items, f);
    SubMultisetDistinct(scored, t);
  }
}
