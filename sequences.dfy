/**
 * Small facts about sequences, each stated once so that a proof can cite it instead of
 * asserting the equality in the middle of a larger argument.
 */
module Sequences {

  /** Appending in two steps is appending the concatenation once. */
  lemma AppendAssoc<T>(a: seq<T>, b: seq<T>, c: seq<T>)
    ensures a + b + c == a + (b + c)
  {
  }

  /** The eight-part form of `AppendAssoc`: a head followed by seven parts appended one by
      one is the head followed by the seven parts joined. */
  lemma AppendAssoc8<T>(a: seq<T>, b: seq<T>, c: seq<T>, d: seq<T>, e: seq<T>, f: seq<T>, g: seq<T>, h: seq<T>)
    ensures a + b + c + d + e + f + g + h == a + (b + c + d + e + f + g + h)
  {
    AppendAssoc(a, b, c);
    AppendAssoc(a, b + c, d);
    AppendAssoc(a, b + c + d, e);
    AppendAssoc(a, b + c + d + e, f);
    AppendAssoc(a, b + c + d + e + f, g);
    AppendAssoc(a, b + c + d + e + f + g, h);
  }

  lemma AppendEmpty<T>(a: seq<T>)
    ensures a + [] == a && [] + a == a
  {
  }

  /** Moving the head of `us` to the end of `xs` leaves the concatenation as it was. */
  lemma ConsShift<T>(xs: seq<T>, us: seq<T>)
    requires us != []
    ensures (xs + [us[0]]) + us[1..] == xs + us
  {
  }

  /** A prefix one longer is the prefix and the next element. */
  lemma TakeSnoc<T>(s: seq<T>, i: nat)
    requires i < |s|
    ensures s[..i + 1] == s[..i] + [s[i]]
  {
  }

  /** Dropping the element just appended gives the sequence back. */
  lemma DropSnoc<T>(s: seq<T>, x: T)
    ensures (s + [x])[..|s|] == s && (s + [x])[|s|] == x
  {
  }

  lemma TakeAll<T>(s: seq<T>)
    ensures s[..|s|] == s
  {
  }

  /** A non-empty prefix is the head and a prefix of the tail. */
  lemma TakeCons<T>(s: seq<T>, c: nat)
    requires 1 <= c <= |s|
    ensures s[..c] == [s[0]] + s[1..][..c - 1]
  {
  }

  /** The last element and the rest of a non-empty sequence. */
  lemma SplitLast<T>(s: seq<T>)
    requires s != []
    ensures s == s[..|s| - 1] + [s[|s| - 1]]
  {
  }

  lemma TakePrefix<T>(s: seq<T>, c: nat)
    requires c <= |s|
    ensures s[..c] <= s
  {
  }

  /** A common head keeps one sequence a prefix of another. */
  lemma PrefixAppend<T>(a: seq<T>, x: seq<T>, y: seq<T>)
    requires x <= y
    ensures a + x <= a + y
  {
    assert a + y == (a + x) + y[|x|..];
  }

  /** A prefix of `ts` followed by a prefix of `ys` is a prefix of `ts + ys`, when the second
      part is empty unless the first took all of `ts`. */
  lemma PrefixThenRest<T>(ts: seq<T>, c: nat, xs: seq<T>, ys: seq<T>)
    requires c <= |ts| && xs <= ys
    requires c < |ts| ==> xs == []
    ensures ts[..c] + xs <= ts + ys
  {
    if c == |ts| {
      assert ts[..c] == ts;
      PrefixAppend(ts, xs, ys);
    } else {
      assert ts[..c] + xs == ts[..c];
    }
  }

  lemma PrefixOfAppend<T>(a: seq<T>, b: seq<T>)
    ensures a <= a + b
  {
  }

  lemma SuffixOfAppend<T>(a: seq<T>, b: seq<T>)
    ensures |a + b| >= |b| && (a + b)[|a + b| - |b|..] == b
  {
  }

  /** A prefix of the middle part, after the same head, is a prefix of the whole. */
  lemma PrefixInside<T>(h: seq<T>, e: seq<T>, body: seq<T>, t: seq<T>)
    requires e <= body
    ensures h + e <= h + body + t
  {
    assert h + body + t == (h + e) + (body[|e|..] + t);
  }
}
