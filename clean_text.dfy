/**
 * The Summarizer's text cleaning (`cleanText`), five `replaceAll` passes in order:
 * URLs `https?://\S+` become a space, mentions `@\w+` become a space, every `#` is
 * deleted, every character outside `[a-zA-Z0-9\s ]` becomes a space, and finally
 * `\s+` runs collapse to one space and the result is trimmed.
 * Each pass is written as the left-to-right, non-overlapping scan `replaceAll` does.
 */
module CleanText {
  import opened Text

  // ---------------------------------------------------------------- https?://\S+

  /** Length of the run of `\S` characters at the start of `s`. */
  function NonSpaceRun(s: string): (n: nat)
    ensures n <= |s|
    ensures forall i :: 0 <= i < n ==> !IsRegexSpace(s[i])
    ensures n < |s| ==> IsRegexSpace(s[n])
    decreases |s|
  {
    if |s| > 0 && !IsRegexSpace(s[0]) then 1 + NonSpaceRun(s[1..]) else 0
  }

  /** Length of the match of `https?://\S+` at the start of `s`, or 0 when there is none.
      `\S+` is greedy, so a match runs to the next `\s` or the end. */
  function UrlMatch(s: string): (n: nat)
    ensures n <= |s|
    ensures n > 0 ==> |s| > 7 && (s[4] == ':' || s[5] == ':')
    ensures n > 0 ==> "http://" <= s || "https://" <= s
    ensures n > 0 ==> n == |s| || IsRegexSpace(s[n])
    ensures "http://" <= s && |s| > 7 && !IsRegexSpace(s[7]) ==>
      n > 7 && forall i :: 7 <= i < n ==> !IsRegexSpace(s[i])
    ensures "https://" <= s && |s| > 8 && !IsRegexSpace(s[8]) ==>
      n > 8 && forall i :: 8 <= i < n ==> !IsRegexSpace(s[i])
  {
    if "http://" <= s && |s| > 7 && !IsRegexSpace(s[7]) then 7 + NonSpaceRun(s[7..])
    else if "https://" <= s && |s| > 8 && !IsRegexSpace(s[8]) then 8 + NonSpaceRun(s[8..])
    else 0
  }

  /** `s.replaceAll("https?://\\S+", " ")`. */
  function StripUrls(s: string): string
    decreases |s|
  {
    if s == [] then []
    else if UrlMatch(s) > 0 then " " + StripUrls(s[UrlMatch(s)..])
    else [s[0]] + StripUrls(s[1..])
  }

  // ---------------------------------------------------------------- @\w+

  /** Length of the run of `\w` characters at the start of `s`. */
  function WordRun(s: string): (n: nat)
    ensures n <= |s|
    ensures forall i :: 0 <= i < n ==> IsWordChar(s[i])
    ensures n < |s| ==> !IsWordChar(s[n])
    decreases |s|
  {
    if |s| > 0 && IsWordChar(s[0]) then 1 + WordRun(s[1..]) else 0
  }

  /** Length of the match of `@\w+` at the start of `s`, or 0 when there is none. */
  function MentionMatch(s: string): (n: nat)
    ensures n <= |s|
    ensures n > 0 ==> s[0] == '@'
    ensures n > 0 ==> n >= 2 && (forall i :: 1 <= i < n ==> IsWordChar(s[i])) && (n == |s| || !IsWordChar(s[n]))
    ensures n == 0 <==> !(|s| > 1 && s[0] == '@' && IsWordChar(s[1]))
  {
    if |s| > 1 && s[0] == '@' && IsWordChar(s[1]) then 1 + WordRun(s[1..]) else 0
  }

  /** `s.replaceAll("@\\w+", " ")`. */
  function StripMentions(s: string): string
    decreases |s|
  {
    if s == [] then []
    else if MentionMatch(s) > 0 then " " + StripMentions(s[MentionMatch(s)..])
    else [s[0]] + StripMentions(s[1..])
  }

  // ---------------------------------------------------------------- #, [^a-zA-Z0-9\s ]

  /** `s.replaceAll("#", "")`. */
  function DropHashes(s: string): string
    decreases |s|
  {
    if s == [] then []
    else (if s[0] == '#' then "" else [s[0]]) + DropHashes(s[1..])
  }

  /** `s.replaceAll("[^a-zA-Z0-9\\s ]", " ")`. */
  function BlankOthers(s: string): string {
    seq(|s|, i requires 0 <= i < |s| => if IsAsciiAlnum(s[i]) || IsRegexSpace(s[i]) then s[i] else ' ')
  }

  // ---------------------------------------------------------------- cleanText

  /** Only ASCII letters, digits and single spaces, with no space at either end. */
  predicate IsClean(s: string) {
    && (forall i :: 0 <= i < |s| ==> IsAsciiAlnum(s[i]) || s[i] == ' ')
    && (forall i :: 0 <= i < |s| - 1 ==> !(s[i] == ' ' && s[i + 1] == ' '))
    && (s == [] || (s[0] != ' ' && s[|s| - 1] != ' '))
  }

  /** The four replacement passes before whitespace is normalised. */
  function Replaced(text: string): string {
    BlankOthers(DropHashes(StripMentions(StripUrls(text))))
  }

  /** `cleanText`: the token-friendly form of a post's text. */
  function Clean(text: string): (r: string)
    ensures IsClean(r)
  {
    var b := Replaced(text);
    assert forall i :: 0 <= i < |b| ==> IsAsciiAlnum(b[i]) || IsRegexSpace(b[i]);
    CollapsedIsSpacedAlnum(b);
    TrimOfSpacedAlnum(CollapseSpaces(b));
    Trim(CollapseSpaces(b))
  }

  /** Collapsing a text of letters, digits and `\s` leaves letters, digits and single spaces. */
  lemma CollapsedIsSpacedAlnum(b: string)
    requires forall i :: 0 <= i < |b| ==> IsAsciiAlnum(b[i]) || IsRegexSpace(b[i])
    ensures SingleSpaced(CollapseSpaces(b))
    ensures forall i :: 0 <= i < |CollapseSpaces(b)| ==>
      IsAsciiAlnum(CollapseSpaces(b)[i]) || CollapseSpaces(b)[i] == ' '
  {
    var c := CollapseSpaces(b);
    CollapseSpacesShape(b);
    forall i | 0 <= i < |c| ensures IsAsciiAlnum(c[i]) || c[i] == ' ' {
      if c[i] != ' ' {
        var j :| 0 <= j < |b| && b[j] == c[i];
      }
    }
  }

  /** Trimming a single-spaced text of letters, digits and spaces makes it clean. */
  lemma TrimOfSpacedAlnum(c: string)
    requires SingleSpaced(c)
    requires forall i :: 0 <= i < |c| ==> IsAsciiAlnum(c[i]) || c[i] == ' '
    ensures IsClean(Trim(c))
  {
    TrimSlice(c);
    var k := TrimOffset(c);
    SliceSpacedAlnum(c, k, k + |Trim(c)|);
  }

  /** A slice of a single-spaced text of letters, digits and spaces is one too. */
  lemma SliceSpacedAlnum(c: string, lo: nat, hi: nat)
    requires lo <= hi <= |c|
    requires SingleSpaced(c)
    requires forall i :: 0 <= i < |c| ==> IsAsciiAlnum(c[i]) || c[i] == ' '
    ensures forall i :: 0 <= i < hi - lo ==> IsAsciiAlnum(c[lo..hi][i]) || c[lo..hi][i] == ' '
    ensures forall i :: 0 <= i < hi - lo - 1 ==> !(c[lo..hi][i] == ' ' && c[lo..hi][i + 1] == ' ')
  {
    var r := c[lo..hi];
    forall i | 0 <= i < hi - lo ensures IsAsciiAlnum(r[i]) || r[i] == ' ' {
      assert r[i] == c[lo + i];
    }
    forall i | 0 <= i < hi - lo - 1 ensures !(r[i] == ' ' && r[i + 1] == ' ') {
      assert r[i] == c[lo + i] && r[i + 1] == c[lo + i + 1];
    }
  }

  // ---------------------------------------------------------------- idempotence

  lemma {:induction false} StripUrlsIdentity(s: string)
    requires ':' !in s
    ensures StripUrls(s) == s
    decreases |s|
  {
    if s != [] {
      assert UrlMatch(s) == 0;
      StripUrlsIdentity(s[1..]);
    }
  }

  lemma {:induction false} StripMentionsIdentity(s: string)
    requires '@' !in s
    ensures StripMentions(s) == s
    decreases |s|
  {
    if s != [] {
      assert MentionMatch(s) == 0;
      StripMentionsIdentity(s[1..]);
    }
  }

  lemma {:induction false} DropHashesIdentity(s: string)
    requires '#' !in s
    ensures DropHashes(s) == s
    decreases |s|
  {
    if s != [] {
      assert s[0] in s;
      DropHashesIdentity(s[1..]);
    }
  }

  /** A clean text has none of the characters the first three passes look for. */
  lemma CleanHasNoMarks(s: string)
    requires IsClean(s)
    ensures ':' !in s && '@' !in s && '#' !in s
  {
    forall i | 0 <= i < |s| ensures s[i] != ':' && s[i] != '@' && s[i] != '#' {
      assert IsAsciiAlnum(s[i]) || s[i] == ' ';
    }
  }

  lemma BlankOthersIdentity(s: string)
    requires forall i :: 0 <= i < |s| ==> IsAsciiAlnum(s[i]) || s[i] == ' '
    ensures BlankOthers(s) == s
  {
  }

  /** The four replacement passes leave a clean text as it is. */
  lemma ReplacedIdentity(s: string)
    requires IsClean(s)
    ensures Replaced(s) == s
  {
    CleanHasNoMarks(s);
    StripUrlsIdentity(s);
    StripMentionsIdentity(s);
    DropHashesIdentity(s);
    BlankOthersIdentity(s);
  }

  /** Every pass leaves a clean text as it is. */
  lemma CleanIsFixedPoint(s: string)
    requires IsClean(s)
    ensures Clean(s) == s
  {
    ReplacedIdentity(s);
    assert SingleSpaced(s);
    CollapseSpacesIdentity(s);
    TrimIdentity(s);
  }

  /** Cleaning a cleaned text changes nothing. */
  lemma CleanIdempotent(text: string)
    ensures Clean(Clean(text)) == Clean(text)
  {
    var s := Clean(text);
    CleanIsFixedPoint(s);
  }

  // ---------------------------------------------------------------- texts without words

  /** None of the characters is an ASCII letter or digit. */
  predicate NoAlnum(s: string) {
    forall i :: 0 <= i < |s| ==> !IsAsciiAlnum(s[i])
  }

  lemma {:induction false} StripUrlsNoAlnum(s: string)
    requires NoAlnum(s)
    ensures NoAlnum(StripUrls(s))
    decreases |s|
  {
    if s != [] {
      assert UrlMatch(s) == 0 by { assert !IsAsciiAlnum(s[0]); }
      StripUrlsNoAlnum(s[1..]);
    }
  }

  lemma {:induction false} StripMentionsNoAlnum(s: string)
    requires NoAlnum(s)
    ensures NoAlnum(StripMentions(s))
    decreases |s|
  {
    if s != [] {
      var n := MentionMatch(s);
      if n > 0 {
        assert forall i :: 0 <= i < |s[n..]| ==> s[n..][i] == s[n + i];
        StripMentionsNoAlnum(s[n..]);
      } else {
        StripMentionsNoAlnum(s[1..]);
      }
    }
  }

  lemma {:induction false} DropHashesNoAlnum(s: string)
    requires NoAlnum(s)
    ensures NoAlnum(DropHashes(s))
    decreases |s|
  {
    if s != [] {
      DropHashesNoAlnum(s[1..]);
    }
  }

  /** A text with no ASCII letter or digit in it cleans to the empty text. Examples are
      "", "   ", "#!?" and "@_ :-)". Every pass keeps the text free of letters and
      digits, and the only clean text without them is the empty one. */
  lemma CleanWithoutAlnum(text: string)
    requires NoAlnum(text)
    ensures Clean(text) == ""
  {
    StripUrlsNoAlnum(text);
    StripMentionsNoAlnum(StripUrls(text));
    DropHashesNoAlnum(StripMentions(StripUrls(text)));
    var d := Replaced(text);
    assert NoAlnum(d);
    CollapseSpacesShape(d);
    var e := CollapseSpaces(d);
    forall i | 0 <= i < |e| ensures !IsAsciiAlnum(e[i]) {
      if e[i] != ' ' {
        var j :| 0 <= j < |d| && d[j] == e[i];
      }
    }
    TrimSlice(e);
    var r := Trim(e);
    forall i | 0 <= i < |r| ensures !IsAsciiAlnum(r[i]) {
      assert r[i] == e[TrimOffset(e) + i];
    }
    assert r == Clean(text);
    assert IsClean(r);
    assert r == [];
  }
}
