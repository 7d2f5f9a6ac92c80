/**
 * The parts of `java.lang.String` the core relies on, over ASCII.
 * Java's regular-expression class `\s`, `String.trim`, `String.isBlank`,
 * `String.split`, `String.join`, ASCII lower-casing and the decimal
 * conversions of `Integer`.
 */
module Text {
  import opened Wrappers

  /** `\s` in a Java regular expression: space, tab, newline, vertical tab, form feed, carriage return. */
  predicate IsRegexSpace(c: char) {
    c == ' ' || ('\t' <= c <= '\r')
  }

  /** `Character.isWhitespace` restricted to ASCII, which decides `String.isBlank`. */
  predicate IsJavaWhitespace(c: char) {
    ('\t' <= c <= '\r') || ('\U{001C}' <= c <= ' ')
  }

  /** `String.trim` removes characters whose code is at most that of the space. */
  predicate IsTrimmable(c: char) {
    c <= ' '
  }

  predicate IsAsciiLetter(c: char) {
    ('a' <= c <= 'z') || ('A' <= c <= 'Z')
  }

  predicate IsAsciiDigit(c: char) {
    '0' <= c <= '9'
  }

  /** The class `[a-zA-Z0-9]`. */
  predicate IsAsciiAlnum(c: char) {
    IsAsciiLetter(c) || IsAsciiDigit(c)
  }

  /** `\w` in a Java regular expression: `[a-zA-Z_0-9]`. */
  predicate IsWordChar(c: char) {
    IsAsciiAlnum(c) || c == '_'
  }

  /** `String.isBlank`: empty or only white space. */
  predicate IsBlank(s: string) {
    forall i :: 0 <= i < |s| ==> IsJavaWhitespace(s[i])
  }

  // ---------------------------------------------------------------- trim

  /** Drops the leading characters `String.trim` removes. */
  function TrimStart(s: string): (r: string)
    ensures |r| <= |s| && r == s[|s| - |r|..]
    ensures forall i :: 0 <= i < |s| - |r| ==> IsTrimmable(s[i])
    ensures r == [] || !IsTrimmable(r[0])
    decreases |s|
  {
    if |s| > 0 && IsTrimmable(s[0]) then TrimStart(s[1..]) else s
  }

  /** Drops the trailing characters `String.trim` removes. */
  function TrimEnd(s: string): (r: string)
    ensures |r| <= |s| && r == s[..|r|]
    ensures forall i :: |r| <= i < |s| ==> IsTrimmable(s[i])
    ensures r == [] || !IsTrimmable(r[|r| - 1])
    decreases |s|
  {
    if |s| > 0 && IsTrimmable(s[|s| - 1]) then TrimEnd(s[..|s| - 1]) else s
  }

  /** `String.trim`. */
  function Trim(s: string): string {
    TrimEnd(TrimStart(s))
  }

  /** Where the trimmed string starts inside the original. */
  function TrimOffset(s: string): (k: nat)
    ensures k <= |s|
  {
    |s| - |TrimStart(s)|
  }

  /** `trim` returns a slice of its input that neither starts nor ends with a trimmable
      character, and everything it cut off was trimmable. */
  lemma TrimSlice(s: string)
    ensures TrimOffset(s) + |Trim(s)| <= |s|
    ensures Trim(s) == s[TrimOffset(s)..TrimOffset(s) + |Trim(s)|]
    ensures forall i :: 0 <= i < TrimOffset(s) ==> IsTrimmable(s[i])
    ensures forall i :: TrimOffset(s) + |Trim(s)| <= i < |s| ==> IsTrimmable(s[i])
    ensures Trim(s) == [] || (!IsTrimmable(Trim(s)[0]) && !IsTrimmable(Trim(s)[|Trim(s)| - 1]))
  {
    var t := TrimStart(s);
    var r := TrimEnd(t);
    if t != [] {
      assert !IsTrimmable(t[0]);
      assert r != [];
      assert r[0] == t[0];
    }
    assert t == s[TrimOffset(s)..];
  }

  /** A string that already has no trimmable ends is its own trim. */
  lemma TrimIdentity(s: string)
    requires s == [] || (!IsTrimmable(s[0]) && !IsTrimmable(s[|s| - 1]))
    ensures Trim(s) == s
  {
    assert TrimStart(s) == s;
  }

  /** Trim keeps a prefix whose first and last characters are not trimmable. */
  lemma TrimKeepsPrefix(p: string, s: string)
    requires p <= s && p != []
    requires !IsTrimmable(p[0]) && !IsTrimmable(p[|p| - 1])
    ensures p <= Trim(s)
  {
    assert TrimStart(s) == s;
    var r := TrimEnd(s);
    assert |r| >= |p| by {
      assert |p| - 1 < |s| && !IsTrimmable(s[|p| - 1]);
    }
  }

  /** Trimming is idempotent. */
  lemma TrimIdempotent(s: string)
    ensures Trim(Trim(s)) == Trim(s)
  {
    TrimSlice(s);
    TrimIdentity(Trim(s));
  }

  // ---------------------------------------------------------------- whitespace runs

  /** Length of the run of `\s` characters at the start of `s`. */
  function SpaceRun(s: string): (n: nat)
    ensures n <= |s|
    ensures forall i :: 0 <= i < n ==> IsRegexSpace(s[i])
    ensures n < |s| ==> !IsRegexSpace(s[n])
    decreases |s|
  {
    if |s| > 0 && IsRegexSpace(s[0]) then 1 + SpaceRun(s[1..]) else 0
  }

  /** `s.replaceAll("\\s+", " ")`: every maximal run of `\s` becomes one space. */
  function CollapseSpaces(s: string): string
    decreases |s|
  {
    if s == [] then []
    else if IsRegexSpace(s[0]) then " " + CollapseSpaces(s[SpaceRun(s)..])
    else [s[0]] + CollapseSpaces(s[1..])
  }

  /** No `\s` character other than the space, and no two spaces in a row. */
  predicate SingleSpaced(s: string) {
    (forall i :: 0 <= i < |s| ==> IsRegexSpace(s[i]) ==> s[i] == ' ')
    && (forall i :: 0 <= i < |s| - 1 ==> !(s[i] == ' ' && s[i + 1] == ' '))
  }

  /** The collapsed string is single-spaced, keeps every non-`\s` character in
      order, and starts with a space exactly when the input starts with `\s`. */
  lemma {:induction false} CollapseSpacesShape(s: string)
    ensures SingleSpaced(CollapseSpaces(s))
    ensures forall i :: 0 <= i < |CollapseSpaces(s)| ==>
      CollapseSpaces(s)[i] == ' ' || CollapseSpaces(s)[i] in s
    ensures |CollapseSpaces(s)| <= |s|
    ensures s == [] <==> CollapseSpaces(s) == []
    ensures s != [] ==> (CollapseSpaces(s)[0] == ' ' <==> IsRegexSpace(s[0]))
    ensures s != [] && !IsRegexSpace(s[0]) ==> CollapseSpaces(s)[0] == s[0]
    decreases |s|
  {
    if s == [] {
    } else if IsRegexSpace(s[0]) {
      var n := SpaceRun(s);
      var rest := s[n..];
      CollapseSpacesShape(rest);
      var c := CollapseSpaces(rest);
      assert CollapseSpaces(s) == " " + c;
      assert rest != [] ==> !IsRegexSpace(rest[0]);
      forall i | 0 <= i < |c| && c[i] != ' ' ensures c[i] in s {
        assert c[i] in rest;
      }
    } else {
      var rest := s[1..];
      CollapseSpacesShape(rest);
      var c := CollapseSpaces(rest);
      assert CollapseSpaces(s) == [s[0]] + c;
      forall i | 0 <= i < |c| && c[i] != ' ' ensures c[i] in s {
        assert c[i] in rest;
      }
    }
  }

  /** A single-spaced string is unchanged by collapsing. */
  lemma {:induction false} CollapseSpacesIdentity(s: string)
    requires SingleSpaced(s)
    ensures CollapseSpaces(s) == s
    decreases |s|
  {
    if s != [] {
      if IsRegexSpace(s[0]) {
        assert SpaceRun(s) == 1 by {
          if |s| > 1 { assert s[1] != ' '; }
        }
      }
      assert SingleSpaced(s[1..]) by {
        forall i | 0 <= i < |s[1..]| - 1 ensures !(s[1..][i] == ' ' && s[1..][i + 1] == ' ') {
          assert s[1..][i] == s[i + 1] && s[1..][i + 1] == s[i + 2];
        }
      }
      CollapseSpacesIdentity(s[1..]);
    }
  }

  /** `s.replaceAll("\\s+", " ").trim()`: the whitespace normalisation of quoted text. */
  function CollapseAndTrim(s: string): string {
    Trim(CollapseSpaces(s))
  }

  // ---------------------------------------------------------------- lower case

  /** `Character.toLowerCase` on ASCII; every other character is kept. */
  function LowerChar(c: char): char {
    if 'A' <= c <= 'Z' then (c as int + 32) as char else c
  }

  /** `String.toLowerCase` restricted to ASCII letters. */
  function ToLower(s: string): string {
    seq(|s|, i requires 0 <= i < |s| => LowerChar(s[i]))
  }

  /** Lower-casing twice is lower-casing once. */
  lemma ToLowerIdempotent(s: string)
    ensures ToLower(ToLower(s)) == ToLower(s)
  {
  }

  /** Lower-casing neither makes nor unmakes a trimmable character. */
  lemma LowerKeepsTrimmable(c: char)
    ensures IsTrimmable(LowerChar(c)) <==> IsTrimmable(c)
  {
  }

  /** Trimming the front commutes with lower-casing. */
  lemma {:induction false} TrimStartLower(s: string)
    ensures TrimStart(ToLower(s)) == ToLower(TrimStart(s))
    decreases |s|
  {
    if |s| > 0 {
      LowerKeepsTrimmable(s[0]);
      assert ToLower(s)[1..] == ToLower(s[1..]);
      if IsTrimmable(s[0]) {
        TrimStartLower(s[1..]);
      }
    }
  }

  /** Trimming the back commutes with lower-casing. */
  lemma {:induction false} TrimEndLower(s: string)
    ensures TrimEnd(ToLower(s)) == ToLower(TrimEnd(s))
    decreases |s|
  {
    if |s| > 0 {
      LowerKeepsTrimmable(s[|s| - 1]);
      assert ToLower(s)[..|s| - 1] == ToLower(s[..|s| - 1]);
      if IsTrimmable(s[|s| - 1]) {
        TrimEndLower(s[..|s| - 1]);
      }
    }
  }

  /** `trim` commutes with lower-casing. */
  lemma TrimLower(s: string)
    ensures Trim(ToLower(s)) == ToLower(Trim(s))
  {
    TrimStartLower(s);
    TrimEndLower(TrimStart(s));
  }

  predicate AllTrimmable(s: string) {
    forall i :: 0 <= i < |s| ==> IsTrimmable(s[i])
  }

  /** Leading trimmable characters make no difference to the front trim. */
  lemma {:induction false} TrimStartPadded(p: string, s: string)
    requires AllTrimmable(p)
    ensures TrimStart(p + s) == TrimStart(s)
    decreases |p|
  {
    if p != [] {
      assert (p + s)[0] == p[0] && (p + s)[1..] == p[1..] + s;
      TrimStartPadded(p[1..], s);
    } else {
      assert p + s == s;
    }
  }

  /** Trailing trimmable characters make no difference to the back trim. */
  lemma {:induction false} TrimEndPadded(s: string, q: string)
    requires AllTrimmable(q)
    ensures TrimEnd(s + q) == TrimEnd(s)
    decreases |q|
  {
    if q != [] {
      var c := s + q;
      assert c[|c| - 1] == q[|q| - 1] && c[..|c| - 1] == s + q[..|q| - 1];
      TrimEndPadded(s, q[..|q| - 1]);
    } else {
      assert s + q == s;
    }
  }

  /** Characters appended after a text with something untrimmable in it survive the front trim. */
  lemma {:induction false} TrimStartAppend(s: string, q: string)
    ensures TrimStart(s) != [] ==> TrimStart(s + q) == TrimStart(s) + q
    ensures TrimStart(s) == [] ==> TrimStart(s + q) == TrimStart(q)
    decreases |s|
  {
    if s == [] {
      assert s + q == q;
    } else {
      var c := s + q;
      assert c[0] == s[0] && c[1..] == s[1..] + q;
      TrimStartAppend(s[1..], q);
    }
  }

  /** Trimmable padding on either side makes no difference to `trim`. */
  lemma TrimPadded(p: string, s: string, q: string)
    requires AllTrimmable(p) && AllTrimmable(q)
    ensures Trim(p + s + q) == Trim(s)
  {
    assert p + s + q == p + (s + q);
    TrimStartPadded(p, s + q);
    TrimStartAppend(s, q);
    if TrimStart(s) != [] {
      TrimEndPadded(TrimStart(s), q);
    } else {
      TrimStartPadded(q, []);
      assert q + [] == q;
    }
  }

  /** `String.equalsIgnoreCase`, ASCII letters only. */
  predicate EqualsIgnoreCase(a: string, b: string) {
    ToLower(a) == ToLower(b)
  }

  // ---------------------------------------------------------------- split and join

  /** Splits `s` at every `sep`; `n` separators give `n + 1` pieces and `""` gives `[""]`. */
  function Split(s: string, sep: char): (r: seq<string>)
    ensures |r| >= 1
    decreases |s|
  {
    if s == [] then [""]
    else
      var rest := Split(s[1..], sep);
      if s[0] == sep then [""] + rest else [[s[0]] + rest[0]] + rest[1..]
  }

  /** `String.join(sep, parts)`. */
  function Join(sep: string, parts: seq<string>): string
    decreases |parts|
  {
    if |parts| == 0 then ""
    else if |parts| == 1 then parts[0]
    else parts[0] + sep + Join(sep, parts[1..])
  }

  /** Joining one more part appends the separator and the part. */
  lemma {:induction false} JoinSnoc(sep: string, parts: seq<string>, p: string)
    requires |parts| >= 1
    ensures Join(sep, parts + [p]) == Join(sep, parts) + sep + p
    decreases |parts|
  {
    if |parts| == 1 {
      assert (parts + [p])[1..] == [p];
    } else {
      assert (parts + [p])[1..] == parts[1..] + [p];
      JoinSnoc(sep, parts[1..], p);
    }
  }

  /** Splitting at the first separator: the piece before it comes first, then the pieces of
      the rest. */
  lemma {:induction false} SplitAround(a: string, b: string, sep: char)
    requires sep !in a
    ensures Split(a + [sep] + b, sep) == [a] + Split(b, sep)
    decreases |a|
  {
    var s := a + [sep] + b;
    if a == [] {
      assert s[0] == sep && s[1..] == b;
    } else {
      assert s[0] == a[0] && s[1..] == a[1..] + [sep] + b;
      assert a[0] in a;
      SplitAround(a[1..], b, sep);
      assert [a[0]] + a[1..] == a;
    }
  }

  /** Every character of every piece of `split` comes from the text. */
  lemma {:induction false} SplitPiecesFrom(s: string, sep: char)
    ensures forall k, j :: 0 <= k < |Split(s, sep)| && 0 <= j < |Split(s, sep)[k]| ==> Split(s, sep)[k][j] in s
    decreases |s|
  {
    if s != [] {
      SplitPiecesFrom(s[1..], sep);
      var rest := Split(s[1..], sep);
      var r := Split(s, sep);
      assert forall x :: x in s[1..] ==> x in s;
      if s[0] != sep {
        assert r[0] == [s[0]] + rest[0];
        assert forall k :: 1 <= k < |r| ==> r[k] == rest[k];
      } else {
        assert forall k :: 1 <= k < |r| ==> r[k] == rest[k - 1];
      }
    }
  }

  /** Pieces of a split contain no separator, and joining them with it gives the input back. */
  lemma {:induction false} SplitJoin(s: string, sep: char)
    ensures Join([sep], Split(s, sep)) == s
    ensures forall k :: 0 <= k < |Split(s, sep)| ==> sep !in Split(s, sep)[k]
    decreases |s|
  {
    if s != [] {
      SplitJoin(s[1..], sep);
      var rest := Split(s[1..], sep);
      if s[0] == sep {
        assert Split(s, sep) == [""] + rest;
        assert ([""] + rest)[1..] == rest;
      } else {
        var r := Split(s, sep);
        assert r == [[s[0]] + rest[0]] + rest[1..];
        if |rest| == 1 {
          assert Join([sep], r) == [s[0]] + rest[0];
        } else {
          assert r[1..] == rest[1..];
          assert Join([sep], r) == [s[0]] + rest[0] + [sep] + Join([sep], rest[1..]);
        }
        forall k | 0 <= k < |r| ensures sep !in r[k] {
          if k > 0 { assert r[k] == rest[k]; }
        }
      }
    }
  }

  /** `s.replace(old, new)` for single characters. */
  function ReplaceChar(s: string, from: char, to: char): (r: string)
    ensures |r| == |s|
  {
    seq(|s|, i requires 0 <= i < |s| => if s[i] == from then to else s[i])
  }

  /** `url.endsWith("/") ? url.substring(0, url.length() - 1) : url`: drops exactly one
      trailing slash when there is one. */
  function StripTrailingSlash(url: string): (r: string)
    ensures r <= url && |url| - 1 <= |r| <= |url|
    ensures r + "/" == url <==> |url| > 0 && url[|url| - 1] == '/'
    ensures r == url <==> !(|url| > 0 && url[|url| - 1] == '/')
  {
    if |url| > 0 && url[|url| - 1] == '/' then url[..|url| - 1] else url
  }

  // ---------------------------------------------------------------- decimal numbers

  function DigitChar(d: nat): (c: char)
    requires d < 10
    ensures IsAsciiDigit(c)
  {
    ('0' as int + d) as char
  }

  function DigitValue(c: char): (d: nat)
    requires IsAsciiDigit(c)
    ensures d < 10
  {
    c as int - '0' as int
  }

  /** Decimal digits of `n` with no leading zero, as `Integer.toString`. */
  function NatToString(n: nat): (r: string)
    ensures r != []
  {
    if n < 10 then [DigitChar(n)] else NatToString(n / 10) + [DigitChar(n % 10)]
  }

  /** `Integer.toString` / the text `StringBuilder.append(int)` writes. */
  function IntToString(i: int): string {
    if i < 0 then "-" + NatToString(-i) else NatToString(i)
  }

  predicate AllDigits(s: string) {
    forall i :: 0 <= i < |s| ==> IsAsciiDigit(s[i])
  }

  /** The value of a string of decimal digits. */
  function DigitsValue(s: string): nat
    requires AllDigits(s)
  {
    if s == [] then 0 else DigitsValue(s[..|s| - 1]) * 10 + DigitValue(s[|s| - 1])
  }

  const IntMin: int := -0x8000_0000
  const IntMax: int := 0x7FFF_FFFF

  /** `Integer.parseInt`: an optional sign and at least one decimal digit, whose value
      fits in 32 bits; anything else throws `NumberFormatException` (here `None`). */
  function ParseInt(s: string): (r: Option<int>)
    ensures r.Some? ==> IntMin <= r.value <= IntMax
  {
    if s == [] then None
    else
      var signed := s[0] == '-' || s[0] == '+';
      var digits := if signed then s[1..] else s;
      if digits == [] || !AllDigits(digits) then None
      else
        var v: int := if s[0] == '-' then -(DigitsValue(digits) as int) else DigitsValue(digits);
        if IntMin <= v <= IntMax then Some(v) else None
  }

  /** `Integer.toString` of a natural writes only digits, and they read back as the number. */
  lemma {:induction false} DigitsValueOfNat(n: nat)
    ensures AllDigits(NatToString(n)) && DigitsValue(NatToString(n)) == n
  {
    var r := NatToString(n);
    if n >= 10 {
      DigitsValueOfNat(n / 10);
      assert r[..|r| - 1] == NatToString(n / 10);
    }
  }

  /** Reading back what `Integer.toString` wrote gives the number again. */
  lemma ParseIntToString(v: int)
    requires IntMin <= v <= IntMax
    ensures ParseInt(IntToString(v)) == Some(v)
  {
    var s := IntToString(v);
    if v < 0 {
      var d := NatToString(-v);
      DigitsValueOfNat(-v);
      assert s == "-" + d && s[1..] == d;
      assert AllDigits(d);
      assert ParseInt(s) == Some(-(DigitsValue(d) as int));
    } else {
      DigitsValueOfNat(v);
      assert s == NatToString(v) && AllDigits(s);
      assert IsAsciiDigit(s[0]);
      assert ParseInt(s) == Some(DigitsValue(s) as int);
    }
  }
}
