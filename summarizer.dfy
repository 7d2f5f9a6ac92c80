/**
 * The extractive summarizer: a keyword-frequency table over the cleaned texts, the
 * top keywords, the top-scoring representative tweets, and the rendered summary,
 * suggested post and hashtags.
 */
module Summarizer {
  import opened Wrappers
  import opened Text
  import opened Sequences
  import opened Tweets
  import opened CleanText
  import opened Ranking
  import opened HashMaps

  /** Function words and social-media noise that never become keywords. */
  predicate IsStopword(w: string) {
    w in {
    "a", "an", "the", "and", "or", "but", "if", "then", "than", "so", "to", "of", "for", "in", "on",
    "at", "by", "with", "about", "as", "is", "are", "was", "were", "be", "been", "being", "it", "its",
    "this", "that", "these", "those", "i", "you", "he", "she", "they", "we", "me", "my", "your", "our",
    "their", "them", "from", "into", "out", "up", "down", "over", "under", "again", "more", "most", "very",
    "can", "could", "should", "would", "will", "just", "not", "no", "yes", "do", "does", "did", "doing",
      "rt", "via", "amp", "t", "s"
    }
  }

  const KeywordCount: nat := 8
  const RepresentativeCount: nat := 4
  const PostLimit: nat := 280
  const SnippetLimit: nat := 120
  const FallbackTextLimit: nat := 80
  const MaxHashtags: nat := 2

  /** The result record of `summarize`. */
  datatype SummaryResult = SummaryResult(
    summary: string,
    suggestedPost: string,
    keywords: seq<string>,
    representativeTweets: seq<Tweet>)

  // ---------------------------------------------------------------- trimTo

  /** `trimTo`: the truncation rule used for snippets and for the post. */
  function TrimTo(s: string, max: int): (r: string)
    ensures 0 <= max ==> |r| <= max
    ensures |s| <= max ==> r == s
    ensures |s| > max && max <= 3 ==> r == s[..if max < 0 then 0 else max]
    ensures |s| > max > 3 ==> |r| >= 3 && r[|r| - 3..] == "..." && r[..|r| - 3] == Trim(s[..max - 3])
  {
    if |s| <= max then s
    else if max <= 3 then s[..if max < 0 then 0 else max]
    else
      var head := Trim(s[..max - 3]);
      TrimSlice(s[..max - 3]);
      assert (head + "...")[..|head|] == head;
      head + "..."
  }

  // ---------------------------------------------------------------- keyword table

  /** Survives the length and stopword filter of `keywordFrequency`. */
  predicate IsKeyword(w: string) {
    |w| >= 3 && !IsStopword(w)
  }

  /** The tokens `split("\\s+")` yields for a cleaned text: a cleaned text has no
      leading, trailing or repeated spaces, so splitting it at each space is the same. */
  function Tokens(cleaned: string): seq<string> {
    Split(cleaned, ' ')
  }

  /** How many tokens of `toks` lower-case to `w`. */
  function CountIn(toks: seq<string>, w: string): nat
    decreases |toks|
  {
    if toks == [] then 0
    else CountIn(toks[..|toks| - 1], w) + (if ToLower(toks[|toks| - 1]) == w then 1 else 0)
  }

  /** How many tokens of all `texts` lower-case to `w`. */
  function Occurrences(texts: seq<string>, w: string): nat
    decreases |texts|
  {
    if texts == [] then 0
    else Occurrences(texts[..|texts| - 1], w) + CountIn(Tokens(texts[|texts| - 1]), w)
  }

  /** `cleaned` in `summarize`: the cleaned texts that are not blank, in tweet order. */
  function CleanedTexts(tweets: seq<Tweet>): seq<string>
    decreases |tweets|
  {
    if tweets == [] then []
    else
      var c := Clean(tweets[0].text);
      var rest := CleanedTexts(tweets[1..]);
      if IsBlank(c) then rest else [c] + rest
  }

  /** The inner loop of `keywordFrequency`: adds the keyword tokens of one text to the table. */
  method CountTokens(freq0: map<string, int>, toks: seq<string>) returns (freq: map<string, int>)
    requires forall w :: w in freq0 ==> IsKeyword(w)
    ensures forall w :: w in freq <==> w in freq0 || (IsKeyword(w) && CountIn(toks, w) > 0)
    ensures forall w :: w in freq ==> freq[w] == GetOrZero(freq0, w) + CountIn(toks, w)
  {
    freq := freq0;
    for j := 0 to |toks|
      invariant forall w :: w in freq <==> w in freq0 || (IsKeyword(w) && CountIn(toks[..j], w) > 0)
      invariant forall w :: w in freq ==> IsKeyword(w) && freq[w] == GetOrZero(freq0, w) + CountIn(toks[..j], w)
    {
      assert toks[..j + 1][..j] == toks[..j];
      var w := ToLower(toks[j]);
      if |w| < 3 || IsStopword(w) {
        continue;
      }
      freq := freq[w := GetOrZero(freq, w) + 1];
    }
    assert toks[..|toks|] == toks;
  }

  /** `keywordFrequency`: counts every lower-cased token of length at least 3 that is
      not a stopword. Its keys are exactly the keywords that occur, each with its count. */
  method KeywordFrequency(texts: seq<string>) returns (freq: map<string, int>)
    ensures forall w :: w in freq <==> IsKeyword(w) && Occurrences(texts, w) > 0
    ensures forall w :: w in freq ==> freq[w] == Occurrences(texts, w)
  {
    freq := map[];
    for i := 0 to |texts|
      invariant forall w :: w in freq <==> IsKeyword(w) && Occurrences(texts[..i], w) > 0
      invariant forall w :: w in freq ==> freq[w] == Occurrences(texts[..i], w)
    {
      assert texts[..i + 1][..i] == texts[..i];
      freq := CountTokens(freq, Tokens(texts[i]));
    }
    assert texts[..|texts|] == texts;
  }

  /** Every lower-cased token of the texts. */
  function TokenSet(texts: seq<string>): set<string>
    decreases |texts|
  {
    if texts == [] then {}
    else
      var toks := Tokens(texts[|texts| - 1]);
      TokenSet(texts[..|texts| - 1]) + set i | 0 <= i < |toks| :: ToLower(toks[i])
  }

  lemma {:induction false} CountInPositive(toks: seq<string>, w: string)
    ensures CountIn(toks, w) > 0 <==> exists i :: 0 <= i < |toks| && ToLower(toks[i]) == w
    decreases |toks|
  {
    if toks != [] {
      var init := toks[..|toks| - 1];
      CountInPositive(init, w);
      if exists i :: 0 <= i < |init| && ToLower(init[i]) == w {
        var i :| 0 <= i < |init| && ToLower(init[i]) == w;
        assert toks[i] == init[i];
      }
      if exists i :: 0 <= i < |toks| && ToLower(toks[i]) == w {
        var i :| 0 <= i < |toks| && ToLower(toks[i]) == w;
        if i < |init| { assert init[i] == toks[i]; }
      }
    }
  }

  lemma {:induction false} TokenSetOccurs(texts: seq<string>, w: string)
    ensures w in TokenSet(texts) <==> Occurrences(texts, w) > 0
    decreases |texts|
  {
    if texts != [] {
      TokenSetOccurs(texts[..|texts| - 1], w);
      CountInPositive(Tokens(texts[|texts| - 1]), w);
    }
  }

  /** The table `keywordFrequency` builds, as a value. */
  function FrequencyTable(texts: seq<string>): map<string, int> {
    map w | w in TokenSet(texts) && IsKeyword(w) :: Occurrences(texts, w)
  }

  /** The table's keys are the keywords that occur, and each maps to its count. */
  lemma FrequencyTableSpec(texts: seq<string>)
    ensures forall w :: w in FrequencyTable(texts) <==> IsKeyword(w) && Occurrences(texts, w) > 0
    ensures forall w :: w in FrequencyTable(texts) ==> FrequencyTable(texts)[w] == Occurrences(texts, w)
  {
    forall w ensures w in TokenSet(texts) <==> Occurrences(texts, w) > 0 {
      TokenSetOccurs(texts, w);
    }
  }

  // ---------------------------------------------------------------- topKeywords

  /** A table's count, 0 for a missing key. */
  function GetOrZero(freq: map<string, int>, w: string): int {
    if w in freq then freq[w] else 0
  }

  /** `freq.entrySet()` in iteration order `order`: each key with its count. */
  function Entries(freq: map<string, int>, order: seq<string>): (e: seq<Scored<string>>)
    ensures |e| == |order|
  {
    ScoreWith(order, k => GetOrZero(freq, k))
  }

  /** `topKeywords(freq, n)`: the `n` most frequent keys (all of them when fewer),
      distinct, by non-increasing count; no key left out counts more than one kept.
      Equal counts come in the table's iteration order, which is unspecified. */
  function TopKeywords(freq: map<string, int>, order: seq<string>, n: nat): (r: seq<string>)
    requires Enumerates(order, freq.Keys)
    ensures |r| == Min(n, |freq|)
    ensures forall i :: 0 <= i < |r| ==> r[i] in freq
    ensures forall i, j :: 0 <= i < j < |r| ==> r[i] != r[j]
    ensures forall i, j :: 0 <= i < j < |r| ==> freq[r[i]] >= freq[r[j]]
    ensures forall k :: k in freq && k !in r ==> forall i :: 0 <= i < |r| ==> freq[r[i]] >= freq[k]
  {
    EnumerationSize(order, freq.Keys);
    RankedBy(order, k => GetOrZero(freq, k), n);
    RankedDistinct(order, k => GetOrZero(freq, k), n);
    Items(TopN(Entries(freq, order), n))
  }

  /** `keywords` is what `topKeywords(table, n)` returns for some iteration order of the table. */
  ghost predicate AreTopKeywords(table: map<string, int>, keywords: seq<string>, n: nat) {
    exists order :: Enumerates(order, table.Keys) && keywords == TopKeywords(table, order, n)
  }

  // ---------------------------------------------------------------- representative tweets

  /** Sum of the table values of the lower-cased tokens; absent tokens add 0. */
  function TokenScore(toks: seq<string>, freq: map<string, int>): int
    decreases |toks|
  {
    if toks == [] then 0
    else TokenScore(toks[..|toks| - 1], freq) + GetOrZero(freq, ToLower(toks[|toks| - 1]))
  }

  /** A tweet's relevance: the token score of its cleaned text. */
  function TweetScore(t: Tweet, freq: map<string, int>): int {
    TokenScore(Tokens(Clean(t.text)), freq)
  }

  /** `TweetScore` under a fixed table, as a function value. */
  function Relevance(freq: map<string, int>): Tweet -> int {
    t => TweetScore(t, freq)
  }

  /** Every tweet paired with its score, in input order (the `ScoredTweet` list). */
  function ScoreAll(tweets: seq<Tweet>, freq: map<string, int>): (r: seq<Scored<Tweet>>)
    ensures |r| == |tweets|
  {
    ScoreWith(tweets, Relevance(freq))
  }

  /** The token loop of `topRepresentativeTweets`: sums the table values of the tokens. */
  method SumTokens(toks: seq<string>, freq: map<string, int>) returns (score: int)
    ensures score == TokenScore(toks, freq)
  {
    score := 0;
    for j := 0 to |toks|
      invariant score == TokenScore(toks[..j], freq)
    {
      assert toks[..j + 1][..j] == toks[..j];
      var w := ToLower(toks[j]);
      score := score + GetOrZero(freq, w);
    }
    assert toks[..|toks|] == toks;
  }

  /** One tweet's score, as the loop body computes it. */
  method ScoreTweet(t: Tweet, freq: map<string, int>) returns (score: int)
    ensures score == TweetScore(t, freq)
  {
    var cleaned := Clean(t.text);
    score := SumTokens(Tokens(cleaned), freq);
  }

  /** `topRepresentativeTweets`: scores every tweet in order, then keeps the `n` best
      by stable descending sort. */
  method TopRepresentativeTweets(tweets: seq<Tweet>, freq: map<string, int>, n: nat)
    returns (reps: seq<Tweet>)
    ensures reps == Items(TopN(ScoreAll(tweets, freq), n))
  {
    var scored: seq<Scored<Tweet>> := [];
    for i := 0 to |tweets|
      invariant scored == ScoreAll(tweets[..i], freq)
    {
      var score := ScoreTweet(tweets[i], freq);
      ScoreWithSnoc(tweets, Relevance(freq), i);
      scored := scored + [Scored(tweets[i], score)];
    }
    assert tweets[..|tweets|] == tweets;
    reps := Items(TopN(scored, n));
  }

  // ---------------------------------------------------------------- buildSummary

  function SummaryLead(topic: string): string {
    "Summary for \"" + topic + "\": "
  }

  /** "Key themes include ..." when the comma-joined keywords are not blank. */
  function ThemesClause(keywords: seq<string>): string {
    var themes := if keywords == [] then "" else Join(", ", keywords);
    if IsBlank(themes) then "" else "Key themes include " + themes + ". "
  }

  /** A representative's text with `\s` runs collapsed, cut to 120 characters. */
  function Snippet(t: Tweet): (r: string)
    ensures |r| <= SnippetLimit
  {
    TrimTo(CollapseSpaces(t.text), SnippetLimit)
  }

  function Quote(t: Tweet): string {
    "\"" + Snippet(t) + "\""
  }

  function Quotes(reps: seq<Tweet>): (r: seq<string>)
    ensures |r| == |reps| && forall i :: 0 <= i < |reps| ==> r[i] == Quote(reps[i])
  {
    seq(|reps|, i requires 0 <= i < |reps| => Quote(reps[i]))
  }

  /** One quoted snippet per representative, joined by "; " and closed by ".". */
  function PointsClause(reps: seq<Tweet>): string {
    if reps == [] then "" else "Representative points: " + Join("; ", Quotes(reps)) + "."
  }

  function SummaryText(topic: string, keywords: seq<string>, reps: seq<Tweet>): string {
    SummaryLead(topic) + ThemesClause(keywords) + PointsClause(reps)
  }

  /** `buildSummary`, appending to a builder: lead, themes clause, then the quoted
      snippets separated by "; " and a final ".". */
  method BuildSummary(topic: string, keywords: seq<string>, reps: seq<Tweet>) returns (s: string)
    ensures s == SummaryText(topic, keywords, reps)
  {
    var themes := if keywords == [] then "" else Join(", ", keywords);
    s := "Summary for \"" + topic + "\": ";
    if !IsBlank(themes) {
      s := s + "Key themes include " + themes + ". ";
    }
    assert s == SummaryLead(topic) + ThemesClause(keywords);
    if reps != [] {
      ghost var opening := s;
      s := AppendQuotes(s + "Representative points: ", reps);
      s := s + ".";
      AppendAssoc(opening, "Representative points: ", Join("; ", Quotes(reps)));
      AppendAssoc(opening, "Representative points: " + Join("; ", Quotes(reps)), ".");
    }
  }

  /** The points loop of `buildSummary`: appends each quoted snippet, with "; " between. */
  method AppendQuotes(head: string, reps: seq<Tweet>) returns (s: string)
    ensures s == head + Join("; ", Quotes(reps))
  {
    ghost var qs := Quotes(reps);
    s := head;
    for i := 0 to |reps|
      invariant s == head + PointsSoFar(qs, i)
    {
      PointsStep(qs, i);
      ghost var sep := if i < |reps| - 1 then "; " else "";
      AppendAssoc(head, PointsSoFar(qs, i), qs[i]);
      AppendAssoc(head, PointsSoFar(qs, i) + qs[i], sep);
      var quote := "\"" + Snippet(reps[i]) + "\"";
      assert quote == qs[i];
      s := s + quote;
      if i < |reps| - 1 {
        s := s + "; ";
      }
    }
    assert qs[..|qs|] == qs;
  }

  /** What the points loop has written after `i` quotes: the first `i` joined by "; ",
      with the separator for the next one already written. */
  function PointsSoFar(qs: seq<string>, i: nat): string
    requires i <= |qs|
  {
    (if i == 0 then "" else Join("; ", qs[..i])) + (if 0 < i < |qs| then "; " else "")
  }

  lemma PointsStep(qs: seq<string>, i: nat)
    requires i < |qs|
    ensures PointsSoFar(qs, i + 1) == PointsSoFar(qs, i) + qs[i] + (if i < |qs| - 1 then "; " else "")
  {
    assert qs[..i + 1] == qs[..i] + [qs[i]];
    if i > 0 {
      JoinSnoc("; ", qs[..i], qs[i]);
    }
  }

  // ---------------------------------------------------------------- buildHashtags

  /** `k.replaceAll("[^a-zA-Z0-9]", "")`. */
  function AlnumOnly(k: string): (r: string)
    ensures forall i :: 0 <= i < |r| ==> IsAsciiAlnum(r[i])
    ensures |r| <= |k|
    ensures (forall i :: 0 <= i < |k| ==> IsAsciiAlnum(k[i])) ==> r == k
    ensures (forall i :: 0 <= i < |k| ==> !IsAsciiAlnum(k[i])) ==> r == ""
    decreases |k|
  {
    if k == [] then "" else (if IsAsciiAlnum(k[0]) then [k[0]] else "") + AlnumOnly(k[1..])
  }

  /** The filter works piece by piece, so every letter and digit is kept, in order. */
  lemma {:induction false} AlnumOnlyAppend(a: string, b: string)
    ensures AlnumOnly(a + b) == AlnumOnly(a) + AlnumOnly(b)
    decreases |a|
  {
    if a == [] {
      assert a + b == b;
    } else {
      assert (a + b)[0] == a[0] && (a + b)[1..] == a[1..] + b;
      AlnumOnlyAppend(a[1..], b);
      var head := if IsAsciiAlnum(a[0]) then [a[0]] else "";
      AppendAssoc(head, AlnumOnly(a[1..]), AlnumOnly(b));
    }
  }

  /** One tag per keyword whose alphanumeric form has at least 3 characters, in keyword order. */
  function CandidateTags(keywords: seq<string>): seq<string>
    decreases |keywords|
  {
    if keywords == [] then []
    else
      var tag := AlnumOnly(keywords[|keywords| - 1]);
      CandidateTags(keywords[..|keywords| - 1]) + (if |tag| >= 3 then ["#" + tag] else [])
  }

  /** The tags `buildHashtags` keeps: the first two candidates. */
  function Hashtags(keywords: seq<string>): seq<string> {
    var c := CandidateTags(keywords);
    c[..Min(MaxHashtags, |c|)]
  }

  lemma {:induction false} CandidateTagsPrefix(keywords: seq<string>, i: nat)
    requires i <= |keywords|
    ensures CandidateTags(keywords[..i]) <= CandidateTags(keywords)
    decreases |keywords| - i
  {
    if i < |keywords| {
      var n := |keywords|;
      CandidateTagsPrefix(keywords[..n - 1], i);
      assert keywords[..n - 1][..i] == keywords[..i];
    } else {
      assert keywords[..i] == keywords;
    }
  }

  /** `buildHashtags`: scans the keywords, stopping once two tags are collected. */
  method BuildHashtags(keywords: seq<string>) returns (tags: string)
    ensures tags == Join(" ", Hashtags(keywords))
  {
    var list: seq<string> := [];
    var i := 0;
    while i < |keywords|
      invariant 0 <= i <= |keywords|
      invariant list == CandidateTags(keywords[..i]) && |list| <= MaxHashtags
    {
      if |list| >= MaxHashtags {
        break;
      }
      var tag := AlnumOnly(keywords[i]);
      assert keywords[..i + 1][..i] == keywords[..i];
      if |tag| >= 3 {
        list := list + ["#" + tag];
      }
      i := i + 1;
    }
    CandidateTagsPrefix(keywords, i);
    if i == |keywords| {
      assert keywords[..i] == keywords;
    }
    assert list == Hashtags(keywords);
    tags := Join(" ", list);
  }

  // ---------------------------------------------------------------- buildPost

  const PostOpening: string := "Quick roundup on"

  function PostLead(topic: string): string {
    "Quick roundup on " + topic + ": "
  }

  /** The first four keywords, else the first representative's text cut to 80, else a filler. */
  function PostBody(keywords: seq<string>, reps: seq<Tweet>): string {
    if keywords != [] then Join(", ", keywords[..Min(4, |keywords|)])
    else if reps != [] then TrimTo(reps[0].text, FallbackTextLimit)
    else "recent discussion and opinions"
  }

  function PostTail(hashtags: string): string {
    " What do you think?" + (if IsBlank(hashtags) then "" else " " + hashtags)
  }

  /** The post before the 280-character cut. */
  function FullPost(topic: string, keywords: seq<string>, reps: seq<Tweet>): string {
    PostLead(topic) + (PostBody(keywords, reps) + "." + PostTail(Join(" ", Hashtags(keywords))))
  }

  function PostText(topic: string, keywords: seq<string>, reps: seq<Tweet>): string {
    TrimTo(FullPost(topic, keywords, reps), PostLimit)
  }

  lemma OpeningStartsLead(topic: string, rest: string)
    ensures PostOpening <= PostLead(topic) + rest
  {
    var s := PostLead(topic) + rest;
    assert s == "Quick roundup on " + (topic + ": " + rest);
    assert s[..16] == PostOpening;
  }

  /** Cutting to `max` keeps a prefix that fits before the ellipsis and has no trimmable ends. */
  lemma TrimToKeepsPrefix(p: string, u: string, max: int)
    requires p <= u && 0 < |p| <= max - 3
    requires !IsTrimmable(p[0]) && !IsTrimmable(p[|p| - 1])
    ensures p <= TrimTo(u, max)
  {
    if |u| > max {
      var cut := u[..max - 3];
      assert p <= cut;
      TrimKeepsPrefix(p, cut);
      var head := Trim(cut);
      assert TrimTo(u, max) == head + "...";
    }
  }

  /** The suggested post has at most 280 characters and always opens with "Quick roundup on". */
  lemma PostShape(topic: string, keywords: seq<string>, reps: seq<Tweet>)
    ensures |PostText(topic, keywords, reps)| <= PostLimit
    ensures PostOpening <= PostText(topic, keywords, reps)
    ensures |FullPost(topic, keywords, reps)| <= PostLimit ==> PostText(topic, keywords, reps) == FullPost(topic, keywords, reps)
  {
    var rest := PostBody(keywords, reps) + "." + PostTail(Join(" ", Hashtags(keywords)));
    OpeningStartsLead(topic, rest);
    TrimToKeepsPrefix(PostOpening, FullPost(topic, keywords, reps), PostLimit);
  }

  /** `buildPost`. */
  method BuildPost(topic: string, keywords: seq<string>, reps: seq<Tweet>) returns (post: string)
    ensures post == PostText(topic, keywords, reps)
    ensures |post| <= PostLimit && PostOpening <= post
  {
    var lead := "Quick roundup on " + topic + ": ";
    var part: string;
    if keywords != [] {
      part := Join(", ", keywords[..Min(4, |keywords|)]);
    } else if reps != [] {
      part := TrimTo(reps[0].text, FallbackTextLimit);
    } else {
      part := "recent discussion and opinions";
    }
    assert part == PostBody(keywords, reps);
    var hashtags := BuildHashtags(keywords);
    var tail := " What do you think?" + (if IsBlank(hashtags) then "" else " " + hashtags);
    assert tail == PostTail(Join(" ", Hashtags(keywords)));
    post := TrimTo(lead + (part + "." + tail), PostLimit);
    PostShape(topic, keywords, reps);
  }

  // ---------------------------------------------------------------- summarize

  /** A table with the keys and counts `keywordFrequency` promises is `FrequencyTable`. */
  lemma TableIsFrequencyTable(texts: seq<string>, freq: map<string, int>)
    requires forall w :: w in freq <==> IsKeyword(w) && Occurrences(texts, w) > 0
    requires forall w :: w in freq ==> freq[w] == Occurrences(texts, w)
    ensures freq == FrequencyTable(texts)
  {
    FrequencyTableSpec(texts);
    assert freq.Keys == FrequencyTable(texts).Keys;
  }

  /** `summarize`: the keywords are the top eight of the frequency table of the non-blank
      cleaned texts (in some iteration order of the table), the representatives the four
      best-scoring tweets under that table, and the summary and post are rendered from
      them; the post has at most 280 characters and opens with "Quick roundup on". */
  method Summarize(topic: string, tweets: seq<Tweet>) returns (res: SummaryResult)
    ensures AreTopKeywords(FrequencyTable(CleanedTexts(tweets)), res.keywords, KeywordCount)
    ensures res.representativeTweets ==
      Items(TopN(ScoreAll(tweets, FrequencyTable(CleanedTexts(tweets))), RepresentativeCount))
    ensures res.summary == SummaryText(topic, res.keywords, res.representativeTweets)
    ensures res.suggestedPost == PostText(topic, res.keywords, res.representativeTweets)
    ensures |res.suggestedPost| <= PostLimit && PostOpening <= res.suggestedPost
  {
    var cleaned := CleanedTexts(tweets);
    var freq := KeywordFrequency(cleaned);
    TableIsFrequencyTable(cleaned, freq);
    var order := IterationOrder(freq.Keys);
    var keywords := TopKeywords(freq, order, KeywordCount);
    assert Enumerates(order, freq.Keys) && keywords == TopKeywords(freq, order, KeywordCount);
    var reps := TopRepresentativeTweets(tweets, freq, RepresentativeCount);
    var summary := BuildSummary(topic, keywords, reps);
    var post := BuildPost(topic, keywords, reps);
    res := SummaryResult(summary, post, keywords, reps);
  }
}
