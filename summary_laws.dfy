/**
 * Properties of the summarizer's specification functions: what the cleaned texts,
 * the ranking of representatives, the summary text and the hashtags look like.
 */
module SummaryLaws {
  import opened Text
  import opened Sequences
  import opened Tweets
  import opened CleanText
  import opened Ranking
  import opened HashMaps
  import opened Summarizer

  /** Every cleaned text kept is clean and not blank. */
  lemma {:induction false} CleanedTextsAreClean(tweets: seq<Tweet>)
    ensures forall c :: c in CleanedTexts(tweets) ==> IsClean(c) && !IsBlank(c)
    decreases |tweets|
  {
    if tweets != [] {
      CleanedTextsAreClean(tweets[1..]);
    }
  }

  /** The keywords `summarize` reports: at most `n`, each a keyword that occurs in the
      texts, distinct, by non-increasing number of occurrences, all of them when there
      are at most `n`, and no keyword left out occurs more often than one reported. */
  lemma TopKeywordsOfTexts(texts: seq<string>, keywords: seq<string>, n: nat)
    requires AreTopKeywords(FrequencyTable(texts), keywords, n)
    ensures |keywords| == Min(n, |FrequencyTable(texts)|)
    ensures forall i :: 0 <= i < |keywords| ==> IsKeyword(keywords[i]) && Occurrences(texts, keywords[i]) > 0
    ensures forall i, j :: 0 <= i < j < |keywords| ==> keywords[i] != keywords[j]
    ensures forall i, j :: 0 <= i < j < |keywords| ==>
      Occurrences(texts, keywords[i]) >= Occurrences(texts, keywords[j])
    ensures forall w :: IsKeyword(w) && Occurrences(texts, w) > 0 && w !in keywords ==>
      forall i :: 0 <= i < |keywords| ==> Occurrences(texts, keywords[i]) >= Occurrences(texts, w)
  {
    var table := FrequencyTable(texts);
    var order :| Enumerates(order, table.Keys) && keywords == TopKeywords(table, order, n);
    FrequencyTableSpec(texts);
  }

  /** The representatives, `min(n, |tweets|)` of them, are tweets of the input by
      non-increasing score. */
  lemma RepresentativesRanked(tweets: seq<Tweet>, freq: map<string, int>, n: nat)
    ensures var reps := Items(TopN(ScoreAll(tweets, freq), n));
      && |reps| == Min(n, |tweets|)
      && (forall i :: 0 <= i < |reps| ==> reps[i] in tweets)
      && (forall i, j :: 0 <= i < j < |reps| ==> TweetScore(reps[i], freq) >= TweetScore(reps[j], freq))
  {
    var f := Relevance(freq);
    RankedBy(tweets, f, n);
    var reps := Items(TopN(ScoreWith(tweets, f), n));
    forall i, j | 0 <= i < j < |reps| ensures TweetScore(reps[i], freq) >= TweetScore(reps[j], freq) {
      assert f(reps[i]) >= f(reps[j]);
    }
  }

  /** No tweet left out of the representatives outscores one kept. */
  lemma RepresentativesOutscoreRest(tweets: seq<Tweet>, freq: map<string, int>, n: nat)
    ensures var reps := Items(TopN(ScoreAll(tweets, freq), n));
      forall k :: 0 <= k < |tweets| && tweets[k] !in reps ==>
        forall i :: 0 <= i < |reps| ==> Relevance(freq)(reps[i]) >= Relevance(freq)(tweets[k])
  {
    RankedBy(tweets, Relevance(freq), n);
  }

  /** A tweet whose cleaned text is blank, an empty text among them, scores 0: its one
      token is "", which is too short to be in the table. */
  lemma BlankTextScoresZero(t: Tweet, texts: seq<string>)
    requires IsBlank(Clean(t.text))
    ensures Clean(t.text) == ""
    ensures TweetScore(t, FrequencyTable(texts)) == 0
  {
    var c := Clean(t.text);
    assert c == [];
    FrequencyTableSpec(texts);
    assert Tokens(c) == [""];
    assert "" !in FrequencyTable(texts);
  }

  /** A tweet whose text has no ASCII letter or digit scores 0. Examples are an empty
      text, or one of only '#' signs, punctuation and white space. */
  lemma NoAlnumScoresZero(t: Tweet, texts: seq<string>)
    requires NoAlnum(t.text)
    ensures TweetScore(t, FrequencyTable(texts)) == 0
  {
    CleanWithoutAlnum(t.text);
    BlankTextScoresZero(t, texts);
  }

  /** Joining parts whose first part is not blank gives a string that is not blank. */
  lemma {:induction false} JoinNotBlank(sep: string, parts: seq<string>)
    requires parts != []
    requires !IsBlank(parts[0])
    ensures !IsBlank(Join(sep, parts))
  {
    var j := Join(sep, parts);
    var k :| 0 <= k < |parts[0]| && !IsJavaWhitespace(parts[0][k]);
    if |parts| > 1 {
      assert j == parts[0] + sep + Join(sep, parts[1..]);
    }
    assert j[k] == parts[0][k];
  }

  /** For keywords that are not blank, the themes clause is there exactly when there are
      keywords, and then it lists them all. */
  lemma ThemesClauseShape(keywords: seq<string>)
    requires forall i :: 0 <= i < |keywords| ==> !IsBlank(keywords[i])
    ensures ThemesClause(keywords) != "" <==> keywords != []
    ensures keywords != [] ==> ThemesClause(keywords) == "Key themes include " + Join(", ", keywords) + ". "
  {
    if keywords != [] {
      JoinNotBlank(", ", keywords);
    }
  }

  /** The tokens of a clean text are made of ASCII letters and digits. */
  lemma CleanTokensAlnum(c: string)
    requires IsClean(c)
    ensures forall k, j :: 0 <= k < |Tokens(c)| && 0 <= j < |Tokens(c)[k]| ==> IsAsciiAlnum(Tokens(c)[k][j])
  {
    SplitJoin(c, ' ');
    SplitPiecesFrom(c, ' ');
    forall k, j | 0 <= k < |Tokens(c)| && 0 <= j < |Tokens(c)[k]| ensures IsAsciiAlnum(Tokens(c)[k][j]) {
      var x := Tokens(c)[k][j];
      assert x != ' ' by { assert ' ' !in Tokens(c)[k]; }
      var i :| 0 <= i < |c| && c[i] == x;
    }
  }

  /** Each word in the token set lower-cases some token of some text. */
  lemma {:induction false} TokenSetFrom(texts: seq<string>, w: string)
    requires w in TokenSet(texts)
    ensures exists t, i :: 0 <= t < |texts| && 0 <= i < |Tokens(texts[t])| && ToLower(Tokens(texts[t])[i]) == w
    decreases |texts|
  {
    var init := texts[..|texts| - 1];
    var toks := Tokens(texts[|texts| - 1]);
    if w in TokenSet(init) {
      TokenSetFrom(init, w);
      var t, i :| 0 <= t < |init| && 0 <= i < |Tokens(init[t])| && ToLower(Tokens(init[t])[i]) == w;
      assert texts[t] == init[t];
    } else {
      var i :| 0 <= i < |toks| && ToLower(toks[i]) == w;
      assert ToLower(Tokens(texts[|texts| - 1])[i]) == w;
    }
  }

  /** No key of the table over clean texts is blank: each has at least 3 characters and
      lower-cases a token made of letters and digits. */
  lemma TableKeysNotBlank(texts: seq<string>)
    requires forall c :: c in texts ==> IsClean(c)
    ensures forall w :: w in FrequencyTable(texts) ==> !IsBlank(w)
  {
    forall w | w in FrequencyTable(texts) ensures !IsBlank(w) {
      TokenSetFrom(texts, w);
      var t, i :| 0 <= t < |texts| && 0 <= i < |Tokens(texts[t])| && ToLower(Tokens(texts[t])[i]) == w;
      CleanTokensAlnum(texts[t]);
      var tok := Tokens(texts[t])[i];
      assert IsAsciiAlnum(tok[0]);
      assert w[0] == LowerChar(tok[0]);
      assert !IsJavaWhitespace(w[0]);
    }
  }

  /** For the keywords `summarize` reports, the themes clause is there exactly when there
      are keywords, and then it lists them all. */
  lemma ThemesOfTopKeywords(tweets: seq<Tweet>, keywords: seq<string>, n: nat)
    requires AreTopKeywords(FrequencyTable(CleanedTexts(tweets)), keywords, n)
    ensures ThemesClause(keywords) != "" <==> keywords != []
    ensures keywords != [] ==> ThemesClause(keywords) == "Key themes include " + Join(", ", keywords) + ". "
  {
    var table := FrequencyTable(CleanedTexts(tweets));
    var order :| Enumerates(order, table.Keys) && keywords == TopKeywords(table, order, n);
    CleanedTextsAreClean(tweets);
    TableKeysNotBlank(CleanedTexts(tweets));
    ThemesClauseShape(keywords);
  }

  /** The summary opens with the lead; the points clause is there exactly when there are
      representatives, and then the summary ends with ".". */
  lemma SummaryShape(topic: string, keywords: seq<string>, reps: seq<Tweet>)
    ensures SummaryLead(topic) <= SummaryText(topic, keywords, reps)
    ensures PointsClause(reps) != "" <==> reps != []
    ensures reps != [] ==> SummaryText(topic, keywords, reps)[|SummaryText(topic, keywords, reps)| - 1] == '.'
  {
    var lead, themes, points := SummaryLead(topic), ThemesClause(keywords), PointsClause(reps);
    AppendAssoc(lead, themes, points);
    if reps != [] {
      var body := "Representative points: " + Join("; ", Quotes(reps));
      assert points == body + ".";
      assert (lead + (themes + body)) + "." == lead + themes + points;
    }
  }

  lemma {:induction false} CandidateTagsShape(keywords: seq<string>)
    ensures forall i :: 0 <= i < |CandidateTags(keywords)| ==>
      var tag := CandidateTags(keywords)[i];
      |tag| >= 4 && tag[0] == '#' && forall j :: 1 <= j < |tag| ==> IsAsciiAlnum(tag[j])
    decreases |keywords|
  {
    if keywords != [] {
      CandidateTagsShape(keywords[..|keywords| - 1]);
    }
  }

  /** At most two tags, each '#' followed by at least three ASCII letters or digits,
      the first candidates in keyword order. */
  lemma HashtagsShape(keywords: seq<string>)
    ensures |Hashtags(keywords)| <= MaxHashtags
    ensures Hashtags(keywords) <= CandidateTags(keywords)
    ensures forall i :: 0 <= i < |Hashtags(keywords)| ==>
      var tag := Hashtags(keywords)[i];
      |tag| >= 4 && tag[0] == '#' && forall j :: 1 <= j < |tag| ==> IsAsciiAlnum(tag[j])
  {
    CandidateTagsShape(keywords);
  }

}
