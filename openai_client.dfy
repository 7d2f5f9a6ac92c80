/**
 * The OpenAI Responses client: it builds the user prompt from the topic and the posts,
 * sends one request, picks the first `output_text` out of the response tree, decodes the
 * payload and bounds the suggested post to 280 characters.
 *
 * The HTTP exchange and Jackson's two parsers are parameters: `send` answers the request,
 * `readTree` decodes a body into a `Json` tree and `readPayload` decodes the output text
 * into a payload, each failing with the message of the exception it would throw.
 */
module OpenAIClient {
  import opened Wrappers
  import opened Text
  import opened Sequences
  import opened Tweets
  import Summarizer

  /** The bound `summarize` puts on the suggested post. */
  const PostLimit: nat := 280

  /** The system message sent with every request. */
  const Instructions: string := "You are a social media assistant. Create a concise summary and an original new post based strictly on the provided tweets. Do not invent facts, do not quote verbatim, and keep the suggested post within 280 characters. Return JSON only."

  const MissingOutputText: string := "OpenAI API response missing output_text."

  // ---------------------------------------------------------------- the response tree

  /** A Jackson `JsonNode`; `Missing` is what `path` returns for a field that is not there. */
  datatype Json =
    | Missing
    | Null
    | Bool(b: bool)
    | Number(literal: string)
    | Str(text: string)
    | Array(elems: seq<Json>)
    | Object(fields: map<string, Json>)

  /** `node.path(name)`: the field of an object, `Missing` for anything else. */
  function Path(node: Json, name: string): (r: Json)
    ensures r != Missing ==> node.Object? && name in node.fields
  {
    if node.Object? && name in node.fields then node.fields[name] else Missing
  }

  /** `node.asText()`: the text of a scalar, "" for a container or a missing node. */
  function AsText(node: Json): string {
    match node
    case Str(text) => text
    case Number(literal) => literal
    case Bool(b) => if b then "true" else "false"
    case Null => "null"
    case _ => ""
  }

  predicate IsMessage(item: Json) {
    AsText(Path(item, "type")) == "message"
  }

  /** The elements of an item's `content`, none when it is not an array. */
  function Content(item: Json): seq<Json> {
    var c := Path(item, "content");
    if c.Array? then c.elems else []
  }

  predicate IsOutputText(c: Json) {
    AsText(Path(c, "type")) == "output_text"
  }

  function TextOf(c: Json): string {
    AsText(Path(c, "text"))
  }

  /** The elements of `output`, none when it is not an array. */
  function Items(root: Json): seq<Json> {
    var out := Path(root, "output");
    if out.Array? then out.elems else []
  }

  // ---------------------------------------------------------------- extractOutputText

  /** The text of the first `output_text` element of `cs` from `j` on. */
  function ContentText(cs: seq<Json>, j: nat): Option<string>
    decreases |cs| - j
  {
    if j >= |cs| then None
    else if IsOutputText(cs[j]) then Some(TextOf(cs[j]))
    else ContentText(cs, j + 1)
  }

  /** The first hit among the message items of `items` from `i` on. */
  function ItemsText(items: seq<Json>, i: nat): Option<string>
    decreases |items| - i
  {
    if i >= |items| then None
    else
      var hit := if IsMessage(items[i]) then ContentText(Content(items[i]), 0) else None;
      if hit.Some? then hit else ItemsText(items, i + 1)
  }

  /** What `extractOutputText` returns, `None` standing for `null`. */
  function OutputText(root: Json): Option<string> {
    if Path(root, "output").Array? then ItemsText(Items(root), 0) else None
  }

  /** Element `j` of item `i`'s content is an `output_text` element of a message item. */
  predicate Hit(items: seq<Json>, i: int, j: int) {
    0 <= i < |items| && IsMessage(items[i]) && 0 <= j < |Content(items[i])| && IsOutputText(Content(items[i])[j])
  }

  /** `(i, j)` is the first hit in document order from item `i0` on. */
  ghost predicate FirstHit(items: seq<Json>, i0: nat, i: int, j: int) {
    i0 <= i && Hit(items, i, j) &&
    forall i2, j2 :: i0 <= i2 && Hit(items, i2, j2) ==> i < i2 || (i == i2 && j <= j2)
  }

  lemma {:induction false} ContentTextFirst(cs: seq<Json>, j0: nat)
    ensures ContentText(cs, j0).None? <==> forall j :: j0 <= j < |cs| ==> !IsOutputText(cs[j])
    ensures ContentText(cs, j0).Some? ==>
      exists j :: (j0 <= j < |cs| && IsOutputText(cs[j]) &&
        (forall j2 :: j0 <= j2 < j ==> !IsOutputText(cs[j2])) && ContentText(cs, j0).value == TextOf(cs[j]))
    decreases |cs| - j0
  {
    if j0 < |cs| {
      if IsOutputText(cs[j0]) {
        assert ContentText(cs, j0) == Some(TextOf(cs[j0]));
      } else {
        ContentTextFirst(cs, j0 + 1);
        assert ContentText(cs, j0) == ContentText(cs, j0 + 1);
        if ContentText(cs, j0 + 1).Some? {
          var j :| j0 + 1 <= j < |cs| && IsOutputText(cs[j]) &&
            (forall j2 :: j0 + 1 <= j2 < j ==> !IsOutputText(cs[j2])) && ContentText(cs, j0 + 1).value == TextOf(cs[j]);
          assert forall j2 :: j0 <= j2 < j ==> !IsOutputText(cs[j2]);
        }
      }
    }
  }

  /** The items' text is that of the first hit in document order, and there is none exactly
      when no message item holds an `output_text` element. */
  lemma {:induction false} ItemsTextFirst(items: seq<Json>, i0: nat)
    ensures ItemsText(items, i0).None? <==> forall i, j :: i0 <= i ==> !Hit(items, i, j)
    ensures ItemsText(items, i0).Some? ==>
      exists i, j :: (FirstHit(items, i0, i, j) && ItemsText(items, i0).value == TextOf(Content(items[i])[j]))
    decreases |items| - i0
  {
    if i0 < |items| {
      var item := items[i0];
      var cs := Content(item);
      ContentTextFirst(cs, 0);
      ItemsTextFirst(items, i0 + 1);
      if IsMessage(item) && ContentText(cs, 0).Some? {
        var j :| 0 <= j < |cs| && IsOutputText(cs[j])
          && (forall j2 :: 0 <= j2 < j ==> !IsOutputText(cs[j2])) && ContentText(cs, 0).value == TextOf(cs[j]);
        assert FirstHit(items, i0, i0, j);
      } else {
        assert forall j :: !Hit(items, i0, j);
        if ItemsText(items, i0 + 1).Some? {
          var i, j :| FirstHit(items, i0 + 1, i, j) && ItemsText(items, i0 + 1).value == TextOf(Content(items[i])[j]);
          FirstHitPastMiss(items, i0, i, j);
        }
      }
    }
  }

  /** The first hit after an item with no hit is the first hit from that item on. */
  lemma FirstHitPastMiss(items: seq<Json>, i0: nat, i: nat, j: nat)
    requires forall j2 :: !Hit(items, i0, j2)
    requires FirstHit(items, i0 + 1, i, j)
    ensures FirstHit(items, i0, i, j)
  {
    forall i2, j2 | i0 <= i2 && Hit(items, i2, j2) ensures i < i2 || (i == i2 && j <= j2) {
      assert i2 != i0;
    }
  }

  /** `extractOutputText` yields the `text` of the first `output_text` element, in document
      order, of the message items of `output`; nothing when there is no such element, in
      particular when `output` is not an array. */
  lemma OutputTextFirst(root: Json)
    ensures OutputText(root).None? <==> forall i, j :: !Hit(Items(root), i, j)
    ensures OutputText(root).Some? ==>
      exists i, j :: (FirstHit(Items(root), 0, i, j) && OutputText(root).value == TextOf(Content(Items(root)[i])[j]))
  {
    ItemsTextFirst(Items(root), 0);
  }

  /** `extractOutputText` over the decoded tree: the nested loops with `continue` and the
      early return. */
  method ExtractOutputText(root: Json) returns (text: Option<string>)
    ensures text == OutputText(root)
  {
    var output := Path(root, "output");
    if !output.Array? {
      return None;
    }
    var items := output.elems;
    var i := 0;
    while i < |items|
      invariant 0 <= i <= |items|
      invariant ItemsText(items, i) == ItemsText(items, 0)
    {
      var item := items[i];
      if AsText(Path(item, "type")) != "message" {
        i := i + 1;
        continue;
      }
      var content := Path(item, "content");
      if !content.Array? {
        i := i + 1;
        continue;
      }
      var cs := content.elems;
      var j := 0;
      while j < |cs|
        invariant 0 <= j <= |cs|
        invariant ContentText(cs, j) == ContentText(cs, 0)
      {
        var c := cs[j];
        if AsText(Path(c, "type")) == "output_text" {
          return Some(AsText(Path(c, "text")));
        }
        j := j + 1;
      }
      i := i + 1;
    }
    return None;
  }

  // ---------------------------------------------------------------- buildPrompt

  function PromptHead(topic: string): string {
    "Topic: " + topic + "\n" + "Tweets:\n"
  }

  const PromptTail: string := "\nReturn JSON only."

  /** Entry `k` (counted from 1) for post `t` whose text reads `text`: number, author,
      handle and text. */
  function Entry(k: nat, t: Tweet, text: string): string {
    IntToString(k) + ") " + t.authorName + " (@" + t.authorUsername + ") - " + text + "\n"
  }

  /** Each post's text with white space collapsed and trimmed, as the prompt quotes it. */
  function Quoted(tweets: seq<Tweet>): (texts: seq<string>)
    ensures |texts| == |tweets|
  {
    seq(|tweets|, k requires 0 <= k < |tweets| => CollapseAndTrim(tweets[k].text))
  }

  /** The entries of the first `n` posts, in order. */
  function Entries(tweets: seq<Tweet>, texts: seq<string>, n: nat): string
    requires n <= |tweets| && n <= |texts|
  {
    if n == 0 then "" else Entries(tweets, texts, n - 1) + Entry(n, tweets[n - 1], texts[n - 1])
  }

  function Prompt(topic: string, tweets: seq<Tweet>): string {
    PromptHead(topic) + Entries(tweets, Quoted(tweets), |tweets|) + PromptTail
  }

  /** `buildPrompt`: the head, one entry per post with a running counter from 1, the tail. */
  method BuildPrompt(topic: string, tweets: seq<Tweet>) returns (prompt: string)
    ensures prompt == Prompt(topic, tweets)
  {
    ghost var texts := Quoted(tweets);
    var sb := "Topic: " + topic + "\n";
    sb := sb + "Tweets:\n";
    var i := 1;
    var k := 0;
    while k < |tweets|
      invariant 0 <= k <= |tweets| && i == k + 1
      invariant sb == PromptHead(topic) + Entries(tweets, texts, k)
    {
      assert CollapseAndTrim(tweets[k].text) == texts[k];
      sb := AppendEntry(sb, i, tweets[k], CollapseAndTrim(tweets[k].text));
      assert Entries(tweets, texts, k + 1) == Entries(tweets, texts, k) + Entry(k + 1, tweets[k], texts[k]);
      AppendAssoc(PromptHead(topic), Entries(tweets, texts, k), Entry(k + 1, tweets[k], texts[k]));
      i := i + 1;
      k := k + 1;
    }
    prompt := sb + "\nReturn JSON only.";
  }

  /** One pass of `buildPrompt`'s loop: the four appends of entry `i` for post `t`, whose
      text the caller has collapsed into `text`. */
  method AppendEntry(sb0: string, i: nat, t: Tweet, text: string) returns (sb: string)
    ensures sb == sb0 + Entry(i, t, text)
  {
    var n := IntToString(i);
    sb := sb0 + n + ") ";
    sb := sb + t.authorName + " (@" + t.authorUsername + ") - ";
    sb := sb + text;
    sb := sb + "\n";
    AppendAssoc8(sb0, n, ") ", t.authorName, " (@", t.authorUsername, ") - ", text + "\n");
  }

  /** The entries of fewer posts are a leading part of the entries of more, and entry
      `m + 1` comes right after the entries of the posts before it. */
  lemma {:induction false} EntriesPrefix(tweets: seq<Tweet>, texts: seq<string>, m: nat, n: nat)
    requires m < n <= |tweets| && n <= |texts|
    ensures Entries(tweets, texts, m) + Entry(m + 1, tweets[m], texts[m]) <= Entries(tweets, texts, n)
    decreases n - m
  {
    if m + 1 < n {
      EntriesPrefix(tweets, texts, m + 1, n);
    }
  }

  /** The whitespace normalisation leaves no `\s` but single spaces, so the text of an entry
      never breaks its line. */
  lemma CollapseAndTrimOneLine(s: string)
    ensures forall i :: 0 <= i < |CollapseAndTrim(s)| ==> !IsRegexSpace(CollapseAndTrim(s)[i]) || CollapseAndTrim(s)[i] == ' '
    ensures '\n' !in CollapseAndTrim(s)
  {
    var c := CollapseSpaces(s);
    CollapseSpacesShape(s);
    TrimSlice(c);
    var r := Trim(c);
    var k := TrimOffset(c);
    forall i | 0 <= i < |r| ensures !IsRegexSpace(r[i]) || r[i] == ' ' {
      assert r[i] == c[k + i];
    }
  }

  /** The prompt starts with the topic line and the `Tweets:` line, ends with the JSON
      instruction, and the entry of post `k`, numbered `k + 1` and quoting its normalised
      text, follows the entries of the posts before it. */
  lemma PromptShape(topic: string, tweets: seq<Tweet>, k: nat)
    requires k < |tweets|
    ensures PromptHead(topic) <= Prompt(topic, tweets)
    ensures |Prompt(topic, tweets)| >= |PromptTail|
    ensures Prompt(topic, tweets)[|Prompt(topic, tweets)| - |PromptTail|..] == PromptTail
    ensures PromptHead(topic) + (Entries(tweets, Quoted(tweets), k) + Entry(k + 1, tweets[k], CollapseAndTrim(tweets[k].text)))
      <= Prompt(topic, tweets)
  {
    var texts := Quoted(tweets);
    var body := Entries(tweets, texts, |tweets|);
    AppendAssoc(PromptHead(topic), body, PromptTail);
    PrefixOfAppend(PromptHead(topic), body + PromptTail);
    SuffixOfAppend(PromptHead(topic) + body, PromptTail);
    EntriesPrefix(tweets, texts, k, |tweets|);
    assert texts[k] == CollapseAndTrim(tweets[k].text);
    PrefixInside(PromptHead(topic), Entries(tweets, texts, k) + Entry(k + 1, tweets[k], texts[k]), body, PromptTail);
  }

  // ---------------------------------------------------------------- trimTo and the payload

  /** `trimTo`, where `null` gives "" and a string follows the Summarizer's rule. */
  function TrimToOrEmpty(s: Option<string>, max: int): (r: string)
    ensures s.None? ==> r == ""
    ensures s.Some? ==> r == Summarizer.TrimTo(s.value, max)
    ensures 0 <= max ==> |r| <= max
  {
    if s.None? then "" else Summarizer.TrimTo(s.value, max)
  }

  /** `SummaryPayload`; a field the output text does not set stays `null` (`None`), and
      the two lists start out empty. */
  datatype SummaryPayload = SummaryPayload(
    summary: Option<string>,
    suggestedPost: Option<string>,
    keywords: Option<seq<string>>,
    bullets: Option<seq<string>>)

  /** What the server answered. */
  datatype HttpReply = HttpReply(status: int, body: string)

  /** The request `summarize` sends; the rest of its JSON body is fixed. */
  datatype Request = Request(url: string, authorization: string, model: string, instructions: string, prompt: string)

  function HttpError(status: int, body: string): string {
    "OpenAI API error: HTTP " + IntToString(status) + " -> " + body
  }

  /** The payload `summarize` returns for a reply. */
  function SummarizeOutcome(reply: HttpReply, readTree: string -> Result<Json>, readPayload: string -> Result<SummaryPayload>): Result<SummaryPayload> {
    if reply.status != 200 then Err(HttpError(reply.status, reply.body))
    else match readTree(reply.body)
      case Err(m) => Err(m)
      case Ok(root) =>
        var out := OutputText(root);
        if out.None? || IsBlank(out.value) then Err(MissingOutputText)
        else match readPayload(out.value)
          case Err(m) => Err(m)
          case Ok(p) => Ok(p.(suggestedPost := Some(TrimToOrEmpty(p.suggestedPost, PostLimit))))
  }

  /** A payload comes back only for a 200 reply with a non-blank output text the decoder
      accepts, and then with the decoded fields and the suggested post trimmed to at most
      280 characters; a non-200 reply fails with its status and body, and a 200 reply
      whose tree has no non-blank output text fails with the missing-output message. */
  lemma SummarizeContract(reply: HttpReply, readTree: string -> Result<Json>, readPayload: string -> Result<SummaryPayload>)
    ensures var r := SummarizeOutcome(reply, readTree, readPayload);
      && (reply.status != 200 ==> r == Err(HttpError(reply.status, reply.body)))
      && (reply.status == 200 && readTree(reply.body).Ok? ==>
            var out := OutputText(readTree(reply.body).value);
            (out.None? || IsBlank(out.value)) ==> r == Err(MissingOutputText))
      && (r.Ok? <==>
            (reply.status == 200 && readTree(reply.body).Ok?
             && OutputText(readTree(reply.body).value).Some? && !IsBlank(OutputText(readTree(reply.body).value).value)
             && readPayload(OutputText(readTree(reply.body).value).value).Ok?))
      && (r.Ok? ==>
            var p := readPayload(OutputText(readTree(reply.body).value).value).value;
            && r.value.summary == p.summary && r.value.keywords == p.keywords && r.value.bullets == p.bullets
            && r.value.suggestedPost == Some(TrimToOrEmpty(p.suggestedPost, PostLimit))
            && |r.value.suggestedPost.value| <= PostLimit)
  {
  }


  /** The reply half of `summarize`: the status check, the tree, the `output_text`, then
      the payload with its suggested post trimmed. */
  method ReadReply(resp: HttpReply, readTree: string -> Result<Json>, readPayload: string -> Result<SummaryPayload>)
    returns (r: Result<SummaryPayload>)
    ensures r == SummarizeOutcome(resp, readTree, readPayload)
  {
    if resp.status != 200 {
      return Err(HttpError(resp.status, resp.body));
    }
    var tree := readTree(resp.body);
    if tree.Err? {
      return Err(tree.message);
    }
    var outputText := ExtractOutputText(tree.value);
    if outputText.None? || IsBlank(outputText.value) {
      return Err(MissingOutputText);
    }
    var payload := readPayload(outputText.value);
    if payload.Err? {
      return Err(payload.message);
    }
    var p := payload.value;
    r := Ok(p.(suggestedPost := Some(TrimToOrEmpty(p.suggestedPost, PostLimit))));
  }

  /** The OpenAI client; the base URL is stored without one trailing '/'. */
  class Client {
    const apiKey: string
    const baseUrl: string
    const model: string

    constructor(apiKey: string, baseUrl: string, model: string)
      ensures this.apiKey == apiKey && this.model == model
      ensures this.baseUrl == StripTrailingSlash(baseUrl)
    {
      this.apiKey := apiKey;
      this.baseUrl := StripTrailingSlash(baseUrl);
      this.model := model;
    }

    /** `summarize`: one request to `/responses` carrying the prompt, then the reply's
        payload as `SummarizeOutcome` says. */
    method Summarize(topic: string, tweets: seq<Tweet>, send: Request -> HttpReply,
                     readTree: string -> Result<Json>, readPayload: string -> Result<SummaryPayload>)
      returns (r: Result<SummaryPayload>, request: Request)
      ensures request == Request(baseUrl + "/responses", "Bearer " + apiKey, model, Instructions, Prompt(topic, tweets))
      ensures r == SummarizeOutcome(send(request), readTree, readPayload)
    {
      var prompt := BuildPrompt(topic, tweets);
      request := Request(baseUrl + "/responses", "Bearer " + apiKey, model, Instructions, prompt);
      r := ReadReply(send(request), readTree, readPayload);
    }
  }
}
