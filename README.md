# TweeterChaatBot core, modelled in Dafny

TweeterChaatBot summarises recent posts on X about a topic. This project models four
pieces of its Java code. Each operation is proved against a specification.

- **X search fetch** (`XClient`). It requests recent-search pages until one of these
  happens:
  - it holds the target number of distinct authors;
  - a page has no continuation token;
  - five pages have been requested;
  - a reply is not 200, which is an error.

  It keeps the first post of each author, in order of first appearance.
- **LLM client** (`OpenAIClient`). It builds the prompt and finds the first `output_text`
  in the response tree. It bounds the suggested post to 280 characters, and a missing
  post (`null`) becomes "". Here and throughout, the model counts Unicode code points as
  characters, not Java's UTF-16 units. It fails on a non-200 reply, and on output text that is
  missing or blank.
- **Web front end** (`WebServer`):
  - a topic-keyed response cache with a TTL;
  - the `CACHE_TTL_SECONDS` fallback;
  - the query-string lookup;
  - server-sent-event framing;
  - the events the streaming endpoint sends on each path;
  - the status codes of the JSON endpoint.
- **Extractive summariser** (`Summarizer`, with `CleanText`, `Ranking` and
  `SummaryLaws`):
  - a keyword table over cleaned texts;
  - the top keywords;
  - the representative tweets, chosen by a stable top-4 ranking;
  - the summary, the suggested post and the hashtags.

Where the Java mutates state, the model does too. `ResponseCache` is a class with a
map field. `EventStream` is a class whose sent events are a sequence field. Loops stay
loops, with invariants. These methods are proved against specification functions, for
example `RunOutcome`, `OutputText`, `Prompt`, `SseEvents` and `FrequencyTable`. Lemmas
state what the source promises about those functions.

Outside calls are parameters:
- the HTTP provider: `pages`, `send`;
- Jackson's parsers and serialiser: `readTree`, `readPayload`, `render`;
- URL encoding and decoding: `encode`, `decode`;
- the moderation call;
- the clock: `Clock`;
- the environment: `Env`;
- `HashMap` iteration order: `order`.

Shared modules:
- `Wrappers` holds `Option` and `Result`. `null` and thrown exceptions are modelled with
  these.
- `Text` models `trim`, `isBlank`, ASCII `toLowerCase`, `\s` collapsing, `split`, `join`
  and `Integer.parseInt`/`toString`.
- `Tweets` is the `Tweet` record.
- `Sequences` and `HashMaps` hold helper lemmas.

## Model

| member | source | states |
|---|---|---|
| CleanText.Clean | src/main/java/com/tweeterbot/Summarizer.java:133-141 | the cleaned text has only ASCII letters, digits and single spaces, and no space at either end |
| CleanText.CleanIdempotent | src/main/java/com/tweeterbot/Summarizer.java:133-141 | cleaning a cleaned text changes nothing |
| CleanText.CleanIsFixedPoint | src/main/java/com/tweeterbot/Summarizer.java:133-141 | every text that meets the clean shape is its own cleaning |
| CleanText.CleanWithoutAlnum | src/main/java/com/tweeterbot/Summarizer.java:133-141 | a text with no ASCII letter or digit, such as "", "#!?" or "@_ :-)", cleans to "" |
| CleanText.ReplacedIdentity | src/main/java/com/tweeterbot/Summarizer.java:135-138 | the URL, mention, `#` and non-alphanumeric passes leave a clean text as it is |
| CleanText.UrlMatch | src/main/java/com/tweeterbot/Summarizer.java:135 | a match starts with `http://` or `https://` and is longer than the scheme; it is greedy, running over `\S` characters up to the next `\s` or the end; a scheme followed by a non-space always matches |
| CleanText.MentionMatch | src/main/java/com/tweeterbot/Summarizer.java:136 | a match is '@' and then a maximal run of at least one `\w` character (`[a-zA-Z_0-9]`); there is a match exactly when '@' is followed by a `\w` character |
| Text.CollapseSpacesShape | src/main/java/com/tweeterbot/Summarizer.java:139 | collapsing `\s+` leaves no two spaces in a row, never lengthens the text, keeps its other characters, and empties only the empty text |
| Text.TrimSlice | src/main/java/com/tweeterbot/Summarizer.java:139 | `trim` keeps one contiguous slice, drops only characters ≤ U+0020 on each side, and leaves none at either end |
| Text.TrimIdempotent | src/main/java/com/tweeterbot/WebServer.java:246 | trimming a trimmed text changes nothing |
| Summarizer.TrimTo | src/main/java/com/tweeterbot/Summarizer.java:143-147 | the result is unchanged when the text fits; a hard cut when max ≤ 3; otherwise the trimmed first max−3 characters plus "..."; length ≤ max for max ≥ 0 |
| Summarizer.CountTokens | src/main/java/com/tweeterbot/Summarizer.java:43-47 | the inner loop adds the count of every keyword token of one text to the table, and nothing else |
| Summarizer.KeywordFrequency | src/main/java/com/tweeterbot/Summarizer.java:15-22 | the keys are exactly the lower-cased tokens of length ≥ 3 that are not stopwords; each count is the token's number of occurrences over the texts (lines 15-22 and 40-50) |
| Summarizer.FrequencyTableSpec | src/main/java/com/tweeterbot/Summarizer.java:40-50 | the reference table has keys exactly the occurring keywords, with their counts |
| Summarizer.TableIsFrequencyTable | src/main/java/com/tweeterbot/Summarizer.java:40-50 | any table with the keys and counts `keywordFrequency` promises is the reference table |
| Summarizer.TokenSetOccurs | src/main/java/com/tweeterbot/Summarizer.java:43-46 | a word is among the lower-cased tokens exactly when it occurs at least once |
| Summarizer.TopKeywords | src/main/java/com/tweeterbot/Summarizer.java:52-58 | min(n, table size) distinct keys of the table, by non-increasing count; no key left out counts more than one kept; for any iteration order |
| SummaryLaws.TopKeywordsOfTexts | src/main/java/com/tweeterbot/Summarizer.java:30-31 | the reported keywords are occurring keywords, distinct, by non-increasing occurrences, and no omitted keyword occurs more often than a reported one |
| SummaryLaws.CleanedTextsAreClean | src/main/java/com/tweeterbot/Summarizer.java:25-28 | every text kept for the table is clean and not blank |
| Summarizer.SumTokens | src/main/java/com/tweeterbot/Summarizer.java:64-68 | the token loop sums the table value of each lower-cased token, 0 for an absent one |
| Summarizer.ScoreTweet | src/main/java/com/tweeterbot/Summarizer.java:63-68 | a tweet's score is the token score of its cleaned text |
| SummaryLaws.BlankTextScoresZero | src/main/java/com/tweeterbot/Summarizer.java:63-68 | a tweet whose cleaned text is blank scores 0, because its only token "" is not in the table |
| SummaryLaws.NoAlnumScoresZero | src/main/java/com/tweeterbot/Summarizer.java:63-68 | a tweet whose text has no ASCII letter or digit, an empty text among them, scores 0 |
| Summarizer.TopRepresentativeTweets | src/main/java/com/tweeterbot/Summarizer.java:60-77 | the result is the first n tweets of the stable descending sort of the tweets by score, ties keeping input order |
| Ranking.TopN | src/main/java/com/tweeterbot/Summarizer.java:72-76 | min(n, size) elements, sorted by non-increasing score, drawn from the input, none outscored by one left out; each score class keeps its input order (stable) |
| Ranking.SortDescStable | src/main/java/com/tweeterbot/Summarizer.java:73 | the sort orders by descending score and keeps the input order within equal scores |
| Ranking.SortDesc | src/main/java/com/tweeterbot/Summarizer.java:73 | the sort is a permutation of its input |
| Ranking.Insert | src/main/java/com/tweeterbot/Summarizer.java:73 | inserting one scored item adds exactly that item to the multiset |
| Ranking.RankedBy | src/main/java/com/tweeterbot/Summarizer.java:72-76 | the ranked items are input items by non-increasing score, and no omitted item outscores a kept one |
| SummaryLaws.RepresentativesRanked | src/main/java/com/tweeterbot/Summarizer.java:33 | at most 4 representatives, tweets of the input, by non-increasing score |
| SummaryLaws.RepresentativesOutscoreRest | src/main/java/com/tweeterbot/Summarizer.java:33 | no omitted tweet outscores a representative |
| Summarizer.Snippet | src/main/java/com/tweeterbot/Summarizer.java:92 | a snippet has at most 120 characters |
| Summarizer.AppendQuotes | src/main/java/com/tweeterbot/Summarizer.java:89-95 | the index loop writes every quoted snippet joined by "; " |
| Summarizer.BuildSummary | src/main/java/com/tweeterbot/Summarizer.java:79-100 | the builder writes the lead, then the themes clause when the joined keywords are not blank, then the points clause when there are representatives |
| SummaryLaws.SummaryShape | src/main/java/com/tweeterbot/Summarizer.java:83-97 | the summary opens with `Summary for "<topic>": `; the points clause is there exactly when there are representatives, and the summary then ends with "." |
| SummaryLaws.ThemesClauseShape | src/main/java/com/tweeterbot/Summarizer.java:80-86 | for non-blank keywords, "Key themes include" with all of them is there exactly when there are keywords |
| Text.SplitPiecesFrom | src/main/java/com/tweeterbot/Summarizer.java:64 | every character of a piece of `split` comes from the text |
| SummaryLaws.CleanTokensAlnum | src/main/java/com/tweeterbot/Summarizer.java:44 | the tokens of a cleaned text are made of ASCII letters and digits |
| SummaryLaws.TokenSetFrom | src/main/java/com/tweeterbot/Summarizer.java:43-46 | every word counted in the table lower-cases some token of some text |
| SummaryLaws.TableKeysNotBlank | src/main/java/com/tweeterbot/Summarizer.java:40-50 | no key of the table over cleaned texts is blank |
| SummaryLaws.ThemesOfTopKeywords | src/main/java/com/tweeterbot/Summarizer.java:80-86 | for the keywords `summarize` reports, "Key themes include" with all of them is there exactly when there are keywords |
| Summarizer.AlnumOnly | src/main/java/com/tweeterbot/Summarizer.java:125 | only ASCII letters and digits are kept; a text of letters and digits is kept whole, and a text with none becomes "" |
| Summarizer.AlnumOnlyAppend | src/main/java/com/tweeterbot/Summarizer.java:125 | the filter of a concatenation is the concatenation of the filters, so every letter and digit is kept, in order |
| Summarizer.BuildHashtags | src/main/java/com/tweeterbot/Summarizer.java:121-131 | the early-break loop gives the first two candidate tags, joined by spaces |
| SummaryLaws.HashtagsShape | src/main/java/com/tweeterbot/Summarizer.java:121-131 | at most 2 tags, in keyword order, each '#' followed by at least 3 ASCII letters or digits |
| SummaryLaws.CandidateTagsShape | src/main/java/com/tweeterbot/Summarizer.java:123-128 | every candidate tag is '#' followed by at least 3 ASCII letters or digits |
| Summarizer.BuildPost | src/main/java/com/tweeterbot/Summarizer.java:102-119 | the post is the lead, the body (first ≤ 4 keywords, else the first representative cut to 80, else the filler), "." and the tail, cut to 280; its length is ≤ 280 and it opens with "Quick roundup on" |
| Summarizer.PostShape | src/main/java/com/tweeterbot/Summarizer.java:117-118 | the post has at most 280 characters, always opens with "Quick roundup on", and is uncut when it fits |
| Summarizer.Summarize | src/main/java/com/tweeterbot/Summarizer.java:24-38 | the keywords are a top-8 of the table of the non-blank cleaned texts; the representatives are the top 4 by that table; the summary and post are rendered from them, with the post ≤ 280 characters |
| HashMaps.IterationOrder | src/main/java/com/tweeterbot/Summarizer.java:53 | the iteration order lists every key exactly once |
| XClient.Client.constructor | src/main/java/com/tweeterbot/XClient.java:26-31 | the token is stored and the base URL loses exactly one trailing '/' |
| Text.StripTrailingSlash | src/main/java/com/tweeterbot/XClient.java:28 | exactly one trailing '/' is dropped when present, and nothing otherwise |
| XClient.UserTable | src/main/java/com/tweeterbot/XClient.java:132-139 | every key is a non-blank id mapped to a record with that id |
| XClient.UserTableKeys | src/main/java/com/tweeterbot/XClient.java:136-138 | a user is found exactly when some record has the id and the id is not blank |
| XClient.UserTableLast | src/main/java/com/tweeterbot/XClient.java:137 | for a repeated id, the last record wins |
| XClient.ParseUsers | src/main/java/com/tweeterbot/XClient.java:126-141 | the loop builds the user table; a node that is not an array gives the empty map |
| XClient.ToTweet | src/main/java/com/tweeterbot/XClient.java:111-121 | id, author id and text are copied; a known author's name and username are used, else "Unknown"/"unknown"; `createdAt` is null exactly when the raw text is blank |
| XClient.ParseTweets | src/main/java/com/tweeterbot/XClient.java:104-124 | one post per record, in order; a node that is not an array gives the empty list |
| XClient.PutEach | src/main/java/com/tweeterbot/XClient.java:59-64 | the inner loop does `putIfAbsent` on each post and leaves once the target is held |
| XClient.TakePage | src/main/java/com/tweeterbot/XClient.java:55-67 | a 200 body has its users and posts parsed, the posts put, and its token read |
| XClient.CollectStops | src/main/java/com/tweeterbot/XClient.java:59-64 | the inner loop reads the whole page unless it reaches the target, and never passes it |
| XClient.CollectPuts | src/main/java/com/tweeterbot/XClient.java:59-64 | the inner loop's result is putting exactly the posts it read |
| XClient.CollectFirsts | src/main/java/com/tweeterbot/XClient.java:60 | putting a page continues the first-post-per-author map over the posts read |
| XClient.FirstByAuthorAuthors | src/main/java/com/tweeterbot/XClient.java:39 | the map holds one post for every author seen and no two for one author |
| XClient.FirstByAuthorIsFirsts | src/main/java/com/tweeterbot/XClient.java:60 | the map's values are the first post of each author, in input order |
| XClient.SearchParams | src/main/java/com/tweeterbot/XClient.java:76-87 | five fixed parameters, plus `next_token` exactly when the token is present and not blank; the query is always topic + " -is:retweet" |
| XClient.AppendQuery | src/main/java/com/tweeterbot/XClient.java:89-96 | every encoded `key=value` pair is written, with '&' before all but the first |
| XClient.Client.BuildSearchUrl | src/main/java/com/tweeterbot/XClient.java:76-98 | the URL is the endpoint followed by the encoded pairs joined by '&', in the map's iteration order |
| XClient.Answer | src/main/java/com/tweeterbot/XClient.java:51-53 | a failed fetch becomes the `IOException` with the status and body, and a held list is returned as it is |
| XClient.RequestsAt | src/main/java/com/tweeterbot/XClient.java:38-43 | request i carries no token when i = 0, and otherwise the previous reply's token |
| XClient.RunSent | src/main/java/com/tweeterbot/XClient.java:40-42 | at most the remaining budget of requests is sent, and at least one while the target and budget allow it |
| XClient.RunChain | src/main/java/com/tweeterbot/XClient.java:66-70 | every reply but the last was a 200 reply with a non-blank token |
| XClient.RunError | src/main/java/com/tweeterbot/XClient.java:51-53 | the fetch fails exactly when the last reply is not 200, with that reply's status and body |
| XClient.RunStops | src/main/java/com/tweeterbot/XClient.java:66-70 | a result short of the target that has not used up the budget ended on a reply without a token |
| XClient.RunHeld | src/main/java/com/tweeterbot/XClient.java:59-64 | the held posts are what putting every post the inner loop read leaves |
| XClient.RunSeenPrefix | src/main/java/com/tweeterbot/XClient.java:59-64 | the posts read are a leading part of the fetched pages' posts |
| XClient.RunSeenAll | src/main/java/com/tweeterbot/XClient.java:59-64 | short of the target, every post of every fetched page was read |
| XClient.RunBound | src/main/java/com/tweeterbot/XClient.java:42 | starting short of the target, the fetch never passes it |
| XClient.FetchRequests | src/main/java/com/tweeterbot/XClient.java:33-74 | target ≤ 0 gives the empty list with no request; otherwise 1..5 requests, each after the first following a 200 reply with a token; a short result with budget left ended on a tokenless reply |
| XClient.FetchAllPages | src/main/java/com/tweeterbot/XClient.java:40-42 | when every reply is 200 with a token, all five pages are requested unless the target is reached |
| XClient.FetchFailure | src/main/java/com/tweeterbot/XClient.java:50-53 | the fetch returns an error (no partial list) exactly when the last reply is not 200, with its status and body in the message |
| XClient.FetchResult | src/main/java/com/tweeterbot/XClient.java:39-73 | a successful fetch returns the first post of each author among the posts read, in order of first appearance, with distinct authors and at most the target; short of the target, every fetched post was read |
| XClient.Round | src/main/java/com/tweeterbot/XClient.java:43-70 | one pass of the loop body: it ends with the fetch's answer, or goes on to the next request with the next token |
| XClient.Client.FetchRecentUniqueAuthors | src/main/java/com/tweeterbot/XClient.java:33-74 | the loop returns the fetch specification's answer and sends the requests it says, with the tokens it says |
| OpenAIClient.Client.constructor | src/main/java/com/tweeterbot/OpenAIClient.java:23-29 | the key and model are stored, and the base URL loses exactly one trailing '/' |
| OpenAIClient.Path | src/main/java/com/tweeterbot/OpenAIClient.java:88 | `path` finds something only in an object that has the field |
| OpenAIClient.ExtractOutputText | src/main/java/com/tweeterbot/OpenAIClient.java:86-102 | the nested loops with `continue` and an early return compute `OutputText` |
| OpenAIClient.OutputTextFirst | src/main/java/com/tweeterbot/OpenAIClient.java:86-102 | the text returned is that of the first `output_text` element, in document order, of a message item; null exactly when there is none, including when `output` is not an array |
| OpenAIClient.ItemsTextFirst | src/main/java/com/tweeterbot/OpenAIClient.java:91-100 | from item i0 on, the text is that of the first hit, and none exactly when there is no hit; non-message items and non-array content are skipped |
| OpenAIClient.ContentTextFirst | src/main/java/com/tweeterbot/OpenAIClient.java:95-99 | the inner loop returns the first `output_text` element's text, and none exactly when there is no such element |
| OpenAIClient.FirstHitPastMiss | src/main/java/com/tweeterbot/OpenAIClient.java:91-94 | an item without a hit does not change which hit comes first |
| OpenAIClient.Quoted | src/main/java/com/tweeterbot/OpenAIClient.java:112 | one whitespace-normalised text per post |
| OpenAIClient.AppendEntry | src/main/java/com/tweeterbot/OpenAIClient.java:110-113 | the four appends write the entry "k) name (@username) - text\n" |
| OpenAIClient.BuildPrompt | src/main/java/com/tweeterbot/OpenAIClient.java:104-118 | the builder loop with the counter from 1 writes the head, one entry per post in order, and the tail |
| OpenAIClient.PromptShape | src/main/java/com/tweeterbot/OpenAIClient.java:104-118 | the prompt starts with "Topic: <topic>\nTweets:\n", ends with "\nReturn JSON only.", and entry k+1 quoting post k follows the entries before it |
| OpenAIClient.EntriesPrefix | src/main/java/com/tweeterbot/OpenAIClient.java:109-115 | the entries of fewer posts lead the entries of more |
| OpenAIClient.CollapseAndTrimOneLine | src/main/java/com/tweeterbot/OpenAIClient.java:112 | a normalised text has no newline and no `\s` but the space |
| OpenAIClient.TrimToOrEmpty | src/main/java/com/tweeterbot/OpenAIClient.java:120-125 | null gives ""; a string follows the Summarizer's `trimTo`; the length is ≤ max |
| OpenAIClient.SummarizeContract | src/main/java/com/tweeterbot/OpenAIClient.java:71-83 | non-200 fails with status and body; a missing or blank output text fails with the missing-output message; a payload comes back exactly on the good path, with its fields and a suggested post of ≤ 280 characters |
| OpenAIClient.ReadReply | src/main/java/com/tweeterbot/OpenAIClient.java:71-83 | the reply checks and decoding compute `SummarizeOutcome` |
| OpenAIClient.Client.Summarize | src/main/java/com/tweeterbot/OpenAIClient.java:31-84 | one request to `<base>/responses` with the bearer key, model, instructions and prompt; the result is `SummarizeOutcome` of the reply |
| WebServer.ModelName | src/main/java/com/tweeterbot/WebServer.java:158 | `OPENAI_MODEL` defaults to "gpt-4o-mini" |
| WebServer.NormalizeTopicIdempotent | src/main/java/com/tweeterbot/WebServer.java:245-247 | normalising a key again changes nothing |
| WebServer.NormalizeTopicIgnoresCase | src/main/java/com/tweeterbot/WebServer.java:245-247 | the key ignores ASCII letter case |
| WebServer.NormalizeTopicIgnoresPadding | src/main/java/com/tweeterbot/WebServer.java:245-247 | the key ignores characters ≤ U+0020 around the topic |
| WebServer.NormalizeTopicSameKey | src/main/java/com/tweeterbot/WebServer.java:245-247 | a padded, mixed-case topic such as " Foo " has the key of the lower-case topic "foo" |
| WebServer.TtlSeconds | src/main/java/com/tweeterbot/WebServer.java:236-243 | the TTL is a 32-bit int |
| WebServer.TtlSecondsRule | src/main/java/com/tweeterbot/WebServer.java:236-243 | unset or not a number gives 600; a 32-bit decimal number is taken as it is |
| Text.ParseInt | src/main/java/com/tweeterbot/WebServer.java:239 | a parsed value is within the 32-bit range |
| Text.ParseIntToString | src/main/java/com/tweeterbot/WebServer.java:239 | `parseInt` reads back what `Integer.toString` wrote |
| WebServer.NewEntry | src/main/java/com/tweeterbot/WebServer.java:307-310 | the expiry is now + max(1, ttl), so never earlier than now + 1 |
| WebServer.NewEntryLifetime | src/main/java/com/tweeterbot/WebServer.java:307-314 | a new entry is live through now + max(1, ttl), and expired after it |
| WebServer.CachedReportCopy | src/main/java/com/tweeterbot/WebServer.java:145-151 | a lookup hits exactly when the key has an entry and now ≤ expiresAt; the copy differs from the stored report only in `cache = true` (lines 145-151, 194-198, 312-314) |
| WebServer.CacheAfterPut | src/main/java/com/tweeterbot/WebServer.java:184 | after a put, the key serves the report marked cached through its lifetime and not after; other keys answer as before (lines 184, 229) |
| WebServer.CacheKeyCaseAndPadding | src/main/java/com/tweeterbot/WebServer.java:144-145 | a report stored under " Foo "-style padding and case is served for "foo" |
| WebServer.ResponseCache.constructor | src/main/java/com/tweeterbot/WebServer.java:25 | the cache starts empty |
| WebServer.ResponseCache.Get | src/main/java/com/tweeterbot/WebServer.java:145 | `get` finds exactly the stored entry |
| WebServer.ResponseCache.Put | src/main/java/com/tweeterbot/WebServer.java:229 | `put` replaces the key's entry and changes nothing else |
| WebServer.Moderated | src/main/java/com/tweeterbot/WebServer.java:216-218 | a flagged verdict replaces the suggested post with the withheld notice, and all other fields are kept (lines 171-173, 216-218) |
| WebServer.ModeratedPostBound | src/main/java/com/tweeterbot/WebServer.java:216-218 | the 280-character bound on the post survives moderation |
| WebServer.RunPipeline | src/main/java/com/tweeterbot/WebServer.java:207-227 | the chain starts 1 to 3 steps, and all 3 on success |
| WebServer.RunPipelineReport | src/main/java/com/tweeterbot/WebServer.java:207-227 | a report exists exactly when no step threw; it has `cache = false`, the topic, model, stamp and tweets, and the moderated summary |
| WebServer.StoredRule | src/main/java/com/tweeterbot/WebServer.java:229-232 | a success stores its report under the key, replacing any earlier one; a failure writes nothing; other keys are untouched |
| WebServer.GenerateRule | src/main/java/com/tweeterbot/WebServer.java:192-234 | a hit serves the cached copy and writes nothing; the result is `{error}` exactly on a miss whose chain threw; `cache` is true exactly on a hit |
| WebServer.Generate | src/main/java/com/tweeterbot/WebServer.java:192-234 | `generateNonStreaming` on the shared cache gives `GenerateOutcome` and leaves `GenerateCache` |
| WebServer.GenerateFor | src/main/java/com/tweeterbot/WebServer.java:194-233 | with the key known, the body gives the keyed outcome and cache |
| WebServer.GenerateStatus | src/main/java/com/tweeterbot/WebServer.java:121 | the status is 500 exactly for `{error}`, and 200 otherwise |
| WebServer.SseFrameLines | src/main/java/com/tweeterbot/WebServer.java:269-273 | the frame is exactly the lines "event: e", "data: d′" and a blank line; d′ is d with each '\n' replaced by ' ', so it has no newline |
| WebServer.WireAppend | src/main/java/com/tweeterbot/WebServer.java:271-272 | the bytes of two runs of events are the bytes of each, in turn |
| WebServer.EventStream.constructor | src/main/java/com/tweeterbot/WebServer.java:132 | a new stream has sent nothing |
| WebServer.EventStream.Send | src/main/java/com/tweeterbot/WebServer.java:269-273 | `sendEvent` appends one event, whose frame goes on the wire |
| WebServer.Terminal | src/main/java/com/tweeterbot/WebServer.java:185-187 | the last event is `result` exactly on success and `error` exactly on failure |
| WebServer.Progress | src/main/java/com/tweeterbot/WebServer.java:154-168 | n progress events, all named `status` |
| WebServer.MissingCredential | src/main/java/com/tweeterbot/WebServer.java:133-142 | there is no missing credential exactly when both keys are set and not blank |
| WebServer.SseOneTerminal | src/main/java/com/tweeterbot/WebServer.java:133-187 | every stream is 0 to 3 `status` events and then exactly one `result` or `error` |
| WebServer.SseMissingCredential | src/main/java/com/tweeterbot/WebServer.java:133-142 | a missing credential gives one `error` event naming it, and writes nothing |
| WebServer.SseCacheHit | src/main/java/com/tweeterbot/WebServer.java:144-152 | a hit gives exactly `status "Loaded from cache."` then `result` of the cached copy, and writes nothing |
| WebServer.SseFreshReport | src/main/java/com/tweeterbot/WebServer.java:154-185 | a successful miss gives the three statuses in order, then one `result` of the fresh report |
| WebServer.SseFailure | src/main/java/com/tweeterbot/WebServer.java:154-187 | a failed miss gives the statuses of the steps started, then `error` with the message, and writes nothing |
| WebServer.SseFailureAsWritten | src/main/java/com/tweeterbot/WebServer.java:186-187 | as written, a failed miss delivers no `error`: the stream is 1 to 3 `status` events and ends on the note of the step that threw; the intended stream is that plus the `error` |
| WebServer.SseFetchFailureExample | src/main/java/com/tweeterbot/WebServer.java:154-187 | with both credentials set, an empty cache and a fetch that throws "rate limited", the client receives only "Fetching recent tweets..." where the intended stream ends with `error "rate limited"` |
| WebServer.SseAsWrittenElsewhere | src/main/java/com/tweeterbot/WebServer.java:132-185 | without a credential, on a hit and on a successful miss, the stream as written is the intended one |
| WebServer.HandleSse | src/main/java/com/tweeterbot/WebServer.java:132-188 | `handleSse` sends `SseEvents` and leaves `SseCache` |
| WebServer.StreamReport | src/main/java/com/tweeterbot/WebServer.java:144-185 | once the credentials are present, it sends the keyed events and leaves the keyed cache |
| WebServer.StreamRun | src/main/java/com/tweeterbot/WebServer.java:154-185 | on a miss, a status before each step, then the result (stored first) or the error |
| WebServer.FirstEquals | src/main/java/com/tweeterbot/WebServer.java:261 | the index of the first '=', or none exactly when there is no '=' |
| WebServer.SplitPair | src/main/java/com/tweeterbot/WebServer.java:261-262 | two parts exactly when there is an '='; the key has no '=', and key + "=" + value is the pair |
| WebServer.ParamInFirst | src/main/java/com/tweeterbot/WebServer.java:260-266 | the first pair whose key matches exactly gives its decoded value; with no match the answer is "" |
| WebServer.QueryParamRule | src/main/java/com/tweeterbot/WebServer.java:255-267 | a null or blank query gives ""; the '&' pieces join back to the query; the answer is the first match's decoded value, or "" |
| Text.SplitJoin | src/main/java/com/tweeterbot/WebServer.java:259 | the pieces of `split` contain no separator, and joining them with it gives back the text |
| WebServer.GetQueryParam | src/main/java/com/tweeterbot/WebServer.java:255-267 | the loop with an early return computes `QueryParam` |
| WebServer.Handle | src/main/java/com/tweeterbot/WebServer.java:88-123 | wrong method gives 405; a blank topic gives 400 "Topic is required"; SSE streams `SseEvents`; JSON with a missing credential gives 400; otherwise the status is 500 or 200 |
| WebServer.GenerateJson | src/main/java/com/tweeterbot/WebServer.java:109-122 | the credential checks give 400 with the first missing name; otherwise `generateNonStreaming` and its status |

## Left out

- HTTP transport is a parameter: `HttpClient.send`, `HttpServer`, `StaticHandler`, `readAllBytes`, `send` and `sendJson`. The X pages are `pages(k)`, the OpenAI reply is `send(request)`, and the JSON endpoint's reply is the `Reply` value.
- Jackson is left out because it is a foreign library:
  - `readTree` and `readValue` are the `readTree`, `readPayload` and page-record parameters;
  - `writeValueAsString` is `render`;
  - the fixed request schema and `temperature` 0.4 (OpenAIClient.java lines 32-63) are not modelled, so `Request` keeps only the fields that vary.
- `URLEncoder` and `URLDecoder` are the uninterpreted `encode` and `decode` parameters. A malformed escape that throws in `decode` is not modelled.
- `readTopicFromBody` is reduced to the topic field's text, passed in as `bodyTopic`, which the handler trims. Body parsing is left out: a body that does not parse, and `String.valueOf` of a JSON `null` giving "null", are not modelled.
- The `HashMap` iteration orders are parameters: the search parameters in `buildSearchUrl`, and the entries in `topKeywords`. Results are stated for every order.
- Concurrency is left out. The `ConcurrentHashMap` and parallel handlers are modelled as one sequential cache, so last-writer-wins is plain map update.
- `OpenAIModerationClient` is an oracle returning `ModerationResult(flagged, categories, scores)`, because it is a network call; its scores are doubles in Java.
- `App.java`, `CliRunner.java` and `app.js` are not part of this model.
- The clock is the `Clock` parameter: the cache check, `generated_at` and the entry's creation time are three separate readings, as in the source. `isExpired` reads its own `Instant.now()`, which is `checkedAt`.
- Only ASCII text is modelled, because Java's Unicode tables are out of scope:
  - `toLowerCase` changes only `A`–`Z`;
  - `isBlank` and `\s` use their ASCII characters;
  - `trim` removes characters ≤ U+0020, as Java does;
  - `parseInt` accepts ASCII digits only.
- `Instant.parse` of `created_at` is left out. `createdAt` keeps the raw text, and a malformed timestamp, which throws in Java, is not modelled.
- XClient.FetchResult: the fetch specification is generic in the page parser `parse`, and the method instantiates it with the real parser `PageTweets`.
- XClient.Page: a `next_token` of JSON `null` reads as the text "null" in Java. The model has only present (`Some`) or absent (`None`).
- WebServer.NewEntry: the expiry arithmetic is on unbounded integers. Java adds an `int` to a `long`, which cannot overflow for real clock values.
- QueryParam: `query.split("&")` in Java drops trailing empty pieces, and `Split` keeps them. This cannot change the answer, because an empty piece has no '=' and never matches.
- HandleSse: the `catch` block's `error` write (WebServer.java line 187) is modelled as reaching the client. In Java it goes to a stream that try-with-resources has already closed, so the write throws; see Findings. The as-written stream is `SseEventsAsWritten`. The response headers (lines 126-130) are the `Stream(200)` reply.
- SseOneTerminal: states the intended stream, which ends with exactly one `result` or `error`. As written, a failed miss ends with no terminal event, as stated by `SseFailureAsWritten`.
- SseFailure: states the intended `error` event of a failed miss, which as written never reaches the client (`SseFailureAsWritten`).
- StreamRun: its failure branches send the intended `error`, which Java writes to a closed stream. The as-written stream is `SseEventsAsWritten`.
- TrimTo: lengths and cuts count code points. Java's `length` and `substring` count UTF-16 units, so outside the Basic Multilingual Plane Java may cut at another place, or split a surrogate pair.
- Snippet: the 120-character bound counts code points, not Java's UTF-16 units.
- BuildPost: the 80-character cut and the 280-character bound count code points, not Java's UTF-16 units.
- PostShape: the 280-character bound counts code points, not Java's UTF-16 units.
- TrimToOrEmpty: the bound counts code points, not Java's UTF-16 units.
- SummarizeContract: the 280-character bound on the suggested post counts code points, not Java's UTF-16 units.
- QueryParam: `query` is the text of `URI.getQuery()`, whose percent-escapes are already decoded, and `URLDecoder.decode` then runs a second time on the value (`decode`). So an escaped '&' or '=' in a value splits the query, and `?topic=AT%26T` gives "AT". A '%' left by the first decode, as in `?topic=100%25`, makes the second decode throw, which is not modelled. The model keeps the source's double decode.
- WebServer.EventStream: the stream is the sequence of events sent, and its bytes are `Written()`, the frames joined in order. UTF-8 encoding is left out.
- WebServer.Steps: an exception's `getMessage()` is the `Err` message. A `null` message is not modelled.
- The helper methods `GenerateFor`, `StreamReport`, `StreamRun`, `GenerateJson`, `ReadReply`, `AppendEntry`, `TakePage`, `Round`, `PutEach`, `CountTokens`, `SumTokens`, `ScoreTweet`, `AppendQuotes` and `AppendQuery` split source methods into parts. Together they do what the source method does.
- Summarizer.Summarize: it is the standalone summariser. The web server calls `OpenAIClient.summarize` instead, so nothing in the model connects the two.

## Findings

| source | as written | input that shows it | evidently intended | confidence | as-written member | corrected member |
|---|---|---|---|---|---|---|
| src/main/java/com/tweeterbot/WebServer.java:186-187 | the `catch` block writes the `error` event to `exchange.getResponseBody()` after try-with-resources (line 132) has closed that stream, so the write throws and the client gets no `error` | both credentials set, a cache miss, and `fetchRecentUniqueAuthors` throwing: the client receives only `status "Fetching recent tweets..."` | a failed step ends the stream with `event: error` and the exception's message | high; not executed | WebServer.SseFailureAsWritten | WebServer.SseFailure |
