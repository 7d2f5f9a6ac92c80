/**
 * The X recent-search client: `fetchRecentUniqueAuthors` requests up to five pages of
 * search results, keeps the first post of each author in order of first appearance,
 * stops once it holds the target number of authors or a page carries no continuation
 * token, and fails on any page whose status is not 200.
 *
 * The provider is the function `pages`: `pages(k)` is the response to the k-th request.
 * JSON nodes are the records below, already read with `asText("")`.
 */
module XClient {
  import opened Wrappers
  import opened Text
  import opened Sequences
  import opened Tweets
  import opened HashMaps

  /** The page budget (`safetyPages`). */
  const SafetyPages: nat := 5

  /** A JSON value where an array is expected: its elements, or something that is not an array. */
  datatype Listing<T> = Array(elems: seq<T>) | NotArray

  /** An element of `includes.users`. */
  datatype UserNode = UserNode(id: string, name: string, username: string)

  /** An element of `data`; `createdAt` is `""` when the field is missing. */
  datatype TweetNode = TweetNode(id: string, text: string, authorId: string, createdAt: string)

  /** A decoded response body: users, posts and `meta.next_token` when present. */
  datatype Page = Page(users: Listing<UserNode>, data: Listing<TweetNode>, nextToken: Option<string>)

  /** One HTTP response: status, raw body and the body decoded. */
  datatype Response = Response(status: int, body: string, page: Page)

  // ---------------------------------------------------------------- parseUsers

  /** The map `parseUsers` builds: later records with the same id replace earlier ones. */
  function UserTable(elems: seq<UserNode>): (users: map<string, UserNode>)
    ensures forall id :: id in users ==> !IsBlank(id) && users[id].id == id
    decreases |elems|
  {
    if elems == [] then map[]
    else
      var u := elems[|elems| - 1];
      var m := UserTable(elems[..|elems| - 1]);
      if IsBlank(u.id) then m else m[u.id := u]
  }

  function Users(node: Listing<UserNode>): map<string, UserNode> {
    if node.Array? then UserTable(node.elems) else map[]
  }

  function Ids(elems: seq<UserNode>): (ids: seq<string>)
    ensures |ids| == |elems| && forall i :: 0 <= i < |elems| ==> ids[i] == elems[i].id
  {
    seq(|elems|, i requires 0 <= i < |elems| => elems[i].id)
  }

  /** A user is known exactly when some record carries its id and the id is not blank. */
  lemma {:induction false} UserTableKeys(elems: seq<UserNode>, id: string)
    ensures id in UserTable(elems) <==> !IsBlank(id) && id in Ids(elems)
    decreases |elems|
  {
    if elems != [] {
      var init := elems[..|elems| - 1];
      UserTableKeys(init, id);
      assert Ids(elems) == Ids(init) + [elems[|elems| - 1].id];
    }
  }

  /** The record kept for an id is the last one that carries it. */
  lemma {:induction false} UserTableLast(elems: seq<UserNode>, i: nat)
    requires i < |elems| && !IsBlank(elems[i].id)
    requires forall j :: i < j < |elems| ==> elems[j].id != elems[i].id
    ensures elems[i].id in UserTable(elems) && UserTable(elems)[elems[i].id] == elems[i]
    decreases |elems|
  {
    if i < |elems| - 1 {
      var init := elems[..|elems| - 1];
      assert init[i] == elems[i];
      UserTableLast(init, i);
    }
  }

  /** `parseUsers`: every record with a non-blank id, by id; nothing when the node is not an array. */
  method ParseUsers(node: Listing<UserNode>) returns (users: map<string, UserNode>)
    ensures users == Users(node)
  {
    users := map[];
    if !node.Array? {
      return;
    }
    var i := 0;
    while i < |node.elems|
      invariant 0 <= i <= |node.elems|
      invariant users == UserTable(node.elems[..i])
    {
      var u := node.elems[i];
      assert node.elems[..i + 1][..i] == node.elems[..i];
      if !IsBlank(u.id) {
        users := users[u.id := u];
      }
      i := i + 1;
    }
    assert node.elems[..i] == node.elems;
  }

  // ---------------------------------------------------------------- parseTweets

  /** One post record with its author looked up; an unknown author is "Unknown" / "unknown". */
  function ToTweet(n: TweetNode, users: map<string, UserNode>): (t: Tweet)
    ensures t.id == n.id && t.authorId == n.authorId && t.text == n.text
    ensures n.authorId in users ==>
      t.authorName == users[n.authorId].name && t.authorUsername == users[n.authorId].username
    ensures n.authorId !in users ==> t.authorName == "Unknown" && t.authorUsername == "unknown"
    ensures t.createdAt.None? <==> IsBlank(n.createdAt)
  {
    var name := if n.authorId in users then users[n.authorId].name else "Unknown";
    var username := if n.authorId in users then users[n.authorId].username else "unknown";
    var createdAt := if IsBlank(n.createdAt) then None else Some(Instant(n.createdAt));
    Tweet(n.id, n.authorId, name, username, n.text, createdAt)
  }

  function TweetsOf(node: Listing<TweetNode>, users: map<string, UserNode>): seq<Tweet> {
    if node.Array? then seq(|node.elems|, i requires 0 <= i < |node.elems| => ToTweet(node.elems[i], users))
    else []
  }

  /** `parseTweets`: one post per record, in order; nothing when the node is not an array. */
  method ParseTweets(node: Listing<TweetNode>, users: map<string, UserNode>) returns (out: seq<Tweet>)
    ensures node.NotArray? ==> out == []
    ensures node.Array? ==>
      |out| == |node.elems| && forall i :: 0 <= i < |out| ==> out[i] == ToTweet(node.elems[i], users)
    ensures out == TweetsOf(node, users)
  {
    out := [];
    if !node.Array? {
      return;
    }
    var i := 0;
    while i < |node.elems|
      invariant 0 <= i <= |node.elems|
      invariant |out| == i
      invariant forall j :: 0 <= j < i ==> out[j] == ToTweet(node.elems[j], users)
    {
      out := out + [ToTweet(node.elems[i], users)];
      i := i + 1;
    }
  }

  /** The posts one page yields. */
  function PageTweets(p: Page): seq<Tweet> {
    TweetsOf(p.data, Users(p.users))
  }

  // ---------------------------------------------------------------- first post per author

  /** Some post of `s` is by `a`: `containsKey` on the map of posts by author. */
  predicate HasAuthor(s: seq<Tweet>, a: string)
    decreases |s|
  {
    s != [] && (HasAuthor(s[..|s| - 1], a) || s[|s| - 1].authorId == a)
  }

  lemma {:induction false} HasAuthorAt(s: seq<Tweet>, a: string)
    ensures HasAuthor(s, a) <==> exists i :: 0 <= i < |s| && s[i].authorId == a
    decreases |s|
  {
    if s != [] {
      var init := s[..|s| - 1];
      HasAuthorAt(init, a);
      if HasAuthor(init, a) {
        var i :| 0 <= i < |init| && init[i].authorId == a;
        assert s[i] == init[i];
      }
      if exists i :: 0 <= i < |s| && s[i].authorId == a {
        var i :| 0 <= i < |s| && s[i].authorId == a;
        if i < |init| {
          assert init[i] == s[i];
        }
      }
    }
  }

  predicate DistinctAuthors(s: seq<Tweet>) {
    forall i, j :: 0 <= i < j < |s| ==> s[i].authorId != s[j].authorId
  }

  /** `byAuthor.putIfAbsent(t.authorId(), t)` on the insertion-ordered map, kept as its values. */
  function PutIfAbsent(held: seq<Tweet>, t: Tweet): seq<Tweet> {
    if HasAuthor(held, t.authorId) then held else held + [t]
  }

  /** What `putIfAbsent` of every post in turn leaves in the map. */
  function FirstByAuthor(ts: seq<Tweet>): seq<Tweet>
    decreases |ts|
  {
    if ts == [] then [] else PutIfAbsent(FirstByAuthor(ts[..|ts| - 1]), ts[|ts| - 1])
  }

  /** No earlier post in `ts` has the author of `ts[k]`. */
  predicate IsFirstOfAuthor(ts: seq<Tweet>, k: nat)
    requires k < |ts|
  {
    forall m :: 0 <= m < k ==> ts[m].authorId != ts[k].authorId
  }

  /** Reference definition: the posts that are the first of their author, in input order. */
  function FirstsOf(ts: seq<Tweet>): seq<Tweet>
    decreases |ts|
  {
    if ts == [] then []
    else FirstsOf(ts[..|ts| - 1]) + (if IsFirstOfAuthor(ts, |ts| - 1) then [ts[|ts| - 1]] else [])
  }

  /** The map holds one post for every author seen, and no two for the same author. */
  lemma {:induction false} FirstByAuthorAuthors(ts: seq<Tweet>)
    ensures forall a :: HasAuthor(FirstByAuthor(ts), a) <==> HasAuthor(ts, a)
    ensures DistinctAuthors(FirstByAuthor(ts))
    decreases |ts|
  {
    if ts != [] {
      var init := ts[..|ts| - 1];
      var t := ts[|ts| - 1];
      FirstByAuthorAuthors(init);
      var h := FirstByAuthor(init);
      if !HasAuthor(h, t.authorId) {
        DropSnoc(h, t);
        HasAuthorAt(h, t.authorId);
      }
    }
  }

  /** The map's values are exactly the posts that come first for their author, in input order. */
  lemma {:induction false} FirstByAuthorIsFirsts(ts: seq<Tweet>)
    ensures FirstByAuthor(ts) == FirstsOf(ts)
    decreases |ts|
  {
    if ts != [] {
      var init := ts[..|ts| - 1];
      var t := ts[|ts| - 1];
      FirstByAuthorIsFirsts(init);
      FirstByAuthorAuthors(init);
      HasAuthorAt(init, t.authorId);
      if !IsFirstOfAuthor(ts, |ts| - 1) {
        var m :| 0 <= m < |ts| - 1 && ts[m].authorId == t.authorId;
        assert init[m] == ts[m];
      } else {
        forall m | 0 <= m < |init| ensures init[m].authorId != t.authorId {
          assert init[m] == ts[m];
        }
      }
    }
  }

  /** Putting a post extends the first-post map of the posts so far by that post. */
  lemma PutExtends(xs: seq<Tweet>, t: Tweet)
    ensures PutIfAbsent(FirstByAuthor(xs), t) == FirstByAuthor(xs + [t])
  {
    assert (xs + [t])[..|xs|] == xs;
  }

  /** `putIfAbsent` of each post of `us` in turn. */
  function PutAll(held: seq<Tweet>, us: seq<Tweet>): seq<Tweet>
    decreases |us|
  {
    if us == [] then held else PutAll(PutIfAbsent(held, us[0]), us[1..])
  }

  /** Putting more posts into the first-post map of `xs` gives the first-post map of all of them. */
  lemma {:induction false} PutAllExtends(xs: seq<Tweet>, us: seq<Tweet>)
    ensures PutAll(FirstByAuthor(xs), us) == FirstByAuthor(xs + us)
    decreases |us|
  {
    if us == [] {
      AppendEmpty(xs);
    } else {
      PutExtends(xs, us[0]);
      PutAllExtends(xs + [us[0]], us[1..]);
      ConsShift(xs, us);
    }
  }

  /** Putting `a` and then `b` is putting `a + b`. */
  lemma {:induction false} PutAllAppend(held: seq<Tweet>, a: seq<Tweet>, b: seq<Tweet>)
    ensures PutAll(PutAll(held, a), b) == PutAll(held, a + b)
    decreases |a|
  {
    if a == [] {
      assert a + b == b;
    } else {
      var c := a + b;
      assert c[0] == a[0] && c[1..] == a[1..] + b;
      var h := PutIfAbsent(held, a[0]);
      PutAllAppend(h, a[1..], b);
    }
  }

  // ---------------------------------------------------------------- the inner loop

  /** The inner loop over one page: `putIfAbsent` each post, leaving the loop as soon as the
      map holds `target` authors. */
  function Collect(held: seq<Tweet>, ts: seq<Tweet>, target: int): seq<Tweet>
    decreases |ts|
  {
    if ts == [] then held
    else
      var next := PutIfAbsent(held, ts[0]);
      if |next| >= target then next else Collect(next, ts[1..], target)
  }

  /** How many posts of the page the inner loop looks at. */
  function Consumed(held: seq<Tweet>, ts: seq<Tweet>, target: int): (n: nat)
    ensures n <= |ts|
    decreases |ts|
  {
    if ts == [] then 0
    else
      var next := PutIfAbsent(held, ts[0]);
      if |next| >= target then 1 else 1 + Consumed(next, ts[1..], target)
  }

  /** The inner loop puts exactly the posts it looks at. */
  lemma {:induction false} CollectPuts(held: seq<Tweet>, ts: seq<Tweet>, target: int)
    ensures Collect(held, ts, target) == PutAll(held, ts[..Consumed(held, ts, target)])
    decreases |ts|
  {
    if ts != [] {
      TakeCons(ts, Consumed(held, ts, target));
      if |PutIfAbsent(held, ts[0])| < target {
        CollectPuts(PutIfAbsent(held, ts[0]), ts[1..], target);
      }
    }
  }

  /** The inner loop looks at the whole page unless it reaches the target, and starting
      short of the target it never passes it. */
  lemma {:induction false} CollectStops(held: seq<Tweet>, ts: seq<Tweet>, target: int)
    ensures Consumed(held, ts, target) < |ts| ==> |Collect(held, ts, target)| >= target
    ensures |held| < target ==> |Collect(held, ts, target)| <= target
    decreases |ts|
  {
    if ts != [] {
      var next := PutIfAbsent(held, ts[0]);
      assert |next| <= |held| + 1;
      if |next| < target {
        CollectStops(next, ts[1..], target);
      }
    }
  }

  /** The inner loop continues the first-post map over the posts it looks at. */
  lemma CollectFirsts(xs: seq<Tweet>, ts: seq<Tweet>, target: int)
    ensures Collect(FirstByAuthor(xs), ts, target) ==
      FirstByAuthor(xs + ts[..Consumed(FirstByAuthor(xs), ts, target)])
  {
    CollectPuts(FirstByAuthor(xs), ts, target);
    PutAllExtends(xs, ts[..Consumed(FirstByAuthor(xs), ts, target)]);
  }

  /** The inner loop: `putIfAbsent` each post of the page, leaving as soon as the map holds
      `target` authors. */
  method PutEach(held0: seq<Tweet>, tweets: seq<Tweet>, target: int) returns (held: seq<Tweet>)
    ensures held == Collect(held0, tweets, target)
  {
    held := held0;
    var i := 0;
    while i < |tweets|
      invariant 0 <= i <= |tweets|
      invariant Collect(held, tweets[i..], target) == Collect(held0, tweets, target)
    {
      assert tweets[i..][1..] == tweets[i + 1..];
      if !HasAuthor(held, tweets[i].authorId) {
        held := held + [tweets[i]];
      }
      if |held| >= target {
        return;
      }
      i := i + 1;
    }
  }

  /** What one 200 reply's body does to the loop: its users and posts are parsed and the
      posts put into the map, and its token is read. */
  method TakePage(page: Page, held0: seq<Tweet>, target: int) returns (held: seq<Tweet>, token: Option<string>)
    ensures held == Collect(held0, PageTweets(page), target)
    ensures token == page.nextToken
  {
    var users := ParseUsers(page.users);
    var tweets := ParseTweets(page.data, users);
    held := PutEach(held0, tweets, target);
    token := page.nextToken;
  }

  // ---------------------------------------------------------------- buildSearchUrl

  /** A continuation token that is present and not blank. */
  predicate HasToken(token: Option<string>) {
    token.Some? && !IsBlank(token.value)
  }

  /** The query parameters of one search request. */
  function SearchParams(topic: string, nextToken: Option<string>): (params: map<string, string>)
    ensures params.Keys ==
      {"query", "max_results", "tweet.fields", "expansions", "user.fields"}
      + (if HasToken(nextToken) then {"next_token"} else {})
    ensures params["query"] == topic + " -is:retweet"
    ensures HasToken(nextToken) ==> params["next_token"] == nextToken.value
  {
    var base := map[
      "query" := topic + " -is:retweet",
      "max_results" := "100",
      "tweet.fields" := "created_at,author_id,lang",
      "expansions" := "author_id",
      "user.fields" := "username,name"];
    if HasToken(nextToken) then base["next_token" := nextToken.value] else base
  }

  /** `key=value` pairs, encoded, in the map's iteration order. */
  function QueryPairs(params: map<string, string>, order: seq<string>, encode: string -> string): (pairs: seq<string>)
    requires forall i :: 0 <= i < |order| ==> order[i] in params
    ensures |pairs| == |order|
  {
    seq(|order|, i requires 0 <= i < |order| => encode(order[i]) + "=" + encode(params[order[i]]))
  }

  /** The loop over the parameter map's entries in `order`: after `head`, each `key=value`
      pair encoded, with '&' before every pair but the first. */
  method AppendQuery(head: string, params: map<string, string>, order: seq<string>, encode: string -> string)
    returns (url: string)
    requires forall i :: 0 <= i < |order| ==> order[i] in params
    ensures url == head + Join("&", QueryPairs(params, order, encode))
  {
    var pairs := QueryPairs(params, order, encode);
    url := head;
    var first := true;
    var i := 0;
    while i < |order|
      invariant 0 <= i <= |order|
      invariant first <==> i == 0
      invariant url == head + Join("&", pairs[..i])
    {
      var pair := encode(order[i]) + "=" + encode(params[order[i]]);
      assert pair == pairs[i];
      TakeSnoc(pairs, i);
      if !first {
        JoinSnoc("&", pairs[..i], pair);
        AppendAssoc(head, Join("&", pairs[..i]), "&");
        url := url + "&";
        AppendAssoc(head, Join("&", pairs[..i]) + "&", pair);
      } else {
        AppendEmpty([pair]);
      }
      first := false;
      url := url + pair;
      i := i + 1;
    }
    TakeAll(pairs);
  }

  // ---------------------------------------------------------------- fetchRecentUniqueAuthors

  function ErrorMessage(status: int, body: string): string {
    "X API error: HTTP " + IntToString(status) + " -> " + body
  }

  /** How a fetch ends: with the posts held, or on a reply that was not 200. */
  datatype Outcome = Held(tweets: seq<Tweet>) | Failed(status: int, body: string)

  /** What the client returns for an outcome: the posts, or the `IOException` (here `Err`)
      with the status and body of the failing reply in its message. */
  function Answer(o: Outcome): (r: Result<seq<Tweet>>)
    ensures r.Ok? <==> o.Held?
    ensures r.Ok? ==> r.value == o.tweets
    ensures r.Err? ==> r.message == ErrorMessage(o.status, o.body)
  {
    match o
    case Held(tweets) => Ok(tweets)
    case Failed(status, body) => Err(ErrorMessage(status, body))
  }

  /** The fetch loop from request `k` on, with `held` the authors held so far: how it ends.
      The tokens the requests carry do not change what the pages are. */
  function RunOutcome(target: int, pages: nat -> Response, parse: Page -> seq<Tweet>, k: nat, held: seq<Tweet>): Outcome
    requires k <= SafetyPages
    decreases SafetyPages - k
  {
    if |held| >= target || k == SafetyPages then Held(held)
    else
      var resp := pages(k);
      if resp.status != 200 then Failed(resp.status, resp.body)
      else
        var held' := Collect(held, parse(resp.page), target);
        if !HasToken(resp.page.nextToken) then Held(held')
        else RunOutcome(target, pages, parse, k + 1, held')
  }

  /** How many requests the fetch loop sends from request `k` on. */
  function RunCount(target: int, pages: nat -> Response, parse: Page -> seq<Tweet>, k: nat, held: seq<Tweet>): nat
    requires k <= SafetyPages
    decreases SafetyPages - k
  {
    if |held| >= target || k == SafetyPages then 0
    else
      var resp := pages(k);
      if resp.status != 200 || !HasToken(resp.page.nextToken) then 1
      else 1 + RunCount(target, pages, parse, k + 1, Collect(held, parse(resp.page), target))
  }

  /** The continuation token request `i` is built from: none for the first request, the
      token of the reply before it for every later one. */
  function RequestToken(pages: nat -> Response, i: nat): Option<string> {
    if i == 0 then None else pages(i - 1).page.nextToken
  }

  /** The tokens of the first `n` requests, in order. */
  function Requests(pages: nat -> Response, n: nat): seq<Option<string>>
    decreases n
  {
    if n == 0 then [] else Requests(pages, n - 1) + [RequestToken(pages, n - 1)]
  }

  /** Request `i` of the first `n` carries the token `RequestToken` gives it. */
  lemma {:induction false} RequestsAt(pages: nat -> Response, n: nat)
    ensures |Requests(pages, n)| == n
    ensures forall i :: 0 <= i < n ==> Requests(pages, n)[i] == RequestToken(pages, i)
    decreases n
  {
    if n > 0 {
      RequestsAt(pages, n - 1);
    }
  }

  /** Sending the next request's token extends the tokens sent so far. */
  lemma RequestsSnoc(pages: nat -> Response, m: nat, before: seq<Option<string>>, token: Option<string>)
    requires before == Requests(pages, m) && token == RequestToken(pages, m)
    ensures before + [token] == Requests(pages, m + 1)
  {
  }

  /** The posts the inner loop looks at from request `k` on, in order. */
  function RunSeen(target: int, pages: nat -> Response, parse: Page -> seq<Tweet>, k: nat, held: seq<Tweet>): seq<Tweet>
    requires k <= SafetyPages
    decreases SafetyPages - k
  {
    if |held| >= target || k == SafetyPages then []
    else
      var resp := pages(k);
      if resp.status != 200 then []
      else
        var seen := parse(resp.page)[..Consumed(held, parse(resp.page), target)];
        if !HasToken(resp.page.nextToken) then seen
        else seen + RunSeen(target, pages, parse, k + 1, Collect(held, parse(resp.page), target))
  }

  /** The posts of the `n` pages from request `k` on, in order. */
  function Fetched(pages: nat -> Response, parse: Page -> seq<Tweet>, k: nat, n: nat): seq<Tweet>
    decreases n
  {
    if n == 0 then [] else parse(pages(k).page) + Fetched(pages, parse, k + 1, n - 1)
  }


  /** At most the remaining budget of requests is sent, and at least one when the target is
      not yet reached and the budget not spent. */
  lemma {:induction false} RunSent(target: int, pages: nat -> Response, parse: Page -> seq<Tweet>, k: nat, held: seq<Tweet>)
    requires k <= SafetyPages
    ensures RunCount(target, pages, parse, k, held) <= SafetyPages - k
    ensures RunCount(target, pages, parse, k, held) > 0 <==> |held| < target && k < SafetyPages
    decreases SafetyPages - k
  {
    if |held| < target && k < SafetyPages {
      var resp := pages(k);
      if resp.status == 200 && HasToken(resp.page.nextToken) {
        RunSent(target, pages, parse, k + 1, Collect(held, parse(resp.page), target));
      }
    }
  }

  /** Reply `j` lets the fetch loop go on: a 200 reply with a token. */
  predicate GoesOn(pages: nat -> Response, j: nat) {
    pages(j).status == 200 && HasToken(pages(j).page.nextToken)
  }

  /** Every reply but the last of those the loop asks for from request `k` on let it go on,
      so every request after the first follows a 200 reply that carried a token. */
  lemma {:induction false} RunChain(target: int, pages: nat -> Response, parse: Page -> seq<Tweet>, k: nat, held: seq<Tweet>)
    requires k <= SafetyPages
    ensures forall j :: k <= j < k + RunCount(target, pages, parse, k, held) - 1 ==> GoesOn(pages, j)
    decreases SafetyPages - k
  {
    if |held| < target && k < SafetyPages {
      var resp := pages(k);
      if resp.status == 200 && HasToken(resp.page.nextToken) {
        RunChain(target, pages, parse, k + 1, Collect(held, parse(resp.page), target));
      }
    }
  }

  /** The fetch fails exactly when the last reply is not a 200 reply, and then with that
      reply's status and body. */
  lemma {:induction false} RunError(target: int, pages: nat -> Response, parse: Page -> seq<Tweet>, k: nat, held: seq<Tweet>)
    requires k <= SafetyPages
    ensures var o, n := RunOutcome(target, pages, parse, k, held), RunCount(target, pages, parse, k, held);
      && (o.Failed? <==> n > 0 && pages(k + n - 1).status != 200)
      && (o.Failed? ==> o.status == pages(k + n - 1).status && o.body == pages(k + n - 1).body)
    decreases SafetyPages - k
  {
    if |held| < target && k < SafetyPages {
      var resp := pages(k);
      if resp.status == 200 && HasToken(resp.page.nextToken) {
        var held' := Collect(held, parse(resp.page), target);
        RunError(target, pages, parse, k + 1, held');
        RunSent(target, pages, parse, k + 1, held');
      }
    }
  }

  /** A result short of the target that has not spent the budget means the last reply
      carried no token. */
  lemma {:induction false} RunStops(target: int, pages: nat -> Response, parse: Page -> seq<Tweet>, k: nat, held: seq<Tweet>)
    requires k <= SafetyPages
    ensures var o, n := RunOutcome(target, pages, parse, k, held), RunCount(target, pages, parse, k, held);
      o.Held? && |o.tweets| < target && k + n < SafetyPages ==>
        n > 0 && !HasToken(pages(k + n - 1).page.nextToken)
    decreases SafetyPages - k
  {
    if |held| < target && k < SafetyPages {
      var resp := pages(k);
      if resp.status == 200 && HasToken(resp.page.nextToken) {
        var held' := Collect(held, parse(resp.page), target);
        RunStops(target, pages, parse, k + 1, held');
        RunSent(target, pages, parse, k + 1, held');
      }
    }
  }

  /** What the fetch holds at the end is what putting each post the inner loop looked at
      into the map it starts from leaves. */
  lemma {:induction false} RunHeld(target: int, pages: nat -> Response, parse: Page -> seq<Tweet>, k: nat, held: seq<Tweet>)
    requires k <= SafetyPages
    ensures var o := RunOutcome(target, pages, parse, k, held);
      o.Held? ==> o.tweets == PutAll(held, RunSeen(target, pages, parse, k, held))
    decreases SafetyPages - k
  {
    if |held| < target && k < SafetyPages && pages(k).status == 200 {
      var ts := parse(pages(k).page);
      CollectPuts(held, ts, target);
      if HasToken(pages(k).page.nextToken) {
        var held' := Collect(held, ts, target);
        RunHeld(target, pages, parse, k + 1, held');
        PutAllAppend(held, ts[..Consumed(held, ts, target)], RunSeen(target, pages, parse, k + 1, held'));
      }
    }
  }

  /** The posts the inner loop looked at are the leading part of the fetched pages' posts. */
  lemma {:induction false} RunSeenPrefix(target: int, pages: nat -> Response, parse: Page -> seq<Tweet>, k: nat, held: seq<Tweet>)
    requires k <= SafetyPages
    ensures RunSeen(target, pages, parse, k, held) <= Fetched(pages, parse, k, RunCount(target, pages, parse, k, held))
    decreases SafetyPages - k
  {
    if |held| < target && k < SafetyPages {
      var resp := pages(k);
      if resp.status == 200 {
        var ts := parse(resp.page);
        var c := Consumed(held, ts, target);
        var held' := Collect(held, ts, target);
        CollectStops(held, ts, target);
        if HasToken(resp.page.nextToken) {
          var n := RunCount(target, pages, parse, k + 1, held');
          RunSeenPrefix(target, pages, parse, k + 1, held');
          RunSent(target, pages, parse, k + 1, held');
          PrefixThenRest(ts, c, RunSeen(target, pages, parse, k + 1, held'), Fetched(pages, parse, k + 1, n));
        } else {
          PrefixThenRest(ts, c, [], []);
        }
      }
    }
  }

  /** A result short of the target has looked at every post of every fetched reply. */
  lemma {:induction false} RunSeenAll(target: int, pages: nat -> Response, parse: Page -> seq<Tweet>, k: nat, held: seq<Tweet>)
    requires k <= SafetyPages
    ensures var o := RunOutcome(target, pages, parse, k, held);
      o.Held? && |o.tweets| < target ==>
        RunSeen(target, pages, parse, k, held) == Fetched(pages, parse, k, RunCount(target, pages, parse, k, held))
    decreases SafetyPages - k
  {
    if |held| >= target || k == SafetyPages {
      RunDone(target, pages, parse, k, held);
    } else if pages(k).status != 200 {
      RunFails(target, pages, parse, k, held);
    } else {
      var ts := parse(pages(k).page);
      var held' := Collect(held, ts, target);
      CollectStops(held, ts, target);
      if !HasToken(pages(k).page.nextToken) {
        RunEnds(target, pages, parse, k, held);
        if |held'| < target {
          TakeAll(ts);
          AppendEmpty(ts);
        }
      } else {
        RunGoes(target, pages, parse, k, held);
        if |held'| < target {
          TakeAll(ts);
          RunSeenAll(target, pages, parse, k + 1, held');
        } else {
          RunDone(target, pages, parse, k + 1, held');
        }
      }
    }
  }

  /** Starting short of the target, the fetch never passes it. */
  lemma {:induction false} RunBound(target: int, pages: nat -> Response, parse: Page -> seq<Tweet>, k: nat, held: seq<Tweet>)
    requires k <= SafetyPages
    requires |held| < target
    ensures var o := RunOutcome(target, pages, parse, k, held);
      o.Held? ==> |o.tweets| <= target
    decreases SafetyPages - k
  {
    if k < SafetyPages {
      var resp := pages(k);
      if resp.status == 200 {
        var held' := Collect(held, parse(resp.page), target);
        CollectStops(held, parse(resp.page), target);
        if HasToken(resp.page.nextToken) && |held'| < target {
          RunBound(target, pages, parse, k + 1, held');
        }
      }
    }
  }

  /** The fetch ends where it is once the target is reached or the budget spent. */
  lemma RunDone(target: int, pages: nat -> Response, parse: Page -> seq<Tweet>, k: nat, held: seq<Tweet>)
    requires k <= SafetyPages && (|held| >= target || k == SafetyPages)
    ensures RunOutcome(target, pages, parse, k, held) == Held(held)
    ensures RunCount(target, pages, parse, k, held) == 0
    ensures RunSeen(target, pages, parse, k, held) == []
  {
  }

  /** A request answered other than 200 is the last and ends the fetch with that reply. */
  lemma RunFails(target: int, pages: nat -> Response, parse: Page -> seq<Tweet>, k: nat, held: seq<Tweet>)
    requires k < SafetyPages && |held| < target && pages(k).status != 200
    ensures RunOutcome(target, pages, parse, k, held) == Failed(pages(k).status, pages(k).body)
    ensures RunCount(target, pages, parse, k, held) == 1
  {
  }

  /** A 200 reply without a token is the last and ends the fetch with the inner loop's map. */
  lemma RunEnds(target: int, pages: nat -> Response, parse: Page -> seq<Tweet>, k: nat, held: seq<Tweet>)
    requires k < SafetyPages && |held| < target && pages(k).status == 200 && !HasToken(pages(k).page.nextToken)
    ensures RunOutcome(target, pages, parse, k, held) == Held(Collect(held, parse(pages(k).page), target))
    ensures RunCount(target, pages, parse, k, held) == 1
    ensures RunSeen(target, pages, parse, k, held) == parse(pages(k).page)[..Consumed(held, parse(pages(k).page), target)]
  {
  }

  /** A 200 reply with a token goes on to the next request from the inner loop's map. */
  lemma RunGoes(target: int, pages: nat -> Response, parse: Page -> seq<Tweet>, k: nat, held: seq<Tweet>)
    requires k < SafetyPages && |held| < target && pages(k).status == 200 && HasToken(pages(k).page.nextToken)
    ensures var ts := parse(pages(k).page); var held' := Collect(held, ts, target);
      && RunOutcome(target, pages, parse, k, held) == RunOutcome(target, pages, parse, k + 1, held')
      && RunCount(target, pages, parse, k, held) == 1 + RunCount(target, pages, parse, k + 1, held')
      && RunSeen(target, pages, parse, k, held) == ts[..Consumed(held, ts, target)] + RunSeen(target, pages, parse, k + 1, held')
  {
  }

  /** The fetch as a whole, from the first request with no authors held: how it ends, how
      many requests it sends and the posts the inner loop looks at. */
  function FetchOutcome(target: int, pages: nat -> Response, parse: Page -> seq<Tweet>): Outcome {
    RunOutcome(target, pages, parse, 0, [])
  }

  function FetchCount(target: int, pages: nat -> Response, parse: Page -> seq<Tweet>): nat {
    RunCount(target, pages, parse, 0, [])
  }

  function FetchSeen(target: int, pages: nat -> Response, parse: Page -> seq<Tweet>): seq<Tweet> {
    RunSeen(target, pages, parse, 0, [])
  }

  /** Nothing is requested for a non-positive target; otherwise between one and five
      requests are sent, each after the first following a 200 reply that carried a token;
      a result short of the target that has not spent the budget ended on a reply without a
      token. */
  lemma FetchRequests(target: int, pages: nat -> Response, parse: Page -> seq<Tweet>)
    ensures var o, n := FetchOutcome(target, pages, parse), FetchCount(target, pages, parse);
      && (target <= 0 ==> Answer(o) == Ok([]) && n == 0)
      && (target > 0 ==> 0 < n <= SafetyPages)
      && (forall j :: 0 <= j < n - 1 ==> GoesOn(pages, j))
      && (o.Held? && |o.tweets| < target && n < SafetyPages ==> !HasToken(pages(n - 1).page.nextToken))
  {
    RunSent(target, pages, parse, 0, []);
    RunChain(target, pages, parse, 0, []);
    RunStops(target, pages, parse, 0, []);
  }

  /** When every reply is a 200 reply with a token and the target is never reached, all
      five requests are sent. */
  lemma FetchAllPages(target: int, pages: nat -> Response, parse: Page -> seq<Tweet>)
    requires forall j :: 0 <= j < SafetyPages ==> GoesOn(pages, j)
    requires target > 0
    ensures var o, n := FetchOutcome(target, pages, parse), FetchCount(target, pages, parse);
      o.Held? && (|o.tweets| < target ==> n == SafetyPages)
  {
    RunSent(target, pages, parse, 0, []);
    RunError(target, pages, parse, 0, []);
    RunStops(target, pages, parse, 0, []);
    var n := FetchCount(target, pages, parse);
    assert GoesOn(pages, n - 1);
  }

  /** The fetch fails exactly when the last reply is not a 200 reply, with its status and
      body in the message. */
  lemma FetchFailure(target: int, pages: nat -> Response, parse: Page -> seq<Tweet>)
    ensures var r, n := Answer(FetchOutcome(target, pages, parse)), FetchCount(target, pages, parse);
      && (r.Err? <==> n > 0 && pages(n - 1).status != 200)
      && (r.Err? ==> r.message == ErrorMessage(pages(n - 1).status, pages(n - 1).body))
  {
    RunError(target, pages, parse, 0, []);
  }

  /** A successful fetch returns the first post of each author among the leading posts of the
      fetched pages, in order of first appearance, distinct by author and never more than
      the target; short of the target, it has looked at every fetched post. */
  lemma FetchResult(target: int, pages: nat -> Response, parse: Page -> seq<Tweet>)
    ensures var r, n, s := Answer(FetchOutcome(target, pages, parse)), FetchCount(target, pages, parse), FetchSeen(target, pages, parse);
      r.Ok? ==>
        && s <= Fetched(pages, parse, 0, n)
        && r.value == FirstsOf(s)
        && DistinctAuthors(r.value)
        && (target > 0 ==> |r.value| <= target)
        && (|r.value| < target ==> s == Fetched(pages, parse, 0, n))
  {
    RunHeld(target, pages, parse, 0, []);
    PutAllExtends([], FetchSeen(target, pages, parse));
    RunSeenPrefix(target, pages, parse, 0, []);
    RunSeenAll(target, pages, parse, 0, []);
    if target > 0 {
      RunBound(target, pages, parse, 0, []);
    }
    var s := FetchSeen(target, pages, parse);
    AppendEmpty(s);
    FirstByAuthorAuthors(s);
    FirstByAuthorIsFirsts(s);
  }

  /** One pass of the fetch loop's body for request `k`: the reply is read and, when it is a
      200 reply, its posts are put into the map and its token read. `done` says the loop
      returns `r` after this request; otherwise it goes on to request `k + 1` with `held'`
      and the token `token'`. */
  method Round(target: int, pages: nat -> Response, k: nat, held: seq<Tweet>)
    returns (done: bool, r: Result<seq<Tweet>>, held': seq<Tweet>, token': Option<string>)
    requires k < SafetyPages && |held| < target
    ensures done ==> r == Answer(RunOutcome(target, pages, PageTweets, k, held))
    ensures done ==> RunCount(target, pages, PageTweets, k, held) == 1
    ensures !done ==> RunOutcome(target, pages, PageTweets, k, held) == RunOutcome(target, pages, PageTweets, k + 1, held')
    ensures !done ==> RunCount(target, pages, PageTweets, k, held) == 1 + RunCount(target, pages, PageTweets, k + 1, held')
    ensures !done ==> token' == RequestToken(pages, k + 1)
  {
    var resp := pages(k);
    if resp.status != 200 {
      RunFails(target, pages, PageTweets, k, held);
      return true, Err(ErrorMessage(resp.status, resp.body)), held, None;
    }
    held', token' := TakePage(resp.page, held, target);
    if !HasToken(token') {
      RunEnds(target, pages, PageTweets, k, held);
      return true, Ok(held'), held', token';
    }
    RunGoes(target, pages, PageTweets, k, held);
    assert k + 1 - 1 == k;
    done, r := false, Ok(held');
  }

  /** The X search client; the base URL is stored without one trailing '/'. */
  class Client {
    const bearerToken: string
    const baseUrl: string

    constructor(bearerToken: string, baseUrl: string)
      ensures this.bearerToken == bearerToken
      ensures this.baseUrl == StripTrailingSlash(baseUrl)
    {
      this.bearerToken := bearerToken;
      this.baseUrl := StripTrailingSlash(baseUrl);
    }

    /** `buildSearchUrl`: the search endpoint and the encoded parameters joined by '&', in
        `order`, the parameter map's iteration order. */
    method BuildSearchUrl(topic: string, nextToken: Option<string>, order: seq<string>, encode: string -> string)
      returns (url: string)
      requires Enumerates(order, SearchParams(topic, nextToken).Keys)
      ensures url == baseUrl + "/tweets/search/recent?" + Join("&", QueryPairs(SearchParams(topic, nextToken), order, encode))
      ensures |order| == |SearchParams(topic, nextToken)|
    {
      var params := SearchParams(topic, nextToken);
      EnumerationSize(order, params.Keys);
      url := AppendQuery(baseUrl + "/tweets/search/recent?", params, order, encode);
    }

    /** `fetchRecentUniqueAuthors`: sends as many requests as the fetch specification, each
        built from the token it says (`requests` lists those tokens in order), and returns
        the specification's result. */
    method FetchRecentUniqueAuthors(topic: string, targetCount: int, pages: nat -> Response)
      returns (r: Result<seq<Tweet>>, requests: seq<Option<string>>)
      ensures r == Answer(FetchOutcome(targetCount, pages, PageTweets))
      ensures |requests| == FetchCount(targetCount, pages, PageTweets)
      ensures requests == Requests(pages, |requests|)
    {
      if targetCount <= 0 {
        return Ok([]), [];
      }
      var nextToken: Option<string> := None;
      var byAuthor: seq<Tweet> := [];
      var safetyPages := SafetyPages;
      requests := [];
      while |byAuthor| < targetCount && safetyPages > 0
        invariant 0 <= safetyPages <= SafetyPages
        invariant |requests| == SafetyPages - safetyPages
        invariant requests == Requests(pages, SafetyPages - safetyPages)
        invariant nextToken == RequestToken(pages, SafetyPages - safetyPages)
        invariant RunOutcome(targetCount, pages, PageTweets, SafetyPages - safetyPages, byAuthor) == FetchOutcome(targetCount, pages, PageTweets)
        invariant |requests| + RunCount(targetCount, pages, PageTweets, SafetyPages - safetyPages, byAuthor) == FetchCount(targetCount, pages, PageTweets)
        decreases safetyPages
      {
        var k := SafetyPages - safetyPages;
        safetyPages := safetyPages - 1;
        ghost var before := requests;
        requests := requests + [nextToken];
        RequestsSnoc(pages, k, before, nextToken);
        var done;
        done, r, byAuthor, nextToken := Round(targetCount, pages, k, byAuthor);
        assert SafetyPages - safetyPages == k + 1;
        if done {
          return;
        }
      }
      RunDone(targetCount, pages, PageTweets, SafetyPages - safetyPages, byAuthor);
      r := Ok(byAuthor);
    }
  }
}
