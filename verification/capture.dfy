/**
 Browser authorization: the authorize URL, the local handler that turns the
 redirect's URL fragment into a `/token?` request and reads `access_token`
 from it, and the serving loop that runs until a token has been captured.

 The handler ends the loop with an exception in the program; here capturing
 is a returned value. Request paths are the input, in arrival order.
 */
module Capture {
  import opened Wrappers
  import opened Text
  import opened UrlEncoding
  import opened Api

  /** The local port the redirect URI names; the authorization service only redirects to registered URIs. */
  const ServerPort := 43019

  const RedirectUri := "http://127.0.0.1:" + NatToString(ServerPort) + "/redirect"

  const AuthorizeEndpoint := "https://accounts.spotify.com/authorize?"

  /** The query parameters of the authorize URL, in the order they are written. */
  function AuthorizeParams(clientId: string, scope: string): Params {
    [ ("response_type", Str("token")),
      ("client_id", Str(clientId)),
      ("scope", Str(scope)),
      ("redirect_uri", Str(RedirectUri)) ]
  }

  /** The URL the user is sent to. */
  function AuthorizeUrl(clientId: string, scope: string): (r: string)
    ensures StartsWith(r, AuthorizeEndpoint)
    ensures r[|AuthorizeEndpoint|..] == UrlEncode(AuthorizeParams(clientId, scope))
  {
    AuthorizeEndpoint + UrlEncode(AuthorizeParams(clientId, scope))
  }

  /**
   The query of the authorize URL reads back as four `key=value` pairs in
   order, the redirect URI among them, each value encoded from what was passed.
   */
  lemma AuthorizeQuery(clientId: string, scope: string)
    ensures var q := AuthorizeUrl(clientId, scope)[|AuthorizeEndpoint|..];
      var pieces := Split(q, '&');
      && |pieces| == 4
      && Split(pieces[0], '=') == ["response_type", "token"]
      && Split(pieces[1], '=') == ["client_id", QuotePlus(clientId)]
      && Split(pieces[2], '=') == ["scope", QuotePlus(scope)]
      && Split(pieces[3], '=') == ["redirect_uri", QuotePlus(RedirectUri)]
  {
    var ps := AuthorizeParams(clientId, scope);
    QueryRoundTrip(ps);
    ResponseTypeVerbatim();
    TokenVerbatim();
    ClientIdVerbatim();
    ScopeVerbatim();
    RedirectUriVerbatim();
  }

  // The parameter names, and the value `token`, are made of always-safe
  // characters, so encoding writes them as they are. One lemma each keeps
  // the solver from unfolding them all at once.

  lemma TokenVerbatim()
    ensures QuotePlus("token") == "token"
  {
    var s := "token";
    assert forall i | 0 <= i < |s| :: AlwaysSafe(s[i]);
  }

  lemma ResponseTypeVerbatim()
    ensures QuotePlus("response_type") == "response_type"
  {
    var s := "response_type";
    assert forall i | 0 <= i < |s| :: AlwaysSafe(s[i]);
  }

  lemma ClientIdVerbatim()
    ensures QuotePlus("client_id") == "client_id"
  {
    var s := "client_id";
    assert forall i | 0 <= i < |s| :: AlwaysSafe(s[i]);
  }

  lemma ScopeVerbatim()
    ensures QuotePlus("scope") == "scope"
  {
    var s := "scope";
    assert forall i | 0 <= i < |s| :: AlwaysSafe(s[i]);
  }

  lemma RedirectUriVerbatim()
    ensures QuotePlus("redirect_uri") == "redirect_uri"
  {
    var s := "redirect_uri";
    assert forall i | 0 <= i < |s| :: AlwaysSafe(s[i]);
  }

  /** What the handler answers to one GET. */
  datatype Reply =
    | Bridge                 // 200 with the script that forwards the fragment to `/token?`
    | Thanks(token: string)  // 200 with the thank-you page; the token is captured
    | BadRequest             // a `/token?` request without `access_token`: the thank-you headers, then a 400
    | NotFound               // 404

  const TokenKey := "access_token="

  /**
   The first group of `re.search('access_token=([^&]*)', path)`: the text
   after the first `access_token=`, up to the next `&` or the end.
   */
  function ExtractToken(path: string): (r: Option<string>)
    ensures r.Some? <==> Contains(path, TokenKey)
    ensures r.Some? ==> exists i :: TokenAt(path, i, r.value)
  {
    match IndexOf(path, TokenKey, 0)
    case None => None
    case Some(i) =>
      var t := TakeUntil(path[i + |TokenKey|..], '&');
      assert TokenAt(path, i, t);
      Some(t)
  }

  /**
   `token` is what follows the FIRST `access_token=` in `path`, which sits at
   `i`: it holds no `&` and ends at the end of `path` or at an `&`.
   */
  predicate TokenAt(path: string, i: nat, token: string) {
    && OccursAt(path, TokenKey, i)
    && (forall j :: 0 <= j < i ==> !OccursAt(path, TokenKey, j))
    && OccursAt(path, token, i + |TokenKey|)
    && '&' !in token
    && (i + |TokenKey| + |token| == |path| || path[i + |TokenKey| + |token|] == '&')
  }

  /** The token of a path is unique: at most one `i` and one text satisfy `TokenAt`. */
  lemma TokenAtUnique(path: string, i: nat, t: string, i': nat, t': string)
    requires TokenAt(path, i, t) && TokenAt(path, i', t')
    ensures i == i' && t == t'
  {
    assert i == i';
    var k := i + |TokenKey|;
    assert StartsWith(path[k..], t) by {
      assert path[k..][..|t|] == path[k..k + |t|];
    }
    assert StartsWith(path[k..], t') by {
      assert path[k..][..|t'|] == path[k..k + |t'|];
    }
    TakeUntilUnique(path[k..], '&', t);
    TakeUntilUnique(path[k..], '&', t');
  }

  /** `_AuthorizationHandler.do_GET` */
  function HandleGet(path: string): (r: Reply)
    ensures r.Bridge? <==> StartsWith(path, "/redirect")
    ensures r.Thanks? <==> !StartsWith(path, "/redirect") && StartsWith(path, "/token?") && Contains(path, TokenKey)
    ensures r.Thanks? ==> exists i :: TokenAt(path, i, r.token)
    ensures r.BadRequest? <==> !StartsWith(path, "/redirect") && StartsWith(path, "/token?") && !Contains(path, TokenKey)
    ensures r.NotFound? <==> !StartsWith(path, "/redirect") && !StartsWith(path, "/token?")
  {
    if StartsWith(path, "/redirect") then Bridge
    else if StartsWith(path, "/token?") then
      match ExtractToken(path)
      case None => BadRequest
      case Some(t) => Thanks(t)
    else NotFound
  }

  /** The request the bridge page makes: `token?` followed by the URL fragment without its `#`. */
  function BridgeTarget(fragment: string): string {
    "/token?" + fragment
  }

  /**
   The redirect completes: the bridge page is served for the redirect URI's
   path, and the request it forwards yields exactly the token of the fragment,
   whatever parameters follow it.
   */
  lemma {:induction false} RedirectYieldsToken(query: string, token: string, rest: string)
    requires '&' !in token
    requires rest == "" || rest[0] == '&'
    ensures HandleGet("/redirect" + query).Bridge?
    ensures HandleGet(BridgeTarget(TokenKey + token + rest)) == Thanks(token)
  {
    PrefixOfAppend("/redirect", query);
    var head := "/token?";
    var path := BridgeTarget(TokenKey + token + rest);
    assert path == head + TokenKey + (token + rest);
    assert path == (head + TokenKey) + token + rest;
    assert !StartsWith(path, "/redirect") by {
      assert path[1] == 't';
    }
    PrefixOfAppend(head, TokenKey + token + rest);
    var i := |head|;
    OccursInMiddle(head, TokenKey, token + rest);
    forall j | 0 <= j < i ensures path[j] != TokenKey[0] {
      assert path[j] == head[j];
    }
    AbsentBefore(path, TokenKey, i);
    var k := i + |TokenKey|;
    OccursInMiddle(head + TokenKey, token, rest);
    if rest != "" {
      assert path[k + |token|] == rest[0];
    }
    assert TokenAt(path, i, token);
    var r := HandleGet(path);
    assert r.Thanks?;
    var i' :| TokenAt(path, i', r.token);
    TokenAtUnique(path, i, token, i', r.token);
  }

  /** The listener before and after the token arrives. */
  datatype State = Listening | Captured(token: string)

  /** The reply to each request, in order. */
  function Replies(paths: seq<string>): (r: seq<Reply>)
    ensures |r| == |paths|
    ensures forall j :: 0 <= j < |paths| ==> r[j] == HandleGet(paths[j])
  {
    seq(|paths|, j requires 0 <= j < |paths| => HandleGet(paths[j]))
  }

  /** The listener after one reply. Once a token is held, later requests change nothing. */
  function Step(s: State, reply: Reply): (s': State)
    ensures s.Captured? ==> s' == s
    ensures s.Listening? ==> (s'.Captured? <==> reply.Thanks?)
    ensures s'.Captured? && s.Listening? ==> s'.token == reply.token
  {
    match s
    case Captured(_) => s
    case Listening =>
      match reply
      case Thanks(t) => Captured(t)
      case _ => Listening
  }

  /**
   The state after a sequence of replies. A held token is kept; a listener
   that ends listening saw no token, and one that ends holding a token took it
   from the first reply that carried one.
   */
  function Run(s: State, replies: seq<Reply>): (r: State)
    decreases |replies|
    ensures s.Captured? ==> r == s
    ensures s.Listening? && r.Listening? ==> forall j :: 0 <= j < |replies| ==> !replies[j].Thanks?
    ensures s.Listening? && r.Captured? ==>
      exists n :: 0 <= n < |replies| && replies[n] == Thanks(r.token) && forall j :: 0 <= j < n ==> !replies[j].Thanks?
  {
    if |replies| == 0 then s
    else
      var r := Run(Step(s, replies[0]), replies[1..]);
      if s.Listening? && r.Captured? && !replies[0].Thanks? then
        var n :| 0 <= n < |replies[1..]| && replies[1..][n] == Thanks(r.token) && forall j :: 0 <= j < n ==> !replies[1..][j].Thanks?;
        assert replies[n + 1] == Thanks(r.token) && forall j :: 0 <= j < n + 1 ==> !replies[j].Thanks?;
        r
      else r
  }

  /** How the loop ends on the given requests. */
  datatype Served =
    | Authorized(client: Client, handled: nat, replies: seq<Reply>)
    | Waiting(replies: seq<Reply>)  // every request was answered and no token arrived: the loop keeps listening

  /**
   The `authorize` loop: handle requests one at a time until one captures a
   token, then return a client holding exactly that token.
   */
  method Serve(paths: seq<string>) returns (r: Served)
    ensures r.Authorized? ==>
      && 1 <= r.handled <= |paths|
      && HandleGet(paths[r.handled - 1]).Thanks?
      && r.client == Client(HandleGet(paths[r.handled - 1]).token)
      && (forall j :: 0 <= j < r.handled - 1 ==> !HandleGet(paths[j]).Thanks?)
      && |r.replies| == r.handled
      && (forall j :: 0 <= j < r.handled ==> r.replies[j] == HandleGet(paths[j]))
    ensures r.Waiting? ==>
      && (forall j :: 0 <= j < |paths| ==> !HandleGet(paths[j]).Thanks?)
      && |r.replies| == |paths|
      && (forall j :: 0 <= j < |paths| ==> r.replies[j] == HandleGet(paths[j]))
  {
    var replies: seq<Reply> := [];
    var n := 0;
    while n < |paths|
      invariant 0 <= n <= |paths|
      invariant |replies| == n
      invariant forall j :: 0 <= j < n ==> replies[j] == HandleGet(paths[j])
      invariant forall j :: 0 <= j < n ==> !HandleGet(paths[j]).Thanks?
    {
      var reply := HandleGet(paths[n]);
      replies := replies + [reply];
      if reply.Thanks? {
        return Authorized(Client(reply.token), n + 1, replies);
      }
      n := n + 1;
    }
    return Waiting(replies);
  }

  /** Replies that capture nothing leave a listener listening. */
  lemma {:induction false} RunListening(replies: seq<Reply>)
    requires forall j :: 0 <= j < |replies| ==> !replies[j].Thanks?
    ensures Run(Listening, replies) == Listening
    decreases |replies|
  {
    if |replies| > 0 {
      assert Step(Listening, replies[0]) == Listening;
      RunListening(replies[1..]);
    }
  }

  /** A captured token survives any later requests. */
  lemma {:induction false} RunCaptured(t: string, replies: seq<Reply>)
    ensures Run(Captured(t), replies) == Captured(t)
    decreases |replies|
  {
    if |replies| > 0 {
      RunCaptured(t, replies[1..]);
    }
  }

  /** Running the replies in two parts is running them all. */
  lemma {:induction false} RunAppend(s: State, a: seq<Reply>, b: seq<Reply>)
    ensures Run(s, a + b) == Run(Run(s, a), b)
    decreases |a|
  {
    if |a| > 0 {
      assert (a + b)[0] == a[0];
      assert (a + b)[1..] == a[1..] + b;
      assert Run(s, a + b) == Run(Step(s, a[0]), a[1..] + b);
      RunAppend(Step(s, a[0]), a[1..], b);
    } else {
      assert a + b == b;
    }
  }

  /** The machine ends holding the token of the first reply that captures one. */
  lemma RunFirstCapture(replies: seq<Reply>, n: nat)
    requires 1 <= n <= |replies|
    requires replies[n - 1].Thanks?
    requires forall j :: 0 <= j < n - 1 ==> !replies[j].Thanks?
    ensures Run(Listening, replies) == Captured(replies[n - 1].token)
  {
    var before, p, rest := replies[..n - 1], replies[n - 1], replies[n..];
    SplitAround(replies, n - 1);
    assert forall j :: 0 <= j < |before| ==> before[j] == replies[j];
    RunListening(before);
    RunAppend(Listening, before + [p], rest);
    RunAppend(Listening, before, [p]);
    assert Run(Listening, [p]) == Captured(p.token);
    RunCaptured(p.token, rest);
  }

  lemma SplitAround<X>(s: seq<X>, k: nat)
    requires k < |s|
    ensures s == s[..k] + [s[k]] + s[k + 1..]
  {
  }

  /**
   The loop agrees with the two-state machine fed the replies to the same
   requests: it authorizes with token `t` exactly when the machine ends
   `Captured(t)`, and it keeps waiting exactly when the machine is still
   `Listening`.
   */
  lemma ServeAgreesWithRun(paths: seq<string>, r: Served)
    requires r.Authorized? ==>
      && 1 <= r.handled <= |paths|
      && HandleGet(paths[r.handled - 1]).Thanks?
      && r.client == Client(HandleGet(paths[r.handled - 1]).token)
      && (forall j :: 0 <= j < r.handled - 1 ==> !HandleGet(paths[j]).Thanks?)
    requires r.Waiting? ==> forall j :: 0 <= j < |paths| ==> !HandleGet(paths[j]).Thanks?
    ensures r.Authorized? ==> Run(Listening, Replies(paths)) == Captured(r.client.token)
    ensures r.Waiting? ==> Run(Listening, Replies(paths)) == Listening
  {
    if r.Authorized? {
      RunFirstCapture(Replies(paths), r.handled);
    } else {
      RunListening(Replies(paths));
    }
  }

  /** The outcome of `SpotifyAPI.authorize`: the URL shown to the user and how the loop ended. */
  datatype Authorization = Authorization(url: string, served: Served)

  method Authorize(clientId: string, scope: string, paths: seq<string>) returns (r: Authorization)
    ensures r.url == AuthorizeUrl(clientId, scope)
    ensures r.served.Authorized? ==> Run(Listening, Replies(paths)) == Captured(r.served.client.token)
    ensures r.served.Waiting? ==> Run(Listening, Replies(paths)) == Listening
  {
    var served := Serve(paths);
    ServeAgreesWithRun(paths, served);
    return Authorization(AuthorizeUrl(clientId, scope), served);
  }
}
