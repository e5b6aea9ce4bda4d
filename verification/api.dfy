/**
 The Web API client (`SpotifyAPI.get`): request URL construction, the bearer
 credential, and the bounded retry loop with its backoff schedule.

 The network is a `Server`: for a request (full URL plus `Authorization`
 header) and a 0-based attempt number it says how that attempt ends. Sleeping
 is not performed; the durations the client chooses are returned as data, and
 `sys.exit` becomes the `Exit` result.
 */
module Api {
  import opened Text
  import opened UrlEncoding

  /** Every relative resource path is resolved against this base. */
  const Base := "https://api.spotify.com/v1/"

  /** The attempt budget `get` uses unless told otherwise. */
  const DefaultTries := 3

  /** A client holds one OAuth token for its whole lifetime. */
  datatype Client = Client(token: string)

  datatype Request = Request(url: string, authorization: string)

  /** How one attempt ends: a decoded body, or the exception class the client catches. */
  datatype Outcome<P> =
    | Success(payload: P)  // 2xx with a JSON body that decodes
    | HttpError(code: int) // urllib.error.HTTPError
    | Network              // urllib.error.URLError that is not an HTTPError
    | BadJson              // json.JSONDecodeError
    | Other                // any other Exception

  /** Scripted network: outcome of attempt `a` of a request. */
  type Server<P> = Request -> nat -> Outcome<P>

  /** The two ways `get` ends the process. */
  datatype Fatal = AuthFatal | Exhausted

  datatype Result<P> = Ok(payload: P) | Exit(fatal: Fatal)

  /** How a run of attempts ended, how many attempts it made in all, and the sleeps it chose. */
  datatype Trace<P> = Trace(result: Result<P>, attempts: nat, sleeps: seq<nat>)

  /** What one call of `get` did: the request it sent and the trace of its attempts. */
  datatype Response<P> = Response(request: Request, result: Result<P>, attempts: nat, sleeps: seq<nat>)

  /** The `Authorization` header value for a client. */
  function Bearer(c: Client): (h: string)
    ensures StartsWith(h, "Bearer ") && h[7..] == c.token
  {
    "Bearer " + c.token
  }

  /** A relative path is prefixed with the API base; a URL that already starts with it is kept. */
  function Absolute(url: string): string {
    if StartsWith(url, Base) then url else Base + url
  }

  /** The URL `get` requests: absolute, with the encoded params after `?` or `&`. */
  function BuildUrl(url: string, params: Params): string {
    var u := Absolute(url);
    if |params| == 0 then u
    else u + [if '?' in u then '&' else '?'] + UrlEncode(params)
  }

  /** The absolute form of a path starts with the API base and ends with the path. */
  lemma AbsoluteSpec(url: string)
    ensures var r := Absolute(url);
      && StartsWith(r, Base)
      && EndsWith(r, url)
      && (StartsWith(url, Base) ==> r == url)
      && (!StartsWith(url, Base) ==> |r| == |Base| + |url|)
  {
    var r := Absolute(url);
    if !StartsWith(url, Base) {
      assert r[..|Base|] == Base;
      assert r[|r| - |url|..] == url;
    }
  }

  /**
   The built URL starts with the absolute path; with params, the path is
   followed by `&` when it already holds a `?` and by `?` otherwise, and
   then by the encoded params.
   */
  lemma BuildUrlSpec(url: string, params: Params)
    ensures var r, u := BuildUrl(url, params), Absolute(url);
      && StartsWith(r, Base)
      && StartsWith(r, u)
      && (|params| == 0 ==> r == u)
      && (|params| > 0 ==> |r| > |u| && '?' in r && r[|u| + 1..] == UrlEncode(params))
      && (|params| > 0 ==> (r[|u|] == '&' <==> '?' in u))
      && (|params| > 0 ==> (r[|u|] == '?' <==> '?' !in u))
  {
    var r, u := BuildUrl(url, params), Absolute(url);
    AbsoluteSpec(url);
    if |params| > 0 {
      var sep := if '?' in u then '&' else '?';
      QueryJoint(u, sep, UrlEncode(params));
      assert r[|u|] in r;
      if '?' in u {
        var k :| 0 <= k < |u| && u[k] == '?';
        assert r[k] == '?';
      }
    }
  }

  /** Where the path, the separator and the query sit in a built URL. */
  lemma QueryJoint(u: string, sep: char, q: string)
    requires StartsWith(u, Base)
    ensures var r := u + [sep] + q;
      && StartsWith(r, u) && StartsWith(r, Base)
      && r[|u|] == sep && r[|u| + 1..] == q
  {
    var r := u + [sep] + q;
    assert r[..|u|] == u;
    assert r[..|Base|] == u[..|Base|];
  }

  /** A URL that already names an API resource is requested verbatim when no params are given. */
  lemma NextUrlVerbatim(url: string)
    requires StartsWith(url, Base)
    ensures BuildUrl(url, []) == url
  {
    AbsoluteSpec(url);
  }

  /**
   With params and no `?` in the path, the text after the first `?` of the
   built URL is exactly the encoded parameter list, one `key=value` per param.
   */
  lemma QueryAfterPath(url: string, params: Params)
    requires |params| > 0
    requires '?' !in Absolute(url)
    ensures var r := BuildUrl(url, params); var q := |Absolute(url)|;
      r[q] == '?' && (forall i :: 0 <= i < q ==> r[i] != '?') && Split(r[q + 1..], '&') == EncodePairs(params)
  {
    var r := BuildUrl(url, params);
    var u := Absolute(url);
    BuildUrlSpec(url, params);
    forall i | 0 <= i < |u| ensures r[i] != '?' {
      assert r[i] == u[i];
    }
    QueryRoundTrip(params);
  }

  /** Attempts left for `range(tries)`: none when `tries` is not positive. */
  function Budget(tries: int): nat {
    if tries > 0 then tries else 0
  }

  /** Outcomes that end the retry loop at once: a decoded body, or a 401. */
  predicate Stops<P>(o: Outcome<P>) {
    o.Success? || (o.HttpError? && o.code == 401)
  }

  /** The result of a stopping outcome. */
  function Settle<P>(o: Outcome<P>): Result<P>
    requires Stops(o)
  {
    if o.Success? then Ok(o.payload) else Exit(AuthFatal)
  }

  /** No attempt in `[lo, hi)` stops the loop. */
  ghost predicate NoStop<P>(script: nat -> Outcome<P>, lo: nat, hi: nat) {
    forall k :: lo <= k < hi ==> !Stops(script(k))
  }

  /** Outcomes retried after a growing wait: a network error, or an HTTP error other than 401 and 429. */
  predicate Transient<P>(o: Outcome<P>) {
    o.Network? || (o.HttpError? && o.code != 401 && o.code != 429)
  }

  /** Outcomes retried after a flat wait: a body that is not JSON, or any other exception. */
  predicate Unreadable<P>(o: Outcome<P>) {
    o.BadJson? || o.Other?
  }

  /**
   The sleep, if any, that attempt `a` (0-based) of `tries` is followed by.
   A 429 waits `10*(a+1)` seconds even on the last attempt; other HTTP errors
   and network errors wait `2*(a+1)`, and JSON or unexpected errors a flat 2,
   but only when another attempt follows.
   */
  function Backoff<P>(o: Outcome<P>, a: nat, tries: int): (r: seq<nat>)
    ensures |r| <= 1
    ensures Stops(o) ==> r == []
    ensures |r| == 1 ==> 2 <= r[0] <= 10 * (a + 1)
    ensures (o.HttpError? && o.code == 429) <==> (|r| == 1 && r[0] == 10 * (a + 1) && o.HttpError? && o.code != 401)
    ensures !(o.HttpError? && o.code == 429) ==> (|r| == 1 <==> !Stops(o) && a < tries - 1)
    ensures Transient(o) ==> r == (if a < tries - 1 then [2 * (a + 1)] else [])
    ensures Unreadable(o) ==> r == (if a < tries - 1 then [2] else [])
    ensures o.HttpError? && o.code == 429 ==> r == [10 * (a + 1)]
  {
    match o
    case Success(_) => []
    case HttpError(code) =>
      if code == 401 then []
      else if code == 429 then [10 * (a + 1)]
      else if a < tries - 1 then [2 * (a + 1)] else []
    case Network => if a < tries - 1 then [2 * (a + 1)] else []
    case BadJson => if a < tries - 1 then [2] else []
    case Other => if a < tries - 1 then [2] else []
  }

  /** The sleeps of attempts `lo` to `hi - 1`, in order: the backoff schedule as a table. */
  function Schedule<P>(script: nat -> Outcome<P>, tries: int, lo: nat, hi: nat): seq<nat>
    decreases hi - lo
  {
    if lo >= hi then [] else Backoff(script(lo), lo, tries) + Schedule(script, tries, lo + 1, hi)
  }

  /**
   The retry loop from attempt `a` on: it stops at the first success or 401,
   otherwise it runs out of attempts. `attempts` counts every attempt made,
   including the `a` made before this point.
   */
  function Attempts<P>(script: nat -> Outcome<P>, tries: int, a: nat): (t: Trace<P>)
    requires a <= Budget(tries)
    decreases Budget(tries) - a
    ensures a <= t.attempts <= Budget(tries)
  {
    if a == Budget(tries) then Trace(Exit(Exhausted), a, [])
    else
      var o := script(a);
      if Stops(o) then Trace(Settle(o), a + 1, [])
      else
        var rest := Attempts(script, tries, a + 1);
        Trace(rest.result, rest.attempts, Backoff(o, a, tries) + rest.sleeps)
  }

  /**
   What the retry loop from attempt `a` does: it ends with the settled result
   of the first attempt that succeeds or is refused with a 401, and with no
   attempt after it; when there is none it gives up after the whole budget. Its
   sleeps are the backoff schedule of the attempts it made.
   */
  lemma {:induction false} AttemptsSpec<P>(script: nat -> Outcome<P>, tries: int, a: nat)
    requires a <= Budget(tries)
    ensures var t := Attempts(script, tries, a);
      && (t.result == Exit(Exhausted) <==> NoStop(script, a, Budget(tries)))
      && (t.result == Exit(Exhausted) ==> t.attempts == Budget(tries))
      && (t.result != Exit(Exhausted) ==>
            && a < t.attempts
            && NoStop(script, a, t.attempts - 1)
            && Stops(script(t.attempts - 1))
            && t.result == Settle(script(t.attempts - 1)))
      && t.sleeps == Schedule(script, tries, a, t.attempts)
    decreases Budget(tries) - a
  {
    if a < Budget(tries) && !Stops(script(a)) {
      AttemptsSpec(script, tries, a + 1);
    }
  }

  /** `SpotifyAPI.get(url, params, tries)`: the request carries the built URL and the client's bearer token. */
  function Get<P>(c: Client, server: Server<P>, url: string, params: Params, tries: int): (r: Response<P>)
    ensures r.request == Request(BuildUrl(url, params), Bearer(c))
    ensures r.attempts <= Budget(tries)
  {
    var req := Request(BuildUrl(url, params), Bearer(c));
    var t := Attempts(server(req), tries, 0);
    Response(req, t.result, t.attempts, t.sleeps)
  }

  /**
   What one call of `get` does: the first decoded body is returned; a 401 ends
   the run at once, with no further attempt; when no attempt of the budget
   succeeds or is refused the run ends too. At most `tries` attempts are made,
   and the sleeps between them follow `Schedule`.
   */
  lemma GetSpec<P>(c: Client, server: Server<P>, url: string, params: Params, tries: int)
    ensures var r := Get(c, server, url, params, tries); var script := server(r.request);
      && (r.result.Ok? <==>
           exists k :: 0 <= k < Budget(tries) && NoStop(script, 0, k) && script(k).Success?)
      && (r.result.Ok? ==> r.attempts > 0 && script(r.attempts - 1) == Success(r.result.payload))
      && (r.result == Exit(AuthFatal) ==> r.attempts > 0 && script(r.attempts - 1) == HttpError(401))
      && (r.result != Exit(Exhausted) ==>
            && r.attempts > 0
            && NoStop(script, 0, r.attempts - 1)
            && Stops(script(r.attempts - 1))
            && r.result == Settle(script(r.attempts - 1)))
      && (r.result == Exit(Exhausted) <==> NoStop(script, 0, Budget(tries)))
      && (r.result == Exit(Exhausted) ==> r.attempts == Budget(tries))
      && r.sleeps == Schedule(script, tries, 0, r.attempts)
  {
    var r := Get(c, server, url, params, tries);
    AttemptsSpec(server(r.request), tries, 0);
    if r.result.Ok? {
      var k := r.attempts - 1;
      assert NoStop(server(r.request), 0, k) && server(r.request)(k).Success?;
    }
  }

  /** A 401 at attempt `k`, after attempts that neither succeeded nor were refused, is the last attempt. */
  lemma UnauthorizedIsFinal<P>(c: Client, server: Server<P>, url: string, params: Params, tries: int, k: nat)
    requires var script := server(Request(BuildUrl(url, params), Bearer(c)));
      k < Budget(tries) && NoStop(script, 0, k) && script(k) == HttpError(401)
    ensures var r := Get(c, server, url, params, tries);
      r.result == Exit(AuthFatal) && r.attempts == k + 1
  {
    var script := server(Request(BuildUrl(url, params), Bearer(c)));
    FirstStopEnds(script, tries, k);
  }

  /** Attempt `k` decodes, after attempts that neither succeeded nor were refused: its body is returned. */
  lemma FirstSuccessIsReturned<P>(c: Client, server: Server<P>, url: string, params: Params, tries: int, k: nat, p: P)
    requires var script := server(Request(BuildUrl(url, params), Bearer(c)));
      k < Budget(tries) && NoStop(script, 0, k) && script(k) == Success(p)
    ensures var r := Get(c, server, url, params, tries);
      r.result == Ok(p) && r.attempts == k + 1
  {
    var script := server(Request(BuildUrl(url, params), Bearer(c)));
    FirstStopEnds(script, tries, k);
  }

  /** The retry loop ends at the first attempt that stops it, with that attempt's settled result. */
  lemma FirstStopEnds<P>(script: nat -> Outcome<P>, tries: int, k: nat)
    requires k < Budget(tries) && NoStop(script, 0, k) && Stops(script(k))
    ensures var t := Attempts(script, tries, 0);
      t.result == Settle(script(k)) && t.attempts == k + 1
  {
    var t := Attempts(script, tries, 0);
    AttemptsSpec(script, tries, 0);
    assert t.result != Exit(Exhausted);
    assert t.attempts - 1 <= k;
    assert t.attempts - 1 >= k;
  }

  /** Sum of a list of durations. */
  function Total(xs: seq<nat>): nat {
    if |xs| == 0 then 0 else xs[0] + Total(xs[1..])
  }

  lemma {:induction false} TotalAppend(xs: seq<nat>, ys: seq<nat>)
    ensures Total(xs + ys) == Total(xs) + Total(ys)
  {
    if |xs| > 0 {
      assert (xs + ys)[1..] == xs[1..] + ys;
      TotalAppend(xs[1..], ys);
    } else {
      assert xs + ys == ys;
    }
  }

  lemma {:induction false} ScheduleBound<P>(script: nat -> Outcome<P>, tries: int, lo: nat, hi: nat)
    requires lo <= hi
    ensures Total(Schedule(script, tries, lo, hi)) <= 5 * hi * (hi + 1) - 5 * lo * (lo + 1)
    decreases hi - lo
  {
    if lo < hi {
      var b := Backoff(script(lo), lo, tries);
      ScheduleBound(script, tries, lo + 1, hi);
      TotalAppend(b, Schedule(script, tries, lo + 1, hi));
      BackoffTotal(script(lo), lo, tries);
      TriangleStep(lo);
    }
  }

  /** One backoff sleeps at most `10*(a+1)` seconds. */
  lemma BackoffTotal<P>(o: Outcome<P>, a: nat, tries: int)
    ensures Total(Backoff(o, a, tries)) <= 10 * (a + 1)
  {
    var b := Backoff(o, a, tries);
    if |b| == 1 {
      assert b[1..] == [];
    }
  }

  lemma TriangleStep(n: nat)
    ensures 5 * (n + 1) * (n + 2) - 5 * n * (n + 1) == 10 * (n + 1)
  {
  }

  /** However the attempts end, one call of `get` sleeps at most `5*tries*(tries+1)` seconds in all. */
  lemma WaitBound<P>(c: Client, server: Server<P>, url: string, params: Params, tries: int)
    ensures var n := Budget(tries); Total(Get(c, server, url, params, tries).sleeps) <= 5 * n * (n + 1)
  {
    var r := Get(c, server, url, params, tries);
    var t := Attempts(server(r.request), tries, 0);
    assert r.sleeps == t.sleeps && r.attempts == t.attempts;
    AttemptsSpec(server(r.request), tries, 0);
    var m, n := t.attempts, Budget(tries);
    ScheduleBound(server(r.request), tries, 0, m);
    Triangle(m, n);
  }

  lemma Triangle(m: nat, n: nat)
    requires m <= n
    ensures 5 * m * (m + 1) <= 5 * n * (n + 1)
  {
    assert m * (m + 1) <= n * (m + 1);
    assert n * (m + 1) <= n * (n + 1);
  }

  /**
   When every attempt is rate limited, the client sleeps `10, 20, ...,
   10*tries` seconds, the last one after the final attempt, and then gives up.
   */
  lemma {:induction false} AllRateLimited<P>(script: nat -> Outcome<P>, tries: int, a: nat)
    requires a <= Budget(tries)
    requires forall k :: script(k) == HttpError(429)
    ensures var t := Attempts(script, tries, a);
      && t.result == Exit(Exhausted)
      && |t.sleeps| == Budget(tries) - a
      && forall i :: 0 <= i < |t.sleeps| ==> t.sleeps[i] == 10 * (a + i + 1)
    decreases Budget(tries) - a
  {
    if a < Budget(tries) {
      AllRateLimited(script, tries, a + 1);
      var rest := Attempts(script, tries, a + 1);
      var t := Attempts(script, tries, a);
      assert t.sleeps == [10 * (a + 1)] + rest.sleeps;
    }
  }

  /**
   When every attempt fails with a network error or an HTTP error other than
   401 and 429, the client sleeps `2, 4, ...` between attempts and not after
   the last one, then gives up.
   */
  lemma {:induction false} AllTransientErrors<P>(script: nat -> Outcome<P>, tries: int, a: nat)
    requires a < Budget(tries)
    requires forall k :: Transient(script(k))
    ensures var t := Attempts(script, tries, a);
      && t.result == Exit(Exhausted)
      && |t.sleeps| == Budget(tries) - a - 1
      && forall i :: 0 <= i < |t.sleeps| ==> t.sleeps[i] == 2 * (a + i + 1)
    decreases Budget(tries) - a
  {
    var t := Attempts(script, tries, a);
    assert !Stops(script(a));
    if a + 1 < Budget(tries) {
      AllTransientErrors(script, tries, a + 1);
      var rest := Attempts(script, tries, a + 1);
      assert t.sleeps == [2 * (a + 1)] + rest.sleeps;
    } else {
      var rest := Attempts(script, tries, a + 1);
      assert rest.sleeps == [];
    }
  }

  /**
   When no attempt's body can be read, the client sleeps a flat 2 seconds
   between attempts and not after the last one, then gives up.
   */
  lemma {:induction false} AllUnreadable<P>(script: nat -> Outcome<P>, tries: int, a: nat)
    requires a < Budget(tries)
    requires forall k :: Unreadable(script(k))
    ensures var t := Attempts(script, tries, a);
      && t.result == Exit(Exhausted)
      && |t.sleeps| == Budget(tries) - a - 1
      && forall i :: 0 <= i < |t.sleeps| ==> t.sleeps[i] == 2
    decreases Budget(tries) - a
  {
    var t := Attempts(script, tries, a);
    assert !Stops(script(a));
    if a + 1 < Budget(tries) {
      AllUnreadable(script, tries, a + 1);
      var rest := Attempts(script, tries, a + 1);
      assert t.sleeps == [2] + rest.sleeps;
    } else {
      var rest := Attempts(script, tries, a + 1);
      assert rest.sleeps == [];
    }
  }

  /** A 429 followed by a decoded body: one 10-second wait, then the body is returned. */
  lemma RateLimitThenSuccess<P>(c: Client, server: Server<P>, url: string, params: Params, tries: int, p: P)
    requires tries >= 2
    requires var script := server(Request(BuildUrl(url, params), Bearer(c)));
      script(0) == HttpError(429) && script(1) == Success(p)
    ensures var r := Get(c, server, url, params, tries);
      r.result == Ok(p) && r.attempts == 2 && r.sleeps == [10]
  {
    var script := server(Request(BuildUrl(url, params), Bearer(c)));
    FirstSuccessIsReturned(c, server, url, params, tries, 1, p);
    GetSpec(c, server, url, params, tries);
    assert Schedule(script, tries, 0, 2) == [10] + Schedule(script, tries, 1, 2);
  }
}
