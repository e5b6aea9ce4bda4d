/**
 Pagination (`SpotifyAPI.list`): the first page is requested with the
 caller's params, then every `next` link is requested as given, and the
 `items` of all pages are concatenated in order.

 The source loop has no bound; here `fuel` is the number of `next` links the
 walk may follow, and `OutOfFuel` reports that it would have gone further.
 */
module Paging {
  import opened Wrappers
  import opened Text
  import opened UrlEncoding
  import opened Api

  /**
   A decoded page: `items`, `next` (JSON `null` is `None`) and `total`.
   `Unreadable` is a body that lacks `items` or `next`, so reading it raises.
   */
  datatype Page<T> = Page(items: seq<T>, next: Option<string>, total: int) | Unreadable

  /** `response['next']` is truthy: present and not the empty string. */
  predicate HasNext<T(==)>(p: Page<T>) {
    p.Page? && p.next.Some? && p.next.value != ""
  }

  /** How a listing ends: all items, a non-fatal exception, a process exit, or the fuel bound. */
  datatype Listing<T> = Listed(items: seq<T>) | Raised | Halted(fatal: Fatal) | OutOfFuel

  /** A listing together with the URLs of every `get` it made, in order. */
  datatype Walk<T> = Walk(listing: Listing<T>, urls: seq<string>)

  /** `get` with the default attempt budget. */
  function Fetch<T(==)>(c: Client, server: Server<Page<T>>, url: string, params: Params): Response<Page<T>> {
    Get(c, server, url, params, DefaultTries)
  }

  /** How one `get` of an already built URL ends, with the default attempt budget. */
  function Answer<T(==)>(c: Client, server: Server<Page<T>>, url: string): Result<Page<T>> {
    Attempts(server(Request(url, Bearer(c))), DefaultTries, 0).result
  }

  /** A fetch requests the built URL, and ends as that URL's answer. */
  lemma FetchAnswer<T>(c: Client, server: Server<Page<T>>, url: string, params: Params)
    ensures Fetch(c, server, url, params).request.url == BuildUrl(url, params)
    ensures Fetch(c, server, url, params).result == Answer(c, server, BuildUrl(url, params))
  {
  }

  /**
   The `while response['next']` loop: `items` holds what has been collected so
   far and `response` the last page read.
   */
  function Follow<T(==)>(c: Client, server: Server<Page<T>>, items: seq<T>, response: Page<T>, fuel: nat, urls: seq<string>): (w: Walk<T>)
    requires response.Page?
    decreases fuel
    ensures |urls| <= |w.urls| <= |urls| + fuel
    ensures w.urls[..|urls|] == urls
    ensures w.listing.Listed? ==> StartsWith(w.listing.items, items)
    ensures !HasNext(response) ==> w == Walk(Listed(items), urls)
  {
    if !HasNext(response) then Walk(Listed(items), urls)
    else if fuel == 0 then Walk(OutOfFuel, urls)
    else
      var g := Fetch(c, server, response.next.value, []);
      var urls' := urls + [g.request.url];
      match g.result
      case Exit(f) => Walk(Halted(f), urls')
      case Ok(page) =>
        if page.Unreadable? then Walk(Raised, urls')
        else
          var w := Follow(c, server, items + page.items, page, fuel - 1, urls');
          assert w.urls[..|urls|] == w.urls[..|urls'|][..|urls|];
          w
  }

  /**
   `SpotifyAPI.list(url, params)`. The first request carries the params; a first
   page without a truthy `next` is the only request made.
   */
  function List<T(==)>(c: Client, server: Server<Page<T>>, url: string, params: Params, fuel: nat): (w: Walk<T>)
    ensures 1 <= |w.urls| <= fuel + 1
    ensures w.urls[0] == BuildUrl(url, params)
    ensures var first := Fetch(c, server, url, params).result;
      first.Ok? && first.payload.Page? && !HasNext(first.payload) ==>
        w == Walk(Listed(first.payload.items), [BuildUrl(url, params)])
    ensures var first := Fetch(c, server, url, params).result;
      first.Exit? ==> w == Walk(Halted(first.fatal), [BuildUrl(url, params)])
    ensures var first := Fetch(c, server, url, params).result;
      first == Ok(Unreadable) ==> w == Walk(Raised, [BuildUrl(url, params)])
  {
    var g := Fetch(c, server, url, params);
    match g.result
    case Exit(f) => Walk(Halted(f), [g.request.url])
    case Ok(page) =>
      if page.Unreadable? then Walk(Raised, [g.request.url])
      else
        var w := Follow(c, server, page.items, page, fuel, [g.request.url]);
        assert w.urls[0] == w.urls[..1][0];
        w
  }

  /**
   The walk ended with an exit or an exception on a request of its own: the
   last URL it requested, after the first `n`, answered with that exit or
   with an unreadable page.
   */
  predicate EndsOnAnswer<T(==)>(c: Client, server: Server<Page<T>>, w: Walk<T>, n: nat) {
    && (w.listing.Halted? ==> |w.urls| > n && Answer(c, server, w.urls[|w.urls| - 1]) == Exit(w.listing.fatal))
    && (w.listing.Raised? ==> |w.urls| > n && Answer(c, server, w.urls[|w.urls| - 1]) == Ok(Unreadable))
  }

  /**
   A walk ends with an exception or an exit only on a request of its own: the
   last URL it requested answered with an unreadable page, or exited with
   that exit. A `SystemExit` from any later `get` is never turned into a
   caught exception.
   */
  lemma {:induction false} FollowEnd<T>(c: Client, server: Server<Page<T>>, items: seq<T>, response: Page<T>, fuel: nat, urls: seq<string>)
    requires response.Page?
    ensures EndsOnAnswer(c, server, Follow(c, server, items, response, fuel, urls), |urls|)
    decreases fuel
  {
    if HasNext(response) && fuel > 0 {
      var g := Fetch(c, server, response.next.value, []);
      if g.result.Ok? && g.result.payload.Page? {
        FollowEnd(c, server, items + g.result.payload.items, g.result.payload, fuel - 1, urls + [g.request.url]);
        EndLater(c, server, items, response, fuel, urls);
      } else {
        EndHere(c, server, items, response, fuel, urls);
      }
    } else {
      FollowDone(c, server, items, response, fuel, urls);
    }
  }

  /** The fetched `next` page ends the walk: the walk's last request is that fetch. */
  lemma EndHere<T>(c: Client, server: Server<Page<T>>, items: seq<T>, response: Page<T>, fuel: nat, urls: seq<string>)
    requires response.Page? && HasNext(response) && fuel > 0
    requires var g := Fetch(c, server, response.next.value, []); !(g.result.Ok? && g.result.payload.Page?)
    ensures EndsOnAnswer(c, server, Follow(c, server, items, response, fuel, urls), |urls|)
  {
    var g := Fetch(c, server, response.next.value, []);
    var urls' := urls + [g.request.url];
    FollowOne(c, server, items, response, fuel, urls);
    FetchAnswer(c, server, response.next.value, []);
    assert urls'[|urls'| - 1] == g.request.url;
  }

  /** The fetched `next` page is readable: the walk ends as the walk from that page does. */
  lemma EndLater<T>(c: Client, server: Server<Page<T>>, items: seq<T>, response: Page<T>, fuel: nat, urls: seq<string>)
    requires response.Page? && HasNext(response) && fuel > 0
    requires var g := Fetch(c, server, response.next.value, []);
      && g.result.Ok? && g.result.payload.Page?
      && EndsOnAnswer(c, server, Follow(c, server, items + g.result.payload.items, g.result.payload, fuel - 1, urls + [g.request.url]), |urls| + 1)
    ensures EndsOnAnswer(c, server, Follow(c, server, items, response, fuel, urls), |urls|)
  {
    FollowOne(c, server, items, response, fuel, urls);
  }

  /** Without a truthy `next`, or without fuel, the walk stops without a request. */
  lemma FollowDone<T>(c: Client, server: Server<Page<T>>, items: seq<T>, response: Page<T>, fuel: nat, urls: seq<string>)
    requires response.Page? && (!HasNext(response) || fuel == 0)
    ensures var l := Follow(c, server, items, response, fuel, urls).listing; l.Listed? || l.OutOfFuel?
  {
  }

  /** The same for `list`: an exception or exit comes from the last request it made. */
  lemma ListEnd<T>(c: Client, server: Server<Page<T>>, url: string, params: Params, fuel: nat)
    ensures EndsOnAnswer(c, server, List(c, server, url, params, fuel), 0)
  {
    var g := Fetch(c, server, url, params);
    FetchAnswer(c, server, url, params);
    if g.result.Ok? && g.result.payload.Page? {
      FollowEnd(c, server, g.result.payload.items, g.result.payload, fuel, [g.request.url]);
    }
  }

  /** One turn of the loop: the `next` link is fetched, and its outcome ends the walk or continues it. */
  lemma FollowOne<T>(c: Client, server: Server<Page<T>>, items: seq<T>, response: Page<T>, fuel: nat, urls: seq<string>)
    requires response.Page? && HasNext(response) && fuel > 0
    ensures var g := Fetch(c, server, response.next.value, []);
      var w := Follow(c, server, items, response, fuel, urls);
      var urls' := urls + [g.request.url];
      && (g.result.Exit? ==> w == Walk(Halted(g.result.fatal), urls'))
      && (g.result == Ok(Unreadable) ==> w == Walk(Raised, urls'))
      && (g.result.Ok? && g.result.payload.Page? ==>
            w == Follow(c, server, items + g.result.payload.items, g.result.payload, fuel - 1, urls'))
  {
  }

  /** The `next` link of a page, or the empty string. */
  function NextOf<T>(p: Page<T>): string {
    if p.Page? && p.next.Some? then p.next.value else ""
  }

  /** The items a page contributes. */
  function ItemsOf<T(==)>(p: Page<T>): seq<T> {
    if p.Page? then p.items else []
  }

  /** The items of a sequence of pages, concatenated in order. */
  function Items<T(==)>(pages: seq<Page<T>>): seq<T> {
    if |pages| == 0 then [] else ItemsOf(pages[0]) + Items(pages[1..])
  }

  /**
   `pages` is a chain: every page is readable, each but the last has a truthy
   `next` whose fetch returns the following page, and the last has none.
   */
  ghost predicate Linked<T>(c: Client, server: Server<Page<T>>, pages: seq<Page<T>>)
    decreases |pages|
  {
    && |pages| >= 1
    && pages[0].Page?
    && if |pages| == 1 then !HasNext(pages[0])
       else
         && HasNext(pages[0])
         && Fetch(c, server, pages[0].next.value, []).result == Ok(pages[1])
         && Linked(c, server, pages[1..])
  }

  /** The chain the resource at `url` presents when first requested with `params`. */
  ghost predicate IsChain<T>(c: Client, server: Server<Page<T>>, url: string, params: Params, pages: seq<Page<T>>) {
    |pages| >= 1 && Fetch(c, server, url, params).result == Ok(pages[0]) && Linked(c, server, pages)
  }

  /** The URL requested for each `next` link of a chain: every page's but the last, with no params. */
  function NextUrls<T>(pages: seq<Page<T>>): (r: seq<string>)
    ensures |r| == if |pages| == 0 then 0 else |pages| - 1
    decreases |pages|
  {
    if |pages| <= 1 then [] else [BuildUrl(NextOf(pages[0]), [])] + NextUrls(pages[1..])
  }

  /** The `i`-th of these URLs is the `next` link of page `i`, requested with no params. */
  lemma {:induction false} NextUrlsAt<T>(pages: seq<Page<T>>, i: nat)
    requires i + 1 < |pages|
    ensures NextUrls(pages)[i] == BuildUrl(NextOf(pages[i]), [])
    decreases i
  {
    if i > 0 {
      NextUrlsAt(pages[1..], i - 1);
      assert pages[1..][i - 1] == pages[i];
    }
  }

  /** One step along a chain: the next link is requested with no params and its page is appended. */
  lemma FollowStep<T>(c: Client, server: Server<Page<T>>, items: seq<T>, pages: seq<Page<T>>, fuel: nat, urls: seq<string>)
    requires Linked(c, server, pages) && |pages| >= 2 && fuel >= 1
    ensures pages[1].Page? && Linked(c, server, pages[1..])
    ensures Follow(c, server, items, pages[0], fuel, urls)
         == Follow(c, server, items + pages[1].items, pages[1], fuel - 1, urls + [BuildUrl(NextOf(pages[0]), [])])
  {
    assert pages[1..][0] == pages[1];
  }

  /**
   Walking a chain of pages collects the items of every later page, in order,
   after the ones already held, and requests each `next` link with no params.
   */
  lemma {:induction false} FollowChain<T>(c: Client, server: Server<Page<T>>, items: seq<T>, pages: seq<Page<T>>, fuel: nat, urls: seq<string>)
    requires Linked(c, server, pages)
    requires |pages| <= fuel + 1
    ensures Follow(c, server, items, pages[0], fuel, urls) == Walk(Listed(items + Items(pages[1..])), urls + NextUrls(pages))
    decreases |pages|
  {
    if |pages| == 1 {
      FollowLast(c, server, items, pages, fuel, urls);
    } else {
      LinkedTail(c, server, pages);
      FollowChain(c, server, items + pages[1].items, pages[1..], fuel - 1, urls + [BuildUrl(NextOf(pages[0]), [])]);
      FollowChainStep(c, server, items, pages, fuel, urls);
    }
  }

  lemma LinkedTail<T>(c: Client, server: Server<Page<T>>, pages: seq<Page<T>>)
    requires Linked(c, server, pages) && |pages| >= 2
    ensures Linked(c, server, pages[1..]) && pages[1..][0] == pages[1]
  {
  }

  /** One step of `FollowChain`: the walk from the second page, prefixed by the first step. */
  lemma FollowChainStep<T>(c: Client, server: Server<Page<T>>, items: seq<T>, pages: seq<Page<T>>, fuel: nat, urls: seq<string>)
    requires Linked(c, server, pages) && |pages| >= 2 && fuel >= 1 && pages[1].Page?
    requires var u := urls + [BuildUrl(NextOf(pages[0]), [])];
      Follow(c, server, items + pages[1].items, pages[1], fuel - 1, u)
      == Walk(Listed((items + pages[1].items) + Items(pages[1..][1..])), u + NextUrls(pages[1..]))
    ensures Follow(c, server, items, pages[0], fuel, urls) == Walk(Listed(items + Items(pages[1..])), urls + NextUrls(pages))
  {
    FollowStep(c, server, items, pages, fuel, urls);
    ChainRegroup(items, pages, urls);
  }

  /** The items and URLs after one step along a chain, regrouped. */
  lemma ChainRegroup<T>(items: seq<T>, pages: seq<Page<T>>, urls: seq<string>)
    requires |pages| >= 2 && pages[1].Page?
    ensures (items + pages[1].items) + Items(pages[1..][1..]) == items + Items(pages[1..])
    ensures (urls + [BuildUrl(NextOf(pages[0]), [])]) + NextUrls(pages[1..]) == urls + NextUrls(pages)
  {
    assert pages[1..][0] == pages[1];
    ItemsStep(items, pages[1..]);
    UrlsStep(urls, pages);
  }

  /** The last page of a chain ends the walk with what was collected. */
  lemma FollowLast<T>(c: Client, server: Server<Page<T>>, items: seq<T>, pages: seq<Page<T>>, fuel: nat, urls: seq<string>)
    requires Linked(c, server, pages) && |pages| == 1
    ensures Follow(c, server, items, pages[0], fuel, urls) == Walk(Listed(items + Items(pages[1..])), urls + NextUrls(pages))
  {
    assert items + Items(pages[1..]) == items;
    assert urls + NextUrls(pages) == urls;
  }

  /** The items gathered after one step, regrouped. */
  lemma ItemsStep<T>(items: seq<T>, rest: seq<Page<T>>)
    requires |rest| >= 1 && rest[0].Page?
    ensures (items + rest[0].items) + Items(rest[1..]) == items + Items(rest)
  {
    assert Items(rest) == rest[0].items + Items(rest[1..]);
  }

  /** The URLs requested after one step, regrouped. */
  lemma UrlsStep<T>(urls: seq<string>, pages: seq<Page<T>>)
    requires |pages| >= 2
    ensures (urls + [BuildUrl(NextOf(pages[0]), [])]) + NextUrls(pages[1..]) == urls + NextUrls(pages)
  {
    var u, later := BuildUrl(NextOf(pages[0]), []), NextUrls(pages[1..]);
    assert NextUrls(pages) == [u] + later;
    Regroup(urls, [u], later);
  }

  lemma Regroup<X>(a: seq<X>, b: seq<X>, c: seq<X>)
    ensures (a + b) + c == a + (b + c)
  {
  }

  /** A walk that ends with all items followed a chain of pages starting at the page it was given. */
  lemma {:induction false} FollowListed<T>(c: Client, server: Server<Page<T>>, items: seq<T>, response: Page<T>, fuel: nat, urls: seq<string>)
    returns (pages: seq<Page<T>>)
    requires response.Page?
    requires Follow(c, server, items, response, fuel, urls).listing.Listed?
    ensures Linked(c, server, pages) && pages[0] == response && |pages| <= fuel + 1
    decreases fuel
  {
    if !HasNext(response) {
      pages := [response];
    } else {
      var g := Fetch(c, server, response.next.value, []);
      var page := g.result.payload;
      var rest := FollowListed(c, server, items + page.items, page, fuel - 1, urls + [g.request.url]);
      pages := [response] + rest;
      assert pages[1..] == rest;
    }
  }

  /**
   The result of `list` is the in-order concatenation of the `items` of the
   page chain, one request per page: the first with the caller's params, every
   later one with the previous page's `next` and no params. `total` plays no part.
   */
  lemma ListFollowsChain<T>(c: Client, server: Server<Page<T>>, url: string, params: Params, pages: seq<Page<T>>, fuel: nat)
    requires IsChain(c, server, url, params, pages)
    requires |pages| <= fuel + 1
    ensures List(c, server, url, params, fuel) == Walk(Listed(Items(pages)), [BuildUrl(url, params)] + NextUrls(pages))
  {
    FollowChain(c, server, pages[0].items, pages, fuel, [BuildUrl(url, params)]);
    assert Items(pages) == pages[0].items + Items(pages[1..]);
  }

  /** Conversely, whenever `list` returns items, they are the items of a chain, one request per page. */
  lemma ListedMeansChain<T>(c: Client, server: Server<Page<T>>, url: string, params: Params, fuel: nat)
    returns (pages: seq<Page<T>>)
    requires List(c, server, url, params, fuel).listing.Listed?
    ensures IsChain(c, server, url, params, pages) && |pages| <= fuel + 1
    ensures List(c, server, url, params, fuel) == Walk(Listed(Items(pages)), [BuildUrl(url, params)] + NextUrls(pages))
  {
    var g := Fetch(c, server, url, params);
    var page := g.result.payload;
    pages := FollowListed(c, server, page.items, page, fuel, [g.request.url]);
    ListFollowsChain(c, server, url, params, pages, fuel);
  }

  /**
   `pages` lead on to a stop: every page is readable with a truthy `next`, the
   fetch of each page's `next` returns the following page, and the fetch of
   the last page's `next` exits or returns a page that cannot be read.
   */
  ghost predicate StopsAfter<T>(c: Client, server: Server<Page<T>>, pages: seq<Page<T>>, r: Result<Page<T>>)
    decreases |pages|
  {
    && |pages| >= 1
    && HasNext(pages[0])
    && if |pages| == 1 then Fetch(c, server, NextOf(pages[0]), []).result == r && (r.Exit? || r == Ok(Unreadable))
       else
         && Fetch(c, server, NextOf(pages[0]), []).result == Ok(pages[1])
         && StopsAfter(c, server, pages[1..], r)
  }

  /** How a listing ends on a fetch that exits or returns a page that cannot be read. */
  function StopOf<T>(r: Result<Page<T>>): Listing<T> {
    if r.Exit? then Halted(r.fatal) else Raised
  }

  lemma StopsAfterTail<T>(c: Client, server: Server<Page<T>>, pages: seq<Page<T>>, r: Result<Page<T>>)
    requires StopsAfter(c, server, pages, r) && |pages| >= 2
    ensures StopsAfter(c, server, pages[1..], r) && pages[1..][0] == pages[1]
    ensures HasNext(pages[0]) && Fetch(c, server, NextOf(pages[0]), []).result == Ok(pages[1])
  {
  }

  /**
   Walking pages that lead on until a fetch that exits or cannot be read ends
   the walk with that exit, or with a caught exception; the pages read before
   do not change how it ends.
   */
  lemma {:induction false} FollowStops<T>(c: Client, server: Server<Page<T>>, items: seq<T>, pages: seq<Page<T>>, fuel: nat, urls: seq<string>, r: Result<Page<T>>)
    requires StopsAfter(c, server, pages, r) && |pages| <= fuel
    ensures Follow(c, server, items, pages[0], fuel, urls).listing == StopOf(r)
    decreases |pages|
  {
    if |pages| == 1 {
      StopHere(c, server, items, pages[0], fuel, urls, r);
    } else {
      StopsAfterTail(c, server, pages, r);
      var urls' := urls + [Fetch(c, server, NextOf(pages[0]), []).request.url];
      FollowStops(c, server, items + pages[1].items, pages[1..], fuel - 1, urls', r);
      StopLater(c, server, items, pages[0], pages[1], fuel, urls);
    }
  }

  lemma StopHere<T>(c: Client, server: Server<Page<T>>, items: seq<T>, response: Page<T>, fuel: nat, urls: seq<string>, r: Result<Page<T>>)
    requires HasNext(response) && fuel > 0
    requires Fetch(c, server, NextOf(response), []).result == r
    requires r.Exit? || r == Ok(Unreadable)
    ensures Follow(c, server, items, response, fuel, urls).listing == StopOf(r)
  {
    FollowOne(c, server, items, response, fuel, urls);
  }

  lemma StopLater<T>(c: Client, server: Server<Page<T>>, items: seq<T>, response: Page<T>, page: Page<T>, fuel: nat, urls: seq<string>)
    requires HasNext(response) && fuel > 0 && page.Page?
    requires Fetch(c, server, NextOf(response), []).result == Ok(page)
    ensures var urls' := urls + [Fetch(c, server, NextOf(response), []).request.url];
      Follow(c, server, items, response, fuel, urls) == Follow(c, server, items + page.items, page, fuel - 1, urls')
  {
    FollowOne(c, server, items, response, fuel, urls);
  }

  /**
   `list` over pages that lead on until a `next` fetch that exits or cannot be
   read: a `sys.exit` in any later `get` ends the listing with that exit, and
   an unreadable later page with an exception.
   */
  lemma ListStops<T>(c: Client, server: Server<Page<T>>, url: string, params: Params, pages: seq<Page<T>>, fuel: nat, r: Result<Page<T>>)
    requires StopsAfter(c, server, pages, r) && |pages| <= fuel
    requires Fetch(c, server, url, params).result == Ok(pages[0])
    ensures List(c, server, url, params, fuel).listing == StopOf(r)
  {
    FollowStops(c, server, pages[0].items, pages, fuel, [Fetch(c, server, url, params).request.url], r);
  }

  /** Replaces the `total` of a page. */
  function Retotal<T(==)>(p: Page<T>, t: int): Page<T> {
    if p.Page? then p.(total := t) else p
  }

  function RetotalOutcome<T(==)>(o: Outcome<Page<T>>, t: int): Outcome<Page<T>> {
    if o.Success? then Success(Retotal(o.payload, t)) else o
  }

  /** The same server, except that every page it returns reports the total `totals(request)`. */
  function RetotalServer<T(==)>(server: Server<Page<T>>, totals: Request -> int): Server<Page<T>> {
    (req: Request) => (a: nat) => RetotalOutcome(server(req)(a), totals(req))
  }

  function RetotalResult<T(==)>(r: Result<Page<T>>, t: int): Result<Page<T>> {
    if r.Ok? then Ok(Retotal(r.payload, t)) else r
  }

  lemma {:induction false} AttemptsIgnoreTotals<T>(script: nat -> Outcome<Page<T>>, script': nat -> Outcome<Page<T>>, t: int, tries: int, a: nat)
    requires a <= Budget(tries)
    requires forall k :: script'(k) == RetotalOutcome(script(k), t)
    ensures var x, y := Attempts(script, tries, a), Attempts(script', tries, a);
      y.result == RetotalResult(x.result, t) && y.attempts == x.attempts && y.sleeps == x.sleeps
    decreases Budget(tries) - a
  {
    if a < Budget(tries) {
      assert Stops(script(a)) <==> Stops(script'(a));
      assert Backoff(script(a), a, tries) == Backoff(script'(a), a, tries);
      AttemptsIgnoreTotals(script, script', t, tries, a + 1);
    }
  }

  lemma FetchIgnoresTotals<T>(c: Client, server: Server<Page<T>>, totals: Request -> int, url: string, params: Params)
    ensures var x, y := Fetch(c, server, url, params), Fetch(c, RetotalServer(server, totals), url, params);
      y.request == x.request && y.result == RetotalResult(x.result, totals(x.request))
  {
    var req := Request(BuildUrl(url, params), Bearer(c));
    AttemptsIgnoreTotals(server(req), RetotalServer(server, totals)(req), totals(req), DefaultTries, 0);
  }

  lemma {:induction false} FollowIgnoresTotals<T>(c: Client, server: Server<Page<T>>, totals: Request -> int, items: seq<T>, response: Page<T>, t: int, fuel: nat, urls: seq<string>)
    requires response.Page?
    ensures Follow(c, RetotalServer(server, totals), items, Retotal(response, t), fuel, urls)
         == Follow(c, server, items, response, fuel, urls)
    decreases fuel
  {
    if HasNext(response) && fuel > 0 {
      var next := response.next.value;
      FetchIgnoresTotals(c, server, totals, next, []);
      var g := Fetch(c, server, next, []);
      if g.result.Ok? && g.result.payload.Page? {
        FollowIgnoresTotals(c, server, totals, items + g.result.payload.items, g.result.payload,
          totals(g.request), fuel - 1, urls + [g.request.url]);
      }
    }
  }

  /** The `total` a page reports never bounds or alters what `list` returns or requests. */
  lemma ListIgnoresTotals<T>(c: Client, server: Server<Page<T>>, totals: Request -> int, url: string, params: Params, fuel: nat)
    ensures List(c, RetotalServer(server, totals), url, params, fuel) == List(c, server, url, params, fuel)
  {
    FetchIgnoresTotals(c, server, totals, url, params);
    var g := Fetch(c, server, url, params);
    if g.result.Ok? && g.result.payload.Page? {
      FollowIgnoresTotals(c, server, totals, g.result.payload.items, g.result.payload, totals(g.request), fuel, [g.request.url]);
    }
  }
}
