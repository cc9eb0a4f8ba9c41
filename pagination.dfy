/**
 * The cursor-driven pagination loop shared by `ListGroups`,
 * `ListRegistriesInGroup` and `ListRepos`: start at a URL, fetch a page,
 * append its items, follow the cursor it returns, stop at the empty cursor or
 * at the first failing request.
 *
 * The server is an oracle from URL to page. Go's loop has no termination
 * guarantee, so the walk is defined only for cursor chains that end within a
 * given number of requests (`EndsWithin`).
 */
module Pagination {
  import opened Wrappers

  /** One page of a listing: its items and the cursor to the next page ("" for none). */
  datatype Page<T> = Page(items: seq<T>, next: string)

  /** The outcome of a walk: items gathered, the error that stopped it if any, and the URLs requested. */
  datatype Listing<T> = Listing(items: seq<T>, failure: Option<string>, visited: seq<string>)

  /** Following cursors from `url` reaches "" or a failing page within `n` requests. */
  predicate EndsWithin<T>(fetch: string -> Result<Page<T>, string>, url: string, n: nat)
    decreases n
  {
    url == "" || (n > 0 && (fetch(url).Failure? || EndsWithin(fetch, fetch(url).value.next, n - 1)))
  }

  /** The loop `for next != "" { page, next, err = fetch(next); if err != nil { return }; items += page }`. */
  function Walk<T>(fetch: string -> Result<Page<T>, string>, url: string, n: nat): Listing<T>
    requires EndsWithin(fetch, url, n)
    decreases n
  {
    if url == "" then Listing([], None, [])
    else match fetch(url)
      case Failure(e) => Listing([], Some(e), [url])
      case Success(page) =>
        var rest := Walk(fetch, page.next, n - 1);
        Listing(page.items + rest.items, rest.failure, [url] + rest.visited)
  }

  /** The walk from `url`, for a chain that ends. */
  ghost function Paginate<T>(fetch: string -> Result<Page<T>, string>, url: string): Listing<T>
    requires exists n: nat :: EndsWithin(fetch, url, n)
  {
    var n: nat :| EndsWithin(fetch, url, n);
    Walk(fetch, url, n)
  }

  /** One step of the walk from a page that loads: its items, then the walk from its cursor. */
  lemma WalkStepSuccess<T>(fetch: string -> Result<Page<T>, string>, url: string, n: nat, page: Page<T>)
    requires EndsWithin(fetch, url, n) && url != "" && fetch(url) == Success(page)
    ensures n > 0 && EndsWithin(fetch, page.next, n - 1)
    ensures var rest := Walk(fetch, page.next, n - 1);
      Walk(fetch, url, n) == Listing(page.items + rest.items, rest.failure, [url] + rest.visited)
  {
  }

  /** One step of the walk from a page that fails: nothing more is requested. */
  lemma WalkStepFailure<T>(fetch: string -> Result<Page<T>, string>, url: string, n: nat, e: string)
    requires EndsWithin(fetch, url, n) && url != "" && fetch(url) == Failure(e)
    ensures Walk(fetch, url, n) == Listing([], Some(e), [url])
  {
  }

  /** The bound on the number of requests plays no part in the result. */
  lemma {:induction false} WalkBoundIrrelevant<T>(fetch: string -> Result<Page<T>, string>, url: string, n: nat, m: nat)
    requires EndsWithin(fetch, url, n) && EndsWithin(fetch, url, m)
    ensures Walk(fetch, url, n) == Walk(fetch, url, m)
    decreases n
  {
    if url != "" && fetch(url).Success? {
      WalkBoundIrrelevant(fetch, fetch(url).value.next, n - 1, m - 1);
    }
  }

  /** A walk that ends within `n` requests makes at most `n` of them. */
  lemma {:induction false} WalkRequestsBounded<T>(fetch: string -> Result<Page<T>, string>, url: string, n: nat)
    requires EndsWithin(fetch, url, n)
    ensures |Walk(fetch, url, n).visited| <= n
    decreases n
  {
    if url != "" && fetch(url).Success? {
      WalkRequestsBounded(fetch, fetch(url).value.next, n - 1);
    }
  }

  /**
   * The requests of a walk: one per page, the first to the start URL, each
   * later one to the cursor the previous page returned, none to "". The last
   * page either failed (and its error is the walk's) or returned "".
   */
  lemma {:induction false} WalkFollowsCursors<T>(fetch: string -> Result<Page<T>, string>, url: string, n: nat)
    requires EndsWithin(fetch, url, n)
    ensures var w := Walk(fetch, url, n);
      && (url == "" <==> w.visited == [])
      && (url != "" ==> w.visited[0] == url)
      && (forall i | 0 <= i < |w.visited| :: w.visited[i] != "")
      && (forall i | 0 <= i < |w.visited| - 1 ::
            fetch(w.visited[i]).Success? && fetch(w.visited[i]).value.next == w.visited[i + 1])
      && (w.visited != [] ==>
            match fetch(w.visited[|w.visited| - 1])
            case Failure(e) => w.failure == Some(e)
            case Success(page) => page.next == "" && w.failure == None)
      && (w.visited == [] ==> w.failure == None && w.items == [])
    decreases n
  {
    if url != "" && fetch(url).Success? {
      var next := fetch(url).value.next;
      WalkFollowsCursors(fetch, next, n - 1);
      var rest := Walk(fetch, next, n - 1);
      var w := Walk(fetch, url, n);
      assert w.visited == [url] + rest.visited;
      forall i | 1 <= i < |w.visited| ensures w.visited[i] == rest.visited[i - 1] { }
    }
  }

  /** The items of the pages at `urls`, in order; a failed page contributes none. */
  function ItemsOf<T>(fetch: string -> Result<Page<T>, string>, urls: seq<string>): seq<T> {
    if urls == [] then []
    else
      var page := if fetch(urls[0]).Success? then fetch(urls[0]).value.items else [];
      page + ItemsOf(fetch, urls[1..])
  }

  /** The items gathered are the pages' items concatenated in request order, each page's order kept. */
  lemma {:induction false} WalkItemsInPageOrder<T>(fetch: string -> Result<Page<T>, string>, url: string, n: nat)
    requires EndsWithin(fetch, url, n)
    ensures Walk(fetch, url, n).items == ItemsOf(fetch, Walk(fetch, url, n).visited)
    decreases n
  {
    if url != "" && fetch(url).Success? {
      var next := fetch(url).value.next;
      WalkItemsInPageOrder(fetch, next, n - 1);
      assert ([url] + Walk(fetch, next, n - 1).visited)[1..] == Walk(fetch, next, n - 1).visited;
    } else if url != "" {
      assert [url][1..] == [];
    }
  }

  /** `ItemsOf` distributes over a split of the URL list. */
  lemma {:induction false} ItemsOfAppend<T>(fetch: string -> Result<Page<T>, string>, us: seq<string>, vs: seq<string>)
    ensures ItemsOf(fetch, us + vs) == ItemsOf(fetch, us) + ItemsOf(fetch, vs)
    decreases |us|
  {
    if us != [] {
      assert (us + vs)[1..] == us[1..] + vs;
      ItemsOfAppend(fetch, us[1..], vs);
    } else {
      assert us + vs == vs;
    }
  }

  /** On failure the walk stops at once, keeping the items of every page before the failing one. */
  lemma WalkFailureKeepsEarlierPages<T>(fetch: string -> Result<Page<T>, string>, url: string, n: nat)
    requires EndsWithin(fetch, url, n)
    requires Walk(fetch, url, n).failure.Some?
    ensures var w := Walk(fetch, url, n);
      && w.visited != []
      && fetch(w.visited[|w.visited| - 1]).Failure?
      && w.items == ItemsOf(fetch, w.visited[..|w.visited| - 1])
  {
    var w := Walk(fetch, url, n);
    WalkFollowsCursors(fetch, url, n);
    WalkItemsInPageOrder(fetch, url, n);
    var k := |w.visited| - 1;
    assert w.visited == w.visited[..k] + [w.visited[k]];
    ItemsOfAppend(fetch, w.visited[..k], [w.visited[k]]);
    assert ItemsOf(fetch, [w.visited[k]]) == [] by {
      assert [w.visited[k]][1..] == [];
    }
  }

  /** A chain that ends never requests the same URL twice: a repeated cursor would loop forever. */
  lemma WalkNeverRevisits<T>(fetch: string -> Result<Page<T>, string>, url: string, n: nat)
    requires EndsWithin(fetch, url, n)
    ensures var v := Walk(fetch, url, n).visited;
      forall i, j | 0 <= i < j < |v| :: v[i] != v[j]
  {
    var v := Walk(fetch, url, n).visited;
    forall i, j | 0 <= i < j < |v| ensures v[i] != v[j] {
      var ni := WalkSuffix(fetch, url, n, i);
      var nj := WalkSuffix(fetch, url, n, j);
      if v[i] == v[j] {
        WalkBoundIrrelevant(fetch, v[i], ni, nj);
        assert false;
      }
    }
  }

  /** The walk from the `i`-th URL visited is the tail of the walk from `i` on. */
  lemma {:induction false} WalkSuffix<T>(fetch: string -> Result<Page<T>, string>, url: string, n: nat, i: nat)
    returns (m: nat)
    requires EndsWithin(fetch, url, n)
    requires i < |Walk(fetch, url, n).visited|
    ensures var v := Walk(fetch, url, n).visited;
      EndsWithin(fetch, v[i], m) && Walk(fetch, v[i], m).visited == v[i..]
    decreases n
  {
    var v := Walk(fetch, url, n).visited;
    if i == 0 {
      m := n;
      assert v[0..] == v;
      WalkFollowsCursors(fetch, url, n);
    } else {
      var next := fetch(url).value.next;
      var rest := Walk(fetch, next, n - 1).visited;
      assert v == [url] + rest;
      m := WalkSuffix(fetch, next, n - 1, i - 1);
      assert v[i] == rest[i - 1];
      assert v[i..] == rest[i - 1..];
    }
  }

  /** Any `Paginate` result is the walk with any bound that suffices. */
  lemma PaginateIsWalk<T>(fetch: string -> Result<Page<T>, string>, url: string, n: nat)
    requires EndsWithin(fetch, url, n)
    ensures Paginate(fetch, url) == Walk(fetch, url, n)
  {
    forall m: nat | EndsWithin(fetch, url, m) ensures Walk(fetch, url, m) == Walk(fetch, url, n) {
      WalkBoundIrrelevant(fetch, url, m, n);
    }
  }

  /** A walk's result is the items and URLs so far followed by what the `rest` of it gathers. */
  ghost predicate Resumes<T>(whole: Listing<T>, items: seq<T>, visited: seq<string>, rest: Listing<T>) {
    whole == Listing(items + rest.items, rest.failure, visited + rest.visited)
  }

  /**
   * One pass of a pagination loop: after the page at `next` answered `r`,
   * either the walk has ended with that error, or it resumes from the cursor
   * with that page's items and URL added.
   */
  lemma WalkResumes<T>(fetch: string -> Result<Page<T>, string>, whole: Listing<T>, next: string, k: nat,
                       items: seq<T>, visited: seq<string>, r: Result<Page<T>, string>)
    requires next != "" && EndsWithin(fetch, next, k)
    requires Resumes(whole, items, visited, Walk(fetch, next, k))
    requires fetch(next) == r
    ensures match r
      case Failure(e) => whole == Listing(items, Some(e), visited + [next])
      case Success(page) =>
        && k > 0 && EndsWithin(fetch, page.next, k - 1)
        && Resumes(whole, items + page.items, visited + [next], Walk(fetch, page.next, k - 1))
  {
    match r
    case Failure(e) =>
      WalkStepFailure(fetch, next, k, e);
    case Success(page) =>
      WalkStepSuccess(fetch, next, k, page);
      var tail := Walk(fetch, page.next, k - 1);
      assert whole.items == (items + page.items) + tail.items;
      assert whole.visited == (visited + [next]) + tail.visited;
  }

  /** The walk ends where the cursor is "": nothing is left to gather. */
  lemma WalkDone<T>(fetch: string -> Result<Page<T>, string>, whole: Listing<T>, k: nat,
                    items: seq<T>, visited: seq<string>)
    requires Resumes(whole, items, visited, Walk(fetch, "", k))
    ensures whole == Listing(items, None, visited)
  {
    assert Walk(fetch, "", k) == Listing([], None, []);
  }

  /** What the page requests to `urls` put on the wire, in order, when the one to `u` sends `sentBy(u)`. */
  function SentAlong<R>(sentBy: string -> seq<R>, urls: seq<string>): seq<R> {
    if urls == [] then [] else SentAlong(sentBy, urls[..|urls| - 1]) + sentBy(urls[|urls| - 1])
  }

  /** The requests of one more page follow those of the pages before it. */
  lemma SentAlongStep<R>(sentBy: string -> seq<R>, urls: seq<string>, url: string)
    ensures SentAlong(sentBy, urls + [url]) == SentAlong(sentBy, urls) + sentBy(url)
  {
    assert (urls + [url])[..|urls|] == urls;
  }

  /** One request per page, to that page's URL, when every page request sends exactly `request(u)`. */
  lemma {:induction false} SentAlongOnePerPage<R>(sentBy: string -> seq<R>, request: string -> R, urls: seq<string>)
    requires forall u | u in urls :: sentBy(u) == [request(u)]
    ensures var sent := SentAlong(sentBy, urls);
      |sent| == |urls| && forall i | 0 <= i < |urls| :: sent[i] == request(urls[i])
  {
    if urls != [] {
      SentAlongOnePerPage(sentBy, request, urls[..|urls| - 1]);
    }
  }

  /** A synthetic server: three pages chained by cursors, and a failure for any other URL. */
  function ThreePages(url: string): Result<Page<int>, string> {
    if url == "p1" then Success(Page([1, 2], "p2"))
    else if url == "p2" then Success(Page([3], "p3"))
    else if url == "p3" then Success(Page([4, 5], ""))
    else Failure("404 Not Found")
  }

  /** Walking the three pages makes exactly three requests and keeps page and item order. */
  lemma ThreePageCollection()
    ensures EndsWithin(ThreePages, "p1", 3)
    ensures Walk(ThreePages, "p1", 3) == Listing([1, 2, 3, 4, 5], None, ["p1", "p2", "p3"])
  {
  }

  /** The same server with its middle page failing: the walk stops there with the first page's items. */
  function MiddlePageFails(url: string): Result<Page<int>, string> {
    if url == "p2" then Failure("500 Internal Server Error") else ThreePages(url)
  }

  lemma MiddlePageFailureStopsWalk()
    ensures EndsWithin(MiddlePageFails, "p1", 2)
    ensures Walk(MiddlePageFails, "p1", 2) == Listing([1, 2], Some("500 Internal Server Error"), ["p1", "p2"])
  {
  }
}
