/**
 * The stand-alone client of containerUsage.go: its endpoint (base URL with
 * every trailing '/' trimmed, token, integer rate), and the listings of groups
 * and of a group's container repositories, each page fetched by a closure that
 * sends a GET with the bearer token and decodes the body without looking at
 * the status code.
 *
 * The server, `http.NewRequest` and the JSON decoder are oracles; the
 * `ratelimit.Limiter`'s pacing is not modelled, only the rate it is built with.
 */
module ContainerUsage {
  import opened Wrappers
  import opened GoStrings
  import opened LinkHeader
  import opened Pagination
  import opened Http

  /** The highest request rate an endpoint allows, in requests per second. */
  const MaxRate: int64 := 100

  /** What `NewGitlabEndpoint` appends to the trimmed base URL. */
  const ApiRoot: string := "/api/v4"

  /** An endpoint: its base URL, the token sent with every request, and the rate of its limiter. */
  datatype Endpoint = Endpoint(baseurl: string, authtoken: string, rate: int64)

  /** A GitLab group as the groups API lists it. */
  datatype Group = Group(id: int64, name: string, path: string, visibility: string)

  /** A tag of a repository; `createdAt` is the timestamp as sent. */
  datatype Tag = Tag(name: string, path: string, location: string, createdAt: string, totalSize: int64)

  /** A container repository of a group, with the tags the listing includes. */
  datatype Repo = Repo(id: int64, name: string, path: string, projectId: int64, location: string,
                       createdAt: string, cleanupPolicyStartedAt: string, tagsCount: int64, tags: seq<Tag>)

  /** The cutset of `strings.TrimRight(baseurl, "/")`. */
  predicate IsSlash(c: char) {
    c == '/'
  }

  /**
   * `NewGitlabEndpoint`: a rate above 100 is lowered to 100, and the base URL
   * is the input without any of its trailing slashes, followed by `/api/v4`.
   */
  function NewGitlabEndpoint(baseurl: string, authtoken: string, reqPerSec: int64): (g: Endpoint)
    ensures g.rate <= MaxRate
    ensures reqPerSec <= MaxRate ==> g.rate == reqPerSec
    ensures reqPerSec > MaxRate ==> g.rate == MaxRate
    ensures g.authtoken == authtoken
    ensures HasSuffix(g.baseurl, ApiRoot) && g.baseurl[|g.baseurl| - 1] != '/'
    ensures var host := g.baseurl[..|g.baseurl| - |ApiRoot|];
      && HasPrefix(baseurl, host)
      && (host != [] ==> host[|host| - 1] != '/')
      && forall i | |host| <= i < |baseurl| :: baseurl[i] == '/'
  {
    var host := TrimRight(baseurl, IsSlash);
    var g := Endpoint(host + ApiRoot, authtoken, if reqPerSec > MaxRate then MaxRate else reqPerSec);
    assert g.baseurl[..|g.baseurl| - |ApiRoot|] == host;
    assert g.baseurl[|g.baseurl| - |ApiRoot|..] == ApiRoot;
    g
  }

  /** `n` slashes. */
  function Slashes(n: nat): (s: string)
    ensures |s| == n && forall c | c in s :: c == '/'
  {
    if n == 0 then [] else Slashes(n - 1) + "/"
  }

  /** The base URL is the input trimmed of its trailing slashes, then the API root. */
  lemma BaseURLOf(baseurl: string, authtoken: string, reqPerSec: int64)
    ensures NewGitlabEndpoint(baseurl, authtoken, reqPerSec).baseurl == TrimRight(baseurl, IsSlash) + ApiRoot
  {
  }

  /** Any number of trailing slashes is trimmed away. */
  lemma {:induction false} TrimRightSlashes(baseurl: string, n: nat)
    ensures TrimRight(baseurl + Slashes(n), IsSlash) == TrimRight(baseurl, IsSlash)
  {
    if n > 0 {
      TrimRightSlashes(baseurl, n - 1);
      assert baseurl + Slashes(n) == (baseurl + Slashes(n - 1)) + ['/'];
      TrimRightOfCut(baseurl + Slashes(n - 1), '/', IsSlash);
    } else {
      assert baseurl + Slashes(0) == baseurl;
    }
  }

  /** Base URLs that differ only in how many slashes they end with give the same endpoint. */
  lemma TrailingSlashesIgnored(baseurl: string, n: nat, authtoken: string, reqPerSec: int64)
    ensures NewGitlabEndpoint(baseurl + Slashes(n), authtoken, reqPerSec) == NewGitlabEndpoint(baseurl, authtoken, reqPerSec)
  {
    BaseURLOf(baseurl + Slashes(n), authtoken, reqPerSec);
    BaseURLOf(baseurl, authtoken, reqPerSec);
    TrimRightSlashes(baseurl, n);
  }

  /** A base URL already ending in the API root and a slash gets the API root a second time. */
  lemma ApiRootNotStripped(host: string, authtoken: string, reqPerSec: int64)
    ensures NewGitlabEndpoint(host + "/api/v4/", authtoken, reqPerSec).baseurl == host + "/api/v4" + "/api/v4"
  {
    var s := host + "/api/v4";
    assert s + "/" == host + "/api/v4/";
    TrimRightOfCut(s, '/', IsSlash);
    assert s[|s| - 1] == '4';
  }

  /** The first URL `ListGroups` requests. */
  function GroupsStartURL(g: Endpoint): string {
    g.baseurl + "/api/v4/groups"
  }

  /** The first URL `ListRepos` requests (`%s/%s/%d/%s`). */
  function ReposStartURL(g: Endpoint, groupId: int64): string {
    TrimSuffix(g.baseurl, "/") + "/" + "api/v4/groups" + "/" + IntToDecimal(groupId) + "/" + "registry/repositories?tags=1"
  }

  /** A host that does not end in '/' is kept whole, followed by the API root. */
  lemma BaseURLOfPlainHost(host: string, authtoken: string, reqPerSec: int64)
    requires host != [] ==> host[|host| - 1] != '/'
    ensures NewGitlabEndpoint(host, authtoken, reqPerSec).baseurl == host + "/api/v4"
  {
    BaseURLOf(host, authtoken, reqPerSec);
  }

  /**
   * The group listing names the API root twice: the endpoint's base URL
   * already ends in `/api/v4`, and the listing path adds it again.
   */
  lemma GroupsApiRootDoubled(host: string, authtoken: string, reqPerSec: int64)
    requires host != [] ==> host[|host| - 1] != '/'
    ensures GroupsStartURL(NewGitlabEndpoint(host, authtoken, reqPerSec)) == host + "/api/v4" + "/api/v4/groups"
  {
    BaseURLOfPlainHost(host, authtoken, reqPerSec);
  }

  /** So does the repository listing, after its no-op `TrimSuffix`. */
  lemma ReposApiRootDoubled(host: string, authtoken: string, reqPerSec: int64, groupId: int64)
    requires host != [] ==> host[|host| - 1] != '/'
    ensures ReposStartURL(NewGitlabEndpoint(host, authtoken, reqPerSec), groupId)
            == host + "/api/v4" + "/" + "api/v4/groups" + "/" + IntToDecimal(groupId) + "/" + "registry/repositories?tags=1"
  {
    var base := NewGitlabEndpoint(host, authtoken, reqPerSec).baseurl;
    BaseURLOfPlainHost(host, authtoken, reqPerSec);
    assert !HasSuffix(base, "/") by {
      assert base[|base| - 1] == '4';
    }
  }

  /**
   * For the install named in the source's own `curl` comment, with a
   * trailing slash, the first group page requested is under `/api/v4/api/v4`
   * where the API serves groups at `/api/v4/groups`.
   */
  lemma DoubledGroupsURLExample()
    ensures GroupsStartURL(NewGitlabEndpoint("https://git.liquidweb.com" + "/", "", 10))
            == "https://git.liquidweb.com" + "/api/v4" + "/api/v4/groups"
  {
    var host := "https://git.liquidweb.com";
    assert host[|host| - 1] == 'm';
    TrailingSlashesIgnored(host, 1, "", 10);
    assert Slashes(1) == "/";
    GroupsApiRootDoubled(host, "", 10);
  }

  /**
   * The first group page the source's `curl` comment names: the groups right
   * under the API root the base URL already ends in.
   */
  function IntendedGroupsStartURL(g: Endpoint): string {
    g.baseurl + "/groups"
  }

  /** The first repository page under that same API root. */
  function IntendedReposStartURL(g: Endpoint, groupId: int64): string {
    g.baseurl + "/groups/" + IntToDecimal(groupId) + "/registry/repositories?tags=1"
  }

  /** With the intended paths the groups are requested at `<host>/api/v4/groups`, naming the API root once. */
  lemma IntendedGroupsUnderApiRoot(host: string, authtoken: string, reqPerSec: int64)
    requires host != [] ==> host[|host| - 1] != '/'
    ensures IntendedGroupsStartURL(NewGitlabEndpoint(host, authtoken, reqPerSec)) == host + "/api/v4" + "/groups"
  {
    BaseURLOfPlainHost(host, authtoken, reqPerSec);
  }

  /** So are a group's repositories, at `<host>/api/v4/groups/<id>/registry/repositories?tags=1`. */
  lemma IntendedReposUnderApiRoot(host: string, authtoken: string, reqPerSec: int64, groupId: int64)
    requires host != [] ==> host[|host| - 1] != '/'
    ensures IntendedReposStartURL(NewGitlabEndpoint(host, authtoken, reqPerSec), groupId)
            == host + "/api/v4" + "/groups/" + IntToDecimal(groupId) + "/registry/repositories?tags=1"
  {
    BaseURLOfPlainHost(host, authtoken, reqPerSec);
  }

  /** For the install of the `curl` comment the intended groups URL is the one the comment requests. */
  lemma IntendedGroupsURLExample()
    ensures IntendedGroupsStartURL(NewGitlabEndpoint("https://git.liquidweb.com" + "/", "", 10))
            == "https://git.liquidweb.com" + "/api/v4" + "/groups"
  {
    var host := "https://git.liquidweb.com";
    assert host[|host| - 1] == 'm';
    TrailingSlashesIgnored(host, 1, "", 10);
    assert Slashes(1) == "/";
    IntendedGroupsUnderApiRoot(host, "", 10);
  }

  /** The result of one closure call, and the requests it put on the wire. */
  datatype Exchange<T> = Exchange(result: Result<Page<T>, string>, sent: seq<Request>)

  /**
   * The per-page closure of `ListGroups` and `ListRepos`: build a GET for the
   * URL, send it with the bearer token, decode the body (a body that cannot
   * be read is the decoder's error) and read the cursor from the `link`
   * header. The status code is never looked at.
   */
  function PageExchange<T>(token: string, requestError: (string, string) -> Option<string>,
                           transport: Request -> Result<Response, string>, url: string,
                           decode: string -> Result<seq<T>, string>): Exchange<T>
  {
    match requestError("GET", url)
    case Some(e) => Exchange(Failure(e), [])
    case None =>
      var req := Request("GET", url, "", "Bearer " + token);
      match transport(req)
      case Failure(e) => Exchange(Failure(e), [req])
      case Success(resp) =>
        match resp.body
        case Failure(e) => Exchange(Failure(e), [req])
        case Success(text) =>
          match decode(text)
          case Failure(e) => Exchange(Failure(e), [req])
          case Success(items) => Exchange(Success(Page(items, NextGitlabPage(resp.link))), [req])
  }

  /** The closure, run against the network. */
  method RequestPage<T>(g: Endpoint, net: Network, url: string, decode: string -> Result<seq<T>, string>)
    returns (r: Result<Page<T>, string>)
    modifies net
    ensures var x := PageExchange(g.authtoken, net.requestError, net.transport, url, decode);
      r == x.result && net.sent == old(net.sent) + x.sent
  {
    var rejected := net.requestError("GET", url);
    if rejected.Some? {
      return Failure(rejected.value);
    }
    var req := Request("GET", url, "", "Bearer " + g.authtoken);
    var resp := net.Do(req);
    if resp.Failure? {
      return Failure(resp.error);
    }
    if resp.value.body.Failure? {
      return Failure(resp.value.body.error);
    }
    var decoded := decode(resp.value.body.value);
    if decoded.Failure? {
      return Failure(decoded.error);
    }
    return Success(Page(decoded.value, NextGitlabPage(resp.value.link)));
  }

  /** The same server answering with another status code and status line. */
  function WithStatus(transport: Request -> Result<Response, string>, code: int, status: string)
    : Request -> Result<Response, string>
  {
    req =>
      match transport(req)
      case Success(resp) => Success(resp.(statusCode := code, status := status))
      case Failure(e) => Failure(e)
  }

  /** The outcome does not depend on the status code: an error status with a decodable body is a page. */
  lemma StatusNeverChecked<T>(token: string, requestError: (string, string) -> Option<string>,
                              transport: Request -> Result<Response, string>, url: string,
                              decode: string -> Result<seq<T>, string>, code: int, status: string)
    ensures PageExchange(token, requestError, WithStatus(transport, code, status), url, decode)
            == PageExchange(token, requestError, transport, url, decode)
  {
  }

  /**
   * A page request succeeds exactly when the request is built and answered
   * and its body decodes; the page is the decoded list and the cursor of the
   * `link` header. At most one request is sent, always with `Bearer ` and
   * the token.
   */
  lemma PageExchangeOutcome<T>(token: string, requestError: (string, string) -> Option<string>,
                               transport: Request -> Result<Response, string>, url: string,
                               decode: string -> Result<seq<T>, string>)
    ensures var x := PageExchange(token, requestError, transport, url, decode);
      var resp := transport(Request("GET", url, "", "Bearer " + token));
      && (x.result.Success? <==>
            requestError("GET", url).None? && resp.Success? && resp.value.body.Success?
            && decode(resp.value.body.value).Success?)
      && (x.result.Success? ==>
            x.result.value == Page(decode(resp.value.body.value).value, NextGitlabPage(resp.value.link)))
      && (x.sent == [] <==> requestError("GET", url).Some?)
      && (x.sent != [] ==> x.sent == [Request("GET", url, "", "Bearer " + token)])
  {
  }

  /** A page request as a fetcher of pages. */
  function PageFetch<T>(token: string, requestError: (string, string) -> Option<string>,
                        transport: Request -> Result<Response, string>,
                        decode: string -> Result<seq<T>, string>): string -> Result<Page<T>, string>
  {
    url => PageExchange(token, requestError, transport, url, decode).result
  }

  /** The requests a page request puts on the wire. */
  function PageSent<T>(token: string, requestError: (string, string) -> Option<string>,
                       transport: Request -> Result<Response, string>,
                       decode: string -> Result<seq<T>, string>): string -> seq<Request>
  {
    url => PageExchange(token, requestError, transport, url, decode).sent
  }

  /**
   * When `http.NewRequest` accepts every URL of a walk, each page costs
   * exactly one GET, to that page's URL, with the bearer token.
   */
  lemma OneRequestPerPage<T>(token: string, requestError: (string, string) -> Option<string>,
                             transport: Request -> Result<Response, string>,
                             decode: string -> Result<seq<T>, string>, urls: seq<string>)
    requires forall u | u in urls :: requestError("GET", u).None?
    ensures var sent := SentAlong(PageSent(token, requestError, transport, decode), urls);
      |sent| == |urls|
      && forall i | 0 <= i < |urls| :: sent[i] == Request("GET", urls[i], "", "Bearer " + token)
  {
    var request := (u: string) => Request("GET", u, "", "Bearer " + token);
    SentAlongOnePerPage(PageSent(token, requestError, transport, decode), request, urls);
  }

  /** One pass of the loop of `CollectPages` keeps its invariant, or ends the walk on a failure. */
  lemma CollectStep<T>(token: string, requestError: (string, string) -> Option<string>,
                       transport: Request -> Result<Response, string>, decode: string -> Result<seq<T>, string>,
                       whole: Listing<T>, next: string, k: nat, items: seq<T>, visited: seq<string>,
                       base: seq<Request>, before: seq<Request>, r: Result<Page<T>, string>,
                       after: seq<Request>)
    requires next != ""
    requires EndsWithin(PageFetch(token, requestError, transport, decode), next, k)
    requires Resumes(whole, items, visited, Walk(PageFetch(token, requestError, transport, decode), next, k))
    requires before == base + SentAlong(PageSent(token, requestError, transport, decode), visited)
    requires var x := PageExchange(token, requestError, transport, next, decode);
      r == x.result && after == before + x.sent
    ensures after == base + SentAlong(PageSent(token, requestError, transport, decode), visited + [next])
    ensures var fetch := PageFetch(token, requestError, transport, decode);
      match r
      case Failure(e) => whole == Listing(items, Some(e), visited + [next])
      case Success(page) =>
        && k > 0 && EndsWithin(fetch, page.next, k - 1)
        && Resumes(whole, items + page.items, visited + [next], Walk(fetch, page.next, k - 1))
  {
    SentAlongStep(PageSent(token, requestError, transport, decode), visited, next);
    WalkResumes(PageFetch(token, requestError, transport, decode), whole, next, k, items, visited, r);
  }

  /**
   * The loop of `ListGroups` and `ListRepos`: call the closure on `next`,
   * append the page, follow its cursor; on an error stop at once with the
   * items so far and the error behind `prefix`.
   */
  method CollectPages<T>(g: Endpoint, net: Network, start: string, decode: string -> Result<seq<T>, string>,
                         prefix: string)
    returns (items: seq<T>, err: Option<string>)
    requires exists n: nat :: EndsWithin(PageFetch(g.authtoken, net.requestError, net.transport, decode), start, n)
    modifies net
    ensures var w := Paginate(PageFetch(g.authtoken, net.requestError, net.transport, decode), start);
      && items == w.items
      && (err.None? <==> w.failure.None?)
      && (err.Some? ==> err.value == prefix + w.failure.value)
      && net.sent == old(net.sent) + SentAlong(PageSent(g.authtoken, net.requestError, net.transport, decode), w.visited)
  {
    ghost var fetch := PageFetch(g.authtoken, net.requestError, net.transport, decode);
    ghost var n: nat :| EndsWithin(fetch, start, n);
    PaginateIsWalk(fetch, start, n);
    ghost var whole := Walk(fetch, start, n);
    ghost var k := n;
    ghost var visited: seq<string> := [];
    var next := start;
    items, err := [], None;
    while next != ""
      invariant EndsWithin(fetch, next, k)
      invariant Resumes(whole, items, visited, Walk(fetch, next, k))
      invariant err == None
      invariant net.sent == old(net.sent) + SentAlong(PageSent(g.authtoken, net.requestError, net.transport, decode), visited)
      decreases k
    {
      ghost var before := net.sent;
      var r := RequestPage(g, net, next, decode);
      CollectStep(g.authtoken, net.requestError, net.transport, decode, whole, next, k, items, visited,
                  old(net.sent), before, r, net.sent);
      match r
      case Failure(e) =>
        err := Some(prefix + e);
        return;
      case Success(page) =>
        items := items + page.items;
        visited := visited + [next];
        next := page.next;
        k := k - 1;
    }
    WalkDone(fetch, whole, k, items, visited);
  }

  /** `ListGroups`: every group, page after page, from the doubled API root. */
  method ListGroups(g: Endpoint, net: Network, decode: string -> Result<seq<Group>, string>)
    returns (groups: seq<Group>, err: Option<string>)
    requires exists n: nat ::
      EndsWithin(PageFetch(g.authtoken, net.requestError, net.transport, decode), GroupsStartURL(g), n)
    modifies net
    ensures var w := Paginate(PageFetch(g.authtoken, net.requestError, net.transport, decode), GroupsStartURL(g));
      && groups == w.items
      && (err.None? <==> w.failure.None?)
      && (err.Some? ==> err.value == "error listing groups: " + w.failure.value)
      && net.sent == old(net.sent) + SentAlong(PageSent(g.authtoken, net.requestError, net.transport, decode), w.visited)
  {
    groups, err := CollectPages(g, net, GroupsStartURL(g), decode, "error listing groups: ");
  }

  /** `ListRepos`: every container repository of `group`, with tags, page after page. */
  method ListRepos(g: Endpoint, net: Network, group: Group, decode: string -> Result<seq<Repo>, string>)
    returns (repos: seq<Repo>, err: Option<string>)
    requires exists n: nat ::
      EndsWithin(PageFetch(g.authtoken, net.requestError, net.transport, decode), ReposStartURL(g, group.id), n)
    modifies net
    ensures var w := Paginate(PageFetch(g.authtoken, net.requestError, net.transport, decode), ReposStartURL(g, group.id));
      && repos == w.items
      && (err.None? <==> w.failure.None?)
      && (err.Some? ==> err.value == "error listing repos for group " + group.path + ": " + w.failure.value)
      && net.sent == old(net.sent) + SentAlong(PageSent(g.authtoken, net.requestError, net.transport, decode), w.visited)
  {
    repos, err := CollectPages(g, net, ReposStartURL(g, group.id), decode,
                               "error listing repos for group " + group.path + ": ");
  }
}
