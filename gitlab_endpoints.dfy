/**
 * The GitLab API client of lib/gitlab/gitlabEndpoints.go: the endpoint (base
 * URL, token, rate), URL formatting, the single request `runRequest` with its
 * checks in order (encode, request, transport, status, read, decode, cursor),
 * the paginated listings of groups and of a group's container registries, and
 * the fetch of one tag's details into the caller's tag.
 *
 * The server, `http.NewRequest` and the JSON decoder are oracles; the rate
 * limiter's waiting is not modelled, only the numbers it is built with.
 */
module GitlabEndpoints {
  import opened Wrappers
  import opened GoStrings
  import opened LinkHeader
  import opened Pagination
  import opened Http

  /** The highest request rate an endpoint allows, in requests per second. */
  const MaxRate: real := 100.0

  /** What `NewGitlabEndpoint` appends to the base URL. */
  const ApiRoot: string := "/api/v4/"

  /**
   * An endpoint: the API root every URL starts with, the token sent with
   * every request, and the limit and burst of its `rate.Limiter`.
   */
  datatype Endpoint = Endpoint(baseurl: string, authtoken: string, limit: real, burst: nat)

  /** A GitLab group as the groups API lists it. */
  datatype Group = Group(id: int64, name: string, path: string, visibility: string)

  /** A tag of a container registry; `createdAt` is the timestamp as sent. */
  datatype Tag = Tag(name: string, path: string, location: string, revision: string,
                     createdAt: string, totalSize: uint64)

  /** A container registry (repository) of a group, with the tags the listing includes. */
  datatype ContainerRegistry = ContainerRegistry(
    id: int64, name: string, path: string, projectId: int64, location: string,
    createdAt: string, cleanupPolicyStartedAt: string, tagsCount: int64, tags: seq<Tag>)

  /**
   * `NewGitlabEndpoint`: a rate above 100 is lowered to 100, the burst is 1,
   * and one trailing '/' is removed from the base URL before `/api/v4/` is
   * appended.
   */
  function NewGitlabEndpoint(baseurl: string, authtoken: string, reqPerSec: real): (g: Endpoint)
    ensures g.limit <= MaxRate
    ensures reqPerSec <= MaxRate ==> g.limit == reqPerSec
    ensures reqPerSec > MaxRate ==> g.limit == MaxRate
    ensures g.burst == 1 && g.authtoken == authtoken
    ensures HasSuffix(g.baseurl, ApiRoot)
    ensures HasSuffix(baseurl, "/") ==> g.baseurl == baseurl[..|baseurl| - 1] + ApiRoot
    ensures !HasSuffix(baseurl, "/") ==> g.baseurl == baseurl + ApiRoot
  {
    var limit := if reqPerSec > MaxRate then MaxRate else reqPerSec;
    Endpoint(TrimSuffix(baseurl, "/") + ApiRoot, authtoken, limit, 1)
  }

  /** A base URL with or without one trailing '/' gives the same endpoint. */
  lemma BaseURLDropsOneSlash(baseurl: string, authtoken: string, reqPerSec: real)
    requires !HasSuffix(baseurl, "/")
    ensures NewGitlabEndpoint(baseurl + "/", authtoken, reqPerSec) == NewGitlabEndpoint(baseurl, authtoken, reqPerSec)
    ensures NewGitlabEndpoint(baseurl, authtoken, reqPerSec).baseurl == baseurl + "/api/v4/"
  {
    assert HasSuffix(baseurl + "/", "/");
    assert (baseurl + "/")[..|baseurl|] == baseurl;
  }

  /** Only one trailing '/' is removed: a second one stays in the API root. */
  lemma BaseURLKeepsSecondSlash(baseurl: string, authtoken: string, reqPerSec: real)
    ensures NewGitlabEndpoint(baseurl + "//", authtoken, reqPerSec).baseurl == baseurl + "/" + "/api/v4/"
  {
    assert HasSuffix(baseurl + "//", "/");
    assert (baseurl + "//")[..|baseurl| + 1] == baseurl + "/";
  }

  /** A base URL that already names the API root gets `/api/v4/` appended again. */
  lemma BaseURLRepeatsApiRoot(host: string, authtoken: string, reqPerSec: real)
    ensures NewGitlabEndpoint(host + "/api/v4/", authtoken, reqPerSec).baseurl == host + "/api/v4" + "/api/v4/"
    ensures NewGitlabEndpoint(host + "/api/v4", authtoken, reqPerSec).baseurl == host + "/api/v4" + "/api/v4/"
  {
    var s := host + "/api/v4/";
    assert HasSuffix(s, "/");
    assert s[..|s| - 1] == host + "/api/v4";
    var t := host + "/api/v4";
    assert !HasSuffix(t, "/") by {
      assert t[|t| - 1] == '4';
    }
  }

  /** `fmtEndpointURL`: the API root followed by the path with at most one leading '/' removed. */
  function FmtEndpointURL(g: Endpoint, path: string): (url: string)
    ensures HasPrefix(url, g.baseurl)
    ensures HasPrefix(path, "/") ==> url == g.baseurl + path[1..]
    ensures !HasPrefix(path, "/") ==> url == g.baseurl + path
  {
    var url := g.baseurl + TrimPrefix(path, "/");
    assert url[..|g.baseurl|] == g.baseurl;
    url
  }

  /** Only the first leading '/' of a path is removed. */
  lemma FmtStripsOneSlash(g: Endpoint, path: string)
    ensures FmtEndpointURL(g, "//" + path) == g.baseurl + "/" + path
  {
    assert HasPrefix("//" + path, "/");
    assert ("//" + path)[1..] == "/" + path;
  }

  /** The path of the group listing. */
  const GroupsPath: string := "/groups"

  /** The path of a group's container registries, with their tags (`%s/%d/%s`). */
  function RegistriesPath(groupId: int64): string {
    "groups/" + IntToDecimal(groupId) + "/registry/repositories?tags=1"
  }

  /** The path of one tag's details. */
  function TagPath(projectId: int64, registryId: int64, tagName: string): string {
    "/projects/" + IntToDecimal(projectId) + "/registry/repositories/" + IntToDecimal(registryId) + "/tags/" + tagName
  }

  /** The group listing starts right under the API root, which names `/api/v4` once. */
  lemma GroupsStartUnderApiRoot(baseurl: string, authtoken: string, reqPerSec: real)
    requires !HasSuffix(baseurl, "/")
    ensures FmtEndpointURL(NewGitlabEndpoint(baseurl, authtoken, reqPerSec), GroupsPath) == baseurl + "/api/v4/groups"
  {
    assert HasPrefix(GroupsPath, "/");
    assert GroupsPath[1..] == "groups";
  }

  /** So does the listing of a group's registries. */
  lemma RegistriesStartUnderApiRoot(baseurl: string, authtoken: string, reqPerSec: real, groupId: int64)
    requires !HasSuffix(baseurl, "/")
    ensures FmtEndpointURL(NewGitlabEndpoint(baseurl, authtoken, reqPerSec), RegistriesPath(groupId))
            == baseurl + "/api/v4/" + "groups/" + IntToDecimal(groupId) + "/registry/repositories?tags=1"
  {
    RegistriesURLShape(baseurl, authtoken, reqPerSec, IntToDecimal(groupId));
  }

  /** The registry path, whatever the digits of the id, is appended to the base URL whole. */
  lemma RegistriesURLShape(baseurl: string, authtoken: string, reqPerSec: real, d: string)
    requires !HasSuffix(baseurl, "/")
    ensures FmtEndpointURL(NewGitlabEndpoint(baseurl, authtoken, reqPerSec), "groups/" + d + "/registry/repositories?tags=1")
            == baseurl + "/api/v4/" + "groups/" + d + "/registry/repositories?tags=1"
  {
    var p := "groups/" + d + "/registry/repositories?tags=1";
    assert !HasPrefix(p, "/") by {
      assert p[0] == 'g';
    }
  }

  /** A decoded response and the cursor to the next page ("" for none). */
  datatype Fetched<T> = Fetched(value: T, next: string)

  /** The outcome of one `runRequest`, and the requests it put on the wire. */
  datatype Attempt<T> = Attempt(result: Result<Fetched<T>, string>, sent: seq<Request>)

  /**
   * A decoder's error, and how many characters of the body it had taken from
   * the buffer when it gave up.
   */
  datatype DecodeError = DecodeError(message: string, consumed: nat)

  /** `json.Decoder`'s first read from its source asks for 512 bytes; the model counts characters. */
  const DecoderFirstRead: nat := 512

  /**
   * What `buf.String()` still holds once the decoder has read from the
   * buffer: the body minus what it consumed, and at least minus the first read.
   */
  function Unread(body: string, consumed: nat): (rest: string)
    ensures HasSuffix(body, rest)
    ensures body != [] ==> |rest| < |body|
    ensures |body| <= DecoderFirstRead ==> rest == []
  {
    var taken := if consumed < DecoderFirstRead then DecoderFirstRead else consumed;
    if taken >= |body| then [] else body[taken..]
  }

  /**
   * The error of a body that does not decode (`%w\n%s` with `buf.String()`):
   * the decoder's message, a newline, and the part of the body the decoder
   * left in the buffer, which is never the whole of a non-empty body.
   */
  function DecodeErrorText(e: DecodeError, body: string): (msg: string)
    ensures HasPrefix(msg, "could not decode body into json: " + e.message + "\n")
    ensures var rest := msg[|"could not decode body into json: " + e.message + "\n"|..];
      HasSuffix(body, rest) && (body != [] ==> |rest| < |body|) && (|body| <= DecoderFirstRead ==> rest == [])
  {
    var head := "could not decode body into json: " + e.message + "\n";
    var msg := head + Unread(body, e.consumed);
    assert msg[..|head|] == head && msg[|head|..] == Unread(body, e.consumed);
    msg
  }

  /** The body sent for an encoded request object; json.Encoder ends its output with a newline. */
  function RequestBody(reqObj: Option<Result<string, string>>): string {
    if reqObj.Some? && reqObj.value.Success? then reqObj.value.value + "\n" else ""
  }

  /**
   * What `runRequest` does with the given world, step by step: encode the
   * request object (`reqObj` is None for a nil object, else the encoder's
   * output or error), build the request, send it with the bearer token, then
   * check the status, read the body, decode it, and read the cursor from the
   * `link` header.
   */
  function RequestAttempt<T>(token: string, requestError: (string, string) -> Option<string>,
                             transport: Request -> Result<Response, string>, url: string, verb: string,
                             reqObj: Option<Result<string, string>>, decode: string -> Result<T, DecodeError>): Attempt<T>
  {
    if reqObj.Some? && reqObj.value.Failure? then
      Attempt(Failure("could not encode body: " + reqObj.value.error), [])
    else
      match requestError(verb, url)
      case Some(e) => Attempt(Failure(e), [])
      case None =>
        var req := Request(verb, url, RequestBody(reqObj), "Bearer " + token);
        match transport(req)
        case Failure(e) => Attempt(Failure(e), [req])
        case Success(resp) =>
          if resp.statusCode != StatusOK then
            Attempt(Failure("failed: " + resp.status + "\nreq " + verb + " " + url), [req])
          else match resp.body
            case Failure(e) => Attempt(Failure("could not read body: " + e), [req])
            case Success(text) =>
              match decode(text)
              case Failure(e) => Attempt(Failure(DecodeErrorText(e, text)), [req])
              case Success(v) => Attempt(Success(Fetched(v, NextGitlabPage(resp.link))), [req])
  }

  /** `runRequest`: performs the attempt against the network. */
  method RunRequest<T>(g: Endpoint, net: Network, url: string, verb: string,
                       reqObj: Option<Result<string, string>>, decode: string -> Result<T, DecodeError>)
    returns (r: Result<Fetched<T>, string>)
    modifies net
    ensures var a := RequestAttempt(g.authtoken, net.requestError, net.transport, url, verb, reqObj, decode);
      r == a.result && net.sent == old(net.sent) + a.sent
  {
    var body := "";
    if reqObj.Some? {
      match reqObj.value
      case Failure(e) =>
        return Failure("could not encode body: " + e);
      case Success(json) =>
        body := json + "\n";
    }
    var rejected := net.requestError(verb, url);
    if rejected.Some? {
      return Failure(rejected.value);
    }
    var req := Request(verb, url, body, "Bearer " + g.authtoken);
    var resp := net.Do(req);
    if resp.Failure? {
      return Failure(resp.error);
    }
    if resp.value.statusCode != StatusOK {
      return Failure("failed: " + resp.value.status + "\nreq " + verb + " " + url);
    }
    if resp.value.body.Failure? {
      return Failure("could not read body: " + resp.value.body.error);
    }
    var text := resp.value.body.value;
    var decoded := decode(text);
    if decoded.Failure? {
      return Failure(DecodeErrorText(decoded.error, text));
    }
    return Success(Fetched(decoded.value, NextGitlabPage(resp.value.link)));
  }

  /**
   * A request is sent at most once, only when encoding succeeds and the
   * method and URL are accepted, and it always carries `Bearer ` and the
   * token, even an empty one.
   */
  lemma AtMostOneRequest<T>(token: string, requestError: (string, string) -> Option<string>,
                            transport: Request -> Result<Response, string>, url: string, verb: string,
                            reqObj: Option<Result<string, string>>, decode: string -> Result<T, DecodeError>)
    ensures var a := RequestAttempt(token, requestError, transport, url, verb, reqObj, decode);
      && |a.sent| <= 1
      && (a.sent != [] <==> !(reqObj.Some? && reqObj.value.Failure?) && requestError(verb, url).None?)
      && (a.sent != [] ==>
            a.sent[0].verb == verb && a.sent[0].url == url && a.sent[0].authorization == "Bearer " + token
            && a.sent[0].body == RequestBody(reqObj))
  {
  }

  /** An encoding failure is reported before anything else: no request is built or sent. */
  lemma EncodeFailureSendsNothing<T>(token: string, requestError: (string, string) -> Option<string>,
                                     transport: Request -> Result<Response, string>, url: string, verb: string,
                                     e: string, decode: string -> Result<T, DecodeError>)
    ensures var a := RequestAttempt(token, requestError, transport, url, verb, Some(Failure(e)), decode);
      a.sent == [] && a.result == Failure("could not encode body: " + e)
  {
  }

  /**
   * A status other than 200 is an error that names the status, method and
   * URL, whatever the body is: the decoder is never consulted.
   */
  lemma StatusCheckedBeforeDecode<T>(token: string, requestError: (string, string) -> Option<string>,
                                     transport: Request -> Result<Response, string>, url: string, verb: string,
                                     reqObj: Option<Result<string, string>>,
                                     decode: string -> Result<T, DecodeError>, otherDecode: string -> Result<T, DecodeError>)
    requires !(reqObj.Some? && reqObj.value.Failure?) && requestError(verb, url).None?
    requires var resp := transport(Request(verb, url, RequestBody(reqObj), "Bearer " + token));
      resp.Success? && resp.value.statusCode != StatusOK
    ensures var a := RequestAttempt(token, requestError, transport, url, verb, reqObj, decode);
      var resp := transport(Request(verb, url, RequestBody(reqObj), "Bearer " + token));
      && a == RequestAttempt(token, requestError, transport, url, verb, reqObj, otherDecode)
      && a.result == Failure("failed: " + resp.value.status + "\nreq " + verb + " " + url)
  {
  }

  /**
   * A body that does not decode is an error naming the decoder's message,
   * followed by a newline and what the decoder left unread of the body.
   */
  lemma DecodeFailureShowsUnreadRest<T>(token: string, requestError: (string, string) -> Option<string>,
                                        transport: Request -> Result<Response, string>, url: string, verb: string,
                                        reqObj: Option<Result<string, string>>, decode: string -> Result<T, DecodeError>)
    requires !(reqObj.Some? && reqObj.value.Failure?) && requestError(verb, url).None?
    requires var resp := transport(Request(verb, url, RequestBody(reqObj), "Bearer " + token));
      resp.Success? && resp.value.statusCode == StatusOK && resp.value.body.Success?
      && decode(resp.value.body.value).Failure?
    ensures var a := RequestAttempt(token, requestError, transport, url, verb, reqObj, decode);
      var text := transport(Request(verb, url, RequestBody(reqObj), "Bearer " + token)).value.body.value;
      var head := "could not decode body into json: " + decode(text).error.message + "\n";
      && a.sent != [] && a.result.Failure? && HasPrefix(a.result.error, head)
      && HasSuffix(text, a.result.error[|head|..])
      && (text != [] ==> |a.result.error| - |head| < |text|)
  {
  }

  /**
   * A body of at most 512 characters never appears in the decode error: the
   * decoder's first read has already drained the buffer that `buf.String()` shows.
   */
  lemma ShortBodyNotShown<T>(token: string, requestError: (string, string) -> Option<string>,
                             transport: Request -> Result<Response, string>, url: string, verb: string,
                             reqObj: Option<Result<string, string>>, decode: string -> Result<T, DecodeError>)
    requires !(reqObj.Some? && reqObj.value.Failure?) && requestError(verb, url).None?
    requires var resp := transport(Request(verb, url, RequestBody(reqObj), "Bearer " + token));
      resp.Success? && resp.value.statusCode == StatusOK && resp.value.body.Success?
      && |resp.value.body.value| <= DecoderFirstRead && decode(resp.value.body.value).Failure?
    ensures var a := RequestAttempt(token, requestError, transport, url, verb, reqObj, decode);
      var text := transport(Request(verb, url, RequestBody(reqObj), "Bearer " + token)).value.body.value;
      a.result == Failure("could not decode body into json: " + decode(text).error.message + "\n")
  {
    var text := transport(Request(verb, url, RequestBody(reqObj), "Bearer " + token)).value.body.value;
    var e := decode(text).error;
    var head := "could not decode body into json: " + e.message + "\n";
    assert DecodeErrorText(e, text) == head + [];
    assert head + [] == head;
  }

  /** The truncated page body `[{"id":1,` is one such body: the error shows none of it. */
  lemma TruncatedPageNotShown()
    ensures DecodeErrorText(DecodeError("unexpected EOF", 9), "[{\"id\":1,")
            == "could not decode body into json: unexpected EOF" + "\n"
  {
    var head := "could not decode body into json: unexpected EOF" + "\n";
    assert DecodeErrorText(DecodeError("unexpected EOF", 9), "[{\"id\":1,") == head + [];
  }

  /**
   * The decode error the message evidently means to give: the decoder's
   * message, a newline and the whole body as received.
   */
  function IntendedDecodeErrorText(e: DecodeError, body: string): (msg: string)
    ensures HasPrefix(msg, "could not decode body into json: " + e.message + "\n")
    ensures msg[|"could not decode body into json: " + e.message + "\n"|..] == body
  {
    var head := "could not decode body into json: " + e.message + "\n";
    var msg := head + body;
    assert msg[..|head|] == head && msg[|head|..] == body;
    msg
  }

  /** Where the body is non-empty, the message as written and the intended one differ. */
  lemma IntendedShowsWhatIsHidden(e: DecodeError, body: string)
    requires body != []
    ensures DecodeErrorText(e, body) != IntendedDecodeErrorText(e, body)
  {
    var head := "could not decode body into json: " + e.message + "\n";
    assert |DecodeErrorText(e, body)| - |head| < |body|;
  }

  /**
   * A request succeeds exactly when every step does; its value is the
   * decoded body and its cursor the next-page URL of the `link` header.
   */
  lemma SuccessExactlyWhenEveryStepSucceeds<T>(token: string, requestError: (string, string) -> Option<string>,
                                               transport: Request -> Result<Response, string>, url: string,
                                               verb: string, reqObj: Option<Result<string, string>>,
                                               decode: string -> Result<T, DecodeError>)
    ensures var a := RequestAttempt(token, requestError, transport, url, verb, reqObj, decode);
      var resp := transport(Request(verb, url, RequestBody(reqObj), "Bearer " + token));
      && (a.result.Success? <==>
            && !(reqObj.Some? && reqObj.value.Failure?)
            && requestError(verb, url).None?
            && resp.Success? && resp.value.statusCode == StatusOK
            && resp.value.body.Success? && decode(resp.value.body.value).Success?)
      && (a.result.Success? ==>
            a.result.value == Fetched(decode(resp.value.body.value).value, NextGitlabPage(resp.value.link)))
  {
  }

  /** A listing page request: a GET with no body, read as one page and its cursor. */
  function PageFetch<T>(token: string, requestError: (string, string) -> Option<string>,
                        transport: Request -> Result<Response, string>,
                        decode: string -> Result<seq<T>, DecodeError>): string -> Result<Page<T>, string>
  {
    url => PageOf(RequestAttempt(token, requestError, transport, url, "GET", None, decode).result)
  }

  /** A decoded list and its cursor as one page of a listing. */
  function PageOf<T>(r: Result<Fetched<seq<T>>, string>): Result<Page<T>, string> {
    match r
    case Success(f) => Success(Page(f.value, f.next))
    case Failure(e) => Failure(e)
  }

  /** The requests a listing page request puts on the wire. */
  function PageSent<T>(token: string, requestError: (string, string) -> Option<string>,
                       transport: Request -> Result<Response, string>,
                       decode: string -> Result<seq<T>, DecodeError>): string -> seq<Request>
  {
    url => RequestAttempt(token, requestError, transport, url, "GET", None, decode).sent
  }

  /**
   * When `http.NewRequest` accepts every URL of a walk, each page costs
   * exactly one GET, to that page's URL, with the bearer token.
   */
  lemma OneRequestPerPage<T>(token: string, requestError: (string, string) -> Option<string>,
                             transport: Request -> Result<Response, string>,
                             decode: string -> Result<seq<T>, DecodeError>, urls: seq<string>)
    requires forall u | u in urls :: requestError("GET", u).None?
    ensures var sent := SentAlong(PageSent(token, requestError, transport, decode), urls);
      |sent| == |urls|
      && forall i | 0 <= i < |urls| :: sent[i] == Request("GET", urls[i], "", "Bearer " + token)
  {
    var sentBy := PageSent(token, requestError, transport, decode);
    var request := (u: string) => Request("GET", u, "", "Bearer " + token);
    forall u | u in urls ensures sentBy(u) == [request(u)] {
      AtMostOneRequest(token, requestError, transport, u, "GET", None, decode);
    }
    SentAlongOnePerPage(sentBy, request, urls);
  }

  /** `fmt.Errorf(prefix + "%w", err)` applied to the error, if there is one. */
  function Wrapped(prefix: string, failure: Option<string>): (r: Option<string>)
    ensures r.None? <==> failure.None?
    ensures failure.Some? ==> HasPrefix(r.value, prefix) && r.value[|prefix|..] == failure.value
  {
    match failure
    case None => None
    case Some(e) =>
      var r := prefix + e;
      assert r[..|prefix|] == prefix && r[|prefix|..] == e;
      Some(r)
  }

  /**
   * The loop of `ListGroups` and `ListRegistriesInGroup`: request the page at
   * `next`, append its items, follow its cursor; on a failing request stop at
   * once with the items so far and the error behind `prefix`.
   */
  method CollectPages<T>(g: Endpoint, net: Network, start: string, decode: string -> Result<seq<T>, DecodeError>,
                         prefix: string)
    returns (items: seq<T>, err: Option<string>)
    requires exists n: nat :: EndsWithin(PageFetch(g.authtoken, net.requestError, net.transport, decode), start, n)
    modifies net
    ensures var w := Paginate(PageFetch(g.authtoken, net.requestError, net.transport, decode), start);
      && items == w.items && err == Wrapped(prefix, w.failure)
      && net.sent == old(net.sent) + SentAlong(PageSent(g.authtoken, net.requestError, net.transport, decode), w.visited)
  {
    ghost var fetch := PageFetch(g.authtoken, net.requestError, net.transport, decode);
    ghost var n: nat :| EndsWithin(fetch, start, n);
    PaginateIsWalk(fetch, start, n);
    ghost var whole := Walk(fetch, start, n);
    ghost var k := n;
    ghost var visited: seq<string> := [];
    var next := start;
    items, err := [], None;
    while next != ""
      invariant EndsWithin(fetch, next, k)
      invariant Resumes(whole, items, visited, Walk(fetch, next, k))
      invariant err == None
      invariant net.sent == old(net.sent) + SentAlong(PageSent(g.authtoken, net.requestError, net.transport, decode), visited)
      decreases k
    {
      ghost var before := net.sent;
      var r := RunRequest(g, net, next, "GET", None, decode);
      CollectStep(g.authtoken, net.requestError, net.transport, decode, whole, next, k, items, visited,
                  old(net.sent), before, r, net.sent);
      match r
      case Failure(e) =>
        err := Some(prefix + e);
        return;
      case Success(f) =>
        items := items + f.value;
        visited := visited + [next];
        next := f.next;
        k := k - 1;
    }
    WalkDone(fetch, whole, k, items, visited);
  }

  /** One pass of the loop of `CollectPages` keeps its invariant, or ends the walk on a failure. */
  lemma CollectStep<T>(token: string, requestError: (string, string) -> Option<string>,
                       transport: Request -> Result<Response, string>, decode: string -> Result<seq<T>, DecodeError>,
                       whole: Listing<T>, next: string, k: nat, items: seq<T>, visited: seq<string>,
                       base: seq<Request>, before: seq<Request>, r: Result<Fetched<seq<T>>, string>,
                       after: seq<Request>)
    requires next != ""
    requires EndsWithin(PageFetch(token, requestError, transport, decode), next, k)
    requires Resumes(whole, items, visited, Walk(PageFetch(token, requestError, transport, decode), next, k))
    requires before == base + SentAlong(PageSent(token, requestError, transport, decode), visited)
    requires var a := RequestAttempt(token, requestError, transport, next, "GET", None, decode);
      r == a.result && after == before + a.sent
    ensures after == base + SentAlong(PageSent(token, requestError, transport, decode), visited + [next])
    ensures var fetch := PageFetch(token, requestError, transport, decode);
      match r
      case Failure(e) => whole == Listing(items, Some(e), visited + [next])
      case Success(f) =>
        && k > 0 && EndsWithin(fetch, f.next, k - 1)
        && Resumes(whole, items + f.value, visited + [next], Walk(fetch, f.next, k - 1))
  {
    SentAlongStep(PageSent(token, requestError, transport, decode), visited, next);
    WalkResumes(PageFetch(token, requestError, transport, decode), whole, next, k, items, visited, PageOf(r));
  }

  /** `ListGroups`: every group of the install, page after page. */
  method ListGroups(g: Endpoint, net: Network, decode: string -> Result<seq<Group>, DecodeError>)
    returns (groups: seq<Group>, err: Option<string>)
    requires exists n: nat ::
      EndsWithin(PageFetch(g.authtoken, net.requestError, net.transport, decode), FmtEndpointURL(g, GroupsPath), n)
    modifies net
    ensures var w := Paginate(PageFetch(g.authtoken, net.requestError, net.transport, decode), FmtEndpointURL(g, GroupsPath));
      && groups == w.items && err == Wrapped("error listing groups: ", w.failure)
      && net.sent == old(net.sent) + SentAlong(PageSent(g.authtoken, net.requestError, net.transport, decode), w.visited)
  {
    groups, err := CollectPages(g, net, FmtEndpointURL(g, GroupsPath), decode, "error listing groups: ");
  }

  /** `ListRegistriesInGroup`: every container registry of `group`, with tags, page after page. */
  method ListRegistriesInGroup(g: Endpoint, net: Network, group: Group,
                               decode: string -> Result<seq<ContainerRegistry>, DecodeError>)
    returns (imgRepos: seq<ContainerRegistry>, err: Option<string>)
    requires exists n: nat ::
      EndsWithin(PageFetch(g.authtoken, net.requestError, net.transport, decode), FmtEndpointURL(g, RegistriesPath(group.id)), n)
    modifies net
    ensures var w := Paginate(PageFetch(g.authtoken, net.requestError, net.transport, decode),
                              FmtEndpointURL(g, RegistriesPath(group.id)));
      && imgRepos == w.items && err == Wrapped("error listing repos for group " + group.path + ": ", w.failure)
      && net.sent == old(net.sent) + SentAlong(PageSent(g.authtoken, net.requestError, net.transport, decode), w.visited)
  {
    imgRepos, err := CollectPages(g, net, FmtEndpointURL(g, RegistriesPath(group.id)), decode,
                                  "error listing repos for group " + group.path + ": ");
  }

  /**
   * The fields a tag-details response carries: decoding JSON into an existing
   * `Tag` sets the fields present in the document and keeps the others.
   */
  datatype TagPatch = TagPatch(name: Option<string>, path: Option<string>, location: Option<string>,
                               revision: Option<string>, createdAt: Option<string>, totalSize: Option<uint64>)

  function Pick<T>(given: Option<T>, current: T): T {
    if given.Some? then given.value else current
  }

  /** `tag` after a response carrying `patch` was decoded into it. */
  function Merge(tag: Tag, patch: TagPatch): Tag {
    Tag(Pick(patch.name, tag.name), Pick(patch.path, tag.path), Pick(patch.location, tag.location),
        Pick(patch.revision, tag.revision), Pick(patch.createdAt, tag.createdAt), Pick(patch.totalSize, tag.totalSize))
  }

  /** A response with none of the fields leaves the tag as it was. */
  lemma MergeNothing(tag: Tag)
    ensures Merge(tag, TagPatch(None, None, None, None, None, None)) == tag
  {
  }

  /**
   * Details that carry only the creation time and size (what the listing
   * lacks) keep the tag's name, path, location and revision.
   */
  lemma EnrichmentKeepsIdentity(tag: Tag, createdAt: string, totalSize: uint64)
    ensures var t := Merge(tag, TagPatch(None, None, None, None, Some(createdAt), Some(totalSize)));
      t.name == tag.name && t.path == tag.path && t.location == tag.location && t.revision == tag.revision
      && t.createdAt == createdAt && t.totalSize == totalSize
  {
  }

  /** The caller's tag, which `GetRegistryTagInfo` updates through its pointer. */
  class TagRef {
    var value: Tag

    constructor (tag: Tag)
      ensures value == tag
    {
      value := tag;
    }
  }

  /**
   * `GetRegistryTagInfo`: one GET of the tag's details, decoded into the
   * caller's tag; the cursor is discarded, and an error names the tag's path.
   */
  method GetRegistryTagInfo(g: Endpoint, net: Network, registry: ContainerRegistry, tag: TagRef,
                            decode: string -> Result<TagPatch, DecodeError>)
    returns (err: Option<string>)
    modifies net, tag
    ensures var url := FmtEndpointURL(g, TagPath(registry.projectId, registry.id, old(tag.value).name));
      var a := RequestAttempt(g.authtoken, net.requestError, net.transport, url, "GET", None, decode);
      && net.sent == old(net.sent) + a.sent
      && match a.result
         case Success(f) => err == None && tag.value == Merge(old(tag.value), f.value)
         case Failure(e) =>
           && err == Some("error getting tag details for container repository " + old(tag.value).path + ":  " + e)
           && tag.value == old(tag.value)
  {
    var url := FmtEndpointURL(g, TagPath(registry.projectId, registry.id, tag.value.name));
    var r := RunRequest(g, net, url, "GET", None, decode);
    match r
    case Success(f) =>
      tag.value := Merge(tag.value, f.value);
      err := None;
    case Failure(e) =>
      err := Some("error getting tag details for container repository " + tag.value.path + ":  " + e);
  }
}
