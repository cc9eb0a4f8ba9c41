# GitLab container-registry usage client, modelled in Dafny

This project models the API client that walks a GitLab installation's groups
and container registries. The client exists in two Go versions:

- the `gitlab` library package (`lib/gitlab/gitlabEndpoints.go`);
- the stand-alone `containerUsage.go`.

A third file, `walkAPI.go`, carries only the Link-header parser. The model
covers these parts:

- **Next-page extraction** (`LinkHeader`). `nextGitlabPage` reads the `Link`
  header of RFC 8288 ("Web Linking"), section 3, in a simplified way. It
  splits the header on `,` and each entry on `;`. It returns the target of
  the first entry with exactly two parts whose second part, trimmed of
  white space, is exactly `rel="next"`. Its body is textually identical
  in all three files (the library's version is a method on `endpoint`) and
  is modelled once. `LinkHeaderExamples` proves the
  test vectors and the edge cases on concrete headers.
- **Go string functions** (`GoStrings`): the library calls the client relies
  on. These are `strings.Split` with a one-character separator,
  `Trim`/`TrimLeft`/`TrimRight` with a cutset, `TrimSpace`
  (`unicode.IsSpace`), `TrimPrefix`/`TrimSuffix` and `%d`. The module also
  holds Go's `int64`/`uint64` ranges.
- **Cursor pagination** (`Pagination`). A walk starts at a URL, requests a
  page and appends its items. It follows the cursor the page returns until
  the cursor is `""`, and stops at the first failing request. The server is
  a function from URL to page or error. Go's loop has no termination
  guarantee, so walks are defined for cursor chains that end within a given
  number of requests.
- **HTTP world** (`Http`): a `Network` object whose server and whose
  `http.NewRequest` validation are fixed oracles. It logs every request
  handed to `Do`.
- **Library client** (`GitlabEndpoints`), covering these functions:
  - `NewGitlabEndpoint`: the float rate clamp, burst 1, one trailing `/`
    removed and `/api/v4/` appended;
  - `fmtEndpointURL`;
  - `runRequest`: encode, build, send with `Bearer <token>`, status 200
    check, read, decode, then the cursor from `link`. A decode error shows
    only the part of the body the decoder left unread;
  - `ListGroups` and `ListRegistriesInGroup` as loops over `runRequest`;
  - `GetRegistryTagInfo`: decodes the tag details into the caller's `*Tag`
    (a `TagRef` object), which keeps the fields the response lacks.
- **Stand-alone client** (`ContainerUsage`), covering these functions:
  - `NewGitlabEndpoint`: the integer rate clamp, every trailing `/` removed
    and `/api/v4` appended;
  - the per-page closures, which never look at the status code;
  - `ListGroups` and `ListRepos`, whose start URLs repeat `/api/v4`.

In these places the Go code does something a reader might not expect; the
model follows the code:

- Neither `NewGitlabEndpoint` strips an existing `/api/v4` suffix. A base URL
  of `https://git.example.com/api/v4/` therefore does not give the same
  endpoint as `https://git.example.com`. See `BaseURLRepeatsApiRoot` and
  `ApiRootNotStripped`.
- The library version removes at most one trailing `/`.
- The stand-alone closures accept any status code.
- The stand-alone listings request `/api/v4/api/v4/...`.
- No Go file sums tag sizes or filters groups by an allow-list, so there is
  no aggregator to model.

## Model

| member | source | states |
|---|---|---|
| LinkHeader.NextGitlabPage | lib/gitlab/gitlabEndpoints.go:32-40 | a non-empty next-page URL has no leading or trailing ' ', '<' or '>' and contains no ',' and no ';' |
| LinkHeader.EntryTarget | lib/gitlab/gitlabEndpoints.go:36 | the target is a contiguous part of the entry's first ';'-part, with only white space, ' ', '<' and '>' cut from its two ends; it neither starts nor ends with ' ', '<' or '>' and has no ';' |
| LinkHeader.FirstNext | walkAPI.go:22-28 | the search over the entries returns a URL trimmed of delimiters with no ';', and no ',' when no entry has one |
| LinkHeader.FirstNextFindsFirst | walkAPI.go:22-26 | when entry i is the first qualifying one, the search returns that entry's target |
| LinkHeader.FirstNextFindsNone | walkAPI.go:22-28 | when no entry qualifies, the search returns "" |
| LinkHeader.NextPageIsFirstNextEntry | lib/gitlab/gitlabEndpoints.go:33-37 | the result is the target of the first comma-separated entry with exactly two ';'-parts whose trimmed second part is `rel="next"` |
| LinkHeader.NoNextEntryMeansNoPage | lib/gitlab/gitlabEndpoints.go:33-39 | a header with no qualifying entry gives "" |
| LinkHeader.LaterEntriesIgnored | containerUsage.go:42-46 | entries after the first qualifying one do not affect the result |
| LinkHeaderExamples.EntryRelation | walkAPI.go:23-24 | a well-formed entry `<url>; rel` qualifies exactly when rel is `rel="next"` |
| LinkHeaderExamples.EntryURL | walkAPI.go:25 | the target of a well-formed entry, however much blank precedes it, is its URL without the angle brackets |
| LinkHeaderExamples.FourLinksNext | containerUsage.go:41-49 | for any prev/next/first/last header of plain URLs the result is the next URL |
| LinkHeaderExamples.UpstreamExample | containerUsage_test.go:10-14 | the upstream example header gives `https://gitlab.example.com/api/v4/projects/8/issues/8/notes?page=3&per_page=3` |
| LinkHeaderExamples.EmptyHeaderHasNoNextPage | containerUsage_test.go:15-18 | the empty header (one empty entry) gives "" |
| LinkHeaderExamples.EntryWithoutParametersSkipped | walkAPI.go:23-24 | an entry with no ';' is never taken, whatever it holds |
| LinkHeaderExamples.EntryWithExtraParameterSkipped | walkAPI.go:23-24 | an entry with a third ';'-part such as `type=x` is never taken, even with `rel="next"` |
| LinkHeaderExamples.RelationIsCaseSensitive | walkAPI.go:24 | `rel=next` and `REL="next"` do not qualify |
| LinkHeaderExamples.FirstOfTwoNextEntriesWins | containerUsage.go:42-46 | of two `rel="next"` entries the first one's URL is returned |
| GoStrings.Split | lib/gitlab/gitlabEndpoints.go:33-34 | `strings.Split` gives at least one piece, no piece holds the separator, and joining the pieces gives the input back |
| GoStrings.SplitJoin | lib/gitlab/gitlabEndpoints.go:33-34 | splitting the join of separator-free pieces gives the pieces back |
| GoStrings.Trim | lib/gitlab/gitlabEndpoints.go:36 | `strings.Trim` gives a contiguous part of the input with only cutset characters before and after it, and neither of its ends in the cutset; this determines the result |
| GoStrings.TrimDropsEnds | lib/gitlab/gitlabEndpoints.go:36 | cutset characters around a string do not survive the trim |
| GoStrings.TrimSpace | lib/gitlab/gitlabEndpoints.go:35 | `strings.TrimSpace` gives a contiguous part of the input with only `unicode.IsSpace` characters before and after it, and no such character at either of its ends |
| GoStrings.TrimRight | containerUsage.go:62 | `strings.TrimRight` gives a prefix of the input whose last character is not in the cutset, and everything it removes is in the cutset |
| GoStrings.TrimPrefix | lib/gitlab/gitlabEndpoints.go:43 | `strings.TrimPrefix` removes the prefix once when present and changes nothing otherwise |
| GoStrings.TrimSuffix | lib/gitlab/gitlabEndpoints.go:58 | `strings.TrimSuffix` removes the suffix once when present and changes nothing otherwise |
| GoStrings.NatToDecimal | lib/gitlab/gitlabEndpoints.go:156 | `%d` writes a non-empty run of digits without a leading zero |
| GoStrings.DecimalRoundTrip | lib/gitlab/gitlabEndpoints.go:156 | reading back the digits `%d` writes gives the number again |
| GoStrings.IntToDecimal | lib/gitlab/gitlabEndpoints.go:174-175 | `%d` of an int64 starts with '-' exactly for negative numbers; the rest is a run of digits without a leading zero that denotes the magnitude; it has no '/', so an id occupies exactly one path segment |
| Pagination.WalkFollowsCursors | lib/gitlab/gitlabEndpoints.go:136-147 | the first request goes to the start URL, each later one to the cursor the previous page returned, none to ""; the walk ends on "" or on the first failure, whose error it reports |
| Pagination.WalkItemsInPageOrder | lib/gitlab/gitlabEndpoints.go:145 | the items gathered are the pages' items concatenated in request order |
| Pagination.WalkFailureKeepsEarlierPages | lib/gitlab/gitlabEndpoints.go:140-144 | on a failing request the walk stops there and keeps the items of every page before it |
| Pagination.WalkNeverRevisits | lib/gitlab/gitlabEndpoints.go:139-146 | against a server that answers a URL the same way every time, a walk that ends never requests the same URL twice (the loop itself has no revisit check) |
| Pagination.WalkBoundIrrelevant | lib/gitlab/gitlabEndpoints.go:139 | the result of a walk does not depend on the request bound used to define it |
| Pagination.WalkRequestsBounded | lib/gitlab/gitlabEndpoints.go:139 | a chain that ends within n requests costs at most n requests |
| Pagination.PaginateIsWalk | containerUsage.go:121-130 | the walk from a URL is the bounded walk for any bound that suffices |
| Pagination.WalkResumes | containerUsage.go:162-169 | one loop pass either ends the walk with that page's error or resumes it from the cursor with the page's items and URL added |
| Pagination.SentAlongOnePerPage | containerUsage.go:162-169 | when each page request sends exactly one request, a walk sends one request per page URL, in order |
| Pagination.ThreePageCollection | containerUsage.go:121-130 | three chained pages give their items in order with three requests |
| Pagination.MiddlePageFailureStopsWalk | containerUsage.go:122-126 | a failing middle page stops the walk with the first page's items and that error |
| Http.Network.Do | lib/gitlab/gitlabEndpoints.go:111 | `http.DefaultClient.Do` puts exactly the given request on the wire and returns the server's answer |
| GitlabEndpoints.NewGitlabEndpoint | lib/gitlab/gitlabEndpoints.go:52-62 | the rate is at most 100, unchanged when at most 100 and 100 above it; burst 1; the base URL ends in `/api/v4/` and is the input minus one trailing '/' plus `/api/v4/` |
| GitlabEndpoints.BaseURLDropsOneSlash | lib/gitlab/gitlabEndpoints.go:58 | an input with or without one trailing '/' gives the same endpoint |
| GitlabEndpoints.BaseURLKeepsSecondSlash | lib/gitlab/gitlabEndpoints.go:58 | only one trailing '/' is removed: `host//` keeps a '/' before `/api/v4/` |
| GitlabEndpoints.BaseURLRepeatsApiRoot | lib/gitlab/gitlabEndpoints.go:58 | an input ending in `/api/v4` or `/api/v4/` gets `/api/v4/` appended again |
| GitlabEndpoints.FmtEndpointURL | lib/gitlab/gitlabEndpoints.go:42-44 | the URL starts with the base URL, followed by the path with at most one leading '/' removed |
| GitlabEndpoints.FmtStripsOneSlash | lib/gitlab/gitlabEndpoints.go:43 | a second leading '/' of the path is kept |
| GitlabEndpoints.GroupsStartUnderApiRoot | lib/gitlab/gitlabEndpoints.go:136 | the group listing starts at `<host>/api/v4/groups` |
| GitlabEndpoints.RegistriesStartUnderApiRoot | lib/gitlab/gitlabEndpoints.go:156 | the registry listing starts at `<host>/api/v4/groups/<id>/registry/repositories?tags=1` |
| GitlabEndpoints.Unread | lib/gitlab/gitlabEndpoints.go:121-127 | what `buf.String()` holds after the decoder has read from the buffer is a suffix of the body, shorter than any non-empty body and empty for a body of at most 512 characters (bytes, for an ASCII body) |
| GitlabEndpoints.DecodeErrorText | lib/gitlab/gitlabEndpoints.go:126-128 | the decode error is `could not decode body into json: `, the decoder's message, a newline, then a suffix of the body that is never all of a non-empty body and is empty for a body of at most 512 characters (bytes, for an ASCII body) |
| GitlabEndpoints.RunRequest | lib/gitlab/gitlabEndpoints.go:93-130 | the result and the requests sent are those of the step-by-step request attempt |
| GitlabEndpoints.AtMostOneRequest | lib/gitlab/gitlabEndpoints.go:97-111 | at most one request is sent, exactly when encoding and request construction succeed; it carries the method, URL, encoded body plus newline, and `Bearer ` + token even for an empty token |
| GitlabEndpoints.EncodeFailureSendsNothing | lib/gitlab/gitlabEndpoints.go:97-101 | an encoding failure sends nothing and returns `could not encode body: ` + error |
| GitlabEndpoints.StatusCheckedBeforeDecode | lib/gitlab/gitlabEndpoints.go:117-119 | a status other than 200 fails with the status line, method and URL, whatever the decoder would do |
| GitlabEndpoints.DecodeFailureShowsUnreadRest | lib/gitlab/gitlabEndpoints.go:121-128 | after one request, a body that does not decode gives an error made of the prefix, the decoder's message, a newline and a suffix of the body shorter than the body |
| GitlabEndpoints.ShortBodyNotShown | lib/gitlab/gitlabEndpoints.go:121-128 | a body of at most 512 characters (bytes, for an ASCII body) that does not decode gives exactly `could not decode body into json: ` + message + newline, none of the body |
| GitlabEndpoints.TruncatedPageNotShown | lib/gitlab/gitlabEndpoints.go:126-127 | the truncated page `[{"id":1,` with `unexpected EOF` gives `could not decode body into json: unexpected EOF` and a newline, without the body |
| GitlabEndpoints.IntendedDecodeErrorText | lib/gitlab/gitlabEndpoints.go:127 | the intended decode error: the prefix, the decoder's message, a newline and then the whole body |
| GitlabEndpoints.IntendedShowsWhatIsHidden | lib/gitlab/gitlabEndpoints.go:127 | for every non-empty body, the error as written differs from the intended one |
| GitlabEndpoints.SuccessExactlyWhenEveryStepSucceeds | lib/gitlab/gitlabEndpoints.go:97-129 | success exactly when encode, build, send, status 200, read and decode all succeed; the value is the decoded body and the cursor is the next-page URL of `link` |
| GitlabEndpoints.OneRequestPerPage | lib/gitlab/gitlabEndpoints.go:139-146 | with every URL accepted, a listing sends one GET per page, to that page's URL, with the bearer token |
| GitlabEndpoints.Wrapped | lib/gitlab/gitlabEndpoints.go:142 | a wrapped error is the prefix followed by the original error, and there is one exactly when there was an error |
| GitlabEndpoints.CollectStep | lib/gitlab/gitlabEndpoints.go:139-146 | one pass of the listing loop keeps its invariant or ends the walk with the error |
| GitlabEndpoints.CollectPages | lib/gitlab/gitlabEndpoints.go:139-147 | the loop returns the walk's items, its error behind the prefix, and sends one page request per URL walked |
| GitlabEndpoints.ListGroups | lib/gitlab/gitlabEndpoints.go:135-148 | all groups from the walk starting at `groups`, an error prefixed `error listing groups: `, and the requests of the walk |
| GitlabEndpoints.ListRegistriesInGroup | lib/gitlab/gitlabEndpoints.go:153-168 | all registries from the walk starting at `groups/<id>/registry/repositories?tags=1`, an error prefixed `error listing repos for group <path>: `, and the requests of the walk |
| GitlabEndpoints.MergeNothing | lib/gitlab/gitlabEndpoints.go:177 | a response without tag fields leaves the tag as it was |
| GitlabEndpoints.EnrichmentKeepsIdentity | lib/gitlab/gitlabEndpoints.go:172-181 | details carrying only creation time and size fill those in and keep name, path, location and revision |
| GitlabEndpoints.GetRegistryTagInfo | lib/gitlab/gitlabEndpoints.go:172-182 | one GET of the tag's details URL; on success the caller's tag is updated in place with the fields the response carries and the cursor is discarded; on failure the tag is unchanged and the error names the tag's path |
| ContainerUsage.NewGitlabEndpoint | containerUsage.go:57-66 | the rate is at most 100, unchanged when at most 100 and 100 above it; the base URL ends in `/api/v4`, never in '/', and what precedes `/api/v4` is the input without its trailing slashes |
| ContainerUsage.TrimRightSlashes | containerUsage.go:62 | any number of trailing slashes is trimmed away |
| ContainerUsage.TrailingSlashesIgnored | containerUsage.go:62 | inputs that differ only in how many slashes they end with give the same endpoint |
| ContainerUsage.ApiRootNotStripped | containerUsage.go:62 | an input ending in `/api/v4/` gets `/api/v4` a second time |
| ContainerUsage.BaseURLOfPlainHost | containerUsage.go:62 | a host not ending in '/' is kept whole before `/api/v4` |
| ContainerUsage.GroupsApiRootDoubled | containerUsage.go:97 | the group listing starts at `<host>/api/v4/api/v4/groups` |
| ContainerUsage.ReposApiRootDoubled | containerUsage.go:135-138 | the repository listing starts at `<host>/api/v4/api/v4/groups/<id>/registry/repositories?tags=1` |
| ContainerUsage.DoubledGroupsURLExample | containerUsage.go:14 | for `https://git.liquidweb.com/` the groups are requested under `/api/v4/api/v4`, not at the `/api/v4/groups` of the source's own curl comment |
| ContainerUsage.IntendedGroupsUnderApiRoot | containerUsage.go:14 | with the API root named once, the groups are requested at `<host>/api/v4/groups` |
| ContainerUsage.IntendedReposUnderApiRoot | containerUsage.go:135-138 | with the API root named once, a group's repositories are requested at `<host>/api/v4/groups/<id>/registry/repositories?tags=1` |
| ContainerUsage.IntendedGroupsURLExample | containerUsage.go:14 | for `https://git.liquidweb.com/` the intended first URL is the `https://git.liquidweb.com/api/v4/groups` of the curl comment |
| ContainerUsage.RequestPage | containerUsage.go:100-119 | the closure's result and the requests it sends are those of the page exchange |
| ContainerUsage.StatusNeverChecked | containerUsage.go:109-118 | the outcome is the same whatever status code and status line the server answers with |
| ContainerUsage.PageExchangeOutcome | containerUsage.go:141-160 | success exactly when the request is built and answered and the body decodes; the page is the decoded list with the next-page URL of `link`; at most one GET is sent, with `Bearer ` + token |
| ContainerUsage.OneRequestPerPage | containerUsage.go:162-169 | with every URL accepted, a listing sends one GET per page, to that page's URL |
| ContainerUsage.CollectStep | containerUsage.go:121-128 | one pass of the listing loop keeps its invariant or ends the walk with the error |
| ContainerUsage.CollectPages | containerUsage.go:121-130 | the loop returns the walk's items, its error behind the prefix, and sends one page request per URL walked |
| ContainerUsage.ListGroups | containerUsage.go:95-131 | all groups from the walk starting at the doubled groups URL, an error prefixed `error listing groups: `, and the requests of the walk |
| ContainerUsage.ListRepos | containerUsage.go:133-171 | all repositories from the walk starting at the doubled repositories URL, an error prefixed `error listing repos for group <path>: `, and the requests of the walk |

## Left out

- The rate limiters' timing (`golang.org/x/time/rate` and `go.uber.org/ratelimit`): only the numbers they are built with are modelled. The error that `rl.Wait(ctx)` returns is discarded in lib/gitlab/gitlabEndpoints.go:109, so a cancelled wait does not stop the call. The model has no wait at all.
- `context.Context` and cancellation: these are concurrency concerns. `http.NewRequestWithContext` fails on a nil context, which is part of its oracle here. A cancelled context can make `Do` fail, or the body read at lib/gitlab/gitlabEndpoints.go:122; both are covered by the transport oracle and the response's `body` result, but the context itself is not modelled.
- Real HTTP I/O: `http.NewRequest*` and `http.DefaultClient.Do` are the `Network` oracles. `resp.Body.Close` is not modelled.
- The JSON codec and the `jsonDateTime` wrapper over RFC 3339 (section 5.6) timestamps. A decoder is a function from body text to a value or an error; the library's decoder error also says how much of the body was consumed. Timestamps are kept as the text sent. How `encoding/json` maps documents to values is library behaviour.
- ContainerUsage.NewGitlabEndpoint: a rate of 0 or below is passed to `ratelimit.New` at containerUsage.go:64, which is not among this project's source files. If, as its implementation is generally described, `New` divides its period by the rate, a rate of 0 makes Go panic there, while the model returns an endpoint; this is unverified. Negative rates and a NaN float rate in the library are likewise modelled only through the clamp's comparison with 100.
- GitlabEndpoints.GetRegistryTagInfo: when decoding fails part-way, Go may already have written some fields into the tag. The model leaves the tag unchanged on every error.
- GitlabEndpoints.CollectPages: Go decodes each page into the same slice variable. The model takes each page's decoded list as a fresh value, so it does not capture what that reuse does under `encoding/json`'s rules. The next two lines say what that is.
- GitlabEndpoints.ListGroups: by those rules, a page whose body is `null` sets only the local interface `respObj` to nil (lib/gitlab/gitlabEndpoints.go:126). `newGroups` still holds the previous page, and line 145 appends it a second time; the model appends whatever list its decoder gives for that page. A later page is decoded into the earlier page's elements, so fields the later JSON leaves out keep their earlier values; the model's groups carry only what their own page sent.
- GitlabEndpoints.ListRegistriesInGroup: the same `null` page and stale fields apply. In addition, each registry's `Tags` slice appended at line 165 shares its backing array with `newImgRepos[i].Tags`, so the next page's tags can overwrite the tags of registries already collected. The model keeps every registry's tags as its page sent them.
- GitlabEndpoints.DecodeErrorText: the 512 of `json.Decoder`'s first read counts bytes, and the model counts characters. The two agree for ASCII bodies, and GitLab's JSON bodies usually are ASCII. How far past 512 a longer body was read is the decoder oracle's `consumed`.
- Pagination.WalkNeverRevisits and the listing loops model the server as a function of the URL. A server whose answers change between requests is not covered. With answers A→B→A→"", Go would request A twice.
- GitlabEndpoints.CollectPages, GitlabEndpoints.ListGroups, GitlabEndpoints.ListRegistriesInGroup, ContainerUsage.CollectPages, ContainerUsage.ListGroups and ContainerUsage.ListRepos require that the cursor chain reaches "" or a failure within finitely many requests. The Go loop would run forever on an endless chain.
- Strings are sequences of Unicode scalar values. Invalid UTF-8 in headers or URLs is not modelled.
- Untitled.rb: Ruby glue that sums tag sizes with floating point and pages by `x-total-pages`. It is a different program.
- main.go, the `main` of walkAPI.go and the `kingpin` flags: command-line wiring and output.
- The usage aggregator, its per-group and per-registry totals, and the allow-list filter: no Go file implements them.

## Findings

| source | as written | input that shows it | evidently intended | confidence | as-written member | corrected member |
|---|---|---|---|---|---|---|
| lib/gitlab/gitlabEndpoints.go:126-127 | the body is decoded by reading from `buf`, so `buf.String()` in the error holds only what the decoder left unread | status 200 with body `[{"id":1,`: the error is `could not decode body into json: unexpected EOF` and a newline, with no body | the error ends with the whole body as received | not executed | GitlabEndpoints.TruncatedPageNotShown | GitlabEndpoints.IntendedDecodeErrorText |
| containerUsage.go:97 | the base URL already ends in `/api/v4` (line 62), and the listing appends `/api/v4/groups` again | base URL `https://git.liquidweb.com/`: the first request goes to `https://git.liquidweb.com/api/v4/api/v4/groups` | `https://git.liquidweb.com/api/v4/groups`, the URL of the curl comment at line 14 | not executed | ContainerUsage.DoubledGroupsURLExample | ContainerUsage.IntendedGroupsUnderApiRoot |

`RunRequest`, the listings and `GetRegistryTagInfo` keep the behaviour as written, because they model the code. The intended definitions show what a fix would give.
