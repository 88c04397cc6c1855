/**
 * The API client of lib/gitem/api.py: token injection and the success/failure
 * split of `call`, the JSON call, the cursor-following paginated call (as a
 * pull-driven state machine, `Pager`), the authentication guard and the
 * endpoint catalogue with its enumerated-parameter validation.
 *
 * The HTTP transport is the `requester` of an `Api` object: a function from a
 * request to the decoded response, whose `next` is the URL of the response's
 * `rel="next"` link (RFC 8288), if it has one. The ghost field `sent` records
 * every request handed to the requester, which is how the model states that a
 * call issues no request.
 */
module Api {
  import opened Values
  import opened ApiErrors

  const BaseUrl: string := "https://api.github.com"
  const AccessTokenKey: string := "access_token"
  const Get: string := "GET"

  datatype Request = Request(verb: string, url: string, params: map<string, Scalar>)

  /** A response: the `ok` flag, the status code, the decoded body and the next-page link. */
  datatype Response = Response(ok: bool, status: int, body: Body, next: Option<string>)

  /** `if self.oauth2_token:`: a token is attached only when it is present and non-empty. */
  predicate HasToken(token: Option<string>)
  {
    token.Some? && token.value != ""
  }

  /** The parameters `call` leaves in the caller's dictionary and sends. */
  function Authorized(params: map<string, Scalar>, token: Option<string>): (r: map<string, Scalar>)
    ensures forall k :: k in params ==> k in r
    ensures forall k :: k in r && k != AccessTokenKey ==> k in params && r[k] == params[k]
    ensures HasToken(token) ==> AccessTokenKey in r && r[AccessTokenKey] == Str(token.value)
    ensures !HasToken(token) ==> r == params
  {
    if HasToken(token) then params[AccessTokenKey := Str(token.value)] else params
  }

  /** Injecting the token twice is injecting it once, so re-sending a dictionary changes nothing. */
  lemma AuthorizedIdempotent(params: map<string, Scalar>, token: Option<string>)
    ensures Authorized(Authorized(params, token), token) == Authorized(params, token)
  {
  }

  /** The success/failure split of `call`: a response whose `ok` flag is false raises its status and body. */
  function Classify(resp: Response): (r: Outcome<Response>)
    ensures r.Ok? <==> resp.ok
    ensures r.Ok? ==> r.value == resp
    ensures r.Fail? ==> (r.failure.ApiCall? && r.failure.error.code == resp.status
                         && r.failure.error.message == resp.body)
  {
    if resp.ok then Ok(resp) else Fail(ApiCall(ApiCallError(resp.status, resp.body)))
  }

  /** What `json_call` returns for a response: the decoded body and the status, or the failure. */
  function JsonResult(resp: Response): (r: Outcome<(Body, int)>)
    ensures r.Ok? <==> resp.ok
    ensures r.Ok? ==> r.value == (resp.body, resp.status)
    ensures r.Fail? ==> r.failure == Classify(resp).failure
  {
    match Classify(resp)
    case Ok(ok) => Ok((ok.body, ok.status))
    case Fail(f) => Fail(f)
  }

  // ---------------------------------------------------------------------
  // The paginated call as a sequence of pulls
  // ---------------------------------------------------------------------

  /** What one pull of the paginated generator produces. */
  datatype Step = Yield(body: Body, status: int) | Stop | Raise(failure: Failure)

  /** The fixed parts of one paginated call: the transport, the HTTP method and the parameters sent. */
  datatype Walk = Walk(requester: Request -> Response, verb: string, query: map<string, Scalar>)

  /** The step a response produces. */
  function StepFor(resp: Response): (s: Step)
    ensures s.Yield? <==> resp.ok
    ensures s.Raise? <==> !resp.ok
    ensures s.Yield? ==> s == Yield(resp.body, resp.status)
    ensures s.Raise? ==> s.failure == Classify(resp).failure
  {
    match Classify(resp)
    case Ok(ok) => Yield(ok.body, ok.status)
    case Fail(f) => Raise(f)
  }

  /**
   * One pull: with no URL pending the generator is exhausted; otherwise the
   * pending URL is requested, and the next URL is the response's next link
   * (none after a failure, which closes the generator).
   */
  function Advance(w: Walk, pending: Option<string>): (r: (Step, Option<string>))
    ensures pending.None? ==> r == (Stop, None)
    ensures r.1.Some? ==> r.0.Yield?
  {
    match pending
    case None => (Stop, None)
    case Some(url) =>
      var resp := w.requester(Request(w.verb, url, w.query));
      (StepFor(resp), if resp.ok then resp.next else None)
  }

  /** The URL pending after `n` pulls of a generator that starts at `start`. */
  function PendingAfter(w: Walk, start: Option<string>, n: nat): Option<string>
  {
    if n == 0 then start else Advance(w, PendingAfter(w, start, n - 1)).1
  }

  /** The results of the first `n` pulls. */
  function Trace(w: Walk, start: Option<string>, n: nat): (t: seq<Step>)
    ensures |t| == n
  {
    if n == 0 then [] else Trace(w, start, n - 1) + [Advance(w, PendingAfter(w, start, n - 1)).0]
  }

  /** The requests issued by the first `n` pulls. */
  function Issued(w: Walk, start: Option<string>, n: nat): (rs: seq<Request>)
    ensures |rs| <= n
  {
    if n == 0 then []
    else
      Issued(w, start, n - 1)
      + match PendingAfter(w, start, n - 1)
        case None => []
        case Some(url) => [Request(w.verb, url, w.query)]
  }

  lemma {:induction false} TraceAt(w: Walk, start: Option<string>, n: nat, j: nat)
    requires j < n
    ensures Trace(w, start, n)[j] == Advance(w, PendingAfter(w, start, j)).0
    decreases n
  {
    if j < n - 1 {
      TraceAt(w, start, n - 1, j);
    }
  }

  lemma {:induction false} PendingStaysNone(w: Walk, start: Option<string>, i: nat, j: nat)
    requires i <= j && PendingAfter(w, start, i).None?
    ensures PendingAfter(w, start, j).None?
    decreases j
  {
    if i < j {
      PendingStaysNone(w, start, i, j - 1);
    }
  }

  /** Pulling further never changes what earlier pulls produced. */
  lemma {:induction false} TracePrefix(w: Walk, start: Option<string>, m: nat, n: nat)
    requires m <= n
    ensures Trace(w, start, m) == Trace(w, start, n)[..m]
    decreases n
  {
    if m < n {
      TracePrefix(w, start, m, n - 1);
      assert Trace(w, start, n)[..n - 1] == Trace(w, start, n - 1);
    }
  }

  /** Once a pull stops or raises, every later pull stops. */
  lemma TraceSettles(w: Walk, start: Option<string>, n: nat, i: nat, j: nat)
    requires i < j < n && !Trace(w, start, n)[i].Yield?
    ensures Trace(w, start, n)[j] == Stop
  {
    TraceAt(w, start, n, i);
    TraceAt(w, start, n, j);
    assert PendingAfter(w, start, i + 1).None?;
    PendingStaysNone(w, start, i + 1, j);
  }

  /**
   * The URL is pending exactly for the first |Issued| pulls, and the j-th
   * issued request targets the URL pending before pull j.
   */
  lemma {:induction false} IssuedShape(w: Walk, start: Option<string>, n: nat)
    ensures forall j :: 0 <= j < |Issued(w, start, n)| ==>
      PendingAfter(w, start, j).Some?
      && Issued(w, start, n)[j] == Request(w.verb, PendingAfter(w, start, j).value, w.query)
    ensures forall j :: |Issued(w, start, n)| <= j < n ==> PendingAfter(w, start, j).None?
    decreases n
  {
    if n > 0 {
      IssuedShape(w, start, n - 1);
    }
  }

  /**
   * The pagination contract: the first request targets the start URL, every
   * later request targets the next link of the previous response (which was a
   * success), and the pulls produce one step per issued request, in order,
   * followed only by stops.
   */
  lemma PaginationFollowsNextLinks(w: Walk, url: string, n: nat)
    ensures var rs := Issued(w, Some(url), n);
      && (n > 0 ==> |rs| > 0 && rs[0].url == url)
      && (forall j :: 0 <= j < |rs| ==> rs[j].verb == w.verb && rs[j].params == w.query)
      && (forall j :: 0 <= j < |rs| - 1 ==>
            w.requester(rs[j]).ok && w.requester(rs[j]).next == Some(rs[j + 1].url))
      && (forall j :: 0 <= j < |rs| ==> Trace(w, Some(url), n)[j] == StepFor(w.requester(rs[j])))
      && (forall j :: |rs| <= j < n ==> Trace(w, Some(url), n)[j] == Stop)
  {
    var rs := Issued(w, Some(url), n);
    IssuedShape(w, Some(url), n);
    forall j | 0 <= j < |rs| - 1
      ensures w.requester(rs[j]).ok && w.requester(rs[j]).next == Some(rs[j + 1].url)
    {
      assert PendingAfter(w, Some(url), j + 1) == Advance(w, PendingAfter(w, Some(url), j)).1;
    }
    forall j | 0 <= j < n
      ensures j < |rs| ==> Trace(w, Some(url), n)[j] == StepFor(w.requester(rs[j]))
      ensures |rs| <= j ==> Trace(w, Some(url), n)[j] == Stop
    {
      TraceAt(w, Some(url), n, j);
    }
  }

  /** A failure on the k-th request (counting from 1) surfaces after exactly k-1 yields, and nothing more is requested. */
  lemma FailureAfterYields(w: Walk, url: string, n: nat, k: nat)
    requires 1 <= k <= n && Trace(w, Some(url), n)[k - 1].Raise?
    ensures forall j :: 0 <= j < k - 1 ==> Trace(w, Some(url), n)[j].Yield?
    ensures |Issued(w, Some(url), n)| == k
  {
    forall j | 0 <= j < k - 1
      ensures Trace(w, Some(url), n)[j].Yield?
    {
      if !Trace(w, Some(url), n)[j].Yield? {
        TraceSettles(w, Some(url), n, j, k - 1);
      }
    }
    PaginationFollowsNextLinks(w, url, n);
    var rs := Issued(w, Some(url), n);
    IssuedShape(w, Some(url), n);
    TraceAt(w, Some(url), n, k - 1);
    assert k - 1 < |rs|;
  }

  /** A successful response without a next link ends the requests: no further request is issued. */
  lemma NoNextLinkEnds(w: Walk, url: string, n: nat, j: nat)
    requires j < |Issued(w, Some(url), n)|
    requires w.requester(Issued(w, Some(url), n)[j]).next.None?
    ensures |Issued(w, Some(url), n)| == j + 1
    ensures forall i :: j < i < n ==> Trace(w, Some(url), n)[i] == Stop
  {
    PaginationFollowsNextLinks(w, url, n);
  }

  /** The pages a drained generator produced, and the failure it ended with, if any. */
  datatype Paged = Paged(pages: seq<(Body, int)>, end: Option<Failure>)

  /** The pages of a pull sequence: its yields up to the first stop or failure. */
  function Collect(steps: seq<Step>): (p: Paged)
    ensures |p.pages| <= |steps|
    ensures forall i :: 0 <= i < |p.pages| ==> steps[i] == Yield(p.pages[i].0, p.pages[i].1)
    ensures |p.pages| < |steps| ==> !steps[|p.pages|].Yield?
    ensures p.end.Some? <==> |p.pages| < |steps| && steps[|p.pages|].Raise?
    ensures p.end.Some? ==> p.end.value == steps[|p.pages|].failure
  {
    if steps == [] then Paged([], None)
    else match steps[0]
      case Stop => Paged([], None)
      case Raise(f) => Paged([], Some(f))
      case Yield(body, status) =>
        var rest := Collect(steps[1..]);
        Paged([(body, status)] + rest.pages, rest.end)
  }

  /** Draining stops at the first stop: pulls that only stop after position `m` yield at most `m` pages. */
  lemma {:induction false} CollectBeforeStops(steps: seq<Step>, m: nat)
    requires m <= |steps| && forall j :: m <= j < |steps| ==> steps[j] == Stop
    ensures |Collect(steps).pages| <= m
    decreases m
  {
    if m > 0 && steps[0].Yield? {
      CollectBeforeStops(steps[1..], m - 1);
    }
  }

  /**
   * Draining the generator: its pages are the bodies and statuses of the
   * successful responses, in request order, and it ends in the failure of the
   * last request issued, if that one failed; otherwise every request gave a page.
   */
  lemma CollectedPages(w: Walk, url: string, n: nat)
    ensures var p := Collect(Trace(w, Some(url), n));
      var rs := Issued(w, Some(url), n);
      && (forall i :: 0 <= i < |p.pages| ==>
            i < |rs| && w.requester(rs[i]).ok && p.pages[i] == (w.requester(rs[i]).body, w.requester(rs[i]).status))
      && (p.end.None? ==> |p.pages| == |rs|)
      && (p.end.Some? ==> |p.pages| == |rs| - 1 && !w.requester(rs[|p.pages|]).ok &&
                          p.end.value == Classify(w.requester(rs[|p.pages|])).failure)
  {
    PaginationFollowsNextLinks(w, url, n);
    var t := Trace(w, Some(url), n);
    var p := Collect(t);
    var rs := Issued(w, Some(url), n);
    assert forall j :: 0 <= j < |rs| ==> t[j] == StepFor(w.requester(rs[j]));
    assert forall j :: |rs| <= j < n ==> t[j] == Stop;
    forall i | 0 <= i < |p.pages|
      ensures i < |rs| && w.requester(rs[i]).ok && p.pages[i] == (w.requester(rs[i]).body, w.requester(rs[i]).status)
    {
      assert t[i] == Yield(p.pages[i].0, p.pages[i].1);
    }
    CollectBeforeStops(t, |rs|);
    if |p.pages| < |rs| {
      var k := |p.pages|;
      assert k < |t|;
      assert t[k] == StepFor(w.requester(rs[k]));
    }
  }

  // ---------------------------------------------------------------------
  // Endpoint parameters
  // ---------------------------------------------------------------------

  const UserRepositoryTypes: seq<string> := ["all", "owner", "member"]
  const RepositorySorts: seq<string> := ["created", "updated", "pushed", "full_name"]
  const Directions: seq<string> := ["asc", "desc"]
  const OrganizationRepositoryTypes: seq<string> := ["all", "public", "private", "forks", "sources", "member"]
  const AnonValues: seq<Scalar> := [Int(1), Str("true")]

  /** `value not in values and value is not None` is false: the option is absent or one of `values`. */
  predicate Allowed(value: Option<string>, values: seq<string>)
  {
    value.None? || value.value in values
  }

  /** An optional string argument is truthy: given and non-empty. */
  predicate Given(value: Option<string>)
  {
    value.Some? && value.value != ""
  }

  /** `if value: params[name] = value`. */
  function Include(params: map<string, Scalar>, name: string, value: Option<string>): map<string, Scalar>
  {
    if Given(value) then params[name := Str(value.value)] else params
  }

  /** Validation and parameters of `get_users_public_repositories`: type, then sort, then direction. */
  function UserRepositoriesParams(kind: Option<string>, sort: Option<string>, direction: Option<string>)
    : (r: Outcome<map<string, Scalar>>)
    ensures r.Ok? <==> Allowed(kind, UserRepositoryTypes) && Allowed(sort, RepositorySorts)
                       && Allowed(direction, Directions)
    ensures !Allowed(kind, UserRepositoryTypes) ==> r == Fail(InvalidArgument("type"))
    ensures Allowed(kind, UserRepositoryTypes) && !Allowed(sort, RepositorySorts)
            ==> r == Fail(InvalidArgument("sort"))
    ensures Allowed(kind, UserRepositoryTypes) && Allowed(sort, RepositorySorts) && !Allowed(direction, Directions)
            ==> r == Fail(InvalidArgument("direction"))
    ensures r.Ok? ==> r.value.Keys == (if kind.Some? then {"type"} else {})
                                    + (if sort.Some? then {"sort"} else {})
                                    + (if direction.Some? then {"direction"} else {})
    ensures r.Ok? && kind.Some? ==> r.value["type"] == Str(kind.value)
    ensures r.Ok? && sort.Some? ==> r.value["sort"] == Str(sort.value)
    ensures r.Ok? && direction.Some? ==> r.value["direction"] == Str(direction.value)
  {
    if !Allowed(kind, UserRepositoryTypes) then Fail(InvalidArgument("type"))
    else if !Allowed(sort, RepositorySorts) then Fail(InvalidArgument("sort"))
    else if !Allowed(direction, Directions) then Fail(InvalidArgument("direction"))
    else Ok(Include(Include(Include(map[], "type", kind), "sort", sort), "direction", direction))
  }

  /** Validation and parameters of `get_organizations_public_repositories`. */
  function OrganizationRepositoriesParams(kind: Option<string>): (r: Outcome<map<string, Scalar>>)
    ensures r.Ok? <==> Allowed(kind, OrganizationRepositoryTypes)
    ensures r.Fail? ==> r.failure == InvalidArgument("type")
    ensures r.Ok? ==> r.value.Keys == (if kind.Some? then {"type"} else {})
    ensures r.Ok? && kind.Some? ==> r.value["type"] == Str(kind.value)
  {
    if !Allowed(kind, OrganizationRepositoryTypes) then Fail(InvalidArgument("type"))
    else Ok(Include(map[], "type", kind))
  }

  /** `anon in [1, "true"]`. */
  predicate AnonListed(anon: Scalar)
  {
    exists i :: 0 <= i < |AnonValues| && ScalarEquals(anon, AnonValues[i])
  }

  /** The anon values `[1, "true"]` accepts: 1, `True` (equal to 1) and "true". */
  lemma AnonListedValues(anon: Scalar)
    ensures AnonListed(anon) <==> anon in {Int(1), Bool(true), Str("true")}
  {
    if anon in {Int(1), Bool(true), Str("true")} {
      assert ScalarEquals(anon, AnonValues[if anon.Str? then 1 else 0]);
    }
  }

  /** The parameters `if anon: params["anon"] = anon` builds for an accepted value. */
  function AnonParams(anon: Option<Scalar>): map<string, Scalar>
  {
    if anon.Some? && Truthy(anon.value) then map["anon" := anon.value] else map[]
  }

  /**
   * Validation of `get_repository_contributors` as written: the guard tests the
   * builtin `type` against None, which always holds, so an absent `anon` is rejected.
   */
  function ContributorsParamsAsWritten(anon: Option<Scalar>): (r: Outcome<map<string, Scalar>>)
    ensures r.Ok? <==> anon.Some? && AnonListed(anon.value)
    ensures r.Fail? ==> r.failure == InvalidArgument("anon")
  {
    if !(anon.Some? && AnonListed(anon.value)) then Fail(InvalidArgument("anon"))
    else Ok(AnonParams(anon))
  }

  /** The call every caller makes, without `anon`, fails as written. */
  lemma ContributorsDefaultRejectedAsWritten()
    ensures ContributorsParamsAsWritten(None) == Fail(InvalidArgument("anon"))
  {
  }

  /** Validation of `get_repository_contributors` as intended: `anon` absent, 1 or "true". */
  function ContributorsParams(anon: Option<Scalar>): (r: Outcome<map<string, Scalar>>)
    ensures r.Ok? <==> anon.None? || AnonListed(anon.value)
    ensures r.Fail? ==> r.failure == InvalidArgument("anon")
    ensures r.Ok? ==> r.value.Keys == (if anon.Some? then {"anon"} else {})
    ensures r.Ok? && anon.Some? ==> r.value["anon"] == anon.value
  {
    if anon.Some? && !AnonListed(anon.value) then Fail(InvalidArgument("anon"))
    else Ok(AnonParams(anon))
  }

  /** The intended validation differs from the written one only for an absent `anon`, which it accepts with no parameters. */
  lemma ContributorsParamsCorrected(anon: Option<Scalar>)
    ensures anon.Some? ==> ContributorsParams(anon) == ContributorsParamsAsWritten(anon)
    ensures ContributorsParams(None) == Ok(map[])
  {
  }

  /** Parameters of `get_repository_commits`: each truthy filter, under its own name. */
  function CommitsParams(sha: Option<string>, path: Option<string>, author: Option<string>,
                         since: Option<string>, until: Option<string>): (r: map<string, Scalar>)
    ensures r.Keys == (if Given(sha) then {"sha"} else {}) + (if Given(path) then {"path"} else {})
                      + (if Given(author) then {"author"} else {}) + (if Given(since) then {"since"} else {})
                      + (if Given(until) then {"until"} else {})
    ensures Given(sha) ==> r["sha"] == Str(sha.value)
    ensures Given(path) ==> r["path"] == Str(path.value)
    ensures Given(author) ==> r["author"] == Str(author.value)
    ensures Given(since) ==> r["since"] == Str(since.value)
    ensures Given(until) ==> r["until"] == Str(until.value)
  {
    Include(Include(Include(Include(Include(map[], "sha", sha), "path", path), "author", author),
                    "since", since), "until", until)
  }

  // ---------------------------------------------------------------------
  // The client
  // ---------------------------------------------------------------------

  /** A parameter dictionary, shared by reference between a caller and `call`. */
  class Params {
    var entries: map<string, Scalar>

    constructor (entries: map<string, Scalar>)
      ensures this.entries == entries
    {
      this.entries := entries;
    }
  }

  class Api {
    const oauth2Token: Option<string>
    const requester: Request -> Response
    /** Every request handed to the requester, oldest first. */
    ghost var sent: seq<Request>

    constructor (oauth2Token: Option<string>, requester: Request -> Response)
      ensures this.oauth2Token == oauth2Token && this.requester == requester
      ensures sent == []
    {
      this.oauth2Token := oauth2Token;
      this.requester := requester;
      sent := [];
    }

    /** `call`: inject the token into the caller's dictionary, send, and raise on a failed response. */
    method Call(verb: string, url: string, params: Params) returns (r: Outcome<Response>)
      modifies this, params
      ensures params.entries == Authorized(old(params.entries), oauth2Token)
      ensures sent == old(sent) + [Request(verb, url, params.entries)]
      ensures r == Classify(requester(Request(verb, url, params.entries)))
    {
      if HasToken(oauth2Token) {
        params.entries := params.entries[AccessTokenKey := Str(oauth2Token.value)];
      }
      var request := Request(verb, url, params.entries);
      sent := sent + [request];
      var response := requester(request);
      if !response.ok {
        return Fail(ApiCall(ApiCallError(response.status, response.body)));
      }
      return Ok(response);
    }

    /** `json_call`: one call to the endpoint under the base URL, returning the body and status. */
    method JsonCall(verb: string, endpoint: string, params: Params) returns (r: Outcome<(Body, int)>)
      modifies this, params
      ensures params.entries == Authorized(old(params.entries), oauth2Token)
      ensures sent == old(sent) + [Request(verb, BaseUrl + endpoint, params.entries)]
      ensures r == JsonResult(requester(Request(verb, BaseUrl + endpoint, params.entries)))
    {
      var response := Call(verb, BaseUrl + endpoint, params);
      match response
      case Ok(resp) => r := Ok((resp.body, resp.status));
      case Fail(f) => r := Fail(f);
    }

    /** `paginated_json_call`: a generator positioned at the endpoint; it issues no request until pulled. */
    method PaginatedJsonCall(verb: string, endpoint: string, params: Params) returns (p: Pager)
      ensures fresh(p) && p.Valid()
      ensures p.api == this && p.verb == verb && p.params == params
      ensures p.pending == Some(BaseUrl + endpoint) && p.steps == []
      ensures p.query == Authorized(params.entries, oauth2Token)
      ensures sent == old(sent)
    {
      p := new Pager(this, verb, BaseUrl + endpoint, params);
    }

    /** The result of a GET endpoint: one request to `endpoint` with `params` and the token. */
    ghost predicate JsonEndpoint(endpoint: string, params: map<string, Scalar>, r: Outcome<(Body, int)>)
      reads this
    {
      var request := Request(Get, BaseUrl + endpoint, Authorized(params, oauth2Token));
      |sent| > 0 && sent[|sent| - 1] == request && r == JsonResult(requester(request))
    }

    /** A fresh paginated GET of `endpoint` with `params` and the token, not yet pulled. */
    ghost predicate PagedEndpoint(endpoint: string, params: map<string, Scalar>, p: Pager)
      reads this, p, p.params
    {
      && p.Valid() && p.api == this && p.verb == Get
      && p.pending == Some(BaseUrl + endpoint) && p.steps == []
      && p.query == Authorized(params, oauth2Token)
    }

    method GetUser(username: string) returns (r: Outcome<(Body, int)>)
      modifies this
      ensures |sent| == |old(sent)| + 1 && sent[..|old(sent)|] == old(sent)
      ensures JsonEndpoint("/users/" + username, map[], r)
    {
      var params := new Params(map[]);
      r := JsonCall(Get, "/users/" + username, params);
    }

    /** Guarded: without a token, fails before any request. */
    method GetUsersOrganizations() returns (r: Outcome<(Body, int)>)
      modifies this
      ensures oauth2Token.None? ==> r == Fail(AuthenticationRequired) && sent == old(sent)
      ensures oauth2Token.Some? ==> |sent| == |old(sent)| + 1 && sent[..|old(sent)|] == old(sent)
      ensures oauth2Token.Some? ==> JsonEndpoint("/user/orgs", map[], r)
    {
      if oauth2Token.None? {
        return Fail(AuthenticationRequired);
      }
      var params := new Params(map[]);
      r := JsonCall(Get, "/user/orgs", params);
    }

    method GetUsersPublicOrganizations(username: string) returns (p: Pager)
      ensures fresh(p) && fresh(p.params) && sent == old(sent)
      ensures PagedEndpoint("/users/" + username + "/orgs", map[], p)
    {
      var params := new Params(map[]);
      p := PaginatedJsonCall(Get, "/users/" + username + "/orgs", params);
    }

    /** Validates type, sort and direction before anything is requested. */
    method GetUsersPublicRepositories(username: string, kind: Option<string>, sort: Option<string>,
                                      direction: Option<string>) returns (r: Outcome<Pager>)
      ensures sent == old(sent)
      ensures r.Fail? <==> UserRepositoriesParams(kind, sort, direction).Fail?
      ensures r.Fail? ==> r.failure == UserRepositoriesParams(kind, sort, direction).failure
      ensures r.Ok? ==> fresh(r.value) && fresh(r.value.params)
      ensures r.Ok? ==> PagedEndpoint("/users/" + username + "/repos",
                                      UserRepositoriesParams(kind, sort, direction).value, r.value)
    {
      var checked := UserRepositoriesParams(kind, sort, direction);
      if checked.Fail? {
        return Fail(checked.failure);
      }
      var params := new Params(checked.value);
      var p := PaginatedJsonCall(Get, "/users/" + username + "/repos", params);
      r := Ok(p);
    }

    method GetPublicOrganization(organization: string) returns (r: Outcome<(Body, int)>)
      modifies this
      ensures |sent| == |old(sent)| + 1 && sent[..|old(sent)|] == old(sent)
      ensures JsonEndpoint("/orgs/" + organization, map[], r)
    {
      var params := new Params(map[]);
      r := JsonCall(Get, "/orgs/" + organization, params);
    }

    /** Guarded: without a token, fails before any request; otherwise the public organization call. */
    method GetOrganization(organization: string) returns (r: Outcome<(Body, int)>)
      modifies this
      ensures oauth2Token.None? ==> r == Fail(AuthenticationRequired) && sent == old(sent)
      ensures oauth2Token.Some? ==> |sent| == |old(sent)| + 1 && sent[..|old(sent)|] == old(sent)
      ensures oauth2Token.Some? ==> JsonEndpoint("/orgs/" + organization, map[], r)
    {
      if oauth2Token.None? {
        return Fail(AuthenticationRequired);
      }
      r := GetPublicOrganization(organization);
    }

    /** Validates type before anything is requested. */
    method GetOrganizationsPublicRepositories(organization: string, kind: Option<string>)
      returns (r: Outcome<Pager>)
      ensures sent == old(sent)
      ensures r.Fail? <==> OrganizationRepositoriesParams(kind).Fail?
      ensures r.Fail? ==> r.failure == InvalidArgument("type")
      ensures r.Ok? ==> fresh(r.value) && fresh(r.value.params)
      ensures r.Ok? ==> PagedEndpoint("/orgs/" + organization + "/repos",
                                      OrganizationRepositoriesParams(kind).value, r.value)
    {
      var checked := OrganizationRepositoriesParams(kind);
      if checked.Fail? {
        return Fail(checked.failure);
      }
      var params := new Params(checked.value);
      var p := PaginatedJsonCall(Get, "/orgs/" + organization + "/repos", params);
      r := Ok(p);
    }

    method GetOrganizationsPublicMembers(organization: string) returns (p: Pager)
      ensures fresh(p) && fresh(p.params) && sent == old(sent)
      ensures PagedEndpoint("/orgs/" + organization + "/public_members", map[], p)
    {
      var params := new Params(map[]);
      p := PaginatedJsonCall(Get, "/orgs/" + organization + "/public_members", params);
    }

    method GetPublicRepository(owner: string, repository: string) returns (r: Outcome<(Body, int)>)
      modifies this
      ensures |sent| == |old(sent)| + 1 && sent[..|old(sent)|] == old(sent)
      ensures JsonEndpoint("/repos/" + owner + "/" + repository, map[], r)
    {
      var params := new Params(map[]);
      r := JsonCall(Get, "/repos/" + owner + "/" + repository, params);
    }

    /** Validates anon (as intended: absent, 1 or "true") before anything is requested. */
    method GetRepositoryContributors(owner: string, repository: string, anon: Option<Scalar>)
      returns (r: Outcome<Pager>)
      ensures sent == old(sent)
      ensures r.Fail? <==> ContributorsParams(anon).Fail?
      ensures r.Fail? ==> r.failure == InvalidArgument("anon")
      ensures r.Ok? ==> fresh(r.value) && fresh(r.value.params)
      ensures r.Ok? ==> PagedEndpoint("/repos/" + owner + "/" + repository + "/contributors",
                                      ContributorsParams(anon).value, r.value)
    {
      var checked := ContributorsParams(anon);
      if checked.Fail? {
        return Fail(checked.failure);
      }
      var params := new Params(checked.value);
      var p := PaginatedJsonCall(Get, "/repos/" + owner + "/" + repository + "/contributors", params);
      r := Ok(p);
    }

    /**
     * The endpoint as the code is written: the builtin `type` is never `None`,
     * so `anon` must be given and one of 1 or "true"; the default raises before
     * anything is requested.
     */
    method GetRepositoryContributorsAsWritten(owner: string, repository: string, anon: Option<Scalar>)
      returns (r: Outcome<Pager>)
      ensures sent == old(sent)
      ensures r.Fail? <==> ContributorsParamsAsWritten(anon).Fail?
      ensures r.Fail? ==> r.failure == InvalidArgument("anon")
      ensures anon.None? ==> r == Fail(InvalidArgument("anon"))
      ensures r.Ok? ==> fresh(r.value) && fresh(r.value.params)
      ensures r.Ok? ==> PagedEndpoint("/repos/" + owner + "/" + repository + "/contributors",
                                      ContributorsParamsAsWritten(anon).value, r.value)
    {
      var checked := ContributorsParamsAsWritten(anon);
      if checked.Fail? {
        return Fail(checked.failure);
      }
      var params := new Params(checked.value);
      var p := PaginatedJsonCall(Get, "/repos/" + owner + "/" + repository + "/contributors", params);
      r := Ok(p);
    }

    method GetRepositoryCommits(owner: string, repository: string, sha: Option<string>,
                                path: Option<string>, author: Option<string>, since: Option<string>,
                                until: Option<string>) returns (p: Pager)
      ensures fresh(p) && fresh(p.params) && sent == old(sent)
      ensures PagedEndpoint("/repos/" + owner + "/" + repository + "/commits",
                            CommitsParams(sha, path, author, since, until), p)
    {
      var params := new Params(CommitsParams(sha, path, author, since, until));
      p := PaginatedJsonCall(Get, "/repos/" + owner + "/" + repository + "/commits", params);
    }
  }

  /**
   * The generator `paginated_json_call` returns, as a state machine driven by
   * `Next`. `pending` is the URL the next pull requests (none once the last
   * page had no next link, or after a failure); `steps` records every pull.
   */
  class Pager {
    const api: Api
    const verb: string
    const params: Params
    ghost const start: string
    ghost const query: map<string, Scalar>
    var pending: Option<string>
    ghost var steps: seq<Step>

    ghost function Walked(): Walk
    {
      Walk(api.requester, verb, query)
    }

    ghost predicate Valid()
      reads this, params
    {
      && Authorized(params.entries, api.oauth2Token) == query
      && steps == Trace(Walked(), Some(start), |steps|)
      && pending == PendingAfter(Walked(), Some(start), |steps|)
    }

    constructor (api: Api, verb: string, url: string, params: Params)
      ensures Valid()
      ensures this.api == api && this.verb == verb && this.params == params
      ensures start == url && pending == Some(url) && steps == []
      ensures query == Authorized(params.entries, api.oauth2Token)
    {
      this.api := api;
      this.verb := verb;
      this.params := params;
      start := url;
      query := Authorized(params.entries, api.oauth2Token);
      pending := Some(url);
      steps := [];
    }

    /** One pull of the generator. */
    method Next() returns (s: Step)
      requires Valid()
      modifies this, api, params
      ensures Valid()
      ensures steps == old(steps) + [s]
      ensures (s, pending) == Advance(Walked(), old(pending))
      ensures old(pending).None? ==> api.sent == old(api.sent)
      ensures old(pending).Some? ==> api.sent == old(api.sent) + [Request(verb, old(pending).value, query)]
    {
      match pending {
        case None =>
          s := Stop;
        case Some(url) =>
          AuthorizedIdempotent(params.entries, api.oauth2Token);
          var r := api.Call(verb, url, params);
          assert params.entries == query;
          match r {
            case Fail(f) =>
              s := Raise(f);
              pending := None;
            case Ok(resp) =>
              s := Yield(resp.body, resp.status);
              pending := resp.next;
          }
      }
      steps := steps + [s];
    }
  }
}
