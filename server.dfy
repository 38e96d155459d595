/**
 * The request guards of the HTTP API and the route table that chains them:
 * an API-version check, a hosting-service check and a required-parameters
 * check, each of which either passes the request on or answers with a
 * fixed status and error code.
 */
module Server {
  import opened Wrappers

  /** What the guards read of a request: route parameters, query string and body. */
  datatype Request = Request(
    version: string,          // req.params.version
    service: Option<string>,  // req.params.service, absent on routes without it
    query: map<string, string>,
    body: map<string, string>)

  /** The JSON error answer a guard sends. */
  datatype Response = Response(status: nat, success: bool, errorCode: string, data: Option<seq<string>>)

  const InvalidVersion := Response(400, false, "INVALID_VERSION", None)
  const InvalidService := Response(400, false, "INVALID_SERVICE", None)

  function MissingParamsError(missing: seq<string>): Response {
    Response(500, false, "MISSING_PARAMS", Some(missing))
  }

  /** What one middleware does: call `next`, answer with an error, or (the rate limiter) refuse. */
  datatype Verdict = Next | Reject(response: Response) | Throttle

  /** `xs.some(p)`. */
  function Any<T>(xs: seq<T>, p: T -> bool): (found: bool)
    ensures found <==> exists i :: 0 <= i < |xs| && p(xs[i])
  {
    if xs == [] then false
    else if p(xs[0]) then true
    else
      var rest := Any(xs[1..], p);
      assert forall i :: 1 <= i < |xs| ==> xs[i] == xs[1..][i - 1];
      rest
  }

  // ---------------------------------------------------------------------
  // Decimal rendering of a version number (`version.toString()`)
  // ---------------------------------------------------------------------

  function DigitChar(d: nat): (c: char)
    requires d < 10
    ensures '0' <= c <= '9'
    ensures (c == '0') == (d == 0)
  {
    "0123456789"[d]
  }

  /** The decimal numeral of `n`, without leading zeros. */
  function NatToString(n: nat): (s: string)
    ensures |s| > 0
    ensures |s| == 1 <==> n < 10
    decreases n
  {
    if n < 10 then [DigitChar(n)] else NatToString(n / 10) + [DigitChar(n % 10)]
  }

  /** A numeral starts with '0' only when it is "0" itself. */
  lemma {:induction false} NatToStringNoLeadingZero(n: nat)
    ensures NatToString(n)[0] == '0' <==> n == 0
    ensures NatToString(n)[0] == '0' ==> NatToString(n) == "0"
    decreases n
  {
    if n >= 10 {
      NatToStringNoLeadingZero(n / 10);
      assert NatToString(n)[0] == NatToString(n / 10)[0];
    }
  }

  lemma DigitCharInjective(a: nat, b: nat)
    requires a < 10 && b < 10
    ensures DigitChar(a) == DigitChar(b) <==> a == b
  {
  }

  /** Different numbers have different numerals. */
  lemma {:induction false} NatToStringInjective(a: nat, b: nat)
    ensures NatToString(a) == NatToString(b) <==> a == b
    decreases a
  {
    if NatToString(a) == NatToString(b) {
      // a single digit and a longer numeral never coincide
      if a < 10 && b < 10 {
        DigitCharInjective(a, b);
      } else if a >= 10 && b >= 10 {
        var sa, sb := NatToString(a), NatToString(b);
        assert sa[..|sa| - 1] == NatToString(a / 10);
        assert sb[..|sb| - 1] == NatToString(b / 10);
        NatToStringInjective(a / 10, b / 10);
        DigitCharInjective(a % 10, b % 10);
      }
    }
  }

  // ---------------------------------------------------------------------
  // The guards
  // ---------------------------------------------------------------------

  /** `requireApiVersion(versions)`: pass exactly when some version's numeral is the route's `version`. */
  function RequireApiVersion(versions: seq<nat>, req: Request): (v: Verdict)
    ensures v == Next <==> exists i :: 0 <= i < |versions| && NatToString(versions[i]) == req.version
    ensures v != Next ==> v == Reject(InvalidVersion)
  {
    if Any(versions, (version: nat) => NatToString(version) == req.version) then Next else Reject(InvalidVersion)
  }

  /** A route parameter rendered from a version number is admitted exactly when that number is listed. */
  lemma {:induction false} ApiVersionAdmitsListed(versions: seq<nat>, req: Request, n: nat)
    requires req.version == NatToString(n)
    ensures RequireApiVersion(versions, req) == Next <==> n in versions
  {
    if RequireApiVersion(versions, req) == Next {
      var i :| 0 <= i < |versions| && NatToString(versions[i]) == req.version;
      NatToStringInjective(versions[i], n);
    }
    if n in versions {
      var i :| 0 <= i < |versions| && versions[i] == n;
      assert NatToString(versions[i]) == req.version;
    }
  }

  /** The match is on the exact string: a version with a leading zero, such as "02", is refused. */
  lemma {:induction false} LeadingZeroRejected(versions: seq<nat>, req: Request)
    requires |req.version| > 1 && req.version[0] == '0'
    ensures RequireApiVersion(versions, req) == Reject(InvalidVersion)
  {
    if RequireApiVersion(versions, req) == Next {
      var i :| 0 <= i < |versions| && NatToString(versions[i]) == req.version;
      NatToStringNoLeadingZero(versions[i]);
    }
  }

  /** `requireService(services)`: pass exactly when the route's `service` is listed. */
  function RequireService(services: seq<string>, req: Request): (v: Verdict)
    ensures v == Next <==> req.service.Some? && req.service.value in services
    ensures v != Next ==> v == Reject(InvalidService)
  {
    if Any(services, (service: string) => Some(service) == req.service) then Next else Reject(InvalidService)
  }

  /** A parameter is there when the query string or the body has it. */
  predicate Present(param: string, req: Request) {
    param in req.query || param in req.body
  }

  /** The parameters of `params` present in neither source, in their order, repeats kept. */
  function Missing(params: seq<string>, req: Request): (missing: seq<string>)
    ensures |missing| <= |params|
  {
    if params == [] then []
    else
      var last := params[|params| - 1];
      Missing(params[..|params| - 1], req) + (if Present(last, req) then [] else [last])
  }

  /** `requireParams(params)`: collect the missing parameters; pass only when there are none. */
  method RequireParams(params: seq<string>, req: Request) returns (v: Verdict)
    ensures v == if Missing(params, req) == [] then Next else Reject(MissingParamsError(Missing(params, req)))
    ensures v == Next <==> forall i :: 0 <= i < |params| ==> Present(params[i], req)
  {
    var missingParams: seq<string> := [];
    for i := 0 to |params|
      invariant missingParams == Missing(params[..i], req)
    {
      var param := params[i];
      assert params[..i + 1][..i] == params[..i];
      if param !in req.query && param !in req.body {
        missingParams := missingParams + [param];
      }
    }
    assert params[..|params|] == params;
    MissingEmpty(params, req);
    if |missingParams| > 0 {
      v := Reject(MissingParamsError(missingParams));
    } else {
      v := Next;
    }
  }

  /** No parameter is missing exactly when every one is present. */
  lemma {:induction false} MissingEmpty(params: seq<string>, req: Request)
    ensures Missing(params, req) == [] <==> forall i :: 0 <= i < |params| ==> Present(params[i], req)
  {
    if params != [] {
      var init := params[..|params| - 1];
      MissingEmpty(init, req);
      assert forall i :: 0 <= i < |init| ==> init[i] == params[i];
    }
  }

  /** A parameter is reported missing exactly when it is asked for and present nowhere. */
  lemma {:induction false} MissingMembers(params: seq<string>, req: Request, x: string)
    ensures x in Missing(params, req) <==> x in params && !Present(x, req)
  {
    if params != [] {
      var init := params[..|params| - 1];
      MissingMembers(init, req, x);
      assert params == init + [params[|params| - 1]];
    }
  }

  /** Each absent parameter is reported as often as it is asked for; present ones never. */
  lemma {:induction false} MissingCounts(params: seq<string>, req: Request, x: string)
    ensures multiset(Missing(params, req))[x] == if Present(x, req) then 0 else multiset(params)[x]
  {
    if params != [] {
      var init := params[..|params| - 1];
      MissingCounts(init, req, x);
      assert params == init + [params[|params| - 1]];
    }
  }

  /** `a` is `b` with some elements left out, the rest in their order. */
  predicate IsSubsequence<T(==)>(a: seq<T>, b: seq<T>)
    decreases |b|
  {
    if a == [] then true
    else if b == [] then false
    else (a[|a| - 1] == b[|b| - 1] && IsSubsequence(a[..|a| - 1], b[..|b| - 1]))
         || IsSubsequence(a, b[..|b| - 1])
  }

  /** The missing parameters keep the order in which they were asked for. */
  lemma {:induction false} MissingIsSubsequence(params: seq<string>, req: Request)
    ensures IsSubsequence(Missing(params, req), params)
  {
    if params != [] {
      var init := params[..|params| - 1];
      var last := params[|params| - 1];
      MissingIsSubsequence(init, req);
      if Present(last, req) {
        assert Missing(params, req) == Missing(init, req);
        if Missing(init, req) != [] {
          assert IsSubsequence(Missing(params, req), init);
        }
      } else {
        var m := Missing(params, req);
        assert m == Missing(init, req) + [last];
        assert m[..|m| - 1] == Missing(init, req);
      }
    }
  }

  // ---------------------------------------------------------------------
  // The route table
  // ---------------------------------------------------------------------

  /** One middleware of a route, in the order the route lists it. */
  datatype Guard =
    | RateLimit                           // bruteforce.prevent
    | ApiVersion(versions: seq<nat>)      // requireApiVersion(versions)
    | Service(services: seq<string>)      // requireService(services)
    | Params(params: seq<string>)         // requireParams(params)

  datatype Controller = Connect | Process | Encrypt | Auth | Home

  datatype HttpMethod = Get | Post

  datatype Route = Route(verb: HttpMethod, path: string, guards: seq<Guard>, controller: Controller)

  /** How a request along a route ends: at its controller, refused by the rate limiter, or answered by a guard. */
  datatype Outcome = Reached(controller: Controller) | Throttled | Rejected(response: Response)

  const Services: seq<string> := ["github", "gitlab"]

  const ConnectRoute := Route(Get, "/v:version/connect/:username/:repository",
    [RateLimit, ApiVersion([1, 2])], Connect)
  const EntryRoute := Route(Post, "/v:version/entry/:username/:repository/:branch",
    [RateLimit, ApiVersion([1, 2]), Params(["fields"])], Process)
  const EntryPropertyRoute := Route(Post, "/v:version/entry/:username/:repository/:branch/:property",
    [RateLimit, ApiVersion([2]), Params(["fields"])], Process)
  const EntryServiceRoute := Route(Post, "/v:version/entry/:service/:username/:repository/:branch/:property",
    [RateLimit, ApiVersion([3]), Service(Services), Params(["fields"])], Process)
  const EncryptRoute := Route(Get, "/v:version/encrypt/:text",
    [RateLimit, ApiVersion([2, 3])], Encrypt)
  const AuthRoute := Route(Get, "/v:version/auth/:service/:username/:repository/:branch/:property",
    [RateLimit, ApiVersion([2, 3]), Service(Services)], Auth)
  const HomeRoute := Route(Get, "/", [], Home)

  /** The routes in the order they are registered. */
  const Routes: seq<Route> :=
    [ConnectRoute, EntryRoute, EntryPropertyRoute, EntryServiceRoute, EncryptRoute, AuthRoute, HomeRoute]

  /** What one guard does with a request; `admitted` is the rate limiter's decision. */
  function Check(guard: Guard, req: Request, admitted: bool): Verdict {
    match guard
    case RateLimit => if admitted then Next else Throttle
    case ApiVersion(versions) => RequireApiVersion(versions, req)
    case Service(services) => RequireService(services, req)
    case Params(params) =>
      var missing := Missing(params, req);
      if missing == [] then Next else Reject(MissingParamsError(missing))
  }

  /** Runs the guards in order; the first one that does not call `next` ends the chain. */
  function RunGuards(guards: seq<Guard>, req: Request, admitted: bool, controller: Controller): Outcome {
    if guards == [] then Reached(controller)
    else match Check(guards[0], req, admitted)
      case Next => RunGuards(guards[1..], req, admitted, controller)
      case Reject(response) => Rejected(response)
      case Throttle => Throttled
  }

  function Serve(route: Route, req: Request, admitted: bool): Outcome {
    RunGuards(route.guards, req, admitted, route.controller)
  }

  /** The controller is reached exactly when every guard passes. */
  lemma {:induction false} ReachedIffAllPass(guards: seq<Guard>, req: Request, admitted: bool, controller: Controller)
    ensures RunGuards(guards, req, admitted, controller) == Reached(controller)
        <==> forall k :: 0 <= k < |guards| ==> Check(guards[k], req, admitted) == Next
  {
    if guards != [] {
      ReachedIffAllPass(guards[1..], req, admitted, controller);
      assert forall k :: 1 <= k < |guards| ==> guards[k] == guards[1..][k - 1];
    }
  }

  /** When guard `k` is the first not to pass, its answer is the outcome and no later guard runs. */
  lemma {:induction false} FirstFailureDecides(guards: seq<Guard>, req: Request, admitted: bool,
                                               controller: Controller, k: nat)
    requires k < |guards|
    requires forall j :: 0 <= j < k ==> Check(guards[j], req, admitted) == Next
    requires Check(guards[k], req, admitted) != Next
    ensures RunGuards(guards, req, admitted, controller) ==
      (if Check(guards[k], req, admitted) == Throttle then Throttled
       else Rejected(Check(guards[k], req, admitted).response))
  {
    if k > 0 {
      assert forall j :: 0 <= j < k - 1 ==> guards[1..][j] == guards[j + 1];
      FirstFailureDecides(guards[1..], req, admitted, controller, k - 1);
    }
  }

  /** The `fields` requirement shared by the entry routes. */
  lemma FieldsGuard(req: Request, admitted: bool)
    ensures Check(Params(["fields"]), req, admitted) ==
      if Present("fields", req) then Next else Reject(MissingParamsError(["fields"]))
  {
    var params: seq<string> := ["fields"];
    assert params[..|params| - 1] == [];
    assert Missing(params, req) == if Present("fields", req) then [] else ["fields"];
  }

  lemma ValidServices(req: Request)
    ensures RequireService(Services, req) == Next <==> req.service == Some("github") || req.service == Some("gitlab")
  {
  }

  /** `/v:version/connect/…` admits API versions 1 and 2. */
  lemma ConnectOutcome(req: Request, admitted: bool)
    ensures Serve(ConnectRoute, req, admitted) ==
      if !admitted then Throttled
      else if req.version != "1" && req.version != "2" then Rejected(InvalidVersion)
      else Reached(Connect)
  {
    var guards := ConnectRoute.guards;
    var versions: seq<nat> := [1, 2];
    assert NatToString(versions[0]) == "1" && NatToString(versions[1]) == "2";
    assert RequireApiVersion(versions, req) == Next <==> req.version == "1" || req.version == "2";
    if !admitted {
      FirstFailureDecides(guards, req, admitted, Connect, 0);
    } else if req.version != "1" && req.version != "2" {
      FirstFailureDecides(guards, req, admitted, Connect, 1);
    } else {
      ReachedIffAllPass(guards, req, admitted, Connect);
    }
  }

  /** `/v:version/entry/:username/:repository/:branch` admits versions 1 and 2 and requires `fields`. */
  lemma EntryOutcome(req: Request, admitted: bool)
    ensures Serve(EntryRoute, req, admitted) ==
      if !admitted then Throttled
      else if req.version != "1" && req.version != "2" then Rejected(InvalidVersion)
      else if !Present("fields", req) then Rejected(MissingParamsError(["fields"]))
      else Reached(Process)
  {
    var guards := EntryRoute.guards;
    var versions: seq<nat> := [1, 2];
    assert NatToString(versions[0]) == "1" && NatToString(versions[1]) == "2";
    assert RequireApiVersion(versions, req) == Next <==> req.version == "1" || req.version == "2";
    FieldsGuard(req, admitted);
    if !admitted {
      FirstFailureDecides(guards, req, admitted, Process, 0);
    } else if req.version != "1" && req.version != "2" {
      FirstFailureDecides(guards, req, admitted, Process, 1);
    } else if !Present("fields", req) {
      FirstFailureDecides(guards, req, admitted, Process, 2);
    } else {
      ReachedIffAllPass(guards, req, admitted, Process);
    }
  }

  /** `/v:version/entry/…/:property` admits version 2 only and requires `fields`. */
  lemma EntryPropertyOutcome(req: Request, admitted: bool)
    ensures Serve(EntryPropertyRoute, req, admitted) ==
      if !admitted then Throttled
      else if req.version != "2" then Rejected(InvalidVersion)
      else if !Present("fields", req) then Rejected(MissingParamsError(["fields"]))
      else Reached(Process)
  {
    var guards := EntryPropertyRoute.guards;
    var versions: seq<nat> := [2];
    assert NatToString(versions[0]) == "2";
    assert RequireApiVersion(versions, req) == Next <==> req.version == "2";
    FieldsGuard(req, admitted);
    if !admitted {
      FirstFailureDecides(guards, req, admitted, Process, 0);
    } else if req.version != "2" {
      FirstFailureDecides(guards, req, admitted, Process, 1);
    } else if !Present("fields", req) {
      FirstFailureDecides(guards, req, admitted, Process, 2);
    } else {
      ReachedIffAllPass(guards, req, admitted, Process);
    }
  }

  /**
   * `/v:version/entry/:service/…/:property` requires version 3, then a
   * service of github or gitlab, then `fields`, checked in that order.
   */
  lemma EntryServiceOutcome(req: Request, admitted: bool)
    ensures Serve(EntryServiceRoute, req, admitted) ==
      if !admitted then Throttled
      else if req.version != "3" then Rejected(InvalidVersion)
      else if req.service != Some("github") && req.service != Some("gitlab") then Rejected(InvalidService)
      else if !Present("fields", req) then Rejected(MissingParamsError(["fields"]))
      else Reached(Process)
  {
    var guards := EntryServiceRoute.guards;
    var versions: seq<nat> := [3];
    assert NatToString(versions[0]) == "3";
    assert RequireApiVersion(versions, req) == Next <==> req.version == "3";
    ValidServices(req);
    FieldsGuard(req, admitted);
    if !admitted {
      FirstFailureDecides(guards, req, admitted, Process, 0);
    } else if req.version != "3" {
      FirstFailureDecides(guards, req, admitted, Process, 1);
    } else if req.service != Some("github") && req.service != Some("gitlab") {
      FirstFailureDecides(guards, req, admitted, Process, 2);
    } else if !Present("fields", req) {
      FirstFailureDecides(guards, req, admitted, Process, 3);
    } else {
      ReachedIffAllPass(guards, req, admitted, Process);
    }
  }

  /** `/v:version/encrypt/:text` admits versions 2 and 3. */
  lemma EncryptOutcome(req: Request, admitted: bool)
    ensures Serve(EncryptRoute, req, admitted) ==
      if !admitted then Throttled
      else if req.version != "2" && req.version != "3" then Rejected(InvalidVersion)
      else Reached(Encrypt)
  {
    var guards := EncryptRoute.guards;
    var versions: seq<nat> := [2, 3];
    assert NatToString(versions[0]) == "2" && NatToString(versions[1]) == "3";
    assert RequireApiVersion(versions, req) == Next <==> req.version == "2" || req.version == "3";
    if !admitted {
      FirstFailureDecides(guards, req, admitted, Encrypt, 0);
    } else if req.version != "2" && req.version != "3" {
      FirstFailureDecides(guards, req, admitted, Encrypt, 1);
    } else {
      ReachedIffAllPass(guards, req, admitted, Encrypt);
    }
  }

  /** `/v:version/auth/:service/…` admits versions 2 and 3, then a service of github or gitlab. */
  lemma AuthOutcome(req: Request, admitted: bool)
    ensures Serve(AuthRoute, req, admitted) ==
      if !admitted then Throttled
      else if req.version != "2" && req.version != "3" then Rejected(InvalidVersion)
      else if req.service != Some("github") && req.service != Some("gitlab") then Rejected(InvalidService)
      else Reached(Auth)
  {
    var guards := AuthRoute.guards;
    var versions: seq<nat> := [2, 3];
    assert NatToString(versions[0]) == "2" && NatToString(versions[1]) == "3";
    assert RequireApiVersion(versions, req) == Next <==> req.version == "2" || req.version == "3";
    ValidServices(req);
    if !admitted {
      FirstFailureDecides(guards, req, admitted, Auth, 0);
    } else if req.version != "2" && req.version != "3" {
      FirstFailureDecides(guards, req, admitted, Auth, 1);
    } else if req.service != Some("github") && req.service != Some("gitlab") {
      FirstFailureDecides(guards, req, admitted, Auth, 2);
    } else {
      ReachedIffAllPass(guards, req, admitted, Auth);
    }
  }

  /** The root route has no guards. */
  lemma HomeOutcome(req: Request, admitted: bool)
    ensures Serve(HomeRoute, req, admitted) == Reached(Home)
  {
  }
}
