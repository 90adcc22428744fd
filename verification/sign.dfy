/** Sign-in and sign-up (`Signin`, main.go:249-319, and `Signup`,
    main.go:322-392, which differ only in the endpoint): the JSON payload and
    the token taken from the reply. */
module Sign {
  import opened Wrappers
  import opened Types
  import opened Foreign
  import opened ClientConfig
  import opened Request
  import opened Response

  /** The named fields of the payload, written one after the other: the
      optional ones when present, then "ac" (">= 2.x") or "sc" ("1.x <="). */
  function NamedFields(version: string, v: SigninVars): map<string, Value> {
    var withNs := if v.ns.Some? then map["ns" := Str(v.ns.value)] else map[];
    var withDb := if v.db.Some? then withNs["db" := Str(v.db.value)] else withNs;
    var withUser := if v.user.Some? then withDb["user" := Str(v.user.value)] else withDb;
    var withPass := if v.pass.Some? then withUser["pass" := Str(v.pass.value)] else withUser;
    if version == Current && v.ac.Some? then withPass["ac" := Str(v.ac.value)]
    else if version == Legacy && v.sc.Some? then withPass["sc" := Str(v.sc.value)]
    else withPass
  }

  /** The payload: the named fields, then the extra variables written over
      them. */
  function Payload(version: string, v: SigninVars): map<string, Value> {
    match v.vars
    case None => NamedFields(version, v)
    case Some(extra) => NamedFields(version, v) + extra
  }

  /** Reference definition, key by key, of the payload. */
  function ExpectedEntry(version: string, v: SigninVars, key: string): Option<Value> {
    if v.vars.Some? && key in v.vars.value then Some(v.vars.value[key])
    else if key == "ns" && v.ns.Some? then Some(Str(v.ns.value))
    else if key == "db" && v.db.Some? then Some(Str(v.db.value))
    else if key == "user" && v.user.Some? then Some(Str(v.user.value))
    else if key == "pass" && v.pass.Some? then Some(Str(v.pass.value))
    else if key == "ac" && version == Current && v.ac.Some? then Some(Str(v.ac.value))
    else if key == "sc" && version == Legacy && v.sc.Some? then Some(Str(v.sc.value))
    else None
  }

  /** The successive writes yield exactly the reference payload. */
  lemma PayloadAsExpected(version: string, v: SigninVars, key: string)
    ensures key in Payload(version, v) <==> ExpectedEntry(version, v, key).Some?
    ensures key in Payload(version, v) ==> Payload(version, v)[key] == ExpectedEntry(version, v, key).value
  {
  }

  /** ns, db, user and pass are sent exactly when given (unless an extra
      variable takes the key); "ac" only under ">= 2.x" with AC set, "sc"
      only under "1.x <=" with SC set, so never both; extra variables win. */
  lemma PayloadFields(version: string, v: SigninVars)
    ensures var p, extra := Payload(version, v), if v.vars.Some? then v.vars.value else map[];
      && ("ns" !in extra ==> ("ns" in p <==> v.ns.Some?) && (v.ns.Some? ==> p["ns"] == Str(v.ns.value)))
      && ("db" !in extra ==> ("db" in p <==> v.db.Some?) && (v.db.Some? ==> p["db"] == Str(v.db.value)))
      && ("user" !in extra ==> ("user" in p <==> v.user.Some?) && (v.user.Some? ==> p["user"] == Str(v.user.value)))
      && ("pass" !in extra ==> ("pass" in p <==> v.pass.Some?) && (v.pass.Some? ==> p["pass"] == Str(v.pass.value)))
      && ("ac" !in extra ==> ("ac" in p <==> version == Current && v.ac.Some?))
      && ("sc" !in extra ==> ("sc" in p <==> version == Legacy && v.sc.Some?))
      && ("ac" in NamedFields(version, v) ==> "sc" !in NamedFields(version, v))
      && (forall k :: k in extra ==> k in p && p[k] == extra[k])
  {
    PayloadAsExpected(version, v, "ns");
    PayloadAsExpected(version, v, "db");
    PayloadAsExpected(version, v, "user");
    PayloadAsExpected(version, v, "pass");
    PayloadAsExpected(version, v, "ac");
    PayloadAsExpected(version, v, "sc");
  }

  /** Only the given credentials are sent: no key beyond them. */
  lemma CredentialsOnlyPayload(version: string, user: string, pass: string)
    ensures Payload(version, SigninVars(None, None, None, None, None, Some(user), Some(pass)))
      == map["user" := Str(user), "pass" := Str(pass)]
  {
  }

  /** What sign-in or sign-up yields. `NilToken` is the reply that reports
      success without a token, on which the Go code dereferences a nil
      pointer and panics. */
  datatype SignResult = Signed(token: string) | Refused(error: RequestError) | NilToken

  /** The token of a successful reply; any other code is refused with a local
      code-500 error carrying the reply's details. */
  function AuthToken(res: AuthenticationResult): (r: SignResult)
    ensures r.Signed? <==> res.code == StatusOK && res.token.Some?
    ensures r.Signed? ==> r.token == res.token.value
    ensures res.code != StatusOK ==>
      r.Refused? && r.error.code == LocalErrorCode && r.error.information == res.details
    ensures r.NilToken? <==> res.code == StatusOK && res.token.None?
  {
    if res.code != StatusOK then Refused(RequestProblem(res.details))
    else
      match res.token
      case None => NilToken
      case Some(token) => Signed(token)
  }

  /** The request a sign-in or sign-up sends to `endpoint` ("/signin" or
      "/signup"). */
  function SignRequest(cfg: Config, endpoint: string, v: SigninVars, lib: Library): Result<HttpRequest, string> {
    BuildRequest(cfg, cfg.url + endpoint, "POST", JsonBody(Payload(cfg.version, v)), lib)
  }

  /** What `Signin`/`Signup` return for a client in state `cfg`. */
  function SignOutcome(cfg: Config, endpoint: string, v: SigninVars, lib: Library,
                       transport: HttpRequest -> Exchange): SignResult
  {
    match SignRequest(cfg, endpoint, v, lib)
    case Failure(message) => Refused(RequestProblem(message))
    case Success(request) =>
      match ProcessRequest(transport(request), lib)
      case Failure(e) => Refused(e)
      case Success(body) =>
        match lib.unmarshalAuth(body)
        case Failure(message) => Refused(RequestProblem(message))
        case Success(res) => AuthToken(res)
  }

  /** A token comes back only from a built request answered with 200 whose
      body decodes to a result with code 200 and that token; every refusal is
      the server's own error for that request or a local code-500 error.
      Conversely, a 200 reply that decodes is judged by its result, and a
      non-200 reply whose body decodes as an error is refused with that
      error unchanged. */
  lemma SignOutcomeClassified(cfg: Config, endpoint: string, v: SigninVars, lib: Library,
                              transport: HttpRequest -> Exchange)
    ensures var r, req := SignOutcome(cfg, endpoint, v, lib, transport), SignRequest(cfg, endpoint, v, lib);
      r.Signed? ==>
        && req.Success?
        && transport(req.value).Received? && transport(req.value).status == StatusOK
        && lib.unmarshalAuth(transport(req.value).body).Success?
        && lib.unmarshalAuth(transport(req.value).body).value.code == StatusOK
        && lib.unmarshalAuth(transport(req.value).body).value.token == Some(r.token)
    ensures var r, req := SignOutcome(cfg, endpoint, v, lib, transport), SignRequest(cfg, endpoint, v, lib);
      r.Refused? ==>
        r.error.code == LocalErrorCode || (req.Success? && IsServerError(transport(req.value), lib, r.error))
    ensures lib.marshal(Payload(cfg.version, v)).Failure? ==>
        SignOutcome(cfg, endpoint, v, lib, transport) == Refused(RequestProblem(lib.marshal(Payload(cfg.version, v)).error))
    ensures var req := SignRequest(cfg, endpoint, v, lib);
      req.Success? && transport(req.value).Received? && transport(req.value).status == StatusOK
      && lib.unmarshalAuth(transport(req.value).body).Success? ==>
        SignOutcome(cfg, endpoint, v, lib, transport) == AuthToken(lib.unmarshalAuth(transport(req.value).body).value)
    ensures var req := SignRequest(cfg, endpoint, v, lib);
      req.Success? && transport(req.value).Received? && transport(req.value).status != StatusOK
      && lib.unmarshalError(transport(req.value).body).Success? ==>
        SignOutcome(cfg, endpoint, v, lib, transport) == Refused(lib.unmarshalError(transport(req.value).body).value)
  {
  }
}
