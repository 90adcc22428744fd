/** Request construction (`setRequest`, main.go:93-156): the header map, the
    body bytes and the failures that stop a request from being built. */
module Request {
  import opened Wrappers
  import opened Utf8
  import Base64
  import opened Types
  import opened Foreign
  import opened ClientConfig

  const ApplicationJson: string := "application/json"

  /** The body argument: SurrealQL text sent as it is (`isRaw`), or a payload
      map sent as JSON. */
  datatype Body = RawBody(text: string) | JsonBody(payload: map<string, Value>)

  /** A request as handed to the transport; header keys are spelled as the
      code writes them. */
  datatype HttpRequest = HttpRequest(httpMethod: string, url: string, headers: map<string, string>, body: seq<Byte>)

  predicate UsesScheme(auth: Option<AuthConfig>, scheme: string) {
    auth.Some? && auth.value.authMethod == scheme
  }

  /** Basic credentials (section 2 of RFC 7617): "Basic " and the Base64 form
      of the UTF-8 bytes of "username:password". */
  function BasicCredentials(v: AuthVars): string {
    "Basic " + Base64.Encode(Utf8.Encode(v.username + ":" + v.password))
  }

  /** Bearer credentials (section 2.1 of RFC 6750). */
  function BearerCredentials(token: string): string {
    "Bearer " + token
  }

  /** The content headers and the namespace/database pair named after the
      version (main.go:94-106). */
  function VersionHeaders(cfg: Config): map<string, string> {
    var base := map["Accept" := ApplicationJson, "Content-Type" := ApplicationJson];
    if cfg.version == Legacy then
      base["NS" := cfg.namespace]["DB" := cfg.database]
    else
      base["surreal-ns" := cfg.namespace]["surreal-db" := cfg.database]
  }

  /** The headers of the authentication scheme written over `h`
      (main.go:109-129). */
  function AuthHeaders(h: map<string, string>, auth: Option<AuthConfig>): map<string, string> {
    match auth
    case None => h
    case Some(a) =>
      if a.authMethod == "Root" then
        var withAuth := h["Authorization" := BasicCredentials(a.vars)];
        var withNs := if a.vars.namespace != "" then withAuth["NS" := a.vars.namespace] else withAuth;
        if a.vars.database != "" then withNs["DB" := a.vars.database] else withNs
      else if a.authMethod == "Token" then
        h["Authorization" := BearerCredentials(a.token)]
      else if a.authMethod == "Scope" then
        h["SC" := a.scope] + ToMap(a.vars)
      else
        h
  }

  /** The header map `setRequest` builds for a client in state `cfg`. */
  function Headers(cfg: Config): map<string, string> {
    AuthHeaders(VersionHeaders(cfg), cfg.auth)
  }

  /** Reference definition, key by key, of the header map: which keys are
      present and with what value, without the order of the writes. */
  function ExpectedHeader(cfg: Config, key: string): Option<string> {
    var legacy := cfg.version == Legacy;
    var root, scope := UsesScheme(cfg.auth, "Root"), UsesScheme(cfg.auth, "Scope");
    if key == "Accept" || key == "Content-Type" then Some(ApplicationJson)
    else if key == "Authorization" then
      if root then Some(BasicCredentials(cfg.auth.value.vars))
      else if UsesScheme(cfg.auth, "Token") then Some(BearerCredentials(cfg.auth.value.token))
      else None
    else if key == "NS" then
      if root && cfg.auth.value.vars.namespace != "" then Some(cfg.auth.value.vars.namespace)
      else if legacy then Some(cfg.namespace)
      else None
    else if key == "DB" then
      if root && cfg.auth.value.vars.database != "" then Some(cfg.auth.value.vars.database)
      else if legacy then Some(cfg.database)
      else None
    else if key == "surreal-ns" then
      if legacy then None else Some(cfg.namespace)
    else if key == "surreal-db" then
      if legacy then None else Some(cfg.database)
    else if key == "SC" then
      if scope then Some(cfg.auth.value.scope) else None
    else if scope && key == "username" then Some(cfg.auth.value.vars.username)
    else if scope && key == "password" then Some(cfg.auth.value.vars.password)
    else if scope && key == "namespace" then Some(cfg.auth.value.vars.namespace)
    else if scope && key == "database" then Some(cfg.auth.value.vars.database)
    else None
  }

  /** The header map agrees with the reference under each scheme in turn.
      One lemma per scheme keeps each proof within the solver's resource
      limit; `HeadersAsExpected` joins them. */
  lemma ExpectedWithoutAuth(cfg: Config, key: string)
    requires cfg.auth.None?
    ensures key in Headers(cfg) <==> ExpectedHeader(cfg, key).Some?
    ensures key in Headers(cfg) ==> Headers(cfg)[key] == ExpectedHeader(cfg, key).value
  {
  }

  lemma ExpectedUnderToken(cfg: Config, key: string)
    requires UsesScheme(cfg.auth, "Token")
    ensures key in Headers(cfg) <==> ExpectedHeader(cfg, key).Some?
    ensures key in Headers(cfg) ==> Headers(cfg)[key] == ExpectedHeader(cfg, key).value
  {
  }

  lemma ExpectedUnderScope(cfg: Config, key: string)
    requires UsesScheme(cfg.auth, "Scope")
    ensures key in Headers(cfg) <==> ExpectedHeader(cfg, key).Some?
    ensures key in Headers(cfg) ==> Headers(cfg)[key] == ExpectedHeader(cfg, key).value
  {
  }

  lemma ExpectedUnderRoot(cfg: Config, key: string)
    requires UsesScheme(cfg.auth, "Root")
    ensures key in Headers(cfg) <==> ExpectedHeader(cfg, key).Some?
    ensures key in Headers(cfg) ==> Headers(cfg)[key] == ExpectedHeader(cfg, key).value
  {
  }

  /** The successive writes of `setRequest` yield exactly the reference map. */
  lemma HeadersAsExpected(cfg: Config, key: string)
    ensures key in Headers(cfg) <==> ExpectedHeader(cfg, key).Some?
    ensures key in Headers(cfg) ==> Headers(cfg)[key] == ExpectedHeader(cfg, key).value
  {
    if cfg.auth.None? {
      ExpectedWithoutAuth(cfg, key);
    } else if cfg.auth.value.authMethod == "Root" {
      ExpectedUnderRoot(cfg, key);
    } else if cfg.auth.value.authMethod == "Token" {
      ExpectedUnderToken(cfg, key);
    } else if cfg.auth.value.authMethod == "Scope" {
      ExpectedUnderScope(cfg, key);
    }
  }

  /** Every request asks for and declares JSON. */
  lemma ContentHeadersAlwaysJson(cfg: Config)
    ensures "Accept" in Headers(cfg) && Headers(cfg)["Accept"] == ApplicationJson
    ensures "Content-Type" in Headers(cfg) && Headers(cfg)["Content-Type"] == ApplicationJson
  {
    HeadersAsExpected(cfg, "Accept");
    HeadersAsExpected(cfg, "Content-Type");
  }

  /** Header names by version: "1.x <=" uses NS/DB, any other version
      surreal-ns/surreal-db carrying the client's namespace and database; NS
      and DB then appear only through a Root override. */
  lemma NamespaceHeadersByVersion(cfg: Config)
    ensures cfg.version == Legacy ==>
      "NS" in Headers(cfg) && "DB" in Headers(cfg)
      && "surreal-ns" !in Headers(cfg) && "surreal-db" !in Headers(cfg)
    ensures cfg.version == Legacy && !UsesScheme(cfg.auth, "Root") ==>
      Headers(cfg)["NS"] == cfg.namespace && Headers(cfg)["DB"] == cfg.database
    ensures cfg.version != Legacy ==>
      "surreal-ns" in Headers(cfg) && Headers(cfg)["surreal-ns"] == cfg.namespace
      && "surreal-db" in Headers(cfg) && Headers(cfg)["surreal-db"] == cfg.database
    ensures cfg.version != Legacy && !UsesScheme(cfg.auth, "Root") ==>
      "NS" !in Headers(cfg) && "DB" !in Headers(cfg)
  {
    HeadersAsExpected(cfg, "NS");
    HeadersAsExpected(cfg, "DB");
    HeadersAsExpected(cfg, "surreal-ns");
    HeadersAsExpected(cfg, "surreal-db");
  }

  /** Root: Basic credentials; a non-empty namespace or database override
      sets the NS or DB key (even beside surreal-ns/surreal-db under ">= 2.x"),
      an empty one leaves that key as the version made it. */
  lemma RootHeaders(cfg: Config)
    requires UsesScheme(cfg.auth, "Root")
    ensures Headers(cfg)["Authorization"] == BasicCredentials(cfg.auth.value.vars)
    ensures cfg.auth.value.vars.namespace != "" ==> Headers(cfg)["NS"] == cfg.auth.value.vars.namespace
    ensures cfg.auth.value.vars.database != "" ==> Headers(cfg)["DB"] == cfg.auth.value.vars.database
    ensures cfg.auth.value.vars.namespace == "" ==>
      ("NS" in Headers(cfg) <==> "NS" in VersionHeaders(cfg))
      && ("NS" in Headers(cfg) ==> Headers(cfg)["NS"] == VersionHeaders(cfg)["NS"])
    ensures cfg.auth.value.vars.database == "" ==>
      ("DB" in Headers(cfg) <==> "DB" in VersionHeaders(cfg))
      && ("DB" in Headers(cfg) ==> Headers(cfg)["DB"] == VersionHeaders(cfg)["DB"])
    ensures cfg.version != Legacy ==>
      Headers(cfg)["surreal-ns"] == cfg.namespace && Headers(cfg)["surreal-db"] == cfg.database
    ensures "SC" !in Headers(cfg)
  {
    HeadersAsExpected(cfg, "Authorization");
    HeadersAsExpected(cfg, "NS");
    HeadersAsExpected(cfg, "DB");
    HeadersAsExpected(cfg, "surreal-ns");
    HeadersAsExpected(cfg, "surreal-db");
    HeadersAsExpected(cfg, "SC");
  }

  /** Token: Bearer credentials and nothing else from the auth state. */
  lemma TokenHeaders(cfg: Config)
    requires UsesScheme(cfg.auth, "Token")
    ensures Headers(cfg) == VersionHeaders(cfg)["Authorization" := BearerCredentials(cfg.auth.value.token)]
  {
  }

  /** Scope: the SC header and the four credential keys, never Authorization. */
  lemma ScopeHeaders(cfg: Config)
    requires UsesScheme(cfg.auth, "Scope")
    ensures Headers(cfg)["SC"] == cfg.auth.value.scope
    ensures forall k :: k in ToMap(cfg.auth.value.vars) ==> k in Headers(cfg) && Headers(cfg)[k] == ToMap(cfg.auth.value.vars)[k]
    ensures "Authorization" !in Headers(cfg)
  {
    HeadersAsExpected(cfg, "SC");
    HeadersAsExpected(cfg, "Authorization");
  }

  /** No auth state, or an unrecognised method: no auth header at all. */
  lemma NoSchemeHeaders(cfg: Config)
    requires cfg.auth.None? || cfg.auth.value.authMethod !in {"Root", "Token", "Scope"}
    ensures Headers(cfg) == VersionHeaders(cfg)
    ensures "Authorization" !in Headers(cfg) && "SC" !in Headers(cfg)
  {
  }

  /** The body bytes: the UTF-8 text of a raw body, or the JSON encoding of a
      payload, whose failure is reported with the encoder's message. */
  function EncodeBody(body: Body, lib: Library): Result<seq<Byte>, string> {
    match body
    case RawBody(text) => Success(Utf8.Encode(text))
    case JsonBody(payload) => lib.marshal(payload)
  }

  /** `setRequest`: the request, or the error of the JSON encoder or of
      `http.NewRequest`; a failed encoding stops before the request exists. */
  function BuildRequest(cfg: Config, url: string, httpMethod: string, body: Body, lib: Library): (r: Result<HttpRequest, string>)
    ensures r.Success? ==>
      r.value.url == url && r.value.httpMethod == httpMethod && r.value.headers == Headers(cfg)
    ensures body.JsonBody? && lib.marshal(body.payload).Failure? ==>
      r == Failure(lib.marshal(body.payload).error)
    ensures body.JsonBody? && lib.marshal(body.payload).Success? && r.Success? ==>
      r.value.body == lib.marshal(body.payload).value
    ensures r.Failure? <==> EncodeBody(body, lib).Failure? || lib.newRequestError(httpMethod, url).Some?
  {
    match EncodeBody(body, lib)
    case Failure(e) => Failure(e)
    case Success(bytes) =>
      match lib.newRequestError(httpMethod, url)
      case Some(e) => Failure(e)
      case None => Success(HttpRequest(httpMethod, url, Headers(cfg), bytes))
  }

  /** A raw body is sent verbatim: its bytes decode to exactly the given text. */
  lemma RawBodyVerbatim(cfg: Config, url: string, httpMethod: string, text: string, lib: Library)
    ensures BuildRequest(cfg, url, httpMethod, RawBody(text), lib).Success?
      <==> lib.newRequestError(httpMethod, url).None?
    ensures BuildRequest(cfg, url, httpMethod, RawBody(text), lib).Success? ==>
      Utf8.Decode(BuildRequest(cfg, url, httpMethod, RawBody(text), lib).value.body) == Some(text)
  {
    Utf8.DecodeEncode(text);
  }
}
