/** The query operation (`Query`, main.go:201-246): the URL with its
    variables, and the outcome of one call. */
module Query {
  import opened Wrappers
  import opened Types
  import opened Foreign
  import opened Request
  import opened Response

  /** `url.Values.Add`: appends a value to the key's list. */
  function AddValue(vs: map<string, seq<string>>, key: string, value: string): map<string, seq<string>> {
    vs[key := (if key in vs then vs[key] else []) + [value]]
  }

  /** The query-string values: one formatted value per variable that is not nil. */
  function QueryValues(vars: map<string, Value>, lib: Library): map<string, seq<string>> {
    map k | k in vars && !vars[k].Null? :: [lib.format(vars[k])]
  }

  /** Nil variables are never sent; every other variable is sent once, as
      the `%v` formatting of its value. */
  lemma QueryValuesDropNil(vars: map<string, Value>, lib: Library)
    ensures forall k :: k in QueryValues(vars, lib) <==> k in vars && !vars[k].Null?
    ensures forall k :: k in QueryValues(vars, lib) ==> QueryValues(vars, lib)[k] == [lib.format(vars[k])]
  {
  }

  /** The endpoint, followed by "?" and the encoded values when the encoding
      is not empty. */
  function QueryUrl(base: string, vars: map<string, Value>, lib: Library): (u: string)
    ensures |u| >= |base| + 4 && u[..|base| + 4] == base + "/sql"
  {
    var endpoint := base + "/sql";
    var encoded := lib.encodeQuery(QueryValues(vars, lib));
    if encoded != "" then endpoint + "?" + encoded else endpoint
  }

  /** With Go's encoder, "?" and the encoded values follow "/sql" exactly
      when at least one variable is not nil. */
  lemma {:induction false} QueryUrlMarksVars(base: string, vars: map<string, Value>, lib: Library)
    requires EncodesEmptyExactlyWhenNoPairs(lib.encodeQuery)
    ensures |QueryUrl(base, vars, lib)| > |base| + 4 <==> exists k :: k in vars && !vars[k].Null?
    ensures |QueryUrl(base, vars, lib)| > |base| + 4 ==>
      QueryUrl(base, vars, lib)[|base| + 4..] == "?" + lib.encodeQuery(QueryValues(vars, lib))
  {
    var vs := QueryValues(vars, lib);
    var encoded := lib.encodeQuery(vs);
    assert encoded == "" <==> forall k :: k in vs ==> vs[k] == [];
    if exists k :: k in vars && !vars[k].Null? {
      var k :| k in vars && !vars[k].Null?;
      assert k in vs && vs[k] != [];
    }
    if encoded != "" {
      var k :| k in vs && vs[k] != [];
      assert k in vars && !vars[k].Null?;
      var u := base + "/sql" + "?" + encoded;
      assert u[|base| + 4..] == "?" + encoded;
    }
  }

  /** What `Query` returns for a client in state `cfg`, when the transport
      answers a request with `transport(request)`. */
  function QueryOutcome(cfg: Config, sql: string, vars: map<string, Value>, lib: Library,
                        transport: HttpRequest -> Exchange): Result<seq<QueryResult>, RequestError>
  {
    match QueryRequest(cfg, sql, vars, lib)
    case Failure(message) => Failure(RequestProblem(message))
    case Success(request) =>
      match ProcessRequest(transport(request), lib)
      case Failure(e) => Failure(e)
      case Success(body) =>
        match lib.unmarshalResults(body)
        case Failure(message) => Failure(RequestProblem(message))
        case Success(rows) => Success(rows)
  }

  /** The request a query sends: POST to the query URL, the client's headers,
      and the SurrealQL text as the body. */
  function QueryRequest(cfg: Config, sql: string, vars: map<string, Value>, lib: Library): Result<HttpRequest, string> {
    BuildRequest(cfg, QueryUrl(cfg.url, vars, lib), "POST", RawBody(sql), lib)
  }

  /** Rows come back only from a built request answered with 200 whose body
      decodes to them; every error is the server's own error for that request
      or a local code-500 error. Conversely, such a reply returns exactly the
      rows it decodes to. */
  lemma QueryOutcomeClassified(cfg: Config, sql: string, vars: map<string, Value>, lib: Library,
                               transport: HttpRequest -> Exchange)
    ensures var r, req := QueryOutcome(cfg, sql, vars, lib, transport), QueryRequest(cfg, sql, vars, lib);
      r.Success? ==>
        && req.Success?
        && transport(req.value).Received? && transport(req.value).status == StatusOK
        && lib.unmarshalResults(transport(req.value).body) == Success(r.value)
    ensures var r, req := QueryOutcome(cfg, sql, vars, lib, transport), QueryRequest(cfg, sql, vars, lib);
      r.Failure? ==>
        r.error.code == LocalErrorCode || (req.Success? && IsServerError(transport(req.value), lib, r.error))
    ensures var req := QueryRequest(cfg, sql, vars, lib);
      req.Success? && transport(req.value).Received? && transport(req.value).status != StatusOK
      && lib.unmarshalError(transport(req.value).body).Success? ==>
        QueryOutcome(cfg, sql, vars, lib, transport) == Failure(lib.unmarshalError(transport(req.value).body).value)
    ensures var req := QueryRequest(cfg, sql, vars, lib);
      req.Success? && transport(req.value).Received? && transport(req.value).status == StatusOK
      && lib.unmarshalResults(transport(req.value).body).Success? ==>
        QueryOutcome(cfg, sql, vars, lib, transport) == Success(lib.unmarshalResults(transport(req.value).body).value)
  {
  }
}
