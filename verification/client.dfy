/** The client object (`*Surreal`): its fields, the one field its methods
    update, and the operations that read them. */
module Client {
  import opened Wrappers
  import opened Utf8
  import opened Types
  import opened Foreign
  import opened ClientConfig
  import opened Request
  import opened Response
  import opened Query
  import opened Sign

  class Surreal {
    var url: string
    var version: string
    var namespace: string
    var database: string
    var auth: Option<AuthConfig>

    /** The fields as a value. */
    function State(): Config
      reads this
    {
      Config(url, version, namespace, database, auth)
    }

    /** `SurrealDB`: a client holding a copy of `config` with its version
        normalised. */
    constructor (config: Config)
      ensures State() == SurrealDB(config)
    {
      url := config.url;
      namespace := config.namespace;
      database := config.database;
      auth := config.auth;
      version := config.version;
      new;
      if version == "" || (version != Current && version != Legacy) {
        version := Current;
      }
    }

    /** `Authenticate`: replaces the auth state, nothing else. */
    method Authenticate(newAuth: Option<AuthConfig>)
      modifies this
      ensures State() == old(State()).(auth := newAuth)
    {
      auth := newAuth;
    }

    /** `Invalidate`: clears the auth state, nothing else. */
    method Invalidate()
      modifies this
      ensures State() == old(State()).(auth := None)
    {
      auth := None;
    }

    /** The header half of `setRequest`: the content headers, the
        namespace/database pair of the version, then the scheme's headers,
        written one by one. */
    method RequestHeaders() returns (headers: map<string, string>)
      ensures headers == Headers(State())
    {
      headers := map["Accept" := ApplicationJson, "Content-Type" := ApplicationJson];
      if version == Legacy {
        headers := headers["NS" := namespace];
        headers := headers["DB" := database];
      } else {
        headers := headers["surreal-ns" := namespace];
        headers := headers["surreal-db" := database];
      }
      assert headers == VersionHeaders(State());

      if auth.Some? {
        var a := auth.value;
        if a.authMethod == "Root" {
          headers := headers["Authorization" := BasicCredentials(a.vars)];
          if a.vars.namespace != "" {
            headers := headers["NS" := a.vars.namespace];
          }
          if a.vars.database != "" {
            headers := headers["DB" := a.vars.database];
          }
        } else if a.authMethod == "Token" {
          headers := headers["Authorization" := BearerCredentials(a.token)];
        } else if a.authMethod == "Scope" {
          headers := headers["SC" := a.scope];
          var fields := ToMap(a.vars);
          ghost var before := headers;
          var pending := fields.Keys;
          while pending != {}
            invariant pending <= fields.Keys
            invariant forall k :: k in headers <==> k in before || (k in fields && k !in pending)
            invariant forall k :: k in headers ==>
              headers[k] == if k in fields && k !in pending then fields[k] else before[k]
            decreases pending
          {
            var key :| key in pending;
            headers := headers[key := fields[key]];
            pending := pending - {key};
          }
          assert headers == before + fields;
        }
      }
    }

    /** `setRequest`: the headers, then the body bytes, then the request. */
    method SetRequest(target: string, httpMethod: string, body: Body, lib: Library)
      returns (r: Result<HttpRequest, string>)
      ensures r == BuildRequest(State(), target, httpMethod, body, lib)
    {
      var headers := RequestHeaders();

      var bytes: seq<Byte>;
      match body {
        case RawBody(text) =>
          bytes := Utf8.Encode(text);
        case JsonBody(payload) =>
          var encoded := lib.marshal(payload);
          if encoded.Failure? {
            return Failure(encoded.error);
          }
          bytes := encoded.value;
      }

      var failure := lib.newRequestError(httpMethod, target);
      if failure.Some? {
        return Failure(failure.value);
      }
      r := Success(HttpRequest(httpMethod, target, headers, bytes));
    }

    /** `Query`: collects the non-nil variables into query values, extends
        the URL, sends the SurrealQL text raw and decodes the rows. */
    method Query(sql: string, vars: map<string, Value>, lib: Library, transport: HttpRequest -> Exchange)
      returns (r: Result<seq<QueryResult>, RequestError>)
      ensures r == QueryOutcome(State(), sql, vars, lib, transport)
    {
      var queryUrl := url + "/sql";
      var queryVars: map<string, seq<string>> := map[];
      var pending := vars.Keys;
      while pending != {}
        invariant pending <= vars.Keys
        invariant forall k :: k in queryVars <==> k in vars && k !in pending && !vars[k].Null?
        invariant forall k :: k in queryVars ==> queryVars[k] == [lib.format(vars[k])]
        decreases pending
      {
        var key :| key in pending;
        if !vars[key].Null? {
          assert key !in queryVars;
          queryVars := AddValue(queryVars, key, lib.format(vars[key]));
        }
        pending := pending - {key};
      }
      assert queryVars == QueryValues(vars, lib);

      var encodedVars := lib.encodeQuery(queryVars);
      if encodedVars != "" {
        queryUrl := queryUrl + "?" + encodedVars;
      }

      var request := SetRequest(queryUrl, "POST", RawBody(sql), lib);
      if request.Failure? {
        return Failure(RequestProblem(request.error));
      }
      var response := ProcessRequest(transport(request.value), lib);
      if response.Failure? {
        return Failure(response.error);
      }
      var rows := lib.unmarshalResults(response.value);
      if rows.Failure? {
        return Failure(RequestProblem(rows.error));
      }
      r := Success(rows.value);
    }

    /** The payload of `Signin`/`Signup`: the named fields written one by one,
        then the extra variables copied over them. */
    method SignPayload(v: SigninVars) returns (payload: map<string, Value>)
      ensures payload == Payload(version, v)
    {
      payload := map[];
      if v.ns.Some? {
        payload := payload["ns" := Str(v.ns.value)];
      }
      if v.db.Some? {
        payload := payload["db" := Str(v.db.value)];
      }
      if v.user.Some? {
        payload := payload["user" := Str(v.user.value)];
      }
      if v.pass.Some? {
        payload := payload["pass" := Str(v.pass.value)];
      }
      if version == Current && v.ac.Some? {
        payload := payload["ac" := Str(v.ac.value)];
      } else if version == Legacy && v.sc.Some? {
        payload := payload["sc" := Str(v.sc.value)];
      }
      assert payload == NamedFields(version, v);

      if v.vars.Some? {
        var extra := v.vars.value;
        ghost var named := payload;
        var pending := extra.Keys;
        while pending != {}
          invariant pending <= extra.Keys
          invariant forall k :: k in payload <==> k in named || (k in extra && k !in pending)
          invariant forall k :: k in payload ==>
            payload[k] == if k in extra && k !in pending then extra[k] else named[k]
          decreases pending
        {
          var key :| key in pending;
          payload := payload[key := extra[key]];
          pending := pending - {key};
        }
        assert payload == named + extra;
      }
    }

    /** The body shared by `Signin` and `Signup`, which differ only in the
        endpoint. */
    method Sign(endpoint: string, v: SigninVars, lib: Library, transport: HttpRequest -> Exchange)
      returns (r: SignResult)
      ensures r == SignOutcome(State(), endpoint, v, lib, transport)
    {
      var payload := SignPayload(v);
      var request := SetRequest(url + endpoint, "POST", JsonBody(payload), lib);
      if request.Failure? {
        return Refused(RequestProblem(request.error));
      }
      var response := ProcessRequest(transport(request.value), lib);
      if response.Failure? {
        return Refused(response.error);
      }
      var result := lib.unmarshalAuth(response.value);
      if result.Failure? {
        return Refused(RequestProblem(result.error));
      }
      r := AuthToken(result.value);
    }

    /** `Signin`: posts the payload to "/signin" and returns the token. */
    method Signin(v: SigninVars, lib: Library, transport: HttpRequest -> Exchange)
      returns (r: SignResult)
      ensures r == SignOutcome(State(), "/signin", v, lib, transport)
    {
      r := Sign("/signin", v, lib, transport);
    }

    /** `Signup`: posts the payload to "/signup" and returns the token. */
    method Signup(v: SignupVars, lib: Library, transport: HttpRequest -> Exchange)
      returns (r: SignResult)
      ensures r == SignOutcome(State(), "/signup", v, lib, transport)
    {
      r := Sign("/signup", v, lib, transport);
    }
  }

  /** Invalidating twice leaves the client as invalidating once does. */
  method InvalidateTwice(db: Surreal)
    modifies db
    ensures db.State() == old(db.State()).(auth := None)
  {
    db.Invalidate();
    db.Invalidate();
  }
}
