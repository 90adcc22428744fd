/** Concrete exchanges: what the client sends and returns for given replies. */
module Scenarios {
  import opened Wrappers
  import opened Utf8
  import Base64
  import opened Types
  import opened Foreign
  import opened ClientConfig
  import opened Request
  import opened Response
  import opened Query
  import opened Sign

  const RootColonRoot: seq<Byte> := [0x72, 0x6F, 0x6F, 0x74, 0x3A, 0x72, 0x6F, 0x6F, 0x74]

  lemma RootColonRootBytes(s: string)
    requires s == "root:root"
    ensures Utf8.Encode(s) == RootColonRoot
  {
    Utf8.EncodeAscii(s);
  }

  lemma RootColonRootBase64(bytes: seq<Byte>)
    requires bytes == RootColonRoot
    ensures Base64.Encode(bytes) == "cm9vdDpyb290"
  {
    assert bytes[3..][3..] == [0x6F, 0x6F, 0x74];
    assert Base64.Encode(bytes[3..][3..]) == "b290";
    assert Base64.Encode(bytes[3..]) == "dDpy" + "b290";
  }

  /** Basic credentials of root:root, whatever the namespace and database. */
  lemma RootBasicCredentials(v: AuthVars)
    requires v.username == "root" && v.password == "root"
    ensures BasicCredentials(v) == "Basic cm9vdDpyb290"
  {
    var joined := v.username + ":" + v.password;
    assert joined == "root:root";
    RootColonRootBytes(joined);
    RootColonRootBase64(Utf8.Encode(joined));
  }

  /** The state of a legacy, unauthenticated client of a local server. */
  function LegacyLocal(): (cfg: Config)
    ensures cfg == Config("http://localhost:8000", Legacy, "test", "test", None)
  {
    SurrealDB(Config("http://localhost:8000", Legacy, "test", "test", None))
  }

  /** A legacy, unauthenticated client querying without variables posts the
      text to <url>/sql with the NS/DB headers. */
  lemma LegacyQueryRequest(sql: string, lib: Library)
    requires EncodesEmptyExactlyWhenNoPairs(lib.encodeQuery)
    requires lib.newRequestError("POST", "http://localhost:8000/sql").None?
    ensures QueryRequest(LegacyLocal(), sql, map[], lib) == Success(HttpRequest(
      "POST", "http://localhost:8000/sql",
      map["Accept" := ApplicationJson, "Content-Type" := ApplicationJson, "NS" := "test", "DB" := "test"],
      Utf8.Encode(sql)))
  {
    var cfg := LegacyLocal();
    assert Headers(cfg) == VersionHeaders(cfg);
    QueryUrlMarksVars(cfg.url, map[], lib);
    assert QueryUrl(cfg.url, map[], lib) == "http://localhost:8000/sql";
  }

  /** Such a query answered with 200 returns the decoded rows of the reply. */
  lemma LegacyQuery(sql: string, lib: Library, transport: HttpRequest -> Exchange, rows: seq<QueryResult>)
    requires EncodesEmptyExactlyWhenNoPairs(lib.encodeQuery)
    requires lib.newRequestError("POST", "http://localhost:8000/sql").None?
    requires var req := QueryRequest(LegacyLocal(), sql, map[], lib);
      req.Success? && transport(req.value).Received? && transport(req.value).status == 200
      && lib.unmarshalResults(transport(req.value).body) == Success(rows)
    ensures QueryOutcome(LegacyLocal(), sql, map[], lib, transport) == Success(rows)
  {
    LegacyQueryRequest(sql, lib);
  }

  /** A 403 reply with an error body is returned as the server wrote it. */
  lemma ForbiddenQuery(cfg: Config, sql: string, lib: Library, transport: HttpRequest -> Exchange, e: RequestError)
    requires var req := QueryRequest(cfg, sql, map[], lib);
      req.Success? && transport(req.value).Received? && transport(req.value).status == 403
      && lib.unmarshalError(transport(req.value).body) == Success(e)
    ensures QueryOutcome(cfg, sql, map[], lib, transport) == Failure(e)
  {
    QueryOutcomeClassified(cfg, sql, map[], lib, transport);
  }

  /** Sign-in answered with code 200 and a token returns that token; any
      other code is refused with the reply's details as information. */
  lemma SigninReplies(cfg: Config, v: SigninVars, lib: Library, transport: HttpRequest -> Exchange,
                      res: AuthenticationResult)
    requires var req := SignRequest(cfg, "/signin", v, lib);
      req.Success? && transport(req.value).Received? && transport(req.value).status == 200
      && lib.unmarshalAuth(transport(req.value).body) == Success(res)
    ensures res.code == 200 && res.token.Some? ==> SignOutcome(cfg, "/signin", v, lib, transport) == Signed(res.token.value)
    ensures res.code != 200 ==>
      var r := SignOutcome(cfg, "/signin", v, lib, transport);
      r.Refused? && r.error.code == 500 && r.error.information == res.details
  {
  }
}
