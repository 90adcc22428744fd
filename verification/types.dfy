/** The records of the client library (main.go:14-82), as values. */
module Types {
  import opened Wrappers

  /** A Go `interface{}` value as this library receives or decodes it: the
      shapes JSON can carry, with Go's untyped nil as `Null`. */
  datatype Value =
    | Null
    | Bool(b: bool)
    | Number(n: int)
    | Str(s: string)
    | Array(items: seq<Value>)
    | Object(fields: map<string, Value>)

  /** Credentials of an authentication method. */
  datatype AuthVars = AuthVars(username: string, password: string, namespace: string, database: string)

  /** `authMethod` (Go: `Method`) is "Root", "Token" or "Scope"; any other string selects no scheme. */
  datatype AuthConfig = AuthConfig(authMethod: string, vars: AuthVars, token: string, scope: string)

  /** The fields of the `Surreal` struct; a nil `Auth` pointer is `None`. */
  datatype Config = Config(url: string, version: string, namespace: string, database: string, auth: Option<AuthConfig>)

  /** One statement's outcome in the reply to `/sql`. */
  datatype QueryResult = QueryResult(result: Value, status: string, time: string)

  /** The error shape: decoded from the server, or built by the client. */
  datatype RequestError = RequestError(code: int, details: string, description: string, information: string)

  /** Sign-in parameters; every pointer field of the Go struct is an Option. */
  datatype SigninVars = SigninVars(
    ns: Option<string>,
    db: Option<string>,
    ac: Option<string>,
    sc: Option<string>,
    vars: Option<map<string, Value>>,
    user: Option<string>,
    pass: Option<string>)

  /** The Go `SignupVars` struct has exactly the fields of `SigninVars`. */
  type SignupVars = SigninVars

  /** The reply to `/signin` and `/signup`. */
  datatype AuthenticationResult = AuthenticationResult(code: int, details: string, token: Option<string>)
}
