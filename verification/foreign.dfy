/** What the client takes from Go's standard library and from the network,
    given to the model as inputs rather than defined by it. */
module Foreign {
  import opened Wrappers
  import opened Utf8
  import opened Types

  /** One field per library call whose behaviour lies outside this model:
      `format` is `fmt.Sprintf("%v", v)`, `encodeQuery` is `url.Values.Encode`,
      `marshal` is `json.Marshal` of a payload map (its error text on failure),
      `newRequestError` is the error `http.NewRequest(method, url, ...)` returns,
      if any, and the three `unmarshal` fields are `json.Unmarshal` into a
      `RequestError`, a `[]QueryResult` and an `AuthenticationResult`. */
  datatype Library = Library(
    format: Value -> string,
    encodeQuery: map<string, seq<string>> -> string,
    marshal: map<string, Value> -> Result<seq<Byte>, string>,
    newRequestError: (string, string) -> Option<string>,
    unmarshalError: seq<Byte> -> Result<RequestError, string>,
    unmarshalResults: seq<Byte> -> Result<seq<QueryResult>, string>,
    unmarshalAuth: seq<Byte> -> Result<AuthenticationResult, string>)

  /** What sending one request produced: `client.Do` failed (a connection
      error or the 30-second timeout), reading the body failed, or a status
      code and the body bytes arrived. */
  datatype Exchange =
    | TransportFailed(message: string)
    | ReadFailed(message: string)
    | Received(status: int, body: seq<Byte>)

  /** `url.Values.Encode` writes one `key=value` item per value, so its
      output is empty exactly when no key holds a value. */
  ghost predicate EncodesEmptyExactlyWhenNoPairs(encode: map<string, seq<string>> -> string) {
    forall vs: map<string, seq<string>> ::
      encode(vs) == "" <==> forall k :: k in vs ==> vs[k] == []
  }
}
