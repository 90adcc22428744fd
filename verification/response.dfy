/** Response classification (`processRequest`, main.go:159-198) and the error
    the client synthesises itself. */
module Response {
  import opened Wrappers
  import opened Utf8
  import opened Types
  import opened Foreign

  const StatusOK: int := 200

  /** The code of every error the client builds itself. */
  const LocalErrorCode: int := 500

  const ProblemDetails: string := "Request problems detected"
  const ProblemDescription: string :=
    "There is a problem with your request. Refer to the documentation for further information."
  const ReadDetails: string := "Failed to read response body"
  const ReadDescription: string := "There was an error reading the response body."

  /** The generic local error, carrying the failing call's message. */
  function RequestProblem(information: string): RequestError {
    RequestError(LocalErrorCode, ProblemDetails, ProblemDescription, information)
  }

  /** `e` is the server's own error: it answered with a status other than 200
      and a body that decodes as an error record equal to `e`. */
  predicate IsServerError(ex: Exchange, lib: Library, e: RequestError) {
    ex.Received? && ex.status != StatusOK && lib.unmarshalError(ex.body) == Success(e)
  }

  /** The body of a 200 reply; otherwise the server's error as decoded, or a
      local code-500 error carrying the message of what failed. */
  function ProcessRequest(ex: Exchange, lib: Library): (r: Result<seq<Byte>, RequestError>)
    ensures r.Success? <==> ex.Received? && ex.status == StatusOK
    ensures r.Success? ==> r.value == ex.body
    ensures ex.Received? && ex.status != StatusOK && lib.unmarshalError(ex.body).Success? ==>
      r == Failure(lib.unmarshalError(ex.body).value)
    ensures r.Failure? && !IsServerError(ex, lib, r.error) ==> r.error.code == LocalErrorCode
    ensures ex.TransportFailed? || ex.ReadFailed? ==> r.Failure? && r.error.information == ex.message
    ensures ex.Received? && ex.status != StatusOK && lib.unmarshalError(ex.body).Failure? ==>
      r.Failure? && r.error.information == lib.unmarshalError(ex.body).error
  {
    match ex
    case TransportFailed(message) => Failure(RequestProblem(message))
    case ReadFailed(message) =>
      Failure(RequestError(LocalErrorCode, ReadDetails, ReadDescription, message))
    case Received(status, body) =>
      if status != StatusOK then
        match lib.unmarshalError(body)
        case Failure(message) => Failure(RequestProblem(message))
        case Success(e) => Failure(e)
      else
        Success(body)
  }
}
