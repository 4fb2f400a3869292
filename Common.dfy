/** Values shared by every screen: optional values, chip colours, the shape of an
    HTTP client error and of the outcome of one network call, and list edits. */
module Common {

  /** JavaScript's `null`/`undefined` next to a present value. */
  datatype Option<+T> = None | Some(value: T)
  {
    /** `x || fallback` for a value that is falsy only when absent. */
    function GetOr(fallback: T): T
    {
      if Some? then value else fallback
    }
  }

  /** A step that either returns a value or throws the error that ends its handler. */
  datatype Try<+T> = Returned(value: T) | Thrown(error: HttpError)

  /** The colours a Material UI chip is given by the list screens. */
  datatype Color = Default | Info | Success | Warning | Error

  /** What a screen reads of an error response's body
      (`err.response.data.error`, `err.response.data.message`). */
  datatype ErrorBody = ErrorBody(error: Option<string>, message: Option<string>)

  /** A rejected HTTP call: the client's `code` ("ECONNABORTED" when the timeout
      fired), the `response` (absent when no reply arrived at all) and `message`. */
  datatype HttpError = HttpError(code: Option<string>, response: Option<ErrorBody>, message: string)

  /** The outcome of one network call, supplied from outside the model:
      the response body, or the error the call was rejected with. */
  datatype Reply<+T> = Ok(data: T) | Fail(err: HttpError)

  /** JavaScript truthiness of an optional string: present and not "". */
  predicate Truthy(s: Option<string>)
  {
    s.Some? && s.value != ""
  }

  /** The three ways the list screens tell a failed fetch apart. */
  datatype FetchFailure = TimedOut | NoResponse | ServerError

  const TimeoutCode := "ECONNABORTED"

  /** The precedence both list screens use: the timeout code first, then a
      missing response, and only then a server-side failure. */
  function Classify(e: HttpError): (f: FetchFailure)
    ensures f == TimedOut <==> e.code == Some(TimeoutCode)
    ensures f == NoResponse <==> e.code != Some(TimeoutCode) && e.response.None?
    ensures f == ServerError <==> e.code != Some(TimeoutCode) && e.response.Some?
  {
    if e.code == Some(TimeoutCode) then TimedOut
    else if e.response.None? then NoResponse
    else ServerError
  }

  const TimeoutMessage := "Request timed out. Please check if the backend server is running."
  const NetworkMessage := "Network error. Please check if the backend server is running at http://localhost:5000"

  /** The message a list screen shows for a failed fetch: fixed texts for a
      timeout and for a missing response, the screen's own `generic` text for
      an error the server answered with. */
  function ListFetchError(e: HttpError, generic: string): (m: string)
    ensures Classify(e) == TimedOut ==> m == TimeoutMessage
    ensures Classify(e) == NoResponse ==> m == NetworkMessage
    ensures Classify(e) == ServerError ==> m == generic
  {
    match Classify(e)
    case TimedOut => TimeoutMessage
    case NoResponse => NetworkMessage
    case ServerError => generic
  }

  /** `s.filter((_, index) => index !== i)` for an index inside the list. */
  function RemoveAt<T>(s: seq<T>, i: nat): (r: seq<T>)
    requires i < |s|
    ensures |r| == |s| - 1
    ensures forall j :: 0 <= j < i ==> r[j] == s[j]
    ensures forall j :: i <= j < |r| ==> r[j] == s[j + 1]
  {
    s[..i] + s[i + 1..]
  }
}
