/** The exceptions the client raises (googlemaps/exceptions.py) together with the
    Python built-in exceptions that escape from its code paths. */
module Exceptions {
  import opened Maybe
  import opened Values
  import Decimal

  datatype Error =
      /** ApiError(status, message); a missing message is None. */
    | ApiError(status: Value, message: Value)
      /** _OverQueryLimit: both an ApiError and a _RetriableRequest. */
    | OverQueryLimit(status: Value, message: Value)
    | RetriableRequest
      /** TransportError(base_exception): the str() of the wrapped exception, if any. */
    | TransportError(base: Option<string>)
      /** HTTPError(status_code), a TransportError. */
    | HTTPError(statusCode: int)
    | Timeout
    | ValueError(msg: string)
    | TypeError(msg: string)
    | KeyError(key: Value)
    | IndexError(msg: string)
    | AttributeError(name: string)
      /** response.json() on a body that is not JSON (a ValueError). */
    | JsonDecodeError
      /** requests' InvalidURL from unquote_unreserved (a ValueError). */
    | InvalidUrl(msg: string)
      /** The ValueError find_place raises for an input type other than
          "textquery" or "phonenumber"; its message quotes the given value. */
    | InvalidInputType(given: Value)
      /** A bare `raise Exception(msg)`, as the Context modules do. */
    | PlainException(msg: string)
      /** Exception("API error: %s" % status), raised by the Context executor. */
    | ApiStatusException(apiStatus: Value)
      /** Exceptions of the requests library that the Context executor lets escape. */
    | RequestsTimeout
    | RequestsFailure(detail: string)
    | RequestsHTTPError(code: int)

  /** A Python call: a value, or the exception it raises. */
  datatype Result<+T> = Ok(value: T) | Err(error: Error)
  {
    predicate IsFailure() {
      Err?
    }

    function PropagateFailure<U>(): Result<U>
      requires Err?
    {
      Err(error)
    }

    function Extract(): T
      requires Ok?
    {
      value
    }
  }

  /** isinstance(e, ApiError) */
  predicate IsApiError(e: Error) {
    e.ApiError? || e.OverQueryLimit?
  }

  /** isinstance(e, _RetriableRequest) */
  predicate IsRetriable(e: Error) {
    e.RetriableRequest? || e.OverQueryLimit?
  }

  /** isinstance(e, TransportError) */
  predicate IsTransportError(e: Error) {
    e.TransportError? || e.HTTPError?
  }

  /** isinstance(e, ValueError) */
  predicate IsValueError(e: Error) {
    e.ValueError? || e.JsonDecodeError? || e.InvalidUrl? || e.InvalidInputType?
  }

  /** The subclass relations of exceptions.py, lines 34-68. */
  lemma Taxonomy(e: Error)
    ensures e.OverQueryLimit? ==> IsApiError(e) && IsRetriable(e)
    ensures e.HTTPError? ==> IsTransportError(e) && !IsApiError(e)
    ensures e.Timeout? ==> !IsApiError(e) && !IsTransportError(e) && !IsRetriable(e)
    ensures e.ApiError? ==> !IsRetriable(e)
  {
  }

  /** str(e) for the client's own exceptions: an API error shows its status
      and message, a transport error the wrapped exception or a fixed text,
      an HTTP error its status code. */
  function ErrorString(e: Error): (r: string)
    ensures e.ApiError? || e.OverQueryLimit? ==> r == ApiErrorString(e.status, e.message)
    ensures e.TransportError? && e.base.Some? ==> r == e.base.value
    ensures e.TransportError? && e.base.None? ==> r == "An unknown error occurred."
    ensures e.HTTPError? ==> |r| > 12 && r[..12] == "HTTP Error: "
  {
    match e
    case ApiError(s, m) => ApiErrorString(s, m)
    case OverQueryLimit(s, m) => ApiErrorString(s, m)
    case TransportError(b) => if b.Some? then b.value else "An unknown error occurred."
    case HTTPError(c) => "HTTP Error: " + Decimal.IntToString(c)
    case ValueError(m) => m
    case TypeError(m) => m
    case IndexError(m) => m
    case InvalidUrl(m) => m
    case InvalidInputType(v) =>
      "Valid values for the `input_type` param for `find_place` are 'textquery' or 'phonenumber', "
      + "the given value is invalid: '" + Render(v) + "'"
    case PlainException(m) => m
    case ApiStatusException(s) => "API error: " + Render(s)
    case RequestsFailure(d) => d
    case KeyError(k) => Repr(k)
    case AttributeError(n) => n
    case _ => ""
  }

  /** str(ApiError): the status, then the message in parentheses when there
      is one; it is the bare status exactly when the message is None. */
  function ApiErrorString(status: Value, message: Value): (r: string)
    ensures r == Render(status) <==> message == NoneV
    ensures |Render(status)| <= |r| && r[..|Render(status)|] == Render(status)
  {
    if message == NoneV then Render(status)
    else
      var r := Render(status) + " (" + Render(message) + ")";
      assert |r| >= |Render(status)| + 3;
      r
  }

  /** The status code is recoverable from the text of an HTTPError. */
  lemma HTTPErrorStringRoundTrip(code: int)
    ensures var s := ErrorString(HTTPError(code));
      |s| > 12 && s[..12] == "HTTP Error: " && Decimal.ParseInt(s[12..]) == Some(code)
  {
    var s := ErrorString(HTTPError(code));
    assert s[12..] == Decimal.IntToString(code);
    Decimal.IntToStringRoundTrip(code);
  }
}
