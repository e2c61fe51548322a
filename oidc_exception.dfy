/**
 * `OIDCException` and the two helpers of `OIDCImpl` that build one from a
 * REST failure.
 *
 * The constructor's parameters are positional: `(message, exception, uri,
 * responseCode, array headers, contents)`. PHP refuses a non-array, non-null
 * value for the `array`-hinted `headers` with a `TypeError`, and the second
 * argument is neither stored nor chained.
 */
module OidcException {
  import opened Wrappers
  import opened Rest

  /** An exception passed as a value. */
  datatype ExceptionValue = RestError(rest: RestException) | OtherError(cause: Cause)

  /**
   * The `\Exception` a `catch` block hands to the constructor. Its message is
   * not modelled, because the constructor never stores it.
   */
  const CaughtException: ExceptionValue := OtherError(Cause("caught exception"))

  /** The dynamically typed values the SDK passes to the constructor. */
  datatype PhpValue =
    | Null
    | Str(s: string)
    | Int(i: int)
    | HeadersObject(entries: seq<Header>)   // a Zend `Headers` object
    | HeaderArray(items: seq<Header>)       // a PHP array, such as `Headers::toArray()`
    | Exc(e: ExceptionValue)

  datatype OIDCException = OIDCException(
    message: string,
    uri: PhpValue,
    responseCode: PhpValue,
    headers: Option<seq<Header>>,
    contents: PhpValue)

  /** PHP's `TypeError` for the argument at the given position. */
  datatype TypeError = TypeError(position: nat)

  function OptionalString(v: Option<string>): (p: PhpValue)
    ensures v.None? <==> p.Null?
    ensures v.Some? ==> p == Str(v.value)
  {
    if v.None? then Null else Str(v.value)
  }

  /** The `OIDCException` constructor, with PHP's check of the `array` type hint. */
  function NewOIDCException(message: string, exception: PhpValue := Null, uri: PhpValue := Null,
                            responseCode: PhpValue := Int(0), headers: PhpValue := Null,
                            contents: PhpValue := Null): (r: Result<OIDCException, TypeError>)
    ensures r.Success? <==> headers.Null? || headers.HeaderArray?
    ensures r.Failure? ==> r.error == TypeError(5)
    ensures r.Success? ==>
      && r.value.message == message
      && r.value.uri == uri
      && r.value.responseCode == responseCode
      && r.value.contents == contents
      && (r.value.headers.None? <==> headers.Null?)
      && (headers.HeaderArray? ==> r.value.headers == Some(headers.items))
  {
    match headers
    case Null => Success(OIDCException(message, uri, responseCode, None, contents))
    case HeaderArray(items) => Success(OIDCException(message, uri, responseCode, Some(items), contents))
    case _ => Failure(TypeError(5))
  }

  /** Omitted trailing arguments: response code 0, everything else null. */
  lemma NewOIDCExceptionDefaults(message: string, exception: PhpValue)
    ensures NewOIDCException(message, exception)
         == Success(OIDCException(message, Null, Int(0), None, Null))
  {
  }

  /** The second argument has no effect on the exception built. */
  lemma ExceptionArgumentDropped(message: string, x1: PhpValue, x2: PhpValue, uri: PhpValue,
                                 responseCode: PhpValue, headers: PhpValue, contents: PhpValue)
    ensures NewOIDCException(message, x1, uri, responseCode, headers, contents)
         == NewOIDCException(message, x2, uri, responseCode, headers, contents)
  {
  }

  /**
   * `newOIDCExceptionFromRestException` as written: the exception's uri,
   * status, headers, contents and the exception itself are passed in the
   * slots of `exception`, `uri`, `responseCode`, `headers` and `contents`.
   */
  function NewOIDCExceptionFromRestExceptionAsWritten(message: string, e: RestException)
    : (r: Result<OIDCException, TypeError>)
    ensures r.Success? <==> e.contents.None?
  {
    NewOIDCException(message, OptionalString(e.uri), Int(e.statusCode),
      if e.headers.None? then Null else HeadersObject(e.headers.value),
      OptionalString(e.contents), Exc(RestError(e)))
  }

  /**
   * As written, a REST failure that carries a body becomes a `TypeError`, and
   * one without a body yields an exception whose `getUri()` is the status
   * code, whose `getResponseCode()` is the headers and whose `getContents()`
   * is the REST exception.
   */
  lemma FromRestExceptionAsWrittenShifts(message: string, e: RestException)
    ensures e.contents.Some? ==> NewOIDCExceptionFromRestExceptionAsWritten(message, e).Failure?
    ensures e.contents.None? ==>
      var r := NewOIDCExceptionFromRestExceptionAsWritten(message, e).value;
      && r.uri == Int(e.statusCode)
      && r.responseCode == (if e.headers.None? then Null else HeadersObject(e.headers.value))
      && r.headers.None?
      && r.contents == Exc(RestError(e))
  {
  }

  /** A token endpoint that answers 400 with a body shows the shift. */
  lemma FromRestExceptionAsWrittenCounterexample()
    ensures NewOIDCExceptionFromRestExceptionAsWritten("Call to Token end point failed",
      RestException("bad request", None, Some("https://op.example/token"), 400, Some([]), Some("{}")))
      == Failure(TypeError(5))
  {
  }

  /**
   * `newOIDCExceptionFromRestException` with the arguments in the order the
   * constructor declares and the headers as an array: the exception always
   * builds and carries the REST exception's diagnostic fields unchanged.
   */
  function NewOIDCExceptionFromRestException(message: string, e: RestException)
    : (r: Result<OIDCException, TypeError>)
    ensures r.Success?
    ensures r.value.message == message
    ensures r.value.uri == OptionalString(e.uri)
    ensures r.value.responseCode == Int(e.statusCode)
    ensures r.value.headers == e.headers
    ensures r.value.contents == OptionalString(e.contents)
  {
    NewOIDCException(message, Exc(RestError(e)), OptionalString(e.uri), Int(e.statusCode),
      if e.headers.None? then Null else HeaderArray(e.headers.value),
      OptionalString(e.contents))
  }

  /**
   * `newOIDCExceptionWithRestResponse` as written: with a response, the same
   * shift puts the response body in the `array`-hinted slot.
   */
  function NewOIDCExceptionWithRestResponseAsWritten(message: string, response: Option<RestResponse>,
                                                     ex: ExceptionValue)
    : (r: Result<OIDCException, TypeError>)
    ensures response.None? ==> r == Success(OIDCException(message, Null, Int(0), None, Null))
  {
    match response
    case None => NewOIDCException(message, Exc(ex))
    case Some(rr) => NewOIDCException(message, Str(rr.uri), Int(rr.statusCode),
                       HeadersObject(rr.headers), Str(rr.response), Exc(ex))
  }

  /** As written, every call with a response ends in a `TypeError`. */
  lemma WithRestResponseAsWrittenFails(message: string, response: RestResponse, ex: ExceptionValue)
    ensures NewOIDCExceptionWithRestResponseAsWritten(message, Some(response), ex) == Failure(TypeError(5))
  {
  }

  /**
   * `newOIDCExceptionWithRestResponse` with the constructor's argument order:
   * the response's fields, when there is one, reach the matching getters.
   */
  function NewOIDCExceptionWithRestResponse(message: string, response: Option<RestResponse>,
                                            ex: ExceptionValue)
    : (r: Result<OIDCException, TypeError>)
    ensures r.Success? && r.value.message == message
    ensures response.None? ==> r.value == OIDCException(message, Null, Int(0), None, Null)
    ensures response.Some? ==>
      && r.value.uri == Str(response.value.uri)
      && r.value.responseCode == Int(response.value.statusCode)
      && r.value.headers == Some(response.value.headers)
      && r.value.contents == Str(response.value.response)
  {
    match response
    case None => NewOIDCException(message, Exc(ex))
    case Some(rr) => NewOIDCException(message, Exc(ex), Str(rr.uri), Int(rr.statusCode),
                       HeaderArray(rr.headers), Str(rr.response))
  }
}
