/**
 * The REST layer as the orchestrators see it: the `RestResponse` value with
 * its JSON content-type detection, the `RestException` value with its field
 * selection, and the REST client as an oracle that records every call.
 */
module Rest {
  import opened Wrappers
  import opened Strings
  import opened Constants

  /** One entry of a Zend `Headers::toArray()`: a header name and its value. */
  type Header = (string, string)

  /** `RestResponse`: its fields never change after construction. */
  datatype RestResponse = RestResponse(
    uri: string,
    statusCode: int,
    headers: seq<Header>,
    response: string,
    jsonContent: bool)

  /**
   * The first header whose name is `Content-Type`, ignoring case, decides:
   * the response is JSON iff that header's value contains `application/json`,
   * ignoring case. Later headers with the same name are ignored.
   */
  predicate JsonContent(headers: seq<Header>)
  {
    if headers == [] then false
    else if EqualsIgnoreCase(ContentTypeHeaderName, headers[0].0) then
      ContainsIgnoreCase(headers[0].1, AcceptJsonHeaderValue)
    else JsonContent(headers[1..])
  }

  predicate IsContentType(h: Header)
  {
    EqualsIgnoreCase(ContentTypeHeaderName, h.0)
  }

  /** The header at `i` is the first Content-Type header, and its value names JSON. */
  predicate FirstJsonAt(headers: seq<Header>, i: int)
  {
    && 0 <= i < |headers| && IsContentType(headers[i])
    && ContainsIgnoreCase(headers[i].1, AcceptJsonHeaderValue)
    && forall j :: 0 <= j < i ==> !IsContentType(headers[j])
  }

  /**
   * `JsonContent` in terms of positions: JSON iff some header is the first
   * Content-Type header and has a JSON value.
   */
  lemma {:induction false} JsonContentFirstMatch(headers: seq<Header>)
    ensures JsonContent(headers) <==> exists i :: FirstJsonAt(headers, i)
  {
    if headers == [] {
    } else if IsContentType(headers[0]) {
      if JsonContent(headers) {
        assert FirstJsonAt(headers, 0);
      } else {
        forall i ensures !FirstJsonAt(headers, i) {
        }
      }
    } else {
      var tail := headers[1..];
      JsonContentFirstMatch(tail);
      forall i | 0 < i < |headers| ensures FirstJsonAt(headers, i) <==> FirstJsonAt(tail, i - 1) {
        assert tail[i - 1] == headers[i];
        assert (forall j :: 0 <= j < i ==> !IsContentType(headers[j]))
           <==> (forall j :: 0 <= j < i - 1 ==> !IsContentType(tail[j])) by {
          if forall j :: 0 <= j < i - 1 ==> !IsContentType(tail[j]) {
            forall j | 0 < j < i ensures !IsContentType(headers[j]) {
              assert headers[j] == tail[j - 1];
            }
          }
        }
      }
      if JsonContent(headers) {
        var k :| FirstJsonAt(tail, k);
        assert FirstJsonAt(headers, k + 1);
      }
    }
  }

  /** Without any Content-Type header the response is not JSON. */
  lemma {:induction false} NoContentTypeNotJson(headers: seq<Header>)
    requires forall i :: 0 <= i < |headers| ==> !IsContentType(headers[i])
    ensures !JsonContent(headers)
  {
    if headers != [] {
      assert forall i :: 0 <= i < |headers[1..]| ==> !IsContentType(headers[1..][i]) by {
        forall i | 0 <= i < |headers[1..]| ensures !IsContentType(headers[1..][i]) {
          assert headers[1..][i] == headers[i + 1];
        }
      }
      NoContentTypeNotJson(headers[1..]);
    }
  }

  /**
   * The `RestResponse` constructor: stores its arguments and scans the headers
   * in order, stopping at the first Content-Type header.
   */
  method NewRestResponse(uri: string, statusCode: int, headers: seq<Header>, response: string)
    returns (r: RestResponse)
    ensures r.uri == uri && r.statusCode == statusCode
    ensures r.headers == headers && r.response == response
    ensures r.jsonContent == JsonContent(headers)
  {
    var jsonContent := false;
    var i := 0;
    while i < |headers|
      invariant 0 <= i <= |headers|
      invariant !jsonContent
      invariant JsonContent(headers) == JsonContent(headers[i..])
    {
      assert headers[i..][1..] == headers[i + 1..];
      if EqualsIgnoreCase(ContentTypeHeaderName, headers[i].0) {
        jsonContent := ContainsIgnoreCase(headers[i].1, AcceptJsonHeaderValue);
        break;
      }
      i := i + 1;
    }
    r := RestResponse(uri, statusCode, headers, response, jsonContent);
  }

  /** The exception a `RestException` chains as its previous exception. */
  datatype Cause = Cause(message: string)

  /** `RestException`: the message, the chained cause and four diagnostic fields. */
  datatype RestException = RestException(
    message: string,
    previous: Option<Cause>,
    uri: Option<string>,
    statusCode: int,
    headers: Option<seq<Header>>,
    contents: Option<string>)

  /**
   * The `RestException` constructor. Without a response the diagnostic fields
   * are the given uri, status 0 and no headers or contents; with one they all
   * come from the response and the uri argument is ignored.
   */
  function NewRestException(message: string, uri: Option<string> := None,
                            exception: Option<Cause> := None,
                            response: Option<RestResponse> := None): (e: RestException)
    ensures e.message == message && e.previous == exception
    ensures response.None? ==>
      e.uri == uri && e.statusCode == 0 && e.headers.None? && e.contents.None?
    ensures response.Some? ==>
      && e.uri == Some(response.value.uri)
      && e.statusCode == response.value.statusCode
      && e.headers == Some(response.value.headers)
      && e.contents == Some(response.value.response)
  {
    match response
    case None => RestException(message, exception, uri, 0, None, None)
    case Some(r) => RestException(message, exception, Some(r.uri), r.statusCode, Some(r.headers), Some(r.response))
  }

  /** With a response, two different uri arguments give the same exception. */
  lemma UriIgnoredWithResponse(message: string, u1: Option<string>, u2: Option<string>,
                               exception: Option<Cause>, response: RestResponse)
    ensures NewRestException(message, u1, exception, Some(response))
         == NewRestException(message, u2, exception, Some(response))
  {
  }

  /** A response with status 202, no headers and a body. */
  method TestConstructWithResponse(message: string, uri: string, body: string)
    returns (e: RestException)
    ensures e.uri == Some(uri) && e.statusCode == 202
    ensures e.headers == Some([]) && e.contents == Some(body)
  {
    var response := NewRestResponse(uri, 202, [], body);
    e := NewRestException(message, Some(uri), Some(Cause("")), Some(response));
  }

  /** No response: the uri is kept, the status is 0, headers and contents are null. */
  method TestConstructWithNullResponse(message: string, uri: string, withCause: bool)
    returns (e: RestException)
    ensures e.uri == Some(uri) && e.statusCode == 0
    ensures e.headers.None? && e.contents.None?
    ensures e.previous.Some? <==> withCause
  {
    e := NewRestException(message, Some(uri), if withCause then Some(Cause("")) else None, None);
  }

  /** A request parameter value as the SDK hands it to the URI builder. */
  datatype ParamValue = PStr(s: string) | PBool(b: bool) | PNull

  type Cookie = (string, string)

  /**
   * One call of `RestClient::callRestEndPoint`, together with the credentials
   * and realm of the HTTP client context built for it. `uri` is the base
   * given to the URI builder and `params` the parameters added to it, in order.
   */
  datatype Request = Request(
    username: Option<string>,
    password: Option<string>,
    realm: Option<string>,
    uri: Option<string>,
    params: seq<(string, ParamValue)>,
    extraHeaders: seq<(string, Option<string>)>,
    timeout: int,
    cookies: Option<seq<Cookie>>)

  /**
   * The REST client as an oracle: `respond` gives the outcome of the n-th
   * call, and `log` records every request made, so `|log|` counts the calls.
   */
  class RestClient {
    const respond: (nat, Request) -> Result<RestResponse, RestException>
    var log: seq<Request>

    constructor (respond: (nat, Request) -> Result<RestResponse, RestException>)
      ensures this.respond == respond && log == []
    {
      this.respond := respond;
      log := [];
    }

    method CallRestEndPoint(req: Request) returns (r: Result<RestResponse, RestException>)
      modifies this
      ensures log == old(log) + [req]
      ensures r == respond(|old(log)|, req)
    {
      r := respond(|log|, req);
      log := log + [req];
    }
  }
}
