/**
 * The parsed JSON documents the orchestrators consult, and the helpers that
 * produce them. `JsonUtils`, `HttpUtils` and `URLUtils` are not part of this
 * model: what they extract from a discovery document is a field of
 * `Document`, and every parser is a function passed in, whose `None` stands
 * for the exception the helper throws.
 */
module Documents {
  import opened Wrappers
  import opened Url

  /** The `error`, `error_description` and `error_uri` of an error reply. */
  datatype ErrorResponse = ErrorResponse(
    error: Option<string>,
    errorDescription: Option<string>,
    errorUri: Option<string>)

  /** What `parseOperatorIdentifiedDiscoveryResult` reads from a discovery document. */
  datatype OperatorEndpoints = OperatorEndpoints(
    clientId: string,
    clientSecret: string,
    authorizationHref: Option<string>,
    tokenHref: Option<string>)

  /**
   * A parsed discovery document, seen through the helpers that read it:
   * `ttlHint` is `getDiscoveryResponseTtl`, `operatorSelectionUrl` is
   * `extractUrl` for the operator-selection link, `error` is
   * `getErrorResponse` and `operatorIdentified` is
   * `parseOperatorIdentifiedDiscoveryResult` (`None` when the document does
   * not identify an operator).
   */
  datatype Document = Document(
    ttlHint: Option<int>,
    operatorSelectionUrl: Option<string>,
    error: Option<ErrorResponse>,
    operatorIdentified: Option<OperatorEndpoints>)

  /** The fields of a token-endpoint reply, as `parseRequestTokenResponse` returns them. */
  datatype TokenData = TokenData(fields: seq<Param>)

  /** An id_token as `createParsedIdToken` returns it. */
  datatype IdToken = IdToken(claims: seq<Param>)

  /**
   * The helpers: `parseJson`, `URLUtils::getGetParamsAsArray`,
   * `HttpUtils::extractParameters`, `JsonUtils::parseRequestTokenResponse`
   * (given the current time) and `JsonUtils::createParsedIdToken`.
   */
  datatype Parsers = Parsers(
    parseJson: string -> Option<Document>,
    getGetParams: string -> seq<Param>,
    extractParameters: string -> Option<seq<Param>>,
    parseRequestTokenResponse: (int, string) -> Option<TokenData>,
    createParsedIdToken: string -> Option<IdToken>)
}
