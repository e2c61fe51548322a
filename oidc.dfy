/**
 * `OIDCImpl`: building the OpenID Connect authorization request, reading the
 * authorization response, exchanging the code for tokens and parsing an
 * id_token, all on behalf of an operator found by discovery.
 *
 * Every operation that takes a discovery result refuses an expired one
 * before it looks at any other argument. Callbacks become return values.
 */
module Oidc {
  import opened Wrappers
  import opened Strings
  import opened Url
  import opened Constants
  import opened Rest
  import opened OidcException
  import opened Documents
  import opened Errors
  import opened UriBuilder
  import opened Discovery

  /** `AuthenticationOptions`: the optional authorization-request settings. */
  datatype AuthenticationOptions = AuthenticationOptions(
    display: string,
    prompt: Option<string>,
    uiLocales: Option<string>,
    claimsLocales: Option<string>,
    idTokenHint: Option<string>,
    loginHint: Option<string>,
    dtbs: Option<string>,
    screenMode: string)

  /** `StartAuthenticationResponse`: the URL to send the user to, and how to show it. */
  datatype StartAuthenticationResponse = StartAuthenticationResponse(url: string, screenMode: string)

  /** `ParsedAuthorizationResponse`: the fields of the redirect from the authorization server. */
  datatype ParsedAuthorizationResponse = ParsedAuthorizationResponse(
    error: Option<string>,
    errorDescription: Option<string>,
    errorUri: Option<string>,
    state: Option<string>,
    code: Option<string>)

  /** `RequestTokenResponse`: the parsed token reply with the REST status and headers. */
  datatype RequestTokenResponse = RequestTokenResponse(data: TokenData, responseCode: int, headers: seq<Header>)

  /** An `OIDCException` carrying only a message, as a failure. */
  function OidcError(message: string, exception: PhpValue := Null): (f: Failure)
    ensures f == OidcFailure(OIDCException(message, Null, Int(0), None, Null))
  {
    OidcFailure(NewOIDCException(message, exception).value)
  }

  /** `getScope`: the default scope when none is given. */
  function GetScope(scope: Option<string>): (s: string)
    ensures scope.None? ==> s == DefaultScopeValue
    ensures scope.Some? ==> s == scope.value
  {
    if scope.None? then DefaultScopeValue else scope.value
  }

  /** `getMaxAge`: the default maximum authentication age when none is given. */
  function GetMaxAge(maxAge: Option<int>): (m: int)
    ensures maxAge.None? ==> m == DefaultMaxAgeValue
    ensures maxAge.Some? ==> m == maxAge.value
  {
    if maxAge.None? then DefaultMaxAgeValue else maxAge.value
  }

  /** `getAcrValues`: the default authentication context when none is given. */
  function GetAcrValues(acrValues: Option<string>): (a: string)
    ensures acrValues.None? ==> a == DefaultAcrValuesValue
    ensures acrValues.Some? ==> a == acrValues.value
  {
    if acrValues.None? then DefaultAcrValuesValue else acrValues.value
  }

  /**
   * The `login_hint` sent: the options' login hint if set, otherwise the
   * encrypted MSISDN behind its prefix if given, otherwise none.
   */
  function LoginHint(optionsLoginHint: Option<string>, encryptedMSISDN: Option<string>): (h: Option<string>)
    ensures optionsLoginHint.Some? ==> h == optionsLoginHint
    ensures optionsLoginHint.None? && encryptedMSISDN.Some? ==> h == Some(EncryptedMsisdnPrefix + encryptedMSISDN.value)
    ensures h.None? <==> optionsLoginHint.None? && encryptedMSISDN.None?
  {
    if optionsLoginHint.Some? then optionsLoginHint
    else if encryptedMSISDN.Some? then Some(EncryptedMsisdnPrefix + encryptedMSISDN.value)
    else None
  }

  /** A parameter that is added only when its value is not null. */
  function Opt(name: string, v: Option<string>): (p: seq<Param>)
    ensures v.None? <==> p == []
    ensures v.Some? ==> p == [(name, v.value)]
    ensures ParameterValue(p, name) == v
    ensures NamesIn(p, {name})
  {
    if v.None? then [] else [(name, v.value)]
  }

  /** Every parameter's name is one of `names`. */
  predicate NamesIn(p: seq<Param>, names: set<string>)
  {
    forall i :: 0 <= i < |p| ==> p[i].0 in names
  }

  /** A name outside the names a list uses is not found in it. */
  lemma NotFound(p: seq<Param>, names: set<string>, name: string)
    requires NamesIn(p, names) && name !in names
    ensures ParameterValue(p, name).None?
  {
    ParameterValueNone(p, name);
  }

  /** The five parameters every authorization request starts with. */
  function AuthHead(clientId: string, scope: string, redirectURI: string, acrValues: string): (p: seq<Param>)
    ensures ParameterValue(p, ClientIdParameterName) == Some(clientId)
    ensures ParameterValue(p, ScopeParameterName) == Some(scope)
    ensures NamesIn(p, {ClientIdParameterName, ResponseTypeParameterName, ScopeParameterName,
                        RedirectUriParameterName, AcrValuesParameterName})
  {
    var p := [ (ClientIdParameterName, clientId),
               (ResponseTypeParameterName, ResponseTypeParameterValue),
               (ScopeParameterName, scope),
               (RedirectUriParameterName, redirectURI),
               (AcrValuesParameterName, acrValues) ];
    ParameterValueAt(p, 0);
    ParameterValueAt(p, 2);
    p
  }

  /** The nonce, the display, the prompt if any, and the maximum age. */
  function AuthMiddle(nonce: string, display: string, prompt: Option<string>, maxAge: int): (p: seq<Param>)
    ensures ParameterValue(p, NonceParameterName) == Some(nonce)
    ensures ParameterValue(p, MaxAgeParameterName) == Some(IntToString(maxAge))
    ensures NamesIn(p, {NonceParameterName, DisplayParameterName, PromptParameterName, MaxAgeParameterName})
  {
    var first := [ (NonceParameterName, nonce), (DisplayParameterName, display) ] + Opt(PromptParameterName, prompt);
    var last := [ (MaxAgeParameterName, IntToString(maxAge)) ];
    ParameterValueAt(first, 0);
    ParameterValueAppend(first, last, NonceParameterName);
    NotFound(first, {NonceParameterName, DisplayParameterName, PromptParameterName}, MaxAgeParameterName);
    ParameterValueSkip(first, last, MaxAgeParameterName);
    first + last
  }

  /** The optional locales and the id_token hint, in the order they are added. */
  function AuthLocales(o: AuthenticationOptions): (p: seq<Param>)
    ensures NamesIn(p, {UiLocalesParameterName, ClaimsLocalesParameterName, IdTokenHintParameterName})
  {
    Opt(UiLocalesParameterName, o.uiLocales)
    + Opt(ClaimsLocalesParameterName, o.claimsLocales)
    + Opt(IdTokenHintParameterName, o.idTokenHint)
  }

  /** The locales, the login hint and the dtbs, in the order they are added. */
  function AuthTail(o: AuthenticationOptions, loginHint: Option<string>): (p: seq<Param>)
    ensures ParameterValue(p, LoginHintParameterName) == loginHint
    ensures ParameterValue(p, DtbsParameterName) == o.dtbs
    ensures NamesIn(p, {UiLocalesParameterName, ClaimsLocalesParameterName, IdTokenHintParameterName,
                        LoginHintParameterName, DtbsParameterName})
  {
    var locales := AuthLocales(o);
    var localeNames := {UiLocalesParameterName, ClaimsLocalesParameterName, IdTokenHintParameterName};
    var hint := Opt(LoginHintParameterName, loginHint);
    var dtbs := Opt(DtbsParameterName, o.dtbs);
    NotFound(locales, localeNames, LoginHintParameterName);
    NotFound(locales, localeNames, DtbsParameterName);
    NotFound(hint, {LoginHintParameterName}, DtbsParameterName);
    ParameterValueAppend(locales, hint, LoginHintParameterName);
    ParameterValueAppend(locales + hint, dtbs, LoginHintParameterName);
    ParameterValueAppend(locales, hint, DtbsParameterName);
    ParameterValueAppend(locales + hint, dtbs, DtbsParameterName);
    locales + hint + dtbs
  }

  lemma AppendRegroup(x: seq<Param>, a: seq<Param>, b: seq<Param>, c: seq<Param>)
    ensures x + a + b + c == x + (a + b + c)
  {
  }

  /**
   * The authorization request's parameters (section 3.1.2.1 of OpenID
   * Connect Core 1.0) in the order `startAuthentication` adds them.
   */
  function AuthorizationParams(clientId: string, scope: string, redirectURI: string, acrValues: string,
                               state: Option<string>, nonce: string, maxAge: int,
                               o: AuthenticationOptions, encryptedMSISDN: Option<string>): seq<Param>
  {
    AuthHead(clientId, scope, redirectURI, acrValues)
    + Opt(StateParameterName, state)
    + AuthMiddle(nonce, o.display, o.prompt, maxAge)
    + AuthTail(o, LoginHint(o.loginHint, encryptedMSISDN))
  }

  /**
   * What an authorization server reading the query finds: the client, the
   * scope, the nonce and the maximum age always; the state and the
   * dtbs exactly when given; and the login hint chosen from the options and
   * the encrypted MSISDN.
   */
  lemma AuthorizationParamsLookup(clientId: string, scope: string, redirectURI: string, acrValues: string,
                                  state: Option<string>, nonce: string, maxAge: int,
                                  o: AuthenticationOptions, encryptedMSISDN: Option<string>)
    ensures var p := AuthorizationParams(clientId, scope, redirectURI, acrValues, state, nonce, maxAge, o, encryptedMSISDN);
      && ParameterValue(p, ClientIdParameterName) == Some(clientId)
      && ParameterValue(p, ScopeParameterName) == Some(scope)
      && ParameterValue(p, StateParameterName) == state
      && ParameterValue(p, NonceParameterName) == Some(nonce)
      && ParameterValue(p, MaxAgeParameterName) == Some(IntToString(maxAge))
      && ParameterValue(p, LoginHintParameterName) == LoginHint(o.loginHint, encryptedMSISDN)
      && ParameterValue(p, DtbsParameterName) == o.dtbs
  {
    var head := AuthHead(clientId, scope, redirectURI, acrValues);
    var headNames := {ClientIdParameterName, ResponseTypeParameterName, ScopeParameterName,
                      RedirectUriParameterName, AcrValuesParameterName};
    var st := Opt(StateParameterName, state);
    var mid := AuthMiddle(nonce, o.display, o.prompt, maxAge);
    var midNames := {NonceParameterName, DisplayParameterName, PromptParameterName, MaxAgeParameterName};
    var tail := AuthTail(o, LoginHint(o.loginHint, encryptedMSISDN));
    var tailNames := {UiLocalesParameterName, ClaimsLocalesParameterName, IdTokenHintParameterName,
                      LoginHintParameterName, DtbsParameterName};
    ClientAndScopeLookup(head, st, mid, tail, clientId, scope);
    StateLookup(head, headNames, st, mid, midNames, tail, tailNames, state);
    MiddleLookup(head, headNames, st, mid, tail, nonce, IntToString(maxAge));
    TailLookup(head, headNames, st, mid, midNames, tail, LoginHint(o.loginHint, encryptedMSISDN), o.dtbs);
  }

  lemma ClientAndScopeLookup(head: seq<Param>, st: seq<Param>, mid: seq<Param>, tail: seq<Param>,
                             clientId: string, scope: string)
    requires ParameterValue(head, ClientIdParameterName) == Some(clientId)
    requires ParameterValue(head, ScopeParameterName) == Some(scope)
    ensures ParameterValue(head + st + mid + tail, ClientIdParameterName) == Some(clientId)
    ensures ParameterValue(head + st + mid + tail, ScopeParameterName) == Some(scope)
  {
    ParameterValueAppend(head, st, ClientIdParameterName);
    ParameterValueAppend(head + st, mid, ClientIdParameterName);
    ParameterValueAppend(head + st + mid, tail, ClientIdParameterName);
    ParameterValueAppend(head, st, ScopeParameterName);
    ParameterValueAppend(head + st, mid, ScopeParameterName);
    ParameterValueAppend(head + st + mid, tail, ScopeParameterName);
  }

  lemma StateLookup(head: seq<Param>, headNames: set<string>, st: seq<Param>, mid: seq<Param>,
                    midNames: set<string>, tail: seq<Param>, tailNames: set<string>, state: Option<string>)
    requires NamesIn(head, headNames) && StateParameterName !in headNames
    requires ParameterValue(st, StateParameterName) == state
    requires NamesIn(mid, midNames) && StateParameterName !in midNames
    requires NamesIn(tail, tailNames) && StateParameterName !in tailNames
    ensures ParameterValue(head + st + mid + tail, StateParameterName) == state
  {
    NotFound(head, headNames, StateParameterName);
    NotFound(mid, midNames, StateParameterName);
    NotFound(tail, tailNames, StateParameterName);
    ParameterValueAppend(head, st, StateParameterName);
    ParameterValueAppend(head + st, mid, StateParameterName);
    ParameterValueAppend(head + st + mid, tail, StateParameterName);
  }

  lemma MiddleLookup(head: seq<Param>, headNames: set<string>, st: seq<Param>, mid: seq<Param>,
                     tail: seq<Param>, nonce: string, maxAge: string)
    requires NamesIn(head, headNames)
    requires NonceParameterName !in headNames && MaxAgeParameterName !in headNames
    requires NamesIn(st, {StateParameterName})
    requires ParameterValue(mid, NonceParameterName) == Some(nonce)
    requires ParameterValue(mid, MaxAgeParameterName) == Some(maxAge)
    ensures ParameterValue(head + st + mid + tail, NonceParameterName) == Some(nonce)
    ensures ParameterValue(head + st + mid + tail, MaxAgeParameterName) == Some(maxAge)
  {
    NotFound(head, headNames, NonceParameterName);
    NotFound(st, {StateParameterName}, NonceParameterName);
    NotFound(head, headNames, MaxAgeParameterName);
    NotFound(st, {StateParameterName}, MaxAgeParameterName);
    ParameterValueAppend(head, st, NonceParameterName);
    ParameterValueAppend(head + st, mid, NonceParameterName);
    ParameterValueAppend(head + st + mid, tail, NonceParameterName);
    ParameterValueAppend(head, st, MaxAgeParameterName);
    ParameterValueAppend(head + st, mid, MaxAgeParameterName);
    ParameterValueAppend(head + st + mid, tail, MaxAgeParameterName);
  }

  lemma TailLookup(head: seq<Param>, headNames: set<string>, st: seq<Param>, mid: seq<Param>,
                   midNames: set<string>, tail: seq<Param>, loginHint: Option<string>, dtbs: Option<string>)
    requires NamesIn(head, headNames)
    requires LoginHintParameterName !in headNames && DtbsParameterName !in headNames
    requires NamesIn(st, {StateParameterName})
    requires NamesIn(mid, midNames)
    requires LoginHintParameterName !in midNames && DtbsParameterName !in midNames
    requires ParameterValue(tail, LoginHintParameterName) == loginHint
    requires ParameterValue(tail, DtbsParameterName) == dtbs
    ensures ParameterValue(head + st + mid + tail, LoginHintParameterName) == loginHint
    ensures ParameterValue(head + st + mid + tail, DtbsParameterName) == dtbs
  {
    NotFound(head, headNames, LoginHintParameterName);
    NotFound(st, {StateParameterName}, LoginHintParameterName);
    NotFound(mid, midNames, LoginHintParameterName);
    NotFound(head, headNames, DtbsParameterName);
    NotFound(st, {StateParameterName}, DtbsParameterName);
    NotFound(mid, midNames, DtbsParameterName);
    ParameterValueAppend(head, st, LoginHintParameterName);
    ParameterValueAppend(head + st, mid, LoginHintParameterName);
    ParameterValueAppend(head + st + mid, tail, LoginHintParameterName);
    ParameterValueAppend(head, st, DtbsParameterName);
    ParameterValueAppend(head + st, mid, DtbsParameterName);
    ParameterValueAppend(head + st + mid, tail, DtbsParameterName);
  }

  /** `parseOperatorIdentifiedDiscoveryResult` on the response's document. */
  function OperatorEndpointsOf(d: DiscoveryResponse): (e: Option<OperatorEndpoints>)
    ensures d.responseData.None? ==> e.None?
    ensures d.responseData.Some? ==> e == d.responseData.value.operatorIdentified
  {
    if d.responseData.None? then None else d.responseData.value.operatorIdentified
  }

  /** The argument checks of `validateAuthenticationParameters` after the expiry check. */
  function AuthenticationChecks(redirectURI: Option<string>, nonce: Option<string>): seq<(string, Option<string>)>
  {
    [("redirectURI", redirectURI), ("nonce", nonce)]
  }

  /**
   * `startAuthentication` once the arguments are accepted: the operator's
   * authorization endpoint with the authorization parameters, URL-decoded.
   */
  function AuthenticationOutcome(d: DiscoveryResponse, redirectURI: string, state: Option<string>, nonce: string,
                                 scope: Option<string>, maxAge: Option<int>, acrValues: Option<string>,
                                 encryptedMSISDN: Option<string>, o: AuthenticationOptions)
    : (r: Result<StartAuthenticationResponse, Failure>)
    ensures OperatorEndpointsOf(d).None? ==> r == Failure(OidcError("Not a valid discovery result."))
    ensures OperatorEndpointsOf(d).Some? && OperatorEndpointsOf(d).value.authorizationHref.None? ==>
      r == Failure(OidcError("No authorization href"))
    ensures r.Success? <==> OperatorEndpointsOf(d).Some? && OperatorEndpointsOf(d).value.authorizationHref.Some?
    ensures r.Success? ==>
      && OperatorEndpointsOf(d).Some? && OperatorEndpointsOf(d).value.authorizationHref.Some?
      && r.value.screenMode == o.screenMode
      && var href := OperatorEndpointsOf(d).value.authorizationHref.value;
         r.value.url == UrlDecode(href) + "?" + Query(AuthorizationParams(
           OperatorEndpointsOf(d).value.clientId, GetScope(scope), redirectURI, GetAcrValues(acrValues),
           state, nonce, GetMaxAge(maxAge), o, encryptedMSISDN))
  {
    match OperatorEndpointsOf(d)
    case None => Failure(OidcError("Not a valid discovery result."))
    case Some(ep) =>
      match ep.authorizationHref
      case None => Failure(OidcError("No authorization href"))
      case Some(href) =>
        Success(StartAuthenticationResponse(
          UrlDecode(href) + "?" + Query(AuthorizationParams(ep.clientId, GetScope(scope), redirectURI,
            GetAcrValues(acrValues), state, nonce, GetMaxAge(maxAge), o, encryptedMSISDN)),
          o.screenMode))
  }

  /**
   * `startAuthentication`: an expired discovery result is refused first,
   * then a missing redirect URI or nonce; the URL is built by adding the
   * parameters one by one to a URI builder and decoding its output.
   */
  method StartAuthentication(discoveryResult: DiscoveryResponse, redirectURI: Option<string>,
                             state: Option<string>, nonce: Option<string>, scope: Option<string>,
                             maxAge: Option<int>, acrValues: Option<string>, encryptedMSISDN: Option<string>,
                             options: AuthenticationOptions, now: int)
    returns (r: Result<StartAuthenticationResponse, Failure>)
    ensures discoveryResult.HasExpired(now) ==> r == Failure(DiscoveryResponseExpired)
    ensures !discoveryResult.HasExpired(now) && FirstMissing(AuthenticationChecks(redirectURI, nonce)).Some? ==>
      r == Failure(InvalidArgument(FirstMissing(AuthenticationChecks(redirectURI, nonce)).value))
    ensures (&& !discoveryResult.HasExpired(now) && FirstMissing(AuthenticationChecks(redirectURI, nonce)).None?
             && redirectURI.Some? && nonce.Some?) ==>
      r == AuthenticationOutcome(discoveryResult, redirectURI.value, state, nonce.value, scope, maxAge,
                                 acrValues, encryptedMSISDN, options)
  {
    if discoveryResult.HasExpired(now) {
      return Failure(DiscoveryResponseExpired);
    }
    var checks := AuthenticationChecks(redirectURI, nonce);
    var missing := FirstMissing(checks);
    if missing.Some? {
      return Failure(InvalidArgument(missing.value));
    }
    assert checks[0].1 == redirectURI && checks[1].1 == nonce;
    var scopeToUse := GetScope(scope);
    var maxAgeToUse := GetMaxAge(maxAge);
    var acrValuesToUse := GetAcrValues(acrValues);

    var parsed := OperatorEndpointsOf(discoveryResult);
    if parsed.None? {
      return Failure(OidcError("Not a valid discovery result."));
    }
    var authorizationHref := parsed.value.authorizationHref;
    if authorizationHref.None? {
      return Failure(OidcError("No authorization href"));
    }

    var url := BuildAuthenticationUrl(authorizationHref.value, parsed.value.clientId, scopeToUse, redirectURI.value,
                                      acrValuesToUse, state, nonce.value, maxAgeToUse, options, encryptedMSISDN);
    r := Success(StartAuthenticationResponse(url, options.screenMode));
  }

  /**
   * The URI builder steps of `startAuthentication` and `buildUrl`: each
   * parameter is added in turn, the optional ones only when set, and the
   * built URL is decoded.
   */
  method BuildAuthenticationUrl(href: string, clientId: string, scope: string, redirectURI: string,
                                acrValues: string, state: Option<string>, nonce: string, maxAge: int,
                                options: AuthenticationOptions, encryptedMSISDN: Option<string>)
    returns (url: string)
    ensures url == UrlDecode(href) + "?" + Query(AuthorizationParams(clientId, scope, redirectURI, acrValues,
                                                                     state, nonce, maxAge, options, encryptedMSISDN))
  {
    var builder := new URIBuilder(href);
    AddAuthHead(builder, clientId, scope, redirectURI, acrValues);
    assert builder.params == AuthHead(clientId, scope, redirectURI, acrValues);
    if state.Some? {
      builder.AddParameter(StateParameterName, state.value);
    }
    assert builder.params == AuthHead(clientId, scope, redirectURI, acrValues) + Opt(StateParameterName, state);
    AddAuthMiddle(builder, nonce, options.display, options.prompt, maxAge);
    AddAuthTail(builder, options, encryptedMSISDN);
    assert builder.params == AuthorizationParams(clientId, scope, redirectURI, acrValues,
                                                 state, nonce, maxAge, options, encryptedMSISDN);
    url := UrlDecode(builder.Build());
  }

  method AddAuthHead(builder: URIBuilder, clientId: string, scope: string, redirectURI: string, acrValues: string)
    modifies builder
    ensures builder.params == old(builder.params) + AuthHead(clientId, scope, redirectURI, acrValues)
  {
    builder.AddParameter(ClientIdParameterName, clientId);
    builder.AddParameter(ResponseTypeParameterName, ResponseTypeParameterValue);
    builder.AddParameter(ScopeParameterName, scope);
    builder.AddParameter(RedirectUriParameterName, redirectURI);
    builder.AddParameter(AcrValuesParameterName, acrValues);
  }

  method AddAuthMiddle(builder: URIBuilder, nonce: string, display: string, prompt: Option<string>, maxAge: int)
    modifies builder
    ensures builder.params == old(builder.params) + AuthMiddle(nonce, display, prompt, maxAge)
  {
    builder.AddParameter(NonceParameterName, nonce);
    builder.AddParameter(DisplayParameterName, display);
    if prompt.Some? {
      builder.AddParameter(PromptParameterName, prompt.value);
    }
    builder.AddParameter(MaxAgeParameterName, IntToString(maxAge));
  }

  method AddAuthTail(builder: URIBuilder, options: AuthenticationOptions, encryptedMSISDN: Option<string>)
    modifies builder
    ensures builder.params == old(builder.params) + AuthTail(options, LoginHint(options.loginHint, encryptedMSISDN))
  {
    ghost var before := builder.params;
    if options.uiLocales.Some? {
      builder.AddParameter(UiLocalesParameterName, options.uiLocales.value);
    }
    if options.claimsLocales.Some? {
      builder.AddParameter(ClaimsLocalesParameterName, options.claimsLocales.value);
    }
    if options.idTokenHint.Some? {
      builder.AddParameter(IdTokenHintParameterName, options.idTokenHint.value);
    }
    assert builder.params == before + AuthLocales(options);
    if options.loginHint.Some? {
      builder.AddParameter(LoginHintParameterName, options.loginHint.value);
    } else if encryptedMSISDN.Some? {
      builder.AddParameter(LoginHintParameterName, EncryptedMsisdnPrefix + encryptedMSISDN.value);
    }
    ghost var hint := Opt(LoginHintParameterName, LoginHint(options.loginHint, encryptedMSISDN));
    assert builder.params == before + AuthLocales(options) + hint;
    if options.dtbs.Some? {
      builder.AddParameter(DtbsParameterName, options.dtbs.value);
    }
    AppendRegroup(before, AuthLocales(options), hint, Opt(DtbsParameterName, options.dtbs));
  }

  /**
   * `parseAuthenticationResponse`: each field is the first query parameter of
   * that name (section 4.1.2 and 4.1.2.1 of RFC 6749), or null; a URL whose
   * parameters cannot be extracted becomes an `OIDCException`.
   */
  function ParseAuthenticationResponse(parsers: Parsers, redirectURL: Option<string>)
    : (r: Result<ParsedAuthorizationResponse, Failure>)
    ensures Missing(redirectURL) ==> r == Failure(InvalidArgument("redirectURL"))
    ensures !Missing(redirectURL) && parsers.extractParameters(redirectURL.value).None? ==>
      r == Failure(OidcError("Invalid URI"))
    ensures r.Success? <==> !Missing(redirectURL) && parsers.extractParameters(redirectURL.value).Some?
    ensures r.Success? ==>
      && !Missing(redirectURL) && parsers.extractParameters(redirectURL.value).Some?
      && var params := parsers.extractParameters(redirectURL.value).value;
      && r.value.error == ParameterValue(params, ErrorName)
      && r.value.errorDescription == ParameterValue(params, ErrorDescriptionName)
      && r.value.errorUri == ParameterValue(params, ErrorUriName)
      && r.value.state == ParameterValue(params, StateParameterName)
      && r.value.code == ParameterValue(params, CodeParameterName)
  {
    if Missing(redirectURL) then Failure(InvalidArgument("redirectURL"))
    else
      match parsers.extractParameters(redirectURL.value)
      case None => Failure(OidcError("Invalid URI"))
      case Some(params) =>
        Success(ParsedAuthorizationResponse(
          ParameterValue(params, ErrorName),
          ParameterValue(params, ErrorDescriptionName),
          ParameterValue(params, ErrorUriName),
          ParameterValue(params, StateParameterName),
          ParameterValue(params, CodeParameterName)))
  }

  /** A successful authorization redirect yields its code and state, and no error. */
  lemma ParseAuthorizationCodeResponse(parsers: Parsers, url: string, code: string, state: string)
    requires url != ""
    requires parsers.extractParameters(url) == Some([(CodeParameterName, code), (StateParameterName, state)])
    ensures ParseAuthenticationResponse(parsers, Some(url))
         == Success(ParsedAuthorizationResponse(None, None, None, Some(state), Some(code)))
  {
    var params := [(CodeParameterName, code), (StateParameterName, state)];
    ParameterValueAt(params, 0);
    ParameterValueAt(params, 1);
    ParameterValueNone(params, ErrorName);
    ParameterValueNone(params, ErrorDescriptionName);
    ParameterValueNone(params, ErrorUriName);
  }

  /** The token request's parameters (section 4.1.3 of RFC 6749), in order. */
  function TokenParams(redirectURI: string, code: string): (p: seq<Param>)
    ensures |p| == 3
    ensures ParameterValue(p, RedirectUriParameterName) == Some(redirectURI)
    ensures ParameterValue(p, GrantTypeParameterName) == Some(GrantTypeParameterValue)
    ensures ParameterValue(p, CodeParameterName) == Some(code)
  {
    var p := [ (RedirectUriParameterName, redirectURI),
               (GrantTypeParameterName, GrantTypeParameterValue),
               (CodeParameterName, code) ];
    ParameterValueAt(p, 0);
    ParameterValueAt(p, 1);
    ParameterValueAt(p, 2);
    p
  }

  /** String parameters as the values handed to the REST client. */
  function AsRequestParams(p: seq<Param>): (q: seq<(string, ParamValue)>)
    ensures |q| == |p|
    ensures forall i :: 0 <= i < |p| ==> q[i] == (p[i].0, PStr(p[i].1))
  {
    seq(|p|, i requires 0 <= i < |p| => (p[i].0, PStr(p[i].1)))
  }

  /** The checks of `validateTokenParameters` after the expiry check. */
  function TokenChecks(redirectURI: Option<string>, code: Option<string>): seq<(string, Option<string>)>
  {
    [("redirectURI", redirectURI), ("code", code)]
  }

  /**
   * The token request: the operator's credentials, and the token endpoint as
   * the URI builder renders it with no parameters, which is the href followed
   * by an encoded `?`.
   */
  function TokenRequest(ep: OperatorEndpoints, tokenHref: string, redirectURI: string, code: string,
                        timeout: int): Request
  {
    Request(Some(ep.clientId), Some(ep.clientSecret), Some(tokenHref + "%3F"), Some(tokenHref + "%3F"),
            AsRequestParams(TokenParams(redirectURI, code)), [], timeout, None)
  }

  /**
   * `requestToken` after the REST call: a REST failure becomes an
   * `OIDCException` with the REST exception's diagnostics, a reply that does
   * not parse one without, and a parsed reply carries the REST status code
   * and headers.
   */
  function TokenOutcome(parsers: Parsers, reply: Result<RestResponse, RestException>, now: int)
    : (r: Result<RequestTokenResponse, Failure>)
    ensures reply.Failure? ==>
      && r.Failure? && r.error.OidcFailure?
      && r.error.oidc.message == "Call to Token end point failed"
      && r.error.oidc.uri == OptionalString(reply.error.uri)
      && r.error.oidc.responseCode == Int(reply.error.statusCode)
      && r.error.oidc.headers == reply.error.headers
      && r.error.oidc.contents == OptionalString(reply.error.contents)
    ensures reply.Success? && parsers.parseRequestTokenResponse(now, reply.value.response).None? ==>
      r == Failure(OidcError("Calling Discovery service failed"))
    ensures r.Success? <==> reply.Success? && parsers.parseRequestTokenResponse(now, reply.value.response).Some?
    ensures r.Success? ==>
      && reply.Success? && parsers.parseRequestTokenResponse(now, reply.value.response) == Some(r.value.data)
      && r.value.responseCode == reply.value.statusCode && r.value.headers == reply.value.headers
  {
    match reply
    case Failure(e) => Failure(OidcFailure(NewOIDCExceptionFromRestException("Call to Token end point failed", e).value))
    case Success(resp) =>
      match parsers.parseRequestTokenResponse(now, resp.response)
      case None => Failure(OidcFailure(NewOIDCExceptionWithRestResponse(
                     "Calling Discovery service failed", None, CaughtException).value))
      case Some(data) => Success(RequestTokenResponse(data, resp.statusCode, resp.headers))
  }

  class OIDCImpl {
    const restClient: RestClient
    const parsers: Parsers

    constructor (restClient: RestClient, parsers: Parsers)
      ensures this.restClient == restClient && this.parsers == parsers
    {
      this.restClient := restClient;
      this.parsers := parsers;
    }

    /**
     * `requestToken`: an expired discovery result, a missing argument or a
     * missing token endpoint fails without a REST call; otherwise the token
     * endpoint is called exactly once.
     */
    method RequestToken(discoveryResult: DiscoveryResponse, redirectURI: Option<string>, code: Option<string>,
                        timeout: int, now: int)
      returns (r: Result<RequestTokenResponse, Failure>)
      modifies restClient
      ensures discoveryResult.HasExpired(now) ==>
        r == Failure(DiscoveryResponseExpired) && restClient.log == old(restClient.log)
      ensures !discoveryResult.HasExpired(now) && FirstMissing(TokenChecks(redirectURI, code)).Some? ==>
        && r == Failure(InvalidArgument(FirstMissing(TokenChecks(redirectURI, code)).value))
        && restClient.log == old(restClient.log)
      ensures var ep := OperatorEndpointsOf(discoveryResult);
        !discoveryResult.HasExpired(now) && FirstMissing(TokenChecks(redirectURI, code)).None? ==>
          && (ep.None? ==> r == Failure(OidcError("Not a valid discovery result.")) && restClient.log == old(restClient.log))
          && (ep.Some? && ep.value.tokenHref.None? ==>
                r == Failure(OidcError("No token href")) && restClient.log == old(restClient.log))
      ensures var ep := OperatorEndpointsOf(discoveryResult);
        && !discoveryResult.HasExpired(now) && FirstMissing(TokenChecks(redirectURI, code)).None?
        && redirectURI.Some? && code.Some? && ep.Some? && ep.value.tokenHref.Some? ==>
          var req := TokenRequest(ep.value, ep.value.tokenHref.value, redirectURI.value, code.value, timeout);
          && restClient.log == old(restClient.log) + [req]
          && r == TokenOutcome(parsers, restClient.respond(|old(restClient.log)|, req), now)
    {
      if discoveryResult.HasExpired(now) {
        return Failure(DiscoveryResponseExpired);
      }
      var checks := TokenChecks(redirectURI, code);
      var missing := FirstMissing(checks);
      if missing.Some? {
        return Failure(InvalidArgument(missing.value));
      }
      assert checks[0].1 == redirectURI && checks[1].1 == code;
      var parsed := OperatorEndpointsOf(discoveryResult);
      if parsed.None? {
        return Failure(OidcError("Not a valid discovery result."));
      }
      var tokenURL := parsed.value.tokenHref;
      if tokenURL.None? {
        return Failure(OidcError("No token href"));
      }

      var tokenBuilder := new URIBuilder(tokenURL.value);
      var tokenURI := tokenBuilder.Build();
      assert tokenBuilder.params == [] && Query([]) == "";
      assert UrlEncode("?") == EncodeChar('?') + UrlEncode("");
      assert EncodeChar('?') == "%3F";
      assert tokenURI == tokenURL.value + "%3F";

      var builder := new URIBuilder(tokenURI);
      builder.AddParameter(RedirectUriParameterName, redirectURI.value);
      builder.AddParameter(GrantTypeParameterName, GrantTypeParameterValue);
      builder.AddParameter(CodeParameterName, code.value);
      assert builder.params == TokenParams(redirectURI.value, code.value);

      var req := Request(Some(parsed.value.clientId), Some(parsed.value.clientSecret), Some(tokenURI),
                         Some(builder.base), AsRequestParams(builder.params), [], timeout, None);
      var reply := restClient.CallRestEndPoint(req);
      r := TokenOutcome(parsers, reply, now);
    }
  }

  /**
   * `parseIDToken`: an expired discovery result is refused first, then a
   * missing token; a token the parser refuses becomes an `OIDCException`.
   */
  function ParseIDToken(parsers: Parsers, discoveryResult: DiscoveryResponse, idToken: Option<string>, now: int)
    : (r: Result<IdToken, Failure>)
    ensures discoveryResult.HasExpired(now) ==> r == Failure(DiscoveryResponseExpired)
    ensures !discoveryResult.HasExpired(now) && Missing(idToken) ==> r == Failure(InvalidArgument("id_token"))
    ensures !discoveryResult.HasExpired(now) && !Missing(idToken) ==>
      match parsers.createParsedIdToken(idToken.value)
      case None => r == Failure(OidcError("Not an id_token"))
      case Some(t) => r == Success(t)
  {
    if discoveryResult.HasExpired(now) then Failure(DiscoveryResponseExpired)
    else if Missing(idToken) then Failure(InvalidArgument("id_token"))
    else
      match parsers.createParsedIdToken(idToken.value)
      case None => Failure(OidcError("Not an id_token"))
      case Some(t) => Success(t)
  }

  /**
   * The expiry check comes first: with an expired discovery result every
   * operation fails with the expiry failure, whatever else it is given.
   */
  method ExpiredResultRefusedFirst(discoveryResult: DiscoveryResponse, parsers: Parsers, now: int)
    returns (auth: Result<StartAuthenticationResponse, Failure>, token: Result<RequestTokenResponse, Failure>,
             idToken: Result<IdToken, Failure>, calls: nat)
    requires discoveryResult.HasExpired(now)
    ensures auth == Failure(DiscoveryResponseExpired)
    ensures token == Failure(DiscoveryResponseExpired)
    ensures idToken == Failure(DiscoveryResponseExpired)
    ensures calls == 0
  {
    var options := AuthenticationOptions("page", None, None, None, None, None, None, "popup");
    auth := StartAuthentication(discoveryResult, None, None, None, None, None, None, None, options, now);
    var client := new RestClient((n: nat, req: Request) => Failure(NewRestException("unused")));
    var oidc := new OIDCImpl(client, parsers);
    token := oidc.RequestToken(discoveryResult, None, None, 0, now);
    idToken := ParseIDToken(parsers, discoveryResult, None, now);
    calls := |client.log|;
  }
}
