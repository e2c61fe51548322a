/**
 * `DiscoveryImpl`: the discovery orchestrator. It validates its parameters,
 * answers from the discovery cache when it can, otherwise calls the
 * discovery service once, turns the reply into a `DiscoveryResponse` and
 * caches it when it identifies an operator.
 *
 * Callbacks become return values: `Success(v)` is `$callback->completed(v)`,
 * `Failure(f)` is the exception thrown.
 */
module Discovery {
  import opened Wrappers
  import opened Strings
  import opened Url
  import opened Constants
  import opened Rest
  import opened Documents
  import opened Errors
  import opened DiscoveryCacheValues
  import opened DiscoveryCache
  import opened ParsedDiscoveryRedirects
  import opened DiscoveryOptionsModule
  import opened Ttl

  /** `DiscoveryResponse`: the outcome of discovery, fresh or rebuilt from the cache. */
  datatype DiscoveryResponse = DiscoveryResponse(
    cached: bool,
    ttl: Option<int>,
    responseCode: int,
    headers: seq<Header>,
    responseData: Option<Document>)
  {
    /** Expired once its time-to-live lies strictly before `now`. */
    predicate HasExpired(now: int)
    {
      ttl.Some? && ttl.value < now
    }
  }

  /** `CacheOptions`: the operator whose cache entry to drop. */
  datatype CacheOptions = CacheOptions(mcc: Option<string>, mnc: Option<string>)

  /** `DiscoveryCacheKey::newWithDetails`: a key only when both parts are non-empty. */
  function CacheKeyFor(mcc: Option<string>, mnc: Option<string>): (k: Option<CacheKey>)
    ensures k.Some? <==> !Missing(mcc) && !Missing(mnc)
    ensures k.Some? ==> k.value == CacheKey(mcc.value, mnc.value)
  {
    if Missing(mcc) || Missing(mnc) then None else Some(CacheKey(mcc.value, mnc.value))
  }

  /**
   * `buildDiscoveryResponseFromCache`: marked cached, response code 0, no
   * headers, and the entry's time-to-live and document.
   */
  function FromCache(v: DiscoveryCacheValue): (d: DiscoveryResponse)
    ensures d.cached && d.responseCode == 0 && d.headers == []
    ensures d.ttl == Some(v.ttl) && d.responseData == Some(v.value)
    ensures d.HasExpired(v.ttl + 1) && !d.HasExpired(v.ttl)
  {
    DiscoveryResponse(true, Some(v.ttl), 0, [], Some(v.value))
  }

  /** What `addCachedValue` lets into the cache. */
  predicate Cacheable(d: DiscoveryResponse)
  {
    d.responseCode == OperatorIdentifiedResponse && d.ttl.Some? && d.responseData.Some?
  }

  /** The cache after `addCachedValue(key, d)`. */
  function CacheAfterAdd(entries: map<CacheKey, DiscoveryCacheValue>, key: Option<CacheKey>,
                         d: Option<DiscoveryResponse>): (m: map<CacheKey, DiscoveryCacheValue>)
    ensures key.Some? && d.Some? && Cacheable(d.value) ==>
      m == entries[key.value := DiscoveryCacheValue(d.value.ttl.value, d.value.responseData.value)]
    ensures !(key.Some? && d.Some? && Cacheable(d.value)) ==> m == entries
  {
    if key.Some? && d.Some? && Cacheable(d.value) then
      entries[key.value := DiscoveryCacheValue(d.value.ttl.value, d.value.responseData.value)]
    else entries
  }

  /** A cached response, when read back, is the value that was stored. */
  lemma CachedValueReadsBack(entries: map<CacheKey, DiscoveryCacheValue>, key: CacheKey, d: DiscoveryResponse)
    requires Cacheable(d)
    ensures key in CacheAfterAdd(entries, Some(key), Some(d))
    ensures FromCache(CacheAfterAdd(entries, Some(key), Some(d))[key])
         == d.(cached := true, responseCode := 0, headers := [])
  {
  }

  /**
   * `isValidDiscoveryResponse`: a document is present and the response is
   * either from the cache or says whether an operator was identified.
   */
  predicate IsValidDiscoveryResponse(d: DiscoveryResponse)
  {
    d.responseData.Some?
      && (d.cached || d.responseCode == OperatorIdentifiedResponse
          || d.responseCode == OperatorNotIdentifiedResponse)
  }

  /** Every response rebuilt from the cache is valid. */
  lemma FromCacheIsValid(v: DiscoveryCacheValue)
    ensures IsValidDiscoveryResponse(FromCache(v))
  {
  }

  /** `extractOperatorSelectionURL`: `None` for an invalid response. */
  function ExtractOperatorSelectionURL(d: DiscoveryResponse): (url: Option<string>)
    ensures !IsValidDiscoveryResponse(d) ==> url.None?
    ensures IsValidDiscoveryResponse(d) ==> url == d.responseData.value.operatorSelectionUrl
  {
    if !IsValidDiscoveryResponse(d) then None else d.responseData.value.operatorSelectionUrl
  }

  /**
   * `isOperatorSelectionRequired`: refuses an invalid response, and is
   * otherwise true iff an operator-selection URL can be extracted.
   */
  function IsOperatorSelectionRequired(d: DiscoveryResponse): (r: Result<bool, Failure>)
    ensures r.Failure? <==> !IsValidDiscoveryResponse(d)
    ensures r.Failure? ==> r.error == InvalidArgument("discoveryResult")
    ensures r.Success? ==> (r.value <==> ExtractOperatorSelectionURL(d).Some?)
  {
    if !IsValidDiscoveryResponse(d) then Failure(InvalidArgument("discoveryResult"))
    else Success(ExtractOperatorSelectionURL(d).Some?)
  }

  /** `getErrorResponse`: the document's error, if there is a document. */
  function GetErrorResponse(d: DiscoveryResponse): (e: Option<ErrorResponse>)
    ensures d.responseData.None? ==> e.None?
    ensures d.responseData.Some? ==> e == d.responseData.value.error
  {
    if d.responseData.None? then None else d.responseData.value.error
  }

  /** `isErrorResponse`. */
  function IsErrorResponse(d: DiscoveryResponse): (b: bool)
    ensures b <==> d.responseData.Some? && d.responseData.value.error.Some?
  {
    GetErrorResponse(d).Some?
  }

  /**
   * `parseDiscoveryRedirect`: the `mcc_mnc` parameter, when present and split
   * by `_` into exactly two parts (empty parts allowed), gives the MCC and
   * MNC; `subscriber_id` is passed through.
   */
  function ParseDiscoveryRedirect(parsers: Parsers, redirectURL: Option<string>)
    : (r: Result<ParsedDiscoveryRedirect, Failure>)
    ensures r.Failure? <==> Missing(redirectURL)
    ensures r.Failure? ==> r.error == InvalidArgument("redirectURL")
    ensures r.Success? ==>
      var params := parsers.getGetParams(redirectURL.value);
      var mccMnc := ParameterValue(params, MccMncParameterName);
      && r.value.encryptedMSISDN == ParameterValue(params, SubscriberIdParameterName)
      && (r.value.selectedMCC.Some? <==> r.value.selectedMNC.Some?)
      && (r.value.HasMCCAndMNC() <==> mccMnc.Some? && Count('_', mccMnc.value) == 1)
      && (r.value.HasMCCAndMNC() ==>
            && r.value.selectedMCC.value + "_" + r.value.selectedMNC.value == mccMnc.value
            && '_' !in r.value.selectedMCC.value && '_' !in r.value.selectedMNC.value)
  {
    if Missing(redirectURL) then Failure(InvalidArgument("redirectURL"))
    else
      var params := parsers.getGetParams(redirectURL.value);
      var mccMnc := ParameterValue(params, MccMncParameterName);
      var subscriberId := ParameterValue(params, SubscriberIdParameterName);
      if mccMnc.Some? && |Explode('_', mccMnc.value)| == 2 then
        var parts := Explode('_', mccMnc.value);
        ExplodeInTwo('_', mccMnc.value);
        Success(ParsedDiscoveryRedirect(Some(parts[0]), Some(parts[1]), subscriberId))
      else
        Success(ParsedDiscoveryRedirect(None, None, subscriberId))
  }

  /** Converts an optional string to the value handed to the URI builder. */
  function OptionalParam(v: Option<string>): (p: ParamValue)
    ensures v.None? ==> p == PNull
    ensures v.Some? ==> p == PStr(v.value)
  {
    if v.None? then PNull else PStr(v.value)
  }

  function OptionalFlag(v: Option<bool>): (p: ParamValue)
    ensures v.None? ==> p == PNull
    ensures v.Some? ==> p == PBool(v.value)
  {
    if v.None? then PNull else PBool(v.value)
  }

  /** `buildHttpGetParamsForOperatorDiscovery`: six parameters, in this order. */
  function OperatorDiscoveryParams(redirectURL: Option<string>, s: Settings): seq<(string, ParamValue)>
  {
    [ (ManuallySelectParameterName, PBool(s.manuallySelect)),
      (IdentifiedMccParameterName, OptionalParam(s.identifiedMCC)),
      (IdentifiedMncParameterName, OptionalParam(s.identifiedMNC)),
      (UsingMobileDataParameterName, OptionalFlag(s.usingMobileData)),
      (LocalClientIpParameterName, OptionalParam(s.localClientIP)),
      (RedirectUrlParameterName, OptionalParam(redirectURL)) ]
  }

  /** Each discovery parameter carries the option it is named after. */
  lemma OperatorDiscoveryParamsLookup(redirectURL: Option<string>, s: Settings)
    ensures var p := OperatorDiscoveryParams(redirectURL, s);
      && |p| == 6
      && ParameterValue(p, ManuallySelectParameterName) == Some(PBool(s.manuallySelect))
      && ParameterValue(p, IdentifiedMccParameterName) == Some(OptionalParam(s.identifiedMCC))
      && ParameterValue(p, IdentifiedMncParameterName) == Some(OptionalParam(s.identifiedMNC))
      && ParameterValue(p, UsingMobileDataParameterName) == Some(OptionalFlag(s.usingMobileData))
      && ParameterValue(p, LocalClientIpParameterName) == Some(OptionalParam(s.localClientIP))
      && ParameterValue(p, RedirectUrlParameterName) == Some(OptionalParam(redirectURL))
  {
    var p := OperatorDiscoveryParams(redirectURL, s);
    ParameterValueAt(p, 0);
    ParameterValueAt(p, 1);
    ParameterValueAt(p, 2);
    ParameterValueAt(p, 3);
    ParameterValueAt(p, 4);
    ParameterValueAt(p, 5);
  }

  /** `buildHttpGetParamsForCompleteSelectedOperatorDiscovery`: three parameters, in this order. */
  function SelectedOperatorParams(redirectURL: string, mcc: string, mnc: string): (p: seq<(string, ParamValue)>)
    ensures ParameterValue(p, RedirectUrlParameterName) == Some(PStr(redirectURL))
    ensures ParameterValue(p, SelectedMccParameterName) == Some(PStr(mcc))
    ensures ParameterValue(p, SelectedMncParameterName) == Some(PStr(mnc))
    ensures |p| == 3
  {
    var p := [ (RedirectUrlParameterName, PStr(redirectURL)),
               (SelectedMccParameterName, PStr(mcc)),
               (SelectedMncParameterName, PStr(mnc)) ];
    ParameterValueAt(p, 0);
    ParameterValueAt(p, 1);
    ParameterValueAt(p, 2);
    p
  }

  /**
   * The options `getOptionsToBeUsedWithTimeout` and
   * `getSelectedOperatorDiscoveryOptions` build: manual selection on, no
   * identified operator, no mobile data, cookies on, no local or client IP,
   * and the caller's timeout.
   */
  function ForcedSettings(timeout: int): Settings
  {
    Settings(true, None, None, true, Some(false), None, timeout, None)
  }

  method ForcedOptions(timeout: int) returns (o: DiscoveryOptions)
    ensures fresh(o) && o.Current() == ForcedSettings(timeout)
  {
    o := new DiscoveryOptions();
    o.SetManuallySelect(true);
    o.SetIdentifiedMCC(None);
    o.SetIdentifiedMNC(None);
    o.SetUsingMobileData(Some(false));
    o.SetCookiesEnabled(true);
    o.SetLocalClientIP(None);
    o.SetTimeout(timeout);
  }

  /** The forced options send no operator and no local IP, whatever the timeout. */
  lemma ForcedSettingsParams(redirectURL: Option<string>, timeout: int)
    ensures var p := OperatorDiscoveryParams(redirectURL, ForcedSettings(timeout));
      && p[0] == (ManuallySelectParameterName, PBool(true))
      && p[1].1 == PNull && p[2].1 == PNull && p[4].1 == PNull
      && p[3] == (UsingMobileDataParameterName, PBool(false))
  {
  }

  /** The checks `validateDiscoveryParameters` makes, in order. */
  function DiscoveryChecks(clientId: Option<string>, clientSecret: Option<string>,
                           discoveryURL: Option<string>, redirectURL: Option<string>)
    : seq<(string, Option<string>)>
  {
    [("clientId", clientId), ("clientSecret", clientSecret),
     ("discoveryURL", discoveryURL), ("redirectURL", redirectURL)]
  }

  /**
   * The checks `completeSelectedOperatorDiscovery` makes through
   * `validateDiscoveryParametersMCCMNC`: its third check, named
   * `discoveryURL`, is given the redirect URI.
   */
  function SelectedChecks(clientId: Option<string>, clientSecret: Option<string>, redirectURI: string,
                          selectedMCC: Option<string>, selectedMNC: Option<string>)
    : seq<(string, Option<string>)>
  {
    [("clientId", clientId), ("clientSecret", clientSecret), ("discoveryURL", Some(redirectURI)),
     ("selectedMCC", selectedMCC), ("selectedMNC", selectedMNC)]
  }

  /**
   * `completeSelectedOperatorDiscovery` checks the discovery URL only in
   * name: with a non-empty redirect URI, a missing discovery URL is never
   * reported.
   */
  lemma SelectedChecksIgnoreDiscoveryURL(clientId: Option<string>, clientSecret: Option<string>,
                                         redirectURI: string, selectedMCC: Option<string>,
                                         selectedMNC: Option<string>)
    requires redirectURI != ""
    ensures FirstMissing(SelectedChecks(clientId, clientSecret, redirectURI, selectedMCC, selectedMNC))
         != Some("discoveryURL")
  {
    var checks := SelectedChecks(clientId, clientSecret, redirectURI, selectedMCC, selectedMNC);
    var r := FirstMissing(checks);
    if r.Some? {
      var i :| FirstMissingAt(checks, i) && checks[i].0 == r.value;
      assert i != 2;
    }
  }

  /**
   * `buildDiscoveryResponse` after a REST reply: a failed call becomes a
   * discovery failure carrying the REST exception, an unparseable body one
   * without it, and a parsed body a fresh response with the clamped ttl.
   */
  function DiscoveryOutcome(parsers: Parsers, restFailureMessage: string,
                            reply: Result<RestResponse, RestException>, now: int)
    : (r: Result<DiscoveryResponse, Failure>)
    ensures reply.Failure? ==> r == Failure(DiscoveryFailure(restFailureMessage, Some(reply.error)))
    ensures reply.Success? && parsers.parseJson(reply.value.response).None? ==>
      r == Failure(DiscoveryFailure("Calling Discovery service failed", None))
    ensures r.Success? <==> reply.Success? && parsers.parseJson(reply.value.response).Some?
    ensures r.Success? ==>
      && reply.Success? && !r.value.cached
      && r.value.responseCode == reply.value.statusCode && r.value.headers == reply.value.headers
      && parsers.parseJson(reply.value.response).Some?
      && r.value.responseData == parsers.parseJson(reply.value.response)
      && r.value.ttl == Some(ClampTtl(r.value.responseData.value.ttlHint, now))
  {
    match reply
    case Failure(e) => Failure(DiscoveryFailure(restFailureMessage, Some(e)))
    case Success(resp) =>
      match parsers.parseJson(resp.response)
      case None => Failure(DiscoveryFailure("Calling Discovery service failed", None))
      case Some(doc) =>
        Success(DiscoveryResponse(false, Some(ClampTtl(doc.ttlHint, now)), resp.statusCode, resp.headers, Some(doc)))
  }

  /**
   * A fresh response is valid iff the service said whether it identified an
   * operator, and its ttl lies within the bounds.
   */
  lemma DiscoveryOutcomeValidity(parsers: Parsers, message: string,
                                 reply: Result<RestResponse, RestException>, now: int)
    requires DiscoveryOutcome(parsers, message, reply, now).Success?
    ensures var d := DiscoveryOutcome(parsers, message, reply, now).value;
      && (IsValidDiscoveryResponse(d) <==>
            d.responseCode == OperatorIdentifiedResponse || d.responseCode == OperatorNotIdentifiedResponse)
      && (MinimumTtlMs <= MaximumTtlMs ==> now + MinimumTtlMs <= d.ttl.value <= now + MaximumTtlMs)
  {
  }

  /** The discovery request for the given credentials, endpoint and parameters. */
  function DiscoveryRequest(clientId: Option<string>, clientSecret: Option<string>, discoveryURL: Option<string>,
                            params: seq<(string, ParamValue)>, clientIP: Option<string>, timeout: int,
                            cookies: Option<seq<Cookie>>): Request
  {
    Request(clientId, clientSecret, discoveryURL, discoveryURL, params,
            [(XSourceIpHeaderName, clientIP)], timeout, cookies)
  }

  class DiscoveryImpl {
    const cache: DiscoveryCacheImpl
    const restClient: RestClient
    const parsers: Parsers

    constructor (cache: DiscoveryCacheImpl, restClient: RestClient, parsers: Parsers)
      ensures this.cache == cache && this.restClient == restClient && this.parsers == parsers
    {
      this.cache := cache;
      this.restClient := restClient;
      this.parsers := parsers;
    }

    /** `getCachedValue`: the live cache entry for `key`, rebuilt as a response. */
    function GetCachedValue(key: Option<CacheKey>, now: int): (r: Option<DiscoveryResponse>)
      reads cache
      ensures r.Some? <==> key.Some? && key.value in cache.entries && !cache.entries[key.value].HasExpired(now)
      ensures r.Some? ==> r == Some(FromCache(cache.entries[key.value]))
    {
      if key.None? then None
      else
        match cache.Get(key.value, now)
        case None => None
        case Some(v) => Some(FromCache(v))
    }

    /** A response served from the cache is itself unexpired. */
    lemma CachedValueIsLive(key: Option<CacheKey>, now: int)
      requires GetCachedValue(key, now).Some?
      ensures !GetCachedValue(key, now).value.HasExpired(now)
      ensures IsValidDiscoveryResponse(GetCachedValue(key, now).value)
    {
    }

    /**
     * `addCachedValue`: stores the response under the key only when the
     * operator was identified and both the ttl and the document are present.
     */
    method AddCachedValue(key: Option<CacheKey>, value: Option<DiscoveryResponse>)
      modifies cache
      ensures cache.entries == CacheAfterAdd(old(cache.entries), key, value)
    {
      if key.None? || value.None? {
        return;
      }
      if value.value.responseCode != OperatorIdentifiedResponse {
        return;
      }
      if value.value.ttl.None? || value.value.responseData.None? {
        return;
      }
      var entry := NewDiscoveryCacheValue(value.value.ttl, value.value.responseData.value);
      var _ := cache.Add(key, Some(entry.value));
    }

    /** `buildDiscoveryResponse` and the exception handling around the REST call. */
    method BuildDiscoveryResponse(restFailureMessage: string, reply: Result<RestResponse, RestException>, now: int)
      returns (r: Result<DiscoveryResponse, Failure>)
      ensures r == DiscoveryOutcome(parsers, restFailureMessage, reply, now)
    {
      if reply.Failure? {
        return Failure(DiscoveryFailure(restFailureMessage, Some(reply.error)));
      }
      var doc := parsers.parseJson(reply.value.response);
      if doc.None? {
        return Failure(DiscoveryFailure("Calling Discovery service failed", None));
      }
      var ttl := DetermineTtl(doc.value.ttlHint, now);
      r := Success(DiscoveryResponse(false, Some(ttl.timestamp), reply.value.statusCode, reply.value.headers, doc));
    }

    /**
     * `startAutomatedOperatorDiscovery`. A missing parameter fails before the
     * cache or the service is touched. A live cache entry for the identified
     * MCC and MNC is returned without calling the service or writing the
     * cache. Otherwise the service is called exactly once, and the result is
     * cached only when `addCachedValue` lets it in.
     */
    method StartAutomatedOperatorDiscovery(clientId: Option<string>, clientSecret: Option<string>,
                                           discoveryURL: Option<string>, redirectURL: Option<string>,
                                           options: DiscoveryOptions, cookies: seq<Cookie>, now: int)
      returns (r: Result<DiscoveryResponse, Failure>)
      modifies cache, restClient
      ensures var missing := FirstMissing(DiscoveryChecks(clientId, clientSecret, discoveryURL, redirectURL));
        missing.Some? ==>
          && r == Failure(InvalidArgument(missing.value))
          && restClient.log == old(restClient.log) && cache.entries == old(cache.entries)
      ensures var key := CacheKeyFor(options.identifiedMCC, options.identifiedMNC);
        && FirstMissing(DiscoveryChecks(clientId, clientSecret, discoveryURL, redirectURL)).None?
        && old(GetCachedValue(key, now)).Some? ==>
          && r == Success(old(GetCachedValue(key, now)).value)
          && restClient.log == old(restClient.log) && cache.entries == old(cache.entries)
      ensures var key := CacheKeyFor(options.identifiedMCC, options.identifiedMNC);
        var req := DiscoveryRequest(clientId, clientSecret, discoveryURL,
                                    OperatorDiscoveryParams(redirectURL, options.Current()),
                                    options.clientIP, options.timeout, Some(cookies));
        && FirstMissing(DiscoveryChecks(clientId, clientSecret, discoveryURL, redirectURL)).None?
        && old(GetCachedValue(key, now)).None? ==>
          && restClient.log == old(restClient.log) + [req]
          && r == DiscoveryOutcome(parsers, "Call to Discovery End Point failed",
                                   restClient.respond(|old(restClient.log)|, req), now)
          && cache.entries == CacheAfterAdd(old(cache.entries), key, if r.Success? then Some(r.value) else None)
    {
      var missing := FirstMissing(DiscoveryChecks(clientId, clientSecret, discoveryURL, redirectURL));
      if missing.Some? {
        return Failure(InvalidArgument(missing.value));
      }
      var key := CacheKeyFor(options.identifiedMCC, options.identifiedMNC);
      var cached := GetCachedValue(key, now);
      if cached.Some? {
        return Success(cached.value);
      }
      var params := OperatorDiscoveryParams(redirectURL, options.Current());
      var req := DiscoveryRequest(clientId, clientSecret, discoveryURL, params,
                                  options.clientIP, options.timeout, Some(cookies));
      var reply := restClient.CallRestEndPoint(req);
      r := BuildDiscoveryResponse("Call to Discovery End Point failed", reply, now);
      if r.Success? {
        AddCachedValue(key, Some(r.value));
      }
    }

    /**
     * `getOperatorSelectionURL`: never reads or writes the cache; calls the
     * service once with the forced options and the caller's timeout.
     */
    method GetOperatorSelectionURL(clientId: Option<string>, clientSecret: Option<string>,
                                   discoveryURL: Option<string>, redirectURL: Option<string>,
                                   timeout: int, now: int)
      returns (r: Result<DiscoveryResponse, Failure>)
      modifies restClient
      ensures var missing := FirstMissing(DiscoveryChecks(clientId, clientSecret, discoveryURL, redirectURL));
        missing.Some? ==> r == Failure(InvalidArgument(missing.value)) && restClient.log == old(restClient.log)
      ensures var req := DiscoveryRequest(clientId, clientSecret, discoveryURL,
                                          OperatorDiscoveryParams(redirectURL, ForcedSettings(timeout)),
                                          None, timeout, None);
        FirstMissing(DiscoveryChecks(clientId, clientSecret, discoveryURL, redirectURL)).None? ==>
          && restClient.log == old(restClient.log) + [req]
          && r == DiscoveryOutcome(parsers, "Call to Discovery end point failed",
                                   restClient.respond(|old(restClient.log)|, req), now)
    {
      var missing := FirstMissing(DiscoveryChecks(clientId, clientSecret, discoveryURL, redirectURL));
      if missing.Some? {
        return Failure(InvalidArgument(missing.value));
      }
      var options := ForcedOptions(timeout);
      var params := OperatorDiscoveryParams(redirectURL, options.Current());
      var req := DiscoveryRequest(clientId, clientSecret, discoveryURL, params,
                                  options.clientIP, options.timeout, None);
      var reply := restClient.CallRestEndPoint(req);
      r := BuildDiscoveryResponse("Call to Discovery end point failed", reply, now);
    }

    /**
     * `completeSelectedOperatorDiscovery`: a null redirect URI becomes the
     * default redirect URL and fills the `discoveryURL` check; a live cache
     * entry for the selected MCC and MNC is returned without a call; the cache
     * is never written.
     */
    method CompleteSelectedOperatorDiscovery(clientId: Option<string>, clientSecret: Option<string>,
                                             discoveryURL: Option<string>, redirectURI: Option<string>,
                                             selectedMCC: Option<string>, selectedMNC: Option<string>,
                                             timeout: int, cookies: seq<Cookie>, now: int)
      returns (r: Result<DiscoveryResponse, Failure>)
      modifies restClient
      ensures var redirect := if redirectURI.None? then DefaultRedirectUrl else redirectURI.value;
        var missing := FirstMissing(SelectedChecks(clientId, clientSecret, redirect, selectedMCC, selectedMNC));
        missing.Some? ==> r == Failure(InvalidArgument(missing.value)) && restClient.log == old(restClient.log)
      ensures var redirect := if redirectURI.None? then DefaultRedirectUrl else redirectURI.value;
        var key := CacheKeyFor(selectedMCC, selectedMNC);
        && FirstMissing(SelectedChecks(clientId, clientSecret, redirect, selectedMCC, selectedMNC)).None?
        && GetCachedValue(key, now).Some? ==>
          r == Success(GetCachedValue(key, now).value) && restClient.log == old(restClient.log)
      ensures var redirect := if redirectURI.None? then DefaultRedirectUrl else redirectURI.value;
        var key := CacheKeyFor(selectedMCC, selectedMNC);
        && FirstMissing(SelectedChecks(clientId, clientSecret, redirect, selectedMCC, selectedMNC)).None?
        && selectedMCC.Some? && selectedMNC.Some?
        && GetCachedValue(key, now).None? ==>
          var req := DiscoveryRequest(clientId, clientSecret, discoveryURL,
                                      SelectedOperatorParams(redirect, selectedMCC.value, selectedMNC.value),
                                      None, timeout, Some(cookies));
          && restClient.log == old(restClient.log) + [req]
          && r == DiscoveryOutcome(parsers, "Call to Discovery end point failed",
                                   restClient.respond(|old(restClient.log)|, req), now)
    {
      var redirect := if redirectURI.None? then DefaultRedirectUrl else redirectURI.value;
      var missing := FirstMissing(SelectedChecks(clientId, clientSecret, redirect, selectedMCC, selectedMNC));
      if missing.Some? {
        return Failure(InvalidArgument(missing.value));
      }
      var checks := SelectedChecks(clientId, clientSecret, redirect, selectedMCC, selectedMNC);
      assert checks[3].1 == selectedMCC && checks[4].1 == selectedMNC;
      var options := ForcedOptions(timeout);
      var key := CacheKeyFor(selectedMCC, selectedMNC);
      var cached := GetCachedValue(key, now);
      if cached.Some? {
        return Success(cached.value);
      }
      var params := SelectedOperatorParams(redirect, selectedMCC.value, selectedMNC.value);
      var req := DiscoveryRequest(clientId, clientSecret, discoveryURL, params,
                                  options.clientIP, timeout, Some(cookies));
      var reply := restClient.CallRestEndPoint(req);
      r := BuildDiscoveryResponse("Call to Discovery end point failed", reply, now);
    }

    /** `getCachedDiscoveryResult`: checks the MCC and MNC, then reads the cache. */
    function GetCachedDiscoveryResult(mcc: Option<string>, mnc: Option<string>, now: int)
      : (r: Result<Option<DiscoveryResponse>, Failure>)
      reads cache
      ensures Missing(mcc) ==> r == Failure(InvalidArgument("mcc"))
      ensures !Missing(mcc) && Missing(mnc) ==> r == Failure(InvalidArgument("mnc"))
      ensures !Missing(mcc) && !Missing(mnc) ==>
        r == Success(GetCachedValue(Some(CacheKey(mcc.value, mnc.value)), now))
    {
      if Missing(mcc) then Failure(InvalidArgument("mcc"))
      else if Missing(mnc) then Failure(InvalidArgument("mnc"))
      else Success(GetCachedValue(CacheKeyFor(mcc, mnc), now))
    }

    /**
     * `clearDiscoveryCache` as written: its parameter is declared
     * `CacheOptions $options` without a null default, so PHP refuses a null
     * argument before the body's clear-everything branch can run.
     */
    method ClearDiscoveryCacheAsWritten(options: Option<CacheOptions>) returns (o: Outcome<Failure>)
      modifies cache
      ensures options.None? ==> o == Fail(TypeMismatch("options")) && cache.entries == old(cache.entries)
      ensures options.Some? ==> o.Pass?
      ensures options.Some? ==>
        var key := CacheKeyFor(options.value.mcc, options.value.mnc);
        cache.entries == if key.None? then old(cache.entries) else old(cache.entries) - {key.value}
    {
      if options.None? {
        return Fail(TypeMismatch("options"));
      }
      var key := CacheKeyFor(options.value.mcc, options.value.mnc);
      if key.Some? {
        cache.Remove(key.value);
      }
      o := Pass;
    }

    /**
     * `clearDiscoveryCache` as its documentation describes it: without
     * options every entry is removed, with options only that operator's.
     */
    method ClearDiscoveryCache(options: Option<CacheOptions>)
      modifies cache
      ensures options.None? ==> cache.entries == map[]
      ensures options.Some? ==>
        var key := CacheKeyFor(options.value.mcc, options.value.mnc);
        cache.entries == if key.None? then old(cache.entries) else old(cache.entries) - {key.value}
    {
      if options.None? {
        cache.Clear();
        return;
      }
      var key := CacheKeyFor(options.value.mcc, options.value.mnc);
      if key.Some? {
        cache.Remove(key.value);
      }
    }
  }

  /** As written, `clearDiscoveryCache(null)` empties nothing. */
  method ClearDiscoveryCacheAsWrittenKeepsEntries(key: CacheKey, value: DiscoveryCacheValue, now: int)
    returns (o: Outcome<Failure>, after: Option<DiscoveryResponse>)
    requires !value.HasExpired(now)
    ensures o == Fail(TypeMismatch("options")) && after == Some(FromCache(value))
  {
    var cache := new DiscoveryCacheImpl();
    var _ := cache.Add(Some(key), Some(value));
    var client := new RestClient((n: nat, req: Request) => Failure(NewRestException("unused")));
    var parsers := Parsers(_ => None, _ => [], _ => None, (_, _) => None, _ => None);
    var discovery := new DiscoveryImpl(cache, client, parsers);
    o := discovery.ClearDiscoveryCacheAsWritten(None);
    after := discovery.GetCachedValue(Some(key), now);
  }

  /** Automated discovery with a live cache entry makes no REST call. */
  method CacheHitMakesNoCall(key: CacheKey, value: DiscoveryCacheValue, now: int)
    returns (r: Result<DiscoveryResponse, Failure>, calls: nat)
    requires !value.HasExpired(now) && key.mcc != "" && key.mnc != ""
    ensures r == Success(FromCache(value)) && calls == 0
  {
    var cache := new DiscoveryCacheImpl();
    var _ := cache.Add(Some(key), Some(value));
    var client := new RestClient((n: nat, req: Request) => Failure(NewRestException("unused")));
    var parsers := Parsers(_ => None, _ => [], _ => None, (_, _) => None, _ => None);
    var discovery := new DiscoveryImpl(cache, client, parsers);
    var options := new DiscoveryOptions();
    options.SetIdentifiedMCC(Some(key.mcc));
    options.SetIdentifiedMNC(Some(key.mnc));
    r := discovery.StartAutomatedOperatorDiscovery(Some("id"), Some("secret"), Some("https://discovery.example"),
                                                   Some("https://app.example/cb"), options, [], now);
    calls := |client.log|;
  }
}
