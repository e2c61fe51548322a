# Mobile Connect SDK core, modelled in Dafny

This project models the decision and bookkeeping logic of the GSMA Mobile
Connect PHP SDK. It covers three parts:

- **Discovery.** The discovery orchestrator (`DiscoveryImpl`):
  - it checks its arguments;
  - it answers from the discovery cache when it can, without calling the discovery service;
  - it decides what goes into the cache;
  - it classifies discovery responses;
  - it splits the `mcc_mnc` redirect parameter;
  - it forces the options of operator-selection requests;
  - it builds the ordered request parameters;
  - it computes a response's time-to-live (`determineTtl`).
- **OpenID Connect.** The OpenID Connect client (`OIDCImpl`):
  - an expired discovery result is refused before anything else;
  - default scope, maximum age and ACR values;
  - the ordered authorization request (section 3.1.2.1 of OpenID Connect Core 1.0), including the login-hint fallback;
  - parsing of the authorization response (sections 4.1.2 and 4.1.2.1 of RFC 6749);
  - the token request (section 4.1.3 of RFC 6749);
  - parsing of the id_token.
- **Values.** The value types around them:
  - `DiscoveryCacheValue`;
  - the discovery cache;
  - the URI builder;
  - `ParsedDiscoveryRedirect`;
  - `RestResponse` and its JSON content-type scan;
  - `RestException`;
  - `OIDCException`;
  - `DiscoveryOptions`.

Modelling choices:

- **Objects the SDK updates in place are classes:**
  - the discovery cache, a map;
  - the URI builder, a parameter list;
  - `DiscoveryOptions`;
  - PHP's `DateTime`, one mutable timestamp;
  - the REST client.
- **The REST client is an oracle.** A function gives the outcome of the n-th call, and a log records every request. "No REST call" is therefore a statement about the log.
- **The clock is an integer `now`.**
- **JSON and URL helpers are parameters.** The helpers whose source is not shown are a `Parsers` value of functions, where `None` means the helper threw.
- **Callbacks become return values.** `Success(v)` stands for `completed(v)` and `Failure(f)` for the exception thrown.
- **Constants.** SDK constants that no protocol fixes are declared without a value, so every proof holds whatever value the SDK gives them. Parameter names fixed by the standards above are written out.

Files:

| file | content |
|---|---|
| `wrappers.dfy` | `Option`, `Result`, `Outcome` |
| `strings.dfy` | case-insensitive comparison, `explode`/`implode`, decimal rendering |
| `url.dfy` | parameter lookup (`HttpUtils::getParameterValue`), query rendering, `urlencode`/`urldecode` |
| `constants.dfy` | the SDK constants |
| `uri_builder.dfy` | `URIBuilder` |
| `rest.dfy` | `RestResponse`, `RestException`, the REST request and client |
| `oidc_exception.dfy` | `OIDCException` and the two helpers of `OIDCImpl` that build one |
| `documents.dfy` | what the JSON helpers extract from a document |
| `errors.dfy` | failures and the `validateParameter` sequence |
| `discovery_cache_value.dfy` | `DiscoveryCacheValue` |
| `discovery_cache.dfy` | `DiscoveryCacheImpl` |
| `parsed_discovery_redirect.dfy` | `ParsedDiscoveryRedirect` |
| `discovery_options.dfy` | `DiscoveryOptions` |
| `ttl.dfy` | `determineTtl` |
| `discovery.dfy` | `DiscoveryImpl` |
| `oidc.dfy` | `OIDCImpl` |

## Model

In the source column:

- `DiscoveryImpl.php` is `mobile-connect-sdk/src/main/impl/DiscoveryImpl.php`.
- `OIDCImpl.php` is `mobile-connect-sdk/src/main/impl/OIDCImpl.php`.
- The other paths are written out in full.

| member | source | states |
|---|---|---|
| Errors.FirstMissing | mobile-connect-sdk/src/main/impl/DiscoveryImpl.php:411-418 | There is no failure iff every checked argument is non-null and non-empty. Otherwise the result names an argument that is missing while every earlier one is present. |
| Url.DecodeEncode | mobile-connect-sdk/src/main/impl/OIDCImpl.php:371-378 | `urldecode` undoes `urlencode` on every string. This is why decoding the builder's output gives back the plain query. |
| UriBuilder.URIBuilder.constructor | mobile-connect-sdk/src/test/utils/URIBuilderTest.php:31-38 | A new builder has the given base and no parameters. |
| UriBuilder.URIBuilder.AddParameter | mobile-connect-sdk/src/test/utils/URIBuilderTest.php:40-49 | The parameter is appended after those already added. |
| UriBuilder.URIBuilder.Build | mobile-connect-sdk/src/test/utils/URIBuilderTest.php:37-49 | The base is an unencoded prefix of the output. Decoding the output gives the decoded base, `?`, and the parameters as `name=value` joined by `&` in call order. |
| UriBuilder.TestConstructSetsDefaults | mobile-connect-sdk/src/test/utils/URIBuilderTest.php:31-38 | With no parameters the output is the base followed by `%3F`. |
| UriBuilder.TestAddParamsAndBuildMethods | mobile-connect-sdk/src/test/utils/URIBuilderTest.php:40-49 | Two parameters give the base followed by the encoded `?k1=v1&k2=v2`, and decoding gives the plain query back. |
| Rest.JsonContentFirstMatch | mobile-connect-sdk/src/main/utils/RestResponse.php:59-67 | A response is JSON iff some header is the first Content-Type header (ignoring case) and its value contains `application/json` (ignoring case). |
| Rest.NoContentTypeNotJson | mobile-connect-sdk/src/main/utils/RestResponse.php:59-67 | Without a Content-Type header a response is not JSON. |
| Rest.NewRestResponse | mobile-connect-sdk/src/main/utils/RestResponse.php:50-68 | The constructor stores uri, status, headers and body unchanged. Its loop with `break` sets the JSON flag to exactly what the first-match rule gives. |
| Rest.NewRestException | mobile-connect-sdk/src/main/utils/RestException.php:49-68 | The message is always set. The cause is chained iff one is given. Without a response: the given uri, status 0, and null headers and contents. With one: uri, status, headers and contents all come from the response. |
| Rest.UriIgnoredWithResponse | mobile-connect-sdk/src/main/utils/RestException.php:62-67 | With a response, the uri argument has no effect. |
| Rest.TestConstructWithResponse | mobile-connect-sdk/src/test/utils/RestExceptionTest.php:32-45 | A 202 response with no headers gives its uri, 202, empty headers and its body. |
| Rest.TestConstructWithNullResponse | mobile-connect-sdk/src/test/utils/RestExceptionTest.php:47-72 | With no response: the given uri, status 0, and null headers and contents. A cause is present iff one is given. |
| Rest.RestClient.constructor | mobile-connect-sdk/src/main/utils/RestClient.php:77-94 | A new client has made no calls. |
| Rest.RestClient.CallRestEndPoint | mobile-connect-sdk/src/main/utils/RestClient.php:77-94 | Each call is appended to the log. Its outcome is the oracle's answer for that call. |
| OidcException.NewOIDCException | mobile-connect-sdk/src/main/oidc/OIDCException.php:51-59 | The getters return the 3rd to 6th positional arguments. A headers argument that is neither null nor an array is a `TypeError` on argument 5. |
| OidcException.NewOIDCExceptionDefaults | mobile-connect-sdk/src/main/oidc/OIDCException.php:51 | With the trailing arguments omitted, the response code is 0 and uri, headers and contents are null. |
| OidcException.ExceptionArgumentDropped | mobile-connect-sdk/src/main/oidc/OIDCException.php:51-53 | The second argument has no effect on the exception built. |
| OidcException.NewOIDCExceptionFromRestExceptionAsWritten | mobile-connect-sdk/src/main/impl/OIDCImpl.php:472-475 | As written, the exception builds iff the REST exception has no contents. |
| OidcException.FromRestExceptionAsWrittenShifts | mobile-connect-sdk/src/main/impl/OIDCImpl.php:472-475 | With contents, the result is a `TypeError`. Without contents, `getUri()` is the status, `getResponseCode()` the headers, `getHeaders()` null and `getContents()` the REST exception. |
| OidcException.FromRestExceptionAsWrittenCounterexample | mobile-connect-sdk/src/main/impl/OIDCImpl.php:474 | A token endpoint answering 400 with a body gives a `TypeError`. |
| OidcException.NewOIDCExceptionFromRestException | mobile-connect-sdk/src/main/impl/OIDCImpl.php:472-475 | Corrected: always builds, and carries the message, the uri, the status, the headers and the contents under their own getters. |
| OidcException.NewOIDCExceptionWithRestResponseAsWritten | mobile-connect-sdk/src/main/impl/OIDCImpl.php:485-493 | Without a response, only the message is kept. |
| OidcException.WithRestResponseAsWrittenFails | mobile-connect-sdk/src/main/impl/OIDCImpl.php:490 | As written, every call with a response is a `TypeError`. The SDK's only caller, at `OIDCImpl.php:216`, passes no response, so this branch is latent. |
| OidcException.NewOIDCExceptionWithRestResponse | mobile-connect-sdk/src/main/impl/OIDCImpl.php:485-493 | Corrected: always builds. A response's uri, status, headers and body reach the matching getters. |
| DiscoveryCacheValues.NewDiscoveryCacheValue | mobile-connect-sdk/src/main/cache/DiscoveryCacheValue.php:44-72 | A null ttl is refused. Otherwise the ttl and the value are stored as given. |
| DiscoveryCacheValues.NotExpiredAtTtl | mobile-connect-sdk/src/main/cache/DiscoveryCacheValue.php:80-83 | The expiry test is strict: an entry is not expired at its own ttl. |
| DiscoveryCacheValues.ExpiryIsMonotonic | mobile-connect-sdk/src/main/cache/DiscoveryCacheValue.php:80-83 | Once expired, an entry stays expired as time advances. |
| DiscoveryCacheValues.TestHasExpired | mobile-connect-sdk/src/test/cache/DiscoveryCacheValueTest.php:74-90 | A ttl a day in the past has expired. A ttl a day ahead has not. |
| DiscoveryCache.DiscoveryCacheImpl.constructor | mobile-connect-sdk/src/test/cache/DiscoveryCacheImplTest.php:49-75 | A new cache is empty. |
| DiscoveryCache.DiscoveryCacheImpl.Add | mobile-connect-sdk/src/test/cache/DiscoveryCacheImplTest.php:89-141 | A null key or value is an invalid-argument failure and changes nothing. Otherwise the entry is stored under its key. |
| DiscoveryCache.DiscoveryCacheImpl.Get | mobile-connect-sdk/src/test/cache/DiscoveryCacheImplTest.php:89-111 | Gives the stored entry iff there is one and it has not expired by `now`. |
| DiscoveryCache.DiscoveryCacheImpl.Remove | mobile-connect-sdk/src/test/cache/DiscoveryCacheImplTest.php:113-120 | Removes that key only. |
| DiscoveryCache.DiscoveryCacheImpl.Clear | mobile-connect-sdk/src/test/cache/DiscoveryCacheImplTest.php:143-148 | Removes every entry. |
| DiscoveryCache.TestAddAndGetWithValue | mobile-connect-sdk/src/test/cache/DiscoveryCacheImplTest.php:89-93 | An unexpired value that was added is read back. |
| DiscoveryCache.TestAddAndGetWithExpiredValue | mobile-connect-sdk/src/test/cache/DiscoveryCacheImplTest.php:95-111 | An expired value that was added reads as absent. |
| DiscoveryCache.TestRemove | mobile-connect-sdk/src/test/cache/DiscoveryCacheImplTest.php:113-120 | An entry that was present reads as absent after removal. |
| DiscoveryCache.TestRemoveKeepsOthers | mobile-connect-sdk/src/test/cache/DiscoveryCacheImplTest.php:113-120 | Removing one key leaves another key's entry readable. |
| DiscoveryCache.TestNullKeyOrValue | mobile-connect-sdk/src/test/cache/DiscoveryCacheImplTest.php:125-141 | A null key and a null value are each refused with an invalid-argument failure. |
| DiscoveryCache.TestCacheClear | mobile-connect-sdk/src/test/cache/DiscoveryCacheImplTest.php:143-148 | An entry that was present reads as absent after `clear`. |
| ParsedDiscoveryRedirects.TestHasMCCAndMNC | mobile-connect-sdk/src/test/discovery/ParsedDiscoveryRedirectTest.php:59-92 | `hasMCCAndMNC` is false with neither part, with only the MCC or with only the MNC, and true with both. |
| DiscoveryOptionsModule.DiscoveryOptions.constructor | mobile-connect-sdk/src/main/discovery/DiscoveryOptions.php:40-69 | Timeout 30000, manual selection off and cookies on. Every other setting is null. |
| DiscoveryOptionsModule.DiscoveryOptions.SetManuallySelect | mobile-connect-sdk/src/main/discovery/DiscoveryOptions.php:86-89 | Stores the value as given and changes no other setting. |
| DiscoveryOptionsModule.DiscoveryOptions.SetIdentifiedMCC | mobile-connect-sdk/src/main/discovery/DiscoveryOptions.php:106-109 | Stores the value as given and changes no other setting. |
| DiscoveryOptionsModule.DiscoveryOptions.SetIdentifiedMNC | mobile-connect-sdk/src/main/discovery/DiscoveryOptions.php:126-129 | Stores the value as given and changes no other setting. |
| DiscoveryOptionsModule.DiscoveryOptions.SetCookiesEnabled | mobile-connect-sdk/src/main/discovery/DiscoveryOptions.php:146-149 | Stores the value as given and changes no other setting. |
| DiscoveryOptionsModule.DiscoveryOptions.SetUsingMobileData | mobile-connect-sdk/src/main/discovery/DiscoveryOptions.php:170-173 | Stores the value as given and changes no other setting. |
| DiscoveryOptionsModule.DiscoveryOptions.SetLocalClientIP | mobile-connect-sdk/src/main/discovery/DiscoveryOptions.php:200-203 | Stores the value as given and changes no other setting. |
| DiscoveryOptionsModule.DiscoveryOptions.SetTimeout | mobile-connect-sdk/src/main/discovery/DiscoveryOptions.php:223-226 | Stores the value as given, without validation, and changes no other setting. |
| DiscoveryOptionsModule.DiscoveryOptions.SetClientIP | mobile-connect-sdk/src/main/discovery/DiscoveryOptions.php:255-258 | Stores the value as given and changes no other setting. |
| DiscoveryOptionsModule.TestLastSetWins | mobile-connect-sdk/src/main/discovery/DiscoveryOptions.php:96-129 | A getter returns the last value set to its field. Untouched settings keep their defaults. |
| Ttl.DateTime.SetTimestamp | mobile-connect-sdk/src/main/impl/DiscoveryImpl.php:707-708 | Sets the receiver's instant and returns the receiver itself. |
| Ttl.DetermineTtlAsWritten | mobile-connect-sdk/src/main/impl/DiscoveryImpl.php:702-725 | As written, no hint gives `now + MAXIMUM_TTL_MS`. A hint is returned unchanged, in a new object. |
| Ttl.DetermineTtlAsWrittenDoesNotClamp | mobile-connect-sdk/src/main/impl/DiscoveryImpl.php:707-724 | A hint one past the maximum comes back unchanged. No hint gives the maximum, not the minimum. |
| Ttl.ClampTtl | mobile-connect-sdk/src/main/impl/DiscoveryImpl.php:694-701 | The documented ttl: the minimum for no hint or a hint below it, the hint inside the bounds, and always within the bounds. |
| Ttl.ClampTtlIdempotent | mobile-connect-sdk/src/main/impl/DiscoveryImpl.php:694-701 | Clamping a clamped ttl changes nothing. |
| Ttl.DetermineTtl | mobile-connect-sdk/src/main/impl/DiscoveryImpl.php:702-725 | Corrected, with a separate object per bound: the result is the clamped hint. |
| Discovery.CacheKeyFor | mobile-connect-sdk/src/main/impl/DiscoveryImpl.php:394-398 | There is a key iff both MCC and MNC are non-null and non-empty, and then it is made of them. |
| Discovery.FromCache | mobile-connect-sdk/src/main/impl/DiscoveryImpl.php:689-692 | A response rebuilt from the cache is marked cached, has code 0 and no headers, and carries the entry's ttl and document. |
| Discovery.CacheAfterAdd | mobile-connect-sdk/src/main/impl/DiscoveryImpl.php:579-594 | An entry is added iff key and response are present, the code is `OPERATOR_IDENTIFIED_RESPONSE`, and ttl and document are non-null. Otherwise the cache is unchanged. |
| Discovery.CachedValueReadsBack | mobile-connect-sdk/src/main/impl/DiscoveryImpl.php:579-594 | A response let into the cache reads back as itself, except that it is marked cached with code 0 and no headers. |
| Discovery.FromCacheIsValid | mobile-connect-sdk/src/main/impl/DiscoveryImpl.php:459-474 | Every response rebuilt from the cache is valid. |
| Discovery.ExtractOperatorSelectionURL | mobile-connect-sdk/src/main/impl/DiscoveryImpl.php:310-318 | Null for an invalid response. Otherwise the document's operator-selection URL. |
| Discovery.IsOperatorSelectionRequired | mobile-connect-sdk/src/main/impl/DiscoveryImpl.php:326-331 | Refuses exactly the invalid responses. Otherwise true iff a URL is extracted. |
| Discovery.GetErrorResponse | mobile-connect-sdk/src/main/impl/DiscoveryImpl.php:351-359 | Null without a document. Otherwise the document's error. |
| Discovery.IsErrorResponse | mobile-connect-sdk/src/main/impl/DiscoveryImpl.php:339-343 | True iff there is a document and it carries an error. |
| Discovery.ParseDiscoveryRedirect | mobile-connect-sdk/src/main/impl/DiscoveryImpl.php:208-228 | A missing URL is refused. MCC and MNC are set together, iff `mcc_mnc` is present with exactly one `_`. They then rejoin to `mcc_mnc` and contain no `_`. `subscriber_id` is passed through. |
| Discovery.OperatorDiscoveryParamsLookup | mobile-connect-sdk/src/main/impl/DiscoveryImpl.php:604-615 | Six parameters, each carrying the option it is named after, the last being the redirect URL. |
| Discovery.SelectedOperatorParams | mobile-connect-sdk/src/main/impl/DiscoveryImpl.php:626-636 | Three parameters: the redirect URL, the selected MCC and the selected MNC. |
| Discovery.ForcedOptions | mobile-connect-sdk/src/main/impl/DiscoveryImpl.php:484-501 | A fresh options object with manual selection, no operator, no mobile data, cookies, no local IP, and the caller's timeout. |
| Discovery.ForcedSettingsParams | mobile-connect-sdk/src/main/impl/DiscoveryImpl.php:484-501 | Forced options send manual selection, no MCC, no MNC, no local IP, and mobile data false. |
| Discovery.SelectedChecksIgnoreDiscoveryURL | mobile-connect-sdk/src/main/impl/DiscoveryImpl.php:268-271 | The redirect URI fills the `discoveryURL` check, so a missing discovery URL is never reported. |
| Discovery.DiscoveryOutcome | mobile-connect-sdk/src/main/impl/DiscoveryImpl.php:130-142 | A REST failure becomes a discovery failure carrying it. A body that does not parse becomes "Calling Discovery service failed" without one. The outcome is a success iff the call succeeded and its body parses. A success is fresh and has the reply's code and headers and the parsed document. Its ttl is the clamped hint of the corrected `determineTtl`, not the source's unclamped one (see "## Left out"). |
| Discovery.DiscoveryOutcomeValidity | mobile-connect-sdk/src/main/impl/DiscoveryImpl.php:676-681 | A fresh response is valid iff its code says whether an operator was identified. With the corrected `determineTtl`, its ttl lies within the bounds; the source as written gives no such bound. |
| Discovery.DiscoveryImpl.constructor | mobile-connect-sdk/src/main/impl/DiscoveryImpl.php:72-76 | Keeps the injected cache and REST client. |
| Discovery.DiscoveryImpl.GetCachedValue | mobile-connect-sdk/src/main/impl/DiscoveryImpl.php:554-569 | A response iff there is a key and a live entry under it, and then that entry rebuilt. |
| Discovery.DiscoveryImpl.CachedValueIsLive | mobile-connect-sdk/src/main/impl/DiscoveryImpl.php:554-569 | A response served from the cache is unexpired and valid. |
| Discovery.DiscoveryImpl.AddCachedValue | mobile-connect-sdk/src/main/impl/DiscoveryImpl.php:579-594 | The cache becomes exactly what `CacheAfterAdd` gives. |
| Discovery.DiscoveryImpl.BuildDiscoveryResponse | mobile-connect-sdk/src/main/impl/DiscoveryImpl.php:676-681 | Builds the outcome `DiscoveryOutcome` describes, calling the corrected `determineTtl`. |
| Discovery.DiscoveryImpl.StartAutomatedOperatorDiscovery | mobile-connect-sdk/src/main/impl/DiscoveryImpl.php:106-143 | A missing argument fails with no cache or REST access. A cache hit returns the entry with no call and no write. Otherwise there is exactly one call with the six parameters and the client IP header, and the cache changes only as `addCachedValue` allows. The ttl of a fresh response is the corrected one. |
| Discovery.DiscoveryImpl.GetOperatorSelectionURL | mobile-connect-sdk/src/main/impl/DiscoveryImpl.php:173-198 | A missing argument fails with no call. Otherwise there is exactly one call with the forced options, no cookies, and its own failure message. It cannot touch the cache. The ttl of a fresh response is the corrected one. |
| Discovery.DiscoveryImpl.CompleteSelectedOperatorDiscovery | mobile-connect-sdk/src/main/impl/DiscoveryImpl.php:263-302 | A null redirect becomes the default. A missing argument fails with no call. A cache hit under the selected key returns it with no call. Otherwise there is exactly one call with the three parameters. It cannot write the cache. The ttl of a fresh response is the corrected one. |
| Discovery.DiscoveryImpl.GetCachedDiscoveryResult | mobile-connect-sdk/src/main/impl/DiscoveryImpl.php:368-374 | A missing MCC, then a missing MNC, is refused. Otherwise it is the cached value under that key. |
| Discovery.DiscoveryImpl.ClearDiscoveryCacheAsWritten | mobile-connect-sdk/src/main/impl/DiscoveryImpl.php:381-400 | As written, null options are a type error that leaves the cache as it was. Options with a key remove that key only. |
| Discovery.DiscoveryImpl.ClearDiscoveryCache | mobile-connect-sdk/src/main/discovery/IDiscovery.php:254-261 | Corrected: no options empties the cache. Options with a key remove that key only. |
| Discovery.ClearDiscoveryCacheAsWrittenKeepsEntries | mobile-connect-sdk/src/main/impl/DiscoveryImpl.php:381-392 | As written, `clearDiscoveryCache(null)` leaves a live entry readable. |
| Discovery.CacheHitMakesNoCall | mobile-connect-sdk/src/main/impl/DiscoveryImpl.php:111-118 | With a live entry for the identified operator, automated discovery returns it and makes no REST call. |
| Oidc.GetScope | mobile-connect-sdk/src/main/impl/OIDCImpl.php:421-427 | The default scope for null. Otherwise the scope unchanged. |
| Oidc.GetMaxAge | mobile-connect-sdk/src/main/impl/OIDCImpl.php:405-411 | The default maximum age for null. Otherwise the value unchanged. |
| Oidc.GetAcrValues | mobile-connect-sdk/src/main/impl/OIDCImpl.php:388-395 | The default ACR values for null. Otherwise the value unchanged. |
| Oidc.LoginHint | mobile-connect-sdk/src/main/impl/OIDCImpl.php:129-133 | The options' login hint if set. Otherwise the prefixed encrypted MSISDN if given. Otherwise none. |
| Oidc.AuthHead | mobile-connect-sdk/src/main/impl/OIDCImpl.php:106-110 | The five leading parameters, with client_id and scope as given. |
| Oidc.AuthMiddle | mobile-connect-sdk/src/main/impl/OIDCImpl.php:114-119 | Nonce, display, optional prompt and max_age, with nonce and max_age as given. |
| Oidc.AuthTail | mobile-connect-sdk/src/main/impl/OIDCImpl.php:120-136 | The optional locales, id_token hint, login hint and dtbs, with login_hint and dtbs found exactly when given. |
| Oidc.AuthorizationParamsLookup | mobile-connect-sdk/src/main/impl/OIDCImpl.php:106-136 | In the whole request, client_id, scope, nonce and max_age are always found as given. state and dtbs are found exactly when given. login_hint is the chosen hint. |
| Oidc.AuthenticationOutcome | mobile-connect-sdk/src/main/impl/OIDCImpl.php:94-140 | Not a valid discovery result, then no authorization href, are OIDC failures. The outcome is a success iff the result names an operator with an authorization href. The URL is the decoded href, `?`, and the ordered parameters, and the screen mode is the options'. |
| Oidc.StartAuthentication | mobile-connect-sdk/src/main/impl/OIDCImpl.php:85-142 | An expired result is refused first. Then a missing redirect URI or nonce is refused. Then the outcome is the one `AuthenticationOutcome` describes. |
| Oidc.BuildAuthenticationUrl | mobile-connect-sdk/src/main/impl/OIDCImpl.php:104-139 | The builder steps produce the decoded href, `?`, and the query of the ordered parameters. |
| Oidc.AddAuthHead | mobile-connect-sdk/src/main/impl/OIDCImpl.php:106-110 | Appends the five leading parameters. |
| Oidc.AddAuthMiddle | mobile-connect-sdk/src/main/impl/OIDCImpl.php:114-119 | Appends nonce, display, the prompt if set, and max_age. |
| Oidc.AddAuthTail | mobile-connect-sdk/src/main/impl/OIDCImpl.php:120-136 | Appends the set locales and hints and the chosen login hint, in order. |
| Oidc.ParseAuthenticationResponse | mobile-connect-sdk/src/main/impl/OIDCImpl.php:152-166 | A missing URL is refused. An unparseable one is an OIDC failure. The outcome is a success iff the URL is present and its parameters extract. Then error, error_description, error_uri, state and code are each the first parameter of that name, or null. |
| Oidc.ParseAuthorizationCodeResponse | mobile-connect-sdk/src/main/impl/OIDCImpl.php:157-164 | A redirect carrying only code and state yields them, and no error fields. |
| Oidc.TokenParams | mobile-connect-sdk/src/main/impl/OIDCImpl.php:454-463 | Three parameters: redirect_uri, grant_type `authorization_code`, and code. |
| Oidc.TokenOutcome | mobile-connect-sdk/src/main/impl/OIDCImpl.php:206-217 | With the corrected exception helper, a REST failure is an OIDC failure carrying its uri, status, headers and contents (as written, see "## Left out"). An unparseable reply is an OIDC failure. The outcome is a success iff the call succeeded and its reply parses. Then it holds the parsed token data with the REST status code and headers. |
| Oidc.OIDCImpl.constructor | mobile-connect-sdk/src/main/impl/OIDCImpl.php:64-67 | Keeps the injected REST client. |
| Oidc.OIDCImpl.RequestToken | mobile-connect-sdk/src/main/impl/OIDCImpl.php:180-218 | An expired result, a missing argument, then a missing token endpoint fail with no call. Otherwise there is exactly one call to the token endpoint with the operator's credentials and the three parameters, and the outcome is `TokenOutcome`, with its corrected exception helper. |
| Oidc.ParseIDToken | mobile-connect-sdk/src/main/impl/OIDCImpl.php:230-239 | An expired result is refused first. Then a missing token is refused. A token the parser refuses is an OIDC failure. |
| Oidc.ExpiredResultRefusedFirst | mobile-connect-sdk/src/main/impl/OIDCImpl.php:250-297 | With an expired discovery result, all three operations fail with the expiry failure, even with every other argument missing, and make no REST call. |

## Left out

- **The HTTP client.** `RestClient`'s transport, its POST-or-GET choice by pattern, cookies, SSL options and timeout conversion are left out. The client is an oracle over the request the SDK builds.
- **The parameter encoding.** The request carries its base URI and its parameters as a list; the URL string that `HttpUtils` splits back into them is not modelled.
- **JSON.** `JsonUtils`, `HttpUtils::extractParameters` and `URLUtils::getGetParamsAsArray` are not part of this model. They are functions passed in, and `None` means the helper threw.
- **Helper classes.** `ValidationUtils`, `DiscoveryCacheKey`, `Constants`, `DiscoveryResponse`, `DiscoveryException` and `ParsedOperatorIdentifiedDiscoveryResult` are not part of this model.
  - `validateParameter` refuses a null or empty value.
  - `newWithDetails` gives a key only when MCC and MNC are both non-empty.
  - A discovery failure keeps the message and the REST exception, but not `DiscoveryException`'s own field layout.
  - `DiscoveryResponse::hasExpired` treats a null ttl as not expired.
- **The clock and floating point.** `microtime(true)` is a float, and a timezone is given. Both are an integer `now` read once per call.
- **Callbacks and the capture helpers.** These are replaced by return values. The `callback` argument checks are left out, because a callback is always given.
- **Value bags.** `ErrorResponse`, `ResponseJSON` and the option classes other than `DiscoveryOptions` are plain getters and setters. `TokenOptions` and `TimeoutOptions` contribute only their timeout.
- **Null options objects.** Arguments declared with a class type but tested with `is_null` cannot be null in PHP. They are modelled as always present, and the dead branches are left out. This covers the options objects, the cache and the REST client.
- **Zend headers.** A `Zend\Http\Headers` object is a list of name and value pairs. Zend's merging of repeated header names is not modelled.
- **`var_dump`.** The debug output in `startAutomatedOperatorDiscovery` is left out.
- **The `*ByPreferences` wrappers.** They only read three fields of a preferences object and delegate.
- **The URI builder's failure path.** `getUriBuilder` and `buildUrl` turn a builder exception into "Invalid URI". The builder contract known from its tests never throws, so this path is left out.
- **Timestamps as instants.** The cache value's ttl is an integer instant and `hasExpired` compares it with `now`.
- **The cache backend.** Cache storage and concurrency are left out, and so is eviction on read: `get` only reports an expired entry as absent.
- **Boolean and null parameters.** How the builder renders them at `DiscoveryImpl.php:607-611` is unknown, so the discovery parameters stay a typed list and are never rendered.
- Discovery.ParseDiscoveryRedirect: empty MCC or MNC parts are accepted, as the code does.
- StartAutomatedOperatorDiscovery: the ttl of a fresh response, and of the entry it caches, is the corrected `determineTtl` (`Ttl.DetermineTtl`), not the source's. As written (`DiscoveryImpl.php:702-725`, `Ttl.DetermineTtlAsWritten`), the hint is kept unchanged, or is `now + MAXIMUM_TTL_MS` without one. So a hint already in the past gives an expired response that `addCachedValue` still stores, and a hint past the maximum is kept.
- GetOperatorSelectionURL: the ttl of a fresh response is the corrected `determineTtl`, not the unclamped one the source computes.
- CompleteSelectedOperatorDiscovery: the ttl of a fresh response is the corrected `determineTtl`, not the unclamped one the source computes.
- BuildDiscoveryResponse: calls the corrected `Ttl.DetermineTtl` where `DiscoveryImpl.php:678` calls the aliasing `determineTtl`.
- DiscoveryOutcome: states the clamped ttl of the corrected `determineTtl`. The source's ttl is the hint unchanged, or `now + MAXIMUM_TTL_MS` without one.
- DiscoveryOutcomeValidity: its ttl bound holds for the corrected `determineTtl` only.
- Oidc.TokenOutcome: a REST failure is built with the corrected `OidcException.NewOIDCExceptionFromRestException`. As written (`OIDCImpl.php:214` calling line 474, `OidcException.FromRestExceptionAsWrittenShifts`), a REST failure with a body ends in a `TypeError`, and one without a body gives an exception with shifted getters.
- Oidc.OIDCImpl.RequestToken: its outcome is `Oidc.TokenOutcome`, so a failed token call carries the corrected exception, not the source's `TypeError` or shifted getters.
- Oidc.ParseIDToken: does not model the cause chained into "Not an id_token", because `OIDCException` drops its second argument.

## Findings

| source | as written | input that shows it | evidently intended | confidence | as-written member | corrected member |
|---|---|---|---|---|---|---|
| mobile-connect-sdk/src/main/impl/DiscoveryImpl.php:702-725 | `setTimestamp` returns the one `DateTime` created on entry, so `$min`, `$max` and `$currentTtl` are the same object. The comparisons never hold, and `$min` reads the maximum. | no ttl hint gives `now + MAXIMUM_TTL_MS`; hint `now + MAXIMUM_TTL_MS + 1` is returned unchanged | the hint clamped between `now + MINIMUM_TTL_MS` and `now + MAXIMUM_TTL_MS`, and the minimum without a hint, as the doc-comment says | high (not executed) | Ttl.DetermineTtlAsWrittenDoesNotClamp | Ttl.DetermineTtl |
| mobile-connect-sdk/src/main/impl/OIDCImpl.php:474 | The REST exception's fields are passed one slot to the right of `OIDCException`'s parameters, so its contents land in the `array`-typed `$headers` | a token endpoint failure with a response body: `TypeError` instead of an `OIDCException` | uri, status, headers and contents under their own getters | high (not executed) | OidcException.FromRestExceptionAsWrittenCounterexample | OidcException.NewOIDCExceptionFromRestException |
| mobile-connect-sdk/src/main/impl/OIDCImpl.php:490 | The same shift with a response puts its body in `$headers` | a call with a non-null response gives a `TypeError`. This is latent: the only caller, `OIDCImpl.php:216`, passes null, so the SDK never reaches it | the response's fields under their own getters | high for the text, latent in the SDK (not executed) | OidcException.WithRestResponseAsWrittenFails | OidcException.NewOIDCExceptionWithRestResponse |
| mobile-connect-sdk/src/main/impl/DiscoveryImpl.php:381-392 | `CacheOptions $options` has no null default, so the documented "no options clears everything" branch cannot be reached | `clearDiscoveryCache(null)`: `TypeError`, and the cache keeps its entries | null options empty the cache (`IDiscovery.php:254-261`) | medium (not executed) | Discovery.ClearDiscoveryCacheAsWrittenKeepsEntries | Discovery.DiscoveryImpl.ClearDiscoveryCache |
