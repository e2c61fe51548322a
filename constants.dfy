/**
 * The SDK's `Constants` class is not part of this model. Values that a
 * protocol fixes are written out: the OpenID Connect Core 1.0 authorization
 * parameters (section 3.1.2.1), the RFC 6749 token-request parameters
 * (section 4.1.3), the Mobile Connect discovery query parameters and HTTP's
 * Content-Type. Every other constant is declared without a value, so the
 * proofs hold whatever value the SDK gives it.
 */
module Constants {

  // Opaque SDK constants.
  const OperatorIdentifiedResponse: int
  const OperatorNotIdentifiedResponse: int
  const MinimumTtlMs: int
  const MaximumTtlMs: int
  const DefaultScopeValue: string
  const DefaultMaxAgeValue: int
  const DefaultAcrValuesValue: string
  const EncryptedMsisdnPrefix: string
  const DefaultRedirectUrl: string
  const XSourceIpHeaderName: string

  // HTTP.
  const ContentTypeHeaderName := "Content-Type"
  const AcceptJsonHeaderValue := "application/json"

  // Discovery request parameters.
  const ManuallySelectParameterName := "Manually-Select"
  const IdentifiedMccParameterName := "Identified-MCC"
  const IdentifiedMncParameterName := "Identified-MNC"
  const UsingMobileDataParameterName := "Using-Mobile-Data"
  const LocalClientIpParameterName := "Local-Client-IP"
  const RedirectUrlParameterName := "Redirect-URL"
  const SelectedMccParameterName := "Selected-MCC"
  const SelectedMncParameterName := "Selected-MNC"

  // Discovery redirect parameters.
  const MccMncParameterName := "mcc_mnc"
  const SubscriberIdParameterName := "subscriber_id"

  // Authorization request (OpenID Connect Core 1.0, section 3.1.2.1).
  const ClientIdParameterName := "client_id"
  const ResponseTypeParameterName := "response_type"
  const ResponseTypeParameterValue := "code"
  const ScopeParameterName := "scope"
  const RedirectUriParameterName := "redirect_uri"
  const AcrValuesParameterName := "acr_values"
  const StateParameterName := "state"
  const NonceParameterName := "nonce"
  const DisplayParameterName := "display"
  const PromptParameterName := "prompt"
  const MaxAgeParameterName := "max_age"
  const UiLocalesParameterName := "ui_locales"
  const ClaimsLocalesParameterName := "claims_locales"
  const IdTokenHintParameterName := "id_token_hint"
  const LoginHintParameterName := "login_hint"
  const DtbsParameterName := "dtbs"

  // Authorization response (RFC 6749, sections 4.1.2 and 4.1.2.1).
  const ErrorName := "error"
  const ErrorDescriptionName := "error_description"
  const ErrorUriName := "error_uri"
  const CodeParameterName := "code"

  // Token request (RFC 6749, section 4.1.3).
  const GrantTypeParameterName := "grant_type"
  const GrantTypeParameterValue := "authorization_code"
}
