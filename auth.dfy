/**
 * The authentication middleware of the case-management API (`auth.js`): requests whose
 * Authorization header mentions "InternalWS" are checked against the internal web
 * service token, all others go to Keycloak bearer authentication.
 */
module Auth {
  import opened Wrappers
  import opened Json
  import opened Strings

  /** What the middleware does with a request. */
  datatype Decision =
    | Pass                    // `next()`: the request proceeds
    | Refused(reply: Reply)   // answered here
    | Keycloak                // handed to session-less Keycloak bearer authentication

  const InternalScheme := "InternalWS"

  /** The 403 answer of a wrong internal token. */
  const Mismatch := Reply(403, JObj(map["error" := JStr("Internal token mismatch")]))

  /** A string concatenated with an environment variable: an unset one reads "undefined". */
  function EnvText(v: Option<string>): string
  {
    if v.None? then "undefined" else v.value
  }

  /**
   * `internalAuth` as written: the header must equal "InternalWS " followed by the
   * configured token, compared strictly; anything else, a missing header included, is
   * refused with 403.
   */
  function InternalAuth(header: Option<string>, token: Option<string>): (r: Decision)
    ensures r == Pass <==> header == Some(InternalScheme + " " + EnvText(token))
    ensures r != Pass ==> r == Refused(Mismatch)
  {
    if header == Some(InternalScheme + " " + EnvText(token)) then Pass else Refused(Mismatch)
  }

  /** `authChecker`: the dispatch on the Authorization header. */
  function AuthChecker(header: Option<string>, token: Option<string>): (r: Decision)
    ensures r == Keycloak <==> header.None? || !Contains(header.value, InternalScheme)
    ensures r != Keycloak ==> r == InternalAuth(header, token)
  {
    if header.Some? && Contains(header.value, InternalScheme) then InternalAuth(header, token) else Keycloak
  }

  /** The internal token is the only way past the internal check: a request passes exactly with the configured header. */
  lemma PassesOnlyWithToken(header: Option<string>, token: Option<string>)
    ensures AuthChecker(header, token) == Pass <==> header == Some(InternalScheme + " " + EnvText(token))
  {
    if header == Some(InternalScheme + " " + EnvText(token)) {
      assert OccursAt(header.value, InternalScheme, 0);
    }
  }

  /** With no internal token configured, the fixed header "InternalWS undefined" passes the check. */
  lemma AsWrittenUnsetTokenPasses()
    ensures AuthChecker(Some("InternalWS undefined"), None) == Pass
  {
    assert InternalScheme + " " + EnvText(None) == "InternalWS undefined";
    PassesOnlyWithToken(Some("InternalWS undefined"), None);
  }

  /** The internal check refusing every header when no token is configured. */
  function InternalAuthChecked(header: Option<string>, token: Option<string>): (r: Decision)
    ensures r == Pass <==> token.Some? && header == Some(InternalScheme + " " + token.value)
    ensures r != Pass ==> r == Refused(Mismatch)
  {
    if token.Some? && header == Some(InternalScheme + " " + token.value) then Pass else Refused(Mismatch)
  }

  /** The dispatch with the checked internal test. */
  function AuthCheckerChecked(header: Option<string>, token: Option<string>): (r: Decision)
    ensures r == Keycloak <==> header.None? || !Contains(header.value, InternalScheme)
    ensures r != Keycloak ==> r == InternalAuthChecked(header, token)
  {
    if header.Some? && Contains(header.value, InternalScheme) then InternalAuthChecked(header, token) else Keycloak
  }

  /** The checked dispatch lets nothing through without a token and agrees with the written one when a token is set. */
  lemma CheckedNeedsToken(header: Option<string>, token: Option<string>)
    ensures token.None? ==> AuthCheckerChecked(header, token) != Pass
    ensures token.Some? ==> AuthCheckerChecked(header, token) == AuthChecker(header, token)
  {
  }
}
