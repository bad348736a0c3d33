/** The bearer-token check shared by the ingestion API (Retriever) and the
    accumulator (Server). */
module Auth {
  import opened Wrappers

  /** `f'Bearer {expected_token}'`, where the token comes from the API_KEY
      environment variable and renders as "None" when it is not set. */
  function ExpectedHeader(apiKey: Option<string>): string {
    "Bearer " + (if apiKey.Some? then apiKey.value else "None")
  }

  datatype AuthorizationValidator = AuthorizationValidator(expectedToken: Option<string>) {

    /** A request passes only when its Authorization header is present and is
        exactly "Bearer " followed by the configured token. */
    predicate Validate(token: Option<string>) {
      token == Some(ExpectedHeader(expectedToken))
    }
  }

  /** A request without an Authorization header is always refused. */
  lemma MissingHeaderRefused(v: AuthorizationValidator)
    ensures !v.Validate(None)
  {
  }

  /** With the key set, exactly one header passes. */
  lemma ValidateExact(key: string, token: Option<string>)
    ensures AuthorizationValidator(Some(key)).Validate(token) <==> token == Some("Bearer " + key)
  {
  }

  /** With API_KEY unset, the header "Bearer None" passes: Python formats the
      missing value as "None". */
  lemma UnsetKeyAcceptsBearerNone()
    ensures AuthorizationValidator(None).Validate(Some("Bearer None"))
    ensures forall t :: AuthorizationValidator(None).Validate(t) <==> t == Some("Bearer None")
  {
    assert ExpectedHeader(None) == "Bearer None";
  }
}
