/** What the credential-resolution path promises: how sanitising treats
    blank fields, which credential type it infers or insists on, that it is
    idempotent, where the default configuration step finds the AuthToken,
    which credentials the client receives, and worked configurations. */
module FactoryProperties {
  import opened Wrappers
  import opened Configuration
  import opened ClientOptions
  import opened TwilioClientFactory

  /** AccountSid, ApiKeySid and ApiKeySecret are all set and non-empty. */
  predicate ApiKeyComplete(s: OptionsState)
  {
    Present(s.accountSid) && Present(s.apiKeySid) && Present(s.apiKeySecret)
  }

  /** AccountSid and AuthToken are both set and non-empty. */
  predicate AuthTokenComplete(s: OptionsState)
  {
    Present(s.accountSid) && Present(s.authToken)
  }

  /** After blanks are nulled, "configured" (non-null) means "complete"
      (non-null and non-empty) in the raw options. */
  lemma BlankedConfigured(s: OptionsState)
    ensures ApiKeyConfigured(Blanked(s)) <==> ApiKeyComplete(s)
    ensures AuthTokenConfigured(Blanked(s)) <==> AuthTokenComplete(s)
  {
  }

  // ---------------------------------------------------------------------
  // Sanitising: blank fields
  // ---------------------------------------------------------------------

  /** After a successful sanitise no optional field is the empty string, a
      field that was non-empty is unchanged, and a blank one is null. */
  lemma SanitizeClearsBlanks(s: OptionsState)
    requires Sanitized(s).Success?
    ensures NoBlankFields(Sanitized(s).value)
    ensures SanitizedFields(s, Sanitized(s).value)
  {
  }

  /** An empty string and null are indistinguishable to sanitising. */
  lemma BlankSameAsNull(s: OptionsState, t: OptionsState)
    requires Blanked(s) == Blanked(t)
    ensures Sanitized(s) == Sanitized(t)
  {
  }

  // ---------------------------------------------------------------------
  // Sanitising: inferring the credential type
  // ---------------------------------------------------------------------

  /** Unspecified with a complete API-key set infers ApiKey, whether or not
      an AuthToken is present too. */
  lemma InferApiKey(s: OptionsState)
    requires s.credentialType == Unspecified && ApiKeyComplete(s)
    ensures Sanitized(s).Success? && Sanitized(s).value.credentialType == ApiKey
  {
  }

  /** Unspecified with an incomplete API-key set but AccountSid and AuthToken
      present infers AuthToken. */
  lemma InferAuthToken(s: OptionsState)
    requires s.credentialType == Unspecified && !ApiKeyComplete(s) && AuthTokenComplete(s)
    ensures Sanitized(s).Success? && Sanitized(s).value.credentialType == AuthToken
  {
  }

  /** Unspecified fails, with the "could not be determined" error, exactly
      when neither credential set is complete. */
  lemma InferFails(s: OptionsState)
    requires s.credentialType == Unspecified
    ensures Sanitized(s).Failure? <==> !ApiKeyComplete(s) && !AuthTokenComplete(s)
    ensures Sanitized(s).Failure? ==> Sanitized(s).error == CredentialTypeUndetermined
  {
  }

  // ---------------------------------------------------------------------
  // Sanitising: an explicit credential type
  // ---------------------------------------------------------------------

  /** An explicit ApiKey is kept when its fields are complete and otherwise
      fails, even if AccountSid and AuthToken are complete. */
  lemma ExplicitApiKey(s: OptionsState)
    requires s.credentialType == ApiKey
    ensures Sanitized(s).Success? <==> ApiKeyComplete(s)
    ensures Sanitized(s).Success? ==> Sanitized(s).value.credentialType == ApiKey
    ensures Sanitized(s).Failure? ==> Sanitized(s).error == ApiKeyFieldsRequired
  {
  }

  /** An explicit AuthToken is kept when its fields are complete and
      otherwise fails, even if the API-key set is complete. */
  lemma ExplicitAuthToken(s: OptionsState)
    requires s.credentialType == AuthToken
    ensures Sanitized(s).Success? <==> AuthTokenComplete(s)
    ensures Sanitized(s).Success? ==> Sanitized(s).value.credentialType == AuthToken
    ensures Sanitized(s).Failure? ==> Sanitized(s).error == AuthTokenFieldsRequired
  {
  }

  // ---------------------------------------------------------------------
  // Sanitising: the resolved invariant and idempotence
  // ---------------------------------------------------------------------

  /** Options that are already resolved pass sanitising unchanged. */
  lemma ResolvedIsFixedPoint(t: OptionsState)
    requires Resolved(t)
    ensures Sanitized(t) == Success(t)
  {
  }

  /** Sanitising twice succeeds and gives what sanitising once gave. */
  lemma SanitizeIdempotent(s: OptionsState)
    requires Sanitized(s).Success?
    ensures Sanitized(Sanitized(s).value) == Sanitized(s)
  {
  }

  // ---------------------------------------------------------------------
  // The default configuration step
  // ---------------------------------------------------------------------

  /** Without a "Twilio:Client" section the default step fails, and it
      binds nothing. */
  lemma DefaultNeedsSection(c: Config, s: OptionsState)
    requires !SectionExists(c, ClientSectionPath)
    ensures DefaultConfigured(Some(c), s) == Failure(ClientSectionMissing)
  {
  }

  /** After the default step, AuthToken is "Twilio:Client:AuthToken" when that
      key is non-empty; the previous value when the key is absent and that
      value is non-empty; and "Twilio:AuthToken" (possibly null) otherwise. */
  lemma DefaultAuthTokenFallback(c: Config, s: OptionsState)
    requires DefaultConfigured(Some(c), s).Success?
    ensures var bound := if ClientValue(c, "AuthToken").Some? then ClientValue(c, "AuthToken") else s.authToken;
            DefaultConfigured(Some(c), s).value.authToken ==
              if Present(bound) then bound else Get(c, FallbackAuthTokenKey)
  {
  }

  /** The other string fields are the section's values where given and
      otherwise keep their previous values. */
  lemma DefaultCopiesSection(c: Config, s: OptionsState)
    requires DefaultConfigured(Some(c), s).Success?
    ensures var r := DefaultConfigured(Some(c), s).value;
      r.accountSid == BoundString(c, "AccountSid", s.accountSid) &&
      r.apiKeySid == BoundString(c, "ApiKeySid", s.apiKeySid) &&
      r.apiKeySecret == BoundString(c, "ApiKeySecret", s.apiKeySecret) &&
      r.region == BoundString(c, "Region", s.region) &&
      r.edge == BoundString(c, "Edge", s.edge) &&
      r.logLevel == BoundString(c, "LogLevel", s.logLevel)
  {
  }

  /** After the default step, CredentialType is the member named by
      "Twilio:Client:CredentialType" when that key is present, and the
      previous type when it is absent. */
  lemma DefaultBindsCredentialType(c: Config, s: OptionsState)
    requires DefaultConfigured(Some(c), s).Success?
    ensures ClientValue(c, "CredentialType").None? ==>
      DefaultConfigured(Some(c), s).value.credentialType == s.credentialType
    ensures ClientValue(c, "CredentialType").Some? ==>
      Some(DefaultConfigured(Some(c), s).value.credentialType) ==
        ParseCredentialType(ClientValue(c, "CredentialType").value)
  {
  }

  // ---------------------------------------------------------------------
  // The client factory
  // ---------------------------------------------------------------------

  /** Resolved options always build a client: the unreachable branch is
      never taken, and its credentials are the non-empty pair of the mode. */
  lemma ResolvedBuildsClient(o: OptionsState, httpClient: Option<HttpClientHandle>, defaultLogLevel: Option<string>)
    requires Resolved(o)
    ensures CreateTwilioClient(o, httpClient, defaultLogLevel).Success?
    ensures var client := CreateTwilioClient(o, httpClient, defaultLogLevel).value;
      Present(client.username) && Present(client.password) && Present(client.accountSid)
  {
  }

  /** The full keys the default configuration step reads. */
  lemma ClientKeys()
    ensures ChildKey(ClientSectionPath, "AccountSid") == "Twilio:Client:AccountSid"
    ensures ChildKey(ClientSectionPath, "AuthToken") == "Twilio:Client:AuthToken"
    ensures ChildKey(ClientSectionPath, "ApiKeySid") == "Twilio:Client:ApiKeySid"
    ensures ChildKey(ClientSectionPath, "ApiKeySecret") == "Twilio:Client:ApiKeySecret"
    ensures ChildKey(ClientSectionPath, "Region") == "Twilio:Client:Region"
    ensures ChildKey(ClientSectionPath, "Edge") == "Twilio:Client:Edge"
    ensures ChildKey(ClientSectionPath, "LogLevel") == "Twilio:Client:LogLevel"
    ensures ChildKey(ClientSectionPath, "CredentialType") == "Twilio:Client:CredentialType"
  {
  }

  // ---------------------------------------------------------------------
  // Worked configurations
  // ---------------------------------------------------------------------

  /** AccountSid and AuthToken under "Twilio:Client" give an AuthToken client
      that signs in as the account. */
  lemma ExampleAuthTokenConfiguration()
    ensures ResolveClient(DefaultSetup,
      Some(Config(map["Twilio:Client:AccountSid" := "AC1", "Twilio:Client:AuthToken" := "tok1"])),
      None, None)
      == Success(TwilioRestClient(Some("AC1"), Some("tok1"), Some("AC1"), None, None, None, None))
  {
    var c := Config(map["Twilio:Client:AccountSid" := "AC1", "Twilio:Client:AuthToken" := "tok1"]);
    ClientKeys();
    ChildMakesSectionExist(c, ClientSectionPath, "AccountSid");
  }

  /** A complete API-key set gives an ApiKey client that signs in with the key. */
  lemma ExampleApiKeyConfiguration()
    ensures ResolveClient(DefaultSetup,
      Some(Config(map["Twilio:Client:AccountSid" := "AC1", "Twilio:Client:ApiKeySid" := "SK1",
                      "Twilio:Client:ApiKeySecret" := "sec1"])),
      None, None)
      == Success(TwilioRestClient(Some("SK1"), Some("sec1"), Some("AC1"), None, None, None, None))
  {
    var c := Config(map["Twilio:Client:AccountSid" := "AC1", "Twilio:Client:ApiKeySid" := "SK1",
                        "Twilio:Client:ApiKeySecret" := "sec1"]);
    ClientKeys();
    ChildMakesSectionExist(c, ClientSectionPath, "AccountSid");
  }

  /** An empty configuration has no "Twilio:Client" section. */
  lemma ExampleEmptyConfiguration()
    ensures ResolveClient(DefaultSetup, Some(Config(map[])), None, None) == Failure(ClientSectionMissing)
  {
  }

  /** Without "Twilio:Client:AuthToken" the top-level "Twilio:AuthToken" is used. */
  lemma ExampleTopLevelAuthToken()
    ensures ResolveClient(DefaultSetup,
      Some(Config(map["Twilio:Client:AccountSid" := "AC1", "Twilio:AuthToken" := "top"])),
      None, None)
      == Success(TwilioRestClient(Some("AC1"), Some("top"), Some("AC1"), None, None, None, None))
  {
    var c := Config(map["Twilio:Client:AccountSid" := "AC1", "Twilio:AuthToken" := "top"]);
    ClientKeys();
    ChildMakesSectionExist(c, ClientSectionPath, "AccountSid");
  }
}
