/** The credential-resolution path of `TwilioClientDependencyInjectionExtensions`:
    filling the options from configuration, sanitising and validating them,
    and choosing the credentials the REST client is built with. */
module TwilioClientFactory {
  import opened Wrappers
  import opened Configuration
  import opened ClientOptions

  /** One constructor per exception the resolution path throws. */
  datatype ConfigError =
    | ConfigurationNotFound        // no IConfiguration service is registered
    | ClientSectionMissing         // the "Twilio:Client" section does not exist
    | CredentialTypeUnparsable(text: string)  // the binder cannot convert "Twilio:Client:CredentialType"
    | CredentialTypeUndetermined   // no credential set is complete and no type is given
    | ApiKeyFieldsRequired         // CredentialType.ApiKey without AccountSid, ApiKeySid and ApiKeySecret
    | AuthTokenFieldsRequired      // CredentialType.AuthToken without AccountSid and AuthToken
    | UnreachableCredentialType    // the client factory meets a type it has no case for

  /** The section the default configuration step binds from. */
  const ClientSectionPath: string := "Twilio:Client"

  /** The top-level key used when the section carries no AuthToken. */
  const FallbackAuthTokenKey: string := "Twilio:AuthToken"

  // ---------------------------------------------------------------------
  // Binding the "Twilio:Client" section onto the options
  // ---------------------------------------------------------------------

  /** The value under "Twilio:Client:<name>", if that key is configured. */
  function ClientValue(c: Config, name: string): Option<string>
  {
    SectionGet(c, ClientSectionPath, name)
  }

  /** The binder's conversion of a configuration string to the enum. */
  function ParseCredentialType(text: string): (r: Option<CredentialType>)
    ensures r == Some(Unspecified) <==> text == "Unspecified"
    ensures r == Some(ApiKey) <==> text == "ApiKey"
    ensures r == Some(AuthToken) <==> text == "AuthToken"
  {
    if text == "Unspecified" then Some(Unspecified)
    else if text == "ApiKey" then Some(ApiKey)
    else if text == "AuthToken" then Some(AuthToken)
    else None
  }

  /** A string property after binding: the configured value if its key is
      present, the property's previous value otherwise. */
  function BoundString(c: Config, name: string, current: Option<string>): (r: Option<string>)
    ensures ClientValue(c, name).Some? ==> r == ClientValue(c, name)
    ensures ClientValue(c, name).None? ==> r == current
  {
    if ClientValue(c, name).Some? then ClientValue(c, name) else current
  }

  /** The CredentialType property after binding, or the binder's failure. */
  function BoundCredentialType(c: Config, current: CredentialType): (r: Result<CredentialType, ConfigError>)
    ensures ClientValue(c, "CredentialType").None? ==> r == Success(current)
    ensures r.Failure? <==>
      ClientValue(c, "CredentialType").Some? && ParseCredentialType(ClientValue(c, "CredentialType").value).None?
    ensures r.Failure? ==> r.error.CredentialTypeUnparsable?
    ensures ClientValue(c, "CredentialType").Some? && ParseCredentialType(ClientValue(c, "CredentialType").value).Some? ==>
      r == Success(ParseCredentialType(ClientValue(c, "CredentialType").value).value)
  {
    match ClientValue(c, "CredentialType")
    case None => Success(current)
    case Some(text) =>
      match ParseCredentialType(text)
      case Some(t) => Success(t)
      case None => Failure(CredentialTypeUnparsable(text))
  }

  /** `section.Bind(options)` as a value: every property whose key is present
      in the section takes that key's value; the others keep theirs. */
  function Bound(c: Config, s: OptionsState): (r: Result<OptionsState, ConfigError>)
    ensures r.Success? <==> BoundCredentialType(c, s.credentialType).Success?
    ensures r.Success? ==> r.value.credentialType == BoundCredentialType(c, s.credentialType).value
    ensures r.Failure? ==> r.error == BoundCredentialType(c, s.credentialType).error
  {
    match BoundCredentialType(c, s.credentialType)
    case Failure(e) => Failure(e)
    case Success(t) =>
      Success(OptionsState(
        BoundString(c, "AccountSid", s.accountSid),
        BoundString(c, "AuthToken", s.authToken),
        BoundString(c, "ApiKeySid", s.apiKeySid),
        BoundString(c, "ApiKeySecret", s.apiKeySecret),
        BoundString(c, "Region", s.region),
        BoundString(c, "Edge", s.edge),
        BoundString(c, "LogLevel", s.logLevel),
        t))
  }

  /** Copies the keys present in the "Twilio:Client" section into the options. */
  method Bind(c: Config, options: TwilioClientOptions) returns (outcome: Outcome<ConfigError>)
    modifies options
    ensures outcome == OutcomeOf(Bound(c, old(options.State())))
    ensures outcome.Pass? ==> options.State() == Bound(c, old(options.State())).value
    ensures outcome.Fail? ==> options.State() == old(options.State())
  {
    var credentialType := BoundCredentialType(c, options.credentialType);
    if credentialType.Failure? {
      return Fail(credentialType.error);
    }
    var v := ClientValue(c, "AccountSid");
    if v.Some? { options.accountSid := v; }
    v := ClientValue(c, "AuthToken");
    if v.Some? { options.authToken := v; }
    v := ClientValue(c, "ApiKeySid");
    if v.Some? { options.apiKeySid := v; }
    v := ClientValue(c, "ApiKeySecret");
    if v.Some? { options.apiKeySecret := v; }
    v := ClientValue(c, "Region");
    if v.Some? { options.region := v; }
    v := ClientValue(c, "Edge");
    if v.Some? { options.edge := v; }
    v := ClientValue(c, "LogLevel");
    if v.Some? { options.logLevel := v; }
    options.credentialType := credentialType.value;
    return Pass;
  }

  // ---------------------------------------------------------------------
  // ConfigureDefaultTwilioClientOptions
  // ---------------------------------------------------------------------

  /** The options after the default configuration step, starting from `s`:
      the section must exist, is bound, and an AuthToken that is still null
      or empty is taken from the top-level "Twilio:AuthToken" key. */
  function DefaultConfigured(configuration: Option<Config>, s: OptionsState): (r: Result<OptionsState, ConfigError>)
    ensures configuration.None? ==> r == Failure(ConfigurationNotFound)
    ensures configuration.Some? && !SectionExists(configuration.value, ClientSectionPath) ==>
      r == Failure(ClientSectionMissing)
    ensures r.Success? ==> configuration.Some? && SectionExists(configuration.value, ClientSectionPath)
    ensures r.Success? ==> !IsNullOrEmpty(r.value.authToken) || r.value.authToken == Get(configuration.value, FallbackAuthTokenKey)
  {
    match configuration
    case None => Failure(ConfigurationNotFound)
    case Some(c) =>
      if !SectionExists(c, ClientSectionPath) then Failure(ClientSectionMissing)
      else
        match Bound(c, s)
        case Failure(e) => Failure(e)
        case Success(b) =>
          if IsNullOrEmpty(b.authToken) then Success(b.(authToken := Get(c, FallbackAuthTokenKey)))
          else Success(b)
  }

  /** The default configuration step, which fills `options` from the
      application's configuration (null when none is registered). */
  method ConfigureDefaultTwilioClientOptions(configuration: Option<Config>, options: TwilioClientOptions)
    returns (outcome: Outcome<ConfigError>)
    modifies options
    ensures outcome == OutcomeOf(DefaultConfigured(configuration, old(options.State())))
    ensures outcome.Pass? ==> options.State() == DefaultConfigured(configuration, old(options.State())).value
    ensures outcome.Fail? ==> options.State() == old(options.State())
  {
    if configuration.None? {
      return Fail(ConfigurationNotFound);
    }
    var c := configuration.value;
    if !SectionExists(c, ClientSectionPath) {
      return Fail(ClientSectionMissing);
    }
    outcome := Bind(c, options);
    if outcome.Fail? {
      return;
    }
    if IsNullOrEmpty(options.authToken) {
      options.authToken := Get(c, FallbackAuthTokenKey);
    }
  }

  // ---------------------------------------------------------------------
  // SanitizeTwilioClientOptions
  // ---------------------------------------------------------------------

  /** A string field that is set and not empty. */
  predicate Present(v: Option<string>)
  {
    !IsNullOrEmpty(v)
  }

  /** The empty string turned into null; every other value kept. */
  function NullIfEmpty(v: Option<string>): (r: Option<string>)
    ensures r != Some("")
    ensures Present(v) ==> r == v
    ensures IsNullOrEmpty(v) ==> r == None
  {
    if v == Some("") then None else v
  }

  /** No optional string field holds the empty string. */
  predicate NoBlankFields(s: OptionsState)
  {
    s.accountSid != Some("") && s.authToken != Some("") &&
    s.apiKeySid != Some("") && s.apiKeySecret != Some("") &&
    s.region != Some("") && s.edge != Some("") && s.logLevel != Some("")
  }

  /** The seven optional string fields with empty strings turned into null. */
  function Blanked(s: OptionsState): (r: OptionsState)
    ensures NoBlankFields(r)
    ensures SanitizedFields(s, r)
    ensures r.credentialType == s.credentialType
  {
    OptionsState(
      NullIfEmpty(s.accountSid), NullIfEmpty(s.authToken),
      NullIfEmpty(s.apiKeySid), NullIfEmpty(s.apiKeySecret),
      NullIfEmpty(s.region), NullIfEmpty(s.edge), NullIfEmpty(s.logLevel),
      s.credentialType)
  }

  /** `isApiKeyConfigured`: AccountSid, ApiKeySid and ApiKeySecret are non-null. */
  predicate ApiKeyConfigured(s: OptionsState)
  {
    s.accountSid.Some? && s.apiKeySid.Some? && s.apiKeySecret.Some?
  }

  /** `isAuthTokenConfigured`: AccountSid and AuthToken are non-null. */
  predicate AuthTokenConfigured(s: OptionsState)
  {
    s.accountSid.Some? && s.authToken.Some?
  }

  /** The invariant sanitising establishes: no field is blank, the credential
      type is concrete, and the fields that type needs are set. */
  predicate Resolved(s: OptionsState)
  {
    NoBlankFields(s) &&
    match s.credentialType
    case Unspecified => false
    case ApiKey => ApiKeyConfigured(s)
    case AuthToken => AuthTokenConfigured(s)
  }

  /** The credential type chosen for options whose blank fields are already
      null: inferred (API key first) when unspecified, checked when explicit. */
  function ResolveCredentialType(b: OptionsState): (r: Result<CredentialType, ConfigError>)
    ensures r.Success? ==> r.value != Unspecified
    ensures r.Success? && r.value == ApiKey ==> ApiKeyConfigured(b)
    ensures r.Success? && r.value == AuthToken ==> AuthTokenConfigured(b)
    ensures b.credentialType != Unspecified && r.Success? ==> r.value == b.credentialType
  {
    match b.credentialType
    case Unspecified =>
      if ApiKeyConfigured(b) then Success(ApiKey)
      else if AuthTokenConfigured(b) then Success(AuthToken)
      else Failure(CredentialTypeUndetermined)
    case ApiKey =>
      if ApiKeyConfigured(b) then Success(ApiKey) else Failure(ApiKeyFieldsRequired)
    case AuthToken =>
      if AuthTokenConfigured(b) then Success(AuthToken) else Failure(AuthTokenFieldsRequired)
  }

  /** A field after sanitising, compared with the field before. */
  predicate SanitizedField(before: Option<string>, after: Option<string>)
  {
    after != Some("") && (Present(before) ==> after == before) && (IsNullOrEmpty(before) ==> after.None?)
  }

  /** Every optional string field of `after` is the sanitised field of `before`. */
  predicate SanitizedFields(before: OptionsState, after: OptionsState)
  {
    SanitizedField(before.accountSid, after.accountSid) &&
    SanitizedField(before.authToken, after.authToken) &&
    SanitizedField(before.apiKeySid, after.apiKeySid) &&
    SanitizedField(before.apiKeySecret, after.apiKeySecret) &&
    SanitizedField(before.region, after.region) &&
    SanitizedField(before.edge, after.edge) &&
    SanitizedField(before.logLevel, after.logLevel)
  }

  /** The error sanitising raises for options whose credential type is `t`. */
  function ErrorFor(t: CredentialType): ConfigError
  {
    match t
    case Unspecified => CredentialTypeUndetermined
    case ApiKey => ApiKeyFieldsRequired
    case AuthToken => AuthTokenFieldsRequired
  }

  /** The options after a successful sanitising step, or the error it raises. */
  function Sanitized(s: OptionsState): (r: Result<OptionsState, ConfigError>)
    ensures r.Success? ==> Resolved(r.value) && SanitizedFields(s, r.value)
    ensures r.Success? && s.credentialType != Unspecified ==> r.value.credentialType == s.credentialType
    ensures r.Failure? ==> r.error == ErrorFor(s.credentialType)
  {
    var b := Blanked(s);
    match ResolveCredentialType(b)
    case Success(t) => Success(b.(credentialType := t))
    case Failure(e) => Failure(e)
  }

  /** The seven assignments that turn an empty string field into null. */
  method NullBlankFields(options: TwilioClientOptions)
    modifies options
    ensures options.State() == Blanked(old(options.State()))
  {
    ghost var blanked := Blanked(options.State());
    if options.accountSid == Some("") { options.accountSid := None; }
    assert options.accountSid == blanked.accountSid;
    if options.authToken == Some("") { options.authToken := None; }
    assert options.authToken == blanked.authToken;
    if options.apiKeySid == Some("") { options.apiKeySid := None; }
    assert options.apiKeySid == blanked.apiKeySid;
    if options.apiKeySecret == Some("") { options.apiKeySecret := None; }
    assert options.apiKeySecret == blanked.apiKeySecret;
    if options.region == Some("") { options.region := None; }
    assert options.region == blanked.region;
    if options.edge == Some("") { options.edge := None; }
    assert options.edge == blanked.edge;
    if options.logLevel == Some("") { options.logLevel := None; }
  }

  /** Normalises blank fields to null, then infers or checks the credential
      type. The blank fields are nulled even when the check then fails. */
  method SanitizeTwilioClientOptions(options: TwilioClientOptions) returns (outcome: Outcome<ConfigError>)
    modifies options
    ensures outcome == OutcomeOf(Sanitized(old(options.State())))
    ensures outcome.Pass? ==> options.State() == Sanitized(old(options.State())).value
    ensures outcome.Fail? ==> options.State() == Blanked(old(options.State()))
  {
    NullBlankFields(options);

    var isApiKeyConfigured := options.accountSid.Some? && options.apiKeySid.Some? && options.apiKeySecret.Some?;
    var isAuthTokenConfigured := options.accountSid.Some? && options.authToken.Some?;

    if options.credentialType == Unspecified {
      if isApiKeyConfigured {
        options.credentialType := ApiKey;
      } else if isAuthTokenConfigured {
        options.credentialType := AuthToken;
      } else {
        return Fail(CredentialTypeUndetermined);
      }
    } else if options.credentialType == ApiKey && !isApiKeyConfigured {
      return Fail(ApiKeyFieldsRequired);
    } else if options.credentialType == AuthToken && !isAuthTokenConfigured {
      return Fail(AuthTokenFieldsRequired);
    }
    return Pass;
  }

  // ---------------------------------------------------------------------
  // CreateTwilioClient
  // ---------------------------------------------------------------------

  /** The HTTP transport handed to the client; its internals are not modelled. */
  datatype HttpClientHandle = HttpClientHandle(id: nat)

  /** The vendor REST client, as the arguments it was constructed with plus
      its LogLevel property. */
  datatype TwilioRestClient = TwilioRestClient(
    username: Option<string>,
    password: Option<string>,
    accountSid: Option<string>,
    region: Option<string>,
    httpClient: Option<HttpClientHandle>,
    edge: Option<string>,
    logLevel: Option<string>
  )

  /** The client built from resolved options: the credential pair follows
      the credential type, AccountSid, Region, Edge and the transport pass
      through, and LogLevel overrides the client's own default only when set.
      `defaultLogLevel` is the value the vendor client starts with. */
  function CreateTwilioClient(options: OptionsState, httpClient: Option<HttpClientHandle>, defaultLogLevel: Option<string>)
    : (r: Result<TwilioRestClient, ConfigError>)
    ensures r.Failure? <==> options.credentialType == Unspecified
    ensures r.Failure? ==> r.error == UnreachableCredentialType
    ensures options.credentialType == ApiKey ==>
      r.Success? && r.value.username == options.apiKeySid && r.value.password == options.apiKeySecret
    ensures options.credentialType == AuthToken ==>
      r.Success? && r.value.username == options.accountSid && r.value.password == options.authToken
    ensures r.Success? ==>
      r.value.accountSid == options.accountSid && r.value.region == options.region &&
      r.value.edge == options.edge && r.value.httpClient == httpClient
    ensures r.Success? && options.logLevel.Some? ==> r.value.logLevel == options.logLevel
    ensures r.Success? && options.logLevel.None? ==> r.value.logLevel == defaultLogLevel
  {
    var client :=
      match options.credentialType
      case ApiKey =>
        Success(TwilioRestClient(options.apiKeySid, options.apiKeySecret, options.accountSid,
                                 options.region, httpClient, options.edge, defaultLogLevel))
      case AuthToken =>
        Success(TwilioRestClient(options.accountSid, options.authToken, options.accountSid,
                                 options.region, httpClient, options.edge, defaultLogLevel))
      case Unspecified =>
        Failure(UnreachableCredentialType);
    match client
    case Failure(e) => Failure(e)
    case Success(cl) =>
      if options.logLevel.Some? then Success(cl.(logLevel := options.logLevel)) else Success(cl)
  }

  // ---------------------------------------------------------------------
  // The options pipeline registered by AddTwilioClient
  // ---------------------------------------------------------------------

  /** Which configuration step fills a fresh options object: the default one,
      or a caller-supplied callback, given here by the state it leaves. */
  datatype OptionsSetup = DefaultSetup | CustomSetup(configure: OptionsState -> OptionsState)

  /** The options after the configuration step, before sanitising. */
  function Configured(setup: OptionsSetup, configuration: Option<Config>): Result<OptionsState, ConfigError>
  {
    match setup
    case DefaultSetup => DefaultConfigured(configuration, Unset)
    case CustomSetup(configure) => Success(configure(Unset))
  }

  /** The options the client factory receives: configured, then sanitised. */
  function ResolvedOptions(setup: OptionsSetup, configuration: Option<Config>): (r: Result<OptionsState, ConfigError>)
    ensures r.Success? ==> Resolved(r.value)
    ensures Configured(setup, configuration).Failure? ==> r == Configured(setup, configuration)
  {
    match Configured(setup, configuration)
    case Failure(e) => Failure(e)
    case Success(s) => Sanitized(s)
  }

  /** Builds the options object: a fresh object, the configuration step, then
      sanitising; the first failure stops the pipeline. */
  method ConfigureOptions(setup: OptionsSetup, configuration: Option<Config>)
    returns (options: TwilioClientOptions, outcome: Outcome<ConfigError>)
    ensures fresh(options)
    ensures outcome == OutcomeOf(ResolvedOptions(setup, configuration))
    ensures outcome.Pass? ==> options.State() == ResolvedOptions(setup, configuration).value
  {
    options := new TwilioClientOptions();
    match setup {
      case DefaultSetup =>
        outcome := ConfigureDefaultTwilioClientOptions(configuration, options);
      case CustomSetup(configure) =>
        options.Assign(configure(options.State()));
        outcome := Pass;
    }
    if outcome.Pass? {
      outcome := SanitizeTwilioClientOptions(options);
    }
  }

  /** The client a request scope receives: resolved options, then the factory. */
  function ResolveClient(setup: OptionsSetup, configuration: Option<Config>,
                         httpClient: Option<HttpClientHandle>, defaultLogLevel: Option<string>)
    : (r: Result<TwilioRestClient, ConfigError>)
    ensures r.Success? ==> Present(r.value.username) && Present(r.value.password) && Present(r.value.accountSid)
    ensures r.Failure? ==> r.error != UnreachableCredentialType
  {
    match ResolvedOptions(setup, configuration)
    case Failure(e) => Failure(e)
    case Success(o) => CreateTwilioClient(o, httpClient, defaultLogLevel)
  }
}
