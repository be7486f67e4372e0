/** `TwilioClientOptions`: the mutable record that the configuration step
    fills in and the sanitising step normalises, before a REST client is
    built from it. */
module ClientOptions {
  import opened Wrappers

  /** How the REST client authenticates. `Unspecified` means "infer it from
      the fields that are set"; it is the value a fresh options object has. */
  datatype CredentialType = Unspecified | ApiKey | AuthToken

  /** The value of every field of an options object at one moment. A `None`
      field is a C# `null` string. */
  datatype OptionsState = OptionsState(
    accountSid: Option<string>,
    authToken: Option<string>,
    apiKeySid: Option<string>,
    apiKeySecret: Option<string>,
    region: Option<string>,
    edge: Option<string>,
    logLevel: Option<string>,
    credentialType: CredentialType
  )

  /** The state of a freshly constructed options object. */
  const Unset: OptionsState :=
    OptionsState(None, None, None, None, None, None, None, Unspecified)

  /** `string.IsNullOrEmpty`. */
  predicate IsNullOrEmpty(v: Option<string>)
  {
    v.None? || v.value == ""
  }

  /** The options object itself; the configuration and sanitising steps
      assign its fields one at a time. */
  class TwilioClientOptions {
    var accountSid: Option<string>
    var authToken: Option<string>
    var apiKeySid: Option<string>
    var apiKeySecret: Option<string>
    var region: Option<string>
    var edge: Option<string>
    var logLevel: Option<string>
    var credentialType: CredentialType

    /** The current value of all fields. */
    function State(): OptionsState
      reads this
    {
      OptionsState(accountSid, authToken, apiKeySid, apiKeySecret,
                   region, edge, logLevel, credentialType)
    }

    constructor ()
      ensures State() == Unset
    {
      accountSid, authToken, apiKeySid, apiKeySecret := None, None, None, None;
      region, edge, logLevel := None, None, None;
      credentialType := Unspecified;
    }

    /** Sets every field at once, as a caller-supplied configuration callback may. */
    method Assign(s: OptionsState)
      modifies this
      ensures State() == s
    {
      accountSid, authToken, apiKeySid, apiKeySecret := s.accountSid, s.authToken, s.apiKeySid, s.apiKeySecret;
      region, edge, logLevel := s.region, s.edge, s.logLevel;
      credentialType := s.credentialType;
    }
  }
}
