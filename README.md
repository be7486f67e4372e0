# Twilio client credential resolution, modelled in Dafny

Twilio.AspNet.Core registers a `TwilioRestClient` in an ASP.NET Core service
container. Before it builds the client, it resolves the client's options in
three steps, and this project models those steps:

1. **Default configuration** (`ConfigureDefaultTwilioClientOptions`). It
   requires an `IConfiguration` and a `Twilio:Client` section. It binds the
   section's keys onto a `TwilioClientOptions` object. If `AuthToken` is still
   null or empty after binding, it takes the top-level `Twilio:AuthToken`.
2. **Sanitising** (`SanitizeTwilioClientOptions`). It turns empty strings into
   null in seven optional fields. Then it does one of two things:
   - If the credential type is `Unspecified`, it infers it. `ApiKey` wins over
     `AuthToken`.
   - If a credential type is given, it checks that the fields that type needs
     are set.
3. **Client construction** (`CreateTwilioClient`). It picks the
   username/password pair for the resolved type. It passes AccountSid, Region,
   Edge and the HTTP transport through. It sets `LogLevel` only when one is
   configured.

How the model is laid out:

- `wrappers.dfy` — `Option`, `Result` and `Outcome`. `None` stands for C#
  `null`, and every `throw` becomes a `Failure`/`Fail` carrying one
  `ConfigError`. There is one error constructor per exception message.
- `configuration.dfy` — the configuration is a flat map from keys to strings,
  where `:` joins the levels of a key. It defines section existence
  (`Exists()`) and key lookup.
- `client_options.dfy` — the `CredentialType` enum, the `OptionsState` value
  snapshot, and the mutable `TwilioClientOptions` class.
- `twilio_client_factory.dfy` — the operations. The two static C# methods that
  mutate their options argument are imperative methods with
  `modifies options`. Each is proved equal to a pure specification function
  (`DefaultConfigured`, `Sanitized`). The client factory's `switch` is the
  function `CreateTwilioClient`.
- `factory_properties.dfy` — lemmas for the promised properties, plus worked
  example configurations.

## Model

| member | source | states |
|---|---|---|
| `Configuration.ChildMakesSectionExist` | src/Twilio.AspNet.Core/TwilioClientDependencyInjectionExtensions.cs:75-76 | a configured key under `Twilio:Client:` makes the section exist |
| `TwilioClientFactory.BoundString` | src/Twilio.AspNet.Core/TwilioClientDependencyInjectionExtensions.cs:81 | binding a string property takes the section's value when the key is present, else keeps the property's value |
| `TwilioClientFactory.BoundCredentialType` | src/Twilio.AspNet.Core/TwilioClientDependencyInjectionExtensions.cs:81 | binding CredentialType keeps it when the key is absent, takes the named member when the key's text parses, and fails exactly when it does not |
| `TwilioClientFactory.Bound` | src/Twilio.AspNet.Core/TwilioClientDependencyInjectionExtensions.cs:81 | `section.Bind` succeeds exactly when CredentialType binds, and then carries the bound CredentialType |
| `TwilioClientFactory.Bind` | src/Twilio.AspNet.Core/TwilioClientDependencyInjectionExtensions.cs:81 | the field-by-field copy leaves the object in the state `Bound` gives; on failure the object is untouched |
| `TwilioClientFactory.DefaultConfigured` | src/Twilio.AspNet.Core/TwilioClientDependencyInjectionExtensions.cs:64-85 | a missing configuration fails with ConfigurationNotFound; a missing section fails with ClientSectionMissing; on success the section exists, and AuthToken is non-empty or equals `Twilio:AuthToken` |
| `TwilioClientFactory.ConfigureDefaultTwilioClientOptions` | src/Twilio.AspNet.Core/TwilioClientDependencyInjectionExtensions.cs:64-85 | the imperative step raises exactly the error of `DefaultConfigured`; on success it leaves the object in that function's state |
| `TwilioClientFactory.NullIfEmpty` | src/Twilio.AspNet.Core/TwilioClientDependencyInjectionExtensions.cs:90 | the result is never the empty string; a non-empty value is kept; null or empty becomes null |
| `TwilioClientFactory.Blanked` | src/Twilio.AspNet.Core/TwilioClientDependencyInjectionExtensions.cs:89-96 | after nulling, no optional field is blank, every non-empty field keeps its value, a blank one is null, and CredentialType is untouched |
| `TwilioClientFactory.NullBlankFields` | src/Twilio.AspNet.Core/TwilioClientDependencyInjectionExtensions.cs:89-96 | the seven guarded assignments leave the object in the `Blanked` state |
| `TwilioClientFactory.ResolveCredentialType` | src/Twilio.AspNet.Core/TwilioClientDependencyInjectionExtensions.cs:98-121 | a chosen type is never Unspecified, has its required fields non-null, and equals an explicit type |
| `TwilioClientFactory.Sanitized` | src/Twilio.AspNet.Core/TwilioClientDependencyInjectionExtensions.cs:87-122 | on success the options are `Resolved`: no blanks, a concrete type, its fields set; each field keeps its non-empty value; an explicit type is kept; each failure is the error tied to the input's type |
| `TwilioClientFactory.SanitizeTwilioClientOptions` | src/Twilio.AspNet.Core/TwilioClientDependencyInjectionExtensions.cs:87-122 | the imperative method raises exactly `Sanitized`'s error and leaves `Sanitized`'s state; after a failure the blanks are still nulled |
| `TwilioClientFactory.CreateTwilioClient` | src/Twilio.AspNet.Core/TwilioClientDependencyInjectionExtensions.cs:141-171 | ApiKey gives ApiKeySid/ApiKeySecret; AuthToken gives AccountSid/AuthToken; both pass AccountSid, Region, Edge and the transport through; Unspecified is the unreachable failure; LogLevel replaces the client default only when set |
| `TwilioClientFactory.ResolvedOptions` | src/Twilio.AspNet.Core/TwilioClientDependencyInjectionExtensions.cs:39-44 | the configure step, then sanitise; a successful result is `Resolved`, and a configure failure propagates unchanged |
| `TwilioClientFactory.ConfigureOptions` | src/Twilio.AspNet.Core/TwilioClientDependencyInjectionExtensions.cs:36-44 | a fresh options object goes through the default or custom step, then sanitising, ending in `ResolvedOptions`'s outcome and state |
| `TwilioClientFactory.ResolveClient` | src/Twilio.AspNet.Core/TwilioClientDependencyInjectionExtensions.cs:139-173 | every client the pipeline builds has a non-empty username, password and AccountSid, and the unreachable error never surfaces |
| `FactoryProperties.BlankedConfigured` | src/Twilio.AspNet.Core/TwilioClientDependencyInjectionExtensions.cs:98-102 | after nulling, "configured" (non-null) is the same as "set and non-empty" in the raw options |
| `FactoryProperties.SanitizeClearsBlanks` | src/Twilio.AspNet.Core/TwilioClientDependencyInjectionExtensions.cs:90-96 | after a successful sanitise no field is the empty string; non-empty fields are unchanged; blank ones are null |
| `FactoryProperties.BlankSameAsNull` | src/Twilio.AspNet.Core/TwilioClientDependencyInjectionExtensions.cs:90-102 | options that differ only by empty string versus null sanitise to the same result |
| `FactoryProperties.InferApiKey` | src/Twilio.AspNet.Core/TwilioClientDependencyInjectionExtensions.cs:98-106 | Unspecified with AccountSid, ApiKeySid and ApiKeySecret set infers ApiKey, even when AuthToken is set |
| `FactoryProperties.InferAuthToken` | src/Twilio.AspNet.Core/TwilioClientDependencyInjectionExtensions.cs:101-107 | Unspecified with an incomplete API-key set and with AccountSid and AuthToken set infers AuthToken |
| `FactoryProperties.InferFails` | src/Twilio.AspNet.Core/TwilioClientDependencyInjectionExtensions.cs:104-111 | Unspecified fails exactly when neither set is complete, and then with the "could not be determined" error |
| `FactoryProperties.ExplicitApiKey` | src/Twilio.AspNet.Core/TwilioClientDependencyInjectionExtensions.cs:112-116 | an explicit ApiKey succeeds exactly when its three fields are set, stays ApiKey, and otherwise fails with the ApiKey error whatever AuthToken holds |
| `FactoryProperties.ExplicitAuthToken` | src/Twilio.AspNet.Core/TwilioClientDependencyInjectionExtensions.cs:117-121 | an explicit AuthToken succeeds exactly when AccountSid and AuthToken are set, stays AuthToken, and otherwise fails with the AuthToken error whatever the API-key fields hold |
| `FactoryProperties.ResolvedIsFixedPoint` | src/Twilio.AspNet.Core/TwilioClientDependencyInjectionExtensions.cs:87-122 | options that are already resolved pass sanitising unchanged |
| `FactoryProperties.SanitizeIdempotent` | src/Twilio.AspNet.Core/TwilioClientDependencyInjectionExtensions.cs:87-122 | sanitising a sanitised result succeeds and changes nothing |
| `FactoryProperties.DefaultNeedsSection` | src/Twilio.AspNet.Core/TwilioClientDependencyInjectionExtensions.cs:75-79 | without a `Twilio:Client` section the default step fails with ClientSectionMissing |
| `FactoryProperties.DefaultAuthTokenFallback` | src/Twilio.AspNet.Core/TwilioClientDependencyInjectionExtensions.cs:81-84 | AuthToken is the bound value when that is non-empty, and otherwise the value of `Twilio:AuthToken` (null when absent) |
| `FactoryProperties.DefaultCopiesSection` | src/Twilio.AspNet.Core/TwilioClientDependencyInjectionExtensions.cs:81 | the other string fields take the section's values where present and keep their own otherwise |
| `FactoryProperties.DefaultBindsCredentialType` | src/Twilio.AspNet.Core/TwilioClientDependencyInjectionExtensions.cs:81 | after the default step, CredentialType is the member named by `Twilio:Client:CredentialType` when that key is present, and the previous type when it is absent |
| `FactoryProperties.ResolvedBuildsClient` | src/Twilio.AspNet.Core/TwilioClientDependencyInjectionExtensions.cs:141-166 | resolved options never reach the unreachable branch, and give a non-empty credential pair and AccountSid |
| `FactoryProperties.ExampleAuthTokenConfiguration` | src/Twilio.AspNet.Core/TwilioClientDependencyInjectionExtensions.cs:75-166 | `AccountSid=AC1, AuthToken=tok1` under `Twilio:Client` gives a client with username AC1 and password tok1 |
| `FactoryProperties.ExampleApiKeyConfiguration` | src/Twilio.AspNet.Core/TwilioClientDependencyInjectionExtensions.cs:75-153 | `AccountSid=AC1, ApiKeySid=SK1, ApiKeySecret=sec1` gives username SK1, password sec1 and AccountSid AC1 |
| `FactoryProperties.ExampleEmptyConfiguration` | src/Twilio.AspNet.Core/TwilioClientDependencyInjectionExtensions.cs:75-79 | an empty configuration fails with ClientSectionMissing |
| `FactoryProperties.ExampleTopLevelAuthToken` | src/Twilio.AspNet.Core/TwilioClientDependencyInjectionExtensions.cs:75-166 | with only `Twilio:Client:AccountSid` and `Twilio:AuthToken=top`, the fallback supplies the password `top` |

## Left out

- `AddTwilioClient` overloads and service registration (lines 15-62): this is
  dependency-injection plumbing (`AddOptions`, `AddScoped`, `AddHttpClient`).
  Only the options pipeline at lines 36-44 is modelled, as
  `ConfigureOptions`/`ResolvedOptions`. A caller-supplied configure callback is
  a total function from the fresh options state to the state it leaves. That
  callback's own exceptions and its access to the service provider are not
  modelled.
- HTTP transport (lines 46-56, 124-125, 132-137): the transport is an opaque
  `HttpClientHandle` that is passed through unchanged. When a caller gives no
  provider, `AddTwilioClient` substitutes `ProvideDefaultHttpClient` (lines
  46-48), so on the registered path the transport is never null. `None`
  arises only when `CreateTwilioClient` itself is called with a null provider
  (lines 132-133). Creating the `HttpClientHandler`, the
  `AllowAutoRedirect = false` setting and the `SystemNetHttpClient` wrapper are
  foreign library code.
- The `IConfiguration` service lookup (lines 69-73) is a parameter. When the
  lookup finds nothing, the parameter is `None`, which gives the
  ConfigurationNotFound error.
- The configuration binder and configuration keys are framework code:
  - Keys are compared case-sensitively. The framework compares them ignoring
    case.
  - CredentialType binds only from the exact names `Unspecified`, `ApiKey` and
    `AuthToken`. The binder's case-insensitive names and numeric forms are not
    modelled.
- `TwilioClientFactory.Bind`: on a binding failure, the model leaves the options
  untouched. The framework binder may already have assigned some properties
  before it throws. The options object is discarded either way.
- The `TwilioRestClient` internals are vendor code. The client is the record of
  its constructor arguments plus `LogLevel`. Its default `LogLevel` comes from
  the vendor's environment, so it is the parameter `defaultLogLevel`.
- TwilioClientFactory.Sanitized: its "concrete credential type" part (the
  predicate `Resolved`) holds only because `ClientOptions.CredentialType` has
  exactly three values. A C# enum variable can hold any integer, for example
  `(CredentialType)5` assigned by a custom callback or bound from a numeric
  configuration value. With such a value, none of the tests at lines 104, 112
  and 117 fires, so sanitising passes and keeps the value. The model does not
  represent out-of-range values.
- TwilioClientFactory.ResolveClient: its "the unreachable error never
  surfaces" part also relies on the closed three-value enum. With an
  out-of-range value that sanitising let through, `CreateTwilioClient` throws
  at line 165.
- The definitions of `TwilioClientOptions` and `CredentialType` are not part of
  this model. Their fields and enum members come from how the code uses them.
  The model assumes that `Unspecified` is the enum's default value, so a fresh
  options object starts with `Unspecified`.
- `src/testapps/dotnet6/Controllers/SmsController.cs` has no logic of its own.
  It only builds a TwiML reply through the vendor SDK.
