# Pulumi ESC OpenFeature provider — Dafny model

The provider serves OpenFeature flag evaluations from values stored in a Pulumi ESC
environment. A typed evaluation (boolean, string, float, integer) makes one property read
against the environment opened at construction. It then decides:

- a failed read is a FLAG_NOT_FOUND error when the OpenAPI error body says "not found"
  with code 400, and a GENERAL error otherwise;
- a successful read whose dynamic value has the wrong type is a TYPE_MISMATCH;
- otherwise the result is a STATIC success carrying the value's `secret` and `trace` markers.

Every error path hands back the caller's default. Object evaluation is always a GENERAL
"not implemented" error. Construction creates a NotReady provider and applies the options
in order. It then builds the client configuration (default, or custom from the last custom
URL) and opens the environment. Only then does the provider become Ready; any failure
returns no provider.

Files:

- `wrappers.dfy`: `Option` (Go's nil) and `Result` (a Go `(value, error)` pair).
- `openfeature.dfy`: the OpenFeature SDK results: states, reasons, error codes, resolution details.
- `esc.dfy`: the ESC SDK boundary. `Raw` is a closed variant of the decoded JSON value, with
  every number a single `real` as the SDK's float64. `FetchResult` is the outcome of one
  property read. `FetchError` is an OpenAPI error, whose body is `None` when it does not
  decode, or any other error.
- `strings.dfy`: a left-to-right search that returns what `strings.Contains` returns, proved equal to "occurs somewhere".
- `pulumi.dfy`: `pkg/provider.go`. The evaluation logic is pure functions over the read's
  outcome. The provider is a class whose fields the construction method sets. That method
  applies the options in a loop.

The remote calls are inputs. A typed evaluation takes the `FetchResult` of its read.
`NewPulumiEscProvider` takes two functions: `customBackendError` for
NewCustomBackendConfiguration (`None` when it accepts a URL, else the error text), and
`openEnvironment` for OpenEnvironment (the environment id, or the error text).

Behaviour worth noting:

- Not-found detection needs a decoded body with code 400 and a message containing
  "not found". A body that does not decode is never a not-found error.
- ObjectEvaluation returns no value at all (Go's nil), not the caller's default.
- An integer flag with a fractional part is truncated toward zero.

## Model

| member | source | states |
|---|---|---|
| Pulumi.ValidateType | pkg/provider.go:194-213 | A raw value passes for a flag type exactly when that type is among the types its dynamic kind can be read as: a bool for Bool, a string for String, a number for both Integer and Float, nothing for Object |
| Pulumi.ValidateTypeEdges | pkg/provider.go:203-213 | Object accepts nothing, null passes for no type, Integer and Float accept the same values, and every non-numeric value passes for at most one type |
| Strings.ContainsIffOccurs | pkg/provider.go:226 | The `strings.Contains` search returns true exactly when the substring occurs at some position |
| Pulumi.IsKeyNotFoundErr | pkg/provider.go:215-227 | True exactly when the body decoded and has code 400 and a message in which "not found" occurs; a body that does not decode gives false |
| Pulumi.ResolveValue | pkg/provider.go:162-192 | The outcome carries a value exactly when it is STATIC. A STATIC outcome has metadata and no error; an ERROR outcome has an error and no metadata. A returned value is the fetched raw value, it passed the type check, and the metadata copies its secret/trace markers |
| Pulumi.FetchErrorOutcome | pkg/provider.go:166-179 | A failed read whose OpenAPI body signals not-found gives no value and FLAG_NOT_FOUND with message key + " not found". Every other failure, non-OpenAPI errors included, gives GENERAL with the error's own text |
| Pulumi.FetchErrorBeforeTypeCheck | pkg/provider.go:166-184 | A failed read is classified before any type check: the outcome is the same for every requested type and is never TYPE_MISMATCH |
| Pulumi.TypeMismatchOutcome | pkg/provider.go:180-184 | A successful read failing the type check gives no value and TYPE_MISMATCH naming the key, the observed runtime type and the requested type |
| Pulumi.SuccessOutcome | pkg/provider.go:185-191 | A successful read passing the type check gives the raw value with STATIC, no error and the read's secret/trace markers |
| Pulumi.ErrorCodeOrigin | pkg/provider.go:166-184 | FLAG_NOT_FOUND only comes from a failed read classified as not-found; TYPE_MISMATCH only comes from a successful read that failed the type check |
| Pulumi.ResolvedValueHasRequestedType | pkg/provider.go:102-150 | The type assertions of the typed evaluations cannot fail: a value resolved for Bool is a bool, for String a string, for Float or Integer a number; Object never resolves a value |
| Pulumi.TruncateTowardZero | pkg/provider.go:144 | `int64(f)` narrowing: the result is the integer between zero and f within distance less than one of f |
| Pulumi.TruncationExamples | pkg/provider_test.go:344-357 | A stored 50 reads as 50; 50.7 reads as 50, -50.7 as -50 and 0.5 as 0 |
| Pulumi.BooleanEvaluation | pkg/provider.go:102-112 | The detail is resolveValue's unchanged. The value is the stored bool when the read succeeded with a bool, else exactly the default; every ERROR outcome carries the default |
| Pulumi.StringEvaluation | pkg/provider.go:114-124 | The detail is resolveValue's unchanged. The value is the stored string when the read succeeded with a string, else exactly the default; every ERROR outcome carries the default |
| Pulumi.FloatEvaluation | pkg/provider.go:126-137 | The detail is resolveValue's unchanged. The value is the stored number when the read succeeded with a number, else exactly the default; every ERROR outcome carries the default |
| Pulumi.IntEvaluation | pkg/provider.go:139-150 | The detail is resolveValue's unchanged. The value is the stored number truncated toward zero when the read succeeded with a number, else exactly the default; every ERROR outcome carries the default |
| Pulumi.ObjectEvaluation | pkg/provider.go:152-160 | No value, ERROR reason, no metadata, and error GENERAL "ObjectEvaluation not implemented" |
| Pulumi.ObjectEvaluationConstant | pkg/provider_test.go:403-438 | ObjectEvaluation gives one outcome whatever the key and default |
| Pulumi.EvaluationScenarios | pkg/provider_test.go:115-401 | The test tables' cases: bool success is true/STATIC; an int-valued flag read as bool or string yields the default with TYPE_MISMATCH, and a bool read as float or int yields the default with TYPE_MISMATCH; a missing key yields the default with FLAG_NOT_FOUND; a float reads as 0.5; an int reads as 50 |
| Pulumi.ConstructionScenario | pkg/provider_test.go:89-113 | The test setup's construction with a custom URL gives a Ready provider keeping that URL (provider_test.go:475-490); and, as an example of provider.go:66-69, an environment that cannot be opened gives no provider and the initialise error; the provider literal in the error state reports ERROR |
| Pulumi.ApplyOptionsAppend | pkg/provider.go:51-53 | Applying options in order, one more option at the end leaves that option's URL set, whatever came before |
| Pulumi.LastCustomUrlWins | pkg/provider.go:51-53 | After all options the custom URL is the last option's URL, or unset when there are no options |
| Pulumi.ConfigurationFor | pkg/provider.go:55-62 | The client configuration is custom exactly when a custom URL was set, and then uses that URL |
| Pulumi.Provider.constructor | pkg/provider.go:45-50 | A new provider is NotReady with the three names set, no client, no auth context, an empty session id and no custom URL |
| Pulumi.Provider.ApplyOption | pkg/provider.go:78-83 | WithCustomBackendUrl sets the custom URL to its argument and changes nothing else |
| Pulumi.Provider.Metadata | pkg/provider.go:85-90 | The metadata name is "PulumiESCProvider" |
| Pulumi.Provider.Hooks | pkg/provider.go:92-95 | The provider declares no hooks |
| Pulumi.Provider.Status | pkg/provider.go:97-100 | Status returns the stored state unchanged |
| Pulumi.NewPulumiEscProvider | pkg/provider.go:44-76 | No provider exactly when there is an error. A rejected custom URL, taken from the last option, fails with the custom-backend message. Otherwise a failed OpenEnvironment with the chosen client and auth fails with the initialise message. Otherwise a fresh Ready provider holds the names, the last custom URL, that client, the auth context and the opened environment's id |

## Left out

- Remote calls: ReadEnvironmentProperty, OpenEnvironment and NewCustomBackendConfiguration are network I/O. They are inputs here: a `FetchResult` and two function parameters. NewClient and NewAuthContext are modelled as plain values built from the configuration and the access key.
- JSON decoding of the OpenAPI error body is a library call. The body arrives already decoded, or `None` when it is malformed. `errors.As` unwrapping is the `OpenApiError` variant of `FetchError`.
- RuntimeTypeName: `reflect.TypeOf` names are given for bool, string and float64. A null is rendered the way `%s` prints a nil operand. Arrays and objects carry their runtime type name in `ROther` as an input.
- TruncateTowardZero: float64 specifics are not modelled. Numbers are `real`, and the result is an unbounded `int`. NaN, infinities, rounding of decimal literals and out-of-range `int64` conversion are floating-point behaviour.
- The `ctx` and `evalCtx` parameters are unused by the code, so they are dropped. The read uses the authentication context built at construction; the caller's ctx plays no part.
- The typed evaluations are functions of the read's outcome, not methods of `Provider`. A provider that was never opened has a nil `escClient`, and an evaluation on it panics at the property read in Go; the model does not cover that.
- Variant is never set by the provider (always empty) and is not modelled.
- The `trace` marker is an opaque string. The SDK's trace structure is not modelled.
- OpenFeature states other than NotReady, Ready and Error do not occur in this code, so they are not modelled. Nothing in the code moves a provider to Error; only a struct literal in the tests does that.
- A `ProviderOption` is any mutator function in Go. The package defines only WithCustomBackendUrl, so the option is a datatype with that one case.
- The live-service test scaffolding (pkg/provider_test.go:441-554) creates and deletes a real environment, so it is not modelled.
- Concurrency: evaluations only read the provider, so concurrent calls are not modelled.
