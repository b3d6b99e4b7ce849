/**
 * The Pulumi ESC OpenFeature provider: typed flag evaluation over one property read,
 * the type check and error classification behind it, and the construction of a provider
 * bound to one opened environment.
 */
module Pulumi {
  import opened Wrappers
  import opened OpenFeature
  import opened Esc
  import Strings

  /** The flag types a caller can ask for. */
  datatype FlagType = Bool | String | Integer | Float | Object

  /** The string value of each FlagType constant, as it appears in messages. */
  function FlagTypeName(t: FlagType): string
  {
    match t
    case Bool => "bool"
    case String => "string"
    case Integer => "int64"
    case Float => "float64"
    case Object => "object"
  }

  const ProviderName := "PulumiESCProvider"
  const NotFoundCode := 400
  const NotFoundText := "not found"
  const ObjectNotImplemented := "ObjectEvaluation not implemented"

  // ---------------------------------------------------------------------------
  // Type check
  // ---------------------------------------------------------------------------

  /** Reference definition: the flag types an evaluation may read a raw value as. */
  function TypesAccepting(raw: Raw): set<FlagType>
  {
    match raw
    case RBool(_) => {Bool}
    case RString(_) => {String}
    case RNumber(_) => {Integer, Float}
    case _ => {}
  }

  /**
   * validateType: a raw value passes for a flag type exactly when the type assertion
   * the typed evaluation makes afterwards would succeed. Integers arrive as float64,
   * so Integer and Float both take numbers.
   */
  function ValidateType(raw: Raw, t: FlagType): (ok: bool)
    ensures ok <==> t in TypesAccepting(raw)
  {
    match t
    case Bool => raw.RBool?
    case String => raw.RString?
    case Integer => raw.RNumber?
    case Float => raw.RNumber?
    case Object => false
  }

  /** No raw value passes for Object, a null passes for nothing, Integer and Float accept the same values, and a non-number passes for at most one type. */
  lemma ValidateTypeEdges(raw: Raw, t: FlagType)
    ensures !ValidateType(raw, Object)
    ensures !ValidateType(RNull, t)
    ensures ValidateType(raw, Integer) <==> ValidateType(raw, Float)
    ensures !raw.RNumber? ==> |TypesAccepting(raw)| <= 1
  {
  }

  /** The Go runtime type name `reflect.TypeOf` gives a raw value, as `%s` prints it. */
  function RuntimeTypeName(raw: Raw): string
  {
    match raw
    case RBool(_) => "bool"
    case RString(_) => "string"
    case RNumber(_) => "float64"
    case RNull => "%!s(<nil>)"
    case ROther(name) => name
  }

  // ---------------------------------------------------------------------------
  // Error classification
  // ---------------------------------------------------------------------------

  /**
   * isKeyNotFoundErr: the error body decodes to a code of 400 and a message containing
   * "not found". A body that does not decode is not a not-found error.
   */
  function IsKeyNotFoundErr(body: Option<ErrBody>): (notFound: bool)
    ensures notFound <==>
      body.Some? && body.value.code == NotFoundCode &&
      exists i :: Strings.OccursAt(body.value.message, NotFoundText, i)
  {
    match body
    case None => false
    case Some(resp) =>
      Strings.ContainsIffOccurs(resp.message, NotFoundText);
      resp.code == NotFoundCode && Strings.Contains(resp.message, NotFoundText)
  }

  /** The `errors.As(err, &genErr) && isKeyNotFoundErr(genErr)` test of resolveValue. */
  predicate IsNotFound(e: FetchError)
  {
    e.OpenApiError? && IsKeyNotFoundErr(e.body)
  }

  // ---------------------------------------------------------------------------
  // Resolution
  // ---------------------------------------------------------------------------

  /** What resolveValue returns: the raw value (None for Go's nil) and the detail. */
  datatype Resolved = Resolved(value: Option<Raw>, detail: ProviderResolutionDetail)

  /** The message of a type mismatch: the key, the observed type and the requested type. */
  function MismatchMessage(path: string, raw: Raw, t: FlagType): string
  {
    path + " is of type " + RuntimeTypeName(raw) + ", not of type " + FlagTypeName(t)
  }

  /**
   * An outcome carries a value exactly when it is a STATIC success, and then carries
   * metadata and no error; an ERROR outcome carries an error and no metadata.
   */
  predicate WellFormed(r: Resolved)
  {
    && (r.value.Some? <==> r.detail.reason == StaticReason)
    && (r.detail.resolutionError.None? <==> r.detail.reason == StaticReason)
    && (r.detail.flagMetadata.Some? <==> r.detail.reason == StaticReason)
  }

  /**
   * resolveValue over the outcome of its one property read: a failed read is classified
   * first, a successful read is type-checked, and only a value that passes comes back.
   */
  function ResolveValue(fetch: FetchResult, path: string, t: FlagType): (r: Resolved)
    ensures WellFormed(r)
    ensures r.value.Some? ==>
      fetch.Ok? && r.value.value == fetch.raw && ValidateType(fetch.raw, t) &&
      r.detail.flagMetadata == Some(FlagMetadata(fetch.meta.secret, fetch.meta.trace))
  {
    match fetch
    case Err(e) =>
      if IsNotFound(e) then
        Resolved(None, ErrorDetail(ResolutionError(FlagNotFound, path + " not found")))
      else
        Resolved(None, ErrorDetail(ResolutionError(General, e.text)))
    case Ok(meta, raw) =>
      if !ValidateType(raw, t) then
        Resolved(None, ErrorDetail(ResolutionError(TypeMismatch, MismatchMessage(path, raw, t))))
      else
        Resolved(Some(raw), ProviderResolutionDetail(StaticReason, None, Some(FlagMetadata(meta.secret, meta.trace))))
  }

  /** A failed read is a not-found error when its body says so, and otherwise a general error with the error's own text. */
  lemma FetchErrorOutcome(e: FetchError, path: string, t: FlagType)
    ensures IsNotFound(e) ==>
      ResolveValue(Err(e), path, t) == Resolved(None, ErrorDetail(ResolutionError(FlagNotFound, path + " not found")))
    ensures !IsNotFound(e) ==>
      ResolveValue(Err(e), path, t) == Resolved(None, ErrorDetail(ResolutionError(General, e.text)))
    ensures e.OtherError? ==> ResolveValue(Err(e), path, t).detail.resolutionError.value.code == General
  {
  }

  /** A failed read is classified before any type check: the requested type plays no part. */
  lemma FetchErrorBeforeTypeCheck(e: FetchError, path: string, t1: FlagType, t2: FlagType)
    ensures ResolveValue(Err(e), path, t1) == ResolveValue(Err(e), path, t2)
    ensures ResolveValue(Err(e), path, t1).detail.resolutionError.value.code != TypeMismatch
  {
  }

  /** A successful read of a value of the wrong type is a type mismatch. */
  lemma TypeMismatchOutcome(meta: EscValue, raw: Raw, path: string, t: FlagType)
    requires !ValidateType(raw, t)
    ensures ResolveValue(Ok(meta, raw), path, t) ==
      Resolved(None, ErrorDetail(ResolutionError(TypeMismatch, MismatchMessage(path, raw, t))))
  {
  }

  /** A successful read of a value of the right type is a STATIC success carrying the value's markers. */
  lemma SuccessOutcome(meta: EscValue, raw: Raw, path: string, t: FlagType)
    requires ValidateType(raw, t)
    ensures ResolveValue(Ok(meta, raw), path, t) ==
      Resolved(Some(raw), ProviderResolutionDetail(StaticReason, None, Some(FlagMetadata(meta.secret, meta.trace))))
  {
  }

  /** Each error code comes from one kind of read: not-found from a failed one, mismatch from a successful one. */
  lemma ErrorCodeOrigin(fetch: FetchResult, path: string, t: FlagType)
    ensures var d := ResolveValue(fetch, path, t).detail;
      d.resolutionError.Some? ==>
        (d.resolutionError.value.code == FlagNotFound ==> fetch.Err? && IsNotFound(fetch.error)) &&
        (d.resolutionError.value.code == TypeMismatch ==> fetch.Ok? && !ValidateType(fetch.raw, t))
  {
  }

  /**
   * The type assertions of the typed evaluations (`value.(bool)`, `value.(string)`,
   * `value.(float64)`) never fail: a resolved value always has the requested dynamic type.
   */
  lemma ResolvedValueHasRequestedType(fetch: FetchResult, path: string)
    ensures ResolveValue(fetch, path, Bool).value.Some? ==> ResolveValue(fetch, path, Bool).value.value.RBool?
    ensures ResolveValue(fetch, path, String).value.Some? ==> ResolveValue(fetch, path, String).value.value.RString?
    ensures ResolveValue(fetch, path, Float).value.Some? ==> ResolveValue(fetch, path, Float).value.value.RNumber?
    ensures ResolveValue(fetch, path, Integer).value.Some? ==> ResolveValue(fetch, path, Integer).value.value.RNumber?
    ensures ResolveValue(fetch, path, Object).value.None?
  {
  }

  // ---------------------------------------------------------------------------
  // Typed evaluations
  // ---------------------------------------------------------------------------

  /** Go's `int64(f)` on a float64: truncation toward zero. */
  function TruncateTowardZero(x: real): (n: int)
    ensures 0.0 <= x ==> n as real <= x < n as real + 1.0
    ensures x < 0.0 ==> n as real - 1.0 < x <= n as real
  {
    if x >= 0.0 then x.Floor else -((-x).Floor)
  }

  /** The values of the integer test case and three fractional ones. */
  lemma TruncationExamples()
    ensures TruncateTowardZero(50.0) == 50
    ensures TruncateTowardZero(50.7) == 50
    ensures TruncateTowardZero(-50.7) == -50
    ensures TruncateTowardZero(0.5) == 0
  {
  }

  /** BooleanEvaluation: the stored bool when there is one, else the caller's default. */
  function BooleanEvaluation(fetch: FetchResult, flag: string, defaultValue: bool): (r: ResolutionDetail<bool>)
    ensures r.detail == ResolveValue(fetch, flag, Bool).detail
    ensures r.value == if fetch.Ok? && fetch.raw.RBool? then fetch.raw.b else defaultValue
    ensures r.detail.reason == ErrorReason ==> r.value == defaultValue
  {
    var resolved := ResolveValue(fetch, flag, Bool);
    // `value.(bool)`: Dafny checks that the destructor applies
    ResolutionDetail(if resolved.value.Some? then resolved.value.value.b else defaultValue, resolved.detail)
  }

  /** StringEvaluation: the stored string when there is one, else the caller's default. */
  function StringEvaluation(fetch: FetchResult, flag: string, defaultValue: string): (r: ResolutionDetail<string>)
    ensures r.detail == ResolveValue(fetch, flag, String).detail
    ensures r.value == if fetch.Ok? && fetch.raw.RString? then fetch.raw.s else defaultValue
    ensures r.detail.reason == ErrorReason ==> r.value == defaultValue
  {
    var resolved := ResolveValue(fetch, flag, String);
    // `value.(string)`
    ResolutionDetail(if resolved.value.Some? then resolved.value.value.s else defaultValue, resolved.detail)
  }

  /** FloatEvaluation: the stored number when there is one, else the caller's default. */
  function FloatEvaluation(fetch: FetchResult, flag: string, defaultValue: real): (r: ResolutionDetail<real>)
    ensures r.detail == ResolveValue(fetch, flag, Float).detail
    ensures r.value == if fetch.Ok? && fetch.raw.RNumber? then fetch.raw.x else defaultValue
    ensures r.detail.reason == ErrorReason ==> r.value == defaultValue
  {
    var resolved := ResolveValue(fetch, flag, Float);
    // `value.(float64)`
    ResolutionDetail(if resolved.value.Some? then resolved.value.value.x else defaultValue, resolved.detail)
  }

  /** IntEvaluation: the stored number narrowed toward zero when there is one, else the caller's default. */
  function IntEvaluation(fetch: FetchResult, flag: string, defaultValue: int): (r: ResolutionDetail<int>)
    ensures r.detail == ResolveValue(fetch, flag, Integer).detail
    ensures r.value == if fetch.Ok? && fetch.raw.RNumber? then TruncateTowardZero(fetch.raw.x) else defaultValue
    ensures r.detail.reason == ErrorReason ==> r.value == defaultValue
  {
    var resolved := ResolveValue(fetch, flag, Integer);
    // `int64(value.(float64))`
    ResolutionDetail(if resolved.value.Some? then TruncateTowardZero(resolved.value.value.x) else defaultValue, resolved.detail)
  }

  /** ObjectEvaluation: always a general "not implemented" error and no value, whatever the key or default. */
  function ObjectEvaluation<T>(flag: string, defaultValue: T): (r: ResolutionDetail<Option<T>>)
    ensures r.value.None?
    ensures r.detail.reason == ErrorReason && r.detail.flagMetadata.None?
    ensures r.detail.resolutionError == Some(ResolutionError(General, ObjectNotImplemented))
  {
    ResolutionDetail(None, ErrorDetail(ResolutionError(General, ObjectNotImplemented)))
  }

  /** The typed evaluations on the values of the provider's test environment. */
  lemma EvaluationScenarios(meta: EscValue, missing: FetchError)
    requires missing.OpenApiError? && missing.body == Some(ErrBody(400, "property NON_EXISTING_FLAG not found"))
    ensures BooleanEvaluation(Ok(meta, RBool(true)), "SOME_BOOL_FLAG", false).value == true
    ensures BooleanEvaluation(Ok(meta, RBool(true)), "SOME_BOOL_FLAG", false).detail.reason == StaticReason
    ensures BooleanEvaluation(Ok(meta, RNumber(50.0)), "SOME_INT_FLAG", true).value == true
    ensures BooleanEvaluation(Ok(meta, RNumber(50.0)), "SOME_INT_FLAG", true).detail.resolutionError.value.code == TypeMismatch
    ensures StringEvaluation(Ok(meta, RNumber(50.0)), "SOME_INT_FLAG", "default-value").value == "default-value"
    ensures StringEvaluation(Ok(meta, RNumber(50.0)), "SOME_INT_FLAG", "default-value").detail.resolutionError.value.code == TypeMismatch
    ensures StringEvaluation(Err(missing), "NON_EXISTING_FLAG", "default-value") ==
      ResolutionDetail("default-value", ErrorDetail(ResolutionError(FlagNotFound, "NON_EXISTING_FLAG not found")))
    ensures FloatEvaluation(Ok(meta, RNumber(0.5)), "SOME_FLOAT_FLAG", 0.1).value == 0.5
    ensures FloatEvaluation(Ok(meta, RBool(true)), "SOME_BOOL_FLAG", 0.1).value == 0.1
    ensures FloatEvaluation(Ok(meta, RBool(true)), "SOME_BOOL_FLAG", 0.1).detail.resolutionError.value.code == TypeMismatch
    ensures IntEvaluation(Ok(meta, RNumber(50.0)), "SOME_INT_FLAG", 10).value == 50
    ensures IntEvaluation(Ok(meta, RBool(true)), "SOME_BOOL_FLAG", 10).value == 10
    ensures IntEvaluation(Ok(meta, RBool(true)), "SOME_BOOL_FLAG", 10).detail.resolutionError.value.code == TypeMismatch
    ensures IntEvaluation(Err(missing), "NON_EXISTING_FLAG", 10).value == 10
    ensures IntEvaluation(Err(missing), "NON_EXISTING_FLAG", 10).detail.resolutionError.value.code == FlagNotFound
  {
    var message := "property NON_EXISTING_FLAG not found";
    assert message[27..36] == NotFoundText;
    assert Strings.OccursAt(message, NotFoundText, 27);
    assert "NON_EXISTING_FLAG" + " not found" == "NON_EXISTING_FLAG not found";
  }

  /** ObjectEvaluation gives the same outcome for every key and default. */
  lemma ObjectEvaluationConstant<T>(flag1: string, flag2: string, default1: T, default2: T)
    ensures ObjectEvaluation(flag1, default1) == ObjectEvaluation(flag2, default2)
  {
  }

  // ---------------------------------------------------------------------------
  // Construction
  // ---------------------------------------------------------------------------

  /** A provider option; WithCustomBackendUrl is the only one the package defines. */
  datatype ProviderOption = WithCustomBackendUrl(url: Url)

  /** The custom backend URL after applying `opts` in order, starting from `url`. */
  function ApplyOptions(url: Option<Url>, opts: seq<ProviderOption>): Option<Url>
    decreases |opts|
  {
    if opts == [] then url else ApplyOptions(Some(opts[0].url), opts[1..])
  }

  /** Applying one more option leaves that option's URL in place. */
  lemma {:induction false} ApplyOptionsAppend(url: Option<Url>, opts: seq<ProviderOption>, opt: ProviderOption)
    ensures ApplyOptions(url, opts + [opt]) == Some(opt.url)
    decreases |opts|
  {
    if opts == [] {
      assert opts + [opt] == [opt];
      assert [opt][1..] == [];
    } else {
      assert (opts + [opt])[1..] == opts[1..] + [opt];
      ApplyOptionsAppend(Some(opts[0].url), opts[1..], opt);
    }
  }

  /** The last custom URL wins; without options the default backend is used. */
  lemma LastCustomUrlWins(opts: seq<ProviderOption>)
    ensures ApplyOptions(None, opts) == if opts == [] then None else Some(opts[|opts| - 1].url)
  {
    if opts != [] {
      assert opts[..|opts| - 1] + [opts[|opts| - 1]] == opts;
      ApplyOptionsAppend(None, opts[..|opts| - 1], opts[|opts| - 1]);
    }
  }

  /** The configuration the client is built from: the default one unless a custom URL was set. */
  function ConfigurationFor(url: Option<Url>): (conf: Configuration)
    ensures conf.CustomConfiguration? <==> url.Some?
    ensures url.Some? ==> conf.url == url.value
  {
    match url
    case None => DefaultConfiguration
    case Some(u) => CustomConfiguration(u)
  }

  const CustomBackendFailure := "failed to initialise pulumi esc provider with custom backend url: "
  const OpenFailure := "failed to initialise pulumi esc provider: "

  /** PulumiESCProvider: the state of one provider bound to one environment. */
  class Provider {
    var state: State
    var orgName: string
    var projectName: string
    var envName: string
    var escClient: Option<EscClient>
    var escAuthCtx: Option<AuthContext>
    var escOpenEnvSessionId: string
    var customBackendUrl: Option<Url>

    /** The struct literal NewPulumiESCProvider starts from: NotReady, names set, nothing opened. */
    constructor (orgName: string, projectName: string, envName: string)
      ensures state == NotReadyState
      ensures this.orgName == orgName && this.projectName == projectName && this.envName == envName
      ensures escClient == None && escAuthCtx == None && escOpenEnvSessionId == ""
      ensures customBackendUrl == None
    {
      state := NotReadyState;
      this.orgName := orgName;
      this.projectName := projectName;
      this.envName := envName;
      escClient := None;
      escAuthCtx := None;
      escOpenEnvSessionId := "";
      customBackendUrl := None;
    }

    /** Runs one option on this provider: WithCustomBackendUrl sets the custom URL and nothing else. */
    method ApplyOption(opt: ProviderOption)
      modifies this`customBackendUrl
      ensures customBackendUrl == Some(opt.url)
    {
      customBackendUrl := Some(opt.url);
    }

    /** Metadata: the provider's fixed name. */
    function Metadata(): (m: OpenFeature.Metadata)
      ensures m.name == ProviderName
    {
      OpenFeature.Metadata(ProviderName)
    }

    /** Hooks: the provider declares none. */
    function Hooks(): (hooks: seq<Hook>)
      ensures |hooks| == 0
    {
      []
    }

    /** Status: the stored state, unchanged. */
    function Status(): (s: State)
      reads this
      ensures s == state
    {
      state
    }
  }

  /**
   * NewPulumiESCProvider. `customBackendError` stands for NewCustomBackendConfiguration
   * (None when it accepts the URL, else its error text) and `openEnvironment` for the
   * OpenEnvironment call (the opened environment's id, or the error text).
   */
  method NewPulumiEscProvider(
    orgName: string, projectName: string, envName: string, accessKey: string,
    opts: seq<ProviderOption>,
    customBackendError: Url -> Option<string>,
    openEnvironment: OpenEnvironmentCall -> Result<string>)
    returns (p: Provider?, err: Option<string>)
    ensures (p == null) <==> err.Some?
    ensures
      var url := ApplyOptions(None, opts);
      var call := OpenEnvironmentCall(EscClient(ConfigurationFor(url)), AuthContext(accessKey), orgName, projectName, envName);
      if url.Some? && customBackendError(url.value).Some? then
        err == Some(CustomBackendFailure + customBackendError(url.value).value)
      else if openEnvironment(call).Failure? then
        err == Some(OpenFailure + openEnvironment(call).error)
      else
        && p != null && fresh(p)
        && p.Status() == ReadyState
        && p.orgName == orgName && p.projectName == projectName && p.envName == envName
        && p.customBackendUrl == url
        && p.escClient == Some(call.client)
        && p.escAuthCtx == Some(call.auth)
        && p.escOpenEnvSessionId == openEnvironment(call).value
  {
    var provider: Provider := new Provider(orgName, projectName, envName);
    for i := 0 to |opts|
      modifies provider`customBackendUrl
      invariant provider.customBackendUrl == ApplyOptions(None, opts[..i])
    {
      assert opts[..i + 1] == opts[..i] + [opts[i]];
      ApplyOptionsAppend(None, opts[..i], opts[i]);
      provider.ApplyOption(opts[i]);
    }
    assert opts[..|opts|] == opts;

    var conf := DefaultConfiguration;
    if provider.customBackendUrl.Some? {
      var customErr := customBackendError(provider.customBackendUrl.value);
      if customErr.Some? {
        return null, Some(CustomBackendFailure + customErr.value);
      }
      conf := CustomConfiguration(provider.customBackendUrl.value);
    }

    var escClient := EscClient(conf);
    var escAuthCtx := AuthContext(accessKey);
    var env := openEnvironment(OpenEnvironmentCall(escClient, escAuthCtx, orgName, projectName, envName));
    if env.Failure? {
      return null, Some(OpenFailure + env.error);
    }

    provider.escClient := Some(escClient);
    provider.escAuthCtx := Some(escAuthCtx);
    provider.escOpenEnvSessionId := env.value;
    provider.state := ReadyState;
    return provider, None;
  }

  /**
   * The test setup's construction with a custom URL, a construction whose environment
   * cannot be opened, and the tests' provider literal placed in the error state.
   */
  method ConstructionScenario()
    returns (testStatus: State, testUrl: Option<Url>, missingEnvProvider: Provider?, missingEnvError: Option<string>, errorStatus: State)
    ensures testStatus == ReadyState && testUrl == Some("https://api.pulumi.com")
    ensures missingEnvProvider == null && missingEnvError == Some(OpenFailure + "environment not found")
    ensures errorStatus == ErrorState
  {
    var openOk := (call: OpenEnvironmentCall) => Success("session-1");
    var p, err := NewPulumiEscProvider("org", "of-pulumi-esc-provider-test", "of-pulumi-esc-provider-test-env", "key",
                                       [WithCustomBackendUrl("https://api.pulumi.com")], (u: Url) => None, openOk);
    testStatus, testUrl := p.Status(), p.customBackendUrl;

    var refused := (call: OpenEnvironmentCall) => Failure("environment not found");
    missingEnvProvider, missingEnvError := NewPulumiEscProvider("org", "proj", "env", "key", [], (u: Url) => None, refused);

    var degraded := new Provider("", "", "");
    degraded.state := ErrorState;
    errorStatus := degraded.Status();
  }
}
