/**
 * The parts of the OpenFeature Go SDK that the provider produces: provider states,
 * resolution reasons, error codes and resolution details.
 */
module OpenFeature {
  import opened Wrappers

  /** openfeature.State, restricted to the states this provider ever holds or is tested with. */
  datatype State = NotReadyState | ReadyState | ErrorState

  /** openfeature.Reason: STATIC for a value read as stored, ERROR for every failed resolution. */
  datatype Reason = StaticReason | ErrorReason

  /** openfeature.ErrorCode values used by the provider. */
  datatype ErrorCode = FlagNotFound | TypeMismatch | General

  /** openfeature.ResolutionError: an error code and its message. */
  datatype ResolutionError = ResolutionError(code: ErrorCode, message: string)

  /** openfeature.FlagMetadata as the provider fills it: the "secret" and "trace" entries. */
  datatype FlagMetadata = FlagMetadata(secret: bool, trace: string)

  /**
   * openfeature.ProviderResolutionDetail. An absent resolution error is the SDK's zero
   * ResolutionError; an absent flag metadata is a nil map.
   */
  datatype ProviderResolutionDetail = ProviderResolutionDetail(
    reason: Reason,
    resolutionError: Option<ResolutionError>,
    flagMetadata: Option<FlagMetadata>)

  /** Bool/String/Float/Int/InterfaceResolutionDetail: a value beside the provider's detail. */
  datatype ResolutionDetail<+T> = ResolutionDetail(value: T, detail: ProviderResolutionDetail)

  /** openfeature.Metadata: the provider's identity. */
  datatype Metadata = Metadata(name: string)

  /** openfeature.Hook; only the number of hooks a provider declares matters here. */
  datatype Hook = Hook(name: string)

  /** The detail of a failed resolution: ERROR reason, the error, no metadata. */
  function ErrorDetail(e: ResolutionError): ProviderResolutionDetail
  {
    ProviderResolutionDetail(ErrorReason, Some(e), None)
  }
}
