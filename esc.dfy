/**
 * The boundary with the Pulumi ESC Go SDK: what a property read returns, what its errors
 * carry, and the configuration, client and authentication values a provider holds.
 */
module Esc {
  import opened Wrappers

  /** A net/url URL, kept as its text. */
  type Url = string

  /**
   * The dynamic value the SDK decodes from JSON. All JSON numbers arrive as one float64
   * (a `real` here); arrays and objects are ROther, carrying their Go runtime type name.
   */
  datatype Raw =
    | RBool(b: bool)
    | RString(s: string)
    | RNumber(x: real)
    | RNull
    | ROther(typeName: string)

  /** The markers of the esc.Value a property read returns beside the raw value. */
  datatype EscValue = EscValue(secret: bool, trace: string)

  /** The JSON body of an OpenAPI error, decoded into its `code` and `message` fields. */
  datatype ErrBody = ErrBody(code: int, message: string)

  /**
   * An error from ReadEnvironmentProperty: either one that `errors.As` finds a
   * GenericOpenAPIError in (its body is None when it does not decode as JSON), or any
   * other error. `text` is the error's `Error()` string.
   */
  datatype FetchError =
    | OpenApiError(body: Option<ErrBody>, text: string)
    | OtherError(text: string)

  /** The outcome of one ReadEnvironmentProperty call. */
  datatype FetchResult =
    | Ok(meta: EscValue, raw: Raw)
    | Err(error: FetchError)

  /** esc.Configuration: which backend the client talks to. */
  datatype Configuration = DefaultConfiguration | CustomConfiguration(url: Url)

  /** esc.EscClient built from a configuration. */
  datatype EscClient = EscClient(conf: Configuration)

  /** The authentication context built from the access key. */
  datatype AuthContext = AuthContext(accessKey: string)

  /** The arguments of one OpenEnvironment call. */
  datatype OpenEnvironmentCall = OpenEnvironmentCall(
    client: EscClient, auth: AuthContext, orgName: string, projectName: string, envName: string)
}
