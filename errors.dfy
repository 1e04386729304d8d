// The exceptions the gateway raises: RestServiceException with its ErrorCode
// (service/exceptions/ErrorCode.java), unchecked Java runtime exceptions, and
// WebClient failures that escape the executor.
module Errors {
  import Failures

  datatype ErrorCode =
    | ResourceConfigurationNotFound
    | ResourceConfigurationAlreadyExists
    | ResourceConfigurationIoReadError
    | ResourceNotFound
    | ResourceMethodNotFound
    | JqError
    | SubstitutionFailed
    | HttpExecutionError
    | ConnectedSystemNotFound
    | ContentTypeInHttpResponseNotSupported
    | SchemaError
    | AuthHandlerNotSupported
    | AuthPropertiesMissing
    | CookieAuthenticationFailed
    | MethodNameRequiredInRunRequest
    | IncorrectSecretName
    | CertificateHandlingFailed
    | GetAuthTokenError
    | InvalidAuthBody
    | GeneralError
  {
    /** The error code reported to clients. */
    function Code(): string
    {
      match this
      case ResourceConfigurationNotFound => "RS-01"
      case ResourceConfigurationAlreadyExists => "RS-02"
      case ResourceConfigurationIoReadError => "RS-03"
      case ResourceNotFound => "RS-04"
      case ResourceMethodNotFound => "RS-05"
      case JqError => "RS-06"
      case SubstitutionFailed => "RS-07"
      case HttpExecutionError => "RS-08"
      case ConnectedSystemNotFound => "RS-09"
      case ContentTypeInHttpResponseNotSupported => "RS-10"
      case SchemaError => "RS-11"
      case AuthHandlerNotSupported => "RS-12"
      case AuthPropertiesMissing => "RS-13"
      case CookieAuthenticationFailed => "RS-14"
      case MethodNameRequiredInRunRequest => "RS-15"
      case IncorrectSecretName => "RS-16"
      case CertificateHandlingFailed => "RS-17"
      case GetAuthTokenError => "RS-18"
      case InvalidAuthBody => "RS-19"
      case GeneralError => "RS-500"
    }

    /** The HTTP status the error is reported with. */
    function HttpStatus(): int
    {
      match this
      case ResourceConfigurationNotFound => 404
      case ResourceConfigurationAlreadyExists => 409
      case ResourceNotFound => 404
      case ResourceMethodNotFound => 404
      case ConnectedSystemNotFound => 404
      case SchemaError => 400
      case AuthPropertiesMissing => 404
      case CookieAuthenticationFailed => 401
      case InvalidAuthBody => 400
      case _ => 500
    }
  }

  /** Unchecked Java exceptions the core can raise without wrapping them. */
  datatype Unchecked =
    | NullPointer        // a null reference dereferenced or unboxed
    | NumberFormat       // Integer.parseInt on a non-number
    | IllegalArgument    // e.g. an invalid Base64 string or an unknown HTTP status
    | IndexOutOfBounds   // an array index past the end
    | InvalidMediaType   // a Content-Type header that does not parse
    | IllegalState       // JSON text that does not map onto the requested type

  datatype Error =
    | Rest(code: ErrorCode, missing: set<string>)   // RestServiceException
    | Unexpected(kind: Unchecked)
    | Client(failure: Failures.Failure)             // a WebClient exception

  /** A RestServiceException without a list of missing properties. */
  function RestError(code: ErrorCode): (e: Error)
    ensures e.Rest? && e.code == code && e.missing == {}
  {
    Rest(code, {})
  }
}
