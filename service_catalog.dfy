/**
 * The vocabulary shared by both resource providers: the kinds of exception the
 * Service Catalog SDK raises, and the error codes, exceptions and statuses of the
 * CloudFormation resource-provider framework.
 */
module ServiceCatalog {
  import opened Wrappers

  /** The SDK exception classes the handlers distinguish with `instanceof`. */
  datatype SdkErrorKind =
    | ResourceNotFound     // ResourceNotFoundException
    | DuplicateResource    // DuplicateResourceException
    | LimitExceeded        // LimitExceededException
    | InvalidParameters    // InvalidParametersException
    | ResourceInUse        // ResourceInUseException
    | OtherSdkError        // any other SdkException

  /** A thrown SdkException: its class and its message. */
  datatype SdkError = SdkError(kind: SdkErrorKind, message: string)

  /** The outcome of an SDK call that returns nothing: it completes or it throws. */
  datatype CallOutcome = Completed | Threw(error: SdkError)

  /** CloudFormation's HandlerErrorCode values that this code produces. */
  datatype HandlerErrorCode =
    | NotFound
    | AlreadyExists
    | ServiceLimitExceeded
    | InvalidRequest
    | InternalFailure
    | NotStabilized

  /**
   * A CloudFormation exception (CfnNotFoundException, CfnAlreadyExistsException, ...),
   * identified by the error code its class carries, with the SDK exception it wraps.
   */
  datatype CfnException = CfnException(code: HandlerErrorCode, cause: Option<SdkError>)

  /** CloudFormation's OperationStatus. */
  datatype OperationStatus = SUCCESS | FAILED | IN_PROGRESS

  /** `StringUtils.isNullOrEmpty` negated: a page token that asks for another page, an id that is set. */
  predicate NotNullOrEmpty(s: Option<string>)
  {
    s.Some? && s.value != ""
  }
}
