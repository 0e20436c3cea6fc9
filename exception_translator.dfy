/**
 * The association provider's translation of SDK exceptions into CloudFormation
 * exceptions. The translation returns the exception; raising it is the caller's
 * decision.
 */
module ExceptionTranslator {
  import opened Wrappers
  import opened ServiceCatalog

  /**
   * Translates an SDK exception. Every kind has an image: the four kinds the
   * translator names map to their own CloudFormation counterparts, and everything
   * else becomes an internal failure. The SDK exception is kept as the cause.
   */
  function TranslateToCfnException(e: SdkError): (r: CfnException)
    ensures r.cause == Some(e)
    ensures e.kind == ResourceNotFound <==> r.code == NotFound
    ensures e.kind == DuplicateResource <==> r.code == AlreadyExists
    ensures e.kind == LimitExceeded <==> r.code == ServiceLimitExceeded
    ensures e.kind == InvalidParameters <==> r.code == InvalidRequest
    ensures e.kind in {ResourceInUse, OtherSdkError} <==> r.code == InternalFailure
    ensures r.code != NotStabilized
  {
    match e.kind
    case ResourceNotFound => CfnException(NotFound, Some(e))
    case DuplicateResource => CfnException(AlreadyExists, Some(e))
    case LimitExceeded => CfnException(ServiceLimitExceeded, Some(e))
    case InvalidParameters => CfnException(InvalidRequest, Some(e))
    case _ => CfnException(InternalFailure, Some(e))
  }
}
