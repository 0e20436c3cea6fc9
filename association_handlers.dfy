/**
 * The association provider's create and delete handlers: one SDK request each,
 * with its exception passed through the exception translator.
 */
module AssociationHandlers {
  import opened Wrappers
  import opened ServiceCatalog
  import ExceptionTranslator
  import opened ActionAssociationController
  import opened Stabilization

  /**
   * getDesiredModelWithPrimaryIdentifier: a model whose id is null or empty gets the
   * generated identifier; every other field is kept.
   */
  function WithPrimaryIdentifier(model: ResourceModel, generatedId: string): (r: ResourceModel)
    ensures NotNullOrEmpty(model.id) ==> r == model
    ensures !NotNullOrEmpty(model.id) ==> r == model.(id := Some(generatedId))
  {
    if NotNullOrEmpty(model.id) then model else model.(id := Some(generatedId))
  }

  /**
   * The create handler as written: the translated exception is computed and then
   * dropped, so the handler reports success whatever the associate request did.
   */
  function CreateHandlerAsWritten(desired: ResourceModel, generatedId: string, associated: CallOutcome): (p: Progress)
    ensures p == Succeeded(Some(WithPrimaryIdentifier(desired, generatedId)))
  {
    var model := WithPrimaryIdentifier(desired, generatedId);
    match associated
    case Completed => Succeeded(Some(model))
    case Threw(e) =>
      var _ := ExceptionTranslator.TranslateToCfnException(e);
      Succeeded(Some(model))
  }

  /** An associate request that throws not-found still yields a success event. */
  lemma CreateHandlerAsWrittenHidesNotFound(desired: ResourceModel, generatedId: string)
    ensures CreateHandlerAsWritten(desired, generatedId, Threw(SdkError(ResourceNotFound, "not found"))).Succeeded?
  {
  }

  /**
   * The create handler with the translated exception raised: success exactly when
   * the associate request completes, otherwise the translator's exception.
   */
  function CreateHandler(desired: ResourceModel, generatedId: string, associated: CallOutcome): (p: Progress)
    ensures p.Succeeded? <==> associated.Completed?
    ensures p.Succeeded? ==> p.successModel == Some(WithPrimaryIdentifier(desired, generatedId))
    ensures associated.Threw? ==> p == Raised(ExceptionTranslator.TranslateToCfnException(associated.error))
    ensures associated.Threw? && associated.error.kind == ResourceNotFound ==> p.Raised? && p.exception.code == NotFound
  {
    match associated
    case Completed => Succeeded(Some(WithPrimaryIdentifier(desired, generatedId)))
    case Threw(e) => Raised(ExceptionTranslator.TranslateToCfnException(e))
  }

  /**
   * The delete handler as written: the translated exception is dropped, so the
   * handler reports success whatever the disassociate request did.
   */
  function DeleteHandlerAsWritten(desired: ResourceModel, disassociated: CallOutcome): (p: Progress)
    ensures p == Succeeded(None)
  {
    match disassociated
    case Completed => Succeeded(None)
    case Threw(e) =>
      var _ := ExceptionTranslator.TranslateToCfnException(e);
      Succeeded(None)
  }

  /** A disassociate request that fails for any reason still yields a success event. */
  lemma DeleteHandlerAsWrittenHidesFailure(desired: ResourceModel)
    ensures DeleteHandlerAsWritten(desired, Threw(SdkError(OtherSdkError, "failure"))).Succeeded?
  {
  }

  /**
   * The delete handler with the translated exception raised: success exactly when
   * the disassociate request completes, otherwise the translator's exception.
   */
  function DeleteHandler(desired: ResourceModel, disassociated: CallOutcome): (p: Progress)
    ensures p.Succeeded? <==> disassociated.Completed?
    ensures p.Succeeded? ==> p.successModel == None
    ensures disassociated.Threw? ==> p == Raised(ExceptionTranslator.TranslateToCfnException(disassociated.error))
    ensures disassociated.Threw? && disassociated.error.kind == OtherSdkError ==> p.Raised? && p.exception.code == InternalFailure
  {
    match disassociated
    case Completed => Succeeded(None)
    case Threw(e) => Raised(ExceptionTranslator.TranslateToCfnException(e))
  }
}
