/**
 * Stabilization after an asynchronous associate or disassociate. One invocation
 * inspects the remaining-retries counter of the callback context and, when it is
 * positive, the answer of one membership search; it then either ends the operation
 * or asks the framework to invoke it again with the counter decremented.
 */
module Stabilization {
  import opened Wrappers
  import opened ServiceCatalog
  import opened ActionAssociationController

  /** The delay requested before the next invocation (POLL_RETRY_DELAY_SECONDS). */
  const PollRetryDelaySeconds: nat := 5

  /** The association's callback context, threaded by the framework between invocations. */
  datatype CallbackContext = CallbackContext(
    serviceActionId: string,
    productId: string,
    provisioningArtifactId: string,
    stabilizationRetriesRemaining: nat)

  /** What one invocation produces: a progress event, or an exception that leaves it. */
  datatype Progress =
    | Succeeded(successModel: Option<ResourceModel>)  // ProgressEvent.defaultSuccessHandler
    | InProgress(callbackContext: CallbackContext, callbackDelaySeconds: nat, model: ResourceModel)  // defaultInProgressHandler
    | Raised(exception: CfnException)  // CfnNotStabilizedException or CfnNotFoundException
    | Propagated(error: SdkError)  // an SDK exception the stabilizer does not catch

  /** Two contexts name the same association. */
  predicate SameAssociation(c1: CallbackContext, c2: CallbackContext)
  {
    c1.serviceActionId == c2.serviceActionId
    && c1.productId == c2.productId
    && c1.provisioningArtifactId == c2.provisioningArtifactId
  }

  /** The context of the next invocation: the same association, one retry fewer. */
  function Decremented(ctx: CallbackContext): (next: CallbackContext)
    requires ctx.stabilizationRetriesRemaining > 0
    ensures SameAssociation(next, ctx)
    ensures next.stabilizationRetriesRemaining + 1 == ctx.stabilizationRetriesRemaining
  {
    ctx.(stabilizationRetriesRemaining := ctx.stabilizationRetriesRemaining - 1)
  }

  /** The fate of an SDK exception thrown by the membership search. */
  function MembershipFailure(e: SdkError): (p: Progress)
    ensures e.kind == ResourceNotFound <==> p == Raised(CfnException(NotFound, Some(e)))
    ensures e.kind != ResourceNotFound <==> p == Propagated(e)
  {
    if e.kind == ResourceNotFound then Raised(CfnException(NotFound, Some(e))) else Propagated(e)
  }

  /**
   * handleCreateStabilizeRequest. membership is what the search for the context's
   * triple answers; it is not consulted when no retries remain.
   */
  function HandleCreateStabilizeRequest(ctx: CallbackContext, desired: ResourceModel, membership: Result<bool, SdkError>)
    : (p: Progress)
    ensures ctx.stabilizationRetriesRemaining == 0 ==> p == Raised(CfnException(NotStabilized, None))
    ensures p.Succeeded? <==> ctx.stabilizationRetriesRemaining > 0 && membership == Ok(true)
    ensures p.Succeeded? ==> p.successModel == Some(desired)
    ensures p.InProgress? <==> ctx.stabilizationRetriesRemaining > 0 && membership == Ok(false)
    ensures p.InProgress? ==>
              && SameAssociation(p.callbackContext, ctx)
              && p.callbackContext.stabilizationRetriesRemaining == ctx.stabilizationRetriesRemaining - 1
              && p.callbackDelaySeconds == PollRetryDelaySeconds
              && p.model == desired
    ensures ctx.stabilizationRetriesRemaining > 0 && membership.Err? ==> p == MembershipFailure(membership.error)
  {
    if ctx.stabilizationRetriesRemaining == 0 then
      Raised(CfnException(NotStabilized, None))
    else
      match membership
      case Err(e) => MembershipFailure(e)
      case Ok(isMatch) =>
        if isMatch then Succeeded(Some(desired))
        else InProgress(Decremented(ctx), PollRetryDelaySeconds, desired)
  }

  /**
   * handleDeleteStabilizeRequest: the polarity of create inverted; success carries
   * no model.
   */
  function HandleDeleteStabilizeRequest(ctx: CallbackContext, desired: ResourceModel, membership: Result<bool, SdkError>)
    : (p: Progress)
    ensures ctx.stabilizationRetriesRemaining == 0 ==> p == Raised(CfnException(NotStabilized, None))
    ensures p.Succeeded? <==> ctx.stabilizationRetriesRemaining > 0 && membership == Ok(false)
    ensures p.Succeeded? ==> p.successModel == None
    ensures p.InProgress? <==> ctx.stabilizationRetriesRemaining > 0 && membership == Ok(true)
    ensures p.InProgress? ==>
              && SameAssociation(p.callbackContext, ctx)
              && p.callbackContext.stabilizationRetriesRemaining == ctx.stabilizationRetriesRemaining - 1
              && p.callbackDelaySeconds == PollRetryDelaySeconds
              && p.model == desired
    ensures ctx.stabilizationRetriesRemaining > 0 && membership.Err? ==> p == MembershipFailure(membership.error)
  {
    if ctx.stabilizationRetriesRemaining == 0 then
      Raised(CfnException(NotStabilized, None))
    else
      match membership
      case Err(e) => MembershipFailure(e)
      case Ok(isMatch) =>
        if isMatch then InProgress(Decremented(ctx), PollRetryDelaySeconds, desired)
        else Succeeded(None)
  }

  datatype Operation = Create | Delete

  function Step(op: Operation, ctx: CallbackContext, desired: ResourceModel, membership: Result<bool, SdkError>): Progress
  {
    match op
    case Create => HandleCreateStabilizeRequest(ctx, desired, membership)
    case Delete => HandleDeleteStabilizeRequest(ctx, desired, membership)
  }

  /**
   * The framework's re-invocation loop: each invocation gets the next poll answer
   * and the context the previous one returned; the loop stops at the first result
   * that is not InProgress, or when the poll answers run out.
   */
  function Drive(op: Operation, ctx: CallbackContext, desired: ResourceModel, polls: seq<Result<bool, SdkError>>)
    : seq<Progress>
    decreases |polls|
  {
    if polls == [] then []
    else
      var p := Step(op, ctx, desired, polls[0]);
      if p.InProgress? then [p] + Drive(op, p.callbackContext, desired, polls[1..]) else [p]
  }

  /**
   * The retry counter bounds the re-invocations: the i-th result, when InProgress,
   * carries n - 1 - i retries for the same association (so at most n InProgress
   * results occur from n retries), and with more than n poll answers the run ends
   * in a result that is not InProgress.
   */
  lemma {:induction false} DriveIsBounded(op: Operation, ctx: CallbackContext, desired: ResourceModel,
                                          polls: seq<Result<bool, SdkError>>)
    ensures var trace := Drive(op, ctx, desired, polls);
            && |trace| <= |polls|
            && |trace| <= ctx.stabilizationRetriesRemaining + 1
            && (forall i :: 0 <= i < |trace| - 1 ==> trace[i].InProgress?)
            && (forall i :: 0 <= i < |trace| && trace[i].InProgress? ==>
                  && i < ctx.stabilizationRetriesRemaining
                  && trace[i].callbackContext.stabilizationRetriesRemaining == ctx.stabilizationRetriesRemaining - 1 - i
                  && SameAssociation(trace[i].callbackContext, ctx))
            && (|polls| > ctx.stabilizationRetriesRemaining ==> |trace| > 0 && !trace[|trace| - 1].InProgress?)
    decreases |polls|
  {
    if polls != [] {
      var p := Step(op, ctx, desired, polls[0]);
      if p.InProgress? {
        var next := p.callbackContext;
        DriveIsBounded(op, next, desired, polls[1..]);
        var rest := Drive(op, next, desired, polls[1..]);
        assert Drive(op, ctx, desired, polls) == [p] + rest;
        forall i | 0 <= i < |[p] + rest| && ([p] + rest)[i].InProgress?
          ensures SameAssociation(([p] + rest)[i].callbackContext, ctx)
        {
          if i > 0 {
            assert ([p] + rest)[i] == rest[i - 1];
          }
        }
      }
    }
  }

  /**
   * Create and delete are each other's mirror image: for a positive counter, the
   * create step continues on a membership answer exactly when the delete step
   * continues on the opposite answer, and each succeeds exactly when the other
   * would continue.
   */
  lemma {:induction false} OppositePolarity(ctx: CallbackContext, desired: ResourceModel, isMatch: bool)
    requires ctx.stabilizationRetriesRemaining > 0
    ensures HandleCreateStabilizeRequest(ctx, desired, Ok(isMatch))
            == (if isMatch then Succeeded(Some(desired))
                else HandleDeleteStabilizeRequest(ctx, desired, Ok(!isMatch)))
    ensures HandleDeleteStabilizeRequest(ctx, desired, Ok(isMatch))
            == (if isMatch then HandleCreateStabilizeRequest(ctx, desired, Ok(!isMatch))
                else Succeeded(None))
  {
  }

  /**
   * A create stabilization whose first search misses and whose second finds the
   * association reports InProgress with one retry fewer, then success.
   */
  lemma {:induction false} CreateAbsentThenPresent(ctx: CallbackContext, desired: ResourceModel)
    requires ctx.stabilizationRetriesRemaining >= 2
    ensures Drive(Create, ctx, desired, [Ok(false), Ok(true)])
            == [InProgress(Decremented(ctx), PollRetryDelaySeconds, desired), Succeeded(Some(desired))]
  {
    var polls: seq<Result<bool, SdkError>> := [Ok(false), Ok(true)];
    assert polls[1..] == [Ok(true)];
    assert Drive(Create, Decremented(ctx), desired, polls[1..]) == [Succeeded(Some(desired))];
  }

  /**
   * The stabilizer's membership answer is the one the paginated search gives for
   * the context's triple, so a search that throws not-found ends the stabilization
   * in NotFound and never in InProgress, for create and for delete alike.
   */
  lemma {:induction false} NotFoundSearchEndsStabilization(op: Operation, ctx: CallbackContext, desired: ResourceModel,
                                                           service: PageChain)
    requires ValidChain(service)
    requires ctx.stabilizationRetriesRemaining > 0
    requires service.fault.Some? && service.fault.value.kind == ResourceNotFound
    requires forall k :: 0 <= k < |service.pages| ==> ctx.serviceActionId !in service.pages[k].serviceActionIds
    ensures Step(op, ctx, desired, Membership(service, ctx.serviceActionId))
            == Raised(CfnException(NotFound, service.fault))
  {
    MembershipMeaning(service, ctx.serviceActionId);
  }
}
