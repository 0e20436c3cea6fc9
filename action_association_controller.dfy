/**
 * The association provider's controller: whether a service action is associated
 * with a provisioning artifact (a paginated search), the full list of associated
 * action ids (a paginated listing), the models built from that list, and the
 * update that moves an association from one triple to another.
 *
 * The Service Catalog list call is modelled by a PageChain: the answers the
 * service gives to the successive requests of one traversal.
 */
module ActionAssociationController {
  import opened Wrappers
  import opened ServiceCatalog
  import ExceptionTranslator
  import Pages

  /** The association resource; every field is nullable, as in the builder-made Java model. */
  datatype ResourceModel = ResourceModel(
    id: Option<string>,
    productId: Option<string>,
    provisioningArtifactId: Option<string>,
    serviceActionId: Option<string>)

  /** `ResourceModel.builder().build()`: a model with no field set. */
  const EmptyModel: ResourceModel := ResourceModel(None, None, None, None)

  /** One ListServiceActionsForProvisioningArtifact response: the summaries' ids and the next token. */
  datatype Page = Page(serviceActionIds: seq<string>, nextPageToken: Option<string>)

  /**
   * The service's answers to one traversal: request k (counting from 0) is answered
   * with pages[k]; when fault is Some(e), the request after the last page throws e.
   */
  datatype PageChain = PageChain(pages: seq<Page>, fault: Option<SdkError>)

  /**
   * A traversal that ends: every page but the last asks for another page. Without a
   * fault the last page carries no usable token; with a fault, every page asks for
   * one more and the next request throws.
   */
  ghost predicate ValidChain(service: PageChain)
  {
    && (forall k :: 0 <= k < |service.pages| - 1 ==> NotNullOrEmpty(service.pages[k].nextPageToken))
    && (service.fault.None? ==>
          |service.pages| > 0 && !NotNullOrEmpty(service.pages[|service.pages| - 1].nextPageToken))
    && (service.fault.Some? && |service.pages| > 0 ==>
          NotNullOrEmpty(service.pages[|service.pages| - 1].nextPageToken))
  }

  /** The service's answer to request k of the traversal. */
  function Fetch(service: PageChain, k: nat): (r: Result<Page, SdkError>)
    requires k < |service.pages| || (k == |service.pages| && service.fault.Some?)
    ensures r.Ok? <==> k < |service.pages|
    ensures r.Ok? ==> r.value == service.pages[k]
    ensures r.Err? ==> r.error == service.fault.value
  {
    if k < |service.pages| then Ok(service.pages[k]) else Err(service.fault.value)
  }

  /** The token sent with request k: none with the first, the previous response's after that. */
  function RequestToken(service: PageChain, k: nat): Option<string>
    requires k <= |service.pages|
  {
    if k == 0 then None else service.pages[k - 1].nextPageToken
  }

  /** The tokens of the first n requests, in order. */
  function RequestTokens(service: PageChain, n: nat): seq<Option<string>>
    requires n <= |service.pages| + 1
    requires n == |service.pages| + 1 ==> service.fault.Some?
  {
    if n == 0 then [] else RequestTokens(service, n - 1) + [RequestToken(service, n - 1)]
  }

  /** The number of requests a whole traversal makes. */
  function FullTraversal(service: PageChain): nat
  {
    |service.pages| + if service.fault.Some? then 1 else 0
  }

  /** The index of the first page listing id, or the number of pages when none does. */
  function FirstMatch(pages: seq<Page>, id: string): (k: nat)
    ensures k <= |pages|
    ensures forall j :: 0 <= j < k ==> id !in pages[j].serviceActionIds
    ensures k < |pages| ==> id in pages[k].serviceActionIds
  {
    if pages == [] then 0
    else if id in pages[0].serviceActionIds then 0
    else 1 + FirstMatch(pages[1..], id)
  }

  /** What the membership search answers: true once a page lists id; otherwise the fault, if any; else false. */
  function Membership(service: PageChain, id: string): Result<bool, SdkError>
  {
    if FirstMatch(service.pages, id) < |service.pages| then Ok(true)
    else if service.fault.Some? then Err(service.fault.value)
    else Ok(false)
  }

  /** How many requests the membership search makes: up to the first matching page, else all. */
  function RequestsMade(service: PageChain, id: string): nat
  {
    var k := FirstMatch(service.pages, id);
    if k < |service.pages| then k + 1 else FullTraversal(service)
  }

  /** The ids of each page, in order. */
  function PageIds(pages: seq<Page>): (r: seq<seq<string>>)
    ensures |r| == |pages|
    ensures forall k :: 0 <= k < |pages| ==> r[k] == pages[k].serviceActionIds
  {
    seq(|pages|, k requires 0 <= k < |pages| => pages[k].serviceActionIds)
  }

  /** What the full listing answers: every id of every page, or the fault if one is raised. */
  function ListAll(service: PageChain): Result<seq<string>, SdkError>
  {
    if service.fault.Some? then Err(service.fault.value)
    else Ok(Pages.Flatten(PageIds(service.pages)))
  }

  /**
   * isServiceActionAssociatedToPA: requests pages, chaining the next-page token,
   * until a page lists serviceActionId or a response carries no usable token. An
   * SDK exception from a request ends the search (r is Err). The ghost requests
   * records the token of every request made.
   */
  method IsServiceActionAssociatedToPA(service: PageChain, serviceActionId: string)
    returns (r: Result<bool, SdkError>, ghost requests: seq<Option<string>>)
    requires ValidChain(service)
    ensures r == Membership(service, serviceActionId)
    ensures RequestsMade(service, serviceActionId) <= FullTraversal(service)
    ensures requests == RequestTokens(service, RequestsMade(service, serviceActionId))
  {
    var pageToken: Option<string> := None;
    var k := 0;  // the number of responses received so far
    requests := [];
    while true
      invariant k <= |service.pages|
      invariant pageToken == RequestToken(service, k)
      invariant k > 0 ==> NotNullOrEmpty(pageToken)
      invariant requests == RequestTokens(service, k)
      invariant forall j :: 0 <= j < k ==> serviceActionId !in service.pages[j].serviceActionIds
      decreases |service.pages| - k
    {
      requests := requests + [pageToken];
      var response := Fetch(service, k);
      match response
      case Err(e) =>
        r := Err(e);
        return;
      case Ok(page) =>
        pageToken := page.nextPageToken;
        k := k + 1;
        if serviceActionId in page.serviceActionIds {
          r := Ok(true);
          return;
        }
        if !NotNullOrEmpty(pageToken) {
          break;
        }
    }
    r := Ok(false);
  }

  /**
   * listServiceActionsForProvisioningArtifact: requests every page, chaining the
   * next-page token, and appends the ids of each page in order.
   */
  method ListServiceActionsForProvisioningArtifact(service: PageChain)
    returns (r: Result<seq<string>, SdkError>, ghost requests: seq<Option<string>>)
    requires ValidChain(service)
    ensures r == ListAll(service)
    ensures requests == RequestTokens(service, FullTraversal(service))
  {
    var pageToken: Option<string> := None;
    var serviceActionIds: seq<string> := [];
    var k := 0;  // the number of responses received so far
    requests := [];
    while true
      invariant k <= |service.pages|
      invariant pageToken == RequestToken(service, k)
      invariant k > 0 ==> NotNullOrEmpty(pageToken)
      invariant requests == RequestTokens(service, k)
      invariant serviceActionIds == Pages.Flatten(PageIds(service.pages[..k]))
      decreases |service.pages| - k
    {
      requests := requests + [pageToken];
      var response := Fetch(service, k);
      match response
      case Err(e) =>
        r := Err(e);
        return;
      case Ok(page) =>
        pageToken := page.nextPageToken;
        for i := 0 to |page.serviceActionIds|
          invariant serviceActionIds
                    == Pages.Flatten(PageIds(service.pages[..k])) + page.serviceActionIds[..i]
        {
          serviceActionIds := serviceActionIds + [page.serviceActionIds[i]];
        }
        assert page.serviceActionIds[..|page.serviceActionIds|] == page.serviceActionIds;
        assert PageIds(service.pages[..k + 1]) == PageIds(service.pages[..k]) + [page.serviceActionIds];
        Pages.FlattenAppend(PageIds(service.pages[..k]), page.serviceActionIds);
        k := k + 1;
        if !NotNullOrEmpty(pageToken) {
          break;
        }
    }
    assert service.pages[..k] == service.pages;
    r := Ok(serviceActionIds);
  }

  /** buildListResourceModel: one association model per id, in order, with the id field unset. */
  method BuildListResourceModel(serviceActionIds: seq<string>, productId: string, provisioningArtifactId: string)
    returns (models: seq<ResourceModel>)
    ensures |models| == |serviceActionIds|
    ensures forall i :: 0 <= i < |models| ==>
              models[i] == ResourceModel(None, Some(productId), Some(provisioningArtifactId), Some(serviceActionIds[i]))
  {
    models := [];
    for i := 0 to |serviceActionIds|
      invariant |models| == i
      invariant forall j :: 0 <= j < i ==>
                  models[j] == ResourceModel(None, Some(productId), Some(provisioningArtifactId), Some(serviceActionIds[j]))
    {
      var resourceModel := ResourceModel(None, Some(productId), Some(provisioningArtifactId), Some(serviceActionIds[i]));
      models := models + [resourceModel];
    }
  }

  /** The result envelope of the update path (UpdateAssociationStatus). */
  datatype UpdateAssociationStatus = UpdateAssociationStatus(
    status: OperationStatus,
    errorMessage: Option<string>,
    resourceModel: ResourceModel,
    errorCode: Option<HandlerErrorCode>)

  /** An SDK request issued by the update path, with the triple it names. */
  datatype AssociationCall =
    | Associate(productId: Option<string>, provisioningArtifactId: Option<string>, serviceActionId: Option<string>)
    | Disassociate(productId: Option<string>, provisioningArtifactId: Option<string>, serviceActionId: Option<string>)

  /** What the update path returns, with the requests it issued in order. */
  datatype UpdateRun = UpdateRun(status: UpdateAssociationStatus, calls: seq<AssociationCall>)

  function AssociateCallFor(m: ResourceModel): AssociationCall
  {
    Associate(m.productId, m.provisioningArtifactId, m.serviceActionId)
  }

  function DisassociateCallFor(m: ResourceModel): AssociationCall
  {
    Disassociate(m.productId, m.provisioningArtifactId, m.serviceActionId)
  }

  /** A disassociation that completed or found nothing to remove lets the update go on. */
  predicate DisassociationTolerated(outcome: CallOutcome)
  {
    outcome.Completed? || outcome.error.kind == ResourceNotFound
  }

  /** The error code the update path reports when the associate request throws. */
  function AssociateErrorCode(kind: SdkErrorKind): (code: HandlerErrorCode)
    ensures kind == ResourceNotFound <==> code == NotFound
    ensures kind == DuplicateResource <==> code == AlreadyExists
    ensures kind == LimitExceeded <==> code == ServiceLimitExceeded
    ensures kind !in {ResourceNotFound, DuplicateResource, LimitExceeded} <==> code == NotStabilized
  {
    if kind == ResourceNotFound then NotFound
    else if kind == DuplicateResource then AlreadyExists
    else if kind == LimitExceeded then ServiceLimitExceeded
    else NotStabilized
  }

  /**
   * updateServiceActionAssociation: disassociate the previous triple, then associate
   * the desired one. disassociated and associated are what the two SDK requests do
   * when issued; associated is consulted only if the associate request is issued.
   */
  function UpdateServiceActionAssociation(
    previousModel: ResourceModel, desiredModel: ResourceModel,
    disassociated: CallOutcome, associated: CallOutcome): (run: UpdateRun)
    // the previous triple is always disassociated first
    ensures |run.calls| > 0 && run.calls[0] == DisassociateCallFor(previousModel)
    // the associate request is issued, with the desired triple, exactly when the disassociation is tolerated
    ensures DisassociationTolerated(disassociated) <==> run.calls == [DisassociateCallFor(previousModel), AssociateCallFor(desiredModel)]
    ensures !DisassociationTolerated(disassociated) <==> run.calls == [DisassociateCallFor(previousModel)]
    // any other disassociation failure keeps the previous model
    ensures !DisassociationTolerated(disassociated) ==>
              run.status == UpdateAssociationStatus(FAILED, Some(disassociated.error.message), previousModel, Some(NotStabilized))
    // success exactly when both steps succeed, and then the desired model is reported
    ensures run.status.status == SUCCESS <==> DisassociationTolerated(disassociated) && associated.Completed?
    ensures run.status.status == SUCCESS ==>
              run.status == UpdateAssociationStatus(SUCCESS, None, desiredModel, None)
    // a failed associate reports an empty model and the mapped error code
    ensures DisassociationTolerated(disassociated) && associated.Threw? ==>
              run.status == UpdateAssociationStatus(FAILED, Some(associated.error.message), EmptyModel,
                                                    Some(AssociateErrorCode(associated.error.kind)))
    ensures run.status.status != IN_PROGRESS
  {
    var disassociate := DisassociateCallFor(previousModel);
    if !DisassociationTolerated(disassociated) then
      UpdateRun(UpdateAssociationStatus(FAILED, Some(disassociated.error.message), previousModel, Some(NotStabilized)),
                [disassociate])
    else
      var calls := [disassociate, AssociateCallFor(desiredModel)];
      match associated
      case Completed =>
        UpdateRun(UpdateAssociationStatus(SUCCESS, None, desiredModel, None), calls)
      case Threw(e) =>
        UpdateRun(UpdateAssociationStatus(FAILED, Some(e.message), EmptyModel, Some(AssociateErrorCode(e.kind))), calls)
  }

  /**
   * The membership search answers true exactly when some page of the traversal
   * lists the id; it answers false exactly when the traversal ends without a fault
   * and no page lists it; otherwise it reports the fault.
   */
  lemma MembershipMeaning(service: PageChain, id: string)
    ensures Membership(service, id) == Ok(true) <==>
              exists k :: 0 <= k < |service.pages| && id in service.pages[k].serviceActionIds
    ensures Membership(service, id) == Ok(false) <==>
              service.fault.None? && forall k :: 0 <= k < |service.pages| ==> id !in service.pages[k].serviceActionIds
    ensures Membership(service, id).Err? <==>
              service.fault.Some? && forall k :: 0 <= k < |service.pages| ==> id !in service.pages[k].serviceActionIds
    ensures Membership(service, id).Err? ==> Membership(service, id).error == service.fault.value
  {
    var m := FirstMatch(service.pages, id);
    if exists k :: 0 <= k < |service.pages| && id in service.pages[k].serviceActionIds {
      var k :| 0 <= k < |service.pages| && id in service.pages[k].serviceActionIds;
      assert m <= k;
    }
  }

  /** The search stops at the first page that lists the id: no later page is requested. */
  lemma StopsAtFirstMatch(service: PageChain, id: string, k: nat)
    requires k < |service.pages| && id in service.pages[k].serviceActionIds
    ensures RequestsMade(service, id) <= k + 1
    ensures Membership(service, id) == Ok(true)
  {
  }

  /**
   * The first request sends no token; request j > 0 sends the token of response
   * j - 1, and that token is usable: the traversal goes on exactly while it is.
   */
  lemma {:induction false} RequestsChainTokens(service: PageChain, n: nat)
    requires ValidChain(service)
    requires n <= FullTraversal(service)
    ensures |RequestTokens(service, n)| == n
    ensures n > 0 ==> RequestTokens(service, n)[0] == None
    ensures forall j :: 0 < j < n ==>
              RequestTokens(service, n)[j] == service.pages[j - 1].nextPageToken
              && NotNullOrEmpty(RequestTokens(service, n)[j])
  {
    if n > 0 {
      RequestsChainTokens(service, n - 1);
      assert RequestTokens(service, n) == RequestTokens(service, n - 1) + [RequestToken(service, n - 1)];
    }
  }

  /**
   * The search and the full listing agree: when the listing succeeds, the search
   * answers whether the id is in the list; the search fails exactly when the
   * listing fails and no page before the fault lists the id.
   */
  lemma MembershipAgreesWithListing(service: PageChain, id: string)
    ensures ListAll(service).Ok? ==> Membership(service, id) == Ok(id in ListAll(service).value)
    ensures Membership(service, id).Err? <==> ListAll(service).Err? && id !in Pages.Flatten(PageIds(service.pages))
    ensures Membership(service, id) == Ok(true) <==> id in Pages.Flatten(PageIds(service.pages))
  {
    MembershipMeaning(service, id);
    Pages.FlattenContains(PageIds(service.pages), id);
  }

  /**
   * The full listing keeps every id of every page exactly once, in page order and
   * then in order within the page: id i of page k is at the position that follows
   * all ids of the earlier pages.
   */
  lemma ListingOrder(service: PageChain, k: nat, i: nat)
    requires service.fault.None?
    requires k < |service.pages| && i < |service.pages[k].serviceActionIds|
    ensures |ListAll(service).value| == Pages.TotalSize(PageIds(service.pages))
    ensures var offset := Pages.TotalSize(PageIds(service.pages)[..k]);
            offset + i < |ListAll(service).value| &&
            ListAll(service).value[offset + i] == service.pages[k].serviceActionIds[i]
  {
    Pages.FlattenLength(PageIds(service.pages));
    Pages.FlattenIndex(PageIds(service.pages), k, i);
  }

  /**
   * A failed associate reports the same error code as the shared exception
   * translator for not-found, duplicate and limit-exceeded; for any other kind the
   * update reports NotStabilized where the translator would give InvalidRequest or
   * InternalFailure.
   */
  lemma AssociateErrorCodeVersusTranslator(e: SdkError)
    ensures e.kind in {ResourceNotFound, DuplicateResource, LimitExceeded} <==>
              AssociateErrorCode(e.kind) == ExceptionTranslator.TranslateToCfnException(e).code
    ensures e.kind == InvalidParameters ==>
              AssociateErrorCode(e.kind) == NotStabilized
              && ExceptionTranslator.TranslateToCfnException(e).code == InvalidRequest
  {
  }
}
