# Service Catalog service actions and their associations, modelled in Dafny

Two CloudFormation resource providers manage AWS Service Catalog *service actions* and
the *associations* of a service action with a provisioning artifact of a product. Each
handler builds a request and sends it to the Service Catalog SDK. It then maps the answer
back into a resource model, or maps the SDK exception into a CloudFormation exception.
This project models the parts of that code that take decisions:

- `action_association_controller.dfy` models the association controller.
  - The membership search walks a paginated listing, chaining the next-page token. It stops at the first page that lists the wanted service action, or at the first response without a usable token.
  - The full listing of associated ids.
  - The association models built from that listing.
  - The update path: it disassociates the previous triple, then associates the desired one, and reports a status instead of throwing.
- `stabilization.dfy` models the stabilizer that follows an asynchronous create or delete. It is a pure transition on the remaining-retries counter and one membership answer. It ends in success, requests another invocation with one retry fewer, or raises not-stabilized or not-found. Create and delete have opposite polarity.
- `exception_translator.dfy` models the total translation from SDK exception kinds to CloudFormation error codes.
- `action_controller.dfy` models the service-action controller.
  - A definition parameter list becomes a key/value map, and a map becomes a list again.
  - The create and update requests, and which model fields each one carries.
  - The model rebuilt from a service-action detail.
  - The flattened listing of every service-action id.
- `association_handlers.dfy` models the association create and delete handlers, as written and corrected (see Findings).
- `service_catalog.dfy`, `pages.dfy` and `wrappers.dfy` hold the shared vocabulary:
  - SDK exception kinds, CloudFormation error codes and statuses.
  - Concatenation of pages.
  - Option and Result.

The Service Catalog service itself is not modelled. Its place is taken by two kinds of oracle:

- **Paginated list calls.** A `PageChain` stands for them: the pages the service returns to the successive requests of one traversal. It may also carry the SDK exception that the request after the last page throws. `ValidChain` says that the traversal ends:
  - every page but the last carries a non-null, non-empty next token;
  - the last page carries no such token, unless a fault follows it.

  The loop methods keep the number of responses received as the service's cursor. A ghost log records the token sent with each request.
- **Single calls** (associate, disassociate). A `CallOutcome` stands for each one: `Completed`, or `Threw` with the SDK exception.

## Model

| member | source | states |
|---|---|---|
| `Pages.FlattenAppend` | aws-servicecatalog-serviceactionassociation/src/main/java/software/amazon/servicecatalog/serviceactionassociation/ActionAssociationController.java:103-107 | appending a page to the listing appends that page's ids after all earlier ones |
| `Pages.FlattenLength` | aws-servicecatalog-serviceactionassociation/src/main/java/software/amazon/servicecatalog/serviceactionassociation/ActionAssociationController.java:92-111 | the listing keeps every item of every page, duplicates included: its length is the total page size |
| `Pages.FlattenContains` | aws-servicecatalog-serviceactionassociation/src/main/java/software/amazon/servicecatalog/serviceactionassociation/ActionAssociationController.java:92-111 | an id is in the listing iff it is on some page |
| `Pages.FlattenIndex` | aws-servicecatalog-serviceactionassociation/src/main/java/software/amazon/servicecatalog/serviceactionassociation/ActionAssociationController.java:105-107 | item i of page k sits at the position after all items of pages 0..k-1 |
| `ExceptionTranslator.TranslateToCfnException` | aws-servicecatalog-serviceactionassociation/src/main/java/software/amazon/servicecatalog/serviceactionassociation/ExceptionTranslator.java:15-30 | total over SDK kinds; not-found, duplicate, limit-exceeded and invalid-parameters map (iff) to NotFound, AlreadyExists, ServiceLimitExceeded and InvalidRequest; every other kind to InternalFailure; never NotStabilized; the SDK exception is kept as cause and the exception is returned, not raised |
| `ActionAssociationController.Fetch` | aws-servicecatalog-serviceactionassociation/src/main/java/software/amazon/servicecatalog/serviceactionassociation/ActionAssociationController.java:44-53 | the k-th list request yields page k exactly while pages remain, and the chain's fault after that |
| `ActionAssociationController.FirstMatch` | aws-servicecatalog-serviceactionassociation/src/main/java/software/amazon/servicecatalog/serviceactionassociation/ActionAssociationController.java:61 | the index of the first page listing the id: no earlier page lists it, and that page does (or it is past the end) |
| `ActionAssociationController.PageIds` | aws-servicecatalog-serviceactionassociation/src/main/java/software/amazon/servicecatalog/serviceactionassociation/ActionAssociationController.java:103-107 | one id sequence per page, in page order |
| `ActionAssociationController.IsServiceActionAssociatedToPA` | aws-servicecatalog-serviceactionassociation/src/main/java/software/amazon/servicecatalog/serviceactionassociation/ActionAssociationController.java:55-68 | the do-while search answers `Membership` (true at the first page listing the id, else the fault, else false) and sends exactly the tokens of the first `RequestsMade` requests, never more than a full traversal |
| `ActionAssociationController.ListServiceActionsForProvisioningArtifact` | aws-servicecatalog-serviceactionassociation/src/main/java/software/amazon/servicecatalog/serviceactionassociation/ActionAssociationController.java:92-111 | the do-while listing returns every page's ids concatenated in order (or the fault), after sending the tokens of the whole traversal |
| `ActionAssociationController.BuildListResourceModel` | aws-servicecatalog-serviceactionassociation/src/main/java/software/amazon/servicecatalog/serviceactionassociation/ActionAssociationController.java:113-124 | as many models as ids; model i has serviceActionId ids[i], the given product and provisioning-artifact ids, and no id |
| `ActionAssociationController.AssociateErrorCode` | aws-servicecatalog-serviceactionassociation/src/main/java/software/amazon/servicecatalog/serviceactionassociation/ActionAssociationController.java:150-157 | a failed associate reports NotFound, AlreadyExists or ServiceLimitExceeded for those three kinds (iff), NotStabilized for every other |
| `ActionAssociationController.UpdateServiceActionAssociation` | aws-servicecatalog-serviceactionassociation/src/main/java/software/amazon/servicecatalog/serviceactionassociation/ActionAssociationController.java:126-166 | disassociates the previous triple first; associates the desired triple iff the disassociation completed or found nothing; any other disassociation failure gives FAILED/NotStabilized with the previous model and its message; SUCCESS iff both steps succeed, with the desired model; a failed associate gives FAILED, an empty model, its message and the mapped code; never IN_PROGRESS |
| `ActionAssociationController.MembershipMeaning` | aws-servicecatalog-serviceactionassociation/src/main/java/software/amazon/servicecatalog/serviceactionassociation/ActionAssociationController.java:55-67 | the search answers true iff some page lists the id, false iff no fault and no page lists it, the fault iff there is one and no page lists the id |
| `ActionAssociationController.StopsAtFirstMatch` | aws-servicecatalog-serviceactionassociation/src/main/java/software/amazon/servicecatalog/serviceactionassociation/ActionAssociationController.java:58-64 | when page k lists the id the search answers true and makes at most k+1 requests |
| `ActionAssociationController.RequestsChainTokens` | aws-servicecatalog-serviceactionassociation/src/main/java/software/amazon/servicecatalog/serviceactionassociation/ActionAssociationController.java:56-65 | the first request sends no token; request j>0 sends response j-1's token, which is non-null and non-empty |
| `ActionAssociationController.MembershipAgreesWithListing` | aws-servicecatalog-serviceactionassociation/src/main/java/software/amazon/servicecatalog/serviceactionassociation/ActionAssociationController.java:55-111 | the search and the full listing agree: a successful listing contains the id iff the search says true; the search fails iff the listing fails and no page lists the id |
| `ActionAssociationController.ListingOrder` | aws-servicecatalog-serviceactionassociation/src/main/java/software/amazon/servicecatalog/serviceactionassociation/ActionAssociationController.java:92-111 | the listing has the total page size and holds id i of page k right after all ids of earlier pages |
| `ActionAssociationController.AssociateErrorCodeVersusTranslator` | aws-servicecatalog-serviceactionassociation/src/main/java/software/amazon/servicecatalog/serviceactionassociation/ActionAssociationController.java:148-157 | the update's inline mapping agrees with the exception translator exactly on not-found, duplicate and limit-exceeded; on invalid parameters it gives NotStabilized where the translator gives InvalidRequest |
| `Stabilization.Decremented` | aws-servicecatalog-serviceactionassociation/src/main/java/software/amazon/servicecatalog/serviceactionassociation/stabilizer/Stabilization.java:36-39 | the next context names the same association with exactly one retry fewer |
| `Stabilization.MembershipFailure` | aws-servicecatalog-serviceactionassociation/src/main/java/software/amazon/servicecatalog/serviceactionassociation/stabilizer/Stabilization.java:43-45 | a not-found from the search becomes CfnNotFound (with cause), any other SDK exception propagates |
| `Stabilization.HandleCreateStabilizeRequest` | aws-servicecatalog-serviceactionassociation/src/main/java/software/amazon/servicecatalog/serviceactionassociation/stabilizer/Stabilization.java:22-46 | zero retries: NotStabilized whatever the membership answer; otherwise Success with the desired model iff present, InProgress iff absent (same ids, retries-1, the poll delay, the desired model), and a search exception handled by `MembershipFailure` |
| `Stabilization.HandleDeleteStabilizeRequest` | aws-servicecatalog-serviceactionassociation/src/main/java/software/amazon/servicecatalog/serviceactionassociation/stabilizer/Stabilization.java:48-72 | zero retries: NotStabilized; otherwise Success with no model iff absent, InProgress iff present (same ids, retries-1), search exceptions as for create |
| `Stabilization.DriveIsBounded` | aws-servicecatalog-serviceactionassociation/src/main/java/software/amazon/servicecatalog/serviceactionassociation/stabilizer/Stabilization.java:26-41 | over repeated invocations the i-th InProgress result carries n-1-i retries for the same association, so at most n InProgress results occur from n retries; only the last result can be terminal, and with more than n polls the run ends in a terminal result |
| `Stabilization.OppositePolarity` | aws-servicecatalog-serviceactionassociation/src/main/java/software/amazon/servicecatalog/serviceactionassociation/stabilizer/Stabilization.java:59-67 | with retries left, delete on one membership answer behaves as create on the opposite answer, except that its success carries no model |
| `Stabilization.CreateAbsentThenPresent` | aws-servicecatalog-serviceactionassociation/src/main/java/software/amazon/servicecatalog/serviceactionassociation/stabilizer/Stabilization.java:31-41 | an absent poll then a present poll give InProgress with retries-1, then Success |
| `Stabilization.NotFoundSearchEndsStabilization` | aws-servicecatalog-serviceactionassociation/src/main/java/software/amazon/servicecatalog/serviceactionassociation/stabilizer/Stabilization.java:43-45 | a search whose listing throws not-found before any page lists the id ends create or delete stabilization in CfnNotFound, never InProgress |
| `ActionController.BuildServiceActionDefinition` | aws-servicecatalog-serviceaction/src/main/java/software/amazon/servicecatalog/serviceaction/ActionController.java:98-102 | for parameters with distinct keys, the map's key set is the set of keys and every key maps to its parameter's value |
| `ActionController.BuildResourceModelDefinition` | aws-servicecatalog-serviceaction/src/main/java/software/amazon/servicecatalog/serviceaction/ActionController.java:104-114 | exactly one parameter per map entry: as many parameters as entries, distinct keys, the map's key set as its keys, and each parameter's value is the map's value for its key |
| `ActionController.ConsEntries` | aws-servicecatalog-serviceaction/src/main/java/software/amazon/servicecatalog/serviceaction/ActionController.java:106-113 | adding one entry's parameter in front of a parameter list for the rest of the map gives a parameter list for the whole map (same four facts) |
| `ActionController.ParameterIffEntry` | aws-servicecatalog-serviceaction/src/main/java/software/amazon/servicecatalog/serviceaction/ActionController.java:104-114 | a parameter is in the list built from a map iff its key maps to its value there |
| `ActionController.BuildResourceModelFromServiceActionDetail` | aws-servicecatalog-serviceaction/src/main/java/software/amazon/servicecatalog/serviceaction/ActionController.java:116-126 | id, name, description and definition type come from the summary; the definition has one parameter per detail entry, with distinct keys, the detail's key set, and the detail's value for each key |
| `ActionController.BuildCreateRequest` | aws-servicecatalog-serviceaction/src/main/java/software/amazon/servicecatalog/serviceaction/ActionController.java:48-60 | the create request carries the model's name, definition type, description and definition map, and the caller's idempotency token unchanged; it has no id |
| `ActionController.BuildUpdateRequest` | aws-servicecatalog-serviceaction/src/main/java/software/amazon/servicecatalog/serviceaction/ActionController.java:62-73 | the update request carries the model's id, name, description and definition map; it has no definition type |
| `ActionController.SummaryIds` | aws-servicecatalog-serviceaction/src/main/java/software/amazon/servicecatalog/serviceaction/ActionController.java:93-94 | one id per summary, in order |
| `ActionController.IdPages` | aws-servicecatalog-serviceaction/src/main/java/software/amazon/servicecatalog/serviceaction/ActionController.java:92-94 | one id sequence per page of summaries, each holding that page's summary ids in order |
| `ActionController.IdPagesTotalSize` | aws-servicecatalog-serviceaction/src/main/java/software/amazon/servicecatalog/serviceaction/ActionController.java:92-94 | taking ids page by page keeps the total number of items |
| `ActionController.ListAllServiceActionIds` | aws-servicecatalog-serviceaction/src/main/java/software/amazon/servicecatalog/serviceaction/ActionController.java:85-96 | the concatenation of the id pages; the result has the total number of summaries, and an id is in it iff some summary on some page has it |
| `ActionController.ListAllOrder` | aws-servicecatalog-serviceaction/src/main/java/software/amazon/servicecatalog/serviceaction/ActionController.java:92-95 | summary i of page k gives the id right after all ids of earlier pages |
| `ActionController.MapListMapRoundTrip` | aws-servicecatalog-serviceaction/src/main/java/software/amazon/servicecatalog/serviceaction/ActionController.java:98-114 | converting a map to parameters and back gives the original map |
| `ActionController.DistinctKeysOccurOnce` | aws-servicecatalog-serviceaction/src/main/java/software/amazon/servicecatalog/serviceaction/ActionController.java:98-102 | in a parameter list with distinct keys every parameter occurs at most once |
| `ActionController.ListMapListSameParameters` | aws-servicecatalog-serviceaction/src/main/java/software/amazon/servicecatalog/serviceaction/ActionController.java:98-114 | for distinct keys, a parameter survives converting the list to a map and back iff it was in the list |
| `ActionController.SameParametersSameMultiset` | aws-servicecatalog-serviceaction/src/main/java/software/amazon/servicecatalog/serviceaction/ActionController.java:98-114 | two lists with distinct keys that hold the same parameters are equal as multisets |
| `ActionController.ListMapListRoundTrip` | aws-servicecatalog-serviceaction/src/main/java/software/amazon/servicecatalog/serviceaction/ActionController.java:98-114 | for distinct keys, converting parameters to a map and back gives the same parameters as a multiset; the order may differ |
| `ActionController.DetailUpdateRoundTrip` | aws-servicecatalog-serviceaction/src/main/java/software/amazon/servicecatalog/serviceaction/ActionController.java:62-126 | sending a described action back as an update carries its id, name, description and exact definition map |
| `ActionController.CreatedModelMatchesDesired` | aws-servicecatalog-serviceaction/src/main/java/software/amazon/servicecatalog/serviceaction/CreateHandler.java:28-30 | if the service creates what was requested, the rebuilt model has the desired name, description, definition type and parameters, and the service's id |
| `ActionController.UpdatedModelMatchesDesired` | aws-servicecatalog-serviceaction/src/main/java/software/amazon/servicecatalog/serviceaction/UpdateHandler.java:26-29 | if the service applies the update as requested, the rebuilt model keeps the id and takes the new name, description and parameters; the definition type is the service's |
| `AssociationHandlers.WithPrimaryIdentifier` | aws-servicecatalog-serviceactionassociation/src/main/java/software/amazon/servicecatalog/serviceactionassociation/CreateHandler.java:39-49 | a null or empty id is replaced by the generated identifier; every other model is unchanged |
| `AssociationHandlers.CreateHandlerAsWritten` | aws-servicecatalog-serviceactionassociation/src/main/java/software/amazon/servicecatalog/serviceactionassociation/CreateHandler.java:29-36 | as written, the handler reports success with the identified model whatever the associate request did |
| `AssociationHandlers.CreateHandlerAsWrittenHidesNotFound` | aws-servicecatalog-serviceactionassociation/src/main/java/software/amazon/servicecatalog/serviceactionassociation/CreateHandler.java:33-34 | an associate that throws not-found still yields success |
| `AssociationHandlers.CreateHandler` | aws-servicecatalog-serviceactionassociation/src/main/java/software/amazon/servicecatalog/serviceactionassociation/CreateHandler.java:29-36 | corrected: success iff the associate completes; otherwise the translator's exception is raised (not-found gives CfnNotFound) |
| `AssociationHandlers.DeleteHandlerAsWritten` | aws-servicecatalog-serviceactionassociation/src/main/java/software/amazon/servicecatalog/serviceactionassociation/DeleteHandler.java:25-31 | as written, the handler reports success with no model whatever the disassociate request did |
| `AssociationHandlers.DeleteHandlerAsWrittenHidesFailure` | aws-servicecatalog-serviceactionassociation/src/main/java/software/amazon/servicecatalog/serviceactionassociation/DeleteHandler.java:28-29 | a disassociate that throws a generic SDK exception still yields success |
| `AssociationHandlers.DeleteHandler` | aws-servicecatalog-serviceactionassociation/src/main/java/software/amazon/servicecatalog/serviceactionassociation/DeleteHandler.java:25-31 | corrected: success iff the disassociate completes; otherwise the translator's exception (a generic SDK exception gives InternalFailure) |

## Findings

| source | as written | input that shows it | evidently intended | confidence | as-written member | corrected member |
|---|---|---|---|---|---|---|
| aws-servicecatalog-serviceactionassociation/src/main/java/software/amazon/servicecatalog/serviceactionassociation/CreateHandler.java:33-34 | the translated exception is built and discarded, and the handler returns success | associate throws ResourceNotFoundException | raise the translated exception (CfnNotFoundException here), as CreateHandlerTest.java:111 expects | high; not executed | `AssociationHandlers.CreateHandlerAsWritten` | `AssociationHandlers.CreateHandler` |
| aws-servicecatalog-serviceactionassociation/src/main/java/software/amazon/servicecatalog/serviceactionassociation/DeleteHandler.java:28-29 | the translated exception is built and discarded, and the handler returns success with no model | disassociate throws a generic SdkException | raise the translated exception (CfnInternalFailureException here), as DeleteHandlerTest.java:120 expects | high; not executed | `AssociationHandlers.DeleteHandlerAsWritten` | `AssociationHandlers.DeleteHandler` |

## Left out

- The Service Catalog service, the SDK client and its paginator, the credential-injecting proxy and HTTP transport. Their place is taken by `PageChain`, by the list of pages given to `ListAllServiceActionIds`, and by `CallOutcome`.
- Both `SCClientBuilder` files only construct the SDK client, so they are not modelled.
- Logging, and the text of exception messages. SDK exception messages are carried through unchanged. CloudFormation exceptions are identified by their error code and cause, without the resource type name or identifier.
- Java nulls in the service-action model, the callback context and definition values. Those fields are non-null strings. The retry counter is a `nat`, so a null or negative counter is not represented. The association model keeps its nullable fields as `Option`, because the empty model of the update path is observable.
- SDK exception messages, which Java may give as null. The update path puts `e.getMessage()` into the event (ActionAssociationController.java:136 and :161), and the model always reports it as `Some(message)`.
- Summary ids, which Java may give as null. Both listings add them unchecked (ActionAssociationController.java:106, ActionController.java:94), and the model takes every id to be a string.
- `AssociationHandlers.WithPrimaryIdentifier` returns a copy of the model with the generated id. The source sets the id in place on the request's own desired-state object (CreateHandler.java:42), and the model does not capture that aliasing.
- `POLL_RETRY_DELAY_SECONDS` is defined in `HandlerConstants`, which is not part of this model. It is taken to be 5 seconds.
- `ValidChain` assumes that every traversal ends. A service that keeps returning non-empty tokens would make the source loop forever, and the model does not represent that.
- `ActionController.BuildServiceActionDefinition` requires distinct keys. With a repeated key, `Collectors.toMap` throws IllegalStateException, and that exception path is not modelled.
- `ActionController.BuildResourceModelDefinition`: the order of the resulting parameters follows the map's iteration order, which the source leaves to the hash map. The model picks some order, so only the multiset of parameters is stated. For this reason it and `BuildResourceModelFromServiceActionDetail` are ghost functions.
- `ActionController.ListAllServiceActionIds`: SDK exceptions raised while the paginator fetches a page are not modelled. The listing of the association provider does model them.
- `deleteServiceAction` and `describeServiceAction` (service-action controller) are not modelled. Neither takes a decision: each sends one request carrying the id. The same holds for `associateServiceAction` and `disassociateServiceAction` in the association controller. The update path records their requests as `AssociationCall` values.
- The other CRUD handlers of both providers are framework glue. They are the association Read and List handlers, and the service-action Create, Read, Update, Delete and List handlers. Two of them discard the translated exception the same way as in Findings: the association ReadHandler.java:49 and ListHandler.java:39. The service-action CreateHandler.java:32 and UpdateHandler.java:31 do so as well. These handlers are not modelled.
- The association CreateHandler and DeleteHandler never call the stabilizer. Each returns success at once (CreateHandler.java:36, DeleteHandler.java:31), although DeleteHandlerTest.java:85 expects IN_PROGRESS. How the framework chooses between a handler and the stabilizer is not part of this code, so `Stabilization.Drive` models only the re-invocation loop.
