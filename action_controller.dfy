/**
 * The service-action provider's controller: the conversion between the resource
 * model's list of definition parameters and the service's definition map, the
 * requests built for create and update, the model rebuilt from a service-action
 * detail, and the listing of every service-action id.
 */
module ActionController {
  import Pages

  /** One key/value entry of a service action's definition, as the template gives it. */
  datatype DefinitionParameter = DefinitionParameter(key: string, value: string)

  /** The service-action resource. */
  datatype ResourceModel = ResourceModel(
    id: string,
    name: string,
    definitionType: string,
    description: string,
    definition: seq<DefinitionParameter>)

  datatype ServiceActionSummary = ServiceActionSummary(id: string, name: string, description: string, definitionType: string)

  /** DescribeServiceAction/CreateServiceAction/UpdateServiceAction answer with a detail. */
  datatype ServiceActionDetail = ServiceActionDetail(serviceActionSummary: ServiceActionSummary, definition: map<string, string>)

  /** The fields a CreateServiceActionRequest is built with; there is no id. */
  datatype CreateServiceActionRequest = CreateServiceActionRequest(
    definition: map<string, string>,
    definitionType: string,
    description: string,
    idempotencyToken: string,
    name: string)

  /** The fields an UpdateServiceActionRequest is built with; there is no definition type. */
  datatype UpdateServiceActionRequest = UpdateServiceActionRequest(
    id: string,
    name: string,
    definition: map<string, string>,
    description: string)

  /** No two parameters share a key (Collectors.toMap without a merge function throws otherwise). */
  predicate DistinctKeys(definitions: seq<DefinitionParameter>)
  {
    forall i, j :: 0 <= i < j < |definitions| ==> definitions[i].key != definitions[j].key
  }

  /** The keys the parameters name. */
  function KeysOf(definitions: seq<DefinitionParameter>): set<string>
  {
    set i | 0 <= i < |definitions| :: definitions[i].key
  }

  /** buildServiceActionDefinition: the parameter list as a map from key to value. */
  function BuildServiceActionDefinition(definitions: seq<DefinitionParameter>): (m: map<string, string>)
    requires DistinctKeys(definitions)
    ensures m.Keys == KeysOf(definitions)
    ensures forall i :: 0 <= i < |definitions| ==> m[definitions[i].key] == definitions[i].value
  {
    if definitions == [] then map[]
    else
      var rest := BuildServiceActionDefinition(definitions[1..]);
      assert KeysOf(definitions) == {definitions[0].key} + KeysOf(definitions[1..]) by {
        forall k | k in KeysOf(definitions) ensures k in {definitions[0].key} + KeysOf(definitions[1..]) {
          var i :| 0 <= i < |definitions| && definitions[i].key == k;
          if i > 0 {
            assert definitions[1..][i - 1].key == k;
          }
        }
      }
      assert forall i :: 1 <= i < |definitions| ==> definitions[i] == definitions[1..][i - 1];
      rest[definitions[0].key := definitions[0].value]
  }

  /**
   * buildResourceModelDefinition: one parameter per map entry. The order of the
   * entries is the map's iteration order, which nothing fixes; this function picks
   * one.
   */
  ghost function BuildResourceModelDefinition(definitions: map<string, string>): (params: seq<DefinitionParameter>)
    ensures |params| == |definitions|
    ensures DistinctKeys(params)
    ensures KeysOf(params) == definitions.Keys
    ensures forall i :: 0 <= i < |params| ==>
              params[i].key in definitions && definitions[params[i].key] == params[i].value
    decreases |definitions|
  {
    if |definitions| == 0 then []
    else
      var k :| k in definitions;
      var tail := BuildResourceModelDefinition(definitions - {k});
      ConsEntries(definitions, k, tail);
      [DefinitionParameter(k, definitions[k])] + tail
  }

  /**
   * The entry for k put in front of a parameter list for the rest of the map gives
   * a parameter list for the whole map.
   */
  lemma ConsEntries(definitions: map<string, string>, k: string, tail: seq<DefinitionParameter>)
    requires k in definitions
    requires |tail| == |definitions - {k}|
    requires DistinctKeys(tail)
    requires KeysOf(tail) == (definitions - {k}).Keys
    requires forall i :: 0 <= i < |tail| ==>
               tail[i].key in definitions - {k} && (definitions - {k})[tail[i].key] == tail[i].value
    ensures var params := [DefinitionParameter(k, definitions[k])] + tail;
            && |params| == |definitions|
            && DistinctKeys(params)
            && KeysOf(params) == definitions.Keys
            && forall i :: 0 <= i < |params| ==>
                 params[i].key in definitions && definitions[params[i].key] == params[i].value
  {
    var head := DefinitionParameter(k, definitions[k]);
    var params := [head] + tail;
    assert (definitions - {k}).Keys == definitions.Keys - {k};
    KeysOfCons(head, tail);
    DistinctKeysCons(head, tail);
    forall i | 0 <= i < |params|
      ensures params[i].key in definitions && definitions[params[i].key] == params[i].value
    {
      if i > 0 {
        assert params[i] == tail[i - 1];
      }
    }
  }

  lemma KeysOfCons(p: DefinitionParameter, definitions: seq<DefinitionParameter>)
    ensures KeysOf([p] + definitions) == {p.key} + KeysOf(definitions)
  {
    var all := [p] + definitions;
    forall k | k in KeysOf(all) ensures k in {p.key} + KeysOf(definitions) {
      var i :| 0 <= i < |all| && all[i].key == k;
      if i > 0 {
        assert definitions[i - 1].key == k;
      }
    }
    forall k | k in KeysOf(definitions) ensures k in KeysOf(all) {
      var i :| 0 <= i < |definitions| && definitions[i].key == k;
      assert all[i + 1].key == k;
    }
    assert all[0].key == p.key;
  }

  lemma DistinctKeysCons(p: DefinitionParameter, definitions: seq<DefinitionParameter>)
    requires DistinctKeys(definitions) && p.key !in KeysOf(definitions)
    ensures DistinctKeys([p] + definitions)
  {
    var all := [p] + definitions;
    forall i, j | 0 <= i < j < |all| ensures all[i].key != all[j].key {
      assert all[j] == definitions[j - 1];
      if i == 0 {
        assert definitions[j - 1].key in KeysOf(definitions);
      } else {
        assert all[i] == definitions[i - 1];
      }
    }
  }

  /** A parameter is in the list built from a map exactly when its key maps to its value. */
  lemma ParameterIffEntry(definitions: map<string, string>, p: DefinitionParameter)
    ensures p in BuildResourceModelDefinition(definitions) <==> p.key in definitions && definitions[p.key] == p.value
  {
    var params := BuildResourceModelDefinition(definitions);
    if p.key in definitions && definitions[p.key] == p.value {
      assert p.key in KeysOf(params);
      var i :| 0 <= i < |params| && params[i].key == p.key;
      assert params[i] == p;
    }
  }

  /**
   * buildResourceModelFromServiceActionDetail: id, name, description and definition
   * type come from the summary, the definition from the detail's map.
   */
  ghost function BuildResourceModelFromServiceActionDetail(detail: ServiceActionDetail): (model: ResourceModel)
    ensures model.id == detail.serviceActionSummary.id
    ensures model.name == detail.serviceActionSummary.name
    ensures model.description == detail.serviceActionSummary.description
    ensures model.definitionType == detail.serviceActionSummary.definitionType
    ensures DistinctKeys(model.definition) && |model.definition| == |detail.definition|
    ensures KeysOf(model.definition) == detail.definition.Keys
    ensures forall i :: 0 <= i < |model.definition| ==>
              detail.definition[model.definition[i].key] == model.definition[i].value
  {
    var summary := detail.serviceActionSummary;
    ResourceModel(summary.id, summary.name, summary.definitionType, summary.description,
                  BuildResourceModelDefinition(detail.definition))
  }

  /** The request createServiceAction sends: the caller's idempotency token, unchanged, and no id. */
  function BuildCreateRequest(desiredModel: ResourceModel, idempotencyToken: string): (request: CreateServiceActionRequest)
    requires DistinctKeys(desiredModel.definition)
    ensures request.name == desiredModel.name
    ensures request.definitionType == desiredModel.definitionType
    ensures request.description == desiredModel.description
    ensures request.idempotencyToken == idempotencyToken
    ensures request.definition.Keys == KeysOf(desiredModel.definition)
    ensures forall i :: 0 <= i < |desiredModel.definition| ==>
              request.definition[desiredModel.definition[i].key] == desiredModel.definition[i].value
  {
    CreateServiceActionRequest(BuildServiceActionDefinition(desiredModel.definition), desiredModel.definitionType,
                               desiredModel.description, idempotencyToken, desiredModel.name)
  }

  /** The request updateServiceAction sends: the definition type is not part of it. */
  function BuildUpdateRequest(model: ResourceModel): (request: UpdateServiceActionRequest)
    requires DistinctKeys(model.definition)
    ensures request.id == model.id
    ensures request.name == model.name
    ensures request.description == model.description
    ensures request.definition.Keys == KeysOf(model.definition)
    ensures forall i :: 0 <= i < |model.definition| ==>
              request.definition[model.definition[i].key] == model.definition[i].value
  {
    UpdateServiceActionRequest(model.id, model.name, BuildServiceActionDefinition(model.definition), model.description)
  }

  /** The id of each summary, in order. */
  function SummaryIds(summaries: seq<ServiceActionSummary>): (ids: seq<string>)
    ensures |ids| == |summaries|
    ensures forall i :: 0 <= i < |summaries| ==> ids[i] == summaries[i].id
  {
    seq(|summaries|, i requires 0 <= i < |summaries| => summaries[i].id)
  }

  /** The ids of each page of summaries, page by page. */
  function IdPages(responses: seq<seq<ServiceActionSummary>>): (pages: seq<seq<string>>)
    ensures |pages| == |responses|
    ensures forall k :: 0 <= k < |responses| ==> pages[k] == SummaryIds(responses[k])
  {
    seq(|responses|, k requires 0 <= k < |responses| => SummaryIds(responses[k]))
  }

  /** Taking ids page by page keeps the number of items on every prefix of pages. */
  lemma {:induction false} IdPagesTotalSize(responses: seq<seq<ServiceActionSummary>>)
    ensures Pages.TotalSize(IdPages(responses)) == Pages.TotalSize(responses)
  {
    if responses != [] {
      assert IdPages(responses)[1..] == IdPages(responses[1..]);
      IdPagesTotalSize(responses[1..]);
    }
  }

  /**
   * listAllServiceActionIds: the paginator's pages flattened in order, one id per
   * summary, duplicates kept.
   */
  function ListAllServiceActionIds(responses: seq<seq<ServiceActionSummary>>): (ids: seq<string>)
    ensures |ids| == Pages.TotalSize(responses)
    ensures forall x :: x in ids <==>
              exists k, i :: 0 <= k < |responses| && 0 <= i < |responses[k]| && responses[k][i].id == x
  {
    var pages := IdPages(responses);
    Pages.FlattenLength(pages);
    IdPagesTotalSize(responses);
    assert forall x :: x in Pages.Flatten(pages) <==>
             exists k, i :: 0 <= k < |responses| && 0 <= i < |responses[k]| && responses[k][i].id == x by {
      forall x ensures x in Pages.Flatten(pages) <==>
                 exists k, i :: 0 <= k < |responses| && 0 <= i < |responses[k]| && responses[k][i].id == x
      {
        Pages.FlattenContains(pages, x);
      }
    }
    Pages.Flatten(pages)
  }

  /** The ids are in page order, then in order within a page. */
  lemma ListAllOrder(responses: seq<seq<ServiceActionSummary>>, k: nat, i: nat)
    requires k < |responses| && i < |responses[k]|
    ensures Pages.TotalSize(responses[..k]) + i < |ListAllServiceActionIds(responses)|
    ensures ListAllServiceActionIds(responses)[Pages.TotalSize(responses[..k]) + i] == responses[k][i].id
  {
    var pages := IdPages(responses);
    assert pages[..k] == IdPages(responses[..k]);
    IdPagesTotalSize(responses[..k]);
    Pages.FlattenIndex(pages, k, i);
  }

  /** Two maps with the same keys and the same value at each key are equal. */
  lemma MapsAgree(a: map<string, string>, b: map<string, string>)
    requires a.Keys == b.Keys
    requires forall k :: k in a ==> a[k] == b[k]
    ensures a == b
  {
  }

  /** Map to list and back gives the original map. */
  lemma MapListMapRoundTrip(definitions: map<string, string>)
    ensures BuildServiceActionDefinition(BuildResourceModelDefinition(definitions)) == definitions
  {
    var params := BuildResourceModelDefinition(definitions);
    var back := BuildServiceActionDefinition(params);
    forall k | k in back ensures back[k] == definitions[k] {
      var i :| 0 <= i < |params| && params[i].key == k;
    }
    MapsAgree(back, definitions);
  }

  /** In a list with distinct keys every parameter occurs once. */
  lemma {:induction false} DistinctKeysOccurOnce(definitions: seq<DefinitionParameter>, p: DefinitionParameter)
    requires DistinctKeys(definitions)
    ensures multiset(definitions)[p] == if p in definitions then 1 else 0
  {
    if definitions != [] {
      assert definitions == [definitions[0]] + definitions[1..];
      DistinctKeysOccurOnce(definitions[1..], p);
      if p == definitions[0] {
        forall j | 0 <= j < |definitions[1..]| ensures definitions[1..][j] != p {
          assert definitions[1..][j] == definitions[j + 1];
        }
      }
    }
  }

  /** Two lists with distinct keys and the same parameters are the same multiset. */
  lemma SameParametersSameMultiset(a: seq<DefinitionParameter>, b: seq<DefinitionParameter>)
    requires DistinctKeys(a) && DistinctKeys(b)
    requires forall p :: p in a <==> p in b
    ensures multiset(a) == multiset(b)
  {
    forall p ensures multiset(a)[p] == multiset(b)[p] {
      DistinctKeysOccurOnce(a, p);
      DistinctKeysOccurOnce(b, p);
    }
  }

  /** List to map and back keeps exactly the parameters of the list. */
  lemma ListMapListSameParameters(definitions: seq<DefinitionParameter>, p: DefinitionParameter)
    requires DistinctKeys(definitions)
    ensures p in BuildResourceModelDefinition(BuildServiceActionDefinition(definitions)) <==> p in definitions
  {
    var m := BuildServiceActionDefinition(definitions);
    var params := BuildResourceModelDefinition(m);
    EntriesAgree(definitions, params, m, p);
    EntriesAgree(params, definitions, m, p);
  }

  /**
   * Two parameter lists whose keys are the keys of one map and whose values are
   * that map's values hold the same parameters.
   */
  lemma EntriesAgree(a: seq<DefinitionParameter>, b: seq<DefinitionParameter>, m: map<string, string>,
                     p: DefinitionParameter)
    requires KeysOf(a) == m.Keys && KeysOf(b) == m.Keys
    requires forall i :: 0 <= i < |a| ==> a[i].key in m && m[a[i].key] == a[i].value
    requires forall i :: 0 <= i < |b| ==> b[i].key in m && m[b[i].key] == b[i].value
    ensures p in a ==> p in b
  {
    if p in a {
      var i :| 0 <= i < |a| && a[i] == p;
      assert p.key in KeysOf(b);
      var j :| 0 <= j < |b| && b[j].key == p.key;
      assert b[j] == p;
    }
  }

  /**
   * List to map and back gives the same parameters, each once, possibly in another
   * order.
   */
  lemma ListMapListRoundTrip(definitions: seq<DefinitionParameter>)
    requires DistinctKeys(definitions)
    ensures multiset(BuildResourceModelDefinition(BuildServiceActionDefinition(definitions))) == multiset(definitions)
  {
    var params := BuildResourceModelDefinition(BuildServiceActionDefinition(definitions));
    forall p ensures p in params <==> p in definitions {
      ListMapListSameParameters(definitions, p);
    }
    SameParametersSameMultiset(params, definitions);
  }

  /**
   * Sending a described service action back as an update carries its id, name,
   * description and definition unchanged.
   */
  lemma DetailUpdateRoundTrip(detail: ServiceActionDetail)
    ensures var request := BuildUpdateRequest(BuildResourceModelFromServiceActionDetail(detail));
            && request.id == detail.serviceActionSummary.id
            && request.name == detail.serviceActionSummary.name
            && request.description == detail.serviceActionSummary.description
            && request.definition == detail.definition
  {
    MapListMapRoundTrip(detail.definition);
  }

  /**
   * When the service creates the action as requested, the model the create handler
   * builds from the answer has the desired name, description, definition type and
   * definition parameters (in some order), and the id the service assigned.
   */
  lemma CreatedModelMatchesDesired(desiredModel: ResourceModel, idempotencyToken: string, created: ServiceActionDetail)
    requires DistinctKeys(desiredModel.definition)
    requires var request := BuildCreateRequest(desiredModel, idempotencyToken);
             && created.serviceActionSummary.name == request.name
             && created.serviceActionSummary.description == request.description
             && created.serviceActionSummary.definitionType == request.definitionType
             && created.definition == request.definition
    ensures var model := BuildResourceModelFromServiceActionDetail(created);
            && model.id == created.serviceActionSummary.id
            && model.name == desiredModel.name
            && model.description == desiredModel.description
            && model.definitionType == desiredModel.definitionType
            && multiset(model.definition) == multiset(desiredModel.definition)
  {
    ListMapListRoundTrip(desiredModel.definition);
  }

  /**
   * When the service applies an update as requested, the model rebuilt from its
   * answer keeps the id and takes the new name, description and definition; its
   * definition type is whatever the service kept, since the request does not carry one.
   */
  lemma UpdatedModelMatchesDesired(desiredModel: ResourceModel, updated: ServiceActionDetail)
    requires DistinctKeys(desiredModel.definition)
    requires var request := BuildUpdateRequest(desiredModel);
             && updated.serviceActionSummary.id == request.id
             && updated.serviceActionSummary.name == request.name
             && updated.serviceActionSummary.description == request.description
             && updated.definition == request.definition
    ensures var model := BuildResourceModelFromServiceActionDetail(updated);
            && model.id == desiredModel.id
            && model.name == desiredModel.name
            && model.description == desiredModel.description
            && model.definitionType == updated.serviceActionSummary.definitionType
            && multiset(model.definition) == multiset(desiredModel.definition)
  {
    ListMapListRoundTrip(desiredModel.definition);
  }
}
