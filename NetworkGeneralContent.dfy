/** `NetworkManager.generalContentInstances` (Source/Networking/NetworkManager+GeneralContent.swift): the
    instance list request of one module, classified like the module list, and the loop that turns each
    dictionary of the payload into an instance. The instance model is not part of this model: it is built
    by a parameter. */
module NetworkGeneralContent {
  import opened Common
  import opened Routing
  import opened NetworkModules

  /** The params of the request: exactly the module id and `archived = false`. */
  function InstancesParams(moduleId: string): (p: map<string, Json>)
    ensures p.Keys == {"module", "archived"}
    ensures p["module"] == JString(moduleId) && p["archived"] == JBool(false)
  {
    map["module" := JString(moduleId), "archived" := JBool(false)]
  }

  /** The route of the request: the instance listing with those params. */
  function InstancesRoute(moduleId: string): Router {
    GeneralContentInstances(InstancesParams(moduleId))
  }

  /** The request is a GET whose URL-encoded params name the module and exclude archived instances. */
  lemma InstancesRequestShape(moduleId: string, state: RouterState)
    ensures URLRequest(InstancesRoute(moduleId), state).httpMethod == GET
    ensures URLRequest(InstancesRoute(moduleId), state).payload == Encoded(URL, InstancesParams(moduleId))
  {
  }

  /** `data as! [Dictionary<String, AnyObject>]`. */
  predicate IsDictionaryList(data: Json) {
    data.JArray? && forall i :: 0 <= i < |data.items| ==> data.items[i].JObject?
  }

  /** `parseGeneralContentInstances`: one instance per dictionary, appended in order. */
  method ParseGeneralContentInstances<I>(instances: seq<map<string, Json>>, makeInstance: map<string, Json> -> I)
    returns (gcInstances: seq<I>)
    ensures |gcInstances| == |instances|
    ensures forall i :: 0 <= i < |instances| ==> gcInstances[i] == makeInstance(instances[i])
  {
    gcInstances := [];
    var n := 0;
    while n < |instances|
      invariant 0 <= n <= |instances|
      invariant |gcInstances| == n
      invariant forall i :: 0 <= i < n ==> gcInstances[i] == makeInstance(instances[i])
    {
      gcInstances := gcInstances + [makeInstance(instances[n])];
      n := n + 1;
    }
  }

  /** The dictionaries of a payload that is a list of dictionaries. */
  function Dictionaries(data: Json): (ds: seq<map<string, Json>>)
    requires IsDictionaryList(data)
    ensures |ds| == |data.items| && forall i :: 0 <= i < |ds| ==> data.items[i] == JObject(ds[i])
  {
    seq(|data.items|, i requires 0 <= i < |data.items| => data.items[i].fields)
  }

  /** The response handler of `generalContentInstances`: no response or a status other than 200 give a
      fixed error, status 200 parses a success (trapping on a payload that is not a list of dictionaries)
      and passes a failure on; a released manager handles nothing. */
  method InstancesResponse<I>(response: Option<HttpResponse>, result: AfResult<Json>, managerAlive: bool,
                              makeInstance: map<string, Json> -> I) returns (h: Handling<seq<I>>)
    ensures response.None? ==> h == Handled(AfFailure(None, SdkError(NoResponse)))
    ensures response.Some? && response.value.statusCode != 200 ==>
      h == Handled(AfFailure(None, SdkError("Error retrieving module instances")))
    ensures response.Some? && response.value.statusCode == 200 && !managerAlive ==> h == NotHandled
    ensures response.Some? && response.value.statusCode == 200 && managerAlive && result.AfFailure? ==>
      h == Handled(AfFailure(result.data, result.error))
    ensures response.Some? && response.value.statusCode == 200 && managerAlive && result.AfSuccess? ==>
      if IsDictionaryList(result.value) then
        h.Handled? && h.result.AfSuccess? && |h.result.value| == |result.value.items|
        && forall i :: 0 <= i < |result.value.items| ==> h.result.value[i] == makeInstance(result.value.items[i].fields)
      else h == Trap
  {
    if response.None? {
      return Handled(AfFailure(None, SdkError(NoResponse)));
    }
    if response.value.statusCode != 200 {
      return Handled(AfFailure(None, SdkError("Error retrieving module instances")));
    }
    if !managerAlive {
      return NotHandled;
    }
    match result {
      case AfSuccess(data) =>
        if IsDictionaryList(data) {
          var arr := ParseGeneralContentInstances(Dictionaries(data), makeInstance);
          h := Handled(AfSuccess(arr));
        } else {
          h := Trap;
        }
      case AfFailure(data, error) =>
        h := Handled(AfFailure(data, error));
    }
  }
}
