/** `NetworkManager.getModules` (Source/Networking/NetworkManager+Modules.swift): the module list request
    and the classification of its response. Without a response or with a status other than 200 the
    handler gets a fixed error; with status 200 a success is parsed into modules and a failure is passed
    on. */
module NetworkModules {
  import opened Common
  import opened Routing
  import opened ModuleModel

  /** Alamofire's result: a value, or the response data together with an error. */
  datatype AfResult<+V> = AfSuccess(value: V) | AfFailure(data: Option<seq<bv8>>, error: Error)

  /** What a response handler ends up doing: call the completion handler with a result, call nothing
      (the manager was released before the response arrived), or trap on a failed forced cast. */
  datatype Handling<+V> = Handled(result: AfResult<V>) | NotHandled | Trap

  /** The error the SDK builds for a failed request: domain "com.mobgen.halo", code 0. */
  function SdkError(description: string): (e: Error)
    ensures e.domain == "com.mobgen.halo" && e.code == 0 && e.description == description
  {
    Error("com.mobgen.halo", 0, description)
  }

  const NoResponse := "No response received from server"

  /** The route of the module list request. */
  const ModulesRoute := Modules

  /** `data as! [Dictionary<String, AnyObject>]`, followed by `Module(_:)` on each entry (which itself
      demands a name in every tag entry): whether the payload can be parsed at all. */
  predicate IsModuleList(data: Json) {
    data.JArray? && forall i :: 0 <= i < |data.items| ==> data.items[i].JObject? && TagsHaveNames(data.items[i].fields)
  }

  /** `parseModules`: one module per dictionary, in order. */
  function ParseModules(data: Json): (ms: seq<Module>)
    requires IsModuleList(data)
    ensures |ms| == |data.items|
    ensures forall i :: 0 <= i < |ms| ==> ms[i] == Parse(data.items[i].fields)
  {
    seq(|data.items|, i requires 0 <= i < |data.items| => Parse(data.items[i].fields))
  }

  /** The response handler of `getModules`. `managerAlive` says whether the weakly captured network
      manager still exists when the response arrives. */
  function ModulesResponse(response: Option<HttpResponse>, result: AfResult<Json>, managerAlive: bool): (h: Handling<seq<Module>>)
    ensures response.None? ==> h == Handled(AfFailure(None, SdkError(NoResponse)))
    ensures response.Some? && response.value.statusCode != 200 ==> h == Handled(AfFailure(None, SdkError("Error retrieving modules")))
    ensures response.Some? && response.value.statusCode == 200 && !managerAlive ==> h == NotHandled
    ensures response.Some? && response.value.statusCode == 200 && managerAlive ==>
      match result
      case AfFailure(data, error) => h == Handled(AfFailure(data, error))
      case AfSuccess(data) => if IsModuleList(data) then h == Handled(AfSuccess(ParseModules(data))) else h == Trap
  {
    match response
    case None => Handled(AfFailure(None, SdkError(NoResponse)))
    case Some(r) =>
      if r.statusCode != 200 then Handled(AfFailure(None, SdkError("Error retrieving modules")))
      else if !managerAlive then NotHandled
      else match result
        case AfSuccess(data) => if IsModuleList(data) then Handled(AfSuccess(ParseModules(data))) else Trap
        case AfFailure(data, error) => Handled(AfFailure(data, error))
  }

  /** Whatever is delivered, a status other than 200 is a failure, and a success handed on always has
      come with status 200 and one module per dictionary. */
  lemma OnlyStatus200Succeeds(response: Option<HttpResponse>, result: AfResult<Json>, managerAlive: bool)
    ensures var h := ModulesResponse(response, result, managerAlive);
      && (h.Handled? && h.result.AfSuccess? ==>
            response.Some? && response.value.statusCode == 200 && result.AfSuccess? && |h.result.value| == |result.value.items|)
      && (response.None? || response.value.statusCode != 200 ==> h.Handled? && h.result.AfFailure? && h.result.data.None?)
  {
  }

  /** The request is always the module list route: a GET without params. */
  lemma ModulesRouteIsFixed(state: RouterState)
    ensures URLRequest(ModulesRoute, state).httpMethod == GET
    ensures URLRequest(ModulesRoute, state).payload == Unencoded
    ensures URLRequest(ModulesRoute, state).url.path == "/api/authentication/module/"
  {
  }
}
