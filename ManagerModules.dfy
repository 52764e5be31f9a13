/** `Manager.getModules` (Source/Core/Manager+Modules.swift): the module list is fetched over the network
    or from persistence according to the offline policy, and the result is routed to a success or a
    failure callback. The network and persistence services are collaborators; what they would deliver is
    a parameter. */
module ManagerModules {
  import opened Common
  import opened ModuleModel

  /** Where `getModules` sends the request: to the network, to persistence (telling it whether to also
      fetch from the network), or nowhere because unwrapping a nil policy traps. */
  datatype Dispatch = NetworkPath | PersistencePath(fetchFromNetwork: bool) | Trap

  /** `getModules(offlinePolicy:completionHandler:)`. */
  function GetModules(offlinePolicy: Option<OfflinePolicy>): (d: Dispatch)
    ensures d == Trap <==> offlinePolicy.None?
    ensures d == NetworkPath <==> offlinePolicy == Some(PolicyNone)
    ensures d.PersistencePath? <==> offlinePolicy.Some? && offlinePolicy.value != PolicyNone
    ensures d.PersistencePath? ==> (d.fetchFromNetwork <==> offlinePolicy == Some(LoadAndStoreLocalData))
  {
    match offlinePolicy
    case None => Trap
    case Some(p) =>
      match p
      case PolicyNone => NetworkPath
      case _ => PersistencePath(offlinePolicy == Some(LoadAndStoreLocalData))
  }

  /** Which of the two optional callbacks `privateGetModules` calls, and with what. */
  datatype Callback = SuccessCalled(modules: seq<Module>, cached: bool) | FailureCalled(error: Error) | NoCallback

  /** `privateGetModules`'s completion: a success goes to `success` with the modules and the cached flag,
      a failure to `failure` with the error; a missing callback means nothing is called. */
  function RouteResult(result: Result<seq<Module>>, hasSuccess: bool, hasFailure: bool): (c: Callback)
    ensures c.SuccessCalled? <==> result.Success? && hasSuccess
    ensures c.FailureCalled? <==> result.Failure? && hasFailure
    ensures c.SuccessCalled? ==> c.modules == result.value && c.cached == result.cached
    ensures c.FailureCalled? ==> c.error == result.error
  {
    match result
    case Success(modules, cached) => if hasSuccess then SuccessCalled(modules, cached) else NoCallback
    case Failure(error) => if hasFailure then FailureCalled(error) else NoCallback
  }

  /** `privateGetModules`: dispatches on the policy, then routes what the chosen service delivers. A trap
      calls nothing. */
  function PrivateGetModules(offlinePolicy: Option<OfflinePolicy>, delivered: Result<seq<Module>>,
                             hasSuccess: bool, hasFailure: bool): (r: (Dispatch, Callback))
    ensures r.0 == GetModules(offlinePolicy)
    ensures r.0 == Trap ==> r.1 == NoCallback
    ensures r.0 != Trap ==> r.1 == RouteResult(delivered, hasSuccess, hasFailure)
  {
    var d := GetModules(offlinePolicy);
    if d == Trap then (d, NoCallback) else (d, RouteResult(delivered, hasSuccess, hasFailure))
  }

  /** `getModulesOfflinePolicyFromObjC`: the policy is always present, so it never traps. */
  function GetModulesWithPolicyFromObjC(offlinePolicy: OfflinePolicy, delivered: Result<seq<Module>>,
                                       hasSuccess: bool, hasFailure: bool): (r: (Dispatch, Callback))
    ensures r.0 != Trap
    ensures r.1 == RouteResult(delivered, hasSuccess, hasFailure)
  {
    PrivateGetModules(Some(offlinePolicy), delivered, hasSuccess, hasFailure)
  }

  /** `getModulesFromObjC`: it passes a nil policy, so it always traps and calls nothing. */
  function GetModulesFromObjC(delivered: Result<seq<Module>>, hasSuccess: bool, hasFailure: bool): (r: (Dispatch, Callback))
    ensures r == (Trap, NoCallback)
  {
    PrivateGetModules(None, delivered, hasSuccess, hasFailure)
  }

  /** With both callbacks present, exactly one of them is called, and never both. */
  lemma ExactlyOneCallback(offlinePolicy: OfflinePolicy, delivered: Result<seq<Module>>)
    ensures var c := PrivateGetModules(Some(offlinePolicy), delivered, true, true).1;
      (c.SuccessCalled? || c.FailureCalled?) && !c.NoCallback?
      && (c.SuccessCalled? <==> delivered.Success?)
  {
  }
}
