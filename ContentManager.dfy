/** `ContentManager` (Source/GeneralContent/ContentManager.swift): the entry point to general content. It
    turns search options into a request on the general-content search route, applying the options'
    offline policy when they carry one and falling back to the manager's default locale. */
module Content {
  import opened Common
  import opened SearchOptionsModel
  import opened Requests

  datatype ContentManager = ContentManager(defaultLocale: Option<Locale>)

  /** The options as `getInstances` sends them: the options' own locale if set, else the default one. */
  function Effective(cm: ContentManager, o: SearchOptions): (e: SearchOptions)
    ensures e.locale == (if o.locale.Some? then o.locale else cm.defaultLocale)
    ensures e == o.(locale := e.locale)
  {
    o.(locale := if o.locale.Some? then o.locale else cm.defaultLocale)
  }

  /** The locale sent is the options' when they have one, else the default one, else none; every other
      key of the body is the options' own. */
  lemma LocaleFallback(cm: ContentManager, o: SearchOptions)
    ensures var b := Body(Effective(cm, o));
      && ("locale" in b <==> o.locale.Some? || cm.defaultLocale.Some?)
      && (o.locale.Some? ==> b["locale"] == JString(o.locale.value.description))
      && (o.locale.None? && cm.defaultLocale.Some? ==> b["locale"] == JString(cm.defaultLocale.value.description))
      && (forall k :: k != "locale" ==> (k in b <==> k in Body(o)) && (k in b ==> b[k] == Body(o)[k]))
  {
    assert forall k :: k != "locale" ==> Entry(Effective(cm, o), k) == Entry(o, k);
  }

  /** The route's own params merged with the body of the effective options, the body winning. */
  function InstancesParams(cm: ContentManager, o: SearchOptions, route: Endpoint): map<string, Json> {
    (if route.params.Some? then route.params.value else map[]) + Body(Effective(cm, o))
  }

  /** `getInstances(_:)`: a new request on the general-content search route whose policy is the options'
      when they carry one (the provider following it) and the manager default otherwise, and whose params
      are the route's merged with the body of the options after the locale fallback. The caller's options
      are a value and are not changed. */
  method GetInstances<T>(cm: ContentManager, searchOptions: SearchOptions, generalContentSearch: Endpoint,
                         baseURL: string, defaults: Defaults) returns (request: Request<T>)
    ensures fresh(request)
    ensures request.State() == Snapshot(
      Url(generalContentSearch.path, Some(baseURL)), false, generalContentSearch.httpMethod, generalContentSearch.encoding,
      generalContentSearch.headers, InstancesParams(cm, searchOptions, generalContentSearch), None, AppAuth,
      if searchOptions.offlinePolicy.Some? then searchOptions.offlinePolicy.value else defaults.offlinePolicy,
      None,
      if searchOptions.offlinePolicy.Some? then ProviderFor(searchOptions.offlinePolicy.value) else defaults.dataProvider)
  {
    request := new Request.FromRouter(generalContentSearch, baseURL, defaults);
    var options := searchOptions;
    if options.offlinePolicy.Some? {
      var _ := request.SetOfflinePolicy(options.offlinePolicy.value);
    }
    options := options.(locale := if options.locale.Some? then options.locale else cm.defaultLocale);
    var _ := request.Params(Body(options));
  }

  /** `syncModule(_:completionHandler:)`: does nothing; the handler is never called. */
  method SyncModule(cm: ContentManager, moduleId: string) returns (handlerCalled: bool)
    ensures !handlerCalled
  {
    handlerCalled := false;
  }

  /** `clearSyncedModule(_:completionHandler:)`: does nothing; the handler is never called. Its body is
      that of `SyncModule` because both entry points are empty placeholders in this revision; they stay
      two members because they are two operations of the public interface. */
  method ClearSyncedModule(cm: ContentManager, moduleId: string) returns (handlerCalled: bool)
    ensures !handlerCalled
  {
    handlerCalled := false;
  }
}
