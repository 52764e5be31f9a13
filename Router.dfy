/** `Router` (Source/Networking/Router.swift): the endpoint table. Each case fixes the HTTP method, the path
    and how its params are encoded; the request is resolved against the router's current base URL and
    carries the router's token, when it has one, in the Authorization header. */
module Routing {
  import opened Common

  datatype Router =
    | OAuth(params: map<string, Json>)
    | Modules
    | GeneralContentInstances(params: map<string, Json>)
    | SegmentationCreateUser(params: map<string, Json>)
    | SegmentationUpdateUser(params: map<string, Json>)

  /** `Router.baseURL` and `Router.token`, the router's static state. */
  datatype RouterState = RouterState(baseURL: string, token: Option<Token>)

  /** The initial static state: the QA base URL and no token. */
  const InitialState := RouterState("https://halo-qa.mobgen.com", None)

  /** `method`: POST for the token exchange and user creation, PUT for user update, GET otherwise. */
  function RouteMethod(r: Router): (m: HttpMethod)
    ensures m == POST <==> r.OAuth? || r.SegmentationCreateUser?
    ensures m == PUT <==> r.SegmentationUpdateUser?
    ensures m == GET <==> r.Modules? || r.GeneralContentInstances?
  {
    match r
    case OAuth(_) => POST
    case SegmentationCreateUser(_) => POST
    case SegmentationUpdateUser(_) => PUT
    case _ => GET
  }

  /** `path`. */
  function Path(r: Router): string {
    match r
    case OAuth(_) => "/api/oauth/token?_1"
    case Modules => "/api/authentication/module/"
    case GeneralContentInstances(_) => "api/generalcontent/instance/"
    case SegmentationCreateUser(_) => "api/segmentation/appuser/"
    case SegmentationUpdateUser(_) => "api/segmentation/appuser/"
  }

  /** The params a case carries and how they are encoded: URL encoding for the token exchange and the
      instance listing, JSON for user creation and update, nothing for the module listing. */
  function RoutePayload(r: Router): (p: Payload)
    ensures p.Unencoded? <==> r.Modules?
    ensures p.Encoded? ==> p.params == r.params
    ensures p.Encoded? ==> (p.encoding == URL <==> r.OAuth? || r.GeneralContentInstances?)
  {
    match r
    case OAuth(params) => Encoded(URL, params)
    case GeneralContentInstances(params) => Encoded(URL, params)
    case SegmentationCreateUser(params) => Encoded(JSON, params)
    case SegmentationUpdateUser(params) => Encoded(JSON, params)
    case Modules => Unencoded
  }

  /** `URLRequest`: the path resolved against the current base URL, the method of the case, an
      Authorization header exactly when the router holds a token, and the case's encoded params. */
  function URLRequest(r: Router, state: RouterState): (w: WireRequest)
    ensures w.url == Url(Path(r), Some(state.baseURL))
    ensures w.httpMethod == RouteMethod(r)
    ensures w.payload == RoutePayload(r)
    ensures w.headers.Keys <= {AuthorizationField}
    ensures AuthorizationField in w.headers <==> state.token.Some?
    ensures state.token.Some? ==> w.headers[AuthorizationField] == AuthorizationValue(state.token.value)
  {
    var headers := if state.token.Some? then map[AuthorizationField := AuthorizationValue(state.token.value)] else map[];
    WireRequest(Url(Path(r), Some(state.baseURL)), RouteMethod(r), headers, RoutePayload(r))
  }

  /** Each case has its fixed path. */
  lemma PathsAreFixed(p: map<string, Json>)
    ensures Path(OAuth(p)) == "/api/oauth/token?_1"
    ensures Path(Modules) == "/api/authentication/module/"
    ensures Path(GeneralContentInstances(p)) == "api/generalcontent/instance/"
    ensures Path(SegmentationCreateUser(p)) == Path(SegmentationUpdateUser(p)) == "api/segmentation/appuser/"
  {
  }

  /** Creating and updating a user address the same resource and differ only in the method. */
  lemma CreateAndUpdateDifferOnlyInMethod(p: map<string, Json>, state: RouterState)
    ensures var c := URLRequest(SegmentationCreateUser(p), state);
            var u := URLRequest(SegmentationUpdateUser(p), state);
            c.url == u.url && c.headers == u.headers && c.payload == u.payload
            && c.httpMethod == POST && u.httpMethod == PUT
  {
  }

  /** Switching the base URL moves every request to the new base and changes nothing else. */
  lemma BaseURLOnlyMovesTheUrl(r: Router, state: RouterState, base: string)
    ensures var before := URLRequest(r, state);
            var after := URLRequest(r, state.(baseURL := base));
            after == before.(url := Url(Path(r), Some(base)))
  {
  }
}
