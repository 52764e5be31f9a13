/** `NetworkManager.getUser` and `NetworkManager.createUpdateUser` (Source/Networking/NetworkManager+User.swift):
    a user is fetched only when it has a server id, and is created or updated depending on whether it has
    one; a dictionary payload becomes a user again, a failure is passed on, and any other payload is
    dropped without calling the handler. Both requests are made under a `try!`, which traps unless the
    default offline policy is the network-only one. `User.fromDictionary` and `User.toDictionary` belong to the user
    model and are parameters. */
module NetworkUser {
  import opened Common
  import opened Entities

  /** The segmentation routes of the router revision this file was written against. */
  datatype UserRoute =
    | SegmentationGetUser(id: string)
    | SegmentationCreateUser(params: map<string, Json>)
    | SegmentationUpdateUser(id: string, params: map<string, Json>)

  /** What the response handler does with the JSON result delivered for a user request: a dictionary is
      turned into a user (keeping the cached flag), a failure is passed on, anything else calls nothing. */
  function UserResult(delivered: Result<Json>, fromDictionary: map<string, Json> -> User): (h: Option<Result<User>>)
    ensures h.None? <==> delivered.Success? && !delivered.value.JObject?
    ensures h.Some? && delivered.Success? ==> h.value == Success(fromDictionary(delivered.value.fields), delivered.cached)
    ensures h.Some? && delivered.Failure? ==> h.value == Failure(delivered.error)
  {
    match delivered
    case Success(data, cached) => if data.JObject? then Some(Success(fromDictionary(data.fields), cached)) else None
    case Failure(e) => Some(Failure(e))
  }

  /** What a user request's `try! request.response { ... }` comes to. `response` throws before sending
      anything unless the request's policy, the core manager's default, is the network-only one, and the
      `try!` turns that throw into a trap; otherwise the handler does what `UserResult` says. */
  datatype Handling = Trap | Handled(call: Option<Result<User>>)

  function Respond(defaultPolicy: OfflinePolicy, delivered: Result<Json>, fromDictionary: map<string, Json> -> User): (h: Handling)
    ensures h.Trap? <==> defaultPolicy != PolicyNone
    ensures h.Handled? ==> h.call == UserResult(delivered, fromDictionary)
  {
    if defaultPolicy == PolicyNone then Handled(UserResult(delivered, fromDictionary)) else Trap
  }

  /** `getUser(_:completionHandler:)`: the request made, if any, and what comes of it. Without an id no
      request is made and the user itself comes back, not cached; with one the request traps under any
      default policy but the network-only one. */
  function GetUser(user: User, defaultPolicy: OfflinePolicy, delivered: Result<Json>, fromDictionary: map<string, Json> -> User)
    : (r: (Option<UserRoute>, Handling))
    ensures r.0.Some? <==> user.id.Some?
    ensures user.id.Some? ==> r.0 == Some(SegmentationGetUser(user.id.value))
    ensures user.id.Some? ==> (r.1.Trap? <==> defaultPolicy != PolicyNone)
    ensures user.id.Some? && r.1.Handled? ==> r.1.call == UserResult(delivered, fromDictionary)
    ensures user.id.None? ==> r.1 == Handled(Some(Success(user, false)))
  {
    match user.id
    case Some(id) => (Some(SegmentationGetUser(id)), Respond(defaultPolicy, delivered, fromDictionary))
    case None => (None, Handled(Some(Success(user, false))))
  }

  /** The route `createUpdateUser` chooses: update when the user has an id, create otherwise, both
      carrying the user's dictionary. */
  function CreateUpdateRoute(user: User, toDictionary: User -> map<string, Json>): (route: UserRoute)
    ensures route.SegmentationUpdateUser? <==> user.id.Some?
    ensures route.SegmentationCreateUser? <==> user.id.None?
    ensures route.SegmentationUpdateUser? ==> route.id == user.id.value
    ensures !route.SegmentationGetUser? && route.params == toDictionary(user)
  {
    match user.id
    case Some(id) => SegmentationUpdateUser(id, toDictionary(user))
    case None => SegmentationCreateUser(toDictionary(user))
  }

  /** `createUpdateUser(_:completionHandler:)`: the request is always built; it traps under any default
      policy but the network-only one, and otherwise its result is handled like a fetched user's. */
  function CreateUpdateUser(user: User, defaultPolicy: OfflinePolicy, delivered: Result<Json>,
                            toDictionary: User -> map<string, Json>, fromDictionary: map<string, Json> -> User)
    : (r: (UserRoute, Handling))
    ensures r.0 == CreateUpdateRoute(user, toDictionary)
    ensures r.1.Trap? <==> defaultPolicy != PolicyNone
    ensures r.1.Handled? ==> r.1.call == UserResult(delivered, fromDictionary)
  {
    (CreateUpdateRoute(user, toDictionary), Respond(defaultPolicy, delivered, fromDictionary))
  }

  /** A registered user is always updated, never created again, and fetching it goes to the server;
      an unregistered one is created and fetching it returns it unchanged, whatever the policy. */
  lemma RegistrationDecidesRoute(user: User, defaultPolicy: OfflinePolicy, delivered: Result<Json>,
                                 toDictionary: User -> map<string, Json>, fromDictionary: map<string, Json> -> User)
    ensures user.id.Some? ==>
      && CreateUpdateUser(user, defaultPolicy, delivered, toDictionary, fromDictionary).0 == SegmentationUpdateUser(user.id.value, toDictionary(user))
      && GetUser(user, defaultPolicy, delivered, fromDictionary).0.Some?
    ensures user.id.None? ==>
      && CreateUpdateUser(user, defaultPolicy, delivered, toDictionary, fromDictionary).0 == SegmentationCreateUser(toDictionary(user))
      && GetUser(user, defaultPolicy, delivered, fromDictionary) == (None, Handled(Some(Success(user, false))))
  {
  }
}
