/** How a request travels through a guarded controller: `AuthGuard('jwt')`
    (401 without a principal), then `UserLevelGuard` (403 when it denies),
    then validation of the route parameters by the global `ValidationPipe`
    (400), then the handler. */
module RequestPipeline {
  import opened Wrappers
  import opened UserLevel
  import opened UserLevelGuard
  import UserLevelDecorator
  import UserServices
  import Store
  import opened Parameters
  import UC = UserController
  import MC = MealsController

  datatype Endpoint = Users(u: UC.Endpoint) | Meals(m: MC.Endpoint)

  datatype Call = UserCall(uc: UC.Call) | MealsCall(mc: MC.Call)

  /** A request reaching a handler: `user` is what the JWT strategy attached
      (None when no valid bearer token was presented), `params` the route
      parameters. */
  datatype Request = Request(endpoint: Endpoint, user: Option<Principal>, params: Params)

  /** What the pipeline does with a request: reject it with an exception,
      reject it as a bad request naming the failing parameters, or invoke a
      service. */
  datatype Outcome = Rejected(exception: HttpException) | Invalid(properties: seq<string>) | Invoke(call: Call)

  const Unauthenticated: HttpException := HttpException(UNAUTHORIZED, "Unauthorized")
  const Forbidden: HttpException := HttpException(FORBIDDEN, "Forbidden resource")

  /** The handler's `@Roles(...)` list, from its controller's table. */
  function DeclaredRoles(e: Endpoint): seq<RoleTag> {
    match e
    case Users(u) => UC.DeclaredRoles(u)
    case Meals(m) => MC.DeclaredRoles(m)
  }

  /** The metadata the `@Roles` decorator attaches to the handler: the
      reflector finds the handler's list under 'roles'. */
  function HandlerMetadata(e: Endpoint): (meta: UserLevelDecorator.Metadata)
    ensures UserLevelDecorator.ReflectorGet(UserLevelDecorator.ROLES_KEY, meta) == Some(DeclaredRoles(e))
  {
    UserLevelDecorator.Roles(DeclaredRoles(e))
  }

  predicate HasIdSegment(e: Endpoint) {
    match e
    case Users(u) => UC.HasIdSegment(u)
    case Meals(_) => true
  }

  predicate HasMealIdSegment(e: Endpoint) {
    e.Meals? && MC.HasMealIdSegment(e.m)
  }

  /** The router only produces parameters for the segments the route has,
      and a path segment is never empty. */
  predicate Routed(req: Request) {
    && (req.params.id.Some? <==> HasIdSegment(req.endpoint))
    && (req.params.mealId.Some? <==> HasMealIdSegment(req.endpoint))
    && (req.params.id.Some? ==> req.params.id.value != "")
    && (req.params.mealId.Some? ==> req.params.mealId.value != "")
  }

  /** The guard's verdict on the request, with the declaration read back
      from the handler's metadata under 'roles'. */
  predicate Authorized(req: Request)
    requires req.user.Some?
  {
    CanActivate(UserLevelDecorator.ReflectorGet(UserLevelDecorator.ROLES_KEY, HandlerMetadata(req.endpoint)), req.user, req.params.id)
  }

  function Forward(req: Request): Call
    requires Routed(req) && req.user.Some?
  {
    match req.endpoint
    case Users(u) => UserCall(UC.Forward(u, req.user.value, req.params))
    case Meals(m) => MealsCall(MC.Forward(m, req.params))
  }

  /** The request's fate, in the order the framework applies the steps. */
  function Handle(req: Request): (o: Outcome)
    requires Routed(req)
    ensures req.user.None? ==> o == Rejected(Unauthenticated)
    ensures req.user.Some? ==> (o == Rejected(Forbidden) <==> !Authorized(req))
    ensures o.Invalid? <==> req.user.Some? && Authorized(req) && ValidateParameters(req.params) != []
    ensures o.Invalid? ==> o.properties == ValidateParameters(req.params)
    ensures o.Invoke? <==> req.user.Some? && Authorized(req) && ValidateParameters(req.params) == []
    ensures o.Invoke? ==> o.call == Forward(req)
  {
    if req.user.None? then Rejected(Unauthenticated)
    else if !Authorized(req) then Rejected(Forbidden)
    else
      var failed := ValidateParameters(req.params);
      if failed != [] then Invalid(failed) else Invoke(Forward(req))
  }

  /** The guard sees exactly the handler's `@Roles` list. */
  lemma GuardReadsDeclaredRoles(req: Request)
    requires req.user.Some?
    ensures Authorized(req) <==> CanActivate(Some(DeclaredRoles(req.endpoint)), req.user, req.params.id)
  {
  }

  /** POST api/users is for ADMIN only. */
  lemma CreateUserAdminOnly(req: Request)
    requires Routed(req) && req.endpoint.Users? && req.endpoint.u.CreateUser? && req.user.Some?
    ensures Handle(req) == Rejected(Forbidden) <==> req.user.value.authLevel != Admin
  {
  }

  /** GET api/users and GET api/users/:id are for USER_MANAGER and ADMIN;
      a USER is refused even on their own id. */
  lemma ListingAndLookupPrivileged(req: Request)
    requires Routed(req) && req.endpoint.Users? && (req.endpoint.u.GetAllUsers? || req.endpoint.u.GetUser?)
    requires req.user.Some?
    ensures Handle(req) == Rejected(Forbidden) <==> req.user.value.authLevel == User
  {
  }

  /** DELETE api/users/:id is for ADMIN only: a USER_MANAGER is refused. */
  lemma DeleteUserAdminOnly(req: Request)
    requires Routed(req) && req.endpoint.Users? && req.endpoint.u.DeleteUser? && req.user.Some?
    ensures Handle(req) == Rejected(Forbidden) <==> req.user.value.authLevel != Admin
  {
  }

  /** PUT api/users/:id: an ADMIN on any id, anyone else on their own id
      only. */
  lemma UpdateUserSelfOrAdmin(req: Request)
    requires Routed(req) && req.endpoint.Users? && req.endpoint.u.UpdateUser? && req.user.Some?
    ensures Handle(req) != Rejected(Forbidden)
            <==> req.user.value.authLevel == Admin || req.params.id == Some(req.user.value.id)
  {
  }

  /** All four meal routes: USER_MANAGER and ADMIN on any user, a USER on
      their own id only. */
  lemma MealsSelfOrPrivileged(req: Request)
    requires Routed(req) && req.endpoint.Meals? && req.user.Some?
    ensures Handle(req) != Rejected(Forbidden)
            <==> req.user.value.authLevel != User || req.params.id == Some(req.user.value.id)
  {
  }

  /** Authorization is decided before the parameters are validated: a
      caller the guard refuses gets 403 even for a malformed id such as
      'userIdHere'. */
  lemma ForbiddenBeforeBadRequest(p: Principal)
    requires p.authLevel != Admin && p.id != "userIdHere"
    ensures var req := Request(Users(UC.UpdateUser(UserServices.UserBody("", "", "", "", None, User))), Some(p),
                               Params(Some("userIdHere"), None));
            Routed(req) && !IsMongoId("userIdHere") && Handle(req) == Rejected(Forbidden)
  {
  }

  /** PUT api/users/:id as a USER reaches `update`, as anyone else
      `updateWithPrivileges`. */
  lemma UpdateUserDispatch(req: Request)
    requires Routed(req) && req.endpoint.Users? && req.endpoint.u.UpdateUser?
    requires Handle(req).Invoke?
    ensures req.user.value.authLevel == User ==>
              Handle(req).call == UserCall(UC.Update(req.params.id.value, req.endpoint.u.body))
    ensures req.user.value.authLevel != User ==>
              Handle(req).call == UserCall(UC.UpdateWithPrivileges(req.params.id.value, req.endpoint.u.body))
  {
  }

  /** A USER_MANAGER passes the guard of PUT api/users/:id only on their own
      id, and is then sent down the privileged path, whose `$set` includes
      the body's `authLevel`: such a caller can set their own level. */
  lemma ManagerSelfUpdateSetsLevel(p: Principal, body: UserServices.UserBody, rec: Store.UserRecord)
    requires p.authLevel == UserManager && IsMongoId(p.id)
    ensures var req := Request(Users(UC.UpdateUser(body)), Some(p), Params(Some(p.id), None));
            && Routed(req)
            && Handle(req) == Invoke(UserCall(UC.UpdateWithPrivileges(p.id, body)))
            && UserServices.SetProfileAndLevel(rec, body).authLevel == body.authLevel
  {
  }
}
