/** `UserController` (`api/users`): the roles each handler declares and
    what each handler hands to `UserService`. */
module UserController {
  import opened Wrappers
  import opened UserLevel
  import opened Parameters
  import opened UserServices

  /** The handlers, each with the body it receives. */
  datatype Endpoint =
    | CreateUser(user: Registration)   // POST   api/users
    | GetAllUsers                      // GET    api/users
    | DeleteUser                       // DELETE api/users/:id
    | UpdateUser(body: UserBody)       // PUT    api/users/:id
    | GetUser                          // GET    api/users/:id

  /** The service call a handler makes. */
  datatype Call =
    | CreateNewUserWithPrivileges(user: Registration)
    | FindAll
    | Delete(id: UserId)
    | Update(id: UserId, body: UserBody)
    | UpdateWithPrivileges(id: UserId, body: UserBody)
    | FindUser(id: UserId)

  /** The `@Roles(...)` list of each handler: ADMIN everywhere, USER_MANAGER
      on the two reads only, SELF on PUT only, and never USER. */
  function DeclaredRoles(e: Endpoint): (roles: seq<RoleTag>)
    ensures Level(Admin) in roles && Level(User) !in roles
    ensures Level(UserManager) in roles <==> e.GetAllUsers? || e.GetUser?
    ensures Self in roles <==> e.UpdateUser?
  {
    match e
    case CreateUser(_) => [Level(Admin)]
    case GetAllUsers => [Level(UserManager), Level(Admin)]
    case DeleteUser => [Level(Admin)]
    case UpdateUser(_) => [Self, Level(Admin)]
    case GetUser => [Level(UserManager), Level(Admin)]
  }

  /** The handler's route has an `:id` segment. */
  predicate HasIdSegment(e: Endpoint) {
    e.DeleteUser? || e.UpdateUser? || e.GetUser?
  }

  /** What the handler does with the request: `updateUser` sends a USER
      caller to `update` and any other caller to `updateWithPrivileges`. */
  function Forward(e: Endpoint, caller: Principal, params: Params): (call: Call)
    requires HasIdSegment(e) ==> params.id.Some?
    ensures e.UpdateUser? ==>
              (call.Update? <==> caller.authLevel == User) && (call.UpdateWithPrivileges? <==> caller.authLevel != User)
    ensures HasIdSegment(e) <==> (call.Delete? || call.Update? || call.UpdateWithPrivileges? || call.FindUser?)
    ensures HasIdSegment(e) ==> call.id == params.id.value
    ensures e.UpdateUser? ==> call.body == e.body
    ensures e.CreateUser? ==> call == CreateNewUserWithPrivileges(e.user)
    ensures e.GetAllUsers? ==> call == FindAll
    ensures e.DeleteUser? ==> call == Delete(params.id.value)
    ensures e.GetUser? ==> call == FindUser(params.id.value)
    ensures e.UpdateUser? && caller.authLevel == User ==> call == Update(params.id.value, e.body)
    ensures e.UpdateUser? && caller.authLevel != User ==> call == UpdateWithPrivileges(params.id.value, e.body)
  {
    match e
    case CreateUser(user) => CreateNewUserWithPrivileges(user)
    case GetAllUsers => FindAll
    case DeleteUser => Delete(params.id.value)
    case UpdateUser(body) =>
      if caller.authLevel == User then Update(params.id.value, body)
      else UpdateWithPrivileges(params.id.value, body)
    case GetUser => FindUser(params.id.value)
  }
}
