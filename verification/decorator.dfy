/** The role decorators: `Roles(...)`, which attaches a handler's declared
    list under the metadata key 'roles' (and which the guard reads back), and
    `UserLevelValidation`, an exact-level check on the request. */
module UserLevelDecorator {
  import opened Wrappers
  import opened UserLevel

  const ROLES_KEY: string := "roles"
  const INSUFFICIENT_RIGHTS: string := "Insufficient Rights"

  /** Metadata attached to one handler, by key. */
  type Metadata = map<string, seq<RoleTag>>

  /** `@Roles(...tags)`: records the declared list under 'roles'. */
  function Roles(tags: seq<RoleTag>): (meta: Metadata)
    ensures ROLES_KEY in meta && meta[ROLES_KEY] == tags
    ensures meta.Keys == {ROLES_KEY}
  {
    map[ROLES_KEY := tags]
  }

  /** `reflector.get(key, handler)`: what was attached under `key`, or
      undefined. */
  function ReflectorGet(key: string, meta: Metadata): (found: Option<seq<RoleTag>>)
    ensures found.Some? <==> key in meta
    ensures found.Some? ==> found.value == meta[key]
  {
    if key in meta then Some(meta[key]) else None
  }

  /** Reading back under 'roles' returns exactly what `Roles` declared, and
      any other key finds nothing. */
  lemma RolesRoundTrip(tags: seq<RoleTag>, key: string)
    ensures ReflectorGet(ROLES_KEY, Roles(tags)) == Some(tags)
    ensures key != ROLES_KEY ==> ReflectorGet(key, Roles(tags)) == None
  {
  }

  /** The request as this decorator sees it: it reads `req.user` only. */
  datatype Request = Request(user: Principal)

  /** `UserLevelValidation(level, req)`: hands back the request when the
      caller's level is exactly `level`, otherwise throws 403. */
  function UserLevelValidation(level: RoleTag, req: Request): (r: Result<Request, HttpException>)
    ensures r.Success? <==> level == Level(req.user.authLevel)
    ensures r.Success? ==> r.value == req
    ensures r.Failure? ==> r.error == HttpException(FORBIDDEN, INSUFFICIENT_RIGHTS)
  {
    if Level(req.user.authLevel) == level then Success(req)
    else Failure(HttpException(FORBIDDEN, INSUFFICIENT_RIGHTS))
  }

  /** There is no hierarchy: a caller passes the check for exactly one
      level, its own, so ADMIN does not satisfy a USER check and no one
      satisfies a SELF check. */
  lemma ValidationIsExact(level: RoleTag, req: Request)
    ensures UserLevelValidation(level, req).Success? ==> level == Level(req.user.authLevel)
    ensures req.user.authLevel == Admin ==> UserLevelValidation(Level(User), req).Failure?
    ensures UserLevelValidation(Self, req).Failure?
  {
  }

  /** The outcome depends only on the caller's level and `level`: two
      requests whose callers share a level get the same verdict. */
  lemma ValidationDependsOnLevelOnly(level: RoleTag, req: Request, req': Request)
    requires req.user.authLevel == req'.user.authLevel
    ensures UserLevelValidation(level, req).Success? == UserLevelValidation(level, req').Success?
  {
  }
}
