/** `UserLevelGuard.canActivate`: the allow/deny decision taken for every
    request that reaches a guarded handler. */
module UserLevelGuard {
  import opened Wrappers
  import opened UserLevel

  /** `Array.prototype.includes` over a declared list: a linear scan. */
  function Includes(roles: seq<RoleTag>, tag: RoleTag): (found: bool)
    ensures found <==> tag in roles
  {
    if roles == [] then false
    else roles[0] == tag || Includes(roles[1..], tag)
  }

  /** The guard's decision. `declared` is what the reflector returns for the
      handler under the key 'roles' (None when nothing was declared), `user`
      is `request.user` and `routeId` is `request.params.id`.
      Once roles are declared, the code reads `user._id`/`user.authLevel`
      before testing `user`, so a missing principal throws: hence the
      precondition. */
  function CanActivate(declared: Option<seq<RoleTag>>, user: Option<Principal>, routeId: Option<UserId>): (allow: bool)
    requires declared.Some? ==> user.Some?
    ensures declared.None? ==> allow
    ensures declared.Some? ==>
              (allow <==> (Level(user.value.authLevel) in declared.value
                           || (Self in declared.value && routeId == Some(user.value.id))))
  {
    match declared
    case None => true
    case Some(roles) =>
      var isSelf := Includes(roles, Self) && routeId == Some(user.value.id);
      var isAuthorized := Includes(roles, Level(user.value.authLevel));
      isAuthorized || isSelf
  }

  /** A handler without a declaration lets every caller through, whoever
      the caller is and whatever the route id. */
  lemma NoDeclarationAllows(user: Option<Principal>, routeId: Option<UserId>)
    ensures CanActivate(None, user, routeId)
  {
  }

  /** Membership of the caller's level suffices, whatever the route id. */
  lemma RoleMembershipAllows(roles: seq<RoleTag>, p: Principal, routeId: Option<UserId>)
    requires Level(p.authLevel) in roles
    ensures CanActivate(Some(roles), Some(p), routeId)
  {
  }

  /** With SELF declared, a caller acting on their own id passes, whatever
      their level. */
  lemma SelfMatchAllows(roles: seq<RoleTag>, p: Principal)
    requires Self in roles
    ensures CanActivate(Some(roles), Some(p), Some(p.id))
  {
  }

  /** Level not listed, and SELF absent or the id different: denied. */
  lemma OtherwiseDenies(roles: seq<RoleTag>, p: Principal, routeId: Option<UserId>)
    requires Level(p.authLevel) !in roles
    requires Self !in roles || routeId != Some(p.id)
    ensures !CanActivate(Some(roles), Some(p), routeId)
  {
  }

  /** On a route without an `:id` segment only the level can let a caller
      through: the self path never does. */
  lemma NoRouteIdNoSelf(roles: seq<RoleTag>, p: Principal)
    ensures CanActivate(Some(roles), Some(p), None) <==> Level(p.authLevel) in roles
  {
  }

  /** An empty declared list is truthy in JavaScript: it is not the "no
      declaration" case, and it denies every caller. */
  lemma EmptyDeclarationDenies(p: Principal, routeId: Option<UserId>)
    ensures !CanActivate(Some([]), Some(p), routeId)
  {
  }

  /** The decision depends on which tags are declared, not on their order
      or repetition. */
  lemma OrderIrrelevant(roles: seq<RoleTag>, roles': seq<RoleTag>, p: Principal, routeId: Option<UserId>)
    requires forall t :: t in roles <==> t in roles'
    ensures CanActivate(Some(roles), Some(p), routeId) == CanActivate(Some(roles'), Some(p), routeId)
  {
  }

  /** Adding tags to a declaration never takes access away. */
  lemma DeclarationMonotone(roles: seq<RoleTag>, extra: seq<RoleTag>, p: Principal, routeId: Option<UserId>)
    requires CanActivate(Some(roles), Some(p), routeId)
    ensures CanActivate(Some(roles + extra), Some(p), routeId)
  {
  }
}
