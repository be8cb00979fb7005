/** The closed set of access levels, the SELF marker that only ever appears in
    a handler's declared list, and the authenticated principal. */
module UserLevel {

  /** The values of `authLevel` a stored user may carry (the schema's enum). */
  datatype AuthLevel = User | UserManager | Admin

  /** An entry of a handler's declared list: a real access level, or the
      SELF marker, which is never the `authLevel` of a principal. */
  datatype RoleTag = Level(level: AuthLevel) | Self

  type UserId = string

  /** The user object the JWT strategy attaches to the request: the record
      embedded at login, of which the guard reads `_id` and `authLevel`. */
  datatype Principal = Principal(id: UserId, authLevel: AuthLevel)

  /** An HTTP exception as thrown by a controller, guard or service. */
  datatype HttpException = HttpException(status: nat, message: string)

  const UNAUTHORIZED: nat := 401
  const FORBIDDEN: nat := 403
  const NOT_FOUND: nat := 404
}
