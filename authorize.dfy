/** The capability check that wraps protected resolvers (backend/authorize.js) and the
    static role to permission table it consults (backend/roles.js). */
module Authorize {
  import opened Common

  /** The one role the table knows. */
  const UserRole := "user"

  /** The permissions of the "user" role, in table order. */
  const UserPermissions: seq<string> := [
    "DELETE_USER_BY_ID", "UPDATE_USER", "GET_USER_BY_ID", "GET_ALL_USERS",
    "CREATE_SERVICE", "UPDATE_SERVICE", "DELETE_SERVICE_BY_ID", "GET_ALL_SERVICES", "GET_SERVICE_BY_ID",
    "CREATE_CATEGORY", "UPDATE_CATEGORY", "DELETE_CATEGORY_BY_ID", "GET_ALL_CATEGORIES", "GET_CATEGORY_BY_ID",
    "CREATE_SUB_CATEGORY", "UPDATE_SUB_CATEGORY", "DELETE_SUB_CATEGORY_BY_ID", "GET_ALL_SUB_CATEGORIES",
    "CREATE_ADDON", "UPDATE_ADDON", "DELETE_ADDON_BY_ID", "GET_ALL_ADDONS",
    "CREATE_BOOKING", "UPDATE_BOOKING", "DELETE_BOOKING_BY_ID", "GET_ALL_BOOKINGS", "GET_BOOKING_BY_ID",
    "GET_FULL_BOOKING_BY_ID"
  ]

  /** The role to permission-list table. */
  const Permissions: map<string, seq<string>> := map[UserRole := UserPermissions]

  /** The authenticated caller placed on the request context by the token middleware. */
  datatype Caller = Caller(id: string, role: Option<string>)

  /** The request context; `user` is missing for an unauthenticated request. */
  datatype Context = Context(user: Option<Caller>)

  /** The names every object literal inherits from `Object.prototype`. Looking one of
      them up in the table gives a function or an object, never an array. */
  const InheritedKeys: set<string> := {
    "constructor", "__proto__", "hasOwnProperty", "isPrototypeOf", "propertyIsEnumerable",
    "toLocaleString", "toString", "valueOf",
    "__defineGetter__", "__defineSetter__", "__lookupGetter__", "__lookupSetter__"
  }

  /** The TypeError thrown when the looked-up value has no `includes` method. */
  const IncludesError := "userPermissions.includes is not a function"

  /** `permissions[user.role] || []`: the table's list for "user", the empty list for a
      role the table does not have (or no role), and None when the lookup yields an
      inherited member, which is not a list. */
  function PermissionsOf(role: Option<string>): (ps: Option<seq<string>>)
    ensures role == Some(UserRole) ==> ps == Some(UserPermissions)
    ensures ps.None? <==> role.Some? && role.value in InheritedKeys
    ensures role != Some(UserRole) && ps.Some? ==> ps == Some([])
  {
    if role.Some? && role.value in Permissions then Some(Permissions[role.value])
    else if role.Some? && role.value in InheritedKeys then None
    else Some([])
  }

  /** `userPermissions.includes(requiredPermission)` succeeds and is true. */
  predicate Grants(role: Option<string>, requiredPermission: string) {
    PermissionsOf(role).Some? && requiredPermission in PermissionsOf(role).value
  }

  /** The per-request decision: None lets the resolver run, Some(m) throws Error(m). */
  function Check(requiredPermission: string, ctx: Context): (r: Option<string>)
    ensures r.None? <==> ctx.user.Some? && Grants(ctx.user.value.role, requiredPermission)
    ensures ctx.user.None? ==> r == Some("Not authenticated")
    ensures ctx.user.Some? && PermissionsOf(ctx.user.value.role).None? ==> r == Some(IncludesError)
    ensures ctx.user.Some? && PermissionsOf(ctx.user.value.role).Some? && r.Some? ==> r == Some("Not authorized")
  {
    if ctx.user.None? then Some("Not authenticated")
    else match PermissionsOf(ctx.user.value.role)
      case None => Some(IncludesError)
      case Some(ps) => if requiredPermission !in ps then Some("Not authorized") else None
  }

  /** The function `authorize(requiredPermission)(resolver)` returns: the permission it
      closes over and the wrapped resolver. */
  datatype Guarded<!A, R> = Guarded(permission: string, resolver: (A, Context) -> R)

  /** `authorize(requiredPermission)(resolver)`: fails at wrap time, before any request,
      when the permission is missing or empty. */
  function Wrap<A, R>(requiredPermission: Option<string>, resolver: (A, Context) -> R): (r: Result<Guarded<A, R>>)
    ensures r.Failure? <==> !Truthy(requiredPermission)
    ensures r.Failure? ==> r.error == "Missing required permission"
    ensures r.Success? ==> r.value.permission == requiredPermission.value && r.value.resolver == resolver
  {
    if !Truthy(requiredPermission) then Failure("Missing required permission")
    else Success(Guarded(requiredPermission.value, resolver))
  }

  /** Invoking a wrapped resolver: it runs, with the same arguments and context, only
      when the gate lets the request through; otherwise the request fails with the
      gate's error and the resolver's result is never produced. */
  function Invoke<A, R>(g: Guarded<A, R>, args: A, ctx: Context): (r: Result<R>)
    ensures r.Success? <==> ctx.user.Some? && Grants(ctx.user.value.role, g.permission)
    ensures r.Success? ==> r.value == g.resolver(args, ctx)
    ensures ctx.user.None? ==> r == Failure("Not authenticated")
    ensures ctx.user.Some? && PermissionsOf(ctx.user.value.role).None? ==> r == Failure(IncludesError)
    ensures ctx.user.Some? && PermissionsOf(ctx.user.value.role).Some? && r.Failure? ==> r == Failure("Not authorized")
  {
    match Check(g.permission, ctx)
    case Some(m) => Failure(m)
    case None => Success(g.resolver(args, ctx))
  }

  /** A caller whose role is neither in the table nor an inherited name is turned away
      with "Not authorized", whatever the permission. */
  lemma UnknownRoleRejected<A, R>(g: Guarded<A, R>, args: A, ctx: Context)
    requires ctx.user.Some?
    requires ctx.user.value.role.None? ||
             (ctx.user.value.role.value !in Permissions && ctx.user.value.role.value !in InheritedKeys)
    ensures Invoke(g, args, ctx) == Failure("Not authorized")
  {
  }

  /** A caller whose role names an inherited member ("constructor", "toString",
      "__proto__", ...) makes the gate throw the TypeError, whatever the permission. */
  lemma InheritedRoleThrows<A, R>(g: Guarded<A, R>, args: A, ctx: Context)
    requires ctx.user.Some? && ctx.user.value.role.Some? && ctx.user.value.role.value in InheritedKeys
    ensures Invoke(g, args, ctx) == Failure(IncludesError)
  {
  }

  /** "admin" is not a key of the table, so an admin never gets past the gate. */
  lemma AdminRejected<A, R>(g: Guarded<A, R>, args: A, ctx: Context)
    requires ctx.user.Some? && ctx.user.value.role == Some("admin")
    ensures Invoke(g, args, ctx) == Failure("Not authorized")
  {
    assert "admin" != UserRole && "admin" !in InheritedKeys;
  }

  /** Whether a request gets through depends on the caller's role and the permission,
      never on the arguments or on who the caller is beyond the role. */
  lemma DecisionIgnoresArgs<A, R>(g: Guarded<A, R>, a1: A, a2: A, c1: Context, c2: Context)
    requires c1.user.Some? <==> c2.user.Some?
    requires c1.user.Some? ==> c1.user.value.role == c2.user.value.role
    ensures Invoke(g, a1, c1).Success? <==> Invoke(g, a2, c2).Success?
    ensures Invoke(g, a1, c1).Failure? ==> Invoke(g, a1, c1) == Invoke(g, a2, c2)
  {
  }
}
