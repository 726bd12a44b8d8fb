/** The user resolvers (backend/user/resolvers.js): the argument, ownership and admin
    checks each resolver makes before calling the datasource, and the conversion of a
    thrown error into a failure envelope. The datasource operation a resolver calls is
    the parameter `service`; four resolvers are wrapped by the authorization gate. */
module UserResolvers {
  import opened Common
  import opened Authorize
  import opened UserRecords
  import opened UserStore

  /** The envelope a resolver's `catch` returns. Most resolvers include `data: null`;
      resendVerificationEmail, forgotPassword and changePassword leave `data` out. */
  function Caught<D>(message: string, withData: bool): (r: Envelope<D>)
    ensures !r.success && r.message == message
    ensures r.data == if withData then Null else Absent
  {
    Envelope(false, message, if withData then Null else Absent)
  }

  /** A resolver body: a refusal is caught, otherwise the service's envelope is returned
      and its error, if it throws, is caught. */
  function Handle<A, D>(refusal: Option<string>, request: A, service: A -> Result<Envelope<D>>, withData: bool): (r: Envelope<D>)
    ensures refusal.Some? ==> r == Caught(refusal.value, withData)
    ensures refusal.None? && service(request).Failure? ==> r == Caught(service(request).error, withData)
    ensures refusal.None? && service(request).Success? ==> r == service(request).value
  {
    if refusal.Some? then Caught(refusal.value, withData)
    else match service(request)
      case Failure(m) => Caught(m, withData)
      case Success(e) => e
  }

  /** `context.user.role !== "admin"` is false. */
  predicate IsAdmin(c: Caller) {
    c.role == Some("admin")
  }

  /** `context.user._id !== id && context.user.role !== "admin"`: the caller may not act on `id`. */
  predicate Foreign(c: Caller, id: Option<string>) {
    id != Some(c.id) && !IsAdmin(c)
  }

  /** `!!s && s.length < n`: a supplied string shorter than `n`. */
  predicate TooShort(s: Option<string>, n: nat) {
    Truthy(s) && |s.value| < n
  }

  /** `!!s && s.length > n`: a supplied string longer than `n`. */
  predicate TooLong(s: Option<string>, n: nat) {
    Truthy(s) && |s.value| > n
  }

  // ------------------------------------------------------------ queries

  /** getUserById: logged in, then the ownership check (which runs before the argument
      checks), then an id. */
  function GetUserByIdGuard(id: Option<string>, ctx: Context): (r: Option<string>)
    ensures r.None? <==> ctx.user.Some? && !Foreign(ctx.user.value, id) && Truthy(id)
    ensures ctx.user.None? ==> r == Some("You are not logged in")
    ensures ctx.user.Some? && Foreign(ctx.user.value, id) ==> r == Some("You are not authorized to access this user")
    ensures ctx.user.Some? && !Foreign(ctx.user.value, id) && !Truthy(id) ==> r == Some("User ID is required")
  {
    if ctx.user.None? then Some("You are not logged in")
    else if Foreign(ctx.user.value, id) then Some("You are not authorized to access this user")
    else if !Truthy(id) then Some("User ID is required")
    else None
  }

  function GetUserById(service: Option<string> -> Result<Envelope<User>>, id: Option<string>, ctx: Context): Envelope<User> {
    Handle(GetUserByIdGuard(id, ctx), id, service, true)
  }

  /** getUserById behind the gate with the GET_USER_BY_ID permission. */
  function GetUserByIdResolver(service: Option<string> -> Result<Envelope<User>>): (r: Result<Guarded<Option<string>, Envelope<User>>>)
    ensures r.Success? && r.value.permission == "GET_USER_BY_ID"
  {
    Wrap(Some("GET_USER_BY_ID"), (id, ctx) => GetUserById(service, id, ctx))
  }

  /** getAllUsers only asks for a logged-in caller. */
  function GetAllUsersGuard(ctx: Context): (r: Option<string>)
    ensures r.None? <==> ctx.user.Some?
    ensures r.Some? ==> r.value == "You are not logged in"
  {
    if ctx.user.None? then Some("You are not logged in") else None
  }

  // ------------------------------------------------------------ mutations

  /** `delete args.phone` / `delete args.email` when they are falsy. */
  function Stripped(args: SignUp): (a: SignUp)
    ensures a.phone == (if Truthy(args.phone) then args.phone else None)
    ensures a.email == (if Truthy(args.email) then args.email else None)
    ensures a.(phone := args.phone, email := args.email) == args
  {
    args.(phone := if Truthy(args.phone) then args.phone else None,
          email := if Truthy(args.email) then args.email else None)
  }

  /** createUser asks only for a role; neither an e-mail nor a phone is required. */
  function CreateUserGuard(args: SignUp): (r: Option<string>)
    ensures r.None? <==> Truthy(args.role)
    ensures r.Some? ==> r.value == "Role is required"
  {
    if !Truthy(args.role) then Some("Role is required") else None
  }

  function CreateUser(service: SignUp -> Result<Envelope<()>>, args: SignUp): (r: Envelope<()>)
    ensures Truthy(args.role) ==> r == Handle(None, Stripped(args), service, true)
    ensures !Truthy(args.role) ==> r == Caught("Role is required", true)
  {
    var a := Stripped(args);
    Handle(CreateUserGuard(a), a, service, true)
  }

  /** getUserToken: an e-mail or a phone; a supplied password of 8 to 20 characters. */
  function GetUserTokenGuard(email: Option<string>, phone: Option<string>, password: Option<string>): (r: Option<string>)
    ensures r.None? <==> (Truthy(email) || Truthy(phone)) && (!Truthy(password) || 8 <= |password.value| <= 20)
    ensures !Truthy(email) && !Truthy(phone) ==> r == Some("Email or phone is required")
    ensures (Truthy(email) || Truthy(phone)) && TooShort(password, 8) ==> r == Some("Password too short")
    ensures (Truthy(email) || Truthy(phone)) && TooLong(password, 20) ==> r == Some("Password too long")
  {
    if !Truthy(email) && !Truthy(phone) then Some("Email or phone is required")
    else if TooShort(password, 8) then Some("Password too short")
    else if TooLong(password, 20) then Some("Password too long")
    else None
  }

  /** updateUser: logged in, an id, the caller's own id unless admin, role and status
      changed by an admin only, a supplied first name of 3 to 30 characters. */
  function UpdateUserGuard(args: UpdateArgs, ctx: Context): (r: Option<string>)
    ensures r.None? <==>
      && ctx.user.Some? && Truthy(args.id) && !Foreign(ctx.user.value, args.id)
      && (Truthy(args.role) ==> IsAdmin(ctx.user.value))
      && (Truthy(args.accountStatus) ==> IsAdmin(ctx.user.value))
      && (Truthy(args.firstName) ==> 3 <= |args.firstName.value| <= 30)
    ensures ctx.user.None? ==> r == Some("You are not logged in")
    ensures ctx.user.Some? && !Truthy(args.id) ==> r == Some("User ID is required")
    ensures ctx.user.Some? && Truthy(args.id) && Foreign(ctx.user.value, args.id) ==>
              r == Some("You are not authorized to update this user")
    ensures (ctx.user.Some? && Truthy(args.id) && !Foreign(ctx.user.value, args.id) &&
             Truthy(args.role) && !IsAdmin(ctx.user.value)) ==> r == Some("You are not authorized to update role")
  {
    if ctx.user.None? then Some("You are not logged in")
    else if !Truthy(args.id) then Some("User ID is required")
    else if Foreign(ctx.user.value, args.id) then Some("You are not authorized to update this user")
    else if Truthy(args.role) && !IsAdmin(ctx.user.value) then Some("You are not authorized to update role")
    else if Truthy(args.accountStatus) && !IsAdmin(ctx.user.value) then Some("You are not authorized to update status")
    else if TooShort(args.firstName, 3) then Some("First name is too short")
    else if TooLong(args.firstName, 30) then Some("First name is too long")
    else None
  }

  function UpdateUser(service: UpdateArgs -> Result<Envelope<User>>, args: UpdateArgs, ctx: Context): Envelope<User> {
    Handle(UpdateUserGuard(args, ctx), args, service, true)
  }

  /** updateUser behind the gate with the UPDATE_USER permission. */
  function UpdateUserResolver(service: UpdateArgs -> Result<Envelope<User>>): (r: Result<Guarded<UpdateArgs, Envelope<User>>>)
    ensures r.Success? && r.value.permission == "UPDATE_USER"
  {
    Wrap(Some("UPDATE_USER"), (args, ctx) => UpdateUser(service, args, ctx))
  }

  /** deleteUserById: logged in, an id, then the ownership check. */
  function DeleteUserByIdGuard(id: Option<string>, ctx: Context): (r: Option<string>)
    ensures r.None? <==> ctx.user.Some? && Truthy(id) && !Foreign(ctx.user.value, id)
    ensures ctx.user.None? ==> r == Some("You are not logged in")
    ensures ctx.user.Some? && !Truthy(id) ==> r == Some("User ID is required")
    ensures ctx.user.Some? && Truthy(id) && Foreign(ctx.user.value, id) ==> r == Some("You are not authorized to delete this user")
  {
    if ctx.user.None? then Some("You are not logged in")
    else if !Truthy(id) then Some("User ID is required")
    else if Foreign(ctx.user.value, id) then Some("You are not authorized to delete this user")
    else None
  }

  function DeleteUserById(service: Option<string> -> Result<Envelope<()>>, id: Option<string>, ctx: Context): Envelope<()> {
    Handle(DeleteUserByIdGuard(id, ctx), id, service, true)
  }

  /** deleteUserById behind the gate with the DELETE_USER_BY_ID permission. */
  function DeleteUserByIdResolver(service: Option<string> -> Result<Envelope<()>>): (r: Result<Guarded<Option<string>, Envelope<()>>>)
    ensures r.Success? && r.value.permission == "DELETE_USER_BY_ID"
  {
    Wrap(Some("DELETE_USER_BY_ID"), (id, ctx) => DeleteUserById(service, id, ctx))
  }

  /** verifyUser and verifyOtp: an e-mail or a phone. */
  function ContactGuard(email: Option<string>, phone: Option<string>): (r: Option<string>)
    ensures r.None? <==> ContactOf(email, phone).Some?
    ensures r.Some? ==> r.value == "Please enter email or phone number"
  {
    if !Truthy(email) && !Truthy(phone) then Some("Please enter email or phone number") else None
  }

  /** resendVerificationEmail and forgotPassword: an e-mail. */
  function EmailGuard(email: Option<string>): (r: Option<string>)
    ensures r.None? <==> Truthy(email)
    ensures r.Some? ==> r.value == "Email is required"
  {
    if !Truthy(email) then Some("Email is required") else None
  }

  /** resendVerificationEmail and forgotPassword catch without a `data` key. */
  function EmailOnly(service: Option<string> -> Result<Envelope<()>>, email: Option<string>): (r: Envelope<()>)
    ensures !Truthy(email) ==> r == Envelope(false, "Email is required", Absent)
    ensures Truthy(email) && service(email).Failure? ==> r == Envelope(false, service(email).error, Absent)
  {
    Handle(EmailGuard(email), email, service, false)
  }

  datatype ResetArgs = ResetArgs(email: Option<string>, otp: Option<string>, password: Option<string>, confirmPassword: Option<string>)

  /** resetPassword: e-mail, code, password, confirmation, equal passwords, then a
      password of 8 to 20 characters. */
  function ResetPasswordGuard(args: ResetArgs): (r: Option<string>)
    ensures r.None? <==>
      && Truthy(args.email) && Truthy(args.otp) && Truthy(args.password) && Truthy(args.confirmPassword)
      && args.password == args.confirmPassword && 8 <= |args.password.value| <= 20
    ensures !Truthy(args.email) ==> r == Some("Email is required")
    ensures Truthy(args.email) && !Truthy(args.otp) ==> r == Some("OTP is required")
    ensures (Truthy(args.email) && Truthy(args.otp) && Truthy(args.password) && Truthy(args.confirmPassword) &&
             args.password != args.confirmPassword) ==> r == Some("Passwords do not match")
  {
    if !Truthy(args.email) then Some("Email is required")
    else if !Truthy(args.otp) then Some("OTP is required")
    else if !Truthy(args.password) then Some("Password is required")
    else if !Truthy(args.confirmPassword) then Some("Confirm password is required")
    else if args.password != args.confirmPassword then Some("Passwords do not match")
    else if |args.password.value| < 8 then Some("Password too short")
    else if |args.password.value| > 20 then Some("Password too long")
    else None
  }

  datatype ChangeArgs = ChangeArgs(oldPassword: Option<string>, newPassword: Option<string>)

  /** What changePassword hands the datasource: the caller's id and the passwords. */
  datatype ChangeRequest = ChangeRequest(id: string, oldPassword: string, newPassword: string)

  /** changePassword: a logged-in caller ("User not found" otherwise), an old password,
      and a new password of 8 to 20 characters. */
  function ChangePasswordGuard(args: ChangeArgs, ctx: Context): (r: Option<string>)
    ensures r.None? <==> ctx.user.Some? && Truthy(args.oldPassword) && Truthy(args.newPassword)
                         && 8 <= |args.newPassword.value| <= 20
    ensures ctx.user.None? ==> r == Some("User not found")
  {
    if ctx.user.None? then Some("User not found")
    else if !Truthy(args.oldPassword) then Some("Old password is required")
    else if !Truthy(args.newPassword) then Some("New password is required")
    else if |args.newPassword.value| < 8 then Some("New password too short")
    else if |args.newPassword.value| > 20 then Some("New password too long")
    else None
  }

  /** changePassword: the id comes from the context, never from the arguments. */
  function ChangePassword(service: ChangeRequest -> Result<Envelope<()>>, args: ChangeArgs, ctx: Context): (r: Envelope<()>)
    ensures ChangePasswordGuard(args, ctx).Some? ==> r == Caught(ChangePasswordGuard(args, ctx).value, false)
    ensures ChangePasswordGuard(args, ctx).None? ==>
              r == Handle(None, ChangeRequest(ctx.user.value.id, args.oldPassword.value, args.newPassword.value), service, false)
  {
    match ChangePasswordGuard(args, ctx)
    case Some(m) => Caught(m, false)
    case None => Handle(None, ChangeRequest(ctx.user.value.id, args.oldPassword.value, args.newPassword.value), service, false)
  }

  // ------------------------------------------------------------ behind the gate

  /** An admin never reaches updateUser's admin branches: the gate turns them away. */
  lemma AdminCannotUpdate(service: UpdateArgs -> Result<Envelope<User>>, args: UpdateArgs, ctx: Context)
    requires ctx.user.Some? && IsAdmin(ctx.user.value)
    ensures Invoke(UpdateUserResolver(service).value, args, ctx) == Failure("Not authorized")
  {
    AdminRejected(UpdateUserResolver(service).value, args, ctx);
  }

  /** Whoever passes the gate holds the "user" role, so the resolvers' admin exceptions
      never apply and their "not logged in" checks never fire. */
  lemma GatePassersAreUsers<A, R>(g: Guarded<A, R>, args: A, ctx: Context)
    requires Invoke(g, args, ctx).Success?
    ensures ctx.user.Some? && ctx.user.value.role == Some(UserRole) && !IsAdmin(ctx.user.value)
  {
    assert Grants(ctx.user.value.role, g.permission);
    assert "admin" != UserRole;
  }

  /** A caller with the "user" role deleting someone else's account gets a failure
      envelope and the datasource is not called. */
  lemma CannotDeleteOthers(service: Option<string> -> Result<Envelope<()>>, id: string, ctx: Context)
    requires ctx.user.Some? && ctx.user.value.role == Some(UserRole)
    requires id != "" && id != ctx.user.value.id
    ensures Invoke(DeleteUserByIdResolver(service).value, Some(id), ctx) ==
              Success(Envelope(false, "You are not authorized to delete this user", Null))
  {
    assert "DELETE_USER_BY_ID" in UserPermissions;
    assert "admin" != UserRole;
  }

  /** A "user" updating their own record without touching role or status, with a first
      name of acceptable length, gets exactly what the datasource returns. */
  lemma OwnUpdateReachesDatasource(service: UpdateArgs -> Result<Envelope<User>>, args: UpdateArgs, ctx: Context)
    requires ctx.user.Some? && ctx.user.value.role == Some(UserRole)
    requires args.id == Some(ctx.user.value.id) && ctx.user.value.id != ""
    requires !Truthy(args.role) && !Truthy(args.accountStatus)
    requires Truthy(args.firstName) ==> 3 <= |args.firstName.value| <= 30
    ensures Invoke(UpdateUserResolver(service).value, args, ctx) == Success(Handle(None, args, service, true))
  {
    assert "UPDATE_USER" in UserPermissions;
  }
}
