/** The user datasource (backend/user/datasource.js) as a store of user records that
    its operations step in place. Time is the parameter `now` (milliseconds); the
    random draws (`Math.random`, `randomBytes`) are parameters; HMAC-SHA256 is the
    function `hash` the store is built with; the e-mail sender is its boolean result. */
module UserStore {
  import opened Common
  import opened UserRecords
  import opened Authorize

  /** What Node's `createHmac` throws when its key is `undefined`. */
  const UndefinedKeyError := "The \"key\" argument must be of type string or an instance of ArrayBuffer, Buffer, TypedArray, DataView, KeyObject, or CryptoKey. Received undefined"

  /** What reading `.verified` of a `null` user throws. */
  const NullUserError := "Cannot read properties of null (reading 'verified')"

  /** The arguments of createUser that reach the record. */
  datatype SignUp = SignUp(
    firstName: Option<string>,
    email: Option<string>,
    phone: Option<string>,
    password: Option<string>,
    role: Option<string>)

  /** The `data` of a getUserToken response. */
  datatype Login = Login(verified: seq<Channel>, token: Option<Token>)

  /** The `data` of a verifyOtp response. */
  datatype OtpLogin = OtpLogin(verified: bool, token: Token)

  /** The code verifyUser issues: zeroed for the phone channel, random for e-mail. */
  function VerificationCode(ch: Channel, draw: nat): (code: string)
    requires SixDigitDraw(draw)
    ensures |code| == 6
    ensures ch == PhoneChannel ==> code == "000000"
  {
    if ch == PhoneChannel then
      ZeroedCodeIsConstant(draw);
      ZeroedCode(draw)
    else RandomCode(draw)
  }

  /** Every record is filed under its own id, and no two users share a non-empty
      e-mail or a non-empty phone. */
  ghost predicate Wellformed(m: map<UserId, User>) {
    && (forall id :: id in m ==> m[id].id == id)
    && (forall a, b :: a in m && b in m && Truthy(m[a].email) && m[a].email == m[b].email ==> a == b)
    && (forall a, b :: a in m && b in m && Truthy(m[a].phone) && m[a].phone == m[b].phone ==> a == b)
  }

  /** The user of `m` holding a contact, if any. */
  ghost function HolderIn(m: map<UserId, User>, c: Contact): (r: Option<UserId>)
    ensures r.Some? ==> r.value in m && HasContact(m[r.value], c)
    ensures r.None? ==> forall id :: id in m ==> !HasContact(m[id], c)
  {
    if exists id :: id in m && HasContact(m[id], c) then
      Some(var id :| id in m && HasContact(m[id], c); id)
    else None
  }

  /** No user other than `id` holds the non-empty e-mail or phone of `u`. */
  ghost predicate MayHold(m: map<UserId, User>, id: UserId, u: User) {
    forall b :: b in m && b != id ==>
      (Truthy(u.email) ==> m[b].email != u.email) && (Truthy(u.phone) ==> m[b].phone != u.phone)
  }

  /** Filing a record under its id keeps the store well formed when no other user holds
      its contacts. */
  lemma ReplaceKeepsWellformed(m: map<UserId, User>, id: UserId, u: User)
    requires Wellformed(m) && u.id == id && MayHold(m, id, u)
    ensures Wellformed(m[id := u])
  {
  }

  /** In a well-formed store the holder of a non-empty contact is the one user with it. */
  lemma HolderUnique(m: map<UserId, User>, id: UserId, c: Contact)
    requires Wellformed(m) && id in m && HasContact(m[id], c) && c.Value() != ""
    ensures HolderIn(m, c) == Some(id)
  {
  }

  /** A contact that nobody but `id` holds is free for `id`. */
  lemma HeldOnlyBy(m: map<UserId, User>, id: UserId, c: Contact)
    requires Wellformed(m) && c.Value() != ""
    requires HolderIn(m, c).None? || HolderIn(m, c) == Some(id)
    ensures forall b :: b in m && b != id ==> !HasContact(m[b], c)
  {
  }

  /** A verified list without repeats keeps a channel after an update exactly when it
      had it and the update does not change that channel's contact. */
  ghost predicate ChannelsFollowContacts(before: User, args: UpdateArgs, after: seq<Channel>) {
    NoDuplicates(VerifiedList(before)) ==>
      && (EmailChannel in after <==> EmailChannel in VerifiedList(before) && !(Truthy(args.email) && args.email != before.email))
      && (PhoneChannel in after <==> PhoneChannel in VerifiedList(before) && !(Truthy(args.phone) && args.phone != before.phone))
  }

  class Store {
    /** The user collection, by id. */
    var users: map<UserId, User>
    /** `generateHash(salt, password)`: HMAC-SHA256 keyed with the salt, as hex. */
    const hash: (string, string) -> string
    /** The `account_status` the user schema gives a new document. */
    const defaultStatus: Option<string>

    /** Every record is filed under its own id, and no two users share a non-empty
        e-mail or a non-empty phone. */
    ghost predicate Valid()
      reads this
    {
      Wellformed(users)
    }

    constructor (hash: (string, string) -> string, defaultStatus: Option<string>)
      ensures Valid() && users == map[]
      ensures this.hash == hash && this.defaultStatus == defaultStatus
    {
      this.users := map[];
      this.hash := hash;
      this.defaultStatus := defaultStatus;
    }

    /** The user holding a contact, if any. */
    ghost function Holder(c: Contact): (r: Option<UserId>)
      reads this
      ensures r.Some? ==> r.value in users && HasContact(users[r.value], c)
      ensures r.None? ==> forall id :: id in users ==> !HasContact(users[id], c)
    {
      HolderIn(users, c)
    }

    /** `getUserByEmail` / `getUserByPhone`: `findOne`, which returns the one holder. */
    method Find(c: Contact) returns (id: Option<UserId>)
      requires Valid() && c.Value() != ""
      ensures id == Holder(c)
    {
      if exists i :: i in users && HasContact(users[i], c) {
        var i :| i in users && HasContact(users[i], c);
        id := Some(i);
      } else {
        id := None;
      }
    }

    /** The password check of the source: hashing the candidate with the stored salt
        gives the stored hash. */
    predicate PasswordMatches(u: User, password: string) {
      u.salt.Some? && u.password == Some(hash(u.salt.value, password))
    }

    /** `generateHash(user.salt, password)`, which throws when the salt is missing. */
    function HashWith(salt: Option<string>, password: string): (r: Result<string>)
      ensures r.Failure? <==> salt.None?
      ensures r.Failure? ==> r.error == UndefinedKeyError
      ensures r.Success? ==> r.value == hash(salt.value, password)
    {
      if salt.None? then Failure(UndefinedKeyError) else Success(hash(salt.value, password))
    }

    /** The document createUser stores. */
    function Registered(args: SignUp, id: UserId, salt: string, draw: nat, now: int): (u: User)
      requires SixDigitDraw(draw)
      ensures u.id == id && u.email == args.email && u.phone == args.phone && u.role == args.role
      ensures Truthy(args.password) ==> PasswordMatches(u, args.password.value)
      ensures u.verified == Some([]) && u.accountStatus == defaultStatus
      ensures u.otp == Some("000000") && u.otpExpiry == Some(now + OtpLifetime) && u.otpCreatedAt.None?
    {
      ZeroedCodeIsConstant(draw);
      User(id, args.firstName, args.email, args.phone, args.role, defaultStatus,
           if Truthy(args.password) then Some(salt) else None,
           if Truthy(args.password) then Some(hash(salt, args.password.value)) else args.password,
           Some([]), Some(ZeroedCode(draw)), Some(now + OtpLifetime), None, None)
    }

    /** A record with new credentials, the way resetPassword writes them. */
    function WithNewPassword(u: User, salt: string, password: string): (v: User)
      ensures PasswordMatches(v, password)
      ensures v.otp.None? && v.otpExpiry.None?
      ensures v.(salt := u.salt, password := u.password, otp := u.otp, otpExpiry := u.otpExpiry) == u
    {
      u.(salt := Some(salt), password := Some(hash(salt, password)), otp := None, otpExpiry := None)
    }

    // ------------------------------------------------------------ operations

    /** getUserById: the user wrapped in a response envelope. */
    method GetUserById(id: Option<string>) returns (r: Result<Envelope<User>>)
      ensures !Truthy(id) ==> r == Failure("Id is required")
      ensures Truthy(id) && id.value !in users ==> r == Failure("User not found")
      ensures Truthy(id) && id.value in users ==> r == Success(Envelope(true, "User fetched successfully", Present(users[id.value])))
    {
      if !Truthy(id) {
        return Failure("Id is required");
      }
      if id.value !in users {
        return Failure("User not found");
      }
      r := Success(Envelope(true, "User fetched successfully", Present(users[id.value])));
    }

    /** createUser: refuses a taken phone, then a taken e-mail; otherwise stores the
        new user with a hashed password (when one is given), the Mongoose default empty
        verified list and a zeroed code valid for an hour. `id` is the fresh document id. */
    method CreateUser(args: SignUp, id: UserId, salt: string, draw: nat, now: int) returns (r: Result<Envelope<()>>)
      requires Valid() && id !in users && SixDigitDraw(draw)
      modifies this
      ensures Valid()
      ensures Truthy(args.phone) && old(Holder(ByPhone(args.phone.value))).Some? ==>
                r == Failure("Phone number already exists") && users == old(users)
      ensures !(Truthy(args.phone) && old(Holder(ByPhone(args.phone.value))).Some?) &&
              Truthy(args.email) && old(Holder(ByEmail(args.email.value))).Some? ==>
                r == Failure("Email already exists") && users == old(users)
      ensures !(Truthy(args.phone) && old(Holder(ByPhone(args.phone.value))).Some?) &&
              !(Truthy(args.email) && old(Holder(ByEmail(args.email.value))).Some?) ==>
                r == Success(Envelope(true, "User created successfully.", Absent)) &&
                users == old(users)[id := Registered(args, id, salt, draw, now)]
    {
      if Truthy(args.phone) {
        var holder := Find(ByPhone(args.phone.value));
        if holder.Some? {
          return Failure("Phone number already exists");
        }
      }
      if Truthy(args.email) {
        var holder := Find(ByEmail(args.email.value));
        if holder.Some? {
          return Failure("Email already exists");
        }
      }
      users := users[id := Registered(args, id, salt, draw, now)];
      r := Success(Envelope(true, "User created successfully.", Absent));
    }

    /** verifyUser: finds the user by e-mail (else phone), refuses a channel that is
        already verified, stores a new code valid for an hour, and only then sends the
        e-mail; a failed send is reported after the code is stored. */
    method VerifyUser(email: Option<string>, phone: Option<string>, draw: nat, sent: bool, now: int)
      returns (r: Result<Envelope<()>>)
      requires Valid() && SixDigitDraw(draw)
      modifies this
      ensures Valid()
      ensures ContactOf(email, phone).None? ==> r == Failure("Email or phone is required") && users == old(users)
      ensures ContactOf(email, phone).Some? ==>
        var c := ContactOf(email, phone).value;
        var ch := c.Channel();
        match old(Holder(c))
        case None => r == Failure("User not found") && users == old(users)
        case Some(id) =>
          if AlreadyVerified(old(users)[id], ch) then
            r == Failure(ch.Name() + " already verified") && users == old(users)
          else
            && users == old(users)[id := WithOtp(old(users)[id], VerificationCode(ch, draw), now)]
            && (r.Success? <==> ch == PhoneChannel || sent)
            && (r.Failure? ==> r.error == "Failed to send verification email")
            && (r.Success? ==> r.value == Envelope(true, ch.Name() + " verification sent successfully", Absent))
    {
      var contact := ContactOf(email, phone);
      if contact.None? {
        return Failure("Email or phone is required");
      }
      var c := contact.value;
      var ch := c.Channel();
      var found := Find(c);
      if found.None? {
        return Failure("User not found");
      }
      var id := found.value;
      var user := users[id];
      if AlreadyVerified(user, ch) {
        return Failure(ch.Name() + " already verified");
      }
      var otp := VerificationCode(ch, draw);
      users := users[id := WithOtp(user, otp, now)];
      if ch == EmailChannel && !sent {
        return Failure("Failed to send verification email");
      }
      r := Success(Envelope(true, ch.Name() + " verification sent successfully", Absent));
    }

    /** verifyOtp: checks, in order, that a code is given, that an e-mail or phone is
        given, that the user exists, that the channel is not yet verified, that the code
        matches and that it has not expired. On success the channel is appended to the
        verified list and the code state is cleared before the token is generated, so an
        inactive account ends up verified although the call fails. */
    method VerifyOtp(email: Option<string>, phone: Option<string>, otp: Option<string>, now: int)
      returns (r: Result<Envelope<OtpLogin>>)
      requires Valid()
      modifies this
      ensures Valid()
      ensures !Truthy(otp) ==> r == Failure("OTP is required") && users == old(users)
      ensures Truthy(otp) && ContactOf(email, phone).None? ==>
                r == Failure("Phone or email is required") && users == old(users)
      ensures Truthy(otp) && ContactOf(email, phone).Some? ==>
        var c := ContactOf(email, phone).value;
        var ch := c.Channel();
        match old(Holder(c))
        case None => r == Failure("User not found") && users == old(users)
        case Some(id) =>
          var u := old(users)[id];
          match CheckOtp(u, ch, otp.value, now)
          case Some(m) => r == Failure(m) && users == old(users)
          case None =>
            && users == old(users)[id := MarkVerified(u, ch)]
            && match GenerateToken(Some(MarkVerified(u, ch)))
               case Failure(m) => r == Failure(m)
               case Success(t) => r == Success(Envelope(true, ch.Name() + " verified successfully", Present(OtpLogin(true, t))))
    {
      if !Truthy(otp) {
        return Failure("OTP is required");
      }
      var contact := ContactOf(email, phone);
      if contact.None? {
        return Failure("Phone or email is required");
      }
      var c := contact.value;
      var ch := c.Channel();
      var found := Find(c);
      if found.None? {
        return Failure("User not found");
      }
      var id := found.value;
      var user := users[id];
      var refusal := CheckOtp(user, ch, otp.value, now);
      if refusal.Some? {
        return Failure(refusal.value);
      }
      var updated := MarkVerified(user, ch);
      users := users[id := updated];
      var token := GenerateToken(Some(updated));
      if token.Failure? {
        return Failure(token.error);
      }
      r := Success(Envelope(true, ch.Name() + " verified successfully", Present(OtpLogin(true, token.value))));
    }

    /** resendOTP: a missing user is dereferenced (TypeError); any verified list refuses;
        a code created under a minute ago refuses; otherwise a zeroed code is stored with
        its creation time and the attempt counter reset, and returned. */
    method ResendOtp(email: Option<string>, phone: Option<string>, draw: nat, now: int)
      returns (r: Result<Envelope<string>>)
      requires Valid() && SixDigitDraw(draw)
      modifies this
      ensures Valid()
      ensures ContactOf(email, phone).None? ==> r == Failure("Email or phone is required") && users == old(users)
      ensures ContactOf(email, phone).Some? ==>
        var c := ContactOf(email, phone).value;
        match old(Holder(c))
        case None => r == Failure(NullUserError) && users == old(users)
        case Some(id) =>
          var u := old(users)[id];
          match CheckResend(u, now)
          case Some(m) => r == Failure(m) && users == old(users)
          case None =>
            && users == old(users)[id := WithResentOtp(u, "000000", now)]
            && r == Success(Envelope(true, "New OTP sent successfully", Present("000000")))
    {
      var contact := ContactOf(email, phone);
      if contact.None? {
        return Failure("Email or phone is required");
      }
      var found := Find(contact.value);
      if found.None? {
        return Failure(NullUserError);
      }
      var id := found.value;
      var user := users[id];
      var refusal := CheckResend(user, now);
      if refusal.Some? {
        return Failure(refusal.value);
      }
      var otp := ZeroedCode(draw);
      ZeroedCodeIsConstant(draw);
      users := users[id := WithResentOtp(user, otp, now)];
      r := Success(Envelope(true, "New OTP sent successfully", Present(otp)));
    }

    /** getUserToken: checks the password only when one is given; a user with no or an
        empty verified list gets the placeholder code stored and no token; otherwise the
        token of generateToken and a copy of the verified list. */
    method GetUserToken(email: Option<string>, phone: Option<string>, password: Option<string>, now: int)
      returns (r: Result<Envelope<Login>>)
      requires Valid()
      modifies this
      ensures Valid()
      ensures ContactOf(email, phone).None? ==> r == Failure("Email or phone is required") && users == old(users)
      ensures ContactOf(email, phone).Some? ==>
        var c := ContactOf(email, phone).value;
        match old(Holder(c))
        case None => r == Failure("User not found") && users == old(users)
        case Some(id) =>
          var u := old(users)[id];
          if Truthy(password) && u.salt.None? then
            r == Failure(UndefinedKeyError) && users == old(users)
          else if Truthy(password) && !PasswordMatches(u, password.value) then
            r == Failure("Incorrect password") && users == old(users)
          else if VerifiedList(u) == [] then
            && users == old(users)[id := WithOtp(u, PlaceholderOtp, now)]
            && r == Success(Envelope(true, "Please verify your account", Present(Login([], None))))
          else
            && users == old(users)
            && match GenerateToken(Some(u))
               case Failure(m) => r == Failure(m)
               case Success(t) => r == Success(Envelope(true, "Login successful", Present(Login(u.verified.value, Some(t)))))
      // The token is never issued to a user who has verified nothing.
      ensures r.Success? && r.value.data.Present? && r.value.data.value.token.Some? ==>
        r.value.data.value.verified != [] && r.value.data.value.token.value.id in old(users)
    {
      var contact := ContactOf(email, phone);
      if contact.None? {
        return Failure("Email or phone is required");
      }
      var found := Find(contact.value);
      if found.None? {
        return Failure("User not found");
      }
      var id := found.value;
      var user := users[id];
      if Truthy(password) {
        var hashed := HashWith(user.salt, password.value);
        if hashed.Failure? {
          return Failure(hashed.error);
        }
        if Some(hashed.value) != user.password {
          return Failure("Incorrect password");
        }
      }
      if user.verified.None? || |user.verified.value| == 0 {
        users := users[id := WithOtp(user, PlaceholderOtp, now)];
        return Success(Envelope(true, "Please verify your account", Present(Login([], None))));
      }
      var token := GenerateToken(Some(user));
      if token.Failure? {
        return Failure(token.error);
      }
      r := Success(Envelope(true, "Login successful", Present(Login(user.verified.value, Some(token.value)))));
    }

    /** resendVerificationEmail: stores a zeroed code valid for an hour; nothing is sent. */
    method ResendVerificationEmail(email: string, draw: nat, now: int) returns (r: Result<Envelope<()>>)
      requires Valid() && SixDigitDraw(draw) && email != ""
      modifies this
      ensures Valid()
      ensures match old(Holder(ByEmail(email)))
        case None => r == Failure("User not found") && users == old(users)
        case Some(id) =>
          && users == old(users)[id := WithOtp(old(users)[id], "000000", now)]
          && r == Success(Envelope(true, "Email sent successfully", Absent))
    {
      var found := Find(ByEmail(email));
      if found.None? {
        return Failure("User not found");
      }
      var id := found.value;
      ZeroedCodeIsConstant(draw);
      users := users[id := WithOtp(users[id], ZeroedCode(draw), now)];
      r := Success(Envelope(true, "Email sent successfully", Absent));
    }

    /** forgotPassword: a code with more than five minutes left is kept; otherwise a
        zeroed code valid for an hour replaces it. */
    method ForgotPassword(email: string, draw: nat, now: int) returns (r: Result<Envelope<()>>)
      requires Valid() && SixDigitDraw(draw) && email != ""
      modifies this
      ensures Valid()
      ensures match old(Holder(ByEmail(email)))
        case None => r == Failure("User not found") && users == old(users)
        case Some(id) =>
          if CodeStillFresh(old(users)[id], now) then
            r == Success(Envelope(true, "OTP sent already", Absent)) && users == old(users)
          else
            && users == old(users)[id := WithOtp(old(users)[id], "000000", now)]
            && r == Success(Envelope(true, "OTP sent successfully", Absent))
    {
      var found := Find(ByEmail(email));
      if found.None? {
        return Failure("User not found");
      }
      var id := found.value;
      var user := users[id];
      if CodeStillFresh(user, now) {
        return Success(Envelope(true, "OTP sent already", Absent));
      }
      ZeroedCodeIsConstant(draw);
      users := users[id := WithOtp(user, ZeroedCode(draw), now)];
      r := Success(Envelope(true, "OTP sent successfully", Absent));
    }

    /** resetPassword: a matching, unexpired code lets the password be replaced (new
        salt, code cleared); the token is then generated from the record as it was read,
        so its errors arrive after the new password is stored. */
    method ResetPassword(email: string, otp: string, password: string, salt: string, now: int)
      returns (r: Result<Envelope<Token>>)
      requires Valid() && email != ""
      modifies this
      ensures Valid()
      ensures match old(Holder(ByEmail(email)))
        case None => r == Failure("User not found") && users == old(users)
        case Some(id) =>
          var u := old(users)[id];
          match CheckResetOtp(u, otp, now)
          case Some(m) => r == Failure(m) && users == old(users)
          case None =>
            && users == old(users)[id := WithNewPassword(u, salt, password)]
            && match GenerateToken(Some(u))
               case Failure(m) => r == Failure(m)
               case Success(t) => r == Success(Envelope(true, "Password reset successfully", Present(t)))
    {
      var found := Find(ByEmail(email));
      if found.None? {
        return Failure("User not found");
      }
      var id := found.value;
      var user := users[id];
      var refusal := CheckResetOtp(user, otp, now);
      if refusal.Some? {
        return Failure(refusal.value);
      }
      users := users[id := WithNewPassword(user, salt, password)];
      var token := GenerateToken(Some(user));
      if token.Failure? {
        return Failure(token.error);
      }
      r := Success(Envelope(true, "Password reset successfully", Present(token.value)));
    }

    /** changePassword as written: the "user" it reads is the envelope getUserById
        returns, whose salt is undefined, so hashing the old password always throws and
        no password is ever changed. */
    method ChangePassword(id: string, oldPassword: string, newPassword: string, salt: string)
      returns (r: Result<Envelope<()>>)
      ensures r.Failure?
      ensures id == "" ==> r.error == "Id is required"
      ensures id != "" && id !in users ==> r.error == "User not found"
      ensures id != "" && id in users ==> r.error == UndefinedKeyError
    {
      var fetched := GetUserById(Some(id));
      if fetched.Failure? {
        return Failure(fetched.error);
      }
      // `user.salt` and `user.password` of an envelope are undefined.
      var envelopeSalt: Option<string> := None;
      var hashed := HashWith(envelopeSalt, oldPassword);
      if hashed.Failure? {
        return Failure(hashed.error);
      }
      // Not reached: an envelope carries no salt.
      r := Failure("Incorrect Password");
    }

    /** changePassword as evidently intended: the stored salt and hash are checked
        against the old password and replaced by a fresh salt and the new hash. */
    method ChangePasswordIntended(id: string, oldPassword: string, newPassword: string, salt: string)
      returns (r: Result<Envelope<()>>)
      requires Valid()
      modifies this
      ensures Valid()
      ensures r.Success? <==> id != "" && id in old(users) && PasswordMatches(old(users)[id], oldPassword)
      ensures r.Success? ==>
        && id in old(users)
        && users == old(users)[id := old(users)[id].(salt := Some(salt), password := Some(hash(salt, newPassword)))]
        && PasswordMatches(users[id], newPassword)
      ensures r.Failure? ==> users == old(users)
    {
      var fetched := GetUserById(Some(id));
      if fetched.Failure? {
        return Failure(fetched.error);
      }
      var user := users[id];
      var hashed := HashWith(user.salt, oldPassword);
      if hashed.Failure? {
        return Failure(hashed.error);
      }
      if Some(hashed.value) != user.password {
        return Failure("Incorrect Password");
      }
      users := users[id := user.(salt := Some(salt), password := Some(hash(salt, newPassword)))];
      r := Success(Envelope(true, "Password Changed Successfully", Absent));
    }

    /** The uniqueness checks of updateUser: a new e-mail, then a new phone, held by a
        user other than `id` is refused. */
    method ContactClash(id: UserId, email: Option<string>, phone: Option<string>) returns (err: Option<string>)
      requires Valid()
      ensures Truthy(email) && OtherHolder(id, ByEmail(email.value)) ==> err == Some("Email already exists")
      ensures !(Truthy(email) && OtherHolder(id, ByEmail(email.value))) && Truthy(phone) && OtherHolder(id, ByPhone(phone.value)) ==>
                err == Some("Phone number already exists")
      ensures err.None? <==> !(Truthy(email) && OtherHolder(id, ByEmail(email.value))) && !(Truthy(phone) && OtherHolder(id, ByPhone(phone.value)))
    {
      if Truthy(email) {
        var holder := Find(ByEmail(email.value));
        if holder.Some? && holder.value != id {
          return Some("Email already exists");
        }
      }
      if Truthy(phone) {
        var holder := Find(ByPhone(phone.value));
        if holder.Some? && holder.value != id {
          return Some("Phone number already exists");
        }
      }
      err := None;
    }

    /** A user other than `id` holds the contact. */
    ghost predicate OtherHolder(id: UserId, c: Contact)
      reads this
    {
      Holder(c).Some? && Holder(c).value != id
    }

    /** An update whose new e-mail and phone are held by nobody else keeps the store valid. */
    lemma KeepsOwnContacts(id: UserId, args: UpdateArgs, updated: User)
      requires Valid() && id in users && updated.id == id
      requires updated.email == (if args.email.Some? then args.email else users[id].email)
      requires updated.phone == (if args.phone.Some? then args.phone else users[id].phone)
      requires Truthy(args.email) ==> !OtherHolder(id, ByEmail(args.email.value))
      requires Truthy(args.phone) ==> !OtherHolder(id, ByPhone(args.phone.value))
      ensures Wellformed(users[id := updated])
    {
      if Truthy(args.email) { HeldOnlyBy(users, id, ByEmail(args.email.value)); }
      if Truthy(args.phone) { HeldOnlyBy(users, id, ByPhone(args.phone.value)); }
      ReplaceKeepsWellformed(users, id, updated);
    }

    /** updateUser as written: the record it reads is the envelope of getUserById, so the
        verified list it copies is always empty and every successful update writes an
        empty verified list, whatever the arguments held. A new e-mail or phone held by
        another user is refused. */
    method UpdateUser(args: UpdateArgs) returns (r: Result<Envelope<User>>)
      requires Valid()
      modifies this
      ensures Valid()
      ensures !Truthy(args.id) ==> r == Failure("Id is required") && users == old(users)
      ensures Truthy(args.id) && args.id.value !in old(users) ==> r == Failure("User not found") && users == old(users)
      ensures Truthy(args.id) && args.id.value in old(users) ==>
        var id := args.id.value;
        if Truthy(args.email) && old(OtherHolder(id, ByEmail(args.email.value))) then
          r == Failure("Email already exists") && users == old(users)
        else if Truthy(args.phone) && old(OtherHolder(id, ByPhone(args.phone.value))) then
          r == Failure("Phone number already exists") && users == old(users)
        else
          && users == old(users)[id := ApplyUpdate(old(users)[id], args.(verified := Some([])))]
          && r == Success(Envelope(true, "User updated successfully", Present(users[id])))
      ensures r.Success? ==> users[args.id.value].verified == Some([])
    {
      var fetched := GetUserById(args.id);
      if fetched.Failure? {
        return Failure(fetched.error);
      }
      var id := args.id.value;
      // The envelope has no `verified`, `email` or `phone` of its own.
      var existingVerified: Option<seq<Channel>> := None;
      var existingEmail: Option<string> := None;
      var existingPhone: Option<string> := None;
      var clash := ContactClash(id, args.email, args.phone);
      if clash.Some? {
        return Failure(clash.value);
      }
      var verified := PruneVerified(existingVerified,
                                    Truthy(args.email) && args.email != existingEmail,
                                    Truthy(args.phone) && args.phone != existingPhone);
      assert verified == [] by {
        assert multiset(verified) == multiset{};
      }
      var updated := ApplyUpdate(users[id], args.(verified := Some(verified)));
      KeepsOwnContacts(id, args, updated);
      users := users[id := updated];
      r := Success(Envelope(true, "User updated successfully", Present(updated)));
    }

    /** updateUser as evidently intended: the verified list of the stored record loses
        the channel of a contact that actually changes and keeps every other channel. */
    method UpdateUserIntended(args: UpdateArgs) returns (r: Result<Envelope<User>>)
      requires Valid()
      modifies this
      ensures Valid()
      ensures r.Failure? ==> users == old(users)
      ensures r.Success? ==> Truthy(args.id) && args.id.value in old(users) && users.Keys == old(users).Keys
      ensures r.Success? ==>
        && users == old(users)[args.id.value := ApplyUpdate(old(users)[args.id.value], args.(verified := users[args.id.value].verified))]
        && users[args.id.value].verified.Some?
        && ChannelsFollowContacts(old(users)[args.id.value], args, VerifiedList(users[args.id.value]))
    ensures r.Success? ==>
      var before := old(users)[args.id.value];
      var base := VerifiedList(before);
      multiset(VerifiedList(users[args.id.value])) ==
        multiset(base) - Removed(base, EmailChannel, Truthy(args.email) && args.email != before.email)
                       - Removed(base, PhoneChannel, Truthy(args.phone) && args.phone != before.phone)
    {
      var fetched := GetUserById(args.id);
      if fetched.Failure? {
        return Failure(fetched.error);
      }
      var id := args.id.value;
      var existing := users[id];
      var clash := ContactClash(id, args.email, args.phone);
      if clash.Some? {
        return Failure(clash.value);
      }
      var verified := PruneVerified(existing.verified,
                                    Truthy(args.email) && args.email != existing.email,
                                    Truthy(args.phone) && args.phone != existing.phone);
      var updated := ApplyUpdate(existing, args.(verified := Some(verified)));
      assert ChannelsFollowContacts(existing, args, verified);
      assert VerifiedList(updated) == verified;
      KeepsOwnContacts(id, args, updated);
      users := users[id := updated];
      r := Success(Envelope(true, "User updated successfully", Present(updated)));
    }

    /** deleteUserById: removes an existing user. */
    method DeleteUserById(id: Option<string>) returns (r: Result<Envelope<()>>)
      requires Valid()
      modifies this
      ensures Valid()
      ensures !Truthy(id) ==> r == Failure("Id is required") && users == old(users)
      ensures Truthy(id) && id.value !in old(users) ==> r == Failure("User not found") && users == old(users)
      ensures Truthy(id) && id.value in old(users) ==>
                r == Success(Envelope(true, "User deleted successfully", Absent)) && users == old(users) - {id.value}
    {
      if !Truthy(id) {
        return Failure("Id is required");
      }
      if id.value !in users {
        return Failure("User not found");
      }
      users := users - {id.value};
      r := Success(Envelope(true, "User deleted successfully", Absent));
    }
  }
  /** Sign up with an e-mail and a password, log in, verify the e-mail with the code the
      login stored, and log in again: the first login yields no token and an empty
      verified list, the second a token for the new user and the list ["email"]. */
  method SignUpRoundTrip(s: Store, email: string, password: string, id: UserId, salt: string,
                         draw: nat, t0: int, t1: int, t2: int, t3: int)
    returns (first: Result<Envelope<Login>>, second: Result<Envelope<Login>>)
    requires s.Valid() && id !in s.users && SixDigitDraw(draw)
    requires email != "" && password != "" && s.Holder(ByEmail(email)).None?
    requires s.defaultStatus == Some("active")
    requires t1 <= t2 <= t1 + OtpLifetime
    modifies s
    ensures s.Valid()
    ensures first == Success(Envelope(true, "Please verify your account", Present(Login([], None))))
    ensures second == Success(Envelope(true, "Login successful",
              Present(Login([EmailChannel], Some(Signed(id, Some(email), None, Some(UserRole)))))))
  {
    var created := s.CreateUser(SignUp(None, Some(email), None, Some(password), Some(UserRole)), id, salt, draw, t0);
    ghost var registered := s.users[id];
    assert registered.verified == Some([]) && registered.email == Some(email);
    HolderUnique(s.users, id, ByEmail(email));
    first := s.GetUserToken(Some(email), None, Some(password), t1);
    ghost var pending := s.users[id];
    assert pending == WithOtp(registered, PlaceholderOtp, t1);
    HolderUnique(s.users, id, ByEmail(email));
    var verified := s.VerifyOtp(Some(email), None, Some(PlaceholderOtp), t2);
    assert s.users[id] == MarkVerified(pending, EmailChannel);
    assert VerifiedList(pending) == [];
    assert s.PasswordMatches(s.users[id], password);
    assert VerifiedList(pending) + [EmailChannel] == [EmailChannel];
    assert s.users[id].verified == Some([EmailChannel]);
    assert GenerateToken(Some(s.users[id])) == Success(Signed(id, Some(email), None, Some(UserRole)));
    HolderUnique(s.users, id, ByEmail(email));
    second := s.GetUserToken(Some(email), None, Some(password), t3);
  }
}
