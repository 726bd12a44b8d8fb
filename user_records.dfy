/** The user record of backend/user/datasource.js, reduced to the fields the
    verification, credential and token rules read and write, together with the pure
    rules over one record: one-time codes, the guard chains, the token gate and the
    pruning of the verified-channel list. */
module UserRecords {
  import opened Common

  type UserId = string

  /** A contact channel that can be verified. */
  datatype Channel = EmailChannel | PhoneChannel {
    /** The string stored in `verified` and used in messages. */
    function Name(): (s: string)
      ensures s == "email" || s == "phone"
    {
      if EmailChannel? then "email" else "phone"
    }
  }

  /** How an operation finds its user: `email` wins over `phone` when both are given. */
  datatype Contact = ByEmail(email: string) | ByPhone(phone: string) {
    function Channel(): Channel {
      if ByEmail? then EmailChannel else PhoneChannel
    }
    function Value(): string {
      if ByEmail? then email else phone
    }
  }

  /** `if (email) … else if (phone) … else throw`: the contact an operation looks up. */
  function ContactOf(email: Option<string>, phone: Option<string>): (c: Option<Contact>)
    ensures c.None? <==> !Truthy(email) && !Truthy(phone)
    ensures Truthy(email) ==> c == Some(ByEmail(email.value))
    ensures !Truthy(email) && Truthy(phone) ==> c == Some(ByPhone(phone.value))
    ensures c.Some? ==> c.value.Value() != ""
  {
    if Truthy(email) then Some(ByEmail(email.value))
    else if Truthy(phone) then Some(ByPhone(phone.value))
    else None
  }

  /** A persisted user. A missing field (None) is `undefined` or `null` in the document. */
  datatype User = User(
    id: UserId,
    firstName: Option<string>,
    email: Option<string>,
    phone: Option<string>,
    role: Option<string>,
    accountStatus: Option<string>,
    salt: Option<string>,
    password: Option<string>,
    verified: Option<seq<Channel>>,
    otp: Option<string>,
    otpExpiry: Option<int>,
    otpCreatedAt: Option<int>,
    verificationAttempts: Option<int>)

  predicate HasContact(u: User, c: Contact) {
    match c
    case ByEmail(e) => u.email == Some(e)
    case ByPhone(p) => u.phone == Some(p)
  }

  /** The verified list, with a missing list read as empty. */
  function VerifiedList(u: User): seq<Channel> {
    if u.verified.Some? then u.verified.value else []
  }

  /** `user.verified?.includes(type)`. */
  predicate AlreadyVerified(u: User, ch: Channel) {
    u.verified.Some? && ch in u.verified.value
  }

  // ---------------------------------------------------------------- constants

  /** Lifetime of an issued code: one hour in milliseconds. */
  const OtpLifetime := 3600000
  /** Minimum interval between two resends: one minute. */
  const MinResendDelay := 60000
  /** forgotPassword leaves a code alone while it has more than five minutes to live. */
  const ForgotPasswordSlack := 300000
  /** The code getUserToken stores for an unverified user. */
  const PlaceholderOtp := "000000"

  // ---------------------------------------------------------------- codes

  predicate IsDigit(c: char) {
    '0' <= c <= '9'
  }

  function Digit(d: nat): (c: char)
    requires d < 10
    ensures IsDigit(c)
  {
    "0123456789"[d]
  }

  /** `n.toString()` for a non-negative integer. */
  function Decimal(n: nat): (s: string)
    ensures |s| >= 1
    ensures forall i :: 0 <= i < |s| ==> IsDigit(s[i])
  {
    if n < 10 then [Digit(n)] else Decimal(n / 10) + [Digit(n % 10)]
  }

  function Pow10(k: nat): (p: nat)
    ensures p >= 1
  {
    if k == 0 then 1 else 10 * Pow10(k - 1)
  }

  /** A number with k decimal digits prints as k characters. */
  lemma {:induction false} DecimalLength(n: nat, k: nat)
    requires 1 <= k && Pow10(k - 1) <= n < Pow10(k)
    ensures |Decimal(n)| == k
  {
    if k > 1 {
      assert Pow10(k - 1) == 10 * Pow10(k - 2);
      assert Pow10(k) == 10 * Pow10(k - 1);
      assert n >= 10;
      DecimalLength(n / 10, k - 1);
    }
  }

  /** `.replace(/\d/g, "0")`: every decimal digit becomes '0'. */
  function Zeroed(s: string): (r: string)
    ensures |r| == |s|
    ensures forall i :: 0 <= i < |s| ==> r[i] == (if IsDigit(s[i]) then '0' else s[i])
  {
    seq(|s|, i requires 0 <= i < |s| => if IsDigit(s[i]) then '0' else s[i])
  }

  /** `Math.floor(100000 + Math.random() * 900000)`: the drawn integer `n`. */
  predicate SixDigitDraw(n: nat) {
    100000 <= n <= 999999
  }

  /** A random code as verifyUser sends it by email. */
  function RandomCode(n: nat): (code: string)
    requires SixDigitDraw(n)
    ensures |code| == 6 && forall i :: 0 <= i < 6 ==> IsDigit(code[i])
  {
    assert Pow10(5) == 100000 by {
      assert Pow10(1) == 10 && Pow10(2) == 100 && Pow10(3) == 1000 && Pow10(4) == 10000;
    }
    assert Pow10(6) == 1000000;
    DecimalLength(n, 6);
    Decimal(n)
  }

  /** The random code with every digit replaced by '0'. */
  function ZeroedCode(n: nat): (code: string)
    requires SixDigitDraw(n)
  {
    Zeroed(RandomCode(n))
  }

  /** Whatever was drawn, a zeroed code is "000000": the code is predictable. */
  lemma ZeroedCodeIsConstant(n: nat)
    requires SixDigitDraw(n)
    ensures ZeroedCode(n) == "000000"
    ensures ZeroedCode(n) == PlaceholderOtp
  {
    var code := ZeroedCode(n);
    assert forall i :: 0 <= i < 6 ==> code[i] == '0';
  }

  // ---------------------------------------------------------------- token

  /** The claims `JWT.sign` puts in a token; the signature itself is not modelled. */
  datatype Token = Signed(id: UserId, email: Option<string>, phone: Option<string>, role: Option<string>)

  /** generateToken: refuses a missing user, a missing verified list and an inactive
      account, in that order, and signs the user's identity only when all three pass.
      Any array, even an empty one, counts as verified here. */
  function GenerateToken(user: Option<User>): (r: Result<Token>)
    ensures r.Success? <==> user.Some? && user.value.verified.Some? && user.value.accountStatus == Some("active")
    ensures user.None? ==> r == Failure("User not found")
    ensures user.Some? && user.value.verified.None? ==> r == Failure("User not verified")
    ensures user.Some? && user.value.verified.Some? && r.Failure? ==> r == Failure("User not active")
    ensures r.Success? ==> (r.value.id == user.value.id && r.value.email == user.value.email &&
                            r.value.phone == user.value.phone && r.value.role == user.value.role)
  {
    if user.None? then Failure("User not found")
    else if user.value.verified.None? then Failure("User not verified")
    else if user.value.accountStatus != Some("active") then Failure("User not active")
    else Success(Signed(user.value.id, user.value.email, user.value.phone, user.value.role))
  }

  /** The token gate only asks for a verified list, not a non-empty one: an active
      user who has verified nothing still gets a token from it. */
  lemma EmptyVerifiedStillSigned(u: User)
    requires u.verified == Some([]) && u.accountStatus == Some("active")
    ensures GenerateToken(Some(u)).Success?
  {
  }

  // ---------------------------------------------------------------- guards

  /** `user.otp_expiry < Date.now()`. */
  predicate Expired(u: User, now: int) {
    NumberOrZero(u.otpExpiry) < now
  }

  /** The record checks of verifyOtp, in source order: channel already verified, wrong
      code, expired code. None means the code is accepted. */
  function CheckOtp(u: User, ch: Channel, otp: string, now: int): (r: Option<string>)
    ensures r.None? <==> !AlreadyVerified(u, ch) && u.otp == Some(otp) && now <= NumberOrZero(u.otpExpiry)
    ensures AlreadyVerified(u, ch) ==> r == Some(ch.Name() + " already verified")
    ensures !AlreadyVerified(u, ch) && u.otp != Some(otp) ==> r == Some("Invalid OTP")
    ensures !AlreadyVerified(u, ch) && u.otp == Some(otp) && r.Some? ==> r == Some("OTP expired")
  {
    if AlreadyVerified(u, ch) then Some(ch.Name() + " already verified")
    else if u.otp != Some(otp) then Some("Invalid OTP")
    else if Expired(u, now) then Some("OTP expired")
    else None
  }

  /** The record checks of resetPassword: wrong code, then expired code. */
  function CheckResetOtp(u: User, otp: string, now: int): (r: Option<string>)
    ensures r.None? <==> u.otp == Some(otp) && now <= NumberOrZero(u.otpExpiry)
    ensures u.otp != Some(otp) ==> r == Some("Invalid OTP")
    ensures u.otp == Some(otp) && r.Some? ==> r == Some("OTP expired")
  {
    if u.otp != Some(otp) then Some("Invalid OTP")
    else if Expired(u, now) then Some("OTP expired")
    else None
  }

  /** The record checks of resendOTP: any verified array, even an empty one, refuses;
      a code issued less than a minute ago refuses (a creation time of 0 or none
      does not throttle). */
  function CheckResend(u: User, now: int): (r: Option<string>)
    ensures r.None? <==> u.verified.None? && !(NumberTruthy(u.otpCreatedAt) && now - u.otpCreatedAt.value < MinResendDelay)
    ensures u.verified.Some? ==> r == Some("User already verified")
    ensures u.verified.None? && r.Some? ==> r == Some("Please wait before requesting a new OTP")
  {
    if u.verified.Some? then Some("User already verified")
    else if NumberTruthy(u.otpCreatedAt) && now - u.otpCreatedAt.value < MinResendDelay then
      Some("Please wait before requesting a new OTP")
    else None
  }

  /** `user.otp_expiry > Date.now() + 300000`: forgotPassword keeps the current code. */
  predicate CodeStillFresh(u: User, now: int) {
    NumberOrZero(u.otpExpiry) > now + ForgotPasswordSlack
  }

  // ---------------------------------------------------------------- record updates

  /** The `findByIdAndUpdate` of a newly issued code. */
  function WithOtp(u: User, code: string, now: int): (v: User)
  {
    u.(otp := Some(code), otpExpiry := Some(now + OtpLifetime))
  }

  /** The `findByIdAndUpdate` of resendOTP: code, expiry, creation time, attempts reset. */
  function WithResentOtp(u: User, code: string, now: int): (v: User)
  {
    WithOtp(u, code, now).(otpCreatedAt := Some(now), verificationAttempts := Some(0))
  }

  /** The `findByIdAndUpdate` of a successful verifyOtp: `$push` the channel (creating the
      list if missing) and clear the code state. */
  function MarkVerified(u: User, ch: Channel): (v: User)
  {
    u.(verified := Some(VerifiedList(u) + [ch]), otp := None, otpExpiry := None,
       otpCreatedAt := None, verificationAttempts := Some(0))
  }

  /** A code is accepted until the end of its lifetime and not a millisecond later. */
  lemma IssuedCodeWindow(u: User, ch: Channel, code: string, issuedAt: int, now: int)
    ensures CheckOtp(WithOtp(u, code, issuedAt), ch, code, now).None?
        <==> !AlreadyVerified(u, ch) && now <= issuedAt + OtpLifetime
  {
  }

  /** After a successful verification the channel is verified, every other channel
      keeps its state, and no code at all is accepted any more. */
  lemma {:induction false} VerificationIsFinal(u: User, ch: Channel, other: Channel, otp: string, now: int)
    ensures AlreadyVerified(MarkVerified(u, ch), ch)
    ensures other != ch ==> (AlreadyVerified(MarkVerified(u, ch), other) <==> other in VerifiedList(u))
    ensures CheckOtp(MarkVerified(u, ch), other, otp, now).Some?
    ensures CheckResetOtp(MarkVerified(u, ch), otp, now).Some?
  {
    var v := MarkVerified(u, ch);
    assert v.verified.value == VerifiedList(u) + [ch];
    assert v.verified.value[|VerifiedList(u)|] == ch;
  }

  /** Two resends inside a minute: the second is refused. */
  lemma ResendThrottled(u: User, code: string, issuedAt: int, now: int)
    requires u.verified.None? && issuedAt != 0
    requires issuedAt <= now < issuedAt + MinResendDelay
    ensures CheckResend(WithResentOtp(u, code, issuedAt), now) == Some("Please wait before requesting a new OTP")
  {
  }

  // ---------------------------------------------------------------- verified pruning

  /** `verified.indexOf(c)`. */
  function IndexOf(s: seq<Channel>, c: Channel): (i: int)
    ensures -1 <= i < |s|
    ensures i == -1 <==> c !in s
    ensures i >= 0 ==> s[i] == c && c !in s[..i]
  {
    if s == [] then -1
    else if s[0] == c then 0
    else
      var j := IndexOf(s[1..], c);
      assert s[1..][..j + 1] == s[1..j + 2];
      if j == -1 then -1 else j + 1
  }

  predicate NoDuplicates(s: seq<Channel>) {
    forall i, j :: 0 <= i < j < |s| ==> s[i] != s[j]
  }

  /** What removing the first occurrence of `c` takes out of a list. */
  function Removed(s: seq<Channel>, c: Channel, changed: bool): multiset<Channel> {
    if changed && c in s then multiset{c} else multiset{}
  }

  /** The verified-list rule of updateUser: copy the list (none reads as empty), then
      drop the first "email" when the email changes and the first "phone" when the
      phone changes, leaving everything else in place. */
  method PruneVerified(current: Option<seq<Channel>>, emailChanged: bool, phoneChanged: bool)
    returns (verified: seq<Channel>)
    ensures var base := if current.Some? then current.value else [];
      multiset(verified) == multiset(base) - Removed(base, EmailChannel, emailChanged)
                                           - Removed(base, PhoneChannel, phoneChanged)
    ensures var base := if current.Some? then current.value else [];
      NoDuplicates(base) ==>
        (EmailChannel in verified <==> EmailChannel in base && !emailChanged) &&
        (PhoneChannel in verified <==> PhoneChannel in base && !phoneChanged)
  {
    var base := if current.Some? then current.value else [];
    verified := base;
    if emailChanged {
      var index := IndexOf(verified, EmailChannel);
      if index != -1 {
        SpliceMultiset(verified, index);
        verified := verified[..index] + verified[index + 1..];
      }
    }
    assert multiset(verified) == multiset(base) - Removed(base, EmailChannel, emailChanged);
    ghost var afterEmail := verified;
    if phoneChanged {
      var index := IndexOf(verified, PhoneChannel);
      if index != -1 {
        SpliceMultiset(verified, index);
        verified := verified[..index] + verified[index + 1..];
      }
    }
    assert PhoneChannel in afterEmail <==> PhoneChannel in base by {
      assert PhoneChannel in afterEmail <==> PhoneChannel in multiset(afterEmail);
      assert PhoneChannel in base <==> PhoneChannel in multiset(base);
    }
    assert multiset(verified) == multiset(afterEmail) - Removed(base, PhoneChannel, phoneChanged);
    if NoDuplicates(base) {
      PrunedMembership(base, verified, emailChanged, phoneChanged);
    }
  }

  /** `s.splice(i, 1)` takes exactly the element at `i` out of the list. */
  lemma SpliceMultiset(s: seq<Channel>, i: int)
    requires 0 <= i < |s|
    ensures multiset(s[..i] + s[i + 1..]) == multiset(s) - multiset{s[i]}
  {
    assert s == s[..i] + [s[i]] + s[i + 1..];
  }

  lemma PrunedMembership(base: seq<Channel>, pruned: seq<Channel>, emailChanged: bool, phoneChanged: bool)
    requires NoDuplicates(base)
    requires multiset(pruned) == multiset(base) - Removed(base, EmailChannel, emailChanged)
                                               - Removed(base, PhoneChannel, phoneChanged)
    ensures EmailChannel in pruned <==> EmailChannel in base && !emailChanged
    ensures PhoneChannel in pruned <==> PhoneChannel in base && !phoneChanged
  {
    CountAtMostOne(base, EmailChannel);
    CountAtMostOne(base, PhoneChannel);
    assert EmailChannel in pruned <==> EmailChannel in multiset(pruned);
    assert PhoneChannel in pruned <==> PhoneChannel in multiset(pruned);
    assert EmailChannel in base <==> EmailChannel in multiset(base);
    assert PhoneChannel in base <==> PhoneChannel in multiset(base);
  }

  lemma {:induction false} CountAtMostOne(s: seq<Channel>, c: Channel)
    requires NoDuplicates(s)
    ensures multiset(s)[c] <= 1
  {
    if s != [] {
      assert s == [s[0]] + s[1..];
      CountAtMostOne(s[1..], c);
      if s[0] == c {
        assert c !in s[1..];
        assert multiset(s[1..])[c] == 0;
      }
    }
  }

  // ---------------------------------------------------------------- update arguments

  /** The arguments of updateUser that reach the record. */
  datatype UpdateArgs = UpdateArgs(
    id: Option<string>,
    firstName: Option<string>,
    email: Option<string>,
    phone: Option<string>,
    password: Option<string>,
    role: Option<string>,
    accountStatus: Option<string>,
    verified: Option<seq<Channel>>)

  function Overwrite<T>(field: Option<T>, arg: Option<T>): Option<T> {
    if arg.Some? then arg else field
  }

  /** `findByIdAndUpdate(id, args)`: every supplied argument overwrites its field, the
      password verbatim (it is not hashed). */
  function ApplyUpdate(u: User, args: UpdateArgs): (v: User)
    ensures v.id == u.id && v.salt == u.salt
    ensures v.otp == u.otp && v.otpExpiry == u.otpExpiry
    ensures v.otpCreatedAt == u.otpCreatedAt && v.verificationAttempts == u.verificationAttempts
    ensures (args.firstName.Some? ==> v.firstName == args.firstName) && (args.firstName.None? ==> v.firstName == u.firstName)
    ensures (args.email.Some? ==> v.email == args.email) && (args.email.None? ==> v.email == u.email)
    ensures (args.phone.Some? ==> v.phone == args.phone) && (args.phone.None? ==> v.phone == u.phone)
    ensures (args.password.Some? ==> v.password == args.password) && (args.password.None? ==> v.password == u.password)
    ensures (args.role.Some? ==> v.role == args.role) && (args.role.None? ==> v.role == u.role)
    ensures (args.accountStatus.Some? ==> v.accountStatus == args.accountStatus) &&
            (args.accountStatus.None? ==> v.accountStatus == u.accountStatus)
    ensures (args.verified.Some? ==> v.verified == args.verified) && (args.verified.None? ==> v.verified == u.verified)
  {
    u.(firstName := Overwrite(u.firstName, args.firstName),
       email := Overwrite(u.email, args.email),
       phone := Overwrite(u.phone, args.phone),
       password := Overwrite(u.password, args.password),
       role := Overwrite(u.role, args.role),
       accountStatus := Overwrite(u.accountStatus, args.accountStatus),
       verified := Overwrite(u.verified, args.verified))
  }
}
