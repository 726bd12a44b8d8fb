# blink-graphql user and chat core, modelled in Dafny

This project models the account and messaging core of the blink-graphql backend, a GraphQL
server over MongoDB. It covers four areas:

* **Account lifecycle** (`backend/user/datasource.js`): sign-up, one-time codes (OTP) sent by
  e-mail or pinned to `"000000"` for phones, login with a signed token, password reset and change,
  profile update and deletion. The user collection is a `class Store` whose field
  `users: map<UserId, User>` the operations reassign. Its invariant `Valid()` says that every
  stored record sits under its own id and that no two users share a non-empty e-mail or phone.
* **User listing** (`getAllUsers`): the loop that builds the Mongo filter from a list of
  `filters`, the sort, skip and limit, and the `pageInfo` arithmetic.
* **Guards in front of the service.** These are the GraphQL resolvers (`backend/user/resolvers.js`)
  and the permission gate `authorize(permission)(resolver)` (`backend/authorize.js`) with its
  role table (`backend/roles.js`).
* **Conversations** (`backend/chat/datasource.js`). This covers filling in missing conversation
  ids in place (`class MessageStore`, a `seq` of messages), grouping messages into threads with an
  unread count and the newest thread first, and listing the messages of a conversation.

The model keeps the code's behaviour as written, including three quirks:

* The permission table only knows the role `"user"`, so an `admin` never passes the gate
  (`Authorize.AdminRejected`).
* Any stored `verified` array is truthy in `resendOTP`. A user created with the default empty
  list can therefore never get a new code ("User already verified").
* `updateUser` and `changePassword` read fields off the envelope that `getUserById` returns,
  not off the user. See "Findings".

Error paths are values: the service functions return `Result<Envelope<…>>`, where a `Failure`
carries the exception message. The resolvers turn that into `{ success: false, message }`.
JavaScript truthiness (`Truthy`, `NumberTruthy`) and `x || 0` (`NumberOrZero`) are written out.

Values from outside the code are parameters:
* the clock is `now`;
* `Math.random` is a `draw` known to give a six-digit number;
* a generated id or salt is an argument;
* the e-mail sender's outcome is `sent`;
* `createHmac` is the store's `hash` function;
* `JWT.sign` is the `Token` datatype of the signed claims.

## Model

| member | source | states |
|---|---|---|
| Authorize.PermissionsOf | backend/authorize.js:14 | `permissions[role] \|\| []`: the role `"user"` gets the table's list (backend/roles.js); a role naming an inherited `Object.prototype` member gets no list at all; every other role, or none, gets the empty list |
| Authorize.Check | backend/authorize.js:8-18 | access is allowed iff there is a caller whose role's list holds the permission; otherwise "Not authenticated" without a caller, the `includes` TypeError for an inherited-member role, and "Not authorized" for any other role |
| Authorize.Wrap | backend/authorize.js:3-7 | wrapping fails with "Missing required permission" iff the permission is falsy; otherwise it keeps the permission and resolver |
| Authorize.Invoke | backend/authorize.js:8-21 | the resolver runs iff the caller's role grants the permission, and then its result is returned unchanged; the three refusals ("Not authenticated", the TypeError, "Not authorized") carry their messages |
| Authorize.UnknownRoleRejected | backend/authorize.js:14-18 | a caller whose role is missing, or is neither in the table nor an inherited member name, is refused "Not authorized" |
| Authorize.InheritedRoleThrows | backend/authorize.js:14-16 | a caller whose role is `"constructor"`, `"toString"`, `"__proto__"` or another inherited member name makes the gate throw "userPermissions.includes is not a function" |
| Authorize.AdminRejected | backend/authorize.js:14-18 | a caller with role `admin` is refused "Not authorized" by every gate |
| Authorize.DecisionIgnoresArgs | backend/authorize.js:8-18 | the gate's decision depends only on whether there is a caller and on their role, never on the arguments |
| Common.NumberOrZero | backend/user/datasource.js:117 | `limit \|\| 0`: the number when present, else 0 |
| Ordering.SortedPair | backend/chat/datasource.js:19-21 | the two ids in ascending character order, as a set equal to the input (JavaScript's default sort agrees on the hex ids it receives) |
| Ordering.StrLessTrichotomy | backend/chat/datasource.js:21 | the string order is strict and total on distinct strings |
| Ordering.SortedPairSymmetric | backend/chat/datasource.js:19-21 | sorting a pair does not depend on which id came first |
| Ordering.SortBy | backend/chat/datasource.js:108 | the Mongo `$sort` result: ascending by key, and a permutation of the input |
| Ordering.SortKeepsDistinct | backend/chat/datasource.js:61 | sorting keeps the entries' ids distinct |
| Ordering.SortSameElements | backend/chat/datasource.js:61 | sorting keeps exactly the same elements |
| UserRecords.ContactOf | backend/user/datasource.js:240-252 | the lookup key is the e-mail when truthy, else the phone when truthy, else there is none |
| UserRecords.Decimal | backend/user/datasource.js:259 | `toString()` of a number gives at least one digit, all digits |
| UserRecords.DecimalLength | backend/user/datasource.js:259 | a number in [10^(k-1), 10^k) has exactly k decimal digits |
| UserRecords.RandomCode | backend/user/datasource.js:259 | the drawn code has exactly six digits |
| UserRecords.Zeroed | backend/user/datasource.js:263 | `replace(/\d/g, "0")` keeps the length and turns every digit into `'0'` |
| UserRecords.ZeroedCodeIsConstant | backend/user/datasource.js:259-264 | a phone code is always `"000000"`, whatever the draw |
| UserRecords.GenerateToken | backend/user/datasource.js:14-30 | a token is signed iff the user exists, has a `verified` field and is active; it carries the user's id, e-mail, phone and role; each refusal carries its message |
| UserRecords.EmptyVerifiedStillSigned | backend/user/datasource.js:17 | an active user with an empty `verified` array still gets a token, because an array is truthy |
| UserRecords.CheckOtp | backend/user/datasource.js:307-312 | a code is accepted iff the channel is not yet verified, the code matches and it has not expired; otherwise "already verified", "Invalid OTP" or "OTP expired", in that order |
| UserRecords.CheckResetOtp | backend/user/datasource.js:566-568 | a reset code is accepted iff it matches and has not expired |
| UserRecords.CheckResend | backend/user/datasource.js:354-361 | a resend is allowed iff the user has no `verified` field and no code was resent within the last minute (only `resendOTP` sets `otp_created_at`) |
| UserRecords.IssuedCodeWindow | backend/user/datasource.js:259-312 | a code just stored for an unverified channel is accepted at any time up to one hour later |
| UserRecords.VerificationIsFinal | backend/user/datasource.js:314-323 | after a channel is verified, it stays verified, other channels keep their status, and the cleared code accepts neither a verification nor a reset |
| UserRecords.ResendThrottled | backend/user/datasource.js:356-375 | within a minute of a resend, the next resend is refused "Please wait before requesting a new OTP" |
| UserRecords.IndexOf | backend/user/datasource.js:414 | `indexOf`: -1 iff absent, else the first position of the value |
| UserRecords.PruneVerified | backend/user/datasource.js:395-421 | the new list is the old one minus one "email" when the e-mail changes and minus one "phone" when the phone changes; with no duplicates, a channel stays iff it was there and its contact did not change |
| UserRecords.SpliceMultiset | backend/user/datasource.js:415 | `splice(index, 1)` removes exactly that element |
| UserRecords.PrunedMembership | backend/user/datasource.js:412-421 | after pruning, "email" and "phone" are listed iff they were listed and their contact is unchanged |
| UserRecords.CountAtMostOne | backend/user/datasource.js:414-420 | a list without duplicates holds each channel at most once |
| UserRecords.ApplyUpdate | backend/user/datasource.js:423-432 | `findByIdAndUpdate(id, args)`: each given field (first name, e-mail, phone, password, role, status, `verified`) is written, each field not given keeps its value, and the id, salt, code, expiry, issue time and attempt count are kept |
| UserStore.VerificationCode | backend/user/datasource.js:259-264 | the code is six characters, and `"000000"` for the phone channel |
| UserStore.HolderUnique | backend/user/datasource.js:151-159 | in a valid store, the user holding a non-empty contact is the only holder, so `findOne` finds them |
| UserStore.HeldOnlyBy | backend/user/datasource.js:401-411 | if nobody else holds a contact, no other user has it |
| UserStore.ReplaceKeepsWellformed | backend/user/datasource.js:423-432 | replacing a record with one whose contacts nobody else holds keeps the store valid |
| UserStore.Store.constructor | backend/user/datasource.js:1 | a new user collection is empty and valid |
| UserStore.Store.Find | backend/user/datasource.js:151-159 | `getUserByEmail` / `getUserByPhone` return the holder of the contact, or none |
| UserStore.Store.HashWith | backend/user/datasource.js:7-12 | hashing fails with Node's `createHmac` message iff the salt is undefined |
| UserStore.Store.Registered | backend/user/datasource.js:186-216 | the new record keeps the sign-up fields, the password matches when one was given, `verified` is `[]`, the status is the schema default, and a `"000000"` code is valid for an hour |
| UserStore.Store.WithNewPassword | backend/user/datasource.js:569-578 | the new password matches, the code is cleared, and nothing else changes |
| UserStore.Store.GetUserById | backend/user/datasource.js:160-173 | "Id is required" for a falsy id, "User not found" for an unknown one, else the user in an envelope |
| UserStore.Store.CreateUser | backend/user/datasource.js:174-237 | a taken phone, then a taken e-mail, is refused with no change; otherwise exactly the registered record is added under the fresh id, and the store stays valid |
| UserStore.Store.VerifyUser | backend/user/datasource.js:238-285 | refuses a missing contact, an unknown user or an already verified channel with no change; otherwise the new code is stored, and success is reported iff the channel is the phone or the e-mail was sent |
| UserStore.Store.VerifyOtp | backend/user/datasource.js:287-341 | refusals (no code, no contact, unknown user, the `CheckOtp` refusals) change nothing; an accepted code marks the channel verified and clears the code, and nothing else changes |
| UserStore.Store.ResendOtp | backend/user/datasource.js:343-387 | an unknown user fails with the `null` TypeError; a refused resend changes nothing; otherwise a `"000000"` code and its issue time are stored and returned |
| UserStore.Store.GetUserToken | backend/user/datasource.js:440-502 | checks the contact, user and password; a user with nothing verified gets a fresh `"000000"` code and no token; otherwise the `GenerateToken` outcome with no change. A token is only ever returned to a stored user with a non-empty `verified` list |
| UserStore.Store.ResendVerificationEmail | backend/user/datasource.js:504-526 | an unknown e-mail is refused with no change; otherwise a `"000000"` code valid for an hour replaces the old one |
| UserStore.Store.ForgotPassword | backend/user/datasource.js:528-559 | an unknown e-mail is refused; a code with more than five minutes left is kept ("OTP sent already"); otherwise a `"000000"` code valid for an hour is stored |
| UserStore.Store.ResetPassword | backend/user/datasource.js:561-590 | an unknown e-mail, a wrong code or an expired code is refused with no change; otherwise the new password matches and the code is cleared |
| UserStore.Store.ChangePassword | backend/user/datasource.js:592-617 | as written it always fails: "Id is required", "User not found", or the `createHmac` error from reading `salt` off the envelope |
| UserStore.Store.ChangePasswordIntended | backend/user/datasource.js:592-617 | succeeds iff the user exists and the old password matches; afterwards the new password matches and nothing else changes; a failure changes nothing |
| UserStore.Store.ContactClash | backend/user/datasource.js:401-411 | "Email already exists" iff another user holds the new e-mail, then "Phone number already exists" iff another holds the new phone |
| UserStore.Store.KeepsOwnContacts | backend/user/datasource.js:401-432 | an update that passed the clash checks keeps the store valid |
| UserStore.Store.UpdateUser | backend/user/datasource.js:389-438 | as written: refusals change nothing; on success, the arguments are applied and `verified` always becomes `[]` |
| UserStore.Store.UpdateUserIntended | backend/user/datasource.js:389-438 | the arguments are applied; the new `verified` list is the old one minus one "email" when the e-mail changes and minus one "phone" when the phone changes (as multisets), so for a list without repeats a channel is dropped exactly when its contact changed |
| UserStore.Store.DeleteUserById | backend/user/datasource.js:619-632 | "Id is required" / "User not found" with no change; otherwise exactly that user is removed |
| UserStore.SignUpRoundTrip | backend/user/datasource.js:174-502 | sign-up, login ("Please verify your account", no token), verification of the e-mail with the `"000000"` code that the first login stored (nothing is mailed), and a second login yield a token for exactly that user with `verified == ["email"]` |
| UserListing.Lookup | backend/user/datasource.js:52-56 | reading `filters[key]` gives a value present under that key, or undefined when the key is absent |
| UserListing.SpanOf | backend/user/datasource.js:52-88 | only a string `dateRange` names a span |
| UserListing.Classify | backend/user/datasource.js:90-114 | undefined, null and `dateRange` are skipped; arrays become `$in` (ObjectIds for `skills`); a string on an exact-match field becomes equality and on any other field a case-insensitive pattern; numbers and booleans become equality |
| UserListing.DateCondition | backend/user/datasource.js:52-88 | a `created_at` range relative to `now` exists iff `dateRange` names a span |
| UserListing.SetByFilterGrows | backend/user/datasource.js:90-114 | a key once set by the loop stays set, and a classified key is set after its step |
| UserListing.BuildError | backend/user/datasource.js:104-109 | building an entry's condition throws only for a pattern, and then exactly the error `new RegExp(pattern, "i")` raises |
| UserListing.UnterminatedGroupFails | backend/user/datasource.js:104-109 | a `first_name` filter of `"("` is compiled as a pattern, so it fails with the RegExp error |
| UserListing.BuildFilter | backend/user/datasource.js:52-114 | fails iff some pattern does not compile, with the error of the first such entry in key order; otherwise every classified filter key holds its condition; no other key appears except the `created_at` range; an explicit `created_at` filter overrides the range; `dateRange` never appears |
| UserListing.SortOption | backend/user/datasource.js:37-116 | sort on the given field (default `created_at`): 1 iff the order is `asc` (the default), else -1 |
| UserListing.Skip | backend/user/datasource.js:117 | skip is 0 without a limit, and non-negative for a page >= 1 |
| UserListing.CeilDiv | backend/user/datasource.js:131 | `Math.ceil(a / b)` for either sign of `b` |
| UserListing.TotalPages | backend/user/datasource.js:131 | one page without a limit; otherwise the least number of pages holding every record |
| UserListing.PageInfoOf | backend/user/datasource.js:133-143 | `hasNextPage` iff the page is before the last, `hasPreviousPage` iff the page is after the first |
| UserListing.Window | backend/user/datasource.js:119-128 | `skip` then `limit` returns at most `\|limit\|` records from the matches |
| UserListing.WindowIsPage | backend/user/datasource.js:117-128 | page p with limit l holds exactly the records `(p-1)*l .. p*l`, clipped to the total |
| UserListing.HasNextIffMoreRecords | backend/user/datasource.js:131-139 | there is a next page iff records remain after this one |
| UserListing.PagesCoverRecords | backend/user/datasource.js:131 | every record falls on some page between 1 and `totalPages`, and the last page is not empty |
| UserListing.GetAllUsers | backend/user/datasource.js:32-149 | fails, before any query, iff some filter pattern does not compile, with the first such error; otherwise the query has the built filter, the sort, a skip only when positive and a limit only when truthy, and the response holds that window of the matches and its page info |
| UserListing.SecondPageOfTwentyFive | backend/user/datasource.js:116-143 | 25 records with limit 10 give records 10..19 on page 2, with 3 pages and both neighbours |
| UserResolvers.Caught | backend/user/resolvers.js:17-24 | a caught error becomes `{ success: false, message }`, with `data: null` where the resolver sets it |
| UserResolvers.Handle | backend/user/resolvers.js:6-26 | a guard's refusal or the service's error becomes that envelope; otherwise the service's envelope is returned unchanged |
| UserResolvers.GetUserByIdGuard | backend/user/resolvers.js:8-15 | passes iff there is a caller, the id is their own (or they are admin) and the id is truthy; each refusal has its message, in order |
| UserResolvers.GetUserByIdResolver | backend/user/resolvers.js:6-7 | the resolver sits behind the `GET_USER_BY_ID` permission |
| UserResolvers.GetAllUsersGuard | backend/user/resolvers.js:44-47 | passes iff there is a caller |
| UserResolvers.Stripped | backend/user/resolvers.js:65-70 | a falsy phone or e-mail is deleted from the arguments, and nothing else changes |
| UserResolvers.CreateUserGuard | backend/user/resolvers.js:73 | passes iff the role is truthy |
| UserResolvers.CreateUser | backend/user/resolvers.js:61-97 | without a role: "Role is required"; otherwise the service runs on the stripped arguments |
| UserResolvers.GetUserTokenGuard | backend/user/resolvers.js:101-110 | passes iff an e-mail or phone is given and any password has 8 to 20 characters |
| UserResolvers.UpdateUserGuard | backend/user/resolvers.js:122-141 | passes iff there is a caller, a truthy id that is their own (or they are admin), no role or status change unless admin, and any first name has 3 to 30 characters |
| UserResolvers.UpdateUserResolver | backend/user/resolvers.js:122 | the resolver sits behind the `UPDATE_USER` permission |
| UserResolvers.DeleteUserByIdGuard | backend/user/resolvers.js:154-159 | passes iff there is a caller and a truthy id that is their own (or they are admin) |
| UserResolvers.DeleteUserByIdResolver | backend/user/resolvers.js:152 | the resolver sits behind the `DELETE_USER_BY_ID` permission |
| UserResolvers.ContactGuard | backend/user/resolvers.js:188-216 | `verifyUser` / `verifyOtp` pass iff an e-mail or phone is given |
| UserResolvers.EmailGuard | backend/user/resolvers.js:217-241 | `resendVerificationEmail` / `forgotPassword` pass iff an e-mail is given |
| UserResolvers.EmailOnly | backend/user/resolvers.js:217-241 | without an e-mail the envelope says "Email is required"; a service error becomes its envelope |
| UserResolvers.ResetPasswordGuard | backend/user/resolvers.js:243-258 | passes iff e-mail, code, password and confirmation are given, match, and the password has 8 to 20 characters; each refusal has its message, in order |
| UserResolvers.ChangePasswordGuard | backend/user/resolvers.js:268-282 | passes iff there is a caller, an old password and a new password of 8 to 20 characters |
| UserResolvers.ChangePassword | backend/user/resolvers.js:268-294 | the service is called with the caller's own id, never an id from the arguments |
| UserResolvers.AdminCannotUpdate | backend/user/resolvers.js:122-141 | the admin branches of the update guard are unreachable: an admin is stopped by the gate |
| UserResolvers.GatePassersAreUsers | backend/user/resolvers.js:6-169 | whoever passes a gate has role `"user"` and is not admin |
| UserResolvers.CannotDeleteOthers | backend/user/resolvers.js:152-169 | a user deleting another user's id is refused "You are not authorized to delete this user" before the service runs |
| UserResolvers.OwnUpdateReachesDatasource | backend/user/resolvers.js:122-150 | a user updating their own record without role or status changes reaches the service |
| Chat.ConversationKey | backend/chat/datasource.js:18-22 | the generated id is never empty |
| Chat.KeySymmetric | backend/chat/datasource.js:19-22 | the id does not depend on which party sent the message |
| Chat.DashAt | backend/chat/datasource.js:18-22 | a dash-free prefix ends exactly where the first dash is |
| Chat.SameHead | backend/chat/datasource.js:18-22 | two ids with dash-free prefixes are equal only if the prefixes are |
| Chat.PrefixDecidesKey | backend/chat/datasource.js:18-22 | different random prefixes give different ids, whatever the parties |
| Chat.Assigned | backend/chat/datasource.js:16-26 | only `conversationId` changes; a message of the user gets a truthy id; one that already had an id, or is not the user's, is unchanged |
| Chat.AssignedIdempotent | backend/chat/datasource.js:17 | a second backfill changes nothing |
| Chat.LaterMessageMissesAnchor | backend/chat/datasource.js:17-22 | a message without an id, backfilled later, does not join an existing conversation between the same two users |
| Chat.Mine | backend/chat/datasource.js:10-12 | the messages selected are exactly those the user sent or received |
| Chat.Ids | backend/chat/datasource.js:38-39 | the `$group` keys: each conversation id present, once |
| Chat.Group | backend/chat/datasource.js:38-39 | a group holds exactly the messages with its id |
| Chat.CountUnread | backend/chat/datasource.js:46-58 | the count is at most the group size |
| Chat.CountUnreadCounts | backend/chat/datasource.js:46-58 | the count is the number of messages the user received that are not `seen` |
| Chat.OtherParty | backend/chat/datasource.js:40-44 | the other party of a message is its sender or recipient, and not the user when the two differ |
| Chat.ThreadOf | backend/chat/datasource.js:38-59 | a thread has its id, the last message in the group, the unread count, and the other party of the first message |
| Chat.IdsHaveGroups | backend/chat/datasource.js:38-39 | every group key has a non-empty group |
| Chat.ThreadsFor | backend/chat/datasource.js:38-59 | one thread per key, in key order |
| Chat.Unsorted | backend/chat/datasource.js:31-60 | one summarised thread per conversation of the user |
| Chat.Threads | backend/chat/datasource.js:61 | threads ordered newest last message first |
| Chat.ThreadIdsDistinct | backend/chat/datasource.js:38-61 | no conversation is listed twice |
| Chat.IdOfMine | backend/chat/datasource.js:31-39 | each of the user's messages contributes its conversation id |
| Chat.IdListed | backend/chat/datasource.js:31-61 | sorting keeps every thread |
| Chat.EveryConversationListed | backend/chat/datasource.js:31-61 | every conversation the user takes part in is listed |
| Chat.ListedThreadsSummarise | backend/chat/datasource.js:31-61 | every listed thread is the summary of one of the user's conversations |
| Chat.Summaries | backend/chat/datasource.js:65-78 | one entry per thread, carrying its id, participant profile, last message and unread count |
| Chat.Annotate | backend/chat/datasource.js:112-119 | "outgoing" iff a user filter is given and they sent the message; `isCurrentUser` is present iff the user filter is truthy, and agrees with the direction |
| Chat.Select | backend/chat/datasource.js:104-106 | exactly the messages matching the optional user and conversation filters, each kept with its multiplicity |
| Chat.Found | backend/chat/datasource.js:108 | the selection sorted by `createdAt` ascending |
| Chat.FoundIsSelection | backend/chat/datasource.js:104-108 | the sorted result holds exactly the matching messages |
| Chat.AnnotateAll | backend/chat/datasource.js:112-119 | one annotation per message, in order |
| Chat.ChatMessages | backend/chat/datasource.js:99-137 | fails with the `null`-sender TypeError iff a user filter is given and some message's sender no longer exists; otherwise returns the annotated messages, with "No messages found" iff there are none |
| Chat.NoFilterReturnsEverything | backend/chat/datasource.js:102-110 | with no filters, every message is returned |
| Chat.MessageStore.constructor | backend/chat/datasource.js:10-12 | the store holds the given messages |
| Chat.MessageStore.Backfill | backend/chat/datasource.js:15-28 | each message becomes its backfilled version, with the random prefix drawn for its position |
| Chat.MessageStore.GetUserConversations | backend/chat/datasource.js:5-97 | after the backfill, every message of the user has a conversation id, and the response lists the summaries of the sorted threads |

## Left out

- `if (!args)` checks in the resolvers and services: GraphQL always passes an arguments object, so "Invalid arguments" cannot occur.
- GraphQL explicit `null` arguments are read as absent. `page` and `limit` therefore take their destructuring defaults only when absent.
- ObjectId conversion of ids, `populate` beyond whether the sender still exists, and the profile fields a `select` keeps (profiles are a map parameter).
- Regular-expression matching is not evaluated: `Regex` conditions record the pattern and its `"i"` flag only, and the matching users are a parameter of `GetAllUsers`. Whether a pattern compiles, and the error text when it does not, is the parameter `regexError`.
- `new mongoose.Types.ObjectId(id)` for a `skills` filter can also throw on a malformed id. `UserFilterInput` has no `skills` field (backend/user/typedefs.js:68-74), so GraphQL never passes one, and that error is not modelled.
- Calendar arithmetic for `dateRange` (`last_day`, `last_week` …): a span is an abstract value plus the current time.
- Mongoose schema defaults: `account_status` is the store's `defaultStatus`, and `verified` is always `[]` on creation.
- String lengths and string order use Dafny characters (Unicode scalar values), not UTF-16 code units. The two differ only for characters above U+FFFF, which the hex ObjectIds being sorted never contain.
- The resolvers `verifyEmail` and `getUsersBySkillIdSorted` call service functions that the datasource does not define; they are not modelled.
- `statusCode` and other response fields no caller reads, and all `console.log` / `console.error` output.
- `SendEmail` is reduced to its boolean outcome, and the commented-out e-mail sends are absent.
- Concurrency: `Promise.all` in the backfill is modelled as a sequential loop, and concurrent requests are not modelled.
- `UserStore.Store.ChangePassword`: the error text is Node's `createHmac` message for an undefined key, which depends on the Node version.
- `Authorize.InheritedRoleThrows`: the TypeError text is V8's wording, which depends on the Node version.
- `JWT.sign` and the secret: a token is the datatype of its claims.
- `runValidators` and schema validation on update.
- `Chat.ChatMessages`: the failure envelope in the source uses the key `messages: null` where other envelopes use `data`; the model reports it with no data.
- `Authorize.DecisionIgnoresArgs` and `Chat.AssignedIdempotent` follow from the definitions without further proof; they are kept as stated properties.
- The schema declares `data: String!` in `createUser`'s response, but no data is returned; the model keeps the resolver's behaviour.

## Findings

| source | as written | input that shows it | evidently intended | confidence | as-written member | corrected member |
|---|---|---|---|---|---|---|
| backend/user/datasource.js:592-617 | `changePassword` reads `salt` and `password` from the envelope returned by `getUserById`, so `createHmac` gets an undefined key | any existing user id with any passwords | check the old password against the stored user's hash and store the new one | high (not executed) | UserStore.Store.ChangePassword | UserStore.Store.ChangePasswordIntended |
| backend/user/datasource.js:389-438 | `updateUser` reads `verified` from the envelope, which is not an array, so every update writes `verified: []` | a user with `verified == ["email"]` updating only `first_name` | keep the verified channels whose contact did not change | high (not executed) | UserStore.Store.UpdateUser | UserStore.Store.UpdateUserIntended |
