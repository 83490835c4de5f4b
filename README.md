# Account, reset-code and workout server, in Dafny

This project models the core of `server/index.js` of the fitapp backend, a
small Express server over three MongoDB collections (`users`,
`password_resets`, `workouts`) and an SMTP relay. It covers:

- the password-strength check `validatePassword`: five rules checked in a
  fixed order (length of at least 6, an ASCII upper-case letter, a lower-case
  letter, a digit, a character outside `[A-Za-z0-9]`), reporting the first
  that fails (`Password`);
- the account routes `/register`, `/login`, `GET /users` and
  `/change_password`; bcrypt is modelled by the key it derives from a password
  (`Bcrypt`);
- the reset-code lifecycle: `/request_reset_code` deletes every code of the
  email and inserts one new six-digit code that expires ten minutes later;
  `/reset_password` accepts any stored code that matches email and code,
  replaces the hash and deletes all codes of that email; the TTL index on
  `expiresAt` is a separate sweep, `ExpireSweep`;
- the workout routes: `POST /workouts` stores the payload verbatim with a
  server-set `createdAt`, and the driver supplies an ObjectId when `_id` is
  absent or null; `GET /workouts?email=` filters by `userEmail` and
  sorts by `date`, newest first; `GET /workouts/:id` parses an ObjectId. Both
  GET routes rename `_id` to a string `id` (`Bson`, `Workouts`).

`Handlers` gives every route as a pure transition of the three stores,
`State(users, resets, workouts)`, to an `Outcome(state, result)`. Its
contracts state, guard by guard in the source's order, which error each
refusal answers, and the whole new state. They
also show that every route preserves the store invariant `Inv`: at most one
user per email, at most one reset code per email, and unique `_id` values.
`Server.App` is the server object. Its fields are the three collections, and
its methods update them step by step as the handlers do, for example
`deleteMany` and then `insertOne` for a new reset code. Each method is proved
to make the transition of its `Handlers` function. `Scenarios` relates
requests to one another: register then login, a duplicate registration, a
code that works only once whatever password the replay carries, a newer code superseding an older one, a swept code being
refused, and a posted workout found by listing and by id.

What the outside world supplies is a parameter: `Math.random()` is a natural
`draw` (the code is `100000 + draw % 900000`), `Date.now()` is `now` in
milliseconds, and `new Date().toISOString()` is the string `createdAt`. The
bcrypt salt is `salt`. The ObjectId the driver generates is `freshId`. Whether
the mail settings are present is the constant `mailConfigured`, and whether
`sendMail` succeeded is `delivered`. A request field that is absent is the
empty string, since both fail the same `!field` guard. `UntypedFields`
models one place where a non-string field changes what a handler does to the
stores, `/reset_password` (see "## Findings").

Three behaviours of the code that a reader may not expect; the model follows
the code:

- `/reset_password` does not check `expiresAt` (server/index.js:148). A code
  is refused after expiry only once the TTL sweep has removed it. `ExpireSweep`
  is that sweep, and `Scenarios.SweptCodeRejected` shows that a code is
  refused after it.
- `/change_password` checks the new password's strength before looking up the
  user and before checking the current password (server/index.js:165-172).
- A failed mail delivery leaves the new code stored and usable
  (server/index.js:127-134). The model answers `MailFailed`, with the state
  changed all the same.

## Model

| member | source | states |
|---|---|---|
| Password.Validate | server/index.js:19-28 | None exactly when all five rules hold; Some(rule) exactly when rule is the first failing one in the order length, upper, lower, digit, special |
| Password.Test | server/index.js:21-24 | the regex test finds a character of the class exactly when one occurs in the password |
| Password.Utf16Length | server/index.js:20 | `password.length` counts UTF-16 code units: between one and two per character, and exactly one per character when none lies at or above U+10000 |
| Password.Utf16LengthChar | server/index.js:20 | a character counts two code units from U+10000 on, one below |
| Password.Utf16LengthAppend | server/index.js:20 | the length of a concatenation is the sum of the lengths |
| Password.AstralPasswordAccepted | server/index.js:19-28 | "Ab1" followed by two emoji has 5 characters but length 7, and passes every rule |
| Password.ShortPasswordGetsLengthRule | server/index.js:20 | a password shorter than 6 always gets the length message, whatever else it lacks |
| Password.ExamplePasswordAccepted | server/index.js:19-28 | "Abc123!" passes every rule |
| Bcrypt.Verify | server/index.js:90 | `bcrypt.compare` (also at line 171) looks only at the first 72 bytes of a long password; a shorter one is compared by its bytes and the NUL byte after them |
| Bcrypt.ShortPasswordKey | server/index.js:90 | a password under 72 UTF-8 bytes keys bcrypt with its bytes followed by a NUL byte |
| Bcrypt.HashPassword | server/index.js:73 | a hash verifies the password it was made from, and exactly the passwords with the same bcrypt key |
| Bcrypt.LongPasswordKey | server/index.js:90 | a password of 72 or more UTF-8 bytes is keyed by its first 72 bytes |
| Bcrypt.LongPasswordPrefixVerifies | server/index.js:90 | any extension of a password of 72 or more bytes verifies against its hash |
| Bcrypt.DifferentAsciiStartRejected | server/index.js:90-91 | passwords starting with different ASCII characters do not verify against each other's hash |
| Bcrypt.Utf8Append | server/index.js:73 | the UTF-8 encoding of a concatenation is the concatenation of the encodings |
| Bson.ObjectIdString | server/index.js:204 | `String(_id)` is 24 lower-case hexadecimal digits |
| Bson.IsValidObjectId | server/index.js:214 | `ObjectId.isValid` accepts exactly the strings that print some ObjectId once A-F are folded to lower case |
| Bson.ParseObjectId | server/index.js:216 | `new ObjectId(id)` gives the ObjectId whose text is `id` in lower case |
| Bson.ObjectIdRoundTrip | server/index.js:214-216 | the text of an ObjectId passes `ObjectId.isValid` and parses back to the same ObjectId |
| Bson.SameIdUpToCase | server/index.js:214-216 | two valid ids name the same ObjectId exactly when they differ at most in the case of A-F |
| Bson.FieldTruthy | server/index.js:186 | `!doc.field` is false exactly when the field is present and not null, "", 0 or false |
| Bson.JsString | server/index.js:204 | `String(v)` (also at line 220) is empty only for ""; it gives a string unchanged, a number's decimal digits (with "-" when negative) that read back as the number, and an ObjectId's text that `isValid` accepts and parses back to it |
| Bson.DecimalNat | server/index.js:123 | `String(n)` is a non-empty string of decimal digits |
| Bson.DecimalRoundTrip | server/index.js:123 | the decimal text of n reads back as n |
| Bson.DecimalLength | server/index.js:123 | a k-digit number is written with exactly k characters |
| Bson.StrLeTotal | server/index.js:199 | any two strings are ordered one way or the other |
| Bson.StrLeTransitive | server/index.js:199 | the string order is transitive |
| Bson.ValueLeTotal | server/index.js:199 | MongoDB's value order relates any two values |
| Bson.ValueLeTransitive | server/index.js:199 | MongoDB's value order is transitive |
| Workouts.StoredForm | server/index.js:188-189 | the stored record is the payload with `createdAt` set; its `_id` is never null: the client's when present and not null, otherwise the driver's fresh ObjectId; every other field unchanged |
| Workouts.FilterOwner | server/index.js:197-198 | the result holds each stored record of the queried owner exactly as many times as it is stored, and no other record |
| Workouts.InsertByDate | server/index.js:199 | inserting into a newest-first sequence keeps it newest first and adds exactly that record |
| Workouts.SortByDateDesc | server/index.js:199 | the result is newest first by `date` and a permutation of the input |
| Workouts.PrependSorted | server/index.js:199 | a record dated at least every date of a sorted sequence may go in front of it |
| Workouts.HeadIsLatest | server/index.js:199 | the first record of a newest-first sequence has the greatest date |
| Workouts.Normalize | server/index.js:202-206 | the result has no `_id`, has `id == String(_id)`, and every other field unchanged |
| Workouts.NormalizeAll | server/index.js:202-207 | the renaming is applied to each record, in order |
| Workouts.NormalizeAllSorted | server/index.js:202-207 | renaming keeps the newest-first order |
| Workouts.NormalizeAllMembers | server/index.js:202-207 | the renamed listing holds exactly the renamed forms of the listed records |
| Workouts.SameMembers | server/index.js:199 | a permutation has the same length and members |
| Handlers.FindUser | server/index.js:70 | finds the first user with the email, and none exactly when no user has it |
| Handlers.SetHash | server/index.js:152 | only the users with that email get the new hash (with one user per email); names, emails and other users are unchanged |
| Handlers.DeleteCodes | server/index.js:126 | exactly the records of other emails remain |
| Handlers.HasCode | server/index.js:148 | a record matches exactly when it has that email and code, whatever its expiry; with one code per email it is the email's only code |
| Handlers.IssuedCode | server/index.js:123 | the code is six decimal digits whose value is in 100000..999999 |
| Handlers.IssuedRecord | server/index.js:123-127 | the stored record is for the email, its code is six decimal digits with a value in 100000..999999, and it expires 600000 ms after `now` |
| Handlers.Register | server/index.js:60-80 | missing field, then weak password, then existing email (answered `UserExists`) leave the state unchanged; success appends exactly one user with that email, name and a hash that verifies the password, answers `{name, email}` and keeps the invariant |
| Handlers.Login | server/index.js:82-98 | missing field, then unknown email; for a registered email, success exactly when the password verifies against the first such user's hash, answering that user's profile, and `WrongPassword` otherwise |
| Handlers.LookupUser | server/index.js:100-111 | missing email; otherwise found exactly when registered, answering the first such user's profile, and `UserNotFound` when not |
| Handlers.ChangePassword | server/index.js:158-181 | missing field, then weak new password, then unknown user, then wrong current password (answered `WrongCurrentPassword`) change nothing; success exactly when all pass, replacing only that user's hash |
| Handlers.RequestResetCode | server/index.js:113-137 | missing email, unknown user or no mail settings change nothing; otherwise the email has exactly the new record, other emails' records are untouched, and a failed delivery is reported with the code still stored |
| Handlers.ResetPassword | server/index.js:139-156 | missing field, then weak password, then no record matching email and code change nothing; success replaces that user's hash and removes every record of that email |
| Handlers.ExpireSweep | server/index.js:57 | exactly the records with `expiresAt` after the sweep time remain |
| Handlers.PostWorkout | server/index.js:183-191 | no truthy `userEmail` stores nothing; otherwise exactly the stored form is appended, unless its `_id` is taken, which answers `DuplicateKey` |
| Handlers.ListWorkouts | server/index.js:193-210 | missing email fails; otherwise the listing is the renaming of a permutation of the owner's records, newest first, with no `_id` |
| Handlers.ListedFacts | server/index.js:197-207 | renaming a newest-first permutation of the owner's records gives a listing of their renamed forms, of the same length and newest first |
| Handlers.FindById | server/index.js:216 | finds a record with that `_id`, and none exactly when no record has it |
| Handlers.GetWorkout | server/index.js:212-223 | an id that is not 24 hexadecimal digits is refused; otherwise the record with that ObjectId, renamed, or not found |
| Scenarios.RegisterThenLogin | server/index.js:60-98 | logging in with the registered credentials answers the registered `{name, email}` |
| Scenarios.DuplicateRegistrationRejected | server/index.js:70-71 | a second registration of the same email is refused and changes nothing |
| Scenarios.LoginSucceedsIff | server/index.js:87-93 | with one user per email, login succeeds exactly when the password verifies against that user's hash |
| Scenarios.ChangeThenLogin | server/index.js:171-175 | after a change of password the new password logs in |
| Scenarios.OnlyIssuedCodeMatches | server/index.js:126-127 | after a request, a code matches the email exactly when it is the issued code |
| Scenarios.RequestThenReset | server/index.js:123-153 | the issued code resets the password even when delivery failed, and the new password then logs in |
| Scenarios.ReplayRejected | server/index.js:148-153 | a second use of a code that reset the password never succeeds and changes nothing, whatever new password it carries; with a strong one it answers `WrongCode` |
| Scenarios.NewCodeSupersedesOld | server/index.js:126-127 | after a second request, the first code is refused unless both codes are equal |
| Scenarios.SweptCodeRejected | server/index.js:57 | after a sweep past every matching record's expiry, the code is refused as a wrong code |
| Scenarios.ExpiredIssuedCodeRejected | server/index.js:124 | a code is refused after a sweep at least ten minutes after it was issued |
| Scenarios.PostThenList | server/index.js:183-207 | a posted workout appears, renamed and with its `createdAt`, in its owner's listing |
| Scenarios.NullIdPostedTwice | server/index.js:188-189 | a payload with `_id: null` posted twice is stored twice, each time under the driver's fresh ObjectId |
| Scenarios.ListedIdFetchesRecord | server/index.js:202-223 | the `id` shown for a driver-assigned ObjectId fetches the same record by id |
| UntypedFields.FindMatching | server/index.js:148-152 | the first user whose email the filter value matches, and none exactly when no user's email matches |
| UntypedFields.FindMatchingText | server/index.js:148-152 | a string filter finds the same user as `users.findOne({email})` on strings |
| UntypedFields.ResetPasswordAsWritten | server/index.js:139-156 | with a string email it is `Handlers.ResetPassword`; an error changes nothing; success needs a stored record whose email the field matches and whose code is the code sent |
| UntypedFields.OperatorEmailTakesOverFirstAccount | server/index.js:141-152 | with `{"$ne": null}` as email and any stored code, the first user, who holds no such code, gets the sender's password |
| UntypedFields.ResetPasswordChecked | server/index.js:139-156 | a non-string email is refused like a missing one, and a user's record changes only when that user holds the code sent and the reset succeeds |
| Server.App.constructor | server/index.js:49-58 | the three collections start empty and the invariant holds |
| Server.App.Register | server/index.js:60-80 | the object's state and answer are those of `Handlers.Register`; the invariant is kept |
| Server.App.Login | server/index.js:82-98 | answers as `Handlers.Login` on the current users |
| Server.App.LookupUser | server/index.js:100-111 | answers as `Handlers.LookupUser` on the current users |
| Server.App.RequestResetCode | server/index.js:113-137 | delete then insert yields the state and answer of `Handlers.RequestResetCode` |
| Server.App.ResetPassword | server/index.js:139-156 | update then delete yields the state and answer of `Handlers.ResetPassword` |
| Server.App.ChangePassword | server/index.js:158-181 | the state and answer are those of `Handlers.ChangePassword` |
| Server.App.ExpireSweep | server/index.js:57 | the state after the sweep is `Handlers.ExpireSweep` of the state before |
| Server.App.PostWorkout | server/index.js:183-191 | the state and answer are those of `Handlers.PostWorkout` |
| Server.App.ListWorkouts | server/index.js:193-210 | answers as `Handlers.ListWorkouts` on the current workouts |
| Server.App.GetWorkout | server/index.js:212-223 | answers as `Handlers.GetWorkout` on the current workouts |

## Left out

- Express wiring, CORS, the 5 MB body limit, environment variables, the listen
  step and logging (server/index.js:1-17, 225-236) are framework I/O. The mail
  settings survive only as `mailConfigured`.
- The MongoDB connection and index creation (server/index.js:49-58) are not
  modelled. Their effects are: the unique `(email, code)` index becomes a set
  of reset records, and the TTL index becomes `ExpireSweep`. The TTL monitor
  runs about once a minute. The model does not say when it runs.
- Sending mail (server/index.js:30-41, 129-134) is network I/O. Its outcome is
  the parameter `delivered`.
- HTTP status codes and the Russian message texts are not modelled. Each
  response is an `Error` constructor or a result value. A `WeakPassword` error
  carries the failed rule, which stands for its message.
- The `try`/`catch` that turns a store failure into a 500 response is not
  modelled, because the store never fails in the model. A rejected `sendMail`
  or `insertOne` in the handlers without `catch` is an unhandled rejection:
  Express 5 answers 500, while under Express 4 on Node 15 or later it ends the
  process. The model answers `MailFailed` or `DuplicateKey` there and keeps
  running.
- Concurrency: the model is sequential. The check-then-insert of `/register`
  can race in the source, and nothing in the model shows this.
- Request fields are strings, and an absent field is "". Outside
  `UntypedFields`, JSON numbers, booleans or objects sent as `email`,
  `password`, `code` or `name`, and their `String(...)` conversions, are not
  modelled. This hides MongoDB operator injection: an object such as
  `{"$ne": null}` used as a filter value matches records of other emails.
  `UntypedFields` models it for `/reset_password`, where it takes over an
  account. Not modelled: the same object sent to `/request_reset_code` passes
  `!email` and finds the first user (server/index.js:115-117), and then
  `deleteMany({email})` (server/index.js:126) deletes every account's pending
  reset code; `/register` stores a non-string `name` as sent
  (server/index.js:63, 74). Likewise `GET /workouts?email[$ne]=x`, which Express's extended
  query parser turns into an object, lists other users' workouts; and a
  repeated query parameter, which Express turns into an array, is not
  modelled either.
- Password.Validate / Bcrypt.Utf8: model strings hold Unicode scalar values
  only. A JSON string with an unpaired surrogate such as `\ud800`, which
  `express.json` (server/index.js:9) accepts, which JavaScript counts as one
  code unit and which `/[^A-Za-z0-9]/` treats as a special character, is not
  modelled, nor is the way bcrypt encodes such a string to bytes.
- Server.App.constructor: the collections start empty, as in a fresh
  database. `initDb` (server/index.js:49-58) opens persistent collections and
  never clears them, so a restarted server resumes from the stored contents;
  under sequential use those are a state the handlers reach from empty.
- Bcrypt.HashPassword: the cost factor, the Blowfish rounds and the
  randomness of the salt are left out. The model assumes that bcrypt has no
  collisions: two passwords verify against each other's hash exactly when
  their 72-byte keys are equal.
- Bson.Value: numbers are integers. Floating-point values, and the exponent
  form that `String()` uses from 10^21 on, are left out. Embedded objects and
  arrays are opaque `Composite` values. So `POST /workouts` with an array as
  `_id`, which MongoDB refuses, is stored by the model like any other client
  `_id`.
- Bson.ValueLe: objects and arrays are compared by an arbitrary tag instead of
  MongoDB's field-by-field rules. ObjectIds are compared by their hexadecimal
  text, which orders them as their bytes do.
- Workouts.SortByDateDesc: MongoDB does not promise an order among records
  with equal dates. The model keeps insertion order for them.
- Workouts.FilterOwner: a record whose `userEmail` is an array that contains
  the email would also match in MongoDB. The model leaves this out.
- Bson.IsValidObjectId: some bson versions also accept any 12-character string
  in `ObjectId.isValid`. The model accepts only 24 hexadecimal digits.
- The ISO-8601 formatting of the clock (server/index.js:188) is not modelled:
  `createdAt` arrives already formatted.

## Findings

| source | as written | input that shows it | evidently intended | confidence | as-written member | corrected member |
|---|---|---|---|---|---|---|
| server/index.js:141-153 | `email` from the JSON body goes unchecked into `resets.findOne`, `users.updateOne` and `resets.deleteMany`, so an operator object matches every stored email | a user requests a code for their own account, then posts `{"email": {"$ne": null}, "code": <that code>, "newPassword": "Abc123!"}`: the first user in `users` gets the password "Abc123!", and every reset record is deleted | refuse an `email` that is not a string, so that only the holder of a code can reset a password | high; not executed | UntypedFields.OperatorEmailTakesOverFirstAccount | UntypedFields.ResetPasswordChecked |
