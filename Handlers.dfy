/**
 * The route handlers of server/index.js as transitions of the three stores.
 *
 * Each handler takes the state of the `users`, `password_resets` and
 * `workouts` collections and the request's fields, plus what the handler
 * would read from the outside world (the random draw, the clock, the salt,
 * whether mail is configured and whether delivery succeeded), and gives the
 * new state with the response. A request field that is absent is the empty
 * string: both fail the handlers' `!field` guards alike.
 */
module Handlers {
  import opened Wrappers
  import opened Password
  import opened Bcrypt
  import opened Bson
  import opened Workouts

  /** A `users` document: `{name, email, password: hash}`. */
  datatype User = User(name: string, email: string, hash: Hash)

  /** The public profile the account routes answer with: `{name, email}`. */
  datatype Profile = Profile(name: string, email: string)

  /** A `password_resets` document: `{email, code, expiresAt}` with `expiresAt` in milliseconds. */
  datatype ResetRecord = ResetRecord(email: string, code: string, expiresAt: int)

  /** The handlers' error responses (each stands for its status code and message). */
  datatype Error =
    | MissingField
    | WeakPassword(rule: Rule)
    | UserExists
    | UserNotFound
    | WrongPassword
    | WrongCurrentPassword
    | MailNotConfigured
    | MailFailed    // sendMail rejected after the code was stored: an unhandled rejection
    | WrongCode
    | InvalidId
    | NotFound
    | DuplicateKey  // insertOne rejected by the unique `_id` index: an unhandled rejection

  datatype Result<T> = Ok(value: T) | Err(error: Error)

  datatype State = State(users: seq<User>, resets: set<ResetRecord>, workouts: seq<Doc>)

  /** The state after a request and the response to it. */
  datatype Outcome<T> = Outcome(state: State, result: Result<T>)

  const RESET_CODE_LIFETIME_MS := 10 * 60 * 1000
  const CODE_MIN := 100000
  const CODE_SPAN := 900000

  // The stores.

  predicate Registered(users: seq<User>, email: string)
  {
    exists i :: 0 <= i < |users| && users[i].email == email
  }

  /** `users.findOne({email})`: the first user with that email. */
  function FindUser(users: seq<User>, email: string): (found: Option<nat>)
    ensures found.None? <==> !Registered(users, email)
    ensures found.Some? ==> found.value < |users| && users[found.value].email == email
    ensures found.Some? ==> forall i :: 0 <= i < found.value ==> users[i].email != email
  {
    if users == [] then None
    else if users[0].email == email then Some(0)
    else match FindUser(users[1..], email)
      case None => None
      case Some(k) => Some(k + 1)
  }

  /** At most one user per email. */
  ghost predicate UniqueEmails(users: seq<User>)
  {
    forall i, j :: 0 <= i < j < |users| ==> users[i].email != users[j].email
  }

  /** `users.updateOne({email}, {$set: {password: h}})`: the first user with that email gets hash `h`. */
  function SetHash(users: seq<User>, email: string, h: Hash): (r: seq<User>)
    ensures |r| == |users|
    ensures forall i :: 0 <= i < |users| ==> r[i].name == users[i].name && r[i].email == users[i].email
    ensures forall i :: 0 <= i < |users| && users[i].email != email ==> r[i] == users[i]
    ensures UniqueEmails(users) ==> forall i :: 0 <= i < |users| && users[i].email == email ==> r[i].hash == h
    ensures !Registered(users, email) ==> r == users
  {
    match FindUser(users, email)
    case None => users
    case Some(k) => users[k := users[k].(hash := h)]
  }

  /** `resets.deleteMany({email})`. */
  function DeleteCodes(resets: set<ResetRecord>, email: string): (r: set<ResetRecord>)
    ensures forall x :: x in r <==> x in resets && x.email != email
  {
    set x | x in resets && x.email != email
  }

  /**
   * `resets.findOne({email, code})` finds a record: a record with that email
   * and code, whatever its `expiresAt`. With one code per email, that code is
   * the email's only one.
   */
  function HasCode(resets: set<ResetRecord>, email: string, code: string): (found: bool)
    ensures found <==> exists t :: ResetRecord(email, code, t) in resets
    ensures found && OneCodePerEmail(resets) ==> forall x :: x in resets && x.email == email ==> x.code == code
  {
    if exists x :: x in resets && x.email == email && x.code == code then
      AnyExpiryMatches(resets, email, code);
      true
    else
      false
  }

  lemma AnyExpiryMatches(resets: set<ResetRecord>, email: string, code: string)
    requires exists x :: x in resets && x.email == email && x.code == code
    ensures exists t :: ResetRecord(email, code, t) in resets
  {
    var x :| x in resets && x.email == email && x.code == code;
    assert ResetRecord(email, code, x.expiresAt) == x;
  }

  /** At most one reset record per email. */
  ghost predicate OneCodePerEmail(resets: set<ResetRecord>)
  {
    forall x, y :: x in resets && y in resets && x.email == y.email ==> x == y
  }

  /** What every handler preserves. */
  ghost predicate Inv(s: State)
  {
    UniqueEmails(s.users) && OneCodePerEmail(s.resets) && IdsUnique(s.workouts)
  }

  /** `String(Math.floor(100000 + Math.random() * 900000))` for the draw `draw`: a six-digit code. */
  function IssuedCode(draw: nat): (code: string)
    ensures |code| == 6 && AllDigits(code)
    ensures DigitsValue(code) == CODE_MIN + draw % CODE_SPAN
    ensures CODE_MIN <= DigitsValue(code) < CODE_MIN + CODE_SPAN
  {
    var n := CODE_MIN + draw % CODE_SPAN;
    DecimalRoundTrip(n);
    assert Pow10(5) == 100000 && Pow10(6) == 1000000;
    DecimalLength(n, 6);
    DecimalNat(n)
  }

  // Account routes.

  /** POST /register. */
  function Register(s: State, email: string, password: string, name: string, salt: nat): (o: Outcome<Profile>)
    ensures o.result.Err? ==> o.state == s
    ensures email == "" || password == "" || name == "" ==> o.result == Err(MissingField)
    ensures email != "" && password != "" && name != "" && Validate(password).Some? ==>
      o.result == Err(WeakPassword(Validate(password).value))
    ensures email != "" && password != "" && name != "" && Validate(password) == None && Registered(s.users, email) ==>
      o.result == Err(UserExists)
    ensures o.result.Ok? <==>
      email != "" && password != "" && name != "" && Validate(password) == None && !Registered(s.users, email)
    ensures o.result.Ok? ==>
      && o.result.value == Profile(name, email)
      && |o.state.users| == |s.users| + 1 && o.state.users[..|s.users|] == s.users
      && o.state.users[|s.users|].email == email && o.state.users[|s.users|].name == name
      && Verify(password, o.state.users[|s.users|].hash)
      && o.state.resets == s.resets && o.state.workouts == s.workouts
    ensures Inv(s) ==> Inv(o.state)
  {
    if email == "" || password == "" || name == "" then Outcome(s, Err(MissingField))
    else match Validate(password)
      case Some(rule) => Outcome(s, Err(WeakPassword(rule)))
      case None =>
        if FindUser(s.users, email).Some? then Outcome(s, Err(UserExists))
        else
          var users' := s.users + [User(name, email, HashPassword(password, salt))];
          assert users'[..|s.users|] == s.users;
          Outcome(s.(users := users'), Ok(Profile(name, email)))
  }

  /** POST /login (reads only). */
  function Login(users: seq<User>, email: string, password: string): (r: Result<Profile>)
    ensures email == "" || password == "" ==> r == Err(MissingField)
    ensures email != "" && password != "" && !Registered(users, email) ==> r == Err(UserNotFound)
    ensures email != "" && password != "" && FindUser(users, email).Some? ==>
      var u := users[FindUser(users, email).value];
      && (r.Ok? <==> Verify(password, u.hash))
      && (r.Ok? ==> r.value == Profile(u.name, email))
      && (r.Err? ==> r == Err(WrongPassword))
    ensures r.Ok? ==> r.value.email == email
    ensures r.Ok? ==>
      exists i :: 0 <= i < |users| && users[i].email == email && users[i].name == r.value.name && Verify(password, users[i].hash)
  {
    if email == "" || password == "" then Err(MissingField)
    else match FindUser(users, email)
      case None => Err(UserNotFound)
      case Some(k) =>
        if !Verify(password, users[k].hash) then Err(WrongPassword)
        else Ok(Profile(users[k].name, users[k].email))
  }

  /** GET /users?email= (reads only). */
  function LookupUser(users: seq<User>, email: string): (r: Result<Profile>)
    ensures email == "" ==> r == Err(MissingField)
    ensures email != "" ==> (r.Ok? <==> Registered(users, email))
    ensures email != "" && !Registered(users, email) ==> r == Err(UserNotFound)
    ensures email != "" && FindUser(users, email).Some? ==> r == Ok(Profile(users[FindUser(users, email).value].name, email))
    ensures r.Err? ==> r.error == MissingField || r.error == UserNotFound
    ensures r.Ok? ==> r.value.email == email && exists i :: 0 <= i < |users| && users[i].email == email && users[i].name == r.value.name
  {
    if email == "" then Err(MissingField)
    else match FindUser(users, email)
      case None => Err(UserNotFound)
      case Some(k) => Ok(Profile(users[k].name, users[k].email))
  }

  /** POST /change_password. */
  function ChangePassword(s: State, email: string, current: string, newPassword: string, salt: nat): (o: Outcome<()>)
    ensures o.result.Err? ==> o.state == s
    ensures email == "" || current == "" || newPassword == "" ==> o.result == Err(MissingField)
    ensures email != "" && current != "" && newPassword != "" && Validate(newPassword).Some? ==>
      o.result == Err(WeakPassword(Validate(newPassword).value))
    ensures email != "" && current != "" && Validate(newPassword) == None && !Registered(s.users, email) ==>
      o.result == Err(UserNotFound)
    ensures email != "" && current != "" && Validate(newPassword) == None && FindUser(s.users, email).Some? ==>
      (!Verify(current, s.users[FindUser(s.users, email).value].hash) ==> o.result == Err(WrongCurrentPassword))
    ensures o.result.Ok? <==>
      && email != "" && current != "" && Validate(newPassword) == None
      && FindUser(s.users, email).Some? && Verify(current, s.users[FindUser(s.users, email).value].hash)
    ensures o.result.Ok? ==>
      o.state == s.(users := SetHash(s.users, email, HashPassword(newPassword, salt)))
    ensures Inv(s) ==> Inv(o.state)
  {
    if email == "" || current == "" || newPassword == "" then Outcome(s, Err(MissingField))
    else match Validate(newPassword)
      case Some(rule) => Outcome(s, Err(WeakPassword(rule)))
      case None =>
        match FindUser(s.users, email)
        case None => Outcome(s, Err(UserNotFound))
        case Some(k) =>
          if !Verify(current, s.users[k].hash) then Outcome(s, Err(WrongCurrentPassword))
          else Outcome(s.(users := SetHash(s.users, email, HashPassword(newPassword, salt))), Ok(()))
  }

  // The reset-code routes.

  /** The record a successful POST /request_reset_code stores: a six-digit code for the email, valid for ten minutes. */
  function IssuedRecord(email: string, draw: nat, now: int): (x: ResetRecord)
    ensures x.email == email
    ensures |x.code| == 6 && AllDigits(x.code) && CODE_MIN <= DigitsValue(x.code) < CODE_MIN + CODE_SPAN
    ensures DigitsValue(x.code) == CODE_MIN + draw % CODE_SPAN
    ensures x.expiresAt == now + 600000
  {
    ResetRecord(email, IssuedCode(draw), now + RESET_CODE_LIFETIME_MS)
  }

  /**
   * POST /request_reset_code. `draw` stands for `Math.random()`, `now` for
   * `Date.now()`, `mailConfigured` for `createTransporter() != null` and
   * `delivered` for the outcome of `sendMail`. A failed delivery leaves the
   * new code stored: nothing is rolled back.
   */
  function RequestResetCode(s: State, mailConfigured: bool, email: string, draw: nat, now: int, delivered: bool): (o: Outcome<()>)
    ensures email == "" ==> o == Outcome(s, Err(MissingField))
    ensures email != "" && !Registered(s.users, email) ==> o == Outcome(s, Err(UserNotFound))
    ensures email != "" && Registered(s.users, email) && !mailConfigured ==> o == Outcome(s, Err(MailNotConfigured))
    ensures email != "" && Registered(s.users, email) && mailConfigured ==>
      && o.state.users == s.users && o.state.workouts == s.workouts
      && IssuedRecord(email, draw, now) in o.state.resets
      && (forall x :: x in o.state.resets && x.email == email ==> x == IssuedRecord(email, draw, now))
      && (forall x: ResetRecord :: x.email != email ==> (x in o.state.resets <==> x in s.resets))
      && o.result == (if delivered then Ok(()) else Err(MailFailed))
    ensures Inv(s) ==> Inv(o.state)
  {
    if email == "" then Outcome(s, Err(MissingField))
    else if FindUser(s.users, email).None? then Outcome(s, Err(UserNotFound))
    else if !mailConfigured then Outcome(s, Err(MailNotConfigured))
    else
      var resets' := DeleteCodes(s.resets, email) + {IssuedRecord(email, draw, now)};
      Outcome(s.(resets := resets'), if delivered then Ok(()) else Err(MailFailed))
  }

  /** POST /reset_password: the code must match a stored record for that email; its expiry is not checked. */
  function ResetPassword(s: State, email: string, code: string, newPassword: string, salt: nat): (o: Outcome<()>)
    ensures o.result.Err? ==> o.state == s
    ensures email == "" || code == "" || newPassword == "" ==> o.result == Err(MissingField)
    ensures email != "" && code != "" && newPassword != "" && Validate(newPassword).Some? ==>
      o.result == Err(WeakPassword(Validate(newPassword).value))
    ensures email != "" && code != "" && Validate(newPassword) == None && !HasCode(s.resets, email, code) ==>
      o.result == Err(WrongCode)
    ensures o.result.Ok? <==> email != "" && code != "" && Validate(newPassword) == None && HasCode(s.resets, email, code)
    ensures o.result.Ok? ==>
      && o.state.users == SetHash(s.users, email, HashPassword(newPassword, salt))
      && (forall x :: x in o.state.resets <==> x in s.resets && x.email != email)
      && o.state.workouts == s.workouts
    ensures Inv(s) ==> Inv(o.state)
  {
    if email == "" || code == "" || newPassword == "" then Outcome(s, Err(MissingField))
    else match Validate(newPassword)
      case Some(rule) => Outcome(s, Err(WeakPassword(rule)))
      case None =>
        if !HasCode(s.resets, email, code) then Outcome(s, Err(WrongCode))
        else
          var users' := SetHash(s.users, email, HashPassword(newPassword, salt));
          Outcome(State(users', DeleteCodes(s.resets, email), s.workouts), Ok(()))
  }

  /** The TTL index on `expiresAt`: the server's sweep at time `now` removes every expired record. */
  function ExpireSweep(s: State, now: int): (s': State)
    ensures s'.users == s.users && s'.workouts == s.workouts
    ensures forall x :: x in s'.resets ==> x in s.resets && now < x.expiresAt
    ensures forall x :: x in s.resets && now < x.expiresAt ==> x in s'.resets
    ensures Inv(s) ==> Inv(s')
  {
    s.(resets := set x | x in s.resets && now < x.expiresAt)
  }

  // The workout routes.

  /** POST /workouts. `createdAt` is `new Date().toISOString()`; `freshId` is the id the driver generates. */
  function PostWorkout(s: State, payload: Doc, createdAt: string, freshId: ObjectId): (o: Outcome<()>)
    ensures !FieldTruthy(payload, "userEmail") ==> o == Outcome(s, Err(MissingField))
    ensures o.result.Err? ==> o.state == s
    ensures o.result.Ok? <==>
      FieldTruthy(payload, "userEmail") && !IdTaken(s.workouts, StoredForm(payload, createdAt, freshId)["_id"])
    ensures o.result.Ok? ==> o.state == s.(workouts := s.workouts + [StoredForm(payload, createdAt, freshId)])
    ensures FieldTruthy(payload, "userEmail") && o.result.Err? ==> o.result == Err(DuplicateKey)
    ensures Inv(s) ==> Inv(o.state)
  {
    if !FieldTruthy(payload, "userEmail") then Outcome(s, Err(MissingField))
    else
      var d := StoredForm(payload, createdAt, freshId);
      if IdTaken(s.workouts, d["_id"]) then Outcome(s, Err(DuplicateKey))
      else Outcome(s.(workouts := s.workouts + [d]), Ok(()))
  }

  /** GET /workouts?email= (reads only): the owner's records, newest first, each with `id` for `_id`. */
  function ListWorkouts(ws: seq<Doc>, email: string): (r: Result<seq<Doc>>)
    ensures email == "" <==> r == Err(MissingField)
    ensures r.Ok? ==> |r.value| == |FilterOwner(ws, email)|
    ensures r.Ok? ==> forall x :: x in r.value ==> "_id" !in x && "id" in x && OwnedBy(x, email)
    ensures r.Ok? ==> forall x :: x in r.value ==> exists d :: d in ws && OwnedBy(d, email) && x == Normalize(d)
    ensures r.Ok? ==> forall d :: d in ws && OwnedBy(d, email) ==> Normalize(d) in r.value
    ensures r.Ok? ==> SortedByDateDesc(r.value)
    ensures r.Ok? ==> exists p :: multiset(p) == multiset(FilterOwner(ws, email)) && r.value == NormalizeAll(p)
  {
    if email == "" then Err(MissingField)
    else
      var owned := FilterOwner(ws, email);
      var sorted := SortByDateDesc(owned);
      ListedFacts(ws, email, sorted);
      Ok(NormalizeAll(sorted))
  }

  lemma ListedFacts(ws: seq<Doc>, email: string, sorted: seq<Doc>)
    requires SortedByDateDesc(sorted) && multiset(sorted) == multiset(FilterOwner(ws, email))
    ensures |NormalizeAll(sorted)| == |FilterOwner(ws, email)|
    ensures forall x :: x in NormalizeAll(sorted) ==> exists d :: d in ws && OwnedBy(d, email) && x == Normalize(d)
    ensures forall d :: d in ws && OwnedBy(d, email) ==> Normalize(d) in NormalizeAll(sorted)
    ensures SortedByDateDesc(NormalizeAll(sorted))
    ensures exists p :: multiset(p) == multiset(FilterOwner(ws, email)) && NormalizeAll(sorted) == NormalizeAll(p)
  {
    SameMembers(sorted, FilterOwner(ws, email));
    NormalizeAllMembers(sorted);
    NormalizeAllSorted(sorted);
  }

  /** The first stored record with this `_id`. */
  function FindById(ws: seq<Doc>, id: Value): (found: Option<nat>)
    ensures found.None? <==> !IdTaken(ws, id)
    ensures found.Some? ==> found.value < |ws| && "_id" in ws[found.value] && ws[found.value]["_id"] == id
  {
    if ws == [] then None
    else if "_id" in ws[0] && ws[0]["_id"] == id then Some(0)
    else match FindById(ws[1..], id)
      case None => None
      case Some(k) => Some(k + 1)
  }

  /** GET /workouts/:id (reads only). */
  function GetWorkout(ws: seq<Doc>, id: string): (r: Result<Doc>)
    ensures !IsValidObjectId(id) ==> r == Err(InvalidId)
    ensures IsValidObjectId(id) ==> (r.Ok? <==> IdTaken(ws, Oid(ParseObjectId(id))))
    ensures IsValidObjectId(id) && r.Err? ==> r.error == NotFound
    ensures r.Ok? ==> IsValidObjectId(id)
    ensures r.Ok? && IsValidObjectId(id) ==>
      exists i :: 0 <= i < |ws| && "_id" in ws[i] && ws[i]["_id"] == Oid(ParseObjectId(id)) && r.value == Normalize(ws[i])
  {
    if !IsValidObjectId(id) then Err(InvalidId)
    else match FindById(ws, Oid(ParseObjectId(id)))
      case None => Err(NotFound)
      case Some(k) => Ok(Normalize(ws[k]))
  }
}
