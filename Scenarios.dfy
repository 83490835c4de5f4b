/**
 * Properties that relate several requests: what one handler's new state
 * means for the next request.
 */
module Scenarios {
  import opened Wrappers
  import opened Password
  import opened Bcrypt
  import opened Bson
  import opened Workouts
  import opened Handlers

  /** Registering and then logging in with the same credentials answers with the registered profile. */
  lemma RegisterThenLogin(s: State, email: string, password: string, name: string, salt: nat)
    requires email != "" && password != "" && name != "" && Validate(password) == None && !Registered(s.users, email)
    ensures Login(Register(s, email, password, name, salt).state.users, email, password) == Ok(Profile(name, email))
  {
  }

  /** A second registration with the same email is refused and leaves the first account as it was. */
  lemma DuplicateRegistrationRejected(s: State, email: string, password: string, name: string, salt: nat,
                                      password2: string, name2: string, salt2: nat)
    requires email != "" && password != "" && name != "" && Validate(password) == None && !Registered(s.users, email)
    requires name2 != "" && Validate(password2) == None
    ensures var s1 := Register(s, email, password, name, salt).state;
      Register(s1, email, password2, name2, salt2) == Outcome(s1, Err(UserExists))
  {
  }

  /** With one user per email, login succeeds exactly when the password verifies against that user's hash. */
  lemma LoginSucceedsIff(users: seq<User>, email: string, password: string)
    requires UniqueEmails(users) && email != "" && password != ""
    ensures Login(users, email, password).Ok? <==>
      exists i :: 0 <= i < |users| && users[i].email == email && Verify(password, users[i].hash)
  {
  }

  /** After a change of password the new one logs in. */
  lemma ChangeThenLogin(s: State, email: string, current: string, newPassword: string, salt: nat)
    requires UniqueEmails(s.users)
    requires email != "" && current != "" && Validate(newPassword) == None
    requires FindUser(s.users, email).Some? && Verify(current, s.users[FindUser(s.users, email).value].hash)
    ensures Login(ChangePassword(s, email, current, newPassword, salt).state.users, email, newPassword)
      == Ok(Profile(s.users[FindUser(s.users, email).value].name, email))
  {
    var k := FindUser(s.users, email).value;
    var users := ChangePassword(s, email, current, newPassword, salt).state.users;
    assert users == SetHash(s.users, email, HashPassword(newPassword, salt));
    assert Registered(users, email) by { assert users[k].email == email; }
    var j := FindUser(users, email).value;
    assert j == k;
  }

  /** The request routes' guards passed: the email is known and mail is configured. */
  predicate Issues(s: State, mailConfigured: bool, email: string)
  {
    email != "" && Registered(s.users, email) && mailConfigured
  }

  /** After a code is issued, the issued code is the only one that matches that email. */
  lemma OnlyIssuedCodeMatches(s: State, mailConfigured: bool, email: string, draw: nat, now: int, delivered: bool, code: string)
    requires Issues(s, mailConfigured, email)
    ensures HasCode(RequestResetCode(s, mailConfigured, email, draw, now, delivered).state.resets, email, code)
      <==> code == IssuedCode(draw)
  {
  }

  /**
   * The issued code resets the password, whether or not the mail was delivered,
   * and the new password then logs in.
   */
  lemma RequestThenReset(s: State, mailConfigured: bool, email: string, draw: nat, now: int, delivered: bool,
                         newPassword: string, salt: nat)
    requires Inv(s) && Issues(s, mailConfigured, email) && Validate(newPassword) == None
    ensures var s1 := RequestResetCode(s, mailConfigured, email, draw, now, delivered).state;
      var o := ResetPassword(s1, email, IssuedCode(draw), newPassword, salt);
      o.result.Ok? && Login(o.state.users, email, newPassword).Ok?
  {
  }

  /**
   * A code is single-use: after a successful reset, a second request with the
   * same email and code changes nothing and never succeeds, whatever new
   * password it carries; with a strong one it is refused as a wrong code.
   */
  lemma ReplayRejected(s: State, email: string, code: string, newPassword: string, salt: nat,
                       newPassword2: string, salt2: nat)
    requires ResetPassword(s, email, code, newPassword, salt).result.Ok?
    ensures var s1 := ResetPassword(s, email, code, newPassword, salt).state;
      var o := ResetPassword(s1, email, code, newPassword2, salt2);
      o.state == s1 && o.result.Err?
    ensures var s1 := ResetPassword(s, email, code, newPassword, salt).state;
      Validate(newPassword2) == None ==> ResetPassword(s1, email, code, newPassword2, salt2) == Outcome(s1, Err(WrongCode))
  {
  }

  /** A second request supersedes the first: the first code no longer matches unless both draws gave the same code. */
  lemma NewCodeSupersedesOld(s: State, mailConfigured: bool, email: string, draw1: nat, now1: int, delivered1: bool,
                             draw2: nat, now2: int, delivered2: bool, newPassword: string, salt: nat)
    requires Issues(s, mailConfigured, email) && Validate(newPassword) == None
    requires IssuedCode(draw1) != IssuedCode(draw2)
    ensures var s1 := RequestResetCode(s, mailConfigured, email, draw1, now1, delivered1).state;
      var s2 := RequestResetCode(s1, mailConfigured, email, draw2, now2, delivered2).state;
      ResetPassword(s2, email, IssuedCode(draw1), newPassword, salt) == Outcome(s2, Err(WrongCode))
  {
  }

  /** Once the sweep has removed every matching record, the code is refused as a wrong code. */
  lemma SweptCodeRejected(s: State, t: int, email: string, code: string, newPassword: string, salt: nat)
    requires email != "" && code != "" && Validate(newPassword) == None
    requires forall x :: x in s.resets && x.email == email && x.code == code ==> x.expiresAt <= t
    ensures var s1 := ExpireSweep(s, t);
      ResetPassword(s1, email, code, newPassword, salt) == Outcome(s1, Err(WrongCode))
  {
  }

  /** A code issued at `now` is refused after a sweep at or beyond `now` plus ten minutes. */
  lemma ExpiredIssuedCodeRejected(s: State, mailConfigured: bool, email: string, draw: nat, now: int, delivered: bool,
                                  t: int, newPassword: string, salt: nat)
    requires Issues(s, mailConfigured, email) && Validate(newPassword) == None
    requires t >= now + RESET_CODE_LIFETIME_MS
    ensures var s1 := ExpireSweep(RequestResetCode(s, mailConfigured, email, draw, now, delivered).state, t);
      ResetPassword(s1, email, IssuedCode(draw), newPassword, salt) == Outcome(s1, Err(WrongCode))
  {
  }

  /** A stored workout shows up, renamed, in its owner's listing. */
  lemma PostThenList(s: State, payload: Doc, createdAt: string, freshId: ObjectId, owner: string)
    requires PostWorkout(s, payload, createdAt, freshId).result.Ok?
    requires payload["userEmail"] == Str(owner)
    ensures var ws := PostWorkout(s, payload, createdAt, freshId).state.workouts;
      var listed := ListWorkouts(ws, owner);
      && listed.Ok?
      && Normalize(StoredForm(payload, createdAt, freshId)) in listed.value
      && Normalize(StoredForm(payload, createdAt, freshId))["createdAt"] == Str(createdAt)
  {
  }

  /**
   * A payload whose `_id` is null is stored under the driver's fresh ObjectId,
   * so posting it twice stores two records.
   */
  lemma NullIdPostedTwice(s: State, payload: Doc, createdAt1: string, id1: ObjectId, createdAt2: string, id2: ObjectId)
    requires FieldTruthy(payload, "userEmail") && "_id" in payload && payload["_id"] == Null
    requires id1 != id2 && !IdTaken(s.workouts, Oid(id1)) && !IdTaken(s.workouts, Oid(id2))
    ensures var o1 := PostWorkout(s, payload, createdAt1, id1);
      var o2 := PostWorkout(o1.state, payload, createdAt2, id2);
      && o1.result.Ok? && o2.result.Ok?
      && o2.state.workouts == s.workouts + [StoredForm(payload, createdAt1, id1), StoredForm(payload, createdAt2, id2)]
      && o2.state.workouts[|s.workouts|]["_id"] == Oid(id1) && o2.state.workouts[|s.workouts| + 1]["_id"] == Oid(id2)
  {
  }

  /** The `id` a listing shows for a driver-assigned ObjectId fetches the same record by GET /workouts/:id. */
  lemma ListedIdFetchesRecord(ws: seq<Doc>, i: nat)
    requires IdsUnique(ws) && i < |ws| && ws[i]["_id"].Oid?
    ensures Normalize(ws[i])["id"] == Str(ObjectIdString(ws[i]["_id"].id))
    ensures GetWorkout(ws, ObjectIdString(ws[i]["_id"].id)) == Ok(Normalize(ws[i]))
  {
  }
}
