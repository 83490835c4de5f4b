/**
 * POST /reset_password when `email` is not a string. `express.json()` hands
 * the handler whatever JSON the client sent, and the handler passes `email`
 * straight into its MongoDB filters. The object `{"$ne": null}` then matches
 * every stored email: the code is looked up among all accounts' records, and
 * the first user in the collection gets the new password. This module models
 * the handler as written for such a field, shows the takeover, and proves that
 * the handler which refuses a non-string email changes only the hash of a user
 * who holds the code.
 */
module UntypedFields {
  import opened Wrappers
  import opened Password
  import opened Bcrypt
  import opened Handlers

  /** The request's `email` as parsed JSON: a string, or the operator object `{"$ne": null}`. */
  datatype Field = Text(s: string) | NotNull

  /** The field used as a filter value against a stored email, which is always a string. */
  predicate Matches(f: Field, stored: string)
  {
    match f
    case Text(t) => t == stored
    case NotNull => true
  }

  /** `users.findOne({email: f})`, and the user `updateOne({email: f}, …)` changes: the first match. */
  function FindMatching(users: seq<User>, f: Field): (found: Option<nat>)
    ensures found.None? <==> forall i :: 0 <= i < |users| ==> !Matches(f, users[i].email)
    ensures found.Some? ==> found.value < |users| && Matches(f, users[found.value].email)
    ensures found.Some? ==> forall i :: 0 <= i < found.value ==> !Matches(f, users[i].email)
  {
    if users == [] then None
    else if Matches(f, users[0].email) then Some(0)
    else match FindMatching(users[1..], f)
      case None => None
      case Some(k) => Some(k + 1)
  }

  /** A string filter finds the same user as `FindUser`. */
  lemma {:induction false} FindMatchingText(users: seq<User>, email: string)
    ensures FindMatching(users, Text(email)) == FindUser(users, email)
  {
    if users != [] && users[0].email != email {
      FindMatchingText(users[1..], email);
    }
  }

  /**
   * POST /reset_password as written: `!email` lets the object through, the
   * record lookup, the update and the deletion all filter by `email` as sent.
   */
  function ResetPasswordAsWritten(s: State, email: Field, code: string, newPassword: string, salt: nat): (o: Outcome<()>)
    ensures email.Text? ==> o == ResetPassword(s, email.s, code, newPassword, salt)
    ensures o.result.Err? ==> o.state == s
    ensures o.result.Ok? ==> exists x :: x in s.resets && Matches(email, x.email) && x.code == code
  {
    if email == Text("") || code == "" || newPassword == "" then Outcome(s, Err(MissingField))
    else match Validate(newPassword)
      case Some(rule) => Outcome(s, Err(WeakPassword(rule)))
      case None =>
        if !(exists x :: x in s.resets && Matches(email, x.email) && x.code == code) then Outcome(s, Err(WrongCode))
        else
          var h := HashPassword(newPassword, salt);
          var users' := match FindMatching(s.users, email)
            case None => s.users
            case Some(k) => s.users[k := s.users[k].(hash := h)];
          var resets' := set x | x in s.resets && !Matches(email, x.email);
          if email.Text? then
            FindMatchingText(s.users, email.s);
            assert resets' == DeleteCodes(s.resets, email.s);
            Outcome(State(users', resets', s.workouts), Ok(()))
          else
            Outcome(State(users', resets', s.workouts), Ok(()))
  }

  /**
   * A user who requested a code for their own account sends it with
   * `{"$ne": null}` as the email: the first user in the collection, who holds
   * no such code, gets the password the sender chose.
   */
  lemma OperatorEmailTakesOverFirstAccount(s: State, code: string, newPassword: string, salt: nat)
    requires |s.users| >= 1 && code != "" && Validate(newPassword) == None
    requires exists x :: x in s.resets && x.code == code
    requires !HasCode(s.resets, s.users[0].email, code) && !Verify(newPassword, s.users[0].hash)
    ensures var o := ResetPasswordAsWritten(s, NotNull, code, newPassword, salt);
      && o.result.Ok?
      && o.state.users[0].email == s.users[0].email
      && o.state.users[0] != s.users[0]
      && Verify(newPassword, o.state.users[0].hash)
  {
    var x :| x in s.resets && x.code == code;
    assert Matches(NotNull, x.email);
    assert FindMatching(s.users, NotNull) == Some(0);
  }

  /**
   * POST /reset_password with a non-string email refused like a missing one,
   * so every filter compares strings: only a user who holds the code can have
   * the hash changed.
   */
  function ResetPasswordChecked(s: State, email: Field, code: string, newPassword: string, salt: nat): (o: Outcome<()>)
    ensures email.NotNull? ==> o == Outcome(s, Err(MissingField))
    ensures |o.state.users| == |s.users|
    ensures forall i :: 0 <= i < |s.users| && o.state.users[i] != s.users[i] ==>
      HasCode(s.resets, s.users[i].email, code) && o.result.Ok?
  {
    match email
    case NotNull => Outcome(s, Err(MissingField))
    case Text(e) => ResetPassword(s, e, code, newPassword, salt)
  }
}
