/**
 * The server itself: the three collections as fields of one object, updated
 * in place by the route handlers, step by step as server/index.js issues its
 * `findOne`, `insertOne`, `updateOne` and `deleteMany` calls. Each method is
 * proved to make the transition of the corresponding function in Handlers.
 */
module Server {
  import opened Wrappers
  import opened Password
  import opened Bcrypt
  import opened Bson
  import opened Workouts
  import opened Handlers

  class App {
    /** Whether MAIL_HOST, MAIL_USER and MAIL_PASS were all set at startup. */
    const mailConfigured: bool

    var users: seq<User>
    var resets: set<ResetRecord>
    var workouts: seq<Doc>

    function Snapshot(): State
      reads this
    {
      State(users, resets, workouts)
    }

    ghost predicate Valid()
      reads this
    {
      Inv(Snapshot())
    }

    constructor (mailConfigured: bool)
      ensures Valid() && this.mailConfigured == mailConfigured
      ensures Snapshot() == State([], {}, [])
    {
      this.mailConfigured := mailConfigured;
      users, resets, workouts := [], {}, [];
    }

    method Register(email: string, password: string, name: string, salt: nat) returns (r: Result<Profile>)
      requires Valid()
      modifies this
      ensures Valid()
      ensures Outcome(Snapshot(), r) == Handlers.Register(old(Snapshot()), email, password, name, salt)
    {
      if email == "" || password == "" || name == "" {
        return Err(MissingField);
      }
      var passError := Validate(password);
      if passError.Some? {
        return Err(WeakPassword(passError.value));
      }
      var existing := FindUser(users, email);
      if existing.Some? {
        return Err(UserExists);
      }
      var hash := HashPassword(password, salt);
      users := users + [User(name, email, hash)];
      return Ok(Profile(name, email));
    }

    method Login(email: string, password: string) returns (r: Result<Profile>)
      ensures r == Handlers.Login(users, email, password)
    {
      if email == "" || password == "" {
        return Err(MissingField);
      }
      var user := FindUser(users, email);
      if user.None? {
        return Err(UserNotFound);
      }
      var ok := Verify(password, users[user.value].hash);
      if !ok {
        return Err(WrongPassword);
      }
      return Ok(Profile(users[user.value].name, users[user.value].email));
    }

    method LookupUser(email: string) returns (r: Result<Profile>)
      ensures r == Handlers.LookupUser(users, email)
    {
      if email == "" {
        return Err(MissingField);
      }
      var user := FindUser(users, email);
      if user.None? {
        return Err(UserNotFound);
      }
      return Ok(Profile(users[user.value].name, users[user.value].email));
    }

    method RequestResetCode(email: string, draw: nat, now: int, delivered: bool) returns (r: Result<()>)
      requires Valid()
      modifies this
      ensures Valid()
      ensures Outcome(Snapshot(), r) == Handlers.RequestResetCode(old(Snapshot()), mailConfigured, email, draw, now, delivered)
    {
      if email == "" {
        return Err(MissingField);
      }
      var user := FindUser(users, email);
      if user.None? {
        return Err(UserNotFound);
      }
      if !mailConfigured {
        return Err(MailNotConfigured);
      }
      resets := DeleteCodes(resets, email);
      resets := resets + {IssuedRecord(email, draw, now)};
      if !delivered {
        return Err(MailFailed);
      }
      return Ok(());
    }

    method ResetPassword(email: string, code: string, newPassword: string, salt: nat) returns (r: Result<()>)
      requires Valid()
      modifies this
      ensures Valid()
      ensures Outcome(Snapshot(), r) == Handlers.ResetPassword(old(Snapshot()), email, code, newPassword, salt)
    {
      if email == "" || code == "" || newPassword == "" {
        return Err(MissingField);
      }
      var passError := Validate(newPassword);
      if passError.Some? {
        return Err(WeakPassword(passError.value));
      }
      var found := HasCode(resets, email, code);
      if !found {
        return Err(WrongCode);
      }
      var hash := HashPassword(newPassword, salt);
      users := SetHash(users, email, hash);
      resets := DeleteCodes(resets, email);
      return Ok(());
    }

    method ChangePassword(email: string, current: string, newPassword: string, salt: nat) returns (r: Result<()>)
      requires Valid()
      modifies this
      ensures Valid()
      ensures Outcome(Snapshot(), r) == Handlers.ChangePassword(old(Snapshot()), email, current, newPassword, salt)
    {
      if email == "" || current == "" || newPassword == "" {
        return Err(MissingField);
      }
      var passError := Validate(newPassword);
      if passError.Some? {
        return Err(WeakPassword(passError.value));
      }
      var user := FindUser(users, email);
      if user.None? {
        return Err(UserNotFound);
      }
      var ok := Verify(current, users[user.value].hash);
      if !ok {
        return Err(WrongCurrentPassword);
      }
      var hash := HashPassword(newPassword, salt);
      users := SetHash(users, email, hash);
      return Ok(());
    }

    /** The periodic run of the TTL monitor on `expiresAt`. */
    method ExpireSweep(now: int)
      requires Valid()
      modifies this
      ensures Valid()
      ensures Snapshot() == Handlers.ExpireSweep(old(Snapshot()), now)
    {
      resets := set x | x in resets && now < x.expiresAt;
    }

    method PostWorkout(payload: Doc, createdAt: string, freshId: ObjectId) returns (r: Result<()>)
      requires Valid()
      modifies this
      ensures Valid()
      ensures Outcome(Snapshot(), r) == Handlers.PostWorkout(old(Snapshot()), payload, createdAt, freshId)
    {
      if !FieldTruthy(payload, "userEmail") {
        return Err(MissingField);
      }
      var doc := StoredForm(payload, createdAt, freshId);
      var taken := FindById(workouts, doc["_id"]);
      if taken.Some? {
        return Err(DuplicateKey);
      }
      workouts := workouts + [doc];
      return Ok(());
    }

    method ListWorkouts(email: string) returns (r: Result<seq<Doc>>)
      ensures r == Handlers.ListWorkouts(workouts, email)
    {
      if email == "" {
        return Err(MissingField);
      }
      var items := SortByDateDesc(FilterOwner(workouts, email));
      return Ok(NormalizeAll(items));
    }

    method GetWorkout(id: string) returns (r: Result<Doc>)
      ensures r == Handlers.GetWorkout(workouts, id)
    {
      if !IsValidObjectId(id) {
        return Err(InvalidId);
      }
      var item := FindById(workouts, Oid(ParseObjectId(id)));
      if item.None? {
        return Err(NotFound);
      }
      return Ok(Normalize(workouts[item.value]));
    }
  }

  /** The account example: register, a wrong password, then the right one. */
  method AccountExample()
  {
    var app := new App(true);
    var reg := app.Register("a@x.com", "Abc123!", "Ann", 7);
    ExamplePasswordAccepted();
    assert reg == Ok(Profile("Ann", "a@x.com"));
    var bad := app.Login("a@x.com", "wrong");
    DifferentAsciiStartRejected("wrong", "Abc123!", 7);
    assert bad == Err(WrongPassword);
    var good := app.Login("a@x.com", "Abc123!");
    assert good == Ok(Profile("Ann", "a@x.com"));
  }
}
