/** The server's sign-up and sign-in handlers over the user collection, looked up by
    email. Hashing, comparing and signing are parameters: the model assumes nothing about
    them beyond what each statement names. */
module AuthController {

  /** A stored user; `password` holds what was stored, the hash. */
  datatype User = User(id: nat, name: string, email: string, password: string)

  /** The user table: users by email, and the id the next saved user receives. */
  datatype Table = Table(users: map<string, User>, nextId: nat)

  /** Each user is stored under its own email and has an id already handed out, and no
      two users share an id. */
  predicate ValidTable(t: Table) {
    (forall e :: e in t.users ==> t.users[e].email == e && t.users[e].id < t.nextId) &&
    (forall e1, e2 :: e1 in t.users && e2 in t.users && e1 != e2 ==> t.users[e1].id != t.users[e2].id)
  }

  /** Where an awaited step throws, with the error's message. */
  datatype Fault = NoFault | LookupFails(msg: string) | HashFails(msg: string) | SaveFails(msg: string)
                 | CompareFails(msg: string) | SignFails(msg: string)

  /** The JSON bodies the handlers send. */
  datatype Body =
    | UserBody(id: nat, name: string, email: string, jwt: string, message: string)
    | ErrorBody(error: string)
    | ServerErrorBody(message: string, error: string)

  datatype Response = Response(status: int, body: Body)

  /** The table and the reply after a sign-up request. */
  datatype Outcome = Outcome(table: Table, response: Response)

  const SignUpServerError: string := "Server error during registration"
  const SignInServerError: string := "Server error during sign in"

  /** `signUp`. An email already present is refused with 400. Otherwise the user is saved
      with the hashed password and the next id; the reply carries the new user and
      `sign(id)`. Every throw answers 500 with the error's message; one before the save
      leaves the table as it was. Signing happens after the save, so a throw there stores
      the user and still answers 500. */
  function Register(t: Table, name: string, email: string, password: string, salt: string,
                    hash: (string, string) -> string, sign: nat -> string, fault: Fault): (o: Outcome)
    ensures fault.LookupFails? ==> o == Outcome(t, Response(500, ServerErrorBody(SignUpServerError, fault.msg)))
    ensures !fault.LookupFails? && email in t.users ==>
              o == Outcome(t, Response(400, ErrorBody("User already exists")))
    ensures !fault.LookupFails? && email !in t.users && (fault.HashFails? || fault.SaveFails?) ==>
              o == Outcome(t, Response(500, ServerErrorBody(SignUpServerError, fault.msg)))
    ensures !fault.LookupFails? && email !in t.users && fault.SignFails? ==>
              o.response == Response(500, ServerErrorBody(SignUpServerError, fault.msg))
    ensures (o.table != t) <==> email !in t.users && (fault.NoFault? || fault.SignFails? || fault.CompareFails?)
    ensures o.table != t ==>
              o.table.users == t.users[email := User(t.nextId, name, email, hash(password, salt))] &&
              o.table.nextId == t.nextId + 1
    ensures o.response.status == 200 <==> o.table != t && !fault.SignFails?
    ensures o.response.status == 200 ==>
              o.response.body == UserBody(t.nextId, name, email, sign(t.nextId), "User created successfully")
  {
    if fault.LookupFails? then Outcome(t, Response(500, ServerErrorBody(SignUpServerError, fault.msg)))
    else if email in t.users then Outcome(t, Response(400, ErrorBody("User already exists")))
    else if fault.HashFails? || fault.SaveFails? then
      Outcome(t, Response(500, ServerErrorBody(SignUpServerError, fault.msg)))
    else
      var user := User(t.nextId, name, email, hash(password, salt));
      var saved := Table(t.users[email := user], t.nextId + 1);
      if fault.SignFails? then Outcome(saved, Response(500, ServerErrorBody(SignUpServerError, fault.msg)))
      else Outcome(saved, Response(200, UserBody(user.id, name, email, sign(user.id), "User created successfully")))
  }

  /** `signIn`: an unknown email is 400 "User not found", a password that does not match
      the stored hash is 400 "Invalid credentials", a throw from the lookup, the comparison
      or the signing is 500 with the error's message, and otherwise the reply carries
      `sign(id)`. It reads the table only. */
  function Authenticate(t: Table, email: string, password: string,
                        compare: (string, string) -> bool, sign: nat -> string, fault: Fault): (r: Response)
    ensures r.status == 200 <==>
              !fault.LookupFails? && email in t.users && !fault.CompareFails? &&
              compare(password, t.users[email].password) && !fault.SignFails?
    ensures r.status == 200 ==>
              var u := t.users[email];
              r.body == UserBody(u.id, u.name, u.email, sign(u.id), "User logged in successfully")
    ensures fault.LookupFails? ==> r == Response(500, ServerErrorBody(SignInServerError, fault.msg))
    ensures !fault.LookupFails? && email !in t.users ==> r == Response(400, ErrorBody("User not found"))
    ensures !fault.LookupFails? && email in t.users && fault.CompareFails? ==>
              r == Response(500, ServerErrorBody(SignInServerError, fault.msg))
    ensures !fault.LookupFails? && email in t.users && !fault.CompareFails? &&
            compare(password, t.users[email].password) && fault.SignFails? ==>
              r == Response(500, ServerErrorBody(SignInServerError, fault.msg))
    ensures !fault.LookupFails? && !fault.CompareFails? && email in t.users &&
            !compare(password, t.users[email].password) ==>
              r == Response(400, ErrorBody("Invalid credentials"))
    ensures r.status != 200 ==> !r.body.UserBody?
  {
    if fault.LookupFails? then Response(500, ServerErrorBody(SignInServerError, fault.msg))
    else if email !in t.users then Response(400, ErrorBody("User not found"))
    else if fault.CompareFails? then Response(500, ServerErrorBody(SignInServerError, fault.msg))
    else
      var u := t.users[email];
      if !compare(password, u.password) then Response(400, ErrorBody("Invalid credentials"))
      else if fault.SignFails? then Response(500, ServerErrorBody(SignInServerError, fault.msg))
      else Response(200, UserBody(u.id, u.name, u.email, sign(u.id), "User logged in successfully"))
  }

  /** A sign-up keeps the table well formed, and every other user as they were. */
  lemma RegisterPreservesValid(t: Table, name: string, email: string, password: string, salt: string,
                               hash: (string, string) -> string, sign: nat -> string, fault: Fault)
    requires ValidTable(t)
    ensures var o := Register(t, name, email, password, salt, hash, sign, fault);
            ValidTable(o.table) &&
            (forall e :: e in t.users ==> e in o.table.users && o.table.users[e] == t.users[e])
  {
  }

  /** A user who has just signed up can sign in with the same password, provided the
      comparison accepts a password against its own hash, and receives the same id and
      token as the sign-up reply. */
  lemma SignUpThenSignIn(t: Table, name: string, email: string, password: string, salt: string,
                         hash: (string, string) -> string, compare: (string, string) -> bool, sign: nat -> string)
    requires email !in t.users
    requires compare(password, hash(password, salt))
    ensures var o := Register(t, name, email, password, salt, hash, sign, NoFault);
            o.response.status == 200 &&
            Authenticate(o.table, email, password, compare, sign, NoFault) ==
              Response(200, UserBody(t.nextId, name, email, sign(t.nextId), "User logged in successfully")) &&
            o.response.body.jwt == Authenticate(o.table, email, password, compare, sign, NoFault).body.jwt
  {
  }

  /** Signing up twice with one email saves one user: the second request is refused and
      changes nothing. */
  lemma SecondSignUpRefused(t: Table, name: string, email: string, password: string, salt: string,
                            name2: string, password2: string, salt2: string,
                            hash: (string, string) -> string, sign: nat -> string)
    ensures var o := Register(t, name, email, password, salt, hash, sign, NoFault);
            var o2 := Register(o.table, name2, email, password2, salt2, hash, sign, NoFault);
            o2.table == o.table && o2.response == Response(400, ErrorBody("User already exists"))
  {
  }

  /** The collection, updated in place by the sign-up handler. */
  class UserCollection {
    var users: map<string, User>
    var nextId: nat

    constructor ()
      ensures users == map[] && nextId == 0
    {
      users, nextId := map[], 0;
    }

    function Contents(): Table
      reads this
    {
      Table(users, nextId)
    }

    /** The sign-up request: `findOne`, `genSalt` (its random salt is a parameter),
        `hash`, `save`, then the reply. */
    method SignUp(name: string, email: string, password: string, salt: string,
                  hash: (string, string) -> string, sign: nat -> string, fault: Fault) returns (r: Response)
      modifies this
      ensures Outcome(Contents(), r) == Register(old(Contents()), name, email, password, salt, hash, sign, fault)
    {
      if fault.LookupFails? {
        return Response(500, ServerErrorBody(SignUpServerError, fault.msg));
      }
      if email in users {
        return Response(400, ErrorBody("User already exists"));
      }
      if fault.HashFails? {
        return Response(500, ServerErrorBody(SignUpServerError, fault.msg));
      }
      var hashed := hash(password, salt);
      var user := User(nextId, name, email, hashed);
      if fault.SaveFails? {
        return Response(500, ServerErrorBody(SignUpServerError, fault.msg));
      }
      users := users[email := user];
      nextId := nextId + 1;
      if fault.SignFails? {
        return Response(500, ServerErrorBody(SignUpServerError, fault.msg));
      }
      r := Response(200, UserBody(user.id, user.name, user.email, sign(user.id), "User created successfully"));
    }

    /** The sign-in request: `findOne`, `compare`, then the reply. */
    method SignIn(email: string, password: string, compare: (string, string) -> bool,
                  sign: nat -> string, fault: Fault) returns (r: Response)
      ensures r == Authenticate(Contents(), email, password, compare, sign, fault)
    {
      if fault.LookupFails? {
        return Response(500, ServerErrorBody(SignInServerError, fault.msg));
      }
      if email !in users {
        return Response(400, ErrorBody("User not found"));
      }
      var user := users[email];
      if fault.CompareFails? {
        return Response(500, ServerErrorBody(SignInServerError, fault.msg));
      }
      var isMatch := compare(password, user.password);
      if !isMatch {
        return Response(400, ErrorBody("Invalid credentials"));
      }
      if fault.SignFails? {
        return Response(500, ServerErrorBody(SignInServerError, fault.msg));
      }
      r := Response(200, UserBody(user.id, user.name, user.email, sign(user.id), "User logged in successfully"));
    }
  }
}
