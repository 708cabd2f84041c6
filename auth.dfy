/** The credentials sign-in of `lib/auth.js`: one form both logs in a known email and
    registers an unknown one, and the token and session callbacks that carry the user.
    bcrypt is a pair of parameters: `verifies(plain, hash)` for `compare` and `hash`. */
module Auth {
  import opened Wrappers
  import opened Text
  import opened Records
  import opened Store

  const MinPasswordLength: nat := 6

  /** `session.maxAge`: thirty days, in seconds. */
  const MaxAge: int := 30 * 24 * 60 * 60

  /** `authorize(credentials)`: the user to sign in, or `None` for the `null` it returns,
      with the store after it. A database call that throws (`fault`) and the short-password
      error are both caught and give `None`. */
  function Authorize(db: Db, email: string, password: string, verifies: (string, string) -> bool,
                     hash: string -> string, newId: Id, fault: bool): (out: (Option<User>, Db))
    ensures fault ==> out == (None, db)
    ensures !fault && UserByEmail(db, email).Some? ==>
      && out.1 == db
      && (out.0.Some? <==> verifies(password, UserByEmail(db, email).value.password))
      && (out.0.Some? ==> out.0 == UserByEmail(db, email))
    ensures !fault && UserByEmail(db, email).None? && Utf16Length(password) < MinPasswordLength ==> out == (None, db)
    ensures !fault && UserByEmail(db, email).None? && Utf16Length(password) >= MinPasswordLength ==>
      && out.0.Some?
      && out.0.value.id == newId && out.0.value.email == email
      && out.0.value.password == hash(password)
      && out.0.value.name == BeforeFirst(email, '@') && out.0.value.image.None?
      && out.1 == db.(users := db.users + [out.0.value])
  {
    if fault then (None, db)
    else match UserByEmail(db, email)
      case Some(u) => if verifies(password, u.password) then (Some(u), db) else (None, db)
      case None =>
        if Utf16Length(password) < MinPasswordLength then (None, db)
        else
          var u := User(newId, email, BeforeFirst(email, '@'), hash(password), None);
          (Some(u), db.(users := db.users + [u]))
  }

  /** Registering stores the hash, never the password itself, whenever the hash differs
      from its input. */
  lemma RegistrationStoresNoPlaintext(db: Db, email: string, password: string, verifies: (string, string) -> bool,
                                      hash: string -> string, newId: Id)
    requires UserByEmail(db, email).None? && Utf16Length(password) >= MinPasswordLength
    requires hash(password) != password
    requires forall u :: u in db.users ==> u.password != password
    ensures forall u :: u in Authorize(db, email, password, verifies, hash, newId, false).1.users ==> u.password != password
  {
  }

  /** After registering, the same email and password sign in as the same user, given that
      a password verifies against its own hash. */
  lemma RegisterThenLogin(db: Db, email: string, password: string, verifies: (string, string) -> bool,
                          hash: string -> string, newId: Id, laterId: Id)
    requires UserByEmail(db, email).None? && Utf16Length(password) >= MinPasswordLength
    requires verifies(password, hash(password))
    ensures var first := Authorize(db, email, password, verifies, hash, newId, false);
      && first.0.Some?
      && Authorize(first.1, email, password, verifies, hash, laterId, false) == (first.0, first.1)
  {
    var first := Authorize(db, email, password, verifies, hash, newId, false);
    var u := first.0.value;
    var found := UserByEmail(first.1, email);
    assert u in first.1.users;
    assert found.Some?;
    assert found.value in db.users + [u];
    assert found.value == u;
  }

  /** A wrong password for a known email neither signs in nor changes anything; in
      particular it never re-registers the email. */
  lemma WrongPasswordRejected(db: Db, email: string, password: string, verifies: (string, string) -> bool,
                              hash: string -> string, newId: Id)
    requires UserByEmail(db, email).Some? && !verifies(password, UserByEmail(db, email).value.password)
    ensures Authorize(db, email, password, verifies, hash, newId, false) == (None, db)
  {
  }

  /** Sign-in keeps emails unique: a registration only happens for an email no user
      has. */
  lemma RegistrationKeepsEmailsUnique(db: Db, email: string, password: string, verifies: (string, string) -> bool,
                                      hash: string -> string, newId: Id)
    requires forall i, j :: 0 <= i < j < |db.users| ==> db.users[i].email != db.users[j].email
    ensures var after := Authorize(db, email, password, verifies, hash, newId, false).1;
      forall i, j :: 0 <= i < j < |after.users| ==> after.users[i].email != after.users[j].email
  {
    var after := Authorize(db, email, password, verifies, hash, newId, false).1;
    if after != db {
      assert after.users == db.users + [after.users[|db.users|]];
      forall i, j | 0 <= i < j < |after.users| ensures after.users[i].email != after.users[j].email {
        if j == |db.users| {
          assert after.users[i] == db.users[i];
          assert after.users[i] in db.users;
        }
      }
    }
  }

  /** The JWT `token` object, which the `jwt` callback updates in place. */
  class Token {
    var user: Option<User>

    constructor ()
      ensures user.None?
    {
      user := None;
    }

    /** `jwt({ token, user })`: `user` is present at sign-in only; otherwise the token keeps
        the user it has. */
    method Jwt(signedIn: Option<User>)
      modifies this
      ensures signedIn.Some? ==> user == signedIn
      ensures signedIn.None? ==> user == old(user)
    {
      if signedIn.Some? {
        user := signedIn;
      }
    }
  }

  /** The `session` object, which the `session` callback updates in place. */
  class Session {
    var user: Option<User>

    constructor ()
      ensures user.None?
    {
      user := None;
    }

    /** `session({ session, token })`: the session's user is the token's, whatever it was. */
    method Fill(token: Token)
      modifies this
      ensures user == token.user
    {
      user := token.user;
    }
  }

  /** A sign-in followed by any number of token refreshes still shows the signed-in user
      in the session. */
  method SignInThenRefresh(u: User, refreshes: nat) returns (shown: Option<User>)
    ensures shown == Some(u)
  {
    var token := new Token();
    token.Jwt(Some(u));
    var k := 0;
    while k < refreshes
      invariant token.user == Some(u)
    {
      token.Jwt(None);
      k := k + 1;
    }
    var session := new Session();
    session.Fill(token);
    shown := session.user;
  }
}
