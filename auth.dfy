/** Accounts and sign-in (js/auth.js): the list of registered users and the
 *  session of the signed-in user, which is a copy of that user without the
 *  password. Emails are compared without regard to letter case. */
module Auth {
  import opened Common

  datatype User = User(id: string, name: string, email: string, password: string, role: string,
                       phone: string, address: string, createdAt: string)

  /** The signed-in user as the session keeps it: every field but the password. */
  datatype Session = Session(id: string, name: string, email: string, role: string,
                             phone: string, address: string, createdAt: string)

  /** The fields `updateUserInfo` may overwrite; None leaves a field as it is. */
  datatype UserPatch = UserPatch(name: Option<string>, email: Option<string>, password: Option<string>,
                                 role: Option<string>, phone: Option<string>, address: Option<string>)

  datatype AuthError = FieldsRequired | PasswordTooShort | EmailTaken | WrongCredentials

  const MinPasswordLength := 6

  /** `{ ...user }` with the password deleted. */
  function SessionOf(u: User): Session
  {
    Session(u.id, u.name, u.email, u.role, u.phone, u.address, u.createdAt)
  }

  predicate IdsUnique(users: seq<User>)
  {
    forall i, j :: 0 <= i < j < |users| ==> users[i].id != users[j].id
  }

  /** The first index holding that id, or -1. */
  function UserIndex(users: seq<User>, id: string): (r: int)
    ensures -1 <= r < |users|
    ensures r == -1 <==> forall j :: 0 <= j < |users| ==> users[j].id != id
    ensures 0 <= r ==> users[r].id == id && forall j :: 0 <= j < r ==> users[j].id != id
  {
    FirstIndex(users, (u: User) => u.id == id)
  }

  /** emailExists: some user's email equals `email` up to letter case. */
  predicate EmailExists(users: seq<User>, email: string)
  {
    exists j :: 0 <= j < |users| && ToLower(users[j].email) == ToLower(email)
  }

  /** Whether an email is taken does not depend on how it is capitalised. */
  lemma EmailExistsIgnoresCase(users: seq<User>, email: string)
    ensures EmailExists(users, email) <==> EmailExists(users, ToLower(email))
  {
    ToLowerIdempotent(email);
  }

  /** No two accounts share an email, up to letter case. */
  predicate EmailsDistinct(users: seq<User>)
  {
    forall i, j :: 0 <= i < j < |users| ==> ToLower(users[i].email) != ToLower(users[j].email)
  }

  /** The email as register stores it: lower-cased, then trimmed. */
  function StoredEmail(email: string): string
  {
    Trim(ToLower(email))
  }

  /** The account register creates; `id` comes from the clock. */
  function NewUser(id: string, name: string, email: string, password: string, createdAt: string): User
  {
    User(id, Trim(name), StoredEmail(email), password, "user", "", "", createdAt)
  }

  /** register's checks as written: the email as typed is looked up, not the
   *  email that is then stored. */
  function RegisterRejectionAsWritten(users: seq<User>, name: string, email: string, password: string): (r: Option<AuthError>)
    ensures r == Some(FieldsRequired) <==> name == "" || email == "" || password == ""
    ensures r == Some(PasswordTooShort) <==>
              name != "" && email != "" && password != "" && |password| < MinPasswordLength
    ensures r == Some(EmailTaken) <==>
              name != "" && email != "" && |password| >= MinPasswordLength && EmailExists(users, email)
    ensures r.None? <==>
              name != "" && email != "" && |password| >= MinPasswordLength && !EmailExists(users, email)
  {
    if name == "" || email == "" || password == "" then Some(FieldsRequired)
    else if |password| < MinPasswordLength then Some(PasswordTooShort)
    else if EmailExists(users, email) then Some(EmailTaken)
    else None
  }

  /** The checks as written let a second account with an existing email in:
   *  the stored email typed again with a trailing space slips past the lookup
   *  (no stored email ends in a space) and is trimmed off before storing. */
  lemma {:induction false} RegisterAsWrittenDuplicatesEmail(users: seq<User>, i: int, name: string, password: string,
                                                            newId: string, createdAt: string)
    requires forall j :: 0 <= j < |users| ==> Trim(users[j].email) == users[j].email
    requires 0 <= i < |users| && users[i].email != [] && ToLower(users[i].email) == users[i].email
    requires name != "" && |password| >= MinPasswordLength
    ensures RegisterRejectionAsWritten(users, name, users[i].email + " ", password).None?
    ensures !EmailsDistinct(users + [NewUser(newId, name, users[i].email + " ", password, createdAt)])
  {
    var typed := users[i].email + " ";
    forall j | 0 <= j < |users|
      ensures ToLower(users[j].email) != ToLower(typed)
    {
      var e := users[j].email;
      if |e| == |typed| {
        assert e != [] && !IsSpace(e[|e| - 1]);
        LowerCharKeepsSpace(e[|e| - 1]);
        assert ToLower(typed)[|typed| - 1] == ' ';
      }
    }
    TrailingSpaceStored(users[i].email);
    var after := users + [NewUser(newId, name, typed, password, createdAt)];
    assert after[i].email == after[|users|].email;
  }

  /** A trimmed, lower-case email typed with a trailing space is stored as it was. */
  lemma {:induction false} TrailingSpaceStored(stem: string)
    requires stem != [] && Trim(stem) == stem && ToLower(stem) == stem
    ensures StoredEmail(stem + " ") == stem
  {
    var typed := stem + " ";
    assert ToLower(typed) == typed by {
      forall j | 0 <= j < |typed|
        ensures ToLower(typed)[j] == typed[j]
      {
        if j < |stem| {
          assert typed[j] == stem[j] && ToLower(stem)[j] == LowerChar(stem[j]);
        }
      }
    }
    assert !IsSpace(stem[0]) && !IsSpace(stem[|stem| - 1]);
    assert TrimStart(typed) == typed;
    assert typed[..|typed| - 1] == stem;
    assert TrimEnd(typed) == TrimEnd(stem);
  }

  /** register's checks as intended: the email that would be stored is the one
   *  looked up. */
  function RegisterRejection(users: seq<User>, name: string, email: string, password: string): (r: Option<AuthError>)
    ensures r == Some(FieldsRequired) <==> name == "" || email == "" || password == ""
    ensures r == Some(PasswordTooShort) <==>
              name != "" && email != "" && password != "" && |password| < MinPasswordLength
    ensures r == Some(EmailTaken) <==>
              name != "" && email != "" && |password| >= MinPasswordLength && EmailExists(users, StoredEmail(email))
    ensures r.None? <==>
              name != "" && email != "" && |password| >= MinPasswordLength && !EmailExists(users, StoredEmail(email))
  {
    if name == "" || email == "" || password == "" then Some(FieldsRequired)
    else if |password| < MinPasswordLength then Some(PasswordTooShort)
    else if EmailExists(users, StoredEmail(email)) then Some(EmailTaken)
    else None
  }

  /** With the intended check, registering never produces two accounts with
   *  the same email. */
  lemma RegisterKeepsEmailsDistinct(users: seq<User>, id: string, name: string, email: string,
                                    password: string, createdAt: string)
    requires EmailsDistinct(users)
    requires RegisterRejection(users, name, email, password).None?
    ensures EmailsDistinct(users + [NewUser(id, name, email, password, createdAt)])
  {
    var after := users + [NewUser(id, name, email, password, createdAt)];
    forall i, j | 0 <= i < j < |after|
      ensures ToLower(after[i].email) != ToLower(after[j].email)
    {
      if j == |users| {
        assert after[i] == users[i];
      }
    }
  }

  /** The login test of one account: same email up to case, same password. */
  function Matches(email: string, password: string): User -> bool
  {
    (u: User) => ToLower(u.email) == ToLower(email) && u.password == password
  }

  /** The account login signs in: the first whose email (up to case) and
   *  password both match, or -1. */
  function LoginIndex(users: seq<User>, email: string, password: string): (i: int)
    ensures -1 <= i < |users|
    ensures i == -1 <==>
              forall j :: 0 <= j < |users| ==> ToLower(users[j].email) != ToLower(email) || users[j].password != password
    ensures 0 <= i ==>
              ToLower(users[i].email) == ToLower(email) && users[i].password == password &&
              forall j :: 0 <= j < i ==> ToLower(users[j].email) != ToLower(email) || users[j].password != password
  {
    FirstIndex(users, Matches(email, password))
  }

  /** login's refusals: a missing field, then no matching account. */
  function LoginRejection(users: seq<User>, email: string, password: string): (r: Option<AuthError>)
    ensures r == Some(FieldsRequired) <==> email == "" || password == ""
    ensures r == Some(WrongCredentials) <==> email != "" && password != "" && LoginIndex(users, email, password) < 0
    ensures r.None? <==> email != "" && password != "" && 0 <= LoginIndex(users, email, password)
  {
    if email == "" || password == "" then Some(FieldsRequired)
    else if LoginIndex(users, email, password) < 0 then Some(WrongCredentials)
    else None
  }

  /** Signing in right after registering, with the email as typed (no spaces
   *  at its ends) and the same password, signs in the new account. */
  lemma {:induction false} RegisterThenLogin(users: seq<User>, id: string, name: string, email: string,
                                             password: string, createdAt: string)
    requires RegisterRejection(users, name, email, password).None?
    requires Trim(email) == email
    ensures var after := users + [NewUser(id, name, email, password, createdAt)];
            LoginRejection(after, email, password).None? && LoginIndex(after, email, password) == |users|
  {
    var after := users + [NewUser(id, name, email, password, createdAt)];
    LowerKeepsTrimmed(email);
    ToLowerIdempotent(email);
    assert ToLower(StoredEmail(email)) == ToLower(email);
    forall j | 0 <= j < |users|
      ensures ToLower(after[j].email) != ToLower(email)
    {
      assert after[j] == users[j];
    }
    assert Matches(email, password)(after[|users|]);
  }

  /** `{ ...user, ...updateData }`. */
  function Merge(u: User, p: UserPatch): (m: User)
    ensures m.id == u.id && m.createdAt == u.createdAt
  {
    User(u.id, p.name.GetOr(u.name), p.email.GetOr(u.email), p.password.GetOr(u.password),
         p.role.GetOr(u.role), p.phone.GetOr(u.phone), p.address.GetOr(u.address), u.createdAt)
  }

  /** The session is a copy of the stored account with its id. */
  predicate SessionCurrent(users: seq<User>, session: Option<Session>)
  {
    session.Some? ==>
      var i := UserIndex(users, session.value.id);
      0 <= i && SessionOf(users[i]) == session.value
  }

  /** Appending an account keeps a current session current. */
  lemma AppendKeepsSessionCurrent(users: seq<User>, u: User, session: Option<Session>)
    requires SessionCurrent(users, session)
    ensures SessionCurrent(users + [u], session)
  {
    if session.Some? {
      var after := users + [u];
      var i := UserIndex(users, session.value.id);
      assert after[i] == users[i];
      assert forall j :: 0 <= j < i ==> after[j] == users[j];
      assert UserIndex(after, session.value.id) == i;
    }
  }

  /** Appending an account with a fresh id keeps ids unique and keeps a
   *  current session current. */
  lemma AppendUserKeeps(users: seq<User>, u: User, session: Option<Session>)
    requires forall j :: 0 <= j < |users| ==> users[j].id != u.id
    ensures IdsUnique(users) ==> IdsUnique(users + [u])
    ensures SessionCurrent(users, session) ==> SessionCurrent(users + [u], session)
  {
    if SessionCurrent(users, session) {
      AppendKeepsSessionCurrent(users, u, session);
    }
  }

  class Accounts {
    var users: seq<User>
    var session: Option<Session>

    constructor (seed: seq<User>)
      ensures users == seed && session == None
    {
      users := seed;
      session := None;
    }

    /** isLoggedIn. */
    predicate IsLoggedIn()
      reads this
    {
      session.Some?
    }

    /** isAdmin: signed in with the role "admin". */
    predicate IsAdmin(): (admin: bool)
      reads this
      ensures admin ==> IsLoggedIn()
    {
      session.Some? && session.value.role == "admin"
    }

    /** register, with the intended email check: the new account has role
     *  "user", no phone or address, the trimmed name and the lower-cased,
     *  trimmed email, and is appended; the session is untouched. */
    method Register(name: string, email: string, password: string, newId: string, createdAt: string)
      returns (r: Result<User, AuthError>)
      requires forall j :: 0 <= j < |users| ==> users[j].id != newId
      modifies this
      ensures r.Err? <==> RegisterRejection(old(users), name, email, password).Some?
      ensures r.Err? ==> Some(r.error) == RegisterRejection(old(users), name, email, password) && users == old(users)
      ensures r.Ok? ==>
                r.value == NewUser(newId, name, email, password, createdAt) && users == old(users) + [r.value]
      ensures session == old(session)
      ensures EmailsDistinct(old(users)) ==> EmailsDistinct(users)
      ensures IdsUnique(old(users)) ==> IdsUnique(users)
      ensures SessionCurrent(old(users), session) ==> SessionCurrent(users, session)
    {
      var rejection := RegisterRejection(users, name, email, password);
      if rejection.Some? {
        return Err(rejection.value);
      }
      if EmailsDistinct(users) {
        RegisterKeepsEmailsDistinct(users, newId, name, email, password, createdAt);
      }
      var u := NewUser(newId, name, email, password, createdAt);
      AppendUserKeeps(users, u, session);
      users := users + [u];
      r := Ok(u);
    }

    /** login: on success the session holds the matching account without its
     *  password; the accounts never change. */
    method Login(email: string, password: string) returns (r: Result<Session, AuthError>)
      modifies this
      ensures users == old(users)
      ensures r.Err? <==> LoginRejection(users, email, password).Some?
      ensures r.Err? ==> Some(r.error) == LoginRejection(users, email, password) && session == old(session)
      ensures r.Ok? ==>
                var i := LoginIndex(users, email, password);
                r.value == SessionOf(users[i]) && session == Some(r.value)
      ensures r.Ok? ==> IsLoggedIn() && (IsAdmin() <==> users[LoginIndex(users, email, password)].role == "admin")
      ensures r.Ok? && IdsUnique(users) ==> SessionCurrent(users, session)
    {
      var rejection := LoginRejection(users, email, password);
      if rejection.Some? {
        return Err(rejection.value);
      }
      var i := LoginIndex(users, email, password);
      var s := SessionOf(users[i]);
      session := Some(s);
      r := Ok(s);
      if IdsUnique(users) {
        assert UserIndex(users, s.id) == i;
      }
    }

    /** logout: the session is dropped (the page then goes to the sign-in
     *  form). */
    method Logout()
      modifies this
      ensures users == old(users) && session == None
      ensures !IsLoggedIn() && !IsAdmin()
    {
      session := None;
    }

    /** updateUserInfo: refused when signed out or when the signed-in account
     *  is gone; otherwise that account is merged with the patch and the
     *  session rewritten from it, without the password. */
    method UpdateUserInfo(patch: UserPatch) returns (ok: bool)
      modifies this
      ensures !ok <==> old(session).None? || UserIndex(old(users), old(session).value.id) < 0
      ensures !ok ==> users == old(users) && session == old(session)
      ensures ok ==>
                var i := UserIndex(old(users), old(session).value.id);
                users == old(users)[i := Merge(old(users)[i], patch)] && session == Some(SessionOf(users[i]))
      ensures ok ==> SessionCurrent(users, session)
      ensures IdsUnique(old(users)) ==> IdsUnique(users)
    {
      if session.None? {
        return false;
      }
      var i := UserIndex(users, session.value.id);
      if i < 0 {
        return false;
      }
      var oldUsers := users;
      users := users[i := Merge(users[i], patch)];
      session := Some(SessionOf(users[i]));
      assert forall j :: 0 <= j < |users| ==> users[j].id == oldUsers[j].id;
      assert UserIndex(users, users[i].id) == i;
      ok := true;
    }
  }
}
