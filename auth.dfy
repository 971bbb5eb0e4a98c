/**
 * Registration and login over the user table. Emails are stored normalised (stripped, lower
 * case), so the table never holds two users with the same normalised email. Password hashing
 * is the parameter `hash`; checking a password compares its hash with the stored one.
 * Token creation is not part of this model.
 */
module Auth {
  import opened Common

  datatype UserRow = UserRow(name: string, email: string, passwordHash: string)

  /** `(email or "").strip().lower()`. */
  function NormalizeEmail(email: Option<string>): string {
    LowerAscii(PyStrip(GetOr(email, "")))
  }

  /** `(name or "").strip()`. */
  function NormalizeName(name: Option<string>): string {
    PyStrip(GetOr(name, ""))
  }

  /** No two rows share an email (the column is unique). */
  ghost predicate UniqueEmails(rows: seq<UserRow>) {
    forall i, j :: 0 <= i < j < |rows| ==> rows[i].email != rows[j].email
  }

  /** `User.query.filter_by(email=email).first()`: the first row with that email. */
  function FirstWithEmail(rows: seq<UserRow>, email: string): (k: Option<nat>)
    ensures k.Some? ==> k.value < |rows| && rows[k.value].email == email
    ensures k.Some? ==> forall j :: 0 <= j < k.value ==> rows[j].email != email
    ensures k.None? <==> forall j :: 0 <= j < |rows| ==> rows[j].email != email
  {
    if rows == [] then None
    else if rows[0].email == email then Some(0)
    else
      match FirstWithEmail(rows[1..], email)
      case None => None
      case Some(k) => Some(k + 1)
  }

  /** `not password`: an absent or empty password. */
  predicate MissingPassword(password: Option<string>) {
    password.None? || password.value == ""
  }

  /** The outcome of `register` on a table: the response (the name, or an error status) and the new table. */
  function RegisterOutcome(rows: seq<UserRow>, name: Option<string>, email: Option<string>,
                           password: Option<string>, hash: string -> string): (r: (Result<string, int>, seq<UserRow>))
    ensures var n, e := NormalizeName(name), NormalizeEmail(email);
      && (n == "" || e == "" || MissingPassword(password) ==> r == (Err(400), rows))
      && (n != "" && e != "" && !MissingPassword(password) && FirstWithEmail(rows, e).Some? ==> r == (Err(409), rows))
      && (r.0.Ok? <==> n != "" && e != "" && !MissingPassword(password) && FirstWithEmail(rows, e).None?)
      && (r.0.Ok? ==> r.0.value == n && r.1 == rows + [UserRow(n, e, hash(password.value))])
  {
    var n, e := NormalizeName(name), NormalizeEmail(email);
    if n == "" || e == "" || MissingPassword(password) then (Err(400), rows)
    else if FirstWithEmail(rows, e).Some? then (Err(409), rows)
    else (Ok(n), rows + [UserRow(n, e, hash(password.value))])
  }

  /** The response of `login`: the stored user's name, or an error status. */
  function LoginOutcome(rows: seq<UserRow>, email: Option<string>, password: Option<string>,
                        hash: string -> string): (r: Result<string, int>)
    ensures var e := NormalizeEmail(email);
      && (e == "" || MissingPassword(password) ==> r == Err(400))
      && (r.Ok? <==> e != "" && !MissingPassword(password) && FirstWithEmail(rows, e).Some?
                     && rows[FirstWithEmail(rows, e).value].passwordHash == hash(password.value))
      && (r.Ok? ==> r.value == rows[FirstWithEmail(rows, e).value].name)
      && (e != "" && !MissingPassword(password) && r.Err? ==> r == Err(401))
  {
    var e := NormalizeEmail(email);
    if e == "" || MissingPassword(password) then Err(400)
    else
      match FirstWithEmail(rows, e)
      case None => Err(401)
      case Some(k) => if rows[k].passwordHash != hash(password.value) then Err(401) else Ok(rows[k].name)
  }

  /** A row appended for an email not yet in the table is the one found for it. */
  lemma {:induction false} FirstWithEmailAppended(rows: seq<UserRow>, row: UserRow)
    requires FirstWithEmail(rows, row.email).None?
    ensures FirstWithEmail(rows + [row], row.email) == Some(|rows|)
  {
    if rows != [] {
      assert (rows + [row])[1..] == rows[1..] + [row];
      FirstWithEmailAppended(rows[1..], row);
    }
  }

  /** A successful registration keeps emails unique. */
  lemma RegisterKeepsEmailsUnique(rows: seq<UserRow>, name: Option<string>, email: Option<string>,
                                  password: Option<string>, hash: string -> string)
    requires UniqueEmails(rows)
    ensures UniqueEmails(RegisterOutcome(rows, name, email, password, hash).1)
  {
  }

  /** A registered user can log in with the same password, by any spelling of the email that normalises the same. */
  lemma {:induction false} RegisterThenLogin(rows: seq<UserRow>, name: Option<string>, email: Option<string>,
                                             password: Option<string>, hash: string -> string, loginEmail: Option<string>)
    requires UniqueEmails(rows)
    requires RegisterOutcome(rows, name, email, password, hash).0.Ok?
    requires NormalizeEmail(loginEmail) == NormalizeEmail(email)
    ensures LoginOutcome(RegisterOutcome(rows, name, email, password, hash).1, loginEmail, password, hash)
            == Ok(NormalizeName(name))
  {
    var e := NormalizeEmail(email);
    FirstWithEmailAppended(rows, UserRow(NormalizeName(name), e, hash(password.value)));
  }

  /** With an injective hash, a password other than the registered one is refused with 401. */
  lemma WrongPasswordRefused(rows: seq<UserRow>, name: Option<string>, email: Option<string>,
                             password: Option<string>, hash: string -> string, wrong: string)
    requires forall a, b :: hash(a) == hash(b) ==> a == b
    requires RegisterOutcome(rows, name, email, password, hash).0.Ok?
    requires wrong != "" && wrong != password.value
    ensures LoginOutcome(RegisterOutcome(rows, name, email, password, hash).1, email, Some(wrong), hash) == Err(401)
  {
    var e := NormalizeEmail(email);
    FirstWithEmailAppended(rows, UserRow(NormalizeName(name), e, hash(password.value)));
  }

  lemma LowerKeepsSpaces(c: char)
    ensures IsPySpace(LowerChar(c)) <==> IsPySpace(c)
  {
  }

  /** A normalised email normalises to itself, so login looks up what register stored. */
  lemma NormalizeEmailIdempotent(email: Option<string>)
    ensures NormalizeEmail(Some(NormalizeEmail(email))) == NormalizeEmail(email)
  {
    var y := PyStrip(GetOr(email, ""));
    var z := LowerAscii(y);
    TrimShape(GetOr(email, ""), IsPySpace);
    if z != [] {
      LowerKeepsSpaces(y[0]);
      LowerKeepsSpaces(y[|y| - 1]);
      assert !IsPySpace(z[0]) && !IsPySpace(z[|z| - 1]);
    }
    assert TrimStart(z, IsPySpace) == z;
    assert TrimEnd(z, IsPySpace) == z;
    assert PyStrip(z) == z;
    LowerIdempotent(y);
  }

  /** The users, in insertion order; a row's id is its position plus one. */
  class UserTable {
    var rows: seq<UserRow>

    ghost predicate Valid()
      reads this
    {
      UniqueEmails(rows)
    }

    constructor ()
      ensures rows == [] && Valid()
    {
      rows := [];
    }

    /** The lookup by email, scanning the table. */
    method FindByEmail(email: string) returns (k: Option<nat>)
      ensures k == FirstWithEmail(rows, email)
    {
      var i := 0;
      while i < |rows|
        invariant 0 <= i <= |rows|
        invariant forall j :: 0 <= j < i ==> rows[j].email != email
      {
        if rows[i].email == email {
          return Some(i);
        }
        i := i + 1;
      }
      return None;
    }

    /** `register`: 400 on a missing field, 409 on a taken email, otherwise one new user. */
    method Register(name: Option<string>, email: Option<string>, password: Option<string>, hash: string -> string)
      returns (response: Result<string, int>)
      requires Valid()
      modifies this
      ensures (response, rows) == RegisterOutcome(old(rows), name, email, password, hash)
      ensures Valid()
    {
      var n := PyStrip(GetOr(name, ""));
      var e := LowerAscii(PyStrip(GetOr(email, "")));
      if n == "" || e == "" || password.None? || password.value == "" {
        return Err(400);
      }
      var existing := FindByEmail(e);
      if existing.Some? {
        return Err(409);
      }
      rows := rows + [UserRow(n, e, hash(password.value))];
      response := Ok(n);
      RegisterKeepsEmailsUnique(old(rows), name, email, password, hash);
    }

    /** `login`: 400 on a missing field, 401 on an unknown email or a wrong password. */
    method Login(email: Option<string>, password: Option<string>, hash: string -> string)
      returns (response: Result<string, int>)
      ensures response == LoginOutcome(rows, email, password, hash)
    {
      var e := LowerAscii(PyStrip(GetOr(email, "")));
      if e == "" || password.None? || password.value == "" {
        return Err(400);
      }
      var k := FindByEmail(e);
      if k.None? || rows[k.value].passwordHash != hash(password.value) {
        return Err(401);
      }
      return Ok(rows[k.value].name);
    }
  }
}
