/**
 * Authentication: the username and password rules, the one-time setup that creates the first
 * user behind the user-count gate, and the case-insensitive login whose two failures answer
 * alike.  The password hash is an abstract function of the password; token signing is not part
 * of this model.
 */
module AuthRoutes {
  import opened Wrappers
  import opened Store

  const AlreadySetup: string := "ALREADY_SETUP"
  const ValidationError: string := "VALIDATION_ERROR"
  const UsernameTaken: string := "USERNAME_TAKEN"
  const InvalidCredentials: string := "INVALID_CREDENTIALS"

  // ---------------------------------------------------------------------------------------------
  // Trimming and case

  /** The white space and line terminators JavaScript's `trim` removes. */
  predicate IsSpace(c: char) {
    || c == '\t' || c == '\n' || c == '\U{000B}' || c == '\U{000C}' || c == '\r' || c == ' '
    || c == '\U{00A0}' || c == '\U{1680}' || ('\U{2000}' <= c <= '\U{200A}')
    || c == '\U{2028}' || c == '\U{2029}' || c == '\U{202F}' || c == '\U{205F}'
    || c == '\U{3000}' || c == '\U{FEFF}'
  }

  /** The number of white-space characters `s` starts with. */
  function Lead(s: string): (n: nat)
    ensures n <= |s| && (n == |s| || !IsSpace(s[n]))
    ensures forall i :: 0 <= i < n ==> IsSpace(s[i])
  {
    if s != [] && IsSpace(s[0]) then 1 + Lead(s[1..]) else 0
  }

  /** `s` without its trailing white space. */
  function TrimEnd(s: string): (r: string)
    ensures |r| <= |s| && r == s[..|r|]
    ensures r == [] || !IsSpace(r[|r| - 1])
    ensures forall i :: |r| <= i < |s| ==> IsSpace(s[i])
  {
    if s != [] && IsSpace(s[|s| - 1]) then TrimEnd(s[..|s| - 1]) else s
  }

  /** The `trim` sanitiser: the longest infix without white space at either end. */
  function Trim(s: string): (r: string)
    ensures Lead(s) + |r| <= |s| && r == s[Lead(s)..Lead(s) + |r|]
    ensures forall k :: Lead(s) + |r| <= k < |s| ==> IsSpace(s[k])
    ensures r == [] || (!IsSpace(r[0]) && !IsSpace(r[|r| - 1]))
  {
    var t := s[Lead(s)..];
    var r := TrimEnd(t);
    assert forall k :: Lead(s) + |r| <= k < |s| ==> s[k] == t[k - Lead(s)];
    r
  }

  /** Trimming twice is trimming once. */
  lemma TrimIdempotent(s: string)
    ensures Trim(Trim(s)) == Trim(s)
  {
    var r := Trim(s);
    assert Lead(r) == 0;
    assert r[0..] == r;
  }

  /** ASCII lower case; the names that reach it have passed the username rule. */
  function Lower(c: char): (d: char)
    ensures 'A' <= c <= 'Z' ==> d as int == c as int + 32
    ensures !('A' <= c <= 'Z') ==> d == c
  {
    if 'A' <= c <= 'Z' then (c as int + 32) as char else c
  }

  function ToLower(s: string): (r: string)
    ensures |r| == |s| && forall i :: 0 <= i < |s| ==> r[i] == Lower(s[i])
  {
    seq(|s|, i requires 0 <= i < |s| => Lower(s[i]))
  }

  /** Lower-casing twice is lower-casing once. */
  lemma ToLowerIdempotent(s: string)
    ensures ToLower(ToLower(s)) == ToLower(s)
  {
  }

  // ---------------------------------------------------------------------------------------------
  // Validation

  /** A character of `[a-zA-Z0-9_]`. */
  predicate IsWordChar(c: char) {
    ('a' <= c <= 'z') || ('A' <= c <= 'Z') || ('0' <= c <= '9') || c == '_'
  }

  /** The username rule, on the trimmed name: 3 to 50 characters, all word characters. */
  predicate ValidUsername(username: string) {
    var t := Trim(username);
    3 <= |t| <= 50 && forall i :: 0 <= i < |t| ==> IsWordChar(t[i])
  }

  /** The password rule: at least 6 characters. */
  predicate ValidPassword(password: string) {
    |password| >= 6
  }

  /** The login rules: both of the above. */
  predicate LoginValid(username: string, password: string) {
    ValidUsername(username) && ValidPassword(password)
  }

  /** The setup rules: the login rules and a confirmation equal to the password. */
  predicate SetupValid(username: string, password: string, confirmPassword: Option<string>) {
    LoginValid(username, password) && confirmPassword == Some(password)
  }

  /** The key a name is stored and looked up under: trimmed, then lower-cased. */
  function Normalize(username: string): (key: string)
    ensures ValidUsername(username) ==> 3 <= |key| <= 50
    ensures ValidUsername(username) ==> forall i :: 0 <= i < |key| ==> IsWordChar(key[i]) && !('A' <= key[i] <= 'Z')
  {
    ToLower(Trim(username))
  }

  /** Names that differ only in case or surrounding white space are equally valid. */
  lemma ValidityIgnoresCase(a: string, b: string)
    requires Normalize(a) == Normalize(b)
    ensures ValidUsername(a) <==> ValidUsername(b)
  {
    var ta, tb := Trim(a), Trim(b);
    assert |ta| == |tb|;
    forall i | 0 <= i < |ta|
      ensures IsWordChar(ta[i]) <==> IsWordChar(tb[i])
    {
      assert Lower(ta[i]) == Lower(tb[i]);
    }
  }

  // ---------------------------------------------------------------------------------------------
  // Setup

  /** `checkFirstSetup`: the gate is open exactly while there is no user. */
  method CheckFirstSetup(db: Database) returns (isFirstSetup: bool)
    ensures isFirstSetup <==> db.users == map[]
  {
    isFirstSetup := |db.users| == 0;
  }

  /** The row setup creates: the normalised name, the password hash and the default preferences. */
  function NewUser(username: string, password: string, hash: string -> string): (u: User)
    ensures u.username == Normalize(username) && u.password == hash(password)
    ensures u.preferences.defaultCPA == 50.0 && u.preferences.notifications
  {
    User(Normalize(username), hash(password), Preferences(50.0, true))
  }

  /**
   * `POST /setup`: refused once the gate saw a user, before any validation; then the input is
   * validated; then the user is created, unless a row with the same name appeared meanwhile.
   */
  method Setup(db: Database, isFirstSetup: bool, username: string, password: string,
               confirmPassword: Option<string>, hash: string -> string)
    returns (r: Result<string, string>)
    modifies db`users
    ensures !isFirstSetup ==> r == Err(AlreadySetup)
    ensures isFirstSetup && !SetupValid(username, password, confirmPassword) ==> r == Err(ValidationError)
    ensures isFirstSetup && SetupValid(username, password, confirmPassword) && Normalize(username) in old(db.users)
            ==> r == Err(UsernameTaken)
    ensures isFirstSetup && SetupValid(username, password, confirmPassword) && Normalize(username) !in old(db.users)
            ==> r == Ok(Normalize(username))
    ensures r.Err? ==> db.users == old(db.users)
    ensures r.Ok? ==> db.users != map[]
    ensures r.Ok? ==> && isFirstSetup && SetupValid(username, password, confirmPassword)
                      && r.value == Normalize(username) && r.value !in old(db.users)
                      && db.users == old(db.users)[r.value := NewUser(username, password, hash)]
  {
    if !isFirstSetup {
      return Err(AlreadySetup);
    }
    if !SetupValid(username, password, confirmPassword) {
      return Err(ValidationError);
    }
    var key := Normalize(username);
    if key in db.users {
      return Err(UsernameTaken);
    }
    db.users := db.users[key := NewUser(username, password, hash)];
    assert key in db.users;
    r := Ok(key);
  }

  /**
   * Two setup requests in a row, each behind its own gate: once the first has created a user,
   * the gate is closed and the second is refused as already done, whatever it sends.
   */
  method SecondSetupRefused(db: Database, username: string, password: string, confirmPassword: Option<string>,
                            username2: string, password2: string, confirmPassword2: Option<string>,
                            hash: string -> string)
    returns (r1: Result<string, string>, r2: Result<string, string>)
    modifies db`users
    ensures r1.Ok? ==> r2 == Err(AlreadySetup)
    ensures r1.Ok? ==> r1 == Ok(Normalize(username)) && db.users == old(db.users)[r1.value := NewUser(username, password, hash)]
  {
    var gate := CheckFirstSetup(db);
    r1 := Setup(db, gate, username, password, confirmPassword, hash);
    var gate2 := CheckFirstSetup(db);
    r2 := Setup(db, gate2, username2, password2, confirmPassword2, hash);
  }

  // ---------------------------------------------------------------------------------------------
  // Login

  /**
   * `POST /login`: invalid input is refused; the user is looked up by the normalised name; an
   * unknown name and a wrong password give the same answer.
   */
  function Login(users: map<string, User>, username: string, password: string, hash: string -> string)
    : (r: Result<string, string>)
    ensures !LoginValid(username, password) ==> r == Err(ValidationError)
    ensures LoginValid(username, password) && Normalize(username) !in users ==> r == Err(InvalidCredentials)
    ensures (&& LoginValid(username, password) && Normalize(username) in users
             && users[Normalize(username)].password != hash(password)) ==> r == Err(InvalidCredentials)
    ensures r.Ok? <==> && LoginValid(username, password) && Normalize(username) in users
                       && users[Normalize(username)].password == hash(password)
    ensures r.Ok? ==> r.value == users[Normalize(username)].username
  {
    if !LoginValid(username, password) then Err(ValidationError)
    else
      var key := Normalize(username);
      if key !in users then Err(InvalidCredentials)
      else if users[key].password != hash(password) then Err(InvalidCredentials)
      else Ok(users[key].username)
  }

  /** Login does not depend on the case or the surrounding white space of the name. */
  lemma LoginIgnoresCase(users: map<string, User>, a: string, b: string, password: string, hash: string -> string)
    requires Normalize(a) == Normalize(b)
    ensures Login(users, a, password, hash) == Login(users, b, password, hash)
  {
    ValidityIgnoresCase(a, b);
  }

  /**
   * After setup created a user, logging in with the same password and the name in any case
   * succeeds and yields the stored (lower-case) name.
   */
  lemma SetupThenLogin(users: map<string, User>, username: string, password: string, other: string,
                       hash: string -> string)
    requires SetupValid(username, password, Some(password)) && Normalize(other) == Normalize(username)
    ensures var created := users[Normalize(username) := NewUser(username, password, hash)];
      Login(created, other, password, hash) == Ok(Normalize(username))
  {
    ValidityIgnoresCase(username, other);
  }
}
