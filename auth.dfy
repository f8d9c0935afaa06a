/**
 * The mock account service: a user table and a session kept in the
 * browser's local storage (modelled as plain fields), registration with
 * ordered validation, login by e-mail ignoring case, profile updates that
 * keep the identity fixed, logout, and the role-to-page permission table.
 */
module Auth {
  import opened Wrappers
  import opened Text
  import Js

  /** A user's avatar: an image URL, or the generated initials image for a name. */
  datatype Avatar = Url(url: string) | Initials(name: string)

  /** A user as the session sees it, without the password. */
  datatype User = User(id: int, name: string, email: string, avatar: Avatar, role: string)

  /** A record of the user table: the user and the password. */
  datatype StoredUser = StoredUser(user: User, password: string)

  datatype RegisterCredentials = RegisterCredentials(
    name: string,
    email: string,
    password: string,
    avatar: Option<string>,
    role: Option<string>)

  datatype LoginCredentials = LoginCredentials(email: string, password: string)

  /** A partial user: each present field overrides the current one. */
  datatype UserPatch = UserPatch(
    id: Option<int>,
    name: Option<string>,
    email: Option<string>,
    avatar: Option<Avatar>,
    role: Option<string>)

  /** The session token: one read back from storage, or the token issued at login for an e-mail. */
  datatype Token = Stored(raw: string) | Issued(email: string)

  datatype AuthError =
    | EmailAlreadyRegistered
    | NameTooShort
    | InvalidEmail
    | PasswordTooShort
    | EmailNotFound
    | WrongPassword
    | NotAuthenticated

  /** The message each error carries. */
  function Message(e: AuthError): string {
    match e
    case EmailAlreadyRegistered => "Este email já está cadastrado. Faça login ou use outro email."
    case NameTooShort => "Nome deve ter pelo menos 3 caracteres."
    case InvalidEmail => "Email inválido."
    case PasswordTooShort => "Senha deve ter pelo menos 6 caracteres."
    case EmailNotFound => "Email não encontrado. Verifique ou crie uma conta."
    case WrongPassword => "Senha incorreta."
    case NotAuthenticated => "Usuário não autenticado."
  }

  /** The record the table is seeded with when it is empty. */
  const DefaultUser := StoredUser(
    User(1, "Rick Sanchez", "rick@citadel.com", Url("https://rickandmortyapi.com/api/character/avatar/1.jpeg"), "Scientist"),
    "portal123")

  // ---------- E-mail format ----------

  /** A character of the class `[^\s@]`. */
  predicate PlainChar(c: char) {
    !IsWhitespace(c) && c != '@'
  }

  predicate AllPlain(s: string) {
    forall k :: 0 <= k < |s| ==> PlainChar(s[k])
  }

  /**
   * `/^[^\s@]+@[^\s@]+\.[^\s@]+$/`: the address splits at an '@' at `i` and a
   * '.' at `d` into three non-empty parts without white space or '@'.
   */
  predicate IsValidEmail(email: string) {
    exists i, d :: 0 < i && i + 1 < d && d + 1 < |email|
      && email[i] == '@' && email[d] == '.'
      && AllPlain(email[..i]) && AllPlain(email[i + 1..d]) && AllPlain(email[d + 1..])
  }

  /**
   * An address is accepted exactly when it has no white space, exactly one
   * '@', something before the '@', and a '.' after it that is neither the
   * first nor the last character after the '@'.
   */
  lemma {:induction false} ValidEmailIff(email: string)
    ensures IsValidEmail(email) <==>
      && NoWhitespace(email)
      && exists i :: (
        && 0 < i < |email| && email[i] == '@'
        && (forall k :: 0 <= k < |email| && k != i ==> email[k] != '@')
        && exists d :: i + 1 < d < |email| - 1 && email[d] == '.')
  {
    if IsValidEmail(email) {
      ValidEmailShape(email);
    }
    if && NoWhitespace(email)
       && exists i :: (
         && 0 < i < |email| && email[i] == '@'
         && (forall k :: 0 <= k < |email| && k != i ==> email[k] != '@')
         && exists d :: i + 1 < d < |email| - 1 && email[d] == '.')
    {
      ValidEmailFromShape(email);
    }
  }

  /** An accepted address has the shape `ValidEmailIff` describes. */
  lemma {:induction false} ValidEmailShape(email: string)
    requires IsValidEmail(email)
    ensures
      && NoWhitespace(email)
      && exists i :: (
        && 0 < i < |email| && email[i] == '@'
        && (forall k :: 0 <= k < |email| && k != i ==> email[k] != '@')
        && exists d :: i + 1 < d < |email| - 1 && email[d] == '.')
  {
    var i, d :| 0 < i && i + 1 < d && d + 1 < |email|
      && email[i] == '@' && email[d] == '.'
      && AllPlain(email[..i]) && AllPlain(email[i + 1..d]) && AllPlain(email[d + 1..]);
    forall k | 0 <= k < |email|
      ensures !IsWhitespace(email[k]) && (k != i ==> email[k] != '@')
    {
      if k < i {
        assert email[..i][k] == email[k];
      } else if i < k < d {
        assert email[i + 1..d][k - i - 1] == email[k];
      } else if d < k {
        assert email[d + 1..][k - d - 1] == email[k];
      }
    }
  }

  /** An address of that shape is accepted. */
  lemma {:induction false} ValidEmailFromShape(email: string)
    requires
      && NoWhitespace(email)
      && exists i :: (
        && 0 < i < |email| && email[i] == '@'
        && (forall k :: 0 <= k < |email| && k != i ==> email[k] != '@')
        && exists d :: i + 1 < d < |email| - 1 && email[d] == '.')
    ensures IsValidEmail(email)
  {
    var i :| 0 < i < |email| && email[i] == '@'
      && (forall k :: 0 <= k < |email| && k != i ==> email[k] != '@')
      && exists d :: i + 1 < d < |email| - 1 && email[d] == '.';
    var d :| i + 1 < d < |email| - 1 && email[d] == '.';
    assert AllPlain(email[..i]);
    assert AllPlain(email[i + 1..d]);
    assert AllPlain(email[d + 1..]);
  }

  /** An accepted address has no white space, so storing it trimmed and lower-cased is lower-casing it. */
  lemma {:induction false} ValidEmailStoredLowerCase(email: string)
    requires IsValidEmail(email)
    ensures Trim(ToLower(email)) == ToLower(email)
  {
    assert NoWhitespace(email) by {
      ValidEmailIff(email);
    }
    assert NoWhitespace(ToLower(email)) by {
      forall k | 0 <= k < |email|
        ensures !IsWhitespace(ToLower(email)[k])
      {
        assert ToLower(email)[k] == LowerChar(email[k]);
      }
    }
    TrimPlain(ToLower(email));
  }

  // ---------- Table lookups ----------

  /** Two addresses are the same one when they agree after `toLowerCase`. */
  predicate SameEmail(a: string, b: string) {
    ToLower(a) == ToLower(b)
  }

  /** `users.some(u => same e-mail)`. */
  predicate EmailTaken(users: seq<StoredUser>, email: string) {
    exists i :: 0 <= i < |users| && SameEmail(users[i].user.email, email)
  }

  /** The position of the first record with the same e-mail ignoring case, as `users.find` picks it. */
  function FindByEmail(users: seq<StoredUser>, email: string): (r: Option<nat>)
    ensures r.None? <==> !EmailTaken(users, email)
    ensures r.Some? ==> r.value < |users| && SameEmail(users[r.value].user.email, email)
    ensures r.Some? ==> forall j :: 0 <= j < r.value ==> !SameEmail(users[j].user.email, email)
  {
    if users == [] then None
    else if SameEmail(users[0].user.email, email) then Some(0)
    else
      match FindByEmail(users[1..], email)
      case None => None
      case Some(i) => Some(i + 1)
  }

  /** The position of the first record with the given id, as `users.findIndex` gives it (-1 is `None`). */
  function FindById(users: seq<StoredUser>, id: int): (r: Option<nat>)
    ensures r.None? <==> forall j :: 0 <= j < |users| ==> users[j].user.id != id
    ensures r.Some? ==> r.value < |users| && users[r.value].user.id == id
    ensures r.Some? ==> forall j :: 0 <= j < r.value ==> users[j].user.id != id
  {
    if users == [] then None
    else if users[0].user.id == id then Some(0)
    else
      match FindById(users[1..], id)
      case None => None
      case Some(i) => Some(i + 1)
  }

  /** No two records share an address ignoring case. */
  predicate DistinctEmails(users: seq<StoredUser>) {
    forall i, j :: 0 <= i < j < |users| ==> !SameEmail(users[i].user.email, users[j].user.email)
  }

  // ---------- Registration ----------

  /** The first check `register` fails, in the order the service tries them, or `None` when all pass. */
  function RegisterError(users: seq<StoredUser>, c: RegisterCredentials): (r: Option<AuthError>)
    ensures r.None? ==> !EmailTaken(users, c.email) && |Trim(c.name)| >= 3 && IsValidEmail(c.email) && |c.password| >= 6
    ensures r.Some? ==> r.value in {EmailAlreadyRegistered, NameTooShort, InvalidEmail, PasswordTooShort}
  {
    if EmailTaken(users, c.email) then Some(EmailAlreadyRegistered)
    else if |Trim(c.name)| < 3 then Some(NameTooShort)
    else if !IsValidEmail(c.email) then Some(InvalidEmail)
    else if |c.password| < 6 then Some(PasswordTooShort)
    else None
  }

  /**
   * The record `register` appends to the table `users`: the next id, the
   * trimmed name, the lower-cased trimmed address, the given avatar or the
   * initials image for the name, and the given role or 'User'.
   */
  function NewRecord(users: seq<StoredUser>, c: RegisterCredentials): (r: StoredUser)
    ensures r.user.id == |users| + 1 && r.password == c.password && r.user.name == Trim(c.name)
    ensures r.user.avatar.Initials? <==> c.avatar.None? || c.avatar.value == ""
    ensures r.user.role != "" && (c.role.Some? && c.role.value != "" ==> r.user.role == c.role.value)
  {
    var avatar := if c.avatar.Some? && c.avatar.value != "" then Url(c.avatar.value) else Initials(c.name);
    StoredUser(User(|users| + 1, Trim(c.name), Trim(ToLower(c.email)), avatar, Js.OrDefault(c.role, "User")), c.password)
  }

  /**
   * The checks decide in order: a taken address wins over every other
   * problem, a short name over a bad address, a bad address over a short
   * password; only credentials passing all four are accepted.
   */
  lemma {:induction false} RegisterErrorOrder(users: seq<StoredUser>, c: RegisterCredentials)
    ensures EmailTaken(users, c.email) ==> RegisterError(users, c) == Some(EmailAlreadyRegistered)
    ensures !EmailTaken(users, c.email) && |Trim(c.name)| < 3 ==> RegisterError(users, c) == Some(NameTooShort)
    ensures !EmailTaken(users, c.email) && |Trim(c.name)| >= 3 && !IsValidEmail(c.email) ==> RegisterError(users, c) == Some(InvalidEmail)
    ensures RegisterError(users, c) == None <==>
      !EmailTaken(users, c.email) && |Trim(c.name)| >= 3 && IsValidEmail(c.email) && |c.password| >= 6
    ensures RegisterError(users, c) != Some(NotAuthenticated)
  {
  }

  /**
   * An accepted registration can log in at once: the login lookup with the
   * same address finds exactly the new record, whose password matches.
   */
  lemma {:induction false} RegisteredUserIsFound(users: seq<StoredUser>, c: RegisterCredentials)
    requires RegisterError(users, c) == None
    ensures FindByEmail(users + [NewRecord(users, c)], c.email) == Some(|users|)
    ensures (users + [NewRecord(users, c)])[|users|].password == c.password
  {
    var all := users + [NewRecord(users, c)];
    ValidEmailStoredLowerCase(c.email);
    ToLowerIdempotent(c.email);
    assert SameEmail(all[|users|].user.email, c.email);
    forall j | 0 <= j < |users|
      ensures !SameEmail(all[j].user.email, c.email)
    {
      assert all[j] == users[j];
    }
  }

  /** Registration keeps the addresses of the table distinct. */
  lemma {:induction false} RegisterKeepsEmailsDistinct(users: seq<StoredUser>, c: RegisterCredentials)
    requires DistinctEmails(users) && RegisterError(users, c) == None
    ensures DistinctEmails(users + [NewRecord(users, c)])
  {
    var all := users + [NewRecord(users, c)];
    ValidEmailStoredLowerCase(c.email);
    ToLowerIdempotent(c.email);
    forall i, j | 0 <= i < j < |all|
      ensures !SameEmail(all[i].user.email, all[j].user.email)
    {
      if j == |users| {
        assert all[i] == users[i];
        assert !SameEmail(users[i].user.email, c.email);
      }
    }
  }

  // ---------- Profile updates ----------

  /** `{ ...current, ...patch, id: current.id, email: current.email }`. */
  function Patched(current: User, p: UserPatch): (r: User)
    ensures r.id == current.id && r.email == current.email
    ensures r.name == p.name.GetOr(current.name)
    ensures r.avatar == p.avatar.GetOr(current.avatar)
    ensures r.role == p.role.GetOr(current.role)
  {
    current.(
      name := if p.name.Some? then p.name.value else current.name,
      avatar := if p.avatar.Some? then p.avatar.value else current.avatar,
      role := if p.role.Some? then p.role.value else current.role)
  }

  /**
   * The table after an update of user `id` to `u`: the first record with that
   * id takes `u` and keeps its password; every other record is unchanged.
   */
  function UpdateRecord(users: seq<StoredUser>, id: int, u: User): (r: seq<StoredUser>)
    ensures |r| == |users|
    ensures FindById(users, id).None? ==> r == users
    ensures FindById(users, id).Some? ==>
      var i := FindById(users, id).value;
      && r[i] == StoredUser(u, users[i].password)
      && forall j :: 0 <= j < |users| && j != i ==> r[j] == users[j]
  {
    match FindById(users, id)
    case None => users
    case Some(i) => users[i := StoredUser(u, users[i].password)]
  }

  // ---------- Permissions ----------

  /** The pages each listed role may open; other roles are not listed. */
  function RolePages(role: string): Option<seq<string>> {
    if role == "Scientist" || role == "Agent" then Some(["characters", "locations", "episodes", "profile"])
    else if role == "Student" then Some(["characters", "episodes", "profile"])
    else if role == "Visitor" then Some(["characters", "profile"])
    else None
  }

  /** Permission by the table's own entries: an unlisted role may open nothing. */
  predicate Allows(role: string, page: string): (b: bool)
    ensures b ==> page == "characters" || page == "locations" || page == "episodes" || page == "profile"
    ensures page == "characters" ==> (b <==> RolePages(role).Some?)
  {
    RolePages(role).Some? && page in RolePages(role).value
  }

  /**
   * The permission table: every listed role may open the character list and
   * the profile, Student adds episodes, Scientist and Agent add locations;
   * 'User', the role registration gives by default, may open nothing.
   */
  lemma {:induction false} PermissionTable(page: string)
    ensures Allows("Visitor", page) <==> page == "characters" || page == "profile"
    ensures Allows("Student", page) <==> page == "characters" || page == "episodes" || page == "profile"
    ensures Allows("Scientist", page) <==> page == "characters" || page == "locations" || page == "episodes" || page == "profile"
    ensures Allows("Agent", page) == Allows("Scientist", page)
    ensures !Allows("User", page)
  {
  }

  /** Each role's pages include those of the roles below it. */
  lemma {:induction false} PermissionsNested(page: string)
    ensures Allows("Visitor", page) ==> Allows("Student", page)
    ensures Allows("Student", page) ==> Allows("Scientist", page)
  {
  }

  /** The property names every plain object inherits from `Object.prototype`. */
  const InheritedNames: set<string> := {
    "constructor", "hasOwnProperty", "isPrototypeOf", "propertyIsEnumerable",
    "toLocaleString", "toString", "valueOf", "__proto__",
    "__defineGetter__", "__defineSetter__", "__lookupGetter__", "__lookupSetter__"}

  /** The outcome of `rolePermissions[role]?.includes(page) || false`: a boolean, or a thrown `TypeError`. */
  datatype Access = Granted(allowed: bool) | TypeError

  /**
   * The permission check as written: looking a role up in the object literal
   * also finds the inherited members of `Object.prototype`, which are
   * functions (or, for `__proto__`, an object) without an `includes` method,
   * so `?.includes(page)` calls `undefined` and throws.
   */
  function AccessAsWritten(role: string, page: string): (r: Access)
    ensures RolePages(role).Some? ==> r.Granted?
    ensures r == TypeError <==> RolePages(role).None? && role in InheritedNames
  {
    if RolePages(role).Some? then Granted(page in RolePages(role).value)
    else if role in InheritedNames then TypeError
    else Granted(false)
  }

  /** A user whose role is "toString" makes the check throw instead of answering false. */
  lemma InheritedRoleThrows()
    ensures AccessAsWritten("toString", "characters") == TypeError
    ensures !Allows("toString", "characters")
  {
  }

  /**
   * The corrected check answers false for every role the table does not list,
   * and agrees with the written one wherever that one answers.
   */
  lemma {:induction false} AllowsAgreesWhereAnswered(role: string, page: string)
    ensures RolePages(role).None? ==> !Allows(role, page)
    ensures AccessAsWritten(role, page).Granted? ==> AccessAsWritten(role, page).allowed == Allows(role, page)
    ensures AccessAsWritten(role, page) == TypeError <==> role in InheritedNames
  {
  }

  // ---------- The service ----------

  /** `!!token`: a token that is present and, when read back from storage, not empty. */
  predicate TokenPresent(t: Option<Token>) {
    t.Some? && (t.value.Issued? || t.value.raw != "")
  }

  class AuthService {
    /** The stored token (storage key `auth_token`). */
    var token: Option<Token>
    /** The stored session user (storage key `auth_user`). */
    var storedUser: Option<User>
    /** The user table (storage key `users_database`). */
    var users: seq<StoredUser>
    var isAuthenticated: bool
    var currentUser: Option<User>
    /** The last value of the authentication-status subject. */
    var authStatus: bool

    /**
     * Reads the three storage entries: the status subject starts from whether
     * a token is present, the session is restored when both a token and a
     * user are, and an empty table is seeded with the default record.
     */
    constructor (savedToken: Option<string>, savedUser: Option<User>, savedUsers: seq<StoredUser>)
      ensures token == (if savedToken.Some? then Some(Stored(savedToken.value)) else None)
      ensures storedUser == savedUser
      ensures users == if savedUsers == [] then [DefaultUser] else savedUsers
      ensures authStatus == TokenPresent(token)
      ensures isAuthenticated == (TokenPresent(token) && savedUser.Some?)
      ensures currentUser == if isAuthenticated then savedUser else None
    {
      token := if savedToken.Some? then Some(Stored(savedToken.value)) else None;
      storedUser := savedUser;
      users := savedUsers;
      isAuthenticated := false;
      currentUser := None;
      authStatus := savedToken.Some? && savedToken.value != "";
      new;
      CheckAuthStatus();
      InitializeUsersDatabase();
    }

    method CheckAuthStatus()
      modifies this
      ensures TokenPresent(token) && storedUser.Some? ==> isAuthenticated && currentUser == storedUser && authStatus
      ensures !(TokenPresent(token) && storedUser.Some?) ==>
        isAuthenticated == old(isAuthenticated) && currentUser == old(currentUser) && authStatus == old(authStatus)
      ensures token == old(token) && storedUser == old(storedUser) && users == old(users)
    {
      if TokenPresent(token) && storedUser.Some? {
        isAuthenticated := true;
        currentUser := storedUser;
        authStatus := true;
      }
    }

    method InitializeUsersDatabase()
      modifies this
      ensures users == if old(users) == [] then [DefaultUser] else old(users)
      ensures token == old(token) && storedUser == old(storedUser)
      ensures isAuthenticated == old(isAuthenticated) && currentUser == old(currentUser) && authStatus == old(authStatus)
    {
      if |users| == 0 {
        users := [DefaultUser];
      }
    }

    /** The session of `user`, signed in with the address `email`. */
    predicate SignedIn(user: User, email: string)
      reads this
    {
      && token == Some(Issued(email)) && storedUser == Some(user)
      && isAuthenticated && currentUser == Some(user) && authStatus
    }

    /** `performLogin`: a token for the address and the password-free user are stored, and the session is open. */
    method PerformLogin(user: User, email: string)
      modifies this
      ensures SignedIn(user, email) && users == old(users)
    {
      token := Some(Issued(email));
      storedUser := Some(user);
      isAuthenticated := true;
      currentUser := Some(user);
      authStatus := true;
    }

    /**
     * `register`: the first failing check is reported and nothing changes;
     * otherwise exactly one record is appended and its user is signed in with
     * the address as typed.
     */
    method Register(c: RegisterCredentials) returns (r: Outcome<AuthError>)
      modifies this
      ensures RegisterError(old(users), c).Some? ==> r == Fail(RegisterError(old(users), c).value) && unchanged(this)
      ensures RegisterError(old(users), c).None? ==>
        && r == Pass
        && users == old(users) + [NewRecord(old(users), c)]
        && SignedIn(NewRecord(old(users), c).user, c.email)
    {
      if EmailTaken(users, c.email) {
        return Fail(EmailAlreadyRegistered);
      }
      if |Trim(c.name)| < 3 {
        return Fail(NameTooShort);
      }
      if !IsValidEmail(c.email) {
        return Fail(InvalidEmail);
      }
      if |c.password| < 6 {
        return Fail(PasswordTooShort);
      }
      var record := NewRecord(users, c);
      users := users + [record];
      PerformLogin(record.user, c.email);
      r := Pass;
    }

    /**
     * `login`: an unknown address and a wrong password are distinct errors
     * that leave everything unchanged; otherwise the first matching record's
     * user is signed in with the address as typed.
     */
    method Login(c: LoginCredentials) returns (r: Outcome<AuthError>)
      modifies this
      ensures FindByEmail(old(users), c.email).None? ==> r == Fail(EmailNotFound) && unchanged(this)
      ensures FindByEmail(old(users), c.email).Some? ==>
        var u := old(users)[FindByEmail(old(users), c.email).value];
        && (u.password != c.password ==> r == Fail(WrongPassword) && unchanged(this))
        && (u.password == c.password ==> r == Pass && SignedIn(u.user, c.email) && users == old(users))
    {
      var found := FindByEmail(users, c.email);
      if found.None? {
        return Fail(EmailNotFound);
      }
      var u := users[found.value];
      if u.password != c.password {
        return Fail(WrongPassword);
      }
      PerformLogin(u.user, c.email);
      r := Pass;
    }

    /** `logout`: token and stored user are removed and the session is closed; the table stays. */
    method Logout()
      modifies this
      ensures token == None && storedUser == None
      ensures !isAuthenticated && currentUser == None && !authStatus
      ensures users == old(users)
    {
      token := None;
      storedUser := None;
      isAuthenticated := false;
      currentUser := None;
      authStatus := false;
    }

    /**
     * `updateUser`: without a signed-in user it fails and nothing changes;
     * otherwise the patched user, with id and address pinned, replaces the
     * session user and the table record with that id, keeping its password.
     */
    method UpdateUser(p: UserPatch) returns (r: Outcome<AuthError>)
      modifies this
      ensures old(currentUser).None? ==> r == Fail(NotAuthenticated) && unchanged(this)
      ensures old(currentUser).Some? ==>
        var u := Patched(old(currentUser).value, p);
        && r == Pass
        && users == UpdateRecord(old(users), u.id, u)
        && currentUser == Some(u) && storedUser == Some(u)
        && token == old(token) && isAuthenticated == old(isAuthenticated) && authStatus == old(authStatus)
    {
      if currentUser.None? {
        return Fail(NotAuthenticated);
      }
      var newUser := Patched(currentUser.value, p);
      var index := FindById(users, newUser.id);
      if index.Some? {
        users := users[index.value := StoredUser(newUser, users[index.value].password)];
      }
      storedUser := Some(newUser);
      currentUser := Some(newUser);
      r := Pass;
    }

    /** `hasToken`, and `isAuthenticatedSync`, which answers the same. */
    predicate HasToken(): (b: bool)
      reads this
      ensures b ==> token.Some?
      ensures token == Some(Stored("")) ==> !b
      ensures token.Some? && (token.value.Issued? || token.value.raw != "") ==> b
    {
      TokenPresent(token)
    }

    /** `hasAccessTo`: false with nobody signed in; otherwise what the table grants the user's role. */
    predicate HasAccessTo(page: string): (b: bool)
      reads this
      ensures b ==> currentUser.Some? && Allows(currentUser.value.role, "characters")
      ensures currentUser.Some? && currentUser.value.role == "User" ==> !b
      ensures currentUser.Some? ==> (b <==> Allows(currentUser.value.role, page))
      ensures currentUser.None? ==> !b
    {
      currentUser.Some? && Allows(currentUser.value.role, page)
    }
  }

  /** The default account's address, typed in another case, is found at the head of the seeded table. */
  lemma DefaultAddressFound(email: string)
    requires ToLower(email) == "rick@citadel.com"
    ensures FindByEmail([DefaultUser], email) == Some(0)
  {
    assert ToLower(DefaultUser.user.email) == DefaultUser.user.email;
  }

  /**
   * On a fresh store the default account exists: signing in with its address
   * in another case and a wrong password is refused, with the right password
   * it succeeds and opens the location list, and registering the address
   * again is refused.
   */
  method DefaultAccountScenario() returns (wrong: Outcome<AuthError>, ok: Outcome<AuthError>, locations: bool, again: Outcome<AuthError>)
    ensures wrong == Fail(WrongPassword) && ok == Pass && locations
    ensures again == Fail(EmailAlreadyRegistered)
  {
    var auth := new AuthService(None, None, []);
    var typed := "Rick@Citadel.com";
    assert ToLower(typed) == "rick@citadel.com";
    DefaultAddressFound(typed);
    wrong := auth.Login(LoginCredentials(typed, "portal"));
    ok := auth.Login(LoginCredentials(typed, "portal123"));
    locations := auth.HasAccessTo("locations");
    assert auth.users == [DefaultUser];
    again := auth.Register(RegisterCredentials("Rick Sanchez", typed, "portal123", None, None));
  }
}
