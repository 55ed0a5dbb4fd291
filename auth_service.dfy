/**
 * The authentication service (src/services/authService.ts): self-registration and login.
 * Password hashing, hash comparison and token signing are foreign libraries and enter the
 * model as function parameters. The failures here are plain `{ status, message }` objects,
 * not AppErrors.
 */
module AuthService {
  import opened Outcomes
  import opened Js
  import opened Errors
  import opened Store
  import opened UserService

  const FieldsRequired := "Email and password are required"
  const UserExists := "User already exists"
  const LoginFieldsRequired := "Email dan password wajib diisi"
  const BadCredentials := "Email atau password salah"

  /** The claims a token carries: `{ userId, role }`; a token that lacks the role claim has None. */
  datatype TokenPayload = TokenPayload(userId: int, role: Option<string>)

  /** `jwt.sign(payload, secret, { expiresIn: '1h' })`, supplied from outside. */
  type Signer = TokenPayload -> string

  /** `bcrypt.compare(password, hash)`, supplied from outside. */
  type Comparer = (string, string) -> bool

  /** What registration and login return: the token and the user without the password. */
  datatype AuthResult = AuthResult(token: string, user: UserSummary)

  /** The token issued for a stored user: its id and its role. */
  function TokenFor(sign: Signer, row: Row<User>): string {
    sign(TokenPayload(row.id, Some(row.val.role)))
  }

  /**
   * `['user', 'admin'].includes(role || '') ? role : 'user'`: a role name is kept, and anything
   * else, absent or not, silently becomes "user"; registration never rejects a role.
   */
  function AssignedRole(role: Value): (r: string)
    ensures IsRoleName(Str(r))
    ensures r == "admin" <==> role == Str("admin")
    ensures IsRoleName(role) ==> Str(r) == role
  {
    if IsRoleName(role) then role.s else "user"
  }

  /** The user `registerUser` stores for a body that passed its checks. */
  function RegisteredUser(data: UserInput, hash: Hasher): (u: User)
    requires data.email.Str? && data.password.Str? && NullableText(data.name).Some?
    ensures u.email == data.email.s && u.password == hash(data.password.s)
    ensures u.role == AssignedRole(data.role) && u.name == NullableText(data.name).value
  {
    User(data.email.s, NullableText(data.name).value, hash(data.password.s), AssignedRole(data.role))
  }

  /**
   * `registerUser({ email, name, password, role })`. An email or password that is truthy but not
   * a string makes the store lookup or the hash throw, as does a name the store cannot hold.
   */
  method RegisterUser(users: Table<User>, hash: Hasher, sign: Signer, data: UserInput)
    returns (r: Result<AuthResult, Failure>)
    requires users.Valid() && ValidUsers(users.rows)
    modifies users
    ensures users.Valid() && ValidUsers(users.rows)
    ensures !Truthy(data.email) || !Truthy(data.password) ==> r == Err(Plain(400, FieldsRequired))
    ensures (Truthy(data.email) && Truthy(data.password) && data.email.Str?
             && EmailTaken(old(users.rows), data.email.s)) ==> r == Err(Plain(400, UserExists))
    ensures r.Ok? <==> && Truthy(data.email) && Truthy(data.password) && data.email.Str? && data.password.Str?
                       && !EmailTaken(old(users.rows), data.email.s) && NullableText(data.name).Some?
    ensures r.Ok? ==> && r.value.user.id !in old(users.rows)
                      && users.rows == old(users.rows)[r.value.user.id := RegisteredUser(data, hash)]
                      && r.value.user == Summary(Row(r.value.user.id, RegisteredUser(data, hash)))
                      && r.value.token == TokenFor(sign, Row(r.value.user.id, RegisteredUser(data, hash)))
    ensures r.Err? ==> users.rows == old(users.rows)
  {
    if !Truthy(data.email) || !Truthy(data.password) {
      return Err(Plain(400, FieldsRequired));
    }
    if !data.email.Str? {
      return Err(Unclassified);
    }
    var existing := FindByEmail(users, data.email.s);
    if existing.Some? {
      return Err(Plain(400, UserExists));
    }
    if !data.password.Str? || NullableText(data.name).None? {
      return Err(Unclassified);
    }
    var user := RegisteredUser(data, hash);
    var row := users.Insert(user);
    r := Ok(AuthResult(TokenFor(sign, row), Summary(row)));
  }

  /** Registration never hands out a role it was not asked for, and only an explicit "admin" gives admin. */
  lemma RegistrationRoleIsDefaulted(role: Value)
    ensures !IsRoleName(role) ==> AssignedRole(role) == "user"
    ensures !Truthy(role) ==> AssignedRole(role) == "user"
    ensures AssignedRole(role) == "admin" ==> role == Str("admin")
  {
  }

  /** Some stored user has this email, a non-empty password hash, and that hash matches `password`. */
  ghost predicate CredentialsMatch(rows: map<int, User>, compare: Comparer, email: string, password: string) {
    exists id :: id in rows && rows[id].email == email && rows[id].password != "" && compare(password, rows[id].password)
  }

  /**
   * `loginUser({ email, password })`. An unknown email, a stored user without a password and a
   * wrong password give the same 401, so a caller cannot tell which of them happened.
   */
  method LoginUser(users: Table<User>, compare: Comparer, sign: Signer, data: UserInput)
    returns (r: Result<AuthResult, Failure>)
    requires ValidUsers(users.rows)
    ensures !Truthy(data.email) || !Truthy(data.password) ==> r == Err(Plain(400, LoginFieldsRequired))
    ensures (Truthy(data.email) && Truthy(data.password) && data.email.Str?
             && !EmailTaken(users.rows, data.email.s)) ==> r == Err(Plain(401, BadCredentials))
    ensures (Truthy(data.email) && Truthy(data.password) && data.email.Str? && data.password.Str?
             && !CredentialsMatch(users.rows, compare, data.email.s, data.password.s))
            ==> r == Err(Plain(401, BadCredentials))
    ensures r.Ok? <==> && Truthy(data.email) && Truthy(data.password) && data.email.Str? && data.password.Str?
                       && CredentialsMatch(users.rows, compare, data.email.s, data.password.s)
    ensures r.Ok? ==> && r.value.user.id in users.rows
                      && users.rows[r.value.user.id].email == data.email.s
                      && r.value.user == Summary(Row(r.value.user.id, users.rows[r.value.user.id]))
                      && r.value.token == TokenFor(sign, Row(r.value.user.id, users.rows[r.value.user.id]))
  {
    if !Truthy(data.email) || !Truthy(data.password) {
      return Err(Plain(400, LoginFieldsRequired));
    }
    if !data.email.Str? {
      return Err(Unclassified);
    }
    var found := FindByEmail(users, data.email.s);
    if found.None? || found.value.val.password == "" {
      SoleHolderOfEmail(users.rows, compare, data.email.s, found);
      return Err(Plain(401, BadCredentials));
    }
    if !data.password.Str? {
      return Err(Unclassified);
    }
    if !compare(data.password.s, found.value.val.password) {
      SoleHolderOfEmail(users.rows, compare, data.email.s, found);
      return Err(Plain(401, BadCredentials));
    }
    r := Ok(AuthResult(TokenFor(sign, found.value), Summary(found.value)));
  }

  /** Emails are unique, so the user a lookup finds is the only one whose credentials can match. */
  lemma SoleHolderOfEmail(rows: map<int, User>, compare: Comparer, email: string, found: Option<Row<User>>)
    requires ValidUsers(rows)
    requires found.Some? <==> EmailTaken(rows, email)
    requires found.Some? ==> found.value.id in rows && found.value.val == rows[found.value.id]
                             && found.value.val.email == email
    ensures forall password :: CredentialsMatch(rows, compare, email, password) ==>
      found.Some? && found.value.val.password != "" && compare(password, found.value.val.password)
  {
  }
}
