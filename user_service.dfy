/**
 * The user service (src/services/userService.ts): account management by admins and by the
 * users themselves, over the `user` table. Every listing and lookup returns a summary with
 * id, email, name and role; the password hash never leaves the service.
 */
module UserService {
  import opened Outcomes
  import opened Js
  import opened Errors
  import opened Access
  import opened Store

  // The messages the service throws.
  const ForbiddenCreateUser := "Terlarang: Hanya admin yang dapat membuat pengguna baru."
  const EmailRequired := "Email yang valid wajib diisi."
  const PasswordTooShort := "Password minimal 6 karakter wajib diisi."
  const InvalidRole := "Peran tidak valid."
  const EmailRegistered := "Email sudah terdaftar."
  const InvalidUserId := "ID pengguna tidak valid."
  const ForbiddenReadUser := "Terlarang: Anda tidak memiliki akses ke pengguna ini."
  const UserNotFound := "Pengguna tidak ditemukan."
  const ForbiddenDeleteUser := "Terlarang: Anda tidak memiliki akses untuk menghapus pengguna ini."
  const ProfileNotFound := "Profil pengguna tidak ditemukan."
  const ForbiddenListUsers := "Terlarang: Hanya admin yang dapat melihat daftar pengguna."
  const InvalidEmailFormat := "Format email tidak valid."
  const EmailInUse := "Email sudah digunakan oleh pengguna lain."
  const ForbiddenUpdateUser := "Terlarang: Anda tidak memiliki akses untuk memperbarui pengguna ini."
  const OnlyAdminSetsRole := "Hanya admin yang dapat memperbarui peran."

  /** A stored user; `password` holds the bcrypt hash. */
  datatype User = User(email: string, name: Option<string>, password: string, role: string)

  /** The `select: { id, email, name, role }` projection every operation returns. */
  datatype UserSummary = UserSummary(id: int, email: string, name: Option<string>, role: string)

  function Summary(row: Row<User>): UserSummary {
    UserSummary(row.id, row.val.email, row.val.name, row.val.role)
  }

  /** The fields of a request body the user operations read. */
  datatype UserInput = UserInput(email: Value, name: Value, password: Value, role: Value)

  /** `bcrypt.hash(password, 10)`, supplied from outside. */
  type Hasher = string -> string

  /** `['user', 'admin'].includes(v)`: strict equality, so only those two strings. */
  predicate IsRoleName(v: Value) {
    v == Str("user") || v == Str("admin")
  }

  /** The table invariant the user operations keep: emails are unique and every role is a role name. */
  ghost predicate ValidUsers(rows: map<int, User>) {
    && (forall a, b :: a in rows && b in rows && rows[a].email == rows[b].email ==> a == b)
    && (forall id :: id in rows ==> IsRoleName(Str(rows[id].role)))
  }

  /** Some stored user has this email. */
  ghost predicate EmailTaken(rows: map<int, User>, email: string) {
    exists id :: id in rows && rows[id].email == email
  }

  /** A stored user other than `self` has this email. */
  ghost predicate EmailTakenByOther(rows: map<int, User>, email: string, self: int) {
    exists id :: id in rows && id != self && rows[id].email == email
  }

  // ---------------------------------------------------------------------------------------
  // Input checks

  /** No whitespace among `s[lo..hi]`. */
  predicate NoSpaceIn(s: string, lo: int, hi: int)
    requires 0 <= lo <= hi <= |s|
  {
    forall k :: lo <= k < hi ==> !IsWhitespace(s[k])
  }

  /**
   * Whether `s` contains a match of `\S+@\S+\.\S+`: an `@` at some `i` with a non-space
   * character before it and a `.` after it that `DotAt` accepts.
   */
  predicate HasEmailShape(s: string) {
    exists i :: 0 <= i < |s| && AtSignAt(s, i)
  }

  /** An `@` at `i` with a non-space character before it and a `.` after it that `DotAt` accepts. */
  predicate AtSignAt(s: string, i: int)
    requires 0 <= i < |s|
  {
    0 < i && s[i] == '@' && !IsWhitespace(s[i - 1]) && exists j :: i < j < |s| && DotAt(s, i, j)
  }

  /** A `.` at `j` past `i + 1` with a non-space character after it and only non-space characters since `i`. */
  predicate DotAt(s: string, i: int, j: int)
    requires 0 <= i < j < |s|
  {
    i + 1 < j < |s| - 1 && s[j] == '.' && !IsWhitespace(s[j + 1]) && NoSpaceIn(s, i + 1, j)
  }

  /** The language of the regular expression `\S+@\S+\.\S+`. */
  ghost predicate InEmailLanguage(t: string) {
    exists p, q :: 0 < p && p + 1 < q && q + 1 < |t| && t[p] == '@' && t[q] == '.'
      && NoSpaceIn(t, 0, p) && NoSpaceIn(t, p + 1, q) && NoSpaceIn(t, q + 1, |t|)
  }

  /** `RegExp.prototype.test` for an unanchored pattern: some substring is in the language. */
  ghost predicate EmailRegexTest(s: string) {
    exists a, b :: 0 <= a <= b <= |s| && InEmailLanguage(s[a..b])
  }

  /** The executable email check accepts exactly the strings the regular expression matches. */
  lemma EmailShapeMatchesRegex(s: string)
    ensures HasEmailShape(s) <==> EmailRegexTest(s)
  {
    if HasEmailShape(s) {
      EmailShapeGivesMatch(s);
    }
    if EmailRegexTest(s) {
      MatchGivesEmailShape(s);
    }
  }

  /** Whitespace-freedom of a range carries over between a string and a substring of it. */
  lemma NoSpaceInSlice(s: string, a: int, b: int, lo: int, hi: int)
    requires 0 <= a <= b <= |s| && 0 <= lo <= hi <= b - a
    ensures NoSpaceIn(s[a..b], lo, hi) <==> NoSpaceIn(s, a + lo, a + hi)
  {
    var t := s[a..b];
    if NoSpaceIn(t, lo, hi) {
      forall k | a + lo <= k < a + hi ensures !IsWhitespace(s[k]) {
        assert s[k] == t[k - a];
      }
    }
    if NoSpaceIn(s, a + lo, a + hi) {
      forall k | lo <= k < hi ensures !IsWhitespace(t[k]) {
        assert t[k] == s[a + k];
      }
    }
  }

  lemma EmailShapeGivesMatch(s: string)
    requires HasEmailShape(s)
    ensures EmailRegexTest(s)
  {
    var i :| 0 <= i < |s| && AtSignAt(s, i);
    var j :| i < j < |s| && DotAt(s, i, j);
    WitnessInEmailLanguage(s, i, j);
  }

  /** The `@` at `i` and the `.` at `j` delimit a match that starts just before `i` and ends just after `j`. */
  lemma WitnessInEmailLanguage(s: string, i: int, j: int)
    requires 0 < i && i + 1 < j && j + 1 < |s|
    requires s[i] == '@' && s[j] == '.'
    requires !IsWhitespace(s[i - 1]) && !IsWhitespace(s[j + 1]) && NoSpaceIn(s, i + 1, j)
    ensures InEmailLanguage(s[i - 1..j + 2])
  {
    var t := s[i - 1..j + 2];
    var p, q := 1, j - i + 1;
    NoSpaceInSlice(s, i - 1, j + 2, p + 1, q);
    assert t[0] == s[i - 1] && t[p] == '@' && t[q] == '.' && t[q + 1] == s[j + 1];
    assert NoSpaceIn(t, 0, p) && NoSpaceIn(t, q + 1, |t|);
  }

  lemma MatchGivesEmailShape(s: string)
    requires EmailRegexTest(s)
    ensures HasEmailShape(s)
  {
    var a, b :| 0 <= a <= b <= |s| && InEmailLanguage(s[a..b]);
    MatchInSliceGivesEmailShape(s, a, b);
  }

  /** A match inside `s[a..b]` puts an `@` and a `.` in `s` where `HasEmailShape` looks for them. */
  lemma MatchInSliceGivesEmailShape(s: string, a: int, b: int)
    requires 0 <= a <= b <= |s| && InEmailLanguage(s[a..b])
    ensures HasEmailShape(s)
  {
    var t := s[a..b];
    var p, q :| 0 < p && p + 1 < q && q + 1 < |t| && t[p] == '@' && t[q] == '.'
      && NoSpaceIn(t, 0, p) && NoSpaceIn(t, p + 1, q) && NoSpaceIn(t, q + 1, |t|);
    var i, j := a + p, a + q;
    NoSpaceInSlice(s, a, b, p + 1, q);
    assert s[i] == t[p] && s[j] == t[q];
    assert s[i - 1] == t[p - 1] && s[j + 1] == t[q + 1];
    assert DotAt(s, i, j);
    assert AtSignAt(s, i);
  }

  /** `isValidEmail`: a string in which the email pattern occurs. */
  predicate IsValidEmail(v: Value) {
    v.Str? && HasEmailShape(v.s)
  }

  /** `isValidPassword`: a string of at least six characters (`length >= 6`). */
  predicate IsValidPassword(v: Value) {
    v.Str? && |v.s| >= 6
  }

  /** `requesterRole !== 'admin' && requesterId !== userId` is false: admin, or the user themselves. */
  predicate SelfOrAdmin(req: Requester, target: Numeric) {
    IsAdmin(req.role) || target == Integer(req.id)
  }

  // ---------------------------------------------------------------------------------------
  // Store lookups

  /** `findUnique({ where: { email } })`. */
  method FindByEmail(users: Table<User>, email: string) returns (found: Option<Row<User>>)
    ensures found.Some? <==> EmailTaken(users.rows, email)
    ensures found.Some? ==> found.value.id in users.rows && found.value.val == users.rows[found.value.id]
                            && found.value.val.email == email
  {
    if exists id :: id in users.rows && users.rows[id].email == email {
      var id :| id in users.rows && users.rows[id].email == email;
      found := Some(Row(id, users.rows[id]));
    } else {
      found := None;
    }
  }

  /** Under unique emails the user found by email is another user exactly when one holds it. */
  lemma FoundByEmailIsOther(rows: map<int, User>, found: Row<User>, email: string, self: int)
    requires ValidUsers(rows)
    requires found.id in rows && found.val == rows[found.id] && found.val.email == email
    ensures EmailTakenByOther(rows, email, self) <==> found.id != self
  {
  }

  // ---------------------------------------------------------------------------------------
  // createUser

  /** Every check of `createUser` before the email lookup passes. */
  predicate CreateUserAccepted(requesterRole: Option<string>, data: UserInput) {
    && IsAdmin(requesterRole)
    && IsValidEmail(data.email)
    && IsValidPassword(data.password)
    && (!Truthy(data.role) || IsRoleName(data.role))
  }

  /** The user `createUser` stores: the password hashed and the role defaulting to "user". */
  function NewUser(data: UserInput, hash: Hasher): User
    requires IsValidEmail(data.email) && IsValidPassword(data.password)
    requires !Truthy(data.role) || IsRoleName(data.role)
    requires NullableText(data.name).Some?
  {
    User(data.email.s, NullableText(data.name).value, hash(data.password.s),
         if Truthy(data.role) then data.role.s else "user")
  }

  /** `createUser(userData, requesterRole)`. */
  method CreateUser(users: Table<User>, data: UserInput, requesterRole: Option<string>, hash: Hasher)
    returns (r: Result<UserSummary, Failure>)
    requires users.Valid() && ValidUsers(users.rows)
    modifies users
    ensures users.Valid() && ValidUsers(users.rows)
    ensures !IsAdmin(requesterRole) ==> FailsWith(r, 403)
    ensures IsAdmin(requesterRole) && !IsValidEmail(data.email) ==> FailsWith(r, 400)
    ensures IsAdmin(requesterRole) && IsValidEmail(data.email) && !IsValidPassword(data.password)
            ==> FailsWith(r, 400)
    ensures (IsAdmin(requesterRole) && IsValidEmail(data.email) && IsValidPassword(data.password)
             && Truthy(data.role) && !IsRoleName(data.role)) ==> FailsWith(r, 400)
    ensures CreateUserAccepted(requesterRole, data) && EmailTaken(old(users.rows), data.email.s)
            ==> FailsWith(r, 409)
    ensures r.Ok? <==> CreateUserAccepted(requesterRole, data) && !EmailTaken(old(users.rows), data.email.s)
                       && NullableText(data.name).Some?
    ensures r.Ok? ==> r.value.id !in old(users.rows)
                      && users.rows == old(users.rows)[r.value.id := NewUser(data, hash)]
                      && r.value == Summary(Row(r.value.id, NewUser(data, hash)))
    ensures r.Err? ==> users.rows == old(users.rows)
  {
    if !IsAdmin(requesterRole) {
      return Raise(ForbiddenCreateUser, 403);
    }
    if !Truthy(data.email) || !IsValidEmail(data.email) {
      return Raise(EmailRequired, 400);
    }
    if !Truthy(data.password) || !IsValidPassword(data.password) {
      return Raise(PasswordTooShort, 400);
    }
    if Truthy(data.role) && !IsRoleName(data.role) {
      return Raise(InvalidRole, 400);
    }
    var existing := FindByEmail(users, data.email.s);
    if existing.Some? {
      return Raise(EmailRegistered, 409);
    }
    if NullableText(data.name).None? {
      return Err(Unclassified);
    }
    var user := NewUser(data, hash);
    var row := users.Insert(user);
    r := Ok(Summary(row));
  }

  // ---------------------------------------------------------------------------------------
  // getUserById, deleteUser, getProfile, getAllUsers

  /** `getUserById(userId, requesterId, requesterRole)`. */
  method GetUserById(users: Table<User>, userId: Numeric, req: Requester)
    returns (r: Result<UserSummary, Failure>)
    ensures userId.NaN? ==> FailsWith(r, 400)
    ensures !userId.NaN? && !SelfOrAdmin(req, userId) ==> FailsWith(r, 403)
    ensures userId.NonInteger? && IsAdmin(req.role) ==> r == Err(Unclassified)
    ensures userId.Integer? && SelfOrAdmin(req, userId) && userId.i !in users.rows ==> FailsWith(r, 404)
    ensures r.Ok? <==> userId.Integer? && SelfOrAdmin(req, userId) && userId.i in users.rows
    ensures r.Ok? ==> r.value == Summary(Row(userId.i, users.rows[userId.i]))
  {
    if IsNaN(userId) {
      return Raise(InvalidUserId, 400);
    }
    if !SelfOrAdmin(req, userId) {
      return Raise(ForbiddenReadUser, 403);
    }
    if userId.NonInteger? {
      return Err(Unclassified);
    }
    var found := users.Find(userId.i);
    if found.None? {
      return Raise(UserNotFound, 404);
    }
    r := Ok(Summary(found.value));
  }

  /** `deleteUser(targetUserId, requesterId, requesterRole)`; an admin may delete their own account. */
  method DeleteUser(users: Table<User>, target: Numeric, req: Requester) returns (r: Result<(), Failure>)
    requires users.Valid() && ValidUsers(users.rows)
    modifies users
    ensures users.Valid() && ValidUsers(users.rows)
    ensures target.NaN? ==> FailsWith(r, 400)
    ensures !target.NaN? && !SelfOrAdmin(req, target) ==> FailsWith(r, 403)
    ensures target.NonInteger? && IsAdmin(req.role) ==> r == Err(Unclassified)
    ensures target.Integer? && SelfOrAdmin(req, target) && target.i !in old(users.rows) ==> FailsWith(r, 404)
    ensures r.Ok? <==> target.Integer? && SelfOrAdmin(req, target) && target.i in old(users.rows)
    ensures r.Ok? ==> users.rows == old(users.rows) - {target.i}
    ensures r.Err? ==> users.rows == old(users.rows)
  {
    if IsNaN(target) {
      return Raise(InvalidUserId, 400);
    }
    if !SelfOrAdmin(req, target) {
      return Raise(ForbiddenDeleteUser, 403);
    }
    if target.NonInteger? {
      return Err(Unclassified);
    }
    var found := users.Find(target.i);
    if found.None? {
      return Raise(UserNotFound, 404);
    }
    var deleted := users.Delete(target.i);
    RemovePreservesValidUsers(old(users.rows), target.i);
    r := Ok(());
  }

  /** `getProfile(userId)`: the requester's own summary. */
  method GetProfile(users: Table<User>, userId: int) returns (r: Result<UserSummary, Failure>)
    ensures userId !in users.rows ==> FailsWith(r, 404)
    ensures r.Ok? <==> userId in users.rows
    ensures r.Ok? ==> r.value == Summary(Row(userId, users.rows[userId]))
  {
    var found := users.Find(userId);
    if found.None? {
      return Raise(ProfileNotFound, 404);
    }
    r := Ok(Summary(found.value));
  }

  /** `getAllUsers(requesterRole)`: every user once, by ascending id, for admins only. */
  method GetAllUsers(users: Table<User>, requesterRole: Option<string>) returns (r: Result<seq<UserSummary>, Failure>)
    requires users.Valid()
    ensures !IsAdmin(requesterRole) <==> FailsWith(r, 403)
    ensures r.Ok? <==> IsAdmin(requesterRole)
    ensures r.Ok? ==> ListsEveryUserById(users.rows, r.value)
  {
    if !IsAdmin(requesterRole) {
      return Raise(ForbiddenListUsers, 403);
    }
    var rows := users.Select(Every, IdOf);
    var list := Summaries(rows);
    ListingByAscendingId(users.rows, rows, list);
    r := Ok(list);
  }

  /** `list` holds the summary of every stored user, each exactly once, by ascending id. */
  ghost predicate ListsEveryUserById(table: map<int, User>, list: seq<UserSummary>) {
    && (forall i :: 0 <= i < |list| ==> list[i].id in table && list[i] == Summary(Row(list[i].id, table[list[i].id])))
    && (forall id :: id in table ==> exists i :: 0 <= i < |list| && list[i].id == id)
    && (forall i, j :: 0 <= i < j < |list| ==> list[i].id < list[j].id)
  }

  /** The summary of each row, in order. */
  function Summaries(rows: seq<Row<User>>): (list: seq<UserSummary>)
    ensures |list| == |rows| && forall i :: 0 <= i < |rows| ==> list[i] == Summary(rows[i])
  {
    if rows == [] then [] else [Summary(rows[0])] + Summaries(rows[1..])
  }

  /** The summaries of a selection of every user, ordered by id, list every user once by ascending id. */
  lemma ListingByAscendingId(table: map<int, User>, rows: seq<Row<User>>, list: seq<UserSummary>)
    requires IsSelection(table, Every, IdOf, rows)
    requires |list| == |rows| && forall i :: 0 <= i < |rows| ==> list[i] == Summary(rows[i])
    ensures ListsEveryUserById(table, list)
  {
    forall id | id in table ensures exists i :: 0 <= i < |list| && list[i].id == id {
      var i :| 0 <= i < |rows| && rows[i].id == id;
      assert list[i].id == id;
    }
    forall i, j | 0 <= i < j < |list| ensures list[i].id < list[j].id {
      assert rows[i].id <= rows[j].id && rows[i].id != rows[j].id;
    }
  }

  // ---------------------------------------------------------------------------------------
  // updateUser and updateProfile

  /** The supplied fields have the types the `user` columns take. */
  predicate StorableUpdate(data: UserInput) {
    && (data.email == Undefined || data.email.Str?)
    && (data.name == Undefined || NullableText(data.name).Some?)
    && (data.password == Undefined || data.password.Str?)
    && (data.role == Undefined || data.role.Str?)
  }

  /** `u` after `update({ data: dataToUpdate })`: each supplied field replaced, the password hashed. */
  function ApplyUserUpdate(u: User, data: UserInput, hash: Hasher): User
    requires StorableUpdate(data)
  {
    User(
      if data.email == Undefined then u.email else data.email.s,
      if data.name == Undefined then u.name else NullableText(data.name).value,
      if data.password == Undefined then u.password else hash(data.password.s),
      if data.role == Undefined then u.role else data.role.s)
  }

  /**
   * An update writes exactly the supplied fields: an absent one keeps its value, a supplied
   * password is stored hashed, and an update with no fields changes nothing.
   */
  lemma ApplyUserUpdateTouchesSuppliedOnly(u: User, data: UserInput, hash: Hasher)
    requires StorableUpdate(data)
    ensures data.email == Undefined ==> ApplyUserUpdate(u, data, hash).email == u.email
    ensures data.name == Undefined ==> ApplyUserUpdate(u, data, hash).name == u.name
    ensures data.password == Undefined ==> ApplyUserUpdate(u, data, hash).password == u.password
    ensures data.role == Undefined ==> ApplyUserUpdate(u, data, hash).role == u.role
    ensures data.email.Str? ==> ApplyUserUpdate(u, data, hash).email == data.email.s
    ensures data.password.Str? ==> ApplyUserUpdate(u, data, hash).password == hash(data.password.s)
    ensures data == UserInput(Undefined, Undefined, Undefined, Undefined) ==> ApplyUserUpdate(u, data, hash) == u
  {
  }

  /** The fields `updateProfile` reads: all but the role. */
  function WithoutRole(data: UserInput): UserInput {
    UserInput(data.email, data.name, data.password, Undefined)
  }

  /** The email and password checks shared by `updateUser` and `updateProfile` pass for user `self`. */
  ghost predicate CredentialsAccepted(rows: map<int, User>, self: int, data: UserInput) {
    && (data.email == Undefined || (IsValidEmail(data.email) && !EmailTakenByOther(rows, data.email.s, self)))
    && (data.password == Undefined || IsValidPassword(data.password))
  }

  /** The role check of `updateUser` passes: no role supplied, or an admin supplying a role name. */
  predicate RoleChangeAccepted(req: Requester, data: UserInput) {
    data.role == Undefined || (IsAdmin(req.role) && IsRoleName(data.role))
  }

  /**
   * Checks the email, name and password fields in the order both update operations do and
   * builds the updated user; `role` is left to the caller.
   */
  method UpdateCredentials(users: Table<User>, self: int, current: User, data: UserInput, hash: Hasher)
    returns (r: Result<User, Failure>)
    requires ValidUsers(users.rows)
    ensures data.email != Undefined && !IsValidEmail(data.email) ==> FailsWith(r, 400)
    ensures data.email != Undefined && IsValidEmail(data.email) && EmailTakenByOther(users.rows, data.email.s, self)
            ==> FailsWith(r, 409)
    ensures (&& (data.email == Undefined || (IsValidEmail(data.email) && !EmailTakenByOther(users.rows, data.email.s, self)))
             && data.password != Undefined && !IsValidPassword(data.password)) ==> FailsWith(r, 400)
    ensures FailsWith(r, 409) ==> IsValidEmail(data.email) && EmailTakenByOther(users.rows, data.email.s, self)
    ensures r.Err? ==> FailsWith(r, 400) || FailsWith(r, 409)
    ensures r.Ok? <==> CredentialsAccepted(users.rows, self, data)
    ensures r.Ok? ==> r.value == ApplyUserUpdate(current, UserInput(data.email, Undefined, data.password, Undefined), hash)
  {
    var u := current;
    if data.email != Undefined {
      if !IsValidEmail(data.email) {
        return Raise(InvalidEmailFormat, 400);
      }
      var holder := FindByEmail(users, data.email.s);
      if holder.Some? {
        FoundByEmailIsOther(users.rows, holder.value, data.email.s, self);
      } else {
        assert !EmailTakenByOther(users.rows, data.email.s, self);
      }
      if holder.Some? && holder.value.id != self {
        return Raise(EmailInUse, 409);
      }
      u := u.(email := data.email.s);
    }
    if data.password != Undefined {
      if !IsValidPassword(data.password) {
        return Raise(PasswordTooShort, 400);
      }
      u := u.(password := hash(data.password.s));
    }
    r := Ok(u);
  }

  /** `updateUser(targetUserId, updateData, requesterId, requesterRole)`. */
  method UpdateUser(users: Table<User>, target: Numeric, data: UserInput, req: Requester, hash: Hasher)
    returns (r: Result<UserSummary, Failure>)
    requires users.Valid() && ValidUsers(users.rows)
    modifies users
    ensures users.Valid() && ValidUsers(users.rows)
    ensures target.NaN? ==> FailsWith(r, 400)
    ensures !target.NaN? && !SelfOrAdmin(req, target) ==> FailsWith(r, 403)
    ensures target.NonInteger? && IsAdmin(req.role) ==> r == Err(Unclassified)
    ensures target.Integer? && SelfOrAdmin(req, target) && target.i !in old(users.rows) ==> FailsWith(r, 404)
    ensures (&& target.Integer? && SelfOrAdmin(req, target) && target.i in old(users.rows)
             && data.email != Undefined && !IsValidEmail(data.email)) ==> FailsWith(r, 400)
    ensures (&& target.Integer? && SelfOrAdmin(req, target) && target.i in old(users.rows)
             && data.email != Undefined && IsValidEmail(data.email)
             && EmailTakenByOther(old(users.rows), data.email.s, target.i)) ==> FailsWith(r, 409)
    ensures (&& target.Integer? && SelfOrAdmin(req, target) && target.i in old(users.rows)
             && (data.email == Undefined
                 || (IsValidEmail(data.email) && !EmailTakenByOther(old(users.rows), data.email.s, target.i)))
             && data.password != Undefined && !IsValidPassword(data.password)) ==> FailsWith(r, 400)
    ensures FailsWith(r, 409) ==>
      target.Integer? && IsValidEmail(data.email) && EmailTakenByOther(old(users.rows), data.email.s, target.i)
    ensures target.Integer? && SelfOrAdmin(req, target) && target.i in old(users.rows)
            && CredentialsAccepted(old(users.rows), target.i, data) && data.role != Undefined
            ==> (if !IsAdmin(req.role) then FailsWith(r, 403) else IsRoleName(data.role) || FailsWith(r, 400))
    ensures r.Ok? <==> && target.Integer? && SelfOrAdmin(req, target) && target.i in old(users.rows)
                       && CredentialsAccepted(old(users.rows), target.i, data)
                       && RoleChangeAccepted(req, data)
                       && (data.name == Undefined || NullableText(data.name).Some?)
    ensures r.Ok? ==> && StorableUpdate(data)
                      && users.rows == old(users.rows)[target.i := ApplyUserUpdate(old(users.rows)[target.i], data, hash)]
                      && r.value == Summary(Row(target.i, users.rows[target.i]))
    ensures r.Err? ==> users.rows == old(users.rows)
  {
    if IsNaN(target) {
      return Raise(InvalidUserId, 400);
    }
    if !SelfOrAdmin(req, target) {
      return Raise(ForbiddenUpdateUser, 403);
    }
    if target.NonInteger? {
      return Err(Unclassified);
    }
    var found := users.Find(target.i);
    if found.None? {
      return Raise(UserNotFound, 404);
    }
    var checked := UpdateCredentials(users, target.i, found.value.val, data, hash);
    if checked.Err? {
      return Err(checked.error);
    }
    var u := checked.value;
    if data.name != Undefined && NullableText(data.name).Some? {
      u := u.(name := NullableText(data.name).value);
    }
    if data.role != Undefined {
      if !IsAdmin(req.role) {
        return Raise(OnlyAdminSetsRole, 403);
      }
      if !IsRoleName(data.role) {
        return Raise(InvalidRole, 400);
      }
      u := u.(role := data.role.s);
    }
    // the store rejects a name that is neither a string nor null when the update is written
    if data.name != Undefined && NullableText(data.name).None? {
      return Err(Unclassified);
    }
    OwnEmailNotTakenByOther(users.rows, target.i);
    var before := users.rows;
    var row := users.Update(target.i, u);
    UpdatePreservesValidUsers(before, target.i, u);
    r := Ok(Summary(row));
  }

  /** `updateProfile(userId, updateData)`: the requester's own email, name and password; never the role. */
  method UpdateProfile(users: Table<User>, userId: int, data: UserInput, hash: Hasher)
    returns (r: Result<UserSummary, Failure>)
    requires users.Valid() && ValidUsers(users.rows)
    modifies users
    ensures users.Valid() && ValidUsers(users.rows)
    ensures data.email != Undefined && !IsValidEmail(data.email) ==> FailsWith(r, 400)
    ensures data.email != Undefined && IsValidEmail(data.email) && EmailTakenByOther(old(users.rows), data.email.s, userId)
            ==> FailsWith(r, 409)
    ensures (&& (data.email == Undefined
                 || (IsValidEmail(data.email) && !EmailTakenByOther(old(users.rows), data.email.s, userId)))
             && data.password != Undefined && !IsValidPassword(data.password)) ==> FailsWith(r, 400)
    ensures FailsWith(r, 409) ==> IsValidEmail(data.email) && EmailTakenByOther(old(users.rows), data.email.s, userId)
    ensures r.Ok? <==> && CredentialsAccepted(old(users.rows), userId, data)
                       && (data.name == Undefined || NullableText(data.name).Some?)
                       && userId in old(users.rows)
    ensures r.Ok? ==> && StorableUpdate(WithoutRole(data))
                      && users.rows == old(users.rows)[userId := ApplyUserUpdate(old(users.rows)[userId], WithoutRole(data), hash)]
                      && users.rows[userId].role == old(users.rows)[userId].role
                      && r.value == Summary(Row(userId, users.rows[userId]))
    ensures r.Err? ==> users.rows == old(users.rows)
  {
    var current := if userId in users.rows then users.rows[userId] else User("", None, "", "user");
    var checked := UpdateCredentials(users, userId, current, data, hash);
    if checked.Err? {
      return Err(checked.error);
    }
    var u := checked.value;
    if data.name != Undefined {
      if NullableText(data.name).None? {
        return Err(Unclassified);
      }
      u := u.(name := NullableText(data.name).value);
    }
    // `update` on an id that is not stored throws from the store
    if userId !in users.rows {
      return Err(Unclassified);
    }
    OwnEmailNotTakenByOther(users.rows, userId);
    var before := users.rows;
    var row := users.Update(userId, u);
    UpdatePreservesValidUsers(before, userId, u);
    r := Ok(Summary(row));
  }

  /** Under unique emails no other user holds a stored user's own email. */
  lemma OwnEmailNotTakenByOther(rows: map<int, User>, id: int)
    requires ValidUsers(rows) && id in rows
    ensures !EmailTakenByOther(rows, rows[id].email, id)
  {
  }

  /** Removing a user keeps `ValidUsers`. */
  lemma RemovePreservesValidUsers(rows: map<int, User>, id: int)
    requires ValidUsers(rows)
    ensures ValidUsers(rows - {id})
  {
  }

  /** Writing a user whose email no other user holds, with a role name, keeps `ValidUsers`. */
  lemma UpdatePreservesValidUsers(rows: map<int, User>, id: int, u: User)
    requires ValidUsers(rows) && id in rows
    requires !EmailTakenByOther(rows, u.email, id)
    requires IsRoleName(Str(u.role))
    ensures ValidUsers(rows[id := u])
  {
  }
}
