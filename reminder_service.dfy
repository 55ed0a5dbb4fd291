/**
 * The reminder service (src/services/reminderService.ts): reminders with a title, an optional
 * description, a time to remind at and an active flag, each owned by one user. Reading,
 * changing and deleting one reminder is for its owner or an admin.
 */
module ReminderService {
  import opened Outcomes
  import opened Js
  import opened Errors
  import opened Access
  import opened Store

  // The messages the service throws.
  const InvalidReminderId := "ID pengingat tidak valid."
  const ReminderNotFound := "Pengingat tidak ditemukan."
  const ReminderForbidden := "Terlarang: Anda tidak memiliki akses ke pengingat ini."
  const TitleRequired := "Judul wajib diisi dan harus berupa string yang tidak kosong."
  const RemindAtRequired := "Tanggal pengingat wajib diisi dan harus format tanggal valid (ISO)."
  const DescriptionNotText := "Deskripsi harus berupa string atau null jika disediakan."
  const TitleBlank := "Judul harus berupa string yang tidak kosong."
  const RemindAtInvalid := "Format tanggal pengingat tidak valid."
  const IsActiveNotBoolean := "isActive harus berupa boolean."

  /** A stored reminder; `remindAt` is milliseconds since the epoch. */
  datatype Reminder = Reminder(userId: int, title: string, description: Option<string>, remindAt: int,
                               isActive: bool)

  /** The body of an update request. */
  datatype ReminderPatch = ReminderPatch(title: Value, description: Value, remindAt: Value, isActive: Value)

  /** A description the service accepts: absent, null or a string. */
  predicate IsDescription(v: Value) {
    v.Undefined? || v.Null? || v.Str?
  }

  /** `description ? description.trim() : null`: a falsy description is stored as null. */
  function StoredDescription(v: Value): (d: Option<string>)
    requires IsDescription(v)
    ensures d.None? <==> v.Undefined? || v.Null? || v == Str("")
    ensures d.Some? ==> d.value == Trim(v.s) && IsTrimmed(d.value)
  {
    if Truthy(v) then Some(Trim(v.s)) else None
  }

  /** The table invariant the reminder operations keep: titles are non-blank and trimmed, descriptions trimmed. */
  ghost predicate TidyReminders(rows: map<int, Reminder>) {
    forall id :: id in rows ==> IsTidy(rows[id])
  }

  /** One reminder as the service stores it. */
  predicate IsTidy(r: Reminder) {
    && r.title != "" && IsTrimmed(r.title)
    && (r.description.Some? ==> IsTrimmed(r.description.value))
  }

  /** Writing a tidy reminder keeps `TidyReminders`. */
  lemma WriteKeepsTidy(rows: map<int, Reminder>, id: int, r: Reminder)
    requires TidyReminders(rows) && IsTidy(r)
    ensures TidyReminders(rows[id := r])
  {
  }

  /** `orderBy: { remindAt: 'asc' }`. */
  function RemindAtOf(row: Row<Reminder>): int {
    row.val.remindAt
  }

  /** `where: { userId }`. */
  function OwnedBy(userId: int): Row<Reminder> -> bool {
    (row: Row<Reminder>) => row.val.userId == userId
  }

  // ---------------------------------------------------------------------------------------
  // Listing

  /** `getAllRemindersForAdmin()`: every reminder, earliest first. */
  method GetAllRemindersForAdmin(reminders: Table<Reminder>) returns (s: seq<Row<Reminder>>)
    requires reminders.Valid()
    ensures IsSelection(reminders.rows, Every, RemindAtOf, s)
  {
    s := reminders.Select(Every, RemindAtOf);
  }

  /** `getUserReminders(userId)`: exactly the user's reminders, earliest first. */
  method GetUserReminders(reminders: Table<Reminder>, userId: int) returns (s: seq<Row<Reminder>>)
    requires reminders.Valid()
    ensures IsSelection(reminders.rows, OwnedBy(userId), RemindAtOf, s)
  {
    s := reminders.Select(OwnedBy(userId), RemindAtOf);
  }

  /** What `getUserReminders` returns: the user's reminders and no one else's, all of them, earliest first. */
  lemma UserRemindersAreOwnInTimeOrder(rows: map<int, Reminder>, userId: int, s: seq<Row<Reminder>>)
    requires IsSelection(rows, OwnedBy(userId), RemindAtOf, s)
    ensures forall i :: 0 <= i < |s| ==> s[i].val.userId == userId && s[i].id in rows
    ensures forall id :: id in rows && rows[id].userId == userId ==>
      exists i :: 0 <= i < |s| && s[i] == Row(id, rows[id])
    ensures forall i, j :: 0 <= i < j < |s| ==> s[i].val.remindAt <= s[j].val.remindAt
  {
    forall id | id in rows && rows[id].userId == userId
      ensures exists i :: 0 <= i < |s| && s[i] == Row(id, rows[id])
    {
      assert OwnedBy(userId)(Row(id, rows[id]));
      var i :| 0 <= i < |s| && s[i].id == id;
      assert s[i] == Row(id, rows[id]);
    }
    forall i, j | 0 <= i < j < |s| ensures s[i].val.remindAt <= s[j].val.remindAt {
      assert RemindAtOf(s[i]) <= RemindAtOf(s[j]);
    }
  }

  // ---------------------------------------------------------------------------------------
  // createReminder

  /** The body checks of `createReminder` pass. */
  predicate CreateReminderFieldsValid(parse: DateParser, title: Value, description: Value, remindAt: Value) {
    IsNonBlankText(title) && IsValidDateString(parse, remindAt) && IsDescription(description)
  }

  /** The reminder `createReminder` stores: texts trimmed, active. */
  function NewReminder(parse: DateParser, userId: int, title: Value, description: Value, remindAt: Value)
    : (r: Reminder)
    requires CreateReminderFieldsValid(parse, title, description, remindAt)
    ensures IsTidy(r)
    ensures r.title == Trim(title.s) && r.description == StoredDescription(description)
    ensures r.remindAt == DateOf(parse, remindAt)
  {
    Reminder(userId, Trim(title.s), StoredDescription(description), DateOf(parse, remindAt), true)
  }

  /** `createReminder(userId, title, description, remindAt)`. */
  method CreateReminder(reminders: Table<Reminder>, parse: DateParser, userId: int, title: Value,
                        description: Value, remindAt: Value)
    returns (r: Result<Row<Reminder>, Failure>)
    requires reminders.Valid() && TidyReminders(reminders.rows)
    modifies reminders
    ensures reminders.Valid() && TidyReminders(reminders.rows)
    ensures !IsNonBlankText(title) ==> FailsWith(r, 400)
    ensures IsNonBlankText(title) && !IsValidDateString(parse, remindAt) ==> FailsWith(r, 400)
    ensures (IsNonBlankText(title) && IsValidDateString(parse, remindAt) && !IsDescription(description))
            ==> FailsWith(r, 400)
    ensures r.Ok? <==> CreateReminderFieldsValid(parse, title, description, remindAt)
    ensures r.Ok? ==> && r.value.id !in old(reminders.rows)
                      && r.value.val == NewReminder(parse, userId, title, description, remindAt)
                      && reminders.rows == old(reminders.rows)[r.value.id := r.value.val]
    ensures r.Err? ==> reminders.rows == old(reminders.rows)
  {
    // A non-blank text and a valid date string are never falsy, so the `!value ||` halves of the
    // source's guards are subsumed.
    if !IsNonBlankText(title) {
      return Raise(TitleRequired, 400);
    }
    if !IsValidDateString(parse, remindAt) {
      return Raise(RemindAtRequired, 400);
    }
    if !IsDescription(description) {
      return Raise(DescriptionNotText, 400);
    }
    var entry := NewReminder(parse, userId, title, description, remindAt);
    WriteKeepsTidy(reminders.rows, reminders.nextId, entry);
    var row := reminders.Insert(entry);
    r := Ok(row);
  }

  /** A created reminder is active, and a description that is blank but not empty is stored as the empty string, not null. */
  lemma NewReminderDefaults(parse: DateParser, userId: int, title: Value, description: Value, remindAt: Value)
    requires CreateReminderFieldsValid(parse, title, description, remindAt)
    ensures NewReminder(parse, userId, title, description, remindAt).isActive
    ensures NewReminder(parse, userId, title, description, remindAt).userId == userId
    ensures description.Str? && description.s != "" && AllWhitespace(description.s) ==>
      NewReminder(parse, userId, title, description, remindAt).description == Some("")
  {
  }

  // ---------------------------------------------------------------------------------------
  // Looking one reminder up: getReminderById, and the guard updateReminder and deleteReminder share

  /**
   * The checks `getReminderById`, `updateReminder` and `deleteReminder` make before anything
   * else: NaN id 400, absent 404, neither admin nor owner 403. An id that is a number but not
   * an integer reaches the store's lookup, which rejects it.
   */
  method Guard(reminders: Table<Reminder>, req: Requester, id: Numeric) returns (r: Result<Row<Reminder>, Failure>)
    ensures id.NaN? ==> FailsWith(r, 400)
    ensures id.NonInteger? ==> r == Err(Unclassified)
    ensures id.Integer? && id.i !in reminders.rows ==> FailsWith(r, 404)
    ensures id.Integer? && id.i in reminders.rows && !Authorized(req, reminders.rows[id.i].userId) ==>
      FailsWith(r, 403)
    ensures r.Ok? <==> id.Integer? && id.i in reminders.rows && Authorized(req, reminders.rows[id.i].userId)
    ensures r.Ok? ==> r.value == Row(id.i, reminders.rows[id.i])
  {
    if IsNaN(id) {
      return Raise(InvalidReminderId, 400);
    }
    if id.NonInteger? {
      return Err(Unclassified);
    }
    var found := reminders.Find(id.i);
    if found.None? {
      return Raise(ReminderNotFound, 404);
    }
    if !Authorized(req, found.value.val.userId) {
      return Raise(ReminderForbidden, 403);
    }
    r := Ok(found.value);
  }

  /** `getReminderById(reminderId, userId, userRole)`. */
  method GetReminderById(reminders: Table<Reminder>, req: Requester, id: Numeric)
    returns (r: Result<Row<Reminder>, Failure>)
    ensures id.NaN? ==> FailsWith(r, 400)
    ensures id.NonInteger? ==> r == Err(Unclassified)
    ensures id.Integer? && id.i !in reminders.rows ==> FailsWith(r, 404)
    ensures id.Integer? && id.i in reminders.rows && !Authorized(req, reminders.rows[id.i].userId) ==>
      FailsWith(r, 403)
    ensures r.Ok? <==> id.Integer? && id.i in reminders.rows && Authorized(req, reminders.rows[id.i].userId)
    ensures r.Ok? ==> r.value == Row(id.i, reminders.rows[id.i])
  {
    r := Guard(reminders, req, id);
  }

  // ---------------------------------------------------------------------------------------
  // updateReminder

  /** The body checks of `updateReminder` pass. */
  predicate ReminderPatchValid(parse: DateParser, data: ReminderPatch) {
    && (data.title == Undefined || IsNonBlankText(data.title))
    && (data.description == Undefined || IsDescription(data.description))
    && (data.remindAt == Undefined || IsValidDateString(parse, data.remindAt))
    && (data.isActive == Undefined || data.isActive.Bool?)
  }

  /** `r` with the supplied fields of `data` written, texts trimmed. */
  function ApplyReminderPatch(parse: DateParser, r: Reminder, data: ReminderPatch): (r': Reminder)
    requires ReminderPatchValid(parse, data)
    ensures IsTidy(r) ==> IsTidy(r')
  {
    Reminder(
      r.userId,
      if data.title == Undefined then r.title else Trim(data.title.s),
      if data.description == Undefined then r.description else StoredDescription(data.description),
      if data.remindAt == Undefined then r.remindAt else DateOf(parse, data.remindAt),
      if data.isActive == Undefined then r.isActive else data.isActive.b)
  }

  /** `updateReminder(reminderId, userId, userRole, title, description, remindAt, isActive)`. */
  method UpdateReminder(reminders: Table<Reminder>, parse: DateParser, req: Requester, id: Numeric,
                        data: ReminderPatch)
    returns (r: Result<Row<Reminder>, Failure>)
    requires reminders.Valid() && TidyReminders(reminders.rows)
    modifies reminders
    ensures reminders.Valid() && TidyReminders(reminders.rows)
    ensures id.NaN? ==> FailsWith(r, 400)
    ensures id.NonInteger? ==> r == Err(Unclassified)
    ensures id.Integer? && id.i !in old(reminders.rows) ==> FailsWith(r, 404)
    ensures id.Integer? && id.i in old(reminders.rows) && !Authorized(req, old(reminders.rows)[id.i].userId) ==>
      FailsWith(r, 403)
    ensures (id.Integer? && id.i in old(reminders.rows) && Authorized(req, old(reminders.rows)[id.i].userId)
             && !ReminderPatchValid(parse, data)) ==> FailsWith(r, 400)
    ensures r.Ok? <==> && id.Integer? && id.i in old(reminders.rows)
                       && Authorized(req, old(reminders.rows)[id.i].userId) && ReminderPatchValid(parse, data)
    ensures r.Ok? ==> && r.value == Row(id.i, ApplyReminderPatch(parse, old(reminders.rows)[id.i], data))
                      && reminders.rows == old(reminders.rows)[id.i := r.value.val]
    ensures r.Err? ==> reminders.rows == old(reminders.rows)
  {
    var found := Guard(reminders, req, id);
    if found.Err? {
      return Err(found.error);
    }
    if data.title != Undefined && !IsNonBlankText(data.title) {
      return Raise(TitleBlank, 400);
    }
    if data.description != Undefined && !IsDescription(data.description) {
      return Raise(DescriptionNotText, 400);
    }
    if data.remindAt != Undefined && !IsValidDateString(parse, data.remindAt) {
      return Raise(RemindAtInvalid, 400);
    }
    if data.isActive != Undefined && !data.isActive.Bool? {
      return Raise(IsActiveNotBoolean, 400);
    }
    var entry := ApplyReminderPatch(parse, found.value.val, data);
    WriteKeepsTidy(reminders.rows, id.i, entry);
    var row := reminders.Update(id.i, entry);
    r := Ok(row);
  }

  /**
   * An update writes exactly the supplied fields: the owner never changes, an absent field
   * keeps its value, a null description clears it, and a supplied flag is stored as given.
   */
  lemma ApplyReminderPatchTouchesSuppliedOnly(parse: DateParser, r: Reminder, data: ReminderPatch)
    requires ReminderPatchValid(parse, data)
    ensures ApplyReminderPatch(parse, r, data).userId == r.userId
    ensures data.title == Undefined ==> ApplyReminderPatch(parse, r, data).title == r.title
    ensures data.description == Undefined ==> ApplyReminderPatch(parse, r, data).description == r.description
    ensures data.description == Null ==> ApplyReminderPatch(parse, r, data).description == None
    ensures data.description != Undefined ==>
      ApplyReminderPatch(parse, r, data).description == StoredDescription(data.description)
    ensures data.title != Undefined ==> ApplyReminderPatch(parse, r, data).title == Trim(data.title.s)
    ensures data.remindAt == Undefined ==> ApplyReminderPatch(parse, r, data).remindAt == r.remindAt
    ensures data.isActive == Undefined ==> ApplyReminderPatch(parse, r, data).isActive == r.isActive
    ensures data.isActive.Bool? ==> ApplyReminderPatch(parse, r, data).isActive == data.isActive.b
    ensures data == ReminderPatch(Undefined, Undefined, Undefined, Undefined) ==> ApplyReminderPatch(parse, r, data) == r
  {
  }

  /** Sending the same update twice stores what sending it once does. */
  lemma ApplyReminderPatchIdempotent(parse: DateParser, r: Reminder, data: ReminderPatch)
    requires ReminderPatchValid(parse, data)
    ensures ApplyReminderPatch(parse, ApplyReminderPatch(parse, r, data), data) == ApplyReminderPatch(parse, r, data)
  {
  }

  // ---------------------------------------------------------------------------------------
  // deleteReminder

  /** `deleteReminder(reminderId, userId, userRole)`: removes the row only once both the 404 and the 403 checks pass. */
  method DeleteReminder(reminders: Table<Reminder>, req: Requester, id: Numeric) returns (r: Result<(), Failure>)
    requires reminders.Valid() && TidyReminders(reminders.rows)
    modifies reminders
    ensures reminders.Valid() && TidyReminders(reminders.rows)
    ensures id.NaN? ==> FailsWith(r, 400)
    ensures id.NonInteger? ==> r == Err(Unclassified)
    ensures id.Integer? && id.i !in old(reminders.rows) ==> FailsWith(r, 404)
    ensures id.Integer? && id.i in old(reminders.rows) && !Authorized(req, old(reminders.rows)[id.i].userId) ==>
      FailsWith(r, 403)
    ensures r.Ok? <==> id.Integer? && id.i in old(reminders.rows) && Authorized(req, old(reminders.rows)[id.i].userId)
    ensures r.Ok? ==> reminders.rows == old(reminders.rows) - {id.i}
    ensures r.Err? ==> reminders.rows == old(reminders.rows)
  {
    var found := Guard(reminders, req, id);
    if found.Err? {
      return Err(found.error);
    }
    var _ := reminders.Delete(id.i);
    r := Ok(());
  }
}
