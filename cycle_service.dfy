/**
 * The cycle service (src/services/cycleService.ts): menstrual cycle entries with a start
 * date, an optional end date and an optional note, each owned by one user.
 */
module CycleService {
  import opened Outcomes
  import opened Js
  import opened Errors
  import opened Access
  import opened Store
  import UserService

  // The messages the service throws.
  const InvalidCycleId := "ID siklus tidak valid."
  const CycleNotFound := "Siklus tidak ditemukan."
  const StartDateRequired := "Tanggal mulai wajib diisi dan harus format tanggal valid (ISO)."
  const EndDateInvalid := "Tanggal selesai harus format tanggal valid (ISO) jika disediakan."
  const NoteNotText := "Catatan harus berupa string jika disediakan."
  const TargetUserNotFound := "ID pengguna target tidak ditemukan."
  const StartDateInvalid := "Tanggal mulai harus format tanggal valid (ISO) jika disediakan."
  const EndDateInvalidOrNull := "Tanggal selesai harus format tanggal valid (ISO) atau null jika disediakan."
  const NoteNotTextOrNull := "Catatan harus berupa string atau null jika disediakan."
  const SearchDateInvalid := "Tanggal mulai pencarian harus format tanggal valid (ISO)."

  /** A stored cycle; dates are milliseconds since the epoch. */
  datatype Cycle = Cycle(userId: int, startDate: int, endDate: Option<int>, note: Option<string>)

  /** The body of a create request; `targetUserId` is the body's `userId`. */
  datatype CycleInput = CycleInput(startDate: Value, endDate: Value, note: Value, targetUserId: Value)

  /** The body of an update request. */
  datatype CyclePatch = CyclePatch(startDate: Value, endDate: Value, note: Value)

  /** The query string of a search; a key that is absent is None. */
  datatype CycleQuery = CycleQuery(noteKeyword: Option<string>, startDate: Option<string>)

  /** `orderBy: { startDate: 'desc' }`: the latest start first. */
  function LatestStartFirst(row: Row<Cycle>): int {
    -row.val.startDate
  }

  /** The cycles `getAllCycles` lists: all of them for an admin, otherwise the requester's own. */
  function VisibleTo(userId: int, role: Option<string>): Row<Cycle> -> bool {
    (row: Row<Cycle>) => IsAdmin(role) || row.val.userId == userId
  }

  // ---------------------------------------------------------------------------------------
  // getAllCycles and getCycle

  /** `getAllCycles(userId, role)`. */
  method GetAllCycles(cycles: Table<Cycle>, userId: int, role: Option<string>) returns (s: seq<Row<Cycle>>)
    requires cycles.Valid()
    ensures IsSelection(cycles.rows, VisibleTo(userId, role), LatestStartFirst, s)
  {
    if IsAdmin(role) {
      s := cycles.Select(Every, LatestStartFirst);
      SelectionUnderSameFilter(cycles.rows, Every, VisibleTo(userId, role), LatestStartFirst, s);
    } else {
      s := cycles.Select(VisibleTo(userId, role), LatestStartFirst);
    }
  }

  /** What `getAllCycles` returns: every cycle to an admin, and exactly their own cycles to anyone else. */
  lemma GetAllCyclesShowsOwnOnly(rows: map<int, Cycle>, userId: int, role: Option<string>, s: seq<Row<Cycle>>)
    requires IsSelection(rows, VisibleTo(userId, role), LatestStartFirst, s)
    ensures !IsAdmin(role) ==> forall i :: 0 <= i < |s| ==> s[i].val.userId == userId
    ensures forall id :: id in rows && (IsAdmin(role) || rows[id].userId == userId) ==>
      exists i :: 0 <= i < |s| && s[i] == Row(id, rows[id])
    ensures forall i, j :: 0 <= i < j < |s| ==> s[i].val.startDate >= s[j].val.startDate
  {
    forall id | id in rows && (IsAdmin(role) || rows[id].userId == userId)
      ensures exists i :: 0 <= i < |s| && s[i] == Row(id, rows[id])
    {
      assert VisibleTo(userId, role)(Row(id, rows[id]));
      var i :| 0 <= i < |s| && s[i].id == id;
      assert s[i] == Row(id, rows[id]);
    }
    forall i, j | 0 <= i < j < |s| ensures s[i].val.startDate >= s[j].val.startDate {
      assert LatestStartFirst(s[i]) <= LatestStartFirst(s[j]);
    }
  }

  /** `getCycle(cycleId)`: the stored row as it is. */
  method GetCycle(cycles: Table<Cycle>, cycleId: Numeric) returns (r: Result<Row<Cycle>, Failure>)
    ensures cycleId.NaN? ==> FailsWith(r, 400)
    ensures cycleId.NonInteger? ==> r == Err(Unclassified)
    ensures cycleId.Integer? && cycleId.i !in cycles.rows ==> FailsWith(r, 404)
    ensures r.Ok? <==> cycleId.Integer? && cycleId.i in cycles.rows
    ensures r.Ok? ==> r.value == Row(cycleId.i, cycles.rows[cycleId.i])
  {
    if IsNaN(cycleId) {
      return Raise(InvalidCycleId, 400);
    }
    if cycleId.NonInteger? {
      return Err(Unclassified);
    }
    var found := cycles.Find(cycleId.i);
    if found.None? {
      return Raise(CycleNotFound, 404);
    }
    r := Ok(found.value);
  }

  // ---------------------------------------------------------------------------------------
  // createCycleEntry

  /** The three body checks of `createCycleEntry` pass. */
  predicate CreateCycleFieldsValid(parse: DateParser, data: CycleInput) {
    && IsValidDateString(parse, data.startDate)
    && (!Truthy(data.endDate) || IsValidDateString(parse, data.endDate))
    && (!Truthy(data.note) || data.note.Str?)
  }

  /** An admin supplying a numeric `userId` creates for that user; everyone else for themselves. */
  predicate ForTarget(role: Option<string>, data: CycleInput) {
    IsAdmin(role) && data.targetUserId.Num?
  }

  /** The cycle `createCycleEntry` stores for `owner`: a falsy end date stored as null. */
  function NewCycle(parse: DateParser, owner: int, data: CycleInput): (c: Cycle)
    requires CreateCycleFieldsValid(parse, data) && NullableText(data.note).Some?
    ensures c.userId == owner && c.startDate == DateOf(parse, data.startDate)
    ensures c.endDate.None? <==> !Truthy(data.endDate)
    ensures c.endDate.Some? ==> c.endDate.value == DateOf(parse, data.endDate)
    ensures c.note.Some? <==> data.note.Str?
  {
    Cycle(owner, DateOf(parse, data.startDate),
          if Truthy(data.endDate) then Some(DateOf(parse, data.endDate)) else None,
          NullableText(data.note).value)
  }

  /**
   * Every check of `createCycleEntry` passes: valid fields, an admin's target a whole number
   * naming the requester or a stored user, and a note the store accepts.
   */
  predicate CreateCycleAccepted(parse: DateParser, users: map<int, UserService.User>, req: Requester,
                                data: CycleInput) {
    && CreateCycleFieldsValid(parse, data)
    && (ForTarget(req.role, data) ==> IntegerOf(data.targetUserId.x).Some?)
    && (ForTarget(req.role, data) && data.targetUserId.x != req.id as real
        ==> IntegerOf(data.targetUserId.x).value in users)
    && NullableText(data.note).Some?
  }

  /** `createCycleEntry(userId, role, data)`; `users` is read to check an admin's target. */
  method CreateCycleEntry(cycles: Table<Cycle>, users: Table<UserService.User>, parse: DateParser,
                          req: Requester, data: CycleInput)
    returns (r: Result<Row<Cycle>, Failure>)
    requires cycles.Valid()
    modifies cycles
    ensures cycles.Valid()
    ensures !IsValidDateString(parse, data.startDate) ==> FailsWith(r, 400)
    ensures (IsValidDateString(parse, data.startDate) && Truthy(data.endDate)
             && !IsValidDateString(parse, data.endDate)) ==> FailsWith(r, 400)
    ensures (&& IsValidDateString(parse, data.startDate)
             && (!Truthy(data.endDate) || IsValidDateString(parse, data.endDate))
             && Truthy(data.note) && !data.note.Str?) ==> FailsWith(r, 400)
    ensures (&& CreateCycleFieldsValid(parse, data) && ForTarget(req.role, data)
             && IntegerOf(data.targetUserId.x) != Some(req.id)
             && IntegerOf(data.targetUserId.x).Some? && IntegerOf(data.targetUserId.x).value !in users.rows)
            ==> FailsWith(r, 404)
    ensures r.Ok? <==> CreateCycleAccepted(parse, users.rows, req, data)
    ensures r.Err? ==> FailsWith(r, 400) || FailsWith(r, 404) || r.error == Unclassified
    ensures r.Ok? ==> && (if ForTarget(req.role, data) then r.value.val.userId as real == data.targetUserId.x
                          else r.value.val.userId == req.id)
                      && r.value.id !in old(cycles.rows)
                      && r.value.val == NewCycle(parse, r.value.val.userId, data)
                      && cycles.rows == old(cycles.rows)[r.value.id := r.value.val]
    ensures r.Err? ==> cycles.rows == old(cycles.rows)
  {
    if !Truthy(data.startDate) || !IsValidDateString(parse, data.startDate) {
      return Raise(StartDateRequired, 400);
    }
    if Truthy(data.endDate) && !IsValidDateString(parse, data.endDate) {
      return Raise(EndDateInvalid, 400);
    }
    if Truthy(data.note) && !data.note.Str? {
      return Raise(NoteNotText, 400);
    }
    var owner := req.id;
    if ForTarget(req.role, data) {
      var target := IntegerOf(data.targetUserId.x);
      if target.None? {
        // a fractional id is rejected by the store, at the lookup or at the create
        return Err(Unclassified);
      }
      owner := target.value;
      if target.value != req.id && target.value !in users.rows {
        return Raise(TargetUserNotFound, 404);
      }
    }
    if NullableText(data.note).None? {
      return Err(Unclassified);
    }
    var row := cycles.Insert(NewCycle(parse, owner, data));
    r := Ok(row);
  }

  // ---------------------------------------------------------------------------------------
  // updateCycleEntry and deleteCycleEntry

  /** The body checks of `updateCycleEntry` pass. */
  predicate CyclePatchValid(parse: DateParser, data: CyclePatch) {
    && (data.startDate == Undefined || IsValidDateString(parse, data.startDate))
    && (data.endDate == Undefined || data.endDate == Null || IsValidDateString(parse, data.endDate))
    && (data.note == Undefined || data.note.Str? || data.note == Null)
  }

  /** `c` with the supplied fields of `data` written: a null end date or note clears it. */
  function ApplyCyclePatch(parse: DateParser, c: Cycle, data: CyclePatch): Cycle
    requires CyclePatchValid(parse, data)
  {
    Cycle(
      c.userId,
      if data.startDate == Undefined then c.startDate else DateOf(parse, data.startDate),
      if data.endDate == Undefined then c.endDate
      else if data.endDate == Null then None
      else Some(DateOf(parse, data.endDate)),
      if data.note == Undefined then c.note else NullableText(data.note).value)
  }

  /** `updateCycleEntry(cycleId, data)`: validates the body before looking the cycle up. */
  method UpdateCycleEntry(cycles: Table<Cycle>, parse: DateParser, cycleId: Numeric, data: CyclePatch)
    returns (r: Result<Row<Cycle>, Failure>)
    requires cycles.Valid()
    modifies cycles
    ensures cycles.Valid()
    ensures cycleId.NaN? ==> FailsWith(r, 400)
    ensures !cycleId.NaN? && !CyclePatchValid(parse, data) ==> FailsWith(r, 400)
    ensures cycleId.Integer? && CyclePatchValid(parse, data) && cycleId.i !in old(cycles.rows) ==> FailsWith(r, 404)
    ensures r.Ok? <==> cycleId.Integer? && CyclePatchValid(parse, data) && cycleId.i in old(cycles.rows)
    ensures r.Ok? ==> && r.value == Row(cycleId.i, ApplyCyclePatch(parse, old(cycles.rows)[cycleId.i], data))
                      && cycles.rows == old(cycles.rows)[cycleId.i := r.value.val]
    ensures r.Err? ==> cycles.rows == old(cycles.rows)
  {
    if IsNaN(cycleId) {
      return Raise(InvalidCycleId, 400);
    }
    if data.startDate != Undefined && !IsValidDateString(parse, data.startDate) {
      return Raise(StartDateInvalid, 400);
    }
    if data.endDate != Undefined && data.endDate != Null && !IsValidDateString(parse, data.endDate) {
      return Raise(EndDateInvalidOrNull, 400);
    }
    if data.note != Undefined && !data.note.Str? && data.note != Null {
      return Raise(NoteNotTextOrNull, 400);
    }
    if cycleId.NonInteger? {
      return Err(Unclassified);
    }
    var found := cycles.Find(cycleId.i);
    if found.None? {
      return Raise(CycleNotFound, 404);
    }
    var c := found.value.val;
    if data.startDate != Undefined {
      c := c.(startDate := DateOf(parse, data.startDate));
    }
    if data.endDate != Undefined {
      c := c.(endDate := if data.endDate == Null then None else Some(DateOf(parse, data.endDate)));
    }
    if data.note != Undefined {
      c := c.(note := NullableText(data.note).value);
    }
    var row := cycles.Update(cycleId.i, c);
    r := Ok(row);
  }

  /** An update leaves the owner alone, and writes only the supplied fields. */
  lemma ApplyCyclePatchTouchesSuppliedOnly(parse: DateParser, c: Cycle, data: CyclePatch)
    requires CyclePatchValid(parse, data)
    ensures ApplyCyclePatch(parse, c, data).userId == c.userId
    ensures data.startDate == Undefined ==> ApplyCyclePatch(parse, c, data).startDate == c.startDate
    ensures data.endDate == Undefined ==> ApplyCyclePatch(parse, c, data).endDate == c.endDate
    ensures data.note == Undefined ==> ApplyCyclePatch(parse, c, data).note == c.note
    ensures data.startDate != Undefined ==> ApplyCyclePatch(parse, c, data).startDate == DateOf(parse, data.startDate)
    ensures data.endDate == Null ==> ApplyCyclePatch(parse, c, data).endDate == None
    ensures data.endDate.Str? ==> ApplyCyclePatch(parse, c, data).endDate == Some(DateOf(parse, data.endDate))
    ensures data.note == Null ==> ApplyCyclePatch(parse, c, data).note == None
    ensures data.note.Str? ==> ApplyCyclePatch(parse, c, data).note == Some(data.note.s)
    ensures data == CyclePatch(Undefined, Undefined, Undefined) ==> ApplyCyclePatch(parse, c, data) == c
    ensures ApplyCyclePatch(parse, ApplyCyclePatch(parse, c, data), data) == ApplyCyclePatch(parse, c, data)
  {
  }

  /** `deleteCycleEntry(cycleId)`: removes the row and returns it. */
  method DeleteCycleEntry(cycles: Table<Cycle>, cycleId: Numeric) returns (r: Result<Row<Cycle>, Failure>)
    requires cycles.Valid()
    modifies cycles
    ensures cycles.Valid()
    ensures cycleId.NaN? ==> FailsWith(r, 400)
    ensures cycleId.NonInteger? ==> r == Err(Unclassified)
    ensures cycleId.Integer? && cycleId.i !in old(cycles.rows) ==> FailsWith(r, 404)
    ensures r.Ok? <==> cycleId.Integer? && cycleId.i in old(cycles.rows)
    ensures r.Ok? ==> r.value == Row(cycleId.i, old(cycles.rows)[cycleId.i])
                      && cycles.rows == old(cycles.rows) - {cycleId.i}
    ensures r.Err? ==> cycles.rows == old(cycles.rows)
  {
    if IsNaN(cycleId) {
      return Raise(InvalidCycleId, 400);
    }
    if cycleId.NonInteger? {
      return Err(Unclassified);
    }
    var found := cycles.Find(cycleId.i);
    if found.None? {
      return Raise(CycleNotFound, 404);
    }
    var row := cycles.Delete(cycleId.i);
    r := Ok(row);
  }

  // ---------------------------------------------------------------------------------------
  // searchUserCycles

  /** The `where` of a search: owner unless admin, a note keyword and an exact start date. */
  function SearchFilter(userId: int, role: Option<string>, keyword: Option<string>, start: Option<int>)
    : Row<Cycle> -> bool
  {
    (row: Row<Cycle>) =>
      && (IsAdmin(role) || row.val.userId == userId)
      && (keyword.None? || (row.val.note.Some? && ContainsIgnoringCase(row.val.note.value, keyword.value)))
      && (start.None? || row.val.startDate == start.value)
  }

  /** A query value is used only when it is truthy, i.e. present and non-empty. */
  function Given(v: Option<string>): Option<string> {
    if v.Some? && v.value != "" then v else None
  }

  /** The search has a start date that does not parse. */
  predicate BadSearchDate(parse: DateParser, query: CycleQuery) {
    Given(query.startDate).Some? && DateParse(parse, query.startDate.value).None?
  }

  /** The start date the search filters on, once it has parsed. */
  function SearchDate(parse: DateParser, query: CycleQuery): Option<int>
    requires !BadSearchDate(parse, query)
  {
    if Given(query.startDate).None? then None else DateParse(parse, query.startDate.value)
  }

  /** `searchUserCycles(userId, role, query)`. */
  method SearchUserCycles(cycles: Table<Cycle>, parse: DateParser, userId: int, role: Option<string>,
                          query: CycleQuery)
    returns (r: Result<seq<Row<Cycle>>, Failure>)
    requires cycles.Valid()
    ensures BadSearchDate(parse, query) <==> FailsWith(r, 400)
    ensures r.Ok? <==> !BadSearchDate(parse, query)
    ensures r.Ok? ==> IsSelection(cycles.rows,
                                  SearchFilter(userId, role, Given(query.noteKeyword), SearchDate(parse, query)),
                                  LatestStartFirst, r.value)
  {
    var keyword := Given(query.noteKeyword);
    var start: Option<int> := None;
    if Given(query.startDate).Some? {
      if !IsValidDateString(parse, Str(query.startDate.value)) {
        return Raise(SearchDateInvalid, 400);
      }
      start := Some(DateOf(parse, Str(query.startDate.value)));
    }
    var s := cycles.Select(SearchFilter(userId, role, keyword, start), LatestStartFirst);
    r := Ok(s);
  }

  /** A search by a non-admin never returns another user's cycle. */
  lemma SearchNeverLeaks(rows: map<int, Cycle>, userId: int, role: Option<string>, keyword: Option<string>,
                         start: Option<int>, s: seq<Row<Cycle>>)
    requires IsSelection(rows, SearchFilter(userId, role, keyword, start), LatestStartFirst, s)
    requires !IsAdmin(role)
    ensures forall i :: 0 <= i < |s| ==> s[i].val.userId == userId && s[i] == Row(s[i].id, rows[s[i].id])
  {
    forall i | 0 <= i < |s| ensures s[i].val.userId == userId {
      assert SearchFilter(userId, role, keyword, start)(s[i]);
    }
  }

  /** The piece of `note` at `k` equals `keyword` once the ASCII letters of both are lower-cased. */
  predicate CaselessAt(note: string, keyword: string, k: int)
    requires 0 <= k <= |note| - |keyword|
  {
    Lower(note[k..k + |keyword|]) == Lower(keyword)
  }

  /** Lower-casing commutes with taking a slice. */
  lemma LowerOfSlice(s: string, lo: int, hi: int)
    requires 0 <= lo <= hi <= |s|
    ensures Lower(s)[lo..hi] == Lower(s[lo..hi])
  {
    var l, r := Lower(s)[lo..hi], Lower(s[lo..hi]);
    forall i | 0 <= i < hi - lo ensures l[i] == r[i] {
      assert l[i] == LowerChar(s[lo + i]);
    }
  }

  /**
   * The keyword filter matches a note exactly when some piece of the note equals the keyword
   * up to the case of ASCII letters: any re-casing of the keyword, or of the note, matches alike.
   */
  lemma KeywordMatchIgnoresCase(note: string, keyword: string)
    ensures ContainsIgnoringCase(note, keyword) <==>
            exists k :: 0 <= k <= |note| - |keyword| && CaselessAt(note, keyword, k)
  {
    forall k | 0 <= k <= |note| - |keyword|
      ensures OccursAt(Lower(note), Lower(keyword), k) <==> CaselessAt(note, keyword, k)
    {
      LowerOfSlice(note, k, k + |keyword|);
    }
  }
}
