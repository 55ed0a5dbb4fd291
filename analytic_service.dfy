/**
 * The analytic service (src/services/analyticService.ts): per-period summaries with a period
 * start and end, an optional average cycle length and an optional symptom summary, each owned
 * by one user. The service itself makes no ownership decision; its controller does.
 */
module AnalyticService {
  import opened Outcomes
  import opened Js
  import opened Errors
  import opened Store

  // The messages the service throws.
  const InvalidAnalyticId := "ID analitik tidak valid."
  const AnalyticNotFound := "Analitik tidak ditemukan."
  const PeriodStartRequired := "Tanggal mulai periode wajib diisi dan harus format tanggal valid (ISO)."
  const PeriodEndRequired := "Tanggal akhir periode wajib diisi dan harus format tanggal valid (ISO)."
  const AverageCycleNotNumber := "Rata-rata siklus harus berupa angka jika disediakan."
  const SummaryNotText := "Ringkasan gejala harus berupa string jika disediakan."
  const PeriodStartInvalid := "Tanggal mulai periode harus format tanggal valid (ISO) jika disediakan."
  const PeriodEndInvalid := "Tanggal akhir periode harus format tanggal valid (ISO) jika disediakan."
  const AverageCycleNotNumberOrNull := "Rata-rata siklus harus berupa angka atau null jika disediakan."
  const SummaryNotTextOrNull := "Ringkasan gejala harus berupa string atau null jika disediakan."

  /** A stored analytic; the period bounds are milliseconds since the epoch. */
  datatype Analytic = Analytic(userId: int, periodStart: int, periodEnd: int, averageCycle: Option<real>,
                               symptomSummary: Option<string>)

  /**
   * The four fields a create or an update carries. An update names only the keys its caller
   * supplied; a key left out is `Undefined`.
   */
  datatype AnalyticInput = AnalyticInput(periodStart: Value, periodEnd: Value, averageCycle: Value,
                                         symptomSummary: Value)

  /** `orderBy: { periodStart: 'desc' }`: the latest period first. */
  function LatestPeriodFirst(row: Row<Analytic>): int {
    -row.val.periodStart
  }

  /** `where: { userId }`. */
  function OwnedBy(userId: int): Row<Analytic> -> bool {
    (row: Row<Analytic>) => row.val.userId == userId
  }

  /** `getAllAnalytics()`: every analytic, latest period first. */
  method GetAllAnalytics(analytics: Table<Analytic>) returns (s: seq<Row<Analytic>>)
    requires analytics.Valid()
    ensures IsSelection(analytics.rows, Every, LatestPeriodFirst, s)
  {
    s := analytics.Select(Every, LatestPeriodFirst);
  }

  /** `getAnalyticsByUserId(userId)`: exactly the user's analytics, latest period first. */
  method GetAnalyticsByUserId(analytics: Table<Analytic>, userId: int) returns (s: seq<Row<Analytic>>)
    requires analytics.Valid()
    ensures IsSelection(analytics.rows, OwnedBy(userId), LatestPeriodFirst, s)
  {
    s := analytics.Select(OwnedBy(userId), LatestPeriodFirst);
  }

  /** What `getAnalyticsByUserId` returns: the user's analytics and no one else's, all of them, latest first. */
  lemma UserAnalyticsAreOwnLatestFirst(rows: map<int, Analytic>, userId: int, s: seq<Row<Analytic>>)
    requires IsSelection(rows, OwnedBy(userId), LatestPeriodFirst, s)
    ensures forall i :: 0 <= i < |s| ==> s[i].val.userId == userId && s[i].id in rows
    ensures forall id :: id in rows && rows[id].userId == userId ==>
      exists i :: 0 <= i < |s| && s[i] == Row(id, rows[id])
    ensures forall i, j :: 0 <= i < j < |s| ==> s[i].val.periodStart >= s[j].val.periodStart
  {
    forall id | id in rows && rows[id].userId == userId
      ensures exists i :: 0 <= i < |s| && s[i] == Row(id, rows[id])
    {
      assert OwnedBy(userId)(Row(id, rows[id]));
      var i :| 0 <= i < |s| && s[i].id == id;
      assert s[i] == Row(id, rows[id]);
    }
    forall i, j | 0 <= i < j < |s| ensures s[i].val.periodStart >= s[j].val.periodStart {
      assert LatestPeriodFirst(s[i]) <= LatestPeriodFirst(s[j]);
    }
  }

  // ---------------------------------------------------------------------------------------
  // createAnalyticForUser

  /** The body checks of `createAnalyticForUser` pass; `null` is no number and no string here. */
  predicate CreateAnalyticFieldsValid(parse: DateParser, data: AnalyticInput) {
    && IsValidDateString(parse, data.periodStart)
    && IsValidDateString(parse, data.periodEnd)
    && (data.averageCycle.Undefined? || data.averageCycle.Num?)
    && (data.symptomSummary.Undefined? || data.symptomSummary.Str?)
  }

  /** The analytic `createAnalyticForUser` stores: the four fields copied, an absent one left null. */
  function NewAnalytic(parse: DateParser, userId: int, data: AnalyticInput): (a: Analytic)
    requires CreateAnalyticFieldsValid(parse, data)
    ensures a.userId == userId
    ensures a.periodStart == DateOf(parse, data.periodStart) && a.periodEnd == DateOf(parse, data.periodEnd)
    ensures a.averageCycle.Some? <==> data.averageCycle.Num?
    ensures a.averageCycle.Some? ==> a.averageCycle.value == data.averageCycle.x
    ensures a.symptomSummary.Some? <==> data.symptomSummary.Str?
    ensures a.symptomSummary.Some? ==> a.symptomSummary.value == data.symptomSummary.s
  {
    Analytic(userId, DateOf(parse, data.periodStart), DateOf(parse, data.periodEnd),
             if data.averageCycle.Num? then Some(data.averageCycle.x) else None,
             if data.symptomSummary.Str? then Some(data.symptomSummary.s) else None)
  }

  /** `createAnalyticForUser(userId, data)`. */
  method CreateAnalyticForUser(analytics: Table<Analytic>, parse: DateParser, userId: int, data: AnalyticInput)
    returns (r: Result<Row<Analytic>, Failure>)
    requires analytics.Valid()
    modifies analytics
    ensures analytics.Valid()
    ensures !IsValidDateString(parse, data.periodStart) ==> FailsWith(r, 400)
    ensures IsValidDateString(parse, data.periodStart) && !IsValidDateString(parse, data.periodEnd) ==> FailsWith(r, 400)
    ensures !CreateAnalyticFieldsValid(parse, data) ==> FailsWith(r, 400)
    ensures r.Ok? <==> CreateAnalyticFieldsValid(parse, data)
    ensures r.Ok? ==> && r.value.id !in old(analytics.rows)
                      && r.value.val == NewAnalytic(parse, userId, data)
                      && analytics.rows == old(analytics.rows)[r.value.id := r.value.val]
    ensures r.Err? ==> analytics.rows == old(analytics.rows)
  {
    // A valid date string is never falsy, so the `!value ||` halves of the source's guards are subsumed.
    if !IsValidDateString(parse, data.periodStart) {
      return Raise(PeriodStartRequired, 400);
    }
    if !IsValidDateString(parse, data.periodEnd) {
      return Raise(PeriodEndRequired, 400);
    }
    if !data.averageCycle.Undefined? && !data.averageCycle.Num? {
      return Raise(AverageCycleNotNumber, 400);
    }
    if !data.symptomSummary.Undefined? && !data.symptomSummary.Str? {
      return Raise(SummaryNotText, 400);
    }
    var row := analytics.Insert(NewAnalytic(parse, userId, data));
    r := Ok(row);
  }

  // ---------------------------------------------------------------------------------------
  // getAnalyticById and deleteAnalyticById

  /** `getAnalyticById(analyticId)`. */
  method GetAnalyticById(analytics: Table<Analytic>, id: Numeric) returns (r: Result<Row<Analytic>, Failure>)
    ensures id.NaN? ==> FailsWith(r, 400)
    ensures id.NonInteger? ==> r == Err(Unclassified)
    ensures id.Integer? && id.i !in analytics.rows ==> FailsWith(r, 404)
    ensures r.Ok? <==> id.Integer? && id.i in analytics.rows
    ensures r.Ok? ==> r.value == Row(id.i, analytics.rows[id.i])
  {
    if IsNaN(id) {
      return Raise(InvalidAnalyticId, 400);
    }
    if id.NonInteger? {
      return Err(Unclassified);
    }
    var found := analytics.Find(id.i);
    if found.None? {
      return Raise(AnalyticNotFound, 404);
    }
    r := Ok(found.value);
  }

  /** `deleteAnalyticById(analyticId)`: removes that one row and returns it. */
  method DeleteAnalyticById(analytics: Table<Analytic>, id: Numeric) returns (r: Result<Row<Analytic>, Failure>)
    requires analytics.Valid()
    modifies analytics
    ensures analytics.Valid()
    ensures id.NaN? ==> FailsWith(r, 400)
    ensures id.NonInteger? ==> r == Err(Unclassified)
    ensures id.Integer? && id.i !in old(analytics.rows) ==> FailsWith(r, 404)
    ensures r.Ok? <==> id.Integer? && id.i in old(analytics.rows)
    ensures r.Ok? ==> r.value == Row(id.i, old(analytics.rows)[id.i])
                      && analytics.rows == old(analytics.rows) - {id.i}
    ensures r.Err? ==> analytics.rows == old(analytics.rows)
  {
    var found := GetAnalyticById(analytics, id);
    if found.Err? {
      return Err(found.error);
    }
    var row := analytics.Delete(id.i);
    r := Ok(row);
  }

  // ---------------------------------------------------------------------------------------
  // updateAnalyticById

  /** The checks `updateAnalyticById` makes on the data: a date must be valid, `null` clears the other two. */
  predicate AnalyticPatchValid(parse: DateParser, data: AnalyticInput) {
    && (data.periodStart.Undefined? || IsValidDateString(parse, data.periodStart))
    && (data.periodEnd.Undefined? || IsValidDateString(parse, data.periodEnd))
    && (data.averageCycle.Undefined? || data.averageCycle.Num? || data.averageCycle.Null?)
    && (data.symptomSummary.Undefined? || data.symptomSummary.Str? || data.symptomSummary.Null?)
  }

  /** `a` with the supplied keys of `data` written: dates converted, `null` stored as null. */
  function ApplyAnalyticPatch(parse: DateParser, a: Analytic, data: AnalyticInput): Analytic
    requires AnalyticPatchValid(parse, data)
  {
    Analytic(
      a.userId,
      if data.periodStart.Undefined? then a.periodStart else DateOf(parse, data.periodStart),
      if data.periodEnd.Undefined? then a.periodEnd else DateOf(parse, data.periodEnd),
      match data.averageCycle
      case Undefined => a.averageCycle
      case Num(n) => Some(n)
      case _ => None,
      match data.symptomSummary
      case Undefined => a.symptomSummary
      case Str(s) => Some(s)
      case _ => None)
  }

  /** `updateAnalyticById(analyticId, updateData)`: validates the data before looking the row up. */
  method UpdateAnalyticById(analytics: Table<Analytic>, parse: DateParser, id: Numeric, data: AnalyticInput)
    returns (r: Result<Row<Analytic>, Failure>)
    requires analytics.Valid()
    modifies analytics
    ensures analytics.Valid()
    ensures id.NaN? ==> FailsWith(r, 400)
    ensures !id.NaN? && !AnalyticPatchValid(parse, data) ==> FailsWith(r, 400)
    ensures id.NonInteger? && AnalyticPatchValid(parse, data) ==> r == Err(Unclassified)
    ensures id.Integer? && AnalyticPatchValid(parse, data) && id.i !in old(analytics.rows) ==> FailsWith(r, 404)
    ensures r.Ok? <==> id.Integer? && AnalyticPatchValid(parse, data) && id.i in old(analytics.rows)
    ensures r.Ok? ==> && r.value == Row(id.i, ApplyAnalyticPatch(parse, old(analytics.rows)[id.i], data))
                      && analytics.rows == old(analytics.rows)[id.i := r.value.val]
    ensures r.Err? ==> analytics.rows == old(analytics.rows)
  {
    if IsNaN(id) {
      return Raise(InvalidAnalyticId, 400);
    }
    if !data.periodStart.Undefined? && !IsValidDateString(parse, data.periodStart) {
      return Raise(PeriodStartInvalid, 400);
    }
    if !data.periodEnd.Undefined? && !IsValidDateString(parse, data.periodEnd) {
      return Raise(PeriodEndInvalid, 400);
    }
    if !data.averageCycle.Undefined? && !data.averageCycle.Num? && !data.averageCycle.Null? {
      return Raise(AverageCycleNotNumberOrNull, 400);
    }
    if !data.symptomSummary.Undefined? && !data.symptomSummary.Str? && !data.symptomSummary.Null? {
      return Raise(SummaryNotTextOrNull, 400);
    }
    if id.NonInteger? {
      return Err(Unclassified);
    }
    var found := analytics.Find(id.i);
    if found.None? {
      return Raise(AnalyticNotFound, 404);
    }
    var row := analytics.Update(id.i, ApplyAnalyticPatch(parse, found.value.val, data));
    r := Ok(row);
  }

  /**
   * An update writes exactly the supplied keys: the owner never changes, an absent key keeps its
   * field, `null` clears the average and the summary, and an update with no keys changes nothing.
   */
  lemma ApplyAnalyticPatchTouchesSuppliedOnly(parse: DateParser, a: Analytic, data: AnalyticInput)
    requires AnalyticPatchValid(parse, data)
    ensures ApplyAnalyticPatch(parse, a, data).userId == a.userId
    ensures data.periodStart.Undefined? ==> ApplyAnalyticPatch(parse, a, data).periodStart == a.periodStart
    ensures data.periodEnd.Undefined? ==> ApplyAnalyticPatch(parse, a, data).periodEnd == a.periodEnd
    ensures data.averageCycle.Undefined? ==> ApplyAnalyticPatch(parse, a, data).averageCycle == a.averageCycle
    ensures data.symptomSummary.Undefined? ==> ApplyAnalyticPatch(parse, a, data).symptomSummary == a.symptomSummary
    ensures data.averageCycle.Null? ==> ApplyAnalyticPatch(parse, a, data).averageCycle == None
    ensures data.symptomSummary.Null? ==> ApplyAnalyticPatch(parse, a, data).symptomSummary == None
    ensures !data.periodStart.Undefined? ==> ApplyAnalyticPatch(parse, a, data).periodStart == DateOf(parse, data.periodStart)
    ensures !data.periodEnd.Undefined? ==> ApplyAnalyticPatch(parse, a, data).periodEnd == DateOf(parse, data.periodEnd)
    ensures data.averageCycle.Num? ==> ApplyAnalyticPatch(parse, a, data).averageCycle == Some(data.averageCycle.x)
    ensures data.symptomSummary.Str? ==> ApplyAnalyticPatch(parse, a, data).symptomSummary == Some(data.symptomSummary.s)
    ensures data == AnalyticInput(Undefined, Undefined, Undefined, Undefined) ==> ApplyAnalyticPatch(parse, a, data) == a
  {
  }

  /** A `null` period date is refused by an update, while a `null` average or summary is accepted. */
  lemma NullOnlyClearsOptionalFields(parse: DateParser, data: AnalyticInput)
    ensures data.periodStart.Null? ==> !AnalyticPatchValid(parse, data)
    ensures data.periodEnd.Null? ==> !AnalyticPatchValid(parse, data)
    ensures (data.averageCycle.Null? && data.symptomSummary.Null?
             && data.periodStart.Undefined? && data.periodEnd.Undefined?) ==> AnalyticPatchValid(parse, data)
  {
  }
}
