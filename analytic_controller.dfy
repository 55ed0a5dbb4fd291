/**
 * The analytic handlers (src/controllers/analyticController.ts). Unlike the other services,
 * the analytic service validates the period dates itself, but the controller checks them
 * first, and an update forwards only the four analytic keys its caller supplied.
 */
module AnalyticController {
  import opened Outcomes
  import opened Js
  import opened Errors
  import opened Access
  import opened Store
  import opened Http
  import opened AnalyticService

  const InvalidId := "ID analitik tidak valid."
  const PeriodRequired := "Tanggal mulai dan akhir periode wajib diisi dan harus valid."
  const StartInvalid := "Tanggal mulai periode harus valid jika disediakan."
  const EndInvalid := "Tanggal akhir periode harus valid jika disediakan."
  const ReadForbidden := "Terlarang: Anda tidak memiliki akses ke analitik ini."
  const UpdateForbidden := "Terlarang: Anda tidak memiliki akses untuk memperbarui analitik ini."
  const DeleteForbidden := "Terlarang: Anda tidak memiliki akses untuk menghapus analitik ini."
  const CreateFailed := "Gagal membuat analitik."
  const UpdateFailed := "Gagal memperbarui analitik."
  const DeleteFailed := "Gagal menghapus analitik."
  const ReadFailed := "Gagal mengambil detail analitik."

  /** The only keys of a request body an analytic handler reads. */
  const AnalyticKeys: set<string> := {"periodStart", "periodEnd", "averageCycle", "symptomSummary"}

  /** `body[key]`: a key the body lacks reads as `undefined`. */
  function Field(body: map<string, Value>, key: string): Value {
    if key in body then body[key] else Undefined
  }

  /** `const { periodStart, periodEnd, averageCycle, symptomSummary } = req.body`. */
  function Destructure(body: map<string, Value>): (data: AnalyticInput)
    ensures data.periodStart == Field(body, "periodStart") && data.periodEnd == Field(body, "periodEnd")
    ensures data.averageCycle == Field(body, "averageCycle") && data.symptomSummary == Field(body, "symptomSummary")
  {
    AnalyticInput(Field(body, "periodStart"), Field(body, "periodEnd"), Field(body, "averageCycle"),
                  Field(body, "symptomSummary"))
  }

  /** A date key an update may carry: absent, or a string that parses. */
  predicate SuppliedDateValid(parse: DateParser, v: Value) {
    v.Undefined? || IsValidDateString(parse, v)
  }

  /**
   * `d` is the `dataToUpdate` that `updateAnalytic` builds from `body`: exactly the analytic
   * keys whose value is not `undefined`, each with the body's value.
   */
  ghost predicate IsUpdateData(body: map<string, Value>, d: map<string, Value>) {
    && (forall k :: k in d <==> k in AnalyticKeys && Field(body, k) != Undefined)
    && (forall k :: k in d ==> d[k] == Field(body, k))
  }

  /**
   * Whitelisting loses nothing the service reads: the update data holds only analytic keys,
   * none of them `undefined`, and the service sees the same four fields as in the body.
   */
  lemma UpdateDataKeepsSuppliedFields(body: map<string, Value>, d: map<string, Value>)
    requires IsUpdateData(body, d)
    ensures d.Keys <= AnalyticKeys
    ensures forall k :: k in d ==> d[k] != Undefined
    ensures Destructure(d) == Destructure(body)
  {
    forall k | k in AnalyticKeys
      ensures Field(d, k) == Field(body, k)
    {
      if k !in d {
        assert Field(body, k) == Undefined;
      }
    }
  }

  /** `getAllAnalyticsForAdmin`: every analytic, latest period first (the admin gate is on the route). */
  method GetAllAnalyticsForAdmin(analytics: Table<Analytic>, res: Response<seq<Row<Analytic>>>)
    requires analytics.Valid()
    modifies res
    ensures res.statusCode == 200 && res.body.Some? && res.body.value.Json?
    ensures IsSelection(analytics.rows, Every, LatestPeriodFirst, res.body.value.value)
  {
    var s := GetAllAnalytics(analytics);
    res.Reply(200, Json(s));
  }

  /** `getUserAnalytics`: the requester's own analytics, latest period first, for an admin too. */
  method GetUserAnalytics(analytics: Table<Analytic>, req: Requester, res: Response<seq<Row<Analytic>>>)
    requires analytics.Valid()
    modifies res
    ensures res.statusCode == 200 && res.body.Some? && res.body.value.Json?
    ensures IsSelection(analytics.rows, OwnedBy(req.id), LatestPeriodFirst, res.body.value.value)
  {
    var s := GetAnalyticsByUserId(analytics, req.id);
    res.Reply(200, Json(s));
  }

  /**
   * `createAnalytic`: 400 unless both period dates parse, then the service (which refuses a
   * malformed average or summary); the owner is always the requester.
   */
  method CreateAnalytic(analytics: Table<Analytic>, parse: DateParser, req: Requester, body: map<string, Value>,
                        res: Response<Row<Analytic>>)
    requires analytics.Valid()
    modifies analytics, res
    ensures analytics.Valid()
    ensures !IsValidDateString(parse, Field(body, "periodStart")) || !IsValidDateString(parse, Field(body, "periodEnd")) ==>
      res.statusCode == 400 && res.body == Some(ErrorJson(PeriodRequired))
    ensures !CreateAnalyticFieldsValid(parse, Destructure(body)) ==> RepliedError(res, 400)
    ensures res.statusCode == 201 <==> CreateAnalyticFieldsValid(parse, Destructure(body))
    ensures res.statusCode == 201 ==>
      && res.body.Some? && res.body.value.Json?
      && res.body.value.value.id !in old(analytics.rows)
      && res.body.value.value.val == NewAnalytic(parse, req.id, Destructure(body))
      && analytics.rows == old(analytics.rows)[res.body.value.value.id := res.body.value.value.val]
    ensures res.statusCode != 201 ==> analytics.rows == old(analytics.rows)
  {
    var data := Destructure(body);
    if !IsValidDateString(parse, data.periodStart) || !IsValidDateString(parse, data.periodEnd) {
      res.Reply(400, ErrorJson(PeriodRequired));
      return;
    }
    var r := CreateAnalyticForUser(analytics, parse, req.id, data);
    if r.Err? {
      ReplyFailure(res, r.error, CreateFailed);
      return;
    }
    res.Reply(201, Json(r.value));
  }

  /**
   * `updateAnalytic`: NaN id 400, lookup 404/500, 403 for a non-owner, 400 for a supplied date
   * that does not parse; then only the supplied analytic keys go to the service, which checks
   * the average and the summary.
   */
  method UpdateAnalytic(analytics: Table<Analytic>, parse: DateParser, req: Requester, id: Numeric,
                        body: map<string, Value>, res: Response<Row<Analytic>>)
    requires analytics.Valid()
    modifies analytics, res
    ensures analytics.Valid()
    ensures id.NaN? ==> res.statusCode == 400 && res.body == Some(ErrorJson(InvalidId))
    ensures id.NonInteger? ==> res.statusCode == 500 && res.body == Some(ErrorJson(UpdateFailed))
    ensures id.Integer? && id.i !in old(analytics.rows) ==> RepliedError(res, 404)
    ensures id.Integer? && id.i in old(analytics.rows) && !Authorized(req, old(analytics.rows)[id.i].userId) ==>
      res.statusCode == 403 && res.body == Some(ErrorJson(UpdateForbidden))
    ensures (id.Integer? && id.i in old(analytics.rows) && Authorized(req, old(analytics.rows)[id.i].userId)
             && !SuppliedDateValid(parse, Field(body, "periodStart"))) ==>
      res.statusCode == 400 && res.body == Some(ErrorJson(StartInvalid))
    ensures (id.Integer? && id.i in old(analytics.rows) && Authorized(req, old(analytics.rows)[id.i].userId)
             && SuppliedDateValid(parse, Field(body, "periodStart"))
             && !SuppliedDateValid(parse, Field(body, "periodEnd"))) ==>
      res.statusCode == 400 && res.body == Some(ErrorJson(EndInvalid))
    ensures (id.Integer? && id.i in old(analytics.rows) && Authorized(req, old(analytics.rows)[id.i].userId)
             && !AnalyticPatchValid(parse, Destructure(body))) ==> RepliedError(res, 400)
    ensures res.statusCode == 200 <==> && id.Integer? && id.i in old(analytics.rows)
                                       && Authorized(req, old(analytics.rows)[id.i].userId)
                                       && AnalyticPatchValid(parse, Destructure(body))
    ensures res.statusCode == 200 ==>
      && analytics.rows == old(analytics.rows)[id.i := ApplyAnalyticPatch(parse, old(analytics.rows)[id.i], Destructure(body))]
      && res.body == Some(Json(Row(id.i, analytics.rows[id.i])))
    ensures res.statusCode != 200 ==> analytics.rows == old(analytics.rows)
  {
    if IsNaN(id) {
      res.Reply(400, ErrorJson(InvalidId));
      return;
    }
    var existing := AnalyticService.GetAnalyticById(analytics, id);
    if existing.Err? {
      ReplyFailure(res, existing.error, UpdateFailed);
      return;
    }
    if !Authorized(req, existing.value.val.userId) {
      res.Reply(403, ErrorJson(UpdateForbidden));
      return;
    }
    var dataToUpdate: map<string, Value> := map[];
    var periodStart := Field(body, "periodStart");
    if periodStart != Undefined {
      if !IsValidDateString(parse, periodStart) {
        res.Reply(400, ErrorJson(StartInvalid));
        return;
      }
      dataToUpdate := dataToUpdate["periodStart" := periodStart];
    }
    var periodEnd := Field(body, "periodEnd");
    if periodEnd != Undefined {
      if !IsValidDateString(parse, periodEnd) {
        res.Reply(400, ErrorJson(EndInvalid));
        return;
      }
      dataToUpdate := dataToUpdate["periodEnd" := periodEnd];
    }
    var averageCycle := Field(body, "averageCycle");
    if averageCycle != Undefined {
      dataToUpdate := dataToUpdate["averageCycle" := averageCycle];
    }
    var symptomSummary := Field(body, "symptomSummary");
    if symptomSummary != Undefined {
      dataToUpdate := dataToUpdate["symptomSummary" := symptomSummary];
    }
    UpdateDataKeepsSuppliedFields(body, dataToUpdate);
    var r := UpdateAnalyticById(analytics, parse, id, Destructure(dataToUpdate));
    if r.Err? {
      ReplyFailure(res, r.error, UpdateFailed);
      return;
    }
    res.Reply(200, Json(r.value));
  }

  /** `deleteAnalytic`: NaN id 400, lookup 404/500, 403 for a non-owner, otherwise the row goes and 204 answers. */
  method DeleteAnalytic(analytics: Table<Analytic>, req: Requester, id: Numeric, res: Response<Row<Analytic>>)
    requires analytics.Valid()
    modifies analytics, res
    ensures analytics.Valid()
    ensures id.NaN? ==> res.statusCode == 400 && res.body == Some(ErrorJson(InvalidId))
    ensures id.NonInteger? ==> res.statusCode == 500 && res.body == Some(ErrorJson(DeleteFailed))
    ensures id.Integer? && id.i !in old(analytics.rows) ==> RepliedError(res, 404)
    ensures id.Integer? && id.i in old(analytics.rows) && !Authorized(req, old(analytics.rows)[id.i].userId) ==>
      res.statusCode == 403 && res.body == Some(ErrorJson(DeleteForbidden))
    ensures res.statusCode == 204 <==> id.Integer? && id.i in old(analytics.rows) && Authorized(req, old(analytics.rows)[id.i].userId)
    ensures res.statusCode == 204 ==> res.body == Some(NoContent) && analytics.rows == old(analytics.rows) - {id.i}
    ensures res.statusCode != 204 ==> analytics.rows == old(analytics.rows)
  {
    if IsNaN(id) {
      res.Reply(400, ErrorJson(InvalidId));
      return;
    }
    var existing := AnalyticService.GetAnalyticById(analytics, id);
    if existing.Err? {
      ReplyFailure(res, existing.error, DeleteFailed);
      return;
    }
    if !Authorized(req, existing.value.val.userId) {
      res.Reply(403, ErrorJson(DeleteForbidden));
      return;
    }
    // The lookup just found the row, so the delete succeeds.
    var r := DeleteAnalyticById(analytics, id);
    assert r.Ok?;
    res.Reply(204, NoContent);
  }

  /** `getAnalyticById`: NaN id 400, lookup 404/500, then 403 for a non-owner. */
  method GetAnalyticById(analytics: Table<Analytic>, req: Requester, id: Numeric, res: Response<Row<Analytic>>)
    modifies res
    ensures id.NaN? ==> res.statusCode == 400 && res.body == Some(ErrorJson(InvalidId))
    ensures id.NonInteger? ==> res.statusCode == 500 && res.body == Some(ErrorJson(ReadFailed))
    ensures id.Integer? && id.i !in analytics.rows ==> RepliedError(res, 404)
    ensures id.Integer? && id.i in analytics.rows && !Authorized(req, analytics.rows[id.i].userId) ==>
      res.statusCode == 403 && res.body == Some(ErrorJson(ReadForbidden))
    ensures id.Integer? && id.i in analytics.rows && Authorized(req, analytics.rows[id.i].userId) ==>
      res.statusCode == 200 && res.body == Some(Json(Row(id.i, analytics.rows[id.i])))
  {
    if IsNaN(id) {
      res.Reply(400, ErrorJson(InvalidId));
      return;
    }
    var found := AnalyticService.GetAnalyticById(analytics, id);
    if found.Err? {
      ReplyFailure(res, found.error, ReadFailed);
      return;
    }
    if !Authorized(req, found.value.val.userId) {
      res.Reply(403, ErrorJson(ReadForbidden));
      return;
    }
    res.Reply(200, Json(found.value));
  }
}
