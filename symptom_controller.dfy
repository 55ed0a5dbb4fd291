/**
 * The symptom handlers (src/controllers/symptomController.ts): id parsing, the ownership
 * decision, the admin gate of the per-user listing, and the translation of service outcomes
 * into statuses.
 */
module SymptomController {
  import opened Outcomes
  import opened Js
  import opened Errors
  import opened Access
  import opened Store
  import opened Http
  import opened SymptomService

  const InvalidId := "ID gejala tidak valid."
  const ReadForbidden := "Terlarang: Anda tidak memiliki akses ke gejala ini."
  const UpdateForbidden := "Terlarang: Anda tidak memiliki akses untuk memperbarui gejala ini."
  const DeleteForbidden := "Terlarang: Anda tidak memiliki akses untuk menghapus gejala ini."
  const ByUserForbidden := "Terlarang."
  const InvalidUserId := "ID pengguna tidak valid."
  const ReadFailed := "Gagal mengambil detail gejala."
  const CreateFailed := "Gagal membuat gejala baru."
  const UpdateFailed := "Gagal memperbarui gejala."
  const DeleteFailed := "Gagal menghapus gejala."
  const ByUserFailed := "Gagal mengambil gejala berdasarkan pengguna."

  /** `getSymptoms`: the requester's own entries, latest first, for an admin too. */
  method GetSymptoms(symptoms: Table<Symptom>, req: Requester, res: Response<seq<Row<Symptom>>>)
    requires symptoms.Valid()
    modifies res
    ensures res.statusCode == 200 && res.body.Some? && res.body.value.Json?
    ensures IsSelection(symptoms.rows, OwnedBy(req.id), LatestDateFirst, res.body.value.value)
  {
    var s := SymptomService.GetSymptoms(symptoms, req.id);
    res.Reply(200, Json(s));
  }

  /** `getSymptomById`: NaN id 400, lookup 404 (500 for an id the store refuses), then 403 for a non-owner. */
  method GetSymptomById(symptoms: Table<Symptom>, req: Requester, id: Numeric, res: Response<Row<Symptom>>)
    modifies res
    ensures id.NaN? ==> res.statusCode == 400 && res.body == Some(ErrorJson(InvalidId))
    ensures id.NonInteger? ==> res.statusCode == 500 && res.body == Some(ErrorJson(ReadFailed))
    ensures id.Integer? && id.i !in symptoms.rows ==> RepliedError(res, 404)
    ensures id.Integer? && id.i in symptoms.rows && !Authorized(req, symptoms.rows[id.i].userId) ==>
      res.statusCode == 403 && res.body == Some(ErrorJson(ReadForbidden))
    ensures id.Integer? && id.i in symptoms.rows && Authorized(req, symptoms.rows[id.i].userId) ==>
      res.statusCode == 200 && res.body == Some(Json(Row(id.i, symptoms.rows[id.i])))
  {
    if IsNaN(id) {
      res.Reply(400, ErrorJson(InvalidId));
      return;
    }
    var found := SymptomService.GetSymptomById(symptoms, id);
    if found.Err? {
      ReplyFailure(res, found.error, ReadFailed);
      return;
    }
    if !Authorized(req, found.value.val.userId) {
      res.Reply(403, ErrorJson(ReadForbidden));
      return;
    }
    res.Reply(200, Json(found.value));
  }

  /** `createSymptom`: the owner is always the requester; 201 with the new entry, or the service's 400. */
  method CreateSymptom(symptoms: Table<Symptom>, parse: DateParser, req: Requester, date: Value, mood: Value,
                       text: Value, res: Response<Row<Symptom>>)
    requires symptoms.Valid() && TrimmedSymptoms(symptoms.rows)
    modifies symptoms, res
    ensures symptoms.Valid() && TrimmedSymptoms(symptoms.rows)
    ensures !CreateSymptomFieldsValid(parse, date, mood, text) ==>
      RepliedError(res, 400) && symptoms.rows == old(symptoms.rows)
    ensures CreateSymptomFieldsValid(parse, date, mood, text) ==>
      && res.statusCode == 201 && res.body.Some? && res.body.value.Json?
      && res.body.value.value.id !in old(symptoms.rows)
      && res.body.value.value.val == NewSymptom(parse, req.id, date, mood, text)
      && symptoms.rows == old(symptoms.rows)[res.body.value.value.id := res.body.value.value.val]
  {
    var r := SymptomService.CreateSymptom(symptoms, parse, req.id, date, mood, text);
    if r.Err? {
      ReplyFailure(res, r.error, CreateFailed);
      return;
    }
    res.Reply(201, Json(r.value));
  }

  /** `updateSymptom`: NaN id 400, lookup 404/500, 403 for a non-owner, then the service validates the body. */
  method UpdateSymptom(symptoms: Table<Symptom>, parse: DateParser, req: Requester, id: Numeric, data: SymptomPatch,
                       res: Response<Row<Symptom>>)
    requires symptoms.Valid() && TrimmedSymptoms(symptoms.rows)
    modifies symptoms, res
    ensures symptoms.Valid() && TrimmedSymptoms(symptoms.rows)
    ensures id.NaN? ==> res.statusCode == 400 && res.body == Some(ErrorJson(InvalidId))
    ensures id.NonInteger? ==> res.statusCode == 500 && res.body == Some(ErrorJson(UpdateFailed))
    ensures id.Integer? && id.i !in old(symptoms.rows) ==> RepliedError(res, 404)
    ensures id.Integer? && id.i in old(symptoms.rows) && !Authorized(req, old(symptoms.rows)[id.i].userId) ==>
      res.statusCode == 403 && res.body == Some(ErrorJson(UpdateForbidden))
    ensures (id.Integer? && id.i in old(symptoms.rows) && Authorized(req, old(symptoms.rows)[id.i].userId)
             && !SymptomPatchValid(parse, data)) ==> RepliedError(res, 400)
    ensures res.statusCode == 200 <==> && id.Integer? && id.i in old(symptoms.rows)
                                       && Authorized(req, old(symptoms.rows)[id.i].userId)
                                       && SymptomPatchValid(parse, data)
    ensures res.statusCode == 200 ==>
      && symptoms.rows == old(symptoms.rows)[id.i := ApplySymptomPatch(parse, old(symptoms.rows)[id.i], data)]
      && res.body == Some(Json(Row(id.i, symptoms.rows[id.i])))
    ensures res.statusCode != 200 ==> symptoms.rows == old(symptoms.rows)
  {
    if IsNaN(id) {
      res.Reply(400, ErrorJson(InvalidId));
      return;
    }
    var found := SymptomService.GetSymptomById(symptoms, id);
    if found.Err? {
      ReplyFailure(res, found.error, UpdateFailed);
      return;
    }
    if !Authorized(req, found.value.val.userId) {
      res.Reply(403, ErrorJson(UpdateForbidden));
      return;
    }
    var r := SymptomService.UpdateSymptom(symptoms, parse, id, data);
    if r.Err? {
      ReplyFailure(res, r.error, UpdateFailed);
      return;
    }
    res.Reply(200, Json(r.value));
  }

  /** `deleteSymptom`: NaN id 400, lookup 404/500, 403 for a non-owner, otherwise the row goes and 204 answers. */
  method DeleteSymptom(symptoms: Table<Symptom>, req: Requester, id: Numeric, res: Response<Row<Symptom>>)
    requires symptoms.Valid() && TrimmedSymptoms(symptoms.rows)
    modifies symptoms, res
    ensures symptoms.Valid() && TrimmedSymptoms(symptoms.rows)
    ensures id.NaN? ==> res.statusCode == 400 && res.body == Some(ErrorJson(InvalidId))
    ensures id.NonInteger? ==> res.statusCode == 500 && res.body == Some(ErrorJson(DeleteFailed))
    ensures id.Integer? && id.i !in old(symptoms.rows) ==> RepliedError(res, 404)
    ensures id.Integer? && id.i in old(symptoms.rows) && !Authorized(req, old(symptoms.rows)[id.i].userId) ==>
      res.statusCode == 403 && res.body == Some(ErrorJson(DeleteForbidden))
    ensures res.statusCode == 204 <==> id.Integer? && id.i in old(symptoms.rows) && Authorized(req, old(symptoms.rows)[id.i].userId)
    ensures res.statusCode == 204 ==> res.body == Some(NoContent) && symptoms.rows == old(symptoms.rows) - {id.i}
    ensures res.statusCode != 204 ==> symptoms.rows == old(symptoms.rows)
  {
    if IsNaN(id) {
      res.Reply(400, ErrorJson(InvalidId));
      return;
    }
    var found := SymptomService.GetSymptomById(symptoms, id);
    if found.Err? {
      ReplyFailure(res, found.error, DeleteFailed);
      return;
    }
    if !Authorized(req, found.value.val.userId) {
      res.Reply(403, ErrorJson(DeleteForbidden));
      return;
    }
    // The lookup just found the row, so the delete succeeds.
    var r := SymptomService.DeleteSymptom(symptoms, id);
    assert r.Ok?;
    res.Reply(204, NoContent);
  }

  /**
   * `getSymptomsByUser`: 403 for anyone but an admin before the `userId` parameter is even
   * parsed, then 400 for a NaN parameter; an admin gets that user's entries, latest first.
   */
  method GetSymptomsByUser(symptoms: Table<Symptom>, req: Requester, userId: Numeric,
                           res: Response<seq<Row<Symptom>>>)
    requires symptoms.Valid()
    modifies res
    ensures !IsAdmin(req.role) ==> res.statusCode == 403 && res.body == Some(ErrorJson(ByUserForbidden))
    ensures IsAdmin(req.role) && userId.NaN? ==> res.statusCode == 400 && res.body == Some(ErrorJson(InvalidUserId))
    ensures IsAdmin(req.role) && userId.NonInteger? ==> res.statusCode == 500 && res.body == Some(ErrorJson(ByUserFailed))
    ensures IsAdmin(req.role) && userId.Integer? ==>
      && res.statusCode == 200 && res.body.Some? && res.body.value.Json?
      && IsSelection(symptoms.rows, OwnedBy(userId.i), LatestDateFirst, res.body.value.value)
  {
    if !IsAdmin(req.role) {
      res.Reply(403, ErrorJson(ByUserForbidden));
      return;
    }
    if IsNaN(userId) {
      res.Reply(400, ErrorJson(InvalidUserId));
      return;
    }
    if userId.NonInteger? {
      // The store refuses a fractional user id in a filter.
      ReplyFailure(res, Unclassified, ByUserFailed);
      return;
    }
    var s := SymptomService.GetSymptoms(symptoms, userId.i);
    res.Reply(200, Json(s));
  }
}
