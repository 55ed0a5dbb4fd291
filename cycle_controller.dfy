/**
 * The cycle handlers (src/controllers/cycleController.ts). They parse the id, fetch the cycle,
 * make the ownership decision the service leaves to them, call the service and translate its
 * outcome into a status and a JSON body.
 */
module CycleController {
  import opened Outcomes
  import opened Js
  import opened Errors
  import opened Access
  import opened Store
  import opened Http
  import opened CycleService
  import UserService

  const InvalidId := "ID siklus tidak valid."
  const ReadForbidden := "Terlarang: Anda tidak memiliki akses ke siklus ini."
  const UpdateForbidden := "Terlarang: Anda tidak memiliki akses untuk memperbarui siklus ini."
  const DeleteForbidden := "Terlarang: Anda tidak memiliki akses untuk menghapus siklus ini."
  const StatsForbidden := "Terlarang: Anda tidak memiliki akses ke statistik."
  const ListFailed := "Gagal mengambil daftar siklus."
  const ReadFailed := "Gagal mengambil detail siklus."
  const CreateFailed := "Gagal membuat siklus baru."
  const UpdateFailed := "Gagal memperbarui siklus."
  const DeleteFailed := "Gagal menghapus siklus."
  const SearchFailed := "Gagal mencari siklus."

  /** `getCycles`: the service's listing, with status 200. */
  method GetCycles(cycles: Table<Cycle>, req: Requester, res: Response<seq<Row<Cycle>>>)
    requires cycles.Valid()
    modifies res
    ensures res.statusCode == 200 && res.body.Some? && res.body.value.Json?
    ensures IsSelection(cycles.rows, VisibleTo(req.id, req.role), LatestStartFirst, res.body.value.value)
  {
    var s := GetAllCycles(cycles, req.id, req.role);
    res.Reply(200, Json(s));
  }

  /**
   * `getCycleById`: NaN id 400, then the lookup (404, or 500 for an id the store refuses),
   * then 403 for a non-admin who does not own the cycle.
   */
  method GetCycleById(cycles: Table<Cycle>, req: Requester, id: Numeric, res: Response<Row<Cycle>>)
    modifies res
    ensures id.NaN? ==> res.statusCode == 400 && res.body == Some(ErrorJson(InvalidId))
    ensures id.NonInteger? ==> res.statusCode == 500 && res.body == Some(ErrorJson(ReadFailed))
    ensures id.Integer? && id.i !in cycles.rows ==> RepliedError(res, 404)
    ensures id.Integer? && id.i in cycles.rows && !Authorized(req, cycles.rows[id.i].userId) ==>
      res.statusCode == 403 && res.body == Some(ErrorJson(ReadForbidden))
    ensures id.Integer? && id.i in cycles.rows && Authorized(req, cycles.rows[id.i].userId) ==>
      res.statusCode == 200 && res.body == Some(Json(Row(id.i, cycles.rows[id.i])))
  {
    if IsNaN(id) {
      res.Reply(400, ErrorJson(InvalidId));
      return;
    }
    var found := GetCycle(cycles, id);
    if found.Err? {
      ReplyFailure(res, found.error, ReadFailed);
      return;
    }
    if !Authorized(req, found.value.val.userId) {
      res.Reply(403, ErrorJson(ReadForbidden));
      return;
    }
    res.Reply(200, Json(found.value));
  }

  /** `createCycle`: 201 with the new cycle, or the service's failure; the body's `userId` is the target. */
  method CreateCycle(cycles: Table<Cycle>, users: Table<UserService.User>, parse: DateParser, req: Requester,
                     data: CycleInput, res: Response<Row<Cycle>>)
    requires cycles.Valid()
    modifies cycles, res
    ensures cycles.Valid()
    ensures !CreateCycleFieldsValid(parse, data) ==> RepliedError(res, 400) && cycles.rows == old(cycles.rows)
    ensures res.body.Some?
    ensures res.body.value.Json? <==> CreateCycleAccepted(parse, users.rows, req, data)
    ensures res.statusCode == 201 <==> CreateCycleAccepted(parse, users.rows, req, data)
    ensures res.body.value.Json? ==>
      && res.body.value.value.id !in old(cycles.rows)
      && cycles.rows == old(cycles.rows)[res.body.value.value.id := res.body.value.value.val]
      && res.body.value.value.val == NewCycle(parse, res.body.value.value.val.userId, data)
      && (if ForTarget(req.role, data) then res.body.value.value.val.userId as real == data.targetUserId.x
          else res.body.value.value.val.userId == req.id)
    ensures !res.body.value.Json? ==> RepliedError(res, res.statusCode) && cycles.rows == old(cycles.rows)
  {
    var r := CreateCycleEntry(cycles, users, parse, req, data);
    if r.Err? {
      ReplyFailure(res, r.error, CreateFailed);
      return;
    }
    res.Reply(201, Json(r.value));
  }

  /**
   * `updateCycle`: NaN id 400, lookup 404/500, then 403 for a non-owner before the body is
   * looked at, so a non-owner is refused even a malformed body; then the service's update.
   */
  method UpdateCycle(cycles: Table<Cycle>, parse: DateParser, req: Requester, id: Numeric, data: CyclePatch,
                     res: Response<Row<Cycle>>)
    requires cycles.Valid()
    modifies cycles, res
    ensures cycles.Valid()
    ensures id.NaN? ==> res.statusCode == 400 && res.body == Some(ErrorJson(InvalidId))
    ensures id.NonInteger? ==> res.statusCode == 500 && res.body == Some(ErrorJson(UpdateFailed))
    ensures id.Integer? && id.i !in old(cycles.rows) ==>
      RepliedError(res, 404)
    ensures id.Integer? && id.i in old(cycles.rows) && !Authorized(req, old(cycles.rows)[id.i].userId) ==>
      res.statusCode == 403 && res.body == Some(ErrorJson(UpdateForbidden))
    ensures (id.Integer? && id.i in old(cycles.rows) && Authorized(req, old(cycles.rows)[id.i].userId)
             && !CyclePatchValid(parse, data)) ==> RepliedError(res, 400)
    ensures res.statusCode == 200 <==> && id.Integer? && id.i in old(cycles.rows)
                                       && Authorized(req, old(cycles.rows)[id.i].userId)
                                       && CyclePatchValid(parse, data)
    ensures res.statusCode == 200 ==>
      && cycles.rows == old(cycles.rows)[id.i := ApplyCyclePatch(parse, old(cycles.rows)[id.i], data)]
      && res.body == Some(Json(Row(id.i, cycles.rows[id.i])))
    ensures res.statusCode != 200 ==> cycles.rows == old(cycles.rows)
  {
    if IsNaN(id) {
      res.Reply(400, ErrorJson(InvalidId));
      return;
    }
    var found := GetCycle(cycles, id);
    if found.Err? {
      ReplyFailure(res, found.error, UpdateFailed);
      return;
    }
    if !Authorized(req, found.value.val.userId) {
      res.Reply(403, ErrorJson(UpdateForbidden));
      return;
    }
    var r := UpdateCycleEntry(cycles, parse, id, data);
    if r.Err? {
      ReplyFailure(res, r.error, UpdateFailed);
      return;
    }
    res.Reply(200, Json(r.value));
  }

  /** `deleteCycle`: NaN id 400, lookup 404/500, 403 for a non-owner, otherwise the row goes and 204 answers. */
  method DeleteCycle(cycles: Table<Cycle>, req: Requester, id: Numeric, res: Response<Row<Cycle>>)
    requires cycles.Valid()
    modifies cycles, res
    ensures cycles.Valid()
    ensures id.NaN? ==> res.statusCode == 400 && res.body == Some(ErrorJson(InvalidId))
    ensures id.NonInteger? ==> res.statusCode == 500 && res.body == Some(ErrorJson(DeleteFailed))
    ensures id.Integer? && id.i !in old(cycles.rows) ==>
      RepliedError(res, 404)
    ensures id.Integer? && id.i in old(cycles.rows) && !Authorized(req, old(cycles.rows)[id.i].userId) ==>
      res.statusCode == 403 && res.body == Some(ErrorJson(DeleteForbidden))
    ensures res.statusCode == 204 <==> id.Integer? && id.i in old(cycles.rows) && Authorized(req, old(cycles.rows)[id.i].userId)
    ensures res.statusCode == 204 ==> res.body == Some(NoContent) && cycles.rows == old(cycles.rows) - {id.i}
    ensures res.statusCode != 204 ==> cycles.rows == old(cycles.rows)
  {
    if IsNaN(id) {
      res.Reply(400, ErrorJson(InvalidId));
      return;
    }
    var found := GetCycle(cycles, id);
    if found.Err? {
      ReplyFailure(res, found.error, DeleteFailed);
      return;
    }
    if !Authorized(req, found.value.val.userId) {
      res.Reply(403, ErrorJson(DeleteForbidden));
      return;
    }
    // The lookup just found the row, so the delete succeeds.
    var r := DeleteCycleEntry(cycles, id);
    assert r.Ok?;
    res.Reply(204, NoContent);
  }

  /** `searchCycles`: the service's search with status 200, or 400 for a start date that does not parse. */
  method SearchCycles(cycles: Table<Cycle>, parse: DateParser, req: Requester, query: CycleQuery,
                      res: Response<seq<Row<Cycle>>>)
    requires cycles.Valid()
    modifies res
    ensures BadSearchDate(parse, query) ==> RepliedError(res, 400)
    ensures !BadSearchDate(parse, query) ==>
      && res.statusCode == 200 && res.body.Some? && res.body.value.Json?
      && IsSelection(cycles.rows, SearchFilter(req.id, req.role, Given(query.noteKeyword), SearchDate(parse, query)),
                     LatestStartFirst, res.body.value.value)
  {
    var r := SearchUserCycles(cycles, parse, req.id, req.role, query);
    if r.Err? {
      ReplyFailure(res, r.error, SearchFailed);
      return;
    }
    res.Reply(200, Json(r.value));
  }

  /**
   * `getCycleStats`: 403 for anyone but an admin, before any statistics are computed;
   * `statistics` stands for the aggregation's result, which is not part of this model.
   */
  method GetCycleStats<S>(req: Requester, statistics: S, res: Response<S>) returns (computed: bool)
    modifies res
    ensures computed <==> IsAdmin(req.role)
    ensures !IsAdmin(req.role) ==> res.statusCode == 403 && res.body == Some(ErrorJson(StatsForbidden))
    ensures IsAdmin(req.role) ==> res.statusCode == 200 && res.body == Some(Json(statistics))
  {
    if !IsAdmin(req.role) {
      res.Reply(403, ErrorJson(StatsForbidden));
      return false;
    }
    res.Reply(200, Json(statistics));
    return true;
  }
}
