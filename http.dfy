/**
 * The parts of an Express exchange the controllers and middleware touch: the response they
 * write a status and a JSON body into, and the request fields the authentication middleware
 * fills in. Also the one catch block every controller handler repeats.
 */
module Http {
  import opened Outcomes
  import opened Errors

  /** What a handler sends: a JSON payload, `{ error: message }`, or no content. */
  datatype Body<T> = Json(value: T) | ErrorJson(error: string) | NoContent

  /** An Express `res`: `status(code)` sets the code (200 unless set), `json`/`send` sends the body. */
  class Response<T> {
    var statusCode: int
    var body: Option<Body<T>>

    /** A response nothing has been written to yet. */
    constructor ()
      ensures statusCode == 200 && body == None
    {
      statusCode := 200;
      body := None;
    }

    /** `res.status(code).json(b)` (or `.send()` for no content). */
    method Reply(code: int, b: Body<T>)
      modifies this
      ensures statusCode == code && body == Some(b)
    {
      statusCode := code;
      body := Some(b);
    }
  }

  /** `res` holds status `code` and an error body. */
  predicate RepliedError<T>(res: Response<T>, code: int)
    reads res
  {
    res.statusCode == code && res.body.Some? && res.body.value.ErrorJson?
  }

  /** An authenticated Express `req`: the header the token comes from, and what a verified token fills in. */
  class Request {
    var authorization: Option<string>
    var userId: Option<int>
    var userRole: Option<string>

    /** A request as it arrives, before any middleware ran. */
    constructor (authorization: Option<string>)
      ensures this.authorization == authorization && userId == None && userRole == None
    {
      this.authorization := authorization;
      userId := None;
      userRole := None;
    }
  }

  /** The status the controllers' catch block answers a failure with: an AppError's own, else 500. */
  function StatusOf(f: Failure): int {
    if f.Thrown? then f.error.status else 500
  }

  /** The message of that answer: an AppError's own, else the handler's fixed message. */
  function MessageOf(f: Failure, fallback: string): string {
    if f.Thrown? then f.error.message else fallback
  }

  /**
   * `catch (error) { if (error instanceof AppError) res.status(error.status).json({ error:
   * error.message }); else res.status(500).json({ error: fallback }); }`.
   */
  method ReplyFailure<T>(res: Response<T>, f: Failure, fallback: string)
    modifies res
    ensures res.statusCode == StatusOf(f) && res.body == Some(ErrorJson(MessageOf(f, fallback)))
  {
    res.Reply(StatusOf(f), ErrorJson(MessageOf(f, fallback)));
  }

  /** An AppError keeps its status and message on the way out; nothing else can choose a status. */
  lemma OnlyAppErrorsChooseStatus(f: Failure, fallback: string)
    ensures f.Thrown? ==> StatusOf(f) == f.error.status && MessageOf(f, fallback) == f.error.message
    ensures StatusOf(f) != 500 ==> f.Thrown?
    ensures f.Plain? ==> StatusOf(f) == 500 && MessageOf(f, fallback) == fallback
  {
  }
}
