/**
 * `authenticateToken` (src/middleware/authMiddleware.ts): takes the token from the
 * Authorization header, verifies it, and either fills in the requester's id and role and
 * passes the request on, or answers 401 or 403 itself.
 */
module AuthMiddleware {
  import opened Outcomes
  import opened Js
  import opened Http
  import opened AuthService

  const TokenMissing := "Access token missing"
  const TokenInvalid := "Invalid or expired token"

  /** `jwt.verify(token, secret)`, supplied from outside; None when it throws. */
  type Verifier = string -> Option<TokenPayload>

  /**
   * `authHeader && authHeader.split(' ')[1]`, with a falsy result as None: the second
   * space-separated segment of the header. The scheme word before it is not looked at.
   */
  function BearerToken(header: Option<string>): (t: Option<string>)
    ensures t.Some? ==> t.value != "" && ' ' !in t.value
    ensures t.Some? ==> header.Some? && Split(header.value, ' ')[0] + [' '] + t.value <= header.value
  {
    if header.None? || header.value == "" then None
    else
      var parts := Split(header.value, ' ');
      if |parts| < 2 || parts[1] == "" then None
      else
        SplitPrefix(parts, ' ');
        Some(parts[1])
  }

  /** The first two parts of a split, joined back, begin the string that was split. */
  lemma {:induction false} SplitPrefix(parts: seq<string>, sep: char)
    requires |parts| >= 2
    ensures parts[0] + [sep] + parts[1] <= Join(parts, sep)
    decreases |parts|
  {
    var rest := Join(parts[1..], sep);
    assert Join(parts, sep) == parts[0] + [sep] + rest;
    if |parts| == 2 {
      assert rest == parts[1];
    } else {
      assert rest == parts[1] + [sep] + Join(parts[2..], sep) by {
        assert parts[1..][1..] == parts[2..];
      }
    }
    assert parts[0] + [sep] + rest == parts[0] + [sep] + parts[1] + (rest[|parts[1]|..]);
  }

  /** `Bearer <token>`, or any other scheme word, yields the token; so does a header with more segments after it. */
  lemma {:induction false} BearerTokenOf(scheme: string, token: string, rest: string)
    requires ' ' !in scheme && ' ' !in token && token != ""
    ensures BearerToken(Some(scheme + [' '] + token)) == Some(token)
    ensures BearerToken(Some(scheme + [' '] + token + [' '] + rest)) == Some(token)
  {
    SplitAfterPrefix(scheme, ' ', token);
    SplitWithoutSeparator(token, ' ');
    assert (scheme + [' '] + token) != "";
    SplitAfterPrefix(scheme, ' ', token + [' '] + rest);
    assert scheme + [' '] + token + [' '] + rest == scheme + [' '] + (token + [' '] + rest);
    SplitAfterPrefix(token, ' ', rest);
  }

  /** A header with no space in it carries no token. */
  lemma {:induction false} NoSpaceNoToken(header: string)
    requires ' ' !in header
    ensures BearerToken(Some(header)) == None
  {
    if header != "" {
      SplitWithoutSeparator(header, ' ');
    }
  }

  /** How `authenticateToken` ends. */
  datatype AuthOutcome = TokenAbsent | TokenRejected | TokenAccepted(payload: TokenPayload)

  /** The decision of `authenticateToken`, apart from its effects. */
  function Authenticate(header: Option<string>, verify: Verifier): (o: AuthOutcome)
    ensures o.TokenAbsent? <==> BearerToken(header).None?
    ensures o.TokenRejected? <==> BearerToken(header).Some? && verify(BearerToken(header).value).None?
    ensures o.TokenAccepted? ==> verify(BearerToken(header).value) == Some(o.payload)
  {
    match BearerToken(header)
    case None => TokenAbsent
    case Some(token) =>
      match verify(token)
      case None => TokenRejected
      case Some(payload) => TokenAccepted(payload)
  }

  /**
   * `authenticateToken(req, res, next)`; `next` says whether `next()` was called. Exactly one
   * of three things happens: 401 without a token, 403 for a token that does not verify, or the
   * payload's id and role are put on the request and the request is passed on unanswered.
   */
  method AuthenticateToken<T>(req: Request, res: Response<T>, verify: Verifier) returns (next: bool)
    modifies req, res
    ensures next <==> Authenticate(req.authorization, verify).TokenAccepted?
    ensures req.authorization == old(req.authorization)
    ensures Authenticate(req.authorization, verify).TokenAbsent? ==>
      res.statusCode == 401 && res.body == Some(ErrorJson(TokenMissing))
    ensures Authenticate(req.authorization, verify).TokenRejected? ==>
      res.statusCode == 403 && res.body == Some(ErrorJson(TokenInvalid))
    ensures next ==> && req.userId == Some(Authenticate(req.authorization, verify).payload.userId)
                     && req.userRole == Authenticate(req.authorization, verify).payload.role
                     && res.statusCode == old(res.statusCode) && res.body == old(res.body)
    ensures !next ==> req.userId == old(req.userId) && req.userRole == old(req.userRole)
  {
    var outcome := Authenticate(req.authorization, verify);
    match outcome
    case TokenAbsent =>
      res.Reply(401, ErrorJson(TokenMissing));
      next := false;
    case TokenRejected =>
      res.Reply(403, ErrorJson(TokenInvalid));
      next := false;
    case TokenAccepted(payload) =>
      req.userId := Some(payload.userId);
      req.userRole := payload.role;
      next := true;
  }
}
