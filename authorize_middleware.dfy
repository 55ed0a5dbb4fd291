/**
 * `authorizeRole(requiredRole)` (src/middleware/authorizeMiddleware.ts): lets a request through
 * only when the role its token carried is exactly the required one.
 */
module AuthorizeMiddleware {
  import opened Outcomes
  import opened Http

  const RoleMissing := "User role not found, unauthorized"
  const InsufficientRights := "Forbidden: insufficient rights"

  /** How `authorizeRole` ends. */
  datatype Decision = RoleAbsent | RoleRefused | RoleAccepted

  /** The decision of `authorizeRole`: a missing or empty role first, then strict string equality. */
  function AuthorizeDecision(userRole: Option<string>, requiredRole: string): (d: Decision)
    ensures d.RoleAbsent? <==> userRole.None? || userRole == Some("")
    ensures d.RoleAccepted? <==> userRole == Some(requiredRole) && requiredRole != ""
    ensures d.RoleRefused? <==> userRole.Some? && userRole.value != "" && userRole.value != requiredRole
  {
    if userRole.None? || userRole.value == "" then RoleAbsent
    else if userRole.value != requiredRole then RoleRefused
    else RoleAccepted
  }

  /**
   * `authorizeRole(requiredRole)(req, res, next)`; `next` says whether `next()` was called.
   * 401 for a missing role, 403 for another role, otherwise the request goes on unanswered.
   */
  method AuthorizeRole<T>(requiredRole: string, req: Request, res: Response<T>) returns (next: bool)
    modifies res
    ensures next <==> AuthorizeDecision(req.userRole, requiredRole).RoleAccepted?
    ensures AuthorizeDecision(req.userRole, requiredRole).RoleAbsent? ==>
      res.statusCode == 401 && res.body == Some(ErrorJson(RoleMissing))
    ensures AuthorizeDecision(req.userRole, requiredRole).RoleRefused? ==>
      res.statusCode == 403 && res.body == Some(ErrorJson(InsufficientRights))
    ensures next ==> res.statusCode == old(res.statusCode) && res.body == old(res.body)
  {
    match AuthorizeDecision(req.userRole, requiredRole)
    case RoleAbsent =>
      res.Reply(401, ErrorJson(RoleMissing));
      next := false;
    case RoleRefused =>
      res.Reply(403, ErrorJson(InsufficientRights));
      next := false;
    case RoleAccepted =>
      next := true;
  }

  /** The admin gate lets through exactly the requests whose token said "admin". */
  lemma AdminGate(userRole: Option<string>)
    ensures AuthorizeDecision(userRole, "admin").RoleAccepted? <==> userRole == Some("admin")
    ensures userRole == Some("user") ==> AuthorizeDecision(userRole, "admin").RoleRefused?
  {
  }
}
