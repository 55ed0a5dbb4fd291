/**
 * Properties that span several modules: a token issued at login passes the authentication
 * middleware with the stored user's identity, and the admin gate then decides on the stored
 * role; a record deleted once is not found the second time.
 */
module Scenarios {
  import opened Outcomes
  import opened Js
  import opened Errors
  import opened Store
  import opened UserService
  import opened AuthService
  import opened AuthMiddleware
  import opened AuthorizeMiddleware
  import CycleService

  /**
   * A token issued for a stored user, sent as `<scheme> <token>` and accepted by the verifier,
   * puts that user's id and role on the request; the admin gate then passes exactly when the
   * stored role is "admin".
   */
  lemma IssuedTokenAuthenticatesItsUser(sign: Signer, verify: Verifier, row: Row<User>, scheme: string)
    requires ' ' !in scheme && ' ' !in TokenFor(sign, row) && TokenFor(sign, row) != ""
    requires verify(TokenFor(sign, row)) == Some(TokenPayload(row.id, Some(row.val.role)))
    ensures Authenticate(Some(scheme + [' '] + TokenFor(sign, row)), verify)
            == TokenAccepted(TokenPayload(row.id, Some(row.val.role)))
    ensures AuthorizeDecision(Some(row.val.role), "admin").RoleAccepted? <==> row.val.role == "admin"
  {
    BearerTokenOf(scheme, TokenFor(sign, row), "");
    AdminGate(Some(row.val.role));
  }

  /** Deleting the same cycle twice: the first call removes it, the second answers 404. */
  method DeleteCycleTwice(cycles: Table<CycleService.Cycle>, id: int)
    returns (first: Result<Row<CycleService.Cycle>, Failure>, second: Result<Row<CycleService.Cycle>, Failure>)
    requires cycles.Valid()
    modifies cycles
    ensures first.Ok? <==> id in old(cycles.rows)
    ensures FailsWith(second, 404)
    ensures cycles.rows == old(cycles.rows) - {id}
  {
    first := CycleService.DeleteCycleEntry(cycles, Integer(id));
    second := CycleService.DeleteCycleEntry(cycles, Integer(id));
  }
}
