/**
 * The ownership decision every guarded handler and service repeats inline as
 * `role !== 'admin' && record.userId !== userId`, stated once.
 */
module Access {
  import opened Outcomes

  /** The identity a verified token put on the request: `req.userId` and `req.userRole`. */
  datatype Requester = Requester(id: int, role: Option<string>)

  /** `role === 'admin'`; a missing role is not admin. */
  predicate IsAdmin(role: Option<string>) {
    role == Some("admin")
  }

  /** The requester may act on a record owned by `ownerId`: an admin, or the owner. */
  predicate Authorized(r: Requester, ownerId: int) {
    IsAdmin(r.role) || r.id == ownerId
  }
}
