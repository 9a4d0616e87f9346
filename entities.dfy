/** The entities of the tour-request subsystem: the status of a request, the
    `tour_requests` row and its joins, the partial update the services send,
    and the table those updates are applied to.

    The `tour_requests.status` column is a nullable string. The code writes
    and compares seven distinct words: "pending", "approved", "denied",
    "cancelled", "expired" (the declared `TourRequestStatus` union), plus
    "completed" (written by the calendar's "Mark as Complete" and queried by
    the calendar service) and "declined" (a key of two colour tables, never
    written by any service). Anything else is `Other`. */
module Entities {
  import opened Wrappers

  /** A stored status string is always read through `Parse`, so a row's
      status is `Canonical`: `Other` never carries one of the seven words. */
  datatype Status =
    | Pending
    | Approved
    | Denied
    | Declined
    | Cancelled
    | Expired
    | Completed
    | Other(raw: string)

  /** The string stored in the database for a status. */
  function Name(s: Status): string {
    match s
    case Pending => "pending"
    case Approved => "approved"
    case Denied => "denied"
    case Declined => "declined"
    case Cancelled => "cancelled"
    case Expired => "expired"
    case Completed => "completed"
    case Other(raw) => raw
  }

  /** Reads a stored string as a status; nothing is lost. */
  function Parse(raw: string): (s: Status)
    ensures Name(s) == raw
  {
    if raw == "pending" then Pending
    else if raw == "approved" then Approved
    else if raw == "denied" then Denied
    else if raw == "declined" then Declined
    else if raw == "cancelled" then Cancelled
    else if raw == "expired" then Expired
    else if raw == "completed" then Completed
    else Other(raw)
  }

  /** Only `Other` can hide a known word; a canonical status does not. */
  predicate Canonical(s: Status) {
    s.Other? ==> Parse(s.raw) == s
  }

  /** Every canonical status survives a trip through its stored string. */
  lemma ParseName(s: Status)
    requires Canonical(s)
    ensures Parse(Name(s)) == s
  {
  }

  /** The `TourRequestStatus` union declared next to the database client. */
  predicate Declared(s: Status) {
    s in {Pending, Approved, Denied, Cancelled, Expired}
  }

  /** "completed" is written and queried by the calendar code but is not in
      the declared union, and neither is "declined". */
  lemma CompletedAndDeclinedUndeclared()
    ensures !Declared(Completed) && !Declared(Declined)
    ensures forall s :: Declared(s) ==> Canonical(s) && !s.Other?
  {
  }

  /** JavaScript's falsiness of the column value: `null` or the empty string. */
  predicate Falsy(s: Option<Status>) {
    s.None? || s.value == Other("")
  }

  /** `status || fallback` */
  function OrElse(s: Option<Status>, fallback: Status): (r: Status)
    ensures Falsy(s) ==> r == fallback
    ensures !Falsy(s) ==> Some(r) == s
  {
    if Falsy(s) then fallback else s.value
  }

  /** The lifecycle the design describes (pending to approved, denied,
      cancelled or expired; approved to completed or cancelled; every other
      state final). The code does not enforce it; it is the reference the
      model's operations are compared with. */
  predicate LifecycleAllows(from: Status, to: Status) {
    match from
    case Pending => to in {Approved, Denied, Cancelled, Expired}
    case Approved => to in {Completed, Cancelled}
    case _ => false
  }

  /** A row of the `tour_requests` table. Dates are day numbers and instants
      are milliseconds since the epoch. */
  datatype TourRequest = TourRequest(
    id: string,
    userId: string,
    propertyId: string,
    agentId: Option<string>,
    requestedDate: Option<int>,
    requestedTimeSlot: Option<string>,
    message: Option<string>,
    status: Option<Status>,
    agentResponseMessage: Option<string>,
    respondedAt: Option<int>,
    createdAt: Option<int>,
    updatedAt: Option<int>,
    expiresAt: Option<int>)

  /** The joined `properties` row, with the fields the tour-request code reads. */
  datatype Property = Property(id: string, address: string, listingAgentId: Option<string>)

  /** The joined `profiles` row, with the field the tour-request code reads. */
  datatype Profile = Profile(id: string, fullName: Option<string>)

  /** `TourRequestWithDetails`: a row with its joined property and requester. */
  datatype TourRequestWithDetails = WithDetails(
    request: TourRequest,
    property: Option<Property>,
    user: Option<Profile>)

  /** An error reported by the database client. */
  datatype DbError = DbError(code: string, message: string)

  /** The code `.single()` reports when no row matched. */
  const NoRowsCode := "PGRST116"

  /** `TourRequestUpdate`: a partial row. A field is written exactly when its
      key is present (`Some`); a present key may carry `null` (`Some(None)`). */
  datatype TourRequestUpdate = TourRequestUpdate(
    status: Option<Option<Status>>,
    agentResponseMessage: Option<Option<string>>,
    respondedAt: Option<Option<int>>,
    updatedAt: Option<Option<int>>)

  const EmptyUpdate := TourRequestUpdate(None, None, None, None)

  /** What `.update(u)` does to a matched row. */
  function Apply(row: TourRequest, u: TourRequestUpdate): (r: TourRequest)
    ensures r.status == u.status.GetOr(row.status)
    ensures r.agentResponseMessage == u.agentResponseMessage.GetOr(row.agentResponseMessage)
    ensures r.respondedAt == u.respondedAt.GetOr(row.respondedAt)
    ensures r.updatedAt == u.updatedAt.GetOr(row.updatedAt)
    ensures SameRequest(row, r)
  {
    row.(status := u.status.GetOr(row.status),
         agentResponseMessage := u.agentResponseMessage.GetOr(row.agentResponseMessage),
         respondedAt := u.respondedAt.GetOr(row.respondedAt),
         updatedAt := u.updatedAt.GetOr(row.updatedAt))
  }

  /** The two rows agree on everything an update payload cannot touch: who
      asked, for which property, which agent, when, and what they wrote. */
  predicate SameRequest(a: TourRequest, b: TourRequest) {
    a.id == b.id && a.userId == b.userId && a.propertyId == b.propertyId
    && a.agentId == b.agentId && a.requestedDate == b.requestedDate
    && a.requestedTimeSlot == b.requestedTimeSlot && a.message == b.message
    && a.createdAt == b.createdAt && a.expiresAt == b.expiresAt
  }

  /** The `tour_requests` table, keyed by request id. */
  class TourRequestTable {
    var rows: map<string, TourRequest>

    constructor (initial: map<string, TourRequest>)
      ensures rows == initial
    {
      rows := initial;
    }

    /** `.update(u).eq("id", id).select().single()`: a client failure leaves
        the table as it was; no matching row is the "no rows" error; otherwise
        the row is updated and returned. */
    method UpdateSingle(id: string, u: TourRequestUpdate, failure: Option<DbError>)
      returns (r: Result<TourRequest, DbError>)
      modifies this
      ensures failure.Some? ==> r == Failure(failure.value) && rows == old(rows)
      ensures failure.None? && id !in old(rows) ==> r.Failure? && r.error.code == NoRowsCode && rows == old(rows)
      ensures failure.None? && id in old(rows) ==>
        r == Success(Apply(old(rows)[id], u)) && rows == old(rows)[id := r.value]
    {
      if failure.Some? {
        r := Failure(failure.value);
      } else if id !in rows {
        r := Failure(DbError(NoRowsCode, "JSON object requested, multiple (or no) rows returned"));
      } else {
        var updated := Apply(rows[id], u);
        rows := rows[id := updated];
        r := Success(updated);
      }
    }

    /** `.update(u).eq("id", id)` without `.single()`: no matching row is not
        an error, the table is simply unchanged. */
    method UpdateWhere(id: string, u: TourRequestUpdate, failure: Option<DbError>)
      returns (error: Option<DbError>)
      modifies this
      ensures error == failure
      ensures failure.Some? || id !in old(rows) ==> rows == old(rows)
      ensures failure.None? && id in old(rows) ==> rows == old(rows)[id := Apply(old(rows)[id], u)]
    {
      error := failure;
      if failure.None? && id in rows {
        rows := rows[id := Apply(rows[id], u)];
      }
    }
  }
}
