/** The agent-side tour-request service: approving and denying a request
    (each one update of a single row, with no check of the row's current
    status) and counting an agent's pending requests. The clock reading that
    stamps `updated_at` is the parameter `now`; a failure reported by the
    database client is the parameter `failure`. */
module TourRequestService {
  import opened Wrappers
  import opened Entities

  /** The row as `approveTourRequest` leaves it. */
  function Approved(row: TourRequest, message: Option<string>, now: int): (r: TourRequest)
    ensures r.status == Some(Entities.Approved)
    ensures message.Some? && message.value != "" ==> r.agentResponseMessage == message
    ensures message.None? || message.value == "" ==> r.agentResponseMessage == row.agentResponseMessage
    ensures r.updatedAt == Some(now)
    ensures r.respondedAt == row.respondedAt && SameRequest(row, r)
  {
    Apply(row, TourRequestUpdate(
      Some(Some(Entities.Approved)),
      if message.Some? && message.value != "" then Some(message) else None,
      None,
      Some(Some(now))))
  }

  /** The row as `denyTourRequest` leaves it. */
  function Denied(row: TourRequest, reason: string, now: int): (r: TourRequest)
    ensures r.status == Some(Entities.Denied)
    ensures r.agentResponseMessage == Some(reason)
    ensures r.updatedAt == Some(now)
    ensures r.respondedAt == row.respondedAt && SameRequest(row, r)
  {
    Apply(row, TourRequestUpdate(Some(Some(Entities.Denied)), Some(Some(reason)), None, Some(Some(now))))
  }

  /** `approveTourRequest(requestId, message)`: the payload starts with the
      status and the stamp and gains the message only when one is given and
      non-empty. A client error, or no row with that id, is thrown and the
      table keeps its rows. */
  method ApproveTourRequest(table: TourRequestTable, requestId: string, message: Option<string>,
                            now: int, failure: Option<DbError>)
    returns (r: Result<TourRequest, DbError>)
    modifies table
    ensures r.Failure? ==> table.rows == old(table.rows)
    ensures failure.Some? ==> r == Failure(failure.value)
    ensures failure.None? ==> (r.Success? <==> requestId in old(table.rows))
    ensures r.Success? ==>
      r.value == Approved(old(table.rows)[requestId], message, now)
      && table.rows == old(table.rows)[requestId := r.value]
  {
    var update := EmptyUpdate.(status := Some(Some(Entities.Approved)), updatedAt := Some(Some(now)));
    if message.Some? && message.value != "" {
      update := update.(agentResponseMessage := Some(message));
    }
    r := table.UpdateSingle(requestId, update, failure);
  }

  /** `denyTourRequest(requestId, reason)`, with the same error behaviour. */
  method DenyTourRequest(table: TourRequestTable, requestId: string, reason: string,
                         now: int, failure: Option<DbError>)
    returns (r: Result<TourRequest, DbError>)
    modifies table
    ensures r.Failure? ==> table.rows == old(table.rows)
    ensures failure.Some? ==> r == Failure(failure.value)
    ensures failure.None? ==> (r.Success? <==> requestId in old(table.rows))
    ensures r.Success? ==>
      r.value == Denied(old(table.rows)[requestId], reason, now)
      && table.rows == old(table.rows)[requestId := r.value]
  {
    var update := TourRequestUpdate(Some(Some(Entities.Denied)), Some(Some(reason)), None, Some(Some(now)));
    r := table.UpdateSingle(requestId, update, failure);
  }

  /** The rows `getPendingCount` counts: assigned to the agent and pending. */
  predicate PendingFor(row: TourRequest, agentId: string) {
    row.agentId == Some(agentId) && row.status == Some(Pending)
  }

  function PendingIds(rows: map<string, TourRequest>, agentId: string): (ids: set<string>)
    ensures forall id :: id in ids <==> id in rows && PendingFor(rows[id], agentId)
  {
    set id | id in rows && PendingFor(rows[id], agentId)
  }

  /** `getPendingCount(agentId)`: the number of the agent's pending rows, or
      the client's error. `countReported` says whether the reply carried a
      count at all; a reply without one reads as 0 (`count || 0`). */
  method GetPendingCount(table: TourRequestTable, agentId: string, countReported: bool, failure: Option<DbError>)
    returns (r: Result<nat, DbError>)
    ensures failure.Some? ==> r == Failure(failure.value)
    ensures failure.None? && countReported ==> r == Success(|PendingIds(table.rows, agentId)|)
    ensures failure.None? && !countReported ==> r == Success(0)
  {
    if failure.Some? {
      r := Failure(failure.value);
    } else if countReported {
      r := Success(|PendingIds(table.rows, agentId)|);
    } else {
      r := Success(0);
    }
  }

  /** Replacing a row by one that is no longer pending lowers the agent's
      pending count by one when that row was pending for the agent, and
      leaves it alone otherwise. */
  lemma LeavingPending(rows: map<string, TourRequest>, id: string, row: TourRequest, agentId: string)
    requires id in rows && row.status != Some(Pending)
    ensures |PendingIds(rows[id := row], agentId)|
         == |PendingIds(rows, agentId)| - (if PendingFor(rows[id], agentId) then 1 else 0)
  {
    var before := PendingIds(rows, agentId);
    var after := PendingIds(rows[id := row], agentId);
    assert after == before - {id};
    if PendingFor(rows[id], agentId) {
      assert id in before;
    } else {
      assert after == before;
    }
  }

  /** Approving or denying any request takes it out of the pending count of
      its agent; every other agent's count stays the same. */
  lemma DecisionsLeavePending(rows: map<string, TourRequest>, id: string, message: Option<string>,
                              reason: string, now: int, agentId: string)
    requires id in rows
    ensures |PendingIds(rows[id := Approved(rows[id], message, now)], agentId)|
         == |PendingIds(rows, agentId)| - (if PendingFor(rows[id], agentId) then 1 else 0)
    ensures |PendingIds(rows[id := Denied(rows[id], reason, now)], agentId)|
         == |PendingIds(rows, agentId)| - (if PendingFor(rows[id], agentId) then 1 else 0)
  {
    LeavingPending(rows, id, Approved(rows[id], message, now), agentId);
    LeavingPending(rows, id, Denied(rows[id], reason, now), agentId);
  }

  /** There is no pending-only guard: a request already denied (or in any
      other state) is approved all the same, although the lifecycle does not
      allow that step, and likewise for denial. */
  lemma NoStatusGuard(row: TourRequest, message: Option<string>, reason: string, now: int)
    requires row.status == Some(Entities.Denied)
    ensures Approved(row, message, now).status == Some(Entities.Approved)
    ensures !LifecycleAllows(Entities.Denied, Entities.Approved)
    ensures Denied(Approved(row, message, now), reason, now).status == Some(Entities.Denied)
    ensures !LifecycleAllows(Entities.Approved, Entities.Denied)
  {
  }
}
