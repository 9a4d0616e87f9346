/** The database helpers next to the client: fetching the requests for the
    properties an agent lists, approving and denying a request (stamping
    `responded_at`), and counting the agent's pending requests. Errors come
    back as a `{ data, error }` pair instead of being thrown. */
module Supabase {
  import opened Wrappers
  import opened Entities
  import JsArray

  /** The `{ data, error }` pair these helpers return. */
  datatype Reply<T> = Reply(data: Option<T>, error: Option<DbError>)

  /** The request's joined property is listed by the agent. A request without
      a property, or whose property has no listing agent, belongs to nobody. */
  predicate ListedBy(req: TourRequestWithDetails, agentId: string) {
    req.property.Some? && req.property.value.listingAgentId == Some(agentId)
  }

  /** `getAgentTourRequests(agentId)` given what the query fetched (already
      in `created_at` descending order). */
  function AgentTourRequests(fetched: Result<seq<TourRequestWithDetails>, DbError>, agentId: string)
    : (r: Reply<seq<TourRequestWithDetails>>)
    ensures fetched.Failure? ==> r == Reply(None, Some(fetched.error))
    ensures fetched.Success? ==> r.error.None? && r.data.Some?
    ensures fetched.Success? ==>
      (forall i :: 0 <= i < |r.data.value| ==>
         r.data.value[i] in fetched.value && ListedBy(r.data.value[i], agentId))
      && (forall i :: 0 <= i < |fetched.value| && ListedBy(fetched.value[i], agentId) ==>
            fetched.value[i] in r.data.value)
  {
    match fetched
    case Failure(e) => Reply(None, Some(e))
    case Success(rows) => Reply(Some(JsArray.Filter(rows, req => ListedBy(req, agentId))), None)
  }

  /** The filter keeps the fetched order: the answer for two batches of rows
      is the answer for the first followed by the answer for the second. */
  lemma AgentTourRequestsInOrder(a: seq<TourRequestWithDetails>, b: seq<TourRequestWithDetails>, agentId: string)
    ensures AgentTourRequests(Success(a + b), agentId).data.value
         == AgentTourRequests(Success(a), agentId).data.value + AgentTourRequests(Success(b), agentId).data.value
  {
    JsArray.FilterConcat(a, b, req => ListedBy(req, agentId));
  }

  /** The row as this `approveTourRequest` leaves it: the response message
      and `updated_at` are not touched. */
  function ApprovedAt(row: TourRequest, now: int): (r: TourRequest)
    ensures r.status == Some(Entities.Approved) && r.respondedAt == Some(now)
    ensures r.agentResponseMessage == row.agentResponseMessage && r.updatedAt == row.updatedAt
    ensures SameRequest(row, r)
  {
    Apply(row, EmptyUpdate.(status := Some(Some(Entities.Approved)), respondedAt := Some(Some(now))))
  }

  /** `reason || null` */
  function ReasonOrNull(reason: Option<string>): (r: Option<string>)
    ensures r.None? <==> reason.None? || reason.value == ""
    ensures r.Some? ==> r == reason
  {
    if reason.Some? && reason.value != "" then reason else None
  }

  /** The row as this `denyTourRequest` leaves it. */
  function DeniedAt(row: TourRequest, reason: Option<string>, now: int): (r: TourRequest)
    ensures r.status == Some(Entities.Denied) && r.respondedAt == Some(now)
    ensures r.agentResponseMessage == ReasonOrNull(reason) && r.updatedAt == row.updatedAt
    ensures SameRequest(row, r)
  {
    Apply(row, TourRequestUpdate(Some(Some(Entities.Denied)), Some(ReasonOrNull(reason)), Some(Some(now)), None))
  }

  /** The `{ data, error }` pair of an `.update(...).select().single()`. */
  function AsReply(r: Result<TourRequest, DbError>): (reply: Reply<TourRequest>)
    ensures reply.data.Some? <==> reply.error.None?
  {
    match r
    case Success(row) => Reply(Some(row), None)
    case Failure(e) => Reply(None, Some(e))
  }

  /** `approveTourRequest(requestId)` */
  method ApproveTourRequest(table: TourRequestTable, requestId: string, now: int, failure: Option<DbError>)
    returns (reply: Reply<TourRequest>)
    modifies table
    ensures reply.error.Some? ==> reply.data.None? && table.rows == old(table.rows)
    ensures failure.Some? ==> reply == Reply(None, failure)
    ensures failure.None? ==> (reply.error.None? <==> requestId in old(table.rows))
    ensures reply.error.None? ==>
      reply.data == Some(ApprovedAt(old(table.rows)[requestId], now))
      && table.rows == old(table.rows)[requestId := reply.data.value]
  {
    var r := table.UpdateSingle(requestId, EmptyUpdate.(status := Some(Some(Entities.Approved)), respondedAt := Some(Some(now))), failure);
    reply := AsReply(r);
  }

  /** `denyTourRequest(requestId, reason)` */
  method DenyTourRequest(table: TourRequestTable, requestId: string, reason: Option<string>, now: int,
                         failure: Option<DbError>)
    returns (reply: Reply<TourRequest>)
    modifies table
    ensures reply.error.Some? ==> reply.data.None? && table.rows == old(table.rows)
    ensures failure.Some? ==> reply == Reply(None, failure)
    ensures failure.None? ==> (reply.error.None? <==> requestId in old(table.rows))
    ensures reply.error.None? ==>
      reply.data == Some(DeniedAt(old(table.rows)[requestId], reason, now))
      && table.rows == old(table.rows)[requestId := reply.data.value]
  {
    var update := TourRequestUpdate(Some(Some(Entities.Denied)), Some(ReasonOrNull(reason)), Some(Some(now)), None);
    var r := table.UpdateSingle(requestId, update, failure);
    reply := AsReply(r);
  }

  predicate IsPending(req: TourRequestWithDetails) {
    req.request.status == Some(Pending)
  }

  /** `getPendingRequestsCount(agentId)` given what the query fetched: the
      pending rows among the agent's requests, and 0 on any error. */
  function PendingRequestsCount(fetched: Result<seq<TourRequestWithDetails>, DbError>, agentId: string): nat {
    var reply := AgentTourRequests(fetched, agentId);
    if reply.error.Some? || reply.data.None? then 0
    else |JsArray.Filter(reply.data.value, IsPending)|
  }

  /** The count is zero on error; otherwise it counts exactly the fetched
      rows that are both listed by the agent and pending, so it never exceeds
      the number of the agent's requests, nor the number fetched. */
  lemma PendingRequestsCountBounds(fetched: Result<seq<TourRequestWithDetails>, DbError>, agentId: string)
    ensures fetched.Failure? ==> PendingRequestsCount(fetched, agentId) == 0
    ensures fetched.Success? ==>
      PendingRequestsCount(fetched, agentId)
        == |JsArray.Filter(fetched.value, req => ListedBy(req, agentId) && IsPending(req))|
      && PendingRequestsCount(fetched, agentId) <= |AgentTourRequests(fetched, agentId).data.value|
      && |AgentTourRequests(fetched, agentId).data.value| <= |fetched.value|
  {
    if fetched.Success? {
      FilterTwice(fetched.value, req => ListedBy(req, agentId), IsPending,
                  req => ListedBy(req, agentId) && IsPending(req));
    }
  }

  /** Filtering by `p` and then by `q` is filtering by both at once. */
  lemma {:induction false} FilterTwice<T>(s: seq<T>, p: T -> bool, q: T -> bool, both: T -> bool)
    requires forall x :: both(x) == (p(x) && q(x))
    ensures JsArray.Filter(JsArray.Filter(s, p), q) == JsArray.Filter(s, both)
  {
    if s != [] {
      FilterTwice(s[1..], p, q, both);
      if p(s[0]) {
        assert JsArray.Filter(s, p) == [s[0]] + JsArray.Filter(s[1..], p);
        assert JsArray.Filter(s, p)[1..] == JsArray.Filter(s[1..], p);
      }
    }
  }
}
