/** The calendar view of an agent's tours: every approved or completed
    request becomes a one-hour event. A requested date is a day number and an
    instant is a count of milliseconds; the day starts at `day * DayMs`
    (time zones are not modelled). `now` stands for the clock reading used
    when a request has no date. */
module TourCalendar {
  import opened Wrappers
  import opened Entities
  import JsArray

  const HourMs: int := 3_600_000
  const DayMs: int := 86_400_000

  datatype EventProps = EventProps(
    status: string,
    propertyAddress: string,
    clientName: string,
    requestId: string)

  /** `CalendarEvent`; the `type` of the extended properties is always "tour". */
  datatype CalendarEvent = CalendarEvent(
    id: string,
    title: string,
    start: int,
    end: int,
    backgroundColor: string,
    borderColor: string,
    textColor: string,
    extendedProps: EventProps)

  /** The hour a tour on a requested date starts at, by time slot. */
  function StartHour(slot: Option<string>): (h: int)
    ensures slot == Some("morning") ==> h == 9
    ensures slot == Some("afternoon") ==> h == 14
    ensures slot == Some("evening") ==> h == 17
    ensures slot !in {Some("morning"), Some("afternoon"), Some("evening")} ==> h == 10
    ensures 9 <= h <= 17
  {
    if slot.None? || slot.value == "" then 10
    else if slot.value == "morning" then 9
    else if slot.value == "afternoon" then 14
    else if slot.value == "evening" then 17
    else 10
  }

  /** `request.property?.address || "Unknown Property"` */
  function PropertyAddress(request: TourRequestWithDetails): (a: string)
    ensures a != ""
    ensures request.property.Some? && request.property.value.address != "" ==> a == request.property.value.address
    ensures !(request.property.Some? && request.property.value.address != "") ==> a == "Unknown Property"
  {
    if request.property.Some? && request.property.value.address != "" then request.property.value.address
    else "Unknown Property"
  }

  /** `request.user?.full_name || "Unknown Client"` */
  function ClientName(request: TourRequestWithDetails): (n: string)
    ensures n != ""
    ensures request.user.Some? && request.user.value.fullName.Some? && request.user.value.fullName.value != ""
            ==> n == request.user.value.fullName.value
    ensures !(request.user.Some? && request.user.value.fullName.Some? && request.user.value.fullName.value != "")
            ==> n == "Unknown Client"
  {
    if request.user.Some? && request.user.value.fullName.Some? && request.user.value.fullName.value != "" then
      request.user.value.fullName.value
    else "Unknown Client"
  }

  /** `convertTourToEvent(request)` */
  function ConvertTourToEvent(request: TourRequestWithDetails, now: int): (e: CalendarEvent)
    ensures e.end == e.start + HourMs
    ensures request.request.requestedDate.Some? ==>
      e.start == request.request.requestedDate.value * DayMs + StartHour(request.request.requestedTimeSlot) * HourMs
    ensures request.request.requestedDate.None? ==> e.start == now
    ensures e.title == "Tour: " + PropertyAddress(request)
    ensures e.id == request.request.id && e.extendedProps.requestId == request.request.id
    ensures e.extendedProps.status == Name(OrElse(request.request.status, Entities.Approved))
    ensures e.extendedProps.propertyAddress == PropertyAddress(request)
    ensures e.extendedProps.clientName == ClientName(request)
    ensures request.request.status == Some(Completed) ==> e.backgroundColor == "#3b82f6" && e.borderColor == "#2563eb"
    ensures request.request.status != Some(Completed) ==> e.backgroundColor == "#10b981" && e.borderColor == "#059669"
    ensures e.textColor == "#ffffff"
  {
    var address := PropertyAddress(request);
    var start :=
      if request.request.requestedDate.Some? then
        request.request.requestedDate.value * DayMs + StartHour(request.request.requestedTimeSlot) * HourMs
      else now;
    var completed := request.request.status == Some(Completed);
    CalendarEvent(
      request.request.id,
      "Tour: " + address,
      start,
      start + HourMs,
      if completed then "#3b82f6" else "#10b981",
      if completed then "#2563eb" else "#059669",
      "#ffffff",
      EventProps(Name(OrElse(request.request.status, Entities.Approved)), address, ClientName(request), request.request.id))
  }

  /** A dated tour lies within its requested day, between 9:00 and 18:00,
      in the model's day numbering, which has no time zones (the browser
      parses a date-only string as UTC midnight, then sets the hour in
      local time). */
  lemma DatedEventWithinDay(request: TourRequestWithDetails, now: int)
    requires request.request.requestedDate.Some?
    ensures var e := ConvertTourToEvent(request, now);
      var day := request.request.requestedDate.value;
      day * DayMs + 9 * HourMs <= e.start && e.end <= day * DayMs + 18 * HourMs
  {
  }

  /** The rows the calendar query asks for: the agent's approved or completed requests. */
  predicate InCalendarQuery(request: TourRequestWithDetails, agentId: string) {
    request.request.agentId == Some(agentId)
    && request.request.status in {Some(Entities.Approved), Some(Completed)}
  }

  /** `getTourEventsForAgent(agentId)` given what the query fetched: one
      event per row, in the fetched order; a query error is thrown. */
  function TourEventsForAgent(fetched: Result<seq<TourRequestWithDetails>, DbError>, now: int)
    : (r: Result<seq<CalendarEvent>, DbError>)
    ensures fetched.Failure? ==> r == Failure(fetched.error)
    ensures fetched.Success? ==> r.Success? && |r.value| == |fetched.value|
    ensures fetched.Success? ==>
      forall i :: 0 <= i < |fetched.value| ==> r.value[i] == ConvertTourToEvent(fetched.value[i], now)
  {
    match fetched
    case Failure(e) => Failure(e)
    case Success(rows) => Success(seq(|rows|, i requires 0 <= i < |rows| => ConvertTourToEvent(rows[i], now)))
  }

  /** Every event built from the rows the query returns carries "approved"
      or "completed" (so the "approved" default never applies), is blue
      exactly when it is completed, and lasts one hour. */
  lemma {:induction false} QueriedEvents(rows: seq<TourRequestWithDetails>, agentId: string, now: int)
    requires forall i :: 0 <= i < |rows| ==> InCalendarQuery(rows[i], agentId)
    ensures var events := TourEventsForAgent(Success(rows), now).value;
      forall i :: 0 <= i < |events| ==>
        events[i].extendedProps.status in {"approved", "completed"}
        && (events[i].backgroundColor == "#3b82f6" <==> events[i].extendedProps.status == "completed")
        && events[i].end - events[i].start == HourMs
  {
    var events := TourEventsForAgent(Success(rows), now).value;
    forall i | 0 <= i < |events|
      ensures events[i].extendedProps.status in {"approved", "completed"}
      ensures events[i].backgroundColor == "#3b82f6" <==> events[i].extendedProps.status == "completed"
    {
      assert InCalendarQuery(rows[i], agentId);
      assert events[i] == ConvertTourToEvent(rows[i], now);
    }
  }
}
