/** The tour details dialog of the calendar: the status badge, the date and
    time-slot texts, and the "Quick Actions" that move a loaded request to
    "completed" or "cancelled". */
module TourDetailsModal {
  import opened Wrappers
  import opened Entities
  import Text

  /** The status changes the dialog offers for a request's stored status:
      "Mark as Complete" only for an approved request, "Cancel Tour" for an
      approved or a pending one, nothing otherwise (a null status included). */
  function AvailableActions(status: Option<Status>): (actions: seq<Status>)
    ensures Completed in actions <==> status == Some(Approved)
    ensures Cancelled in actions <==> status == Some(Approved) || status == Some(Pending)
    ensures forall a :: a in actions ==> a == Completed || a == Cancelled
  {
    (if status == Some(Approved) then [Completed] else [])
    + (if status == Some(Approved) || status == Some(Pending) then [Cancelled] else [])
  }

  /** Every status change the dialog offers is a step the lifecycle allows. */
  lemma ActionsFollowLifecycle(status: Option<Status>, a: Status)
    requires a in AvailableActions(status)
    ensures status.Some? && LifecycleAllows(status.value, a)
  {
  }

  /** The converse for the two target states of the dialog: every allowed
      step into "completed" or "cancelled" is offered. */
  lemma LifecycleStepsOffered(from: Status, a: Status)
    requires a == Completed || a == Cancelled
    requires LifecycleAllows(from, a)
    ensures a in AvailableActions(Some(from))
  {
  }

  /** The text shown in the badge: `status || "pending"`. */
  function BadgeStatus(status: Option<Status>): (name: string)
    ensures Falsy(status) ==> name == "pending"
    ensures !Falsy(status) ==> name == Name(status.value)
  {
    Name(OrElse(status, Pending))
  }

  /** The badge label, capitalised. */
  function BadgeLabel(status: Option<Status>): (shown: string)
    ensures |shown| == |BadgeStatus(status)|
    ensures Falsy(status) ==> shown == "Pending"
  {
    Text.Capitalize(BadgeStatus(status))
  }

  /** A request with no status shows as "Pending" but cannot be cancelled,
      since the actions test the stored value and not the displayed one. */
  lemma NullStatusLooksPendingButHasNoActions()
    ensures BadgeLabel(None) == "Pending" && AvailableActions(None) == []
    ensures AvailableActions(Some(Pending)) == [Cancelled]
  {
  }

  const Yellow := "bg-yellow-100 text-yellow-800 dark:bg-yellow-900/20 dark:text-yellow-400"
  const Green := "bg-green-100 text-green-800 dark:bg-green-900/20 dark:text-green-400"
  const Red := "bg-red-100 text-red-800 dark:bg-red-900/20 dark:text-red-400"
  const Blue := "bg-blue-100 text-blue-800 dark:bg-blue-900/20 dark:text-blue-400"
  const Gray := "bg-gray-100 text-gray-800 dark:bg-gray-900/20 dark:text-gray-400"

  /** `getStatusColor(status)` */
  function StatusColor(status: string): (classes: string)
    ensures status == "pending" ==> classes == Yellow
    ensures status == "approved" ==> classes == Green
    ensures status == "declined" ==> classes == Red
    ensures status == "completed" ==> classes == Blue
    ensures status !in {"pending", "approved", "declined", "completed"} ==> classes == Gray
  {
    if status == "pending" then Yellow
    else if status == "approved" then Green
    else if status == "declined" then Red
    else if status == "completed" then Blue
    else if status == "cancelled" then Gray
    else Gray
  }

  /** The four colours are told apart, but a denied request, which is what
      the services write, gets the grey of "cancelled", "expired" and
      anything unknown: the red is keyed on "declined", a word no service
      writes. */
  lemma DeniedIsGrey()
    ensures StatusColor(BadgeStatus(Some(Denied))) == StatusColor(BadgeStatus(Some(Cancelled)))
    ensures StatusColor(BadgeStatus(Some(Expired))) == Gray
    ensures StatusColor(BadgeStatus(Some(Declined))) == Red != Gray
    ensures |{Yellow, Green, Red, Blue, Gray}| == 5
  {
  }

  /** `formatTimeSlot(slot)` */
  function FormatTimeSlot(slot: Option<string>): (text: string)
    ensures slot.None? || slot.value == "" ==> text == "Not specified"
    ensures slot.Some? && slot.value != "" ==>
      |text| == |slot.value| && text[0] == Text.ToUpper(slot.value[0]) && text[1..] == slot.value[1..]
  {
    if slot.None? || slot.value == "" then "Not specified" else Text.Capitalize(slot.value)
  }

  /** What `formatDate` shows: "Not set", or the long US rendering of a day
      (the rendering itself is not modelled). */
  datatype DateText = Plain(text: string) | LongDate(day: int)

  function FormatDate(date: Option<int>): (r: DateText)
    ensures date.None? <==> r == Plain("Not set")
    ensures date.Some? ==> r == LongDate(date.value)
  {
    if date.None? then Plain("Not set") else LongDate(date.value)
  }

  /** The alert `handleStatusUpdate` ends with. */
  datatype Alert = NoAlert | Alert(text: string)

  /** `handleStatusUpdate(newStatus)`: nothing at all when no request is
      loaded; otherwise the request with id `requestId` gets the new status
      and nothing else, and an alert says how it went. */
  method HandleStatusUpdate(table: TourRequestTable, loaded: Option<TourRequestWithDetails>,
                            requestId: string, newStatus: Status, failure: Option<DbError>)
    returns (alert: Alert)
    modifies table
    ensures loaded.None? ==> alert == NoAlert && table.rows == old(table.rows)
    ensures loaded.Some? && failure.Some? ==>
      alert == Alert("Failed to update tour status. Please try again.") && table.rows == old(table.rows)
    ensures loaded.Some? && failure.None? ==>
      alert == Alert("Tour " + Name(newStatus) + " successfully")
      && (requestId in old(table.rows) ==>
            table.rows == old(table.rows)[requestId := old(table.rows)[requestId].(status := Some(newStatus))])
      && (requestId !in old(table.rows) ==> table.rows == old(table.rows))
  {
    if loaded.None? {
      return NoAlert;
    }
    var error := table.UpdateWhere(requestId, EmptyUpdate.(status := Some(Some(newStatus))), failure);
    if error.Some? {
      alert := Alert("Failed to update tour status. Please try again.");
    } else {
      alert := Alert("Tour " + Name(newStatus) + " successfully");
    }
  }
}
