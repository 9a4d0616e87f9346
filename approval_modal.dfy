/** The dialog an agent approves a tour request with: a required response
    message, an optional scheduled date, a loading flag while the approval
    callback runs, and an error banner. */
module ApprovalModal {
  import opened Wrappers
  import opened Settled
  import Text

  /** The arguments `onApprove` receives. */
  datatype ApproveCall = ApproveCall(message: string, scheduledDate: Option<string>)

  const BlankMessage := "Please enter a response message"
  const ApproveFailed := "Failed to approve tour request"

  /** The check `handleSubmit` makes before calling `onApprove`: a message
      that is empty or only white space is refused; otherwise the callback
      gets the message as typed and the date, or nothing for an empty date. */
  function SubmitCheck(message: string, scheduledDate: string): (r: Result<ApproveCall, string>)
    ensures r.Failure? <==> Text.AllSpace(message)
    ensures r.Failure? ==> r.error == BlankMessage
    ensures r.Success? ==> r.value.message == message
    ensures r.Success? ==> (r.value.scheduledDate.None? <==> scheduledDate == "")
    ensures r.Success? && scheduledDate != "" ==> r.value.scheduledDate == Some(scheduledDate)
  {
    Text.TrimEmptyIff(message);
    if Text.Trim(message) == "" then Failure(BlankMessage)
    else Success(ApproveCall(message, if scheduledDate == "" then None else Some(scheduledDate)))
  }

  /** What the open dialog shows. */
  datatype View = View(
    error: Option<string>,
    message: string,
    scheduledDate: string,
    buttonsDisabled: bool,
    submitText: string)

  class ApprovalForm {
    var message: string
    var scheduledDate: string
    var loading: bool
    var error: Option<string>

    constructor ()
      ensures message == "" && scheduledDate == "" && !loading && error.None?
    {
      message := "";
      scheduledDate := "";
      loading := false;
      error := None;
    }

    /** The dialog renders nothing while closed; while open, both buttons are
        disabled exactly while loading. */
    function Render(isOpen: bool): (v: Option<View>)
      reads this
      ensures v.None? <==> !isOpen
      ensures v.Some? ==> v.value.buttonsDisabled == loading
      ensures v.Some? ==> v.value.submitText == if loading then "Approving..." else "Approve Tour"
      ensures v.Some? ==> v.value.error == error && v.value.message == message
    {
      if !isOpen then None
      else Some(View(error, message, scheduledDate, loading, if loading then "Approving..." else "Approve Tour"))
    }

    /** The synchronous part of `handleSubmit`, up to the awaited call: a
        refused message sets the error and calls nothing; otherwise loading
        starts, the error clears, and the call to make is returned. */
    method Submit() returns (call: Option<ApproveCall>)
      modifies this
      ensures message == old(message) && scheduledDate == old(scheduledDate)
      ensures SubmitCheck(old(message), old(scheduledDate)).Failure? ==>
        call.None? && error == Some(BlankMessage) && loading == old(loading)
      ensures SubmitCheck(old(message), old(scheduledDate)).Success? ==>
        call == Some(SubmitCheck(old(message), old(scheduledDate)).value) && loading && error.None?
    {
      var check := SubmitCheck(message, scheduledDate);
      if check.Failure? {
        error := Some(check.error);
        return None;
      }
      loading := true;
      error := None;
      call := Some(check.value);
    }

    /** The rest of `handleSubmit`, once `onApprove` has settled: success
        resets both fields and closes; a failure keeps them and shows the
        error; loading ends either way. */
    method Settle(outcome: Settled) returns (closes: bool)
      modifies this
      ensures !loading
      ensures outcome.Resolved? ==> closes && message == "" && scheduledDate == "" && error == old(error)
      ensures outcome.Threw? ==>
        !closes && message == old(message) && scheduledDate == old(scheduledDate)
        && error == Some(CaughtText(outcome.errorMessage, ApproveFailed))
    {
      closes := false;
      match outcome {
        case Resolved =>
          message := "";
          scheduledDate := "";
          closes := true;
        case Threw(m) =>
          error := Some(CaughtText(m, ApproveFailed));
      }
      loading := false;
    }

    /** `handleClose`: ignored while loading; otherwise the form is cleared
        and the dialog closes. */
    method Close() returns (closes: bool)
      modifies this
      ensures old(loading) ==>
        !closes && message == old(message) && scheduledDate == old(scheduledDate) && error == old(error) && loading
      ensures !old(loading) ==> closes && message == "" && scheduledDate == "" && error.None? && !loading
    {
      closes := false;
      if !loading {
        message := "";
        scheduledDate := "";
        error := None;
        closes := true;
      }
    }
  }
}
