/** The dialog an agent denies a tour request with: one of five predefined
    reasons, the last of which asks for a custom text, a loading flag while
    the denial callback runs, and an error banner. */
module DenialModal {
  import opened Wrappers
  import opened Settled
  import Text

  const OtherReason := "Other (specify below)"

  const PredefinedReasons: seq<string> := [
    "Property is no longer available",
    "Scheduling conflict",
    "Property is under contract",
    "Client does not meet requirements",
    OtherReason
  ]

  const BlankReason := "Please select or enter a reason for denial"
  const DenyFailed := "Failed to deny tour request"

  /** `finalReason`: the custom text when "Other (specify below)" is
      selected, the selected reason otherwise. */
  function FinalReason(selectedReason: string, customReason: string): (reason: string)
    ensures selectedReason == OtherReason ==> reason == customReason
    ensures selectedReason != OtherReason ==> reason == selectedReason
  {
    if selectedReason == OtherReason then customReason else selectedReason
  }

  /** The check before `onDeny`: a blank final reason is refused; otherwise
      the callback gets it as typed. */
  function SubmitCheck(selectedReason: string, customReason: string): (r: Result<string, string>)
    ensures r.Failure? <==> Text.AllSpace(FinalReason(selectedReason, customReason))
    ensures r.Failure? ==> r.error == BlankReason
    ensures r.Success? ==> r.value == FinalReason(selectedReason, customReason)
  {
    var reason := FinalReason(selectedReason, customReason);
    Text.TrimEmptyIff(reason);
    if Text.Trim(reason) == "" then Failure(BlankReason) else Success(reason)
  }

  /** Choosing one of the four fixed reasons always passes, whatever the
      custom text holds; choosing nothing, or "Other" with a blank custom
      text, never does. */
  lemma ReasonChoices(custom: string, i: nat)
    requires i < 4
    ensures SubmitCheck(PredefinedReasons[i], custom) == Success(PredefinedReasons[i])
    ensures SubmitCheck("", custom).Failure?
    ensures Text.AllSpace(custom) ==> SubmitCheck(OtherReason, custom).Failure?
  {
    var r := PredefinedReasons[i];
    assert !Text.IsSpace(r[0]);
  }

  /** What the open dialog shows. */
  datatype View = View(
    error: Option<string>,
    checkedReason: Option<string>,
    customReasonShown: bool,
    buttonsDisabled: bool,
    submitText: string)

  class DenialForm {
    var selectedReason: string
    var customReason: string
    var loading: bool
    var error: Option<string>

    constructor ()
      ensures selectedReason == "" && customReason == "" && !loading && error.None?
    {
      selectedReason := "";
      customReason := "";
      loading := false;
      error := None;
    }

    /** The dialog renders nothing while closed; while open, the radio of the
        selected reason is checked, the custom text area shows only for
        "Other", and both buttons are disabled exactly while loading. */
    function Render(isOpen: bool): (v: Option<View>)
      reads this
      ensures v.None? <==> !isOpen
      ensures v.Some? ==> (v.value.checkedReason.Some? <==> selectedReason in PredefinedReasons)
      ensures v.Some? && v.value.checkedReason.Some? ==> v.value.checkedReason.value == selectedReason
      ensures v.Some? ==> (v.value.customReasonShown <==> selectedReason == OtherReason)
      ensures v.Some? ==> v.value.buttonsDisabled == loading && v.value.error == error
      ensures v.Some? ==> v.value.submitText == if loading then "Denying..." else "Deny Tour"
    {
      if !isOpen then None
      else Some(View(
        error,
        if selectedReason in PredefinedReasons then Some(selectedReason) else None,
        selectedReason == OtherReason,
        loading,
        if loading then "Denying..." else "Deny Tour"))
    }

    /** The synchronous part of `handleSubmit`, up to the awaited `onDeny`. */
    method Submit() returns (call: Option<string>)
      modifies this
      ensures selectedReason == old(selectedReason) && customReason == old(customReason)
      ensures SubmitCheck(old(selectedReason), old(customReason)).Failure? ==>
        call.None? && error == Some(BlankReason) && loading == old(loading)
      ensures SubmitCheck(old(selectedReason), old(customReason)).Success? ==>
        call == Some(FinalReason(old(selectedReason), old(customReason))) && loading && error.None?
    {
      var check := SubmitCheck(selectedReason, customReason);
      if check.Failure? {
        error := Some(check.error);
        return None;
      }
      loading := true;
      error := None;
      call := Some(check.value);
    }

    /** The rest of `handleSubmit`, once `onDeny` has settled. */
    method Settle(outcome: Settled) returns (closes: bool)
      modifies this
      ensures !loading
      ensures outcome.Resolved? ==> closes && selectedReason == "" && customReason == "" && error == old(error)
      ensures outcome.Threw? ==>
        !closes && selectedReason == old(selectedReason) && customReason == old(customReason)
        && error == Some(CaughtText(outcome.errorMessage, DenyFailed))
    {
      closes := false;
      match outcome {
        case Resolved =>
          selectedReason := "";
          customReason := "";
          closes := true;
        case Threw(m) =>
          error := Some(CaughtText(m, DenyFailed));
      }
      loading := false;
    }

    /** `handleClose`: ignored while loading; otherwise both reasons and the
        error are cleared and the dialog closes. */
    method Close() returns (closes: bool)
      modifies this
      ensures old(loading) ==>
        !closes && selectedReason == old(selectedReason) && customReason == old(customReason)
        && error == old(error) && loading
      ensures !old(loading) ==> closes && selectedReason == "" && customReason == "" && error.None? && !loading
    {
      closes := false;
      if !loading {
        selectedReason := "";
        customReason := "";
        error := None;
        closes := true;
      }
    }
  }
}
