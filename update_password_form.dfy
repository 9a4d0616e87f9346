/** The form reached from a password-reset link: it reports a missing
    session on load, checks the new password against the shared rules,
    and, once the update succeeds, alerts and goes to the sign-in page. */
module UpdatePasswordForm {
  import opened Wrappers
  import Text
  import PasswordRules
  import opened Settled

  const ExpiredLink := "Invalid or expired reset link. Please request a new one."
  const MissingFields := "Please fill in all fields"
  const WeakPassword := "Password must meet all requirements"
  const Mismatch := "Passwords do not match"
  const SamePassword := "New password must be different from your current password"
  const Updated := "Password updated successfully! Please sign in with your new password."
  const SignInPath := "/signin"
  const UpdateFailed := "Failed to update password"

  /** How `updateUser` settled: its reply's error message, if any, or a
      thrown value (with its message when it is an `Error`). */
  datatype UpdateReply = UpdateReplied(updateError: Option<string>) | UpdateThrew(thrown: Option<string>)

  /** The checks of `handleUpdatePassword`, in order. */
  function UpdateCheck(password: string, confirmPassword: string): (r: Option<string>)
    ensures r.None? <==> password != "" && PasswordRules.IsValid(password) && password == confirmPassword
    ensures password == "" || confirmPassword == "" ==> r == Some(MissingFields)
    ensures r == Some(WeakPassword) <==> password != "" && confirmPassword != "" && !PasswordRules.IsValid(password)
    ensures r == Some(Mismatch) <==>
      password != "" && confirmPassword != "" && PasswordRules.IsValid(password) && password != confirmPassword
  {
    if password == "" || confirmPassword == "" then Some(MissingFields)
    else if !PasswordRules.IsValid(password) then Some(WeakPassword)
    else if password != confirmPassword then Some(Mismatch)
    else None
  }

  /** The message shown for an `updateUser` error: reusing the old password
      gets its own text, anything else is shown as reported. */
  function UpdateErrorText(message: string): (text: string)
    ensures Text.Includes(message, "same as the old password") ==> text == SamePassword
    ensures !Text.Includes(message, "same as the old password") ==> text == message
  {
    if Text.Includes(message, "same as the old password") then SamePassword else message
  }

  /** Where a successful update leads: an alert, then the sign-in page. */
  datatype Effects = Effects(alert: Option<string>, navigate: Option<string>)

  class UpdatePasswordFormState {
    var password: string
    var confirmPassword: string
    var loading: bool
    var error: Option<string>

    constructor ()
      ensures password == "" && confirmPassword == "" && !loading && error.None?
    {
      password, confirmPassword := "", "";
      loading, error := false, None;
    }

    /** The mount-time session check: no session means the link is bad. */
    method CheckSession(hasSession: bool)
      modifies this
      ensures error == if hasSession then old(error) else Some(ExpiredLink)
      ensures password == old(password) && confirmPassword == old(confirmPassword) && loading == old(loading)
    {
      if !hasSession {
        error := Some(ExpiredLink);
      }
    }

    /** `handleUpdatePassword` up to `updateUser`: returns the password to
        send when every check passes. */
    method Submit() returns (send: Option<string>)
      modifies this
      ensures password == old(password) && confirmPassword == old(confirmPassword)
      ensures UpdateCheck(password, confirmPassword).Some? ==>
        send.None? && error == UpdateCheck(password, confirmPassword) && loading == old(loading)
      ensures UpdateCheck(password, confirmPassword).None? ==>
        send == Some(password) && loading && error.None?
    {
      var check := UpdateCheck(password, confirmPassword);
      if check.Some? {
        error := check;
        return None;
      }
      loading, error := true, None;
      send := Some(password);
    }

    /** `updateUser` has settled: a reply error is mapped and shown; a
        thrown value shows its own message, or "Failed to update password"
        when it is not an `Error`; success alerts and goes to sign-in;
        loading ends. */
    method Settle(reply: UpdateReply) returns (effects: Effects)
      modifies this
      ensures !loading
      ensures password == old(password) && confirmPassword == old(confirmPassword)
      ensures reply.UpdateReplied? && reply.updateError.Some? ==>
        error == Some(UpdateErrorText(reply.updateError.value)) && effects == Effects(None, None)
      ensures reply.UpdateReplied? && reply.updateError.None? ==>
        error == old(error) && effects == Effects(Some(Updated), Some(SignInPath))
      ensures reply.UpdateThrew? ==>
        error == Some(CaughtText(reply.thrown, UpdateFailed)) && effects == Effects(None, None)
    {
      match reply {
        case UpdateReplied(updateError) =>
          if updateError.Some? {
            error := Some(UpdateErrorText(updateError.value));
            effects := Effects(None, None);
          } else {
            effects := Effects(Some(Updated), Some(SignInPath));
          }
        case UpdateThrew(thrown) =>
          error := Some(CaughtText(thrown, UpdateFailed));
          effects := Effects(None, None);
      }
      loading := false;
    }
  }

  /** Only a submission that passes every check can reach sign-in. */
  lemma OnlyValidPasswordsSent(password: string, confirmPassword: string)
    requires UpdateCheck(password, confirmPassword).None?
    ensures |password| >= 8 && PasswordRules.Strength(password) == 4 && confirmPassword == password
  {
    PasswordRules.ValidIffFullStrength(password);
  }
}
