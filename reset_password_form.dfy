/** The "forgot password" form: an e-mail is required and must look like
    `local@domain.tld`; the reset mail's error is translated; success shows
    a confirmation screen whose "try again" link clears the form. */
module ResetPasswordForm {
  import opened Wrappers
  import Text
  import opened Settled

  const MissingEmail := "Please enter your email address"
  const InvalidEmail := "Please enter a valid email address"
  const RateLimited := "Too many reset attempts. Please try again in a few minutes."
  const UnknownUser := "No account found with this email address."
  const UpdatePath := "/update-password"
  const ResetFailed := "Failed to send reset link"

  /** How the mail request settled: its reply's error message, if any, or
      a thrown value (with its message when it is an `Error`). */
  datatype ResetReply = ResetReplied(resetError: Option<string>) | ResetThrew(thrown: Option<string>)

  /** `[^\s@]`: neither white space nor `@`. */
  predicate Plain(c: char) {
    !Text.IsSpace(c) && c != '@'
  }

  /** `s` splits as local `@` host `.` tail at positions `at` and `dot`, each
      part non-empty and every other character plain. */
  predicate EmailSplit(s: string, at: int, dot: int) {
    0 < at && at + 1 < dot < |s| - 1 && s[at] == '@' && s[dot] == '.'
    && forall i :: 0 <= i < |s| && i != at ==> Plain(s[i])
  }

  /** `/^[^\s@]+@[^\s@]+\.[^\s@]+$/.test(s)`: since `.` is itself plain, the
      pattern matches exactly when some such split exists. */
  predicate EmailPattern(s: string) {
    exists at, dot :: 0 < at < |s| && 0 < dot < |s| && EmailSplit(s, at, dot)
  }

  /** A matching address has exactly one `@`, not at either end, and no
      white space. */
  lemma EmailShape(s: string)
    requires EmailPattern(s)
    ensures '@' in s && s[0] != '@' && s[|s| - 1] != '@'
    ensures forall i, j :: 0 <= i < j < |s| && s[i] == '@' ==> s[j] != '@'
    ensures forall i :: 0 <= i < |s| ==> !Text.IsSpace(s[i])
  {
    var at, dot :| EmailSplit(s, at, dot);
    forall i, j | 0 <= i < j < |s| && s[i] == '@'
      ensures s[j] != '@'
    {
      assert !Plain(s[i]);
    }
    forall i | 0 <= i < |s|
      ensures !Text.IsSpace(s[i])
    {
      assert EmailSplit(s, at, dot);
      if i != at {
        assert Plain(s[i]);
      }
    }
  }

  /** What the pattern accepts and refuses, on small cases. */
  lemma EmailExamples()
    ensures EmailPattern("jo@vado.com")
    ensures !EmailPattern("jo@vado")
    ensures !EmailPattern("jo@.com")
    ensures !EmailPattern("j o@vado.com")
  {
    assert EmailSplit("jo@vado.com", 2, 7);
    assert !Plain("j o@vado.com"[1]);
  }

  /** The checks of `handleResetPassword`, in order. */
  function ResetCheck(email: string): (r: Option<string>)
    ensures r.None? <==> EmailPattern(email)
    ensures email == "" ==> r == Some(MissingEmail)
    ensures email != "" && !EmailPattern(email) ==> r == Some(InvalidEmail)
  {
    if email == "" then Some(MissingEmail)
    else if !EmailPattern(email) then Some(InvalidEmail)
    else None
  }

  /** The message shown for a `resetPasswordForEmail` error; the rate-limit
      test comes first. */
  function ResetErrorText(message: string): (text: string)
    ensures Text.Includes(message, "rate limit") ==> text == RateLimited
    ensures !Text.Includes(message, "rate limit") && Text.Includes(message, "User not found") ==> text == UnknownUser
    ensures !Text.Includes(message, "rate limit") && !Text.Includes(message, "User not found") ==> text == message
  {
    if Text.Includes(message, "rate limit") then RateLimited
    else if Text.Includes(message, "User not found") then UnknownUser
    else message
  }

  /** The arguments of `resetPasswordForEmail`. */
  datatype ResetCall = ResetCall(email: string, redirectTo: string)

  class ResetPasswordFormState {
    var email: string
    var loading: bool
    var error: Option<string>
    var success: bool

    constructor ()
      ensures email == "" && !loading && error.None? && !success
    {
      email, loading, error, success := "", false, None, false;
    }

    /** `handleResetPassword` up to the mail request. */
    method Submit(origin: string) returns (call: Option<ResetCall>)
      modifies this
      ensures email == old(email) && success == old(success)
      ensures ResetCheck(email).Some? ==> call.None? && error == ResetCheck(email) && loading == old(loading)
      ensures ResetCheck(email).None? ==>
        call == Some(ResetCall(email, origin + UpdatePath)) && loading && error.None?
    {
      var check := ResetCheck(email);
      if check.Some? {
        error := check;
        return None;
      }
      loading, error := true, None;
      call := Some(ResetCall(email, origin + UpdatePath));
    }

    /** The mail request has settled: a reply error is mapped and shown; a
        thrown value shows its own message, or "Failed to send reset link"
        when it is not an `Error`; otherwise the confirmation screen;
        loading ends. */
    method Settle(reply: ResetReply)
      modifies this
      ensures !loading && email == old(email)
      ensures success <==> old(success) || reply == ResetReplied(None)
      ensures reply.ResetReplied? && reply.resetError.Some? ==> error == Some(ResetErrorText(reply.resetError.value))
      ensures reply == ResetReplied(None) ==> error == old(error)
      ensures reply.ResetThrew? ==> error == Some(CaughtText(reply.thrown, ResetFailed))
    {
      match reply {
        case ResetReplied(resetError) =>
          if resetError.Some? {
            error := Some(ResetErrorText(resetError.value));
          } else {
            success := true;
          }
        case ResetThrew(thrown) =>
          error := Some(CaughtText(thrown, ResetFailed));
      }
      loading := false;
    }

    /** The "try again" link on the confirmation screen. */
    method TryAgain()
      modifies this
      ensures !success && email == ""
      ensures loading == old(loading) && error == old(error)
    {
      success, email := false, "";
    }
  }
}
