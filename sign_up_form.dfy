/** The e-mail sign-up form: ordered checks before any call, the sign-up
    reply interpreted (an existing account, a created user, a session or a
    pending confirmation), the profile that is inserted, with the agent flag
    granted to `@vadoapp.com` addresses, and the Google sign-up button. */
module SignUpForm {
  import opened Wrappers
  import opened Settled
  import Text
  import PasswordRules

  const AgentDomain := "@vadoapp.com"

  const MissingFields := "Please fill in all required fields"
  const TermsUnchecked := "You must agree to the Terms and Conditions"
  const WeakPassword := "Password must meet all requirements"
  const Mismatch := "Passwords do not match"
  const AccountExists := "An account with this email already exists. Please sign in instead."
  const SignUpFailed := "Failed to sign up"
  const GoogleFailed := "Failed to sign up with Google"

  /** `email.endsWith("@vadoapp.com")`, case-sensitive. */
  predicate IsAgentEmail(email: string) {
    Text.EndsWith(email, AgentDomain)
  }

  /** The domain test is case-sensitive and looks only at the end. */
  lemma AgentEmailExamples()
    ensures IsAgentEmail("jo@vadoapp.com")
    ensures !IsAgentEmail("jo@VadoApp.com")
    ensures !IsAgentEmail("jo@vadoapp.com.evil.net")
  {
    assert "jo@vadoapp.com"[2..] == AgentDomain;
    assert "jo@VadoApp.com"[2..] != AgentDomain by { assert "jo@VadoApp.com"[3] != AgentDomain[1]; }
    assert "jo@vadoapp.com.evil.net"[9..] != AgentDomain by { assert "jo@vadoapp.com.evil.net"[9] != AgentDomain[0]; }
  }

  /** The checks of `handleEmailSignUp`, in order; the first that fails
      gives its message. */
  function SignUpCheck(firstName: string, lastName: string, email: string, password: string,
                       confirmPassword: string, isChecked: bool): (r: Option<string>)
    ensures r.None? <==>
      firstName != "" && lastName != "" && email != "" && password != "" && confirmPassword != ""
      && isChecked && PasswordRules.IsValid(password) && password == confirmPassword
    ensures firstName == "" || lastName == "" || email == "" || password == "" || confirmPassword == "" ==>
      r == Some(MissingFields)
    ensures r == Some(TermsUnchecked) <==>
      firstName != "" && lastName != "" && email != "" && password != "" && confirmPassword != "" && !isChecked
    ensures r == Some(WeakPassword) <==>
      firstName != "" && lastName != "" && email != "" && password != "" && confirmPassword != ""
      && isChecked && !PasswordRules.IsValid(password)
    ensures r == Some(Mismatch) <==>
      firstName != "" && lastName != "" && email != "" && password != "" && confirmPassword != ""
      && isChecked && PasswordRules.IsValid(password) && password != confirmPassword
  {
    if firstName == "" || lastName == "" || email == "" || password == "" || confirmPassword == "" then
      Some(MissingFields)
    else if !isChecked then Some(TermsUnchecked)
    else if !PasswordRules.IsValid(password) then Some(WeakPassword)
    else if password != confirmPassword then Some(Mismatch)
    else None
  }

  /** A weak password is reported before a mismatch: the two passwords
      need not agree for the strength message. */
  lemma WeakBeforeMismatch(firstName: string, lastName: string, email: string, password: string,
                           confirmPassword: string)
    requires firstName != "" && lastName != "" && email != "" && password != "" && confirmPassword != ""
    requires !PasswordRules.IsValid(password) && password != confirmPassword
    ensures SignUpCheck(firstName, lastName, email, password, confirmPassword, true) == Some(WeakPassword)
  {
  }

  /** The texts shown after the account is created. */
  const AgentConfirm := "Account created successfully! Please check your email to verify your account, then you can sign in. If you don't receive an email, check your spam folder or contact support@vadoapp.com."
  const AgentReady := "Account created successfully! You can now sign in."
  const ClientConfirm := "Account created! Please check your email to verify your account. Note: Only @vadoapp.com email addresses have agent access. Contact support@vadoapp.com to become an agent."
  const ClientReady := "Account created! However, only @vadoapp.com email addresses have agent access. Please contact support@vadoapp.com to become an agent."

  /** The success text by (agent address, confirmation needed). */
  function SuccessMessage(isAgent: bool, confirmationRequired: bool): string {
    if isAgent then (if confirmationRequired then AgentConfirm else AgentReady)
    else if confirmationRequired then ClientConfirm
    else ClientReady
  }

  /** The arguments of `signUp`. */
  datatype SignUpCall = SignUpCall(email: string, password: string, fullName: string, firstName: string, lastName: string)

  /** The user in the sign-up reply; `identities` is the length of its
      identity list, when it has one. */
  datatype NewUser = NewUser(id: string, identities: Option<nat>)

  /** The reply of `signUp`: an error message, or the user (if any) and
      whether a session came with it; or the call itself threw, with the
      message of the thrown `Error` (`None` when it is not an `Error`). */
  datatype SignUpReply =
    | SignUpError(message: string)
    | SignedUp(user: Option<NewUser>, hasSession: bool)
    | SignUpThrew(thrown: Option<string>)

  /** The `profiles` row inserted for a new user. */
  datatype ProfileInsert = ProfileInsert(id: string, fullName: string, email: string, isAgent: bool)

  /** How the reply ends: an error to show, a created user, or nothing
      (no error and no user). */
  datatype Outcome = Failed(message: string) | Created(user: NewUser, hasSession: bool) | NoUser

  /** The reply as `handleEmailSignUp` reads it: an "already registered"
      error and a user without identities both mean the account exists. */
  function Interpret(reply: SignUpReply): (o: Outcome)
    ensures reply.SignUpError? && Text.Includes(reply.message, "already registered") ==> o == Failed(AccountExists)
    ensures reply.SignUpError? && !Text.Includes(reply.message, "already registered") ==> o == Failed(reply.message)
    ensures reply.SignedUp? && reply.user.Some? && reply.user.value.identities == Some(0) ==> o == Failed(AccountExists)
    ensures o.Created? <==> reply.SignedUp? && reply.user.Some? && reply.user.value.identities != Some(0)
    ensures o.Created? ==> o.user == reply.user.value && o.hasSession == reply.hasSession
    ensures o.NoUser? <==> reply.SignedUp? && reply.user.None?
    ensures reply.SignUpThrew? ==> o == Failed(CaughtText(reply.thrown, SignUpFailed))
    ensures reply.SignUpThrew? && reply.thrown.None? ==> o == Failed("Failed to sign up")
  {
    match reply
    case SignUpThrew(thrown) => Failed(CaughtText(thrown, SignUpFailed))
    case SignUpError(m) => if Text.Includes(m, "already registered") then Failed(AccountExists) else Failed(m)
    case SignedUp(user, hasSession) =>
      if user.None? then NoUser
      else if user.value.identities == Some(0) then Failed(AccountExists)
      else Created(user.value, hasSession)
  }

  class SignUpFormState {
    var firstName: string
    var lastName: string
    var email: string
    var password: string
    var confirmPassword: string
    var isChecked: bool
    var loading: bool
    var error: Option<string>
    var success: Option<string>

    /** The form's inputs and its success text. */
    function Fields(): (string, string, string, string, string, bool, Option<string>)
      reads this
    {
      (firstName, lastName, email, password, confirmPassword, isChecked, success)
    }

    predicate Unchanged(before: (string, string, string, string, string, bool, Option<string>))
      reads this
    {
      Fields() == before
    }

    constructor ()
      ensures firstName == "" && lastName == "" && email == "" && password == "" && confirmPassword == ""
      ensures !isChecked && !loading && error.None? && success.None?
    {
      firstName, lastName, email, password, confirmPassword := "", "", "", "", "";
      isChecked, loading := false, false;
      error, success := None, None;
    }

    /** The part of `handleEmailSignUp` before `signUp` is awaited: a failed
        check sets its message and calls nothing; otherwise loading starts,
        the error clears, and the sign-up call is returned. */
    method Submit() returns (call: Option<SignUpCall>)
      modifies this
      ensures firstName == old(firstName) && lastName == old(lastName) && email == old(email)
      ensures password == old(password) && confirmPassword == old(confirmPassword) && isChecked == old(isChecked)
      ensures success == old(success)
      ensures var check := SignUpCheck(old(firstName), old(lastName), old(email), old(password),
                                       old(confirmPassword), old(isChecked));
        if check.Some? then call.None? && error == check && loading == old(loading)
        else call == Some(SignUpCall(email, password, firstName + " " + lastName, firstName, lastName))
             && loading && error.None?
    {
      var check := SignUpCheck(firstName, lastName, email, password, confirmPassword, isChecked);
      if check.Some? {
        error := check;
        return None;
      }
      loading := true;
      error := None;
      call := Some(SignUpCall(email, password, firstName + " " + lastName, firstName, lastName));
    }

    /** The rest of `handleEmailSignUp` once `signUp` has replied: a created
        user gets a profile row (its insertion error is ignored), the success
        text for its case, and a cleared form; a failure shows its message;
        loading ends in every case. */
    method Settle(reply: SignUpReply) returns (insert: Option<ProfileInsert>)
      modifies this
      ensures !loading
      ensures Interpret(reply).Failed? ==>
        insert.None? && error == Some(Interpret(reply).message) && Unchanged(old(Fields()))
      ensures Interpret(reply).NoUser? ==>
        insert.None? && error == old(error) && Unchanged(old(Fields()))
      ensures Interpret(reply).Created? ==>
        var user := Interpret(reply).user;
        insert == Some(ProfileInsert(user.id, old(firstName) + " " + old(lastName), old(email), IsAgentEmail(old(email))))
        && success == Some(SuccessMessage(IsAgentEmail(old(email)), !Interpret(reply).hasSession))
        && error == old(error)
        && firstName == "" && lastName == "" && email == "" && password == "" && confirmPassword == ""
        && !isChecked
    {
      insert := None;
      var outcome := Interpret(reply);
      match outcome {
        case Failed(m) =>
          error := Some(m);
        case NoUser =>
        case Created(user, hasSession) =>
          var isVadoEmail := IsAgentEmail(email);
          insert := Some(ProfileInsert(user.id, firstName + " " + lastName, email, isVadoEmail));
          success := Some(SuccessMessage(isVadoEmail, !hasSession));
          firstName, lastName, email, password, confirmPassword := "", "", "", "", "";
          isChecked := false;
      }
      loading := false;
    }

    /** `handleGoogleSignUp` up to the OAuth call: loading starts, the error
        clears, and the redirect target is the callback route of `origin`. */
    method GoogleSignUp(origin: string) returns (redirectTo: string)
      modifies this
      ensures loading && error.None? && redirectTo == origin + "/auth/callback"
      ensures Unchanged(old(Fields()))
    {
      loading := true;
      error := None;
      redirectTo := origin + "/auth/callback";
    }

    /** The OAuth call's result: an error is shown and loading ends; on
        success the browser leaves the page, so loading stays on. */
    method GoogleSettled(outcome: Settled) 
      modifies this
      ensures outcome.Threw? ==> error == Some(CaughtText(outcome.errorMessage, GoogleFailed)) && !loading
      ensures outcome.Resolved? ==> error == old(error) && loading == old(loading)
      ensures Unchanged(old(Fields()))
    {
      if outcome.Threw? {
        error := Some(CaughtText(outcome.errorMessage, GoogleFailed));
        loading := false;
      }
    }
  }
}
