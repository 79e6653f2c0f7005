/** The password-reset request form: its email check and the outcome of the reset request. */
module ForgotPasswordPage {
  import opened Common
  import opened Patterns

  const EmailRequired := "Email is required"
  const InvalidEmail := "Please enter a valid email address"
  const ResetFailed := "Failed to send reset email"

  /** The message `validateEmail` leaves in `error`: "" for an address it accepts. */
  function ResetEmailError(email: string): string
  {
    if email == "" then EmailRequired else if !SimpleEmail(email) then InvalidEmail else ""
  }

  /** An address is accepted exactly when it has the A@B.C form; the empty text is reported as missing. */
  lemma ResetEmailRule(email: string)
    ensures ResetEmailError(email) == "" <==> SimpleEmail(email)
    ensures email == "" ==> ResetEmailError(email) == EmailRequired
    ensures email != "" && !SimpleEmail(email) ==> ResetEmailError(email) == InvalidEmail
  {
  }

  class ForgotPasswordPage {
    var email: string
    var emailSent: bool
    var error: string

    constructor ()
      ensures email == "" && !emailSent && error == ""
    {
      email := "";
      emailSent := false;
      error := "";
    }

    /** `validateEmail(email)`: sets `error` and reports whether the address is accepted. */
    method ValidateEmail() returns (ok: bool)
      modifies this`error
      ensures error == ResetEmailError(email)
      ensures ok <==> error == ""
    {
      if email == "" {
        error := EmailRequired;
        return false;
      }
      if !SimpleEmail(email) {
        error := InvalidEmail;
        return false;
      }
      error := "";
      return true;
    }

    /**
     * `handleSubmit`: the reset is requested only for an accepted address; `reset` is how
     * `resetPassword(email)` ended. Success shows the sent state; failure shows the message.
     */
    method HandleSubmit(reset: Outcome) returns (resetRequested: bool)
      modifies this`error, this`emailSent
      ensures resetRequested <==> SimpleEmail(email)
      ensures !resetRequested ==> error == ResetEmailError(email) && error != "" && emailSent == old(emailSent)
      ensures resetRequested && reset.Done? ==> emailSent && error == ""
      ensures resetRequested && reset.Threw? ==>
        error == InstanceMessage(reset.thrown, ResetFailed) && emailSent == old(emailSent)
    {
      var ok := ValidateEmail();
      resetRequested := ok;
      if !ok {
        return;
      }
      match reset {
        case Done => emailSent := true;
        case Threw(e) => error := InstanceMessage(e, ResetFailed);
      }
    }
  }
}
