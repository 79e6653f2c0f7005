/** The sign-in form's field checks and the gate in front of the sign-in call. */
module LoginPage {
  import opened Patterns
  import opened Dictionaries
  import AuthContext

  const EmailRequired := "Email is required"
  const InvalidEmail := "Please enter a valid email"
  const PasswordRequired := "Password is required"

  function EmailError(email: string): string
  {
    if email == "" then EmailRequired else if !LoginEmail(email) then InvalidEmail else ""
  }

  function PasswordError(password: string): string
  {
    if password == "" then PasswordRequired else ""
  }

  /** `newFieldErrors`: the email entry, then the password entry, each only when it fails. */
  function LoginFieldErrors(email: string, password: string): map<string, string>
  {
    Written([("email", EmailError(email)), ("password", PasswordError(password))])
  }

  /**
   * An empty email is required and a non-empty one must match the sign-in address pattern; an
   * empty password is required and no other password rule applies; nothing else is reported.
   */
  lemma LoginFieldErrorsSpec(email: string, password: string)
    ensures var errors := LoginFieldErrors(email, password);
      && errors.Keys <= {"email", "password"}
      && ("email" in errors <==> email == "" || !LoginEmail(email))
      && (email == "" ==> errors["email"] == EmailRequired)
      && (email != "" && !LoginEmail(email) ==> errors["email"] == InvalidEmail)
      && ("password" in errors <==> password == "")
      && (password == "" ==> errors["password"] == PasswordRequired)
      && (errors == map[] <==> LoginEmail(email) && password != "")
  {
    var es := [("email", EmailError(email)), ("password", PasswordError(password))];
    assert DistinctNames(es);
    WrittenSpec(es, "email");
    WrittenSpec(es, "password");
    forall k | k in LoginFieldErrors(email, password) ensures k == "email" || k == "password" {
      WrittenSpec(es, k);
    }
    if LoginEmail(email) && password != "" {
      assert LoginFieldErrors(email, password).Keys == {};
    }
  }

  /** The sign-in page: the entered credentials and the per-field errors shown under them. */
  class LoginPage {
    var email: string
    var password: string
    var rememberMe: bool
    var fieldErrors: map<string, string>

    constructor ()
      ensures email == "" && password == "" && !rememberMe && fieldErrors == map[]
    {
      email := "";
      password := "";
      rememberMe := false;
      fieldErrors := map[];
    }

    /**
     * `handleLogin`: clears the context's error first, replaces the field errors wholesale, and
     * lets the sign-in proceed only when there are none.
     */
    method HandleLogin(auth: AuthContext.AuthProvider) returns (signInProceeds: bool)
      requires auth.Valid()
      modifies this`fieldErrors, auth
      ensures auth.Valid() && auth.State() == AuthContext.AfterClearError(old(auth.State()))
      ensures fieldErrors == LoginFieldErrors(email, password)
      ensures signInProceeds <==> fieldErrors == map[]
    {
      auth.ClearError();
      ghost var entries := [("email", EmailError(email)), ("password", PasswordError(password))];
      assert entries[..0] == [];
      var newFieldErrors: map<string, string> := map[];
      if email == "" {
        newFieldErrors := newFieldErrors["email" := EmailRequired];
      } else if !LoginEmail(email) {
        newFieldErrors := newFieldErrors["email" := InvalidEmail];
      }
      WrittenSnoc(entries, 0);
      if password == "" {
        newFieldErrors := newFieldErrors["password" := PasswordRequired];
      }
      WrittenSnoc(entries, 1);
      assert entries[..2] == entries;
      fieldErrors := newFieldErrors;
      signInProceeds := |newFieldErrors| == 0;
      if signInProceeds {
        assert newFieldErrors == map[];
      }
    }
  }
}
