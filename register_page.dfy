/**
 * The registration form: the per-field rules of `validateField`, the validation pass of
 * `handleSubmit`, and the re-check of the confirmation when the password is edited.
 */
module RegisterPage {
  import opened Common
  import opened Ascii
  import opened Patterns
  import opened Dictionaries
  import AuthContext

  const FirstNameRequired := "First name is required"
  const LastNameRequired := "Last name is required"
  const TooShort := "Must be at least 2 characters"
  const EmailRequired := "Email is required"
  const InvalidEmail := "Please enter a valid email"
  const PasswordRequired := "Password is required"
  const WeakPassword := "Password must be 8+ characters with an uppercase letter and a number."
  const ConfirmRequired := "Please confirm your password"
  const PasswordsDiffer := "Passwords do not match"
  const RegistrationFailed := "Registration failed"
  const ConfirmSignUpPath := "/auth/confirm-signup"

  /** The form's fields, in the order the form object declares them. */
  const FieldOrder: seq<string> := ["firstName", "lastName", "email", "password", "confirmPassword"]

  /** The empty form the page starts with. */
  const EmptyForm: map<string, string> :=
    map["firstName" := "", "lastName" := "", "email" := "", "password" := "", "confirmPassword" := ""]

  /** The rule shared by first and last name, on the trimmed text. */
  function NameError(value: string, required: string): string
  {
    if Trim(value) == [] then required
    else if |Trim(value)| < 2 then TooShort
    else ""
  }

  /** `validateField(name, value, currentFormData)` */
  function ValidateField(name: string, value: string, form: map<string, string>): string
  {
    if name == "firstName" then NameError(value, FirstNameRequired)
    else if name == "lastName" then NameError(value, LastNameRequired)
    else if name == "email" then
      (if value == "" then EmailRequired else if !SimpleEmail(value) then InvalidEmail else "")
    else if name == "password" then
      (if value == "" then PasswordRequired else if !StrongPassword(value) then WeakPassword else "")
    else if name == "confirmPassword" then
      (if value == "" then ConfirmRequired else if value != Get(form, "password") then PasswordsDiffer else "")
    else ""
  }

  /**
   * Names: blank text (empty or whitespace only) is required, one character after trimming is too
   * short, and anything longer passes.
   */
  lemma NameRule(name: string, value: string, form: map<string, string>)
    requires name == "firstName" || name == "lastName"
    ensures var required := if name == "firstName" then FirstNameRequired else LastNameRequired;
      && (IsBlank(value) <==> ValidateField(name, value, form) == required)
      && (ValidateField(name, value, form) == TooShort <==> |Trim(value)| == 1)
      && (ValidateField(name, value, form) == "" <==> |Trim(value)| >= 2)
  {
    TrimSpec(value);
  }

  /**
   * Email: empty is required; otherwise the address passes exactly when it is A@B.C with A, B and C
   * non-empty and free of whitespace and '@'.
   */
  lemma EmailRule(value: string, form: map<string, string>)
    ensures value == "" ==> ValidateField("email", value, form) == EmailRequired
    ensures value != "" ==>
      (ValidateField("email", value, form) == "" <==>
        exists a, b, c :: a != [] && b != [] && c != [] && AllPlain(a) && AllPlain(b) && AllPlain(c)
                          && value == a + "@" + b + "." + c)
    ensures value != "" && ValidateField("email", value, form) != "" ==>
      ValidateField("email", value, form) == InvalidEmail
  {
    if value != "" && SimpleEmail(value) {
      var a, b, c := SimpleEmailParts(value);
    }
    forall a, b, c | a != [] && b != [] && c != [] && AllPlain(a) && AllPlain(b) && AllPlain(c)
                     && value == a + "@" + b + "." + c
      ensures SimpleEmail(value)
    {
      SimpleEmailOfParts(a, b, c);
    }
  }

  /**
   * Password: empty is required; otherwise it passes exactly when it has eight or more characters,
   * all from `[a-zA-Z0-9@$!%*?&]`, with a lower-case letter, an upper-case letter and a digit.
   */
  lemma PasswordRule(value: string, form: map<string, string>)
    ensures value == "" ==> ValidateField("password", value, form) == PasswordRequired
    ensures ValidateField("password", value, form) == "" <==>
      && |value| >= 8
      && (forall k :: 0 <= k < |value| ==> PasswordChar(value[k]))
      && (exists k :: 0 <= k < |value| && 'a' <= value[k] <= 'z')
      && (exists k :: 0 <= k < |value| && 'A' <= value[k] <= 'Z')
      && (exists k :: 0 <= k < |value| && '0' <= value[k] <= '9')
  {
  }

  /** The confirmation has an error exactly when it is empty or differs from the form's password. */
  lemma ConfirmRule(value: string, form: map<string, string>)
    ensures ValidateField("confirmPassword", value, form) != "" <==>
            value == "" || ("password" in form && value != form["password"]) || ("password" !in form && value != "")
    ensures value == "" ==> ValidateField("confirmPassword", value, form) == ConfirmRequired
  {
  }

  /**
   * A field outside the form has no rule, and for every field of the form an empty value is
   * reported as missing before any format is checked.
   */
  lemma EmptinessFirst(name: string, form: map<string, string>)
    ensures name !in FieldOrder ==> forall v :: ValidateField(name, v, form) == ""
    ensures name == "firstName" ==> ValidateField(name, "", form) == FirstNameRequired
    ensures name == "lastName" ==> ValidateField(name, "", form) == LastNameRequired
    ensures name == "email" ==> ValidateField(name, "", form) == EmailRequired
    ensures name == "password" ==> ValidateField(name, "", form) == PasswordRequired
    ensures name == "confirmPassword" ==> ValidateField(name, "", form) == ConfirmRequired
  {
    assert Trim("") == [];
  }

  /** Each field of the form paired with the error `validateField` reports for it. */
  function ErrorEntries(form: map<string, string>): (r: seq<(string, string)>)
    ensures Names(r) == FieldOrder && DistinctNames(r)
    ensures forall i :: 0 <= i < |r| ==> r[i].1 == ValidateField(FieldOrder[i], Get(form, FieldOrder[i]), form)
  {
    seq(|FieldOrder|, i requires 0 <= i < |FieldOrder| =>
          (FieldOrder[i], ValidateField(FieldOrder[i], Get(form, FieldOrder[i]), form)))
  }

  /** The errors of a whole form: one entry per failing field, with its message. */
  function FormErrors(form: map<string, string>): map<string, string>
  {
    Written(ErrorEntries(form))
  }

  /** The form passes when no field reports an error. */
  predicate FormValid(form: map<string, string>)
  {
    forall k :: k in FieldOrder ==> ValidateField(k, Get(form, k), form) == ""
  }

  /** `newErrors` holds exactly the failing fields, each with its message; it is empty exactly for a valid form. */
  lemma FormErrorsSpec(form: map<string, string>)
    ensures forall k :: k in FormErrors(form) <==> k in FieldOrder && ValidateField(k, Get(form, k), form) != ""
    ensures forall k :: k in FormErrors(form) ==> FormErrors(form)[k] == ValidateField(k, Get(form, k), form)
    ensures FormValid(form) <==> FormErrors(form) == map[]
  {
    var es := ErrorEntries(form);
    forall k
      ensures (k in FormErrors(form) <==> k in FieldOrder && ValidateField(k, Get(form, k), form) != "")
              && (k in FormErrors(form) ==> FormErrors(form)[k] == ValidateField(k, Get(form, k), form))
    {
      WrittenSpec(es, k);
      if k in FieldOrder {
        var i :| 0 <= i < |FieldOrder| && FieldOrder[i] == k;
        assert es[i].0 == Names(es)[i] == k;
      }
      if k in FormErrors(form) {
        var i :| 0 <= i < |es| && es[i].0 == k && es[i].1 != "";
        assert Names(es)[i] == k;
      }
    }
    if !FormValid(form) {
      var k :| k in FieldOrder && ValidateField(k, Get(form, k), form) != "";
      assert k in FormErrors(form);
    }
  }

  /** A form whose every field is empty reports an error for each field and for nothing else. */
  lemma BlankFieldsFail(form: map<string, string>)
    requires forall k :: k in FieldOrder ==> Get(form, k) == ""
    ensures forall k :: k in FormErrors(form) <==> k in FieldOrder
  {
    FormErrorsSpec(form);
    forall k | k in FieldOrder
      ensures ValidateField(k, Get(form, k), form) != ""
    {
      EmptinessFirst(k, form);
    }
  }

  /** The empty form fails on every field. */
  lemma EmptyFormFails()
    ensures FormErrors(EmptyForm).Keys == {"firstName", "lastName", "email", "password", "confirmPassword"}
  {
    BlankFieldsFail(EmptyForm);
  }

  /** The validation pass of `handleSubmit`: one `validateField` per field, in order. */
  method CollectErrors(formData: map<string, string>) returns (newErrors: map<string, string>, isValid: bool)
    ensures newErrors == FormErrors(formData)
    ensures isValid <==> FormValid(formData)
  {
    ghost var entries := ErrorEntries(formData);
    newErrors := map[];
    isValid := true;
    assert entries[..0] == [];
    for i := 0 to |FieldOrder|
      invariant newErrors == Written(entries[..i])
      invariant isValid <==> forall j :: 0 <= j < i ==> entries[j].1 == ""
    {
      var key := FieldOrder[i];
      var error := ValidateField(key, Get(formData, key), formData);
      if error != "" {
        newErrors := newErrors[key := error];
        isValid := false;
      }
      WrittenSnoc(entries, i);
    }
    assert entries[..|FieldOrder|] == entries;
    if !FormValid(formData) {
      var k :| k in FieldOrder && ValidateField(k, Get(formData, k), formData) != "";
      var j :| 0 <= j < |FieldOrder| && FieldOrder[j] == k;
      assert entries[j].1 != "";
    }
  }

  /** The registration page: its form and the error of each field. */
  class RegisterPage {
    var formData: map<string, string>
    var errors: map<string, string>

    constructor ()
      ensures formData == EmptyForm && errors == map[]
    {
      formData := EmptyForm;
      errors := map[];
    }

    /**
     * `handleChange`: stores the value, records the field's error against the new form, and when
     * the password changes while a confirmation is present, re-checks the confirmation.
     */
    method HandleChange(name: string, value: string)
      modifies this
      ensures formData == old(formData)[name := value]
      ensures var recheck := name == "password" && Get(formData, "confirmPassword") != "";
        errors == if recheck
                  then old(errors)[name := ValidateField(name, value, formData)]
                                  ["confirmPassword" := ValidateField("confirmPassword", formData["confirmPassword"], formData)]
                  else old(errors)[name := ValidateField(name, value, formData)]
      ensures name == "password" && Get(formData, "confirmPassword") != "" ==>
        (errors["confirmPassword"] == "" <==> formData["confirmPassword"] == value)
    {
      var newFormData := formData[name := value];
      formData := newFormData;
      var error := ValidateField(name, value, newFormData);
      errors := errors[name := error];
      if name == "password" && Get(newFormData, "confirmPassword") != "" {
        var confirmError := ValidateField("confirmPassword", newFormData["confirmPassword"], newFormData);
        errors := errors["confirmPassword" := confirmError];
      }
    }

    /**
     * `handleSubmit`: validates the whole form and calls `register` only when it is valid;
     * `signUp` is how that call ends. On success the page navigates to the confirmation step; on
     * failure the only error is the general one.
     */
    method HandleSubmit(auth: AuthContext.AuthProvider, signUp: Outcome)
      returns (registerCalled: bool, navigateTo: Option<string>)
      requires auth.Valid()
      modifies this, auth
      ensures auth.Valid() && formData == old(formData)
      ensures registerCalled <==> FormValid(formData)
      ensures !registerCalled ==> errors == FormErrors(formData) && errors != map[]
                                  && auth.State() == old(auth.State()) && navigateTo.None?
      ensures registerCalled ==>
        auth.State() == AuthContext.AfterRegister(old(auth.State()), signUp).state
      ensures registerCalled && signUp.Done? ==> errors == map[] && navigateTo == Some(ConfirmSignUpPath)
      ensures registerCalled && signUp.Threw? ==>
        errors == map["general" := InstanceMessage(signUp.thrown, RegistrationFailed)] && navigateTo.None?
    {
      var newErrors, isValid := CollectErrors(formData);
      FormErrorsSpec(formData);
      errors := newErrors;
      registerCalled := isValid;
      navigateTo := None;
      if isValid {
        var outcome := auth.Register(signUp);
        match outcome {
          case Done =>
            navigateTo := Some(ConfirmSignUpPath);
          case Threw(e) =>
            errors := map["general" := InstanceMessage(e, RegistrationFailed)];
        }
      }
    }
  }
}
