/**
 * The profile editor: the form it fills from the current user, its field edits, and the
 * mandatory-field gate in front of `onSubmit`.
 */
module EditProfileModal {
  import opened Common
  import opened JsNumbers
  import opened Types
  import AuthContext

  const MandatoryAlert := "Please fill out all mandatory fields: First Name, Last Name, Preferred Username, and Age."
  const FailureAlert := "Failed to update profile. Please try again."

  /** The form's fields, in declaration order. */
  const ProfileFormKeys: seq<string> :=
    ["firstName", "lastName", "middleName", "preferredUsername", "age", "country", "language", "school", "grade"]

  const EmptyProfileForm: map<string, string> :=
    map["firstName" := "", "lastName" := "", "middleName" := "", "preferredUsername" := "", "age" := "",
        "country" := "", "language" := "", "school" := "", "grade" := ""]

  /** The form the effect fills in from a user. */
  function PrefillForm(u: User): (form: map<string, string>)
    ensures form.Keys == EmptyProfileForm.Keys
    ensures form["firstName"] == u.firstName && form["lastName"] == u.lastName
    ensures form["middleName"] == TextOf(u.middleName)
    ensures form["preferredUsername"] == TextOf(u.preferredUsername)
    ensures form["age"] == AgeText(u.age)
    ensures form["country"] == TextOf(u.country) && form["language"] == TextOf(u.language)
    ensures form["school"] == TextOf(u.school) && form["grade"] == TextOf(u.grade)
  {
    map["firstName" := u.firstName, "lastName" := u.lastName, "middleName" := TextOf(u.middleName),
        "preferredUsername" := TextOf(u.preferredUsername), "age" := AgeText(u.age),
        "country" := TextOf(u.country), "language" := TextOf(u.language),
        "school" := TextOf(u.school), "grade" := TextOf(u.grade)]
  }

  /** The gate: first name, last name, preferred username and age are all non-empty. */
  predicate MandatoryFilled(form: map<string, string>)
  {
    && Get(form, "firstName") != ""
    && Get(form, "lastName") != ""
    && Get(form, "preferredUsername") != ""
    && Get(form, "age") != ""
  }

  /** The gate on a prefilled form is the profile-completeness rule on the user it came from. */
  lemma GateMatchesCompleteness(u: User)
    ensures MandatoryFilled(PrefillForm(u)) <==> AuthContext.CheckProfileCompletion(Some(u))
  {
  }

  /** The profile editor's form and its submitting flag. */
  class EditProfileModal {
    var formData: map<string, string>
    var isSubmitting: bool

    constructor ()
      ensures formData == EmptyProfileForm && !isSubmitting
    {
      formData := EmptyProfileForm;
      isSubmitting := false;
    }

    /** The prefill effect: runs for a user, and leaves the form alone when there is none. */
    method Prefill(user: Option<User>)
      modifies this`formData
      ensures user.Some? ==> formData == PrefillForm(user.value)
      ensures user.None? ==> formData == old(formData)
    {
      if user.Some? {
        formData := PrefillForm(user.value);
      }
    }

    /** `handleChange`: the named field takes the value and every other field keeps its own. */
    method HandleChange(name: string, value: string)
      modifies this`formData
      ensures formData == old(formData)[name := value]
      ensures forall k :: k in old(formData) && k != name ==> k in formData && formData[k] == old(formData)[k]
    {
      formData := formData[name := value];
    }

    /**
     * `handleSubmit`: refuses with an alert unless the mandatory fields are filled; otherwise
     * passes the form to `onSubmit`, whose outcome is `submit`, closes only on success, alerts on
     * failure, and is no longer submitting in either case.
     */
    method HandleSubmit(submit: Outcome) returns (submitted: Option<map<string, string>>, closed: bool, alert: Option<string>)
      modifies this`isSubmitting
      ensures submitted.Some? <==> MandatoryFilled(formData)
      ensures submitted.Some? ==> submitted.value == formData
      ensures closed <==> MandatoryFilled(formData) && submit.Done?
      ensures !MandatoryFilled(formData) ==> alert == Some(MandatoryAlert)
      ensures MandatoryFilled(formData) ==> alert == (if submit.Done? then None else Some(FailureAlert))
      ensures !MandatoryFilled(formData) ==> isSubmitting == old(isSubmitting)
      ensures MandatoryFilled(formData) ==> !isSubmitting
    {
      if !MandatoryFilled(formData) {
        return None, false, Some(MandatoryAlert);
      }
      isSubmitting := true;
      submitted := Some(formData);
      if submit.Done? {
        closed := true;
        alert := None;
      } else {
        closed := false;
        alert := Some(FailureAlert);
      }
      isSubmitting := false;
    }
  }
}
