/** The profile page: the editable username and email, and the list of the
    user's favorite countries. */
module ProfilePage {
  import opened Common
  import opened JsText
  import opened Email
  import opened Forms
  import opened AuthContext
  import opened CountryDisplay

  datatype ProfileForm = ProfileForm(username: string, email: string)

  datatype ProfileField = Username | EmailField
  {
    function Name(): string
    {
      match this
      case Username => "username"
      case EmailField => "email"
    }
  }

  function WithField(form: ProfileForm, field: ProfileField, value: string): (r: ProfileForm)
    ensures field == Username ==> r == ProfileForm(value, form.email)
    ensures field == EmailField ==> r == ProfileForm(form.username, value)
  {
    match field
    case Username => form.(username := value)
    case EmailField => form.(email := value)
  }

  ghost predicate AcceptsProfile(form: ProfileForm)
  {
    !IsBlank(form.username) && form.email != "" && MatchesEmailRegex(form.email)
  }

  function ValidateForm(form: ProfileForm): (errors: Errors)
    ensures errors.Keys <= {"username", "email"}
    ensures "username" in errors <==> IsBlank(form.username)
    ensures "username" in errors ==> errors["username"] == "Username is required"
    ensures form.email == "" ==> "email" in errors && errors["email"] == "Email is required"
    ensures form.email != "" ==>
      ("email" in errors <==> !MatchesEmailRegex(form.email)) &&
      ("email" in errors ==> errors["email"] == "Enter a valid email address")
    ensures errors == map[] <==> AcceptsProfile(form)
  {
    TrimEmptyIffBlank(form.username);
    var e0: Errors := map[];
    var e1 := if Trim(form.username) == "" then e0["username" := "Username is required"] else e0;
    var e2 :=
      if form.email == "" then e1["email" := "Email is required"]
      else if !EmailRegexTest(form.email) then e1["email" := "Enter a valid email address"]
      else e1;
    assert "username" in e2 <==> "username" in e1;
    e2
  }

  /** What the update request gave: an answer with its `success` flag, or a
      thrown error. */
  datatype UpdateReply = Answered(success: bool) | Thrown

  /** `favorites.length === 1 ? 'country' : 'countries'`. */
  function CountryNoun(count: nat): (noun: string)
    ensures noun == "country" <==> count == 1
    ensures noun == "countries" <==> count != 1
  {
    if count == 1 then "country" else "countries"
  }

  /** Clicking a favorite opens that country's page. */
  function NavigateToCountry(countryCode: string): (nav: Navigation)
    ensures nav.path == CountryPath(countryCode) && !nav.replace && nav.message == None
    ensures countryCode != [] && '/' !in countryCode ==> CodeFromPath(nav.path) == Some(countryCode)
  {
    CountryPathRoundTrip(countryCode, CountryPath(countryCode));
    Navigation(CountryPath(countryCode), false, None)
  }

  class ProfilePage {
    var form: ProfileForm
    var formErrors: Errors
    var isEditing: bool
    var updateSuccess: bool

    constructor ()
      ensures form == ProfileForm("", "") && formErrors == map[] && !isEditing && !updateSuccess
    {
      form := ProfileForm("", "");
      formErrors := map[];
      isEditing := false;
      updateSuccess := false;
    }

    /** The effect run when the signed-in user changes: copy the user's
        username and email into the form, an absent one as `''`. */
    method InitFromUser(user: Option<ClientUser>)
      modifies this`form
      ensures user.None? ==> form == old(form)
      ensures user.Some? ==>
        form == ProfileForm(OrElse(user.value.username, ""), OrElse(user.value.email, ""))
      ensures user.Some? && user.value.username.Some? ==> form.username == user.value.username.value
      ensures user.Some? && user.value.email.Some? ==> form.email == user.value.email.value
    {
      if user.Some? {
        form := ProfileForm(OrElse(user.value.username, ""), OrElse(user.value.email, ""));
      }
    }

    /** The "Edit Profile" button. */
    method StartEditing()
      modifies this`isEditing
      ensures isEditing
    {
      isEditing := true;
    }

    /** The "Cancel" button: leaves edit mode and keeps the form as typed. */
    method CancelEditing()
      modifies this`isEditing
      ensures !isEditing
    {
      isEditing := false;
    }

    /** Typing clears that field's error and any success notice. */
    method HandleChange(field: ProfileField, value: string)
      modifies this`form, this`formErrors, this`updateSuccess
      ensures form == WithField(old(form), field, value)
      ensures formErrors == ClearFieldError(old(formErrors), field.Name())
      ensures !updateSuccess
    {
      form := WithField(form, field, value);
      formErrors := ClearFieldError(formErrors, field.Name());
      if updateSuccess {
        updateSuccess := false;
      }
    }

    /** Submitting: an invalid form shows its errors and sends nothing. The
        page calls the update endpoint itself, so the session's user is not
        touched here. */
    method HandleSubmit(reply: UpdateReply) returns (sent: bool)
      modifies this`formErrors, this`isEditing, this`updateSuccess
      ensures sent <==> AcceptsProfile(form)
      ensures !sent ==>
        formErrors == ValidateForm(form) && isEditing == old(isEditing) && updateSuccess == old(updateSuccess)
      ensures sent && reply == Answered(true) ==>
        updateSuccess && !isEditing && formErrors == old(formErrors)
      ensures sent && reply == Answered(false) ==>
        updateSuccess == old(updateSuccess) && isEditing == old(isEditing) && formErrors == old(formErrors)
      ensures sent && reply == Thrown ==>
        formErrors == map["general" := "Failed to update profile"] &&
        updateSuccess == old(updateSuccess) && isEditing == old(isEditing)
    {
      var errors := ValidateForm(form);
      if |errors| > 0 {
        formErrors := errors;
        return false;
      }
      sent := true;
      match reply {
        case Answered(success) =>
          if success {
            updateSuccess := true;
            isEditing := false;
          }
        case Thrown =>
          formErrors := map["general" := "Failed to update profile"];
      }
    }
  }
}
