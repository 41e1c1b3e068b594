/** The sign-up form. */
module RegisterPage {
  import opened Common
  import opened JsText
  import opened Email
  import opened Forms
  import opened AuthContext

  datatype RegisterForm = RegisterForm(username: string, email: string, password: string, confirmPassword: string)

  /** The `name` attributes of the four inputs. */
  datatype RegisterField = Username | EmailField | Password | ConfirmPassword
  {
    function Name(): string
    {
      match this
      case Username => "username"
      case EmailField => "email"
      case Password => "password"
      case ConfirmPassword => "confirmPassword"
    }
  }

  function FieldValue(form: RegisterForm, field: RegisterField): string
  {
    match field
    case Username => form.username
    case EmailField => form.email
    case Password => form.password
    case ConfirmPassword => form.confirmPassword
  }

  /** `{ ...form, [name]: value }`. */
  function WithField(form: RegisterForm, field: RegisterField, value: string): (r: RegisterForm)
    ensures forall g: RegisterField :: FieldValue(r, g) == if g == field then value else FieldValue(form, g)
  {
    match field
    case Username => form.(username := value)
    case EmailField => form.(email := value)
    case Password => form.(password := value)
    case ConfirmPassword => form.(confirmPassword := value)
  }

  /** All four checks pass. */
  ghost predicate AcceptsRegistration(form: RegisterForm)
  {
    && !IsBlank(form.username)
    && form.email != "" && MatchesEmailRegex(form.email)
    && form.password != "" && Utf16Length(form.password) >= 6
    && form.password == form.confirmPassword
  }

  /** `validateForm`: the checks are independent of each other, except that
      each field reports at most one message. */
  function ValidateForm(form: RegisterForm): (errors: Errors)
    ensures errors.Keys <= {"username", "email", "password", "confirmPassword"}
    ensures "username" in errors <==> IsBlank(form.username)
    ensures "username" in errors ==> errors["username"] == "Username is required"
    ensures form.email == "" ==> "email" in errors && errors["email"] == "Email is required"
    ensures form.email != "" ==>
      ("email" in errors <==> !MatchesEmailRegex(form.email)) &&
      ("email" in errors ==> errors["email"] == "Invalid email")
    ensures form.password == "" ==> "password" in errors && errors["password"] == "Password is required"
    ensures form.password != "" ==>
      ("password" in errors <==> Utf16Length(form.password) < 6) &&
      ("password" in errors ==> errors["password"] == "At least 6 characters")
    ensures "confirmPassword" in errors <==> form.password != form.confirmPassword
    ensures "confirmPassword" in errors ==> errors["confirmPassword"] == "Passwords do not match"
    ensures errors == map[] <==> AcceptsRegistration(form)
  {
    TrimEmptyIffBlank(form.username);
    var e0: Errors := map[];
    var e1 := if Trim(form.username) == "" then e0["username" := "Username is required"] else e0;
    var e2 :=
      if form.email == "" then e1["email" := "Email is required"]
      else if !EmailRegexTest(form.email) then e1["email" := "Invalid email"]
      else e1;
    var e3 :=
      if form.password == "" then e2["password" := "Password is required"]
      else if Utf16Length(form.password) < 6 then e2["password" := "At least 6 characters"]
      else e2;
    var e4 := if form.password != form.confirmPassword then e3["confirmPassword" := "Passwords do not match"] else e3;
    assert "username" in e4 <==> "username" in e1;
    assert "email" in e4 <==> "email" in e2;
    assert "password" in e4 <==> "password" in e3;
    e4
  }

  class RegisterPage {
    var form: RegisterForm
    var formErrors: Errors

    constructor ()
      ensures form == RegisterForm("", "", "", "") && formErrors == map[]
    {
      form := RegisterForm("", "", "", "");
      formErrors := map[];
    }

    /** Typing into one input. */
    method HandleChange(field: RegisterField, value: string)
      modifies this
      ensures form == WithField(old(form), field, value)
      ensures formErrors == ClearFieldError(old(formErrors), field.Name())
    {
      form := WithField(form, field, value);
      formErrors := ClearFieldError(formErrors, field.Name());
    }

    /** Submitting: an invalid form shows its errors and sends nothing;
        a valid one is sent, and a successful sign-up goes to the login page.
        `reply` is what the sign-up request gives. */
    method HandleSubmit(auth: AuthSession, reply: Reply<ClientUser>)
      returns (sent: bool, nav: Option<Navigation>)
      modifies this`formErrors, auth
      ensures sent <==> AcceptsRegistration(form)
      ensures !sent ==> formErrors == ValidateForm(form) && nav == None && unchanged(auth)
      ensures sent ==> formErrors == old(formErrors)
      ensures sent ==> !auth.loading
      ensures sent && reply.Ok? ==>
        auth.user == Some(reply.value) && auth.error == None &&
        nav == Some(Navigation("/login", false, Some("Registered successfully!")))
      ensures sent && reply.Failed? ==>
        auth.user == old(auth.user) && auth.error == Some(OrElse(reply.message, "Registration failed")) &&
        nav == None
    {
      var errors := ValidateForm(form);
      if |errors| > 0 {
        formErrors := errors;
        return false, None;
      }
      sent := true;
      var success := auth.Register(reply);
      nav := if success then Some(Navigation("/login", false, Some("Registered successfully!"))) else None;
    }
  }
}
