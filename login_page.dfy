/** The sign-in form. */
module LoginPage {
  import opened Common
  import opened Email
  import opened Forms
  import opened AuthContext
  import opened ProtectedRoute

  datatype LoginForm = LoginForm(email: string, password: string)

  datatype LoginField = EmailField | Password
  {
    function Name(): string
    {
      match this
      case EmailField => "email"
      case Password => "password"
    }
  }

  function WithField(form: LoginForm, field: LoginField, value: string): (r: LoginForm)
    ensures field == EmailField ==> r == LoginForm(value, form.password)
    ensures field == Password ==> r == LoginForm(form.email, value)
  {
    match field
    case EmailField => form.(email := value)
    case Password => form.(password := value)
  }

  /** `location.state?.from?.pathname || '/'`: where to go after signing in. */
  function RedirectTarget(state: Option<LocationState>): (path: string)
    ensures state.Some? && state.value.from.Some? && state.value.from.value.pathname.Some?
            && state.value.from.value.pathname.value != "" ==>
      path == state.value.from.value.pathname.value
    ensures !(state.Some? && state.value.from.Some? && state.value.from.value.pathname.Some?
              && state.value.from.value.pathname.value != "") ==>
      path == "/"
    ensures path != ""
  {
    if state.Some? && state.value.from.Some?
    then OrElse(state.value.from.value.pathname, "/")
    else "/"
  }

  /** The gate's redirect passes no location state, so signing in after being
      turned away lands on the home page rather than the page first asked for. */
  lemma GateRedirectLandsHome(loading: bool, isAuthenticated: bool)
    requires Gate(loading, isAuthenticated).Redirect?
    ensures Gate(loading, isAuthenticated).path == "/login"
    ensures RedirectTarget(Gate(loading, isAuthenticated).state) == "/"
  {
  }

  ghost predicate AcceptsLogin(form: LoginForm)
  {
    form.email != "" && MatchesEmailRegex(form.email) && form.password != ""
  }

  /** `validateForm`: the password only has to be present; no length rule. */
  function ValidateForm(form: LoginForm): (errors: Errors)
    ensures errors.Keys <= {"email", "password"}
    ensures form.email == "" ==> "email" in errors && errors["email"] == "Email is required"
    ensures form.email != "" ==>
      ("email" in errors <==> !MatchesEmailRegex(form.email)) &&
      ("email" in errors ==> errors["email"] == "Invalid email")
    ensures "password" in errors <==> form.password == ""
    ensures "password" in errors ==> errors["password"] == "Password is required"
    ensures errors == map[] <==> AcceptsLogin(form)
  {
    var e0: Errors := map[];
    var e1 :=
      if form.email == "" then e0["email" := "Email is required"]
      else if !EmailRegexTest(form.email) then e0["email" := "Invalid email"]
      else e0;
    var e2 := if form.password == "" then e1["password" := "Password is required"] else e1;
    assert "email" in e2 <==> "email" in e1;
    e2
  }

  class LoginPage {
    var form: LoginForm
    var formErrors: Errors
    /** The location state the page was opened with. */
    const location: Option<LocationState>

    constructor (location: Option<LocationState>)
      ensures form == LoginForm("", "") && formErrors == map[] && this.location == location
    {
      form := LoginForm("", "");
      formErrors := map[];
      this.location := location;
    }

    method HandleChange(field: LoginField, value: string)
      modifies this`form, this`formErrors
      ensures form == WithField(old(form), field, value)
      ensures formErrors == ClearFieldError(old(formErrors), field.Name())
    {
      form := WithField(form, field, value);
      formErrors := ClearFieldError(formErrors, field.Name());
    }

    /** Submitting: an invalid form shows its errors and sends nothing; after
        a successful sign-in the page replaces itself with the target.
        `reply` is what the sign-in request gives. */
    method HandleSubmit(auth: AuthSession, reply: Reply<ClientUser>)
      returns (sent: bool, nav: Option<Navigation>)
      modifies this`formErrors, auth
      ensures sent <==> AcceptsLogin(form)
      ensures !sent ==> formErrors == ValidateForm(form) && nav == None && unchanged(auth)
      ensures sent ==> formErrors == old(formErrors) && !auth.loading
      ensures sent && reply.Ok? ==>
        auth.user == Some(reply.value) && auth.error == None &&
        nav == Some(Navigation(RedirectTarget(location), true, None))
      ensures sent && reply.Failed? ==>
        auth.user == old(auth.user) && auth.error == Some(OrElse(reply.message, "Login failed")) &&
        nav == None
    {
      var errors := ValidateForm(form);
      if |errors| > 0 {
        formErrors := errors;
        return false, None;
      }
      sent := true;
      var success := auth.Login(reply);
      nav := if success then Some(Navigation(RedirectTarget(location), true, None)) else None;
    }
  }
}
