/** The login page: where it returns to, its validation and its submit handler. */
module LoginPage {
  import opened Wrappers
  import opened Errors
  import opened Routes

  datatype Field = Email | Password

  datatype Form = Form(email: string, password: string)

  const FILL_ALL := "Please fill in all fields"
  const INVALID := "Invalid email or password"

  /** `location.state?.from?.pathname || '/'`. */
  function RedirectTarget(state: Option<NavState>): (to: string)
    ensures state.Some? && state.value.from.Some? && state.value.from.value.pathname != "" ==>
              to == state.value.from.value.pathname
    ensures state.None? || state.value.from.None? || state.value.from.value.pathname == "" ==> to == "/"
  {
    match state
    case Some(NavState(Some(Location(p)))) => if p != "" then p else "/"
    case _ => "/"
  }

  /** `handleChange`: `{ ...formData, [name]: value }`. */
  function Update(f: Form, field: Field, value: string): (g: Form)
    ensures field == Email ==> g == Form(value, f.password)
    ensures field == Password ==> g == Form(f.email, value)
  {
    match field
    case Email => f.(email := value)
    case Password => f.(password := value)
  }

  /**
   * The guard's redirect to `/login` carries no state, so whatever protected
   * page a signed-out visitor asked for, a successful login lands on `/`.
   * The return path the login page reads is never recorded.
   */
  lemma ReturnPathIsLost(path: seq<string>, isAdmin: bool)
    requires AccessOf(path) != Public
    ensures Visit(path, false, false, isAdmin).Redirect?
    ensures RedirectTarget(Visit(path, false, false, isAdmin).nav.state) == "/"
  {
  }

  /** The page's component state; `state` is the `location.state` it was opened with. */
  class LoginPage {
    const state: Option<NavState>
    var form: Form
    var error: string
    var loading: bool
    var navigated: Option<Navigation>

    constructor (state: Option<NavState>)
      ensures this.state == state
      ensures form == Form("", "") && error == "" && !loading && navigated == None
    {
      this.state := state;
      form := Form("", "");
      error := "";
      loading := false;
      navigated := None;
    }

    /** `handleChange`: only the named field changes. */
    method HandleChange(field: Field, value: string)
      modifies this
      ensures form == Update(old(form), field, value)
      ensures error == old(error) && loading == old(loading) && navigated == old(navigated)
    {
      form := Update(form, field, value);
    }

    /**
     * `handleSubmit`. `login` is how the context's `login` settles if it is
     * called; `sent` is the credentials it is called with, if at all.
     */
    method HandleSubmit(login: Result<(), Thrown>) returns (sent: Option<Form>)
      modifies this
      ensures form == old(form)
      ensures form.email == "" || form.password == "" ==>
                sent == None && error == FILL_ALL && loading == old(loading) && navigated == old(navigated)
      ensures form.email != "" && form.password != "" ==> sent == Some(form) && !loading
      ensures form.email != "" && form.password != "" && login.Success? ==>
                error == "" && navigated == Some(Navigation(RedirectTarget(state), true, None))
      ensures form.email != "" && form.password != "" && login.Failure? ==>
                error == MessageOr(login.error, INVALID) && navigated == old(navigated)
    {
      if form.email == "" || form.password == "" {
        error := FILL_ALL;
        return None;
      }
      loading := true;
      error := "";
      sent := Some(form);
      match login {
        case Success(_) =>
          navigated := Some(Navigation(RedirectTarget(state), true, None));
        case Failure(e) =>
          error := MessageOr(e, INVALID);
      }
      loading := false;
    }
  }
}
