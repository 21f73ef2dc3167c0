/** The registration page: its form, the validation chain and the submit handler. */
module RegisterPage {
  import opened Wrappers
  import opened Errors
  import opened Routes

  datatype Field = Name | Email | Password | ConfirmPassword

  datatype Form = Form(name: string, email: string, password: string, confirmPassword: string)

  /** What is sent to `register`: the confirmation is dropped and the role fixed. */
  datatype Payload = Payload(name: string, email: string, password: string, role: string)

  const FILL_ALL := "Please fill in all fields"
  const MISMATCH := "Passwords do not match"
  const TOO_SHORT := "Password must be at least 6 characters long"
  const FAILED := "Registration failed"

  function Get(f: Form, field: Field): string {
    match field
    case Name => f.name
    case Email => f.email
    case Password => f.password
    case ConfirmPassword => f.confirmPassword
  }

  /** `handleChange`: `{ ...formData, [name]: value }`. */
  function Update(f: Form, field: Field, value: string): (g: Form)
    ensures Get(g, field) == value
    ensures forall other :: other != field ==> Get(g, other) == Get(f, other)
  {
    match field
    case Name => f.(name := value)
    case Email => f.(email := value)
    case Password => f.(password := value)
    case ConfirmPassword => f.(confirmPassword := value)
  }

  predicate AllFilled(f: Form) {
    f.name != "" && f.email != "" && f.password != "" && f.confirmPassword != ""
  }

  /**
   * The validation chain: the first failing check names the error. `None`
   * means the form may be sent.
   */
  function Validate(f: Form): (r: Option<string>)
    ensures r.None? <==> AllFilled(f) && f.password == f.confirmPassword && |f.password| >= 6
    ensures !AllFilled(f) ==> r == Some(FILL_ALL)
    ensures AllFilled(f) && f.password != f.confirmPassword ==> r == Some(MISMATCH)
    ensures AllFilled(f) && f.password == f.confirmPassword && |f.password| < 6 ==> r == Some(TOO_SHORT)
  {
    if !AllFilled(f) then Some(FILL_ALL)
    else if f.password != f.confirmPassword then Some(MISMATCH)
    else if |f.password| < 6 then Some(TOO_SHORT)
    else None
  }

  /** The payload carries the form's fields verbatim and the least-privileged role. */
  function PayloadOf(f: Form): (p: Payload)
    ensures p.name == f.name && p.email == f.email && p.password == f.password
    ensures p.role == "USER"
  {
    Payload(f.name, f.email, f.password, "USER")
  }

  /** The page's component state. */
  class RegisterPage {
    var form: Form
    var error: string
    var loading: bool
    var navigated: Option<Navigation>

    constructor ()
      ensures form == Form("", "", "", "") && error == "" && !loading && navigated == None
    {
      form := Form("", "", "", "");
      error := "";
      loading := false;
      navigated := None;
    }

    /** `handleChange`: only the named field changes. */
    method HandleChange(field: Field, value: string)
      modifies this
      ensures form == Update(old(form), field, value)
      ensures error == old(error) && loading == old(loading) && navigated == old(navigated)
    {
      form := Update(form, field, value);
    }

    /**
     * `handleSubmit`. `register` is how the context's `register` settles if
     * it is called; `sent` is what it is called with, if at all.
     */
    method HandleSubmit(register: Result<(), Thrown>) returns (sent: Option<Payload>)
      modifies this
      ensures form == old(form)
      ensures Validate(form).Some? ==>
                sent == None && error == Validate(form).value
                && loading == old(loading) && navigated == old(navigated)
      ensures Validate(form).None? ==> sent == Some(PayloadOf(form)) && !loading
      ensures Validate(form).None? && register.Success? ==>
                error == "" && navigated == Some(Navigation("/", false, None))
      ensures Validate(form).None? && register.Failure? ==>
                error == MessageOr(register.error, FAILED) && navigated == old(navigated)
    {
      var invalid := Validate(form);
      if invalid.Some? {
        error := invalid.value;
        return None;
      }
      loading := true;
      error := "";
      sent := Some(PayloadOf(form));
      match register {
        case Success(_) =>
          navigated := Some(Navigation("/", false, None));
        case Failure(e) =>
          error := MessageOr(e, FAILED);
      }
      loading := false;
    }
  }
}
