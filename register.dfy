/** The registration form (RegisterForm.tsx): field updates and the
    validation that runs before the sign-up call. */
module Register {
  import opened Common

  datatype RegistrationForm = RegistrationForm(name: string, email: string, password: string,
                                               confirmPassword: string, role: string)

  const InitialForm := RegistrationForm("", "", "", "", "patient")

  datatype Field = Name | Email | Password | ConfirmPassword | Role

  function Get(form: RegistrationForm, field: Field): string {
    match field
    case Name => form.name
    case Email => form.email
    case Password => form.password
    case ConfirmPassword => form.confirmPassword
    case Role => form.role
  }

  /** handleInputChange: `{...prev, [field]: value}`. */
  function SetField(form: RegistrationForm, field: Field, value: string): (r: RegistrationForm)
    ensures Get(r, field) == value
    ensures forall f :: f != field ==> Get(r, f) == Get(form, f)
  {
    match field
    case Name => form.(name := value)
    case Email => form.(email := value)
    case Password => form.(password := value)
    case ConfirmPassword => form.(confirmPassword := value)
    case Role => form.(role := value)
  }

  /** The later of two changes to one field wins, and changes to different
      fields commute. */
  lemma SetFieldTwice(form: RegistrationForm, f: Field, g: Field, v: string, w: string)
    ensures f == g ==> SetField(SetField(form, f, v), g, w) == SetField(form, g, w)
    ensures f != g ==> SetField(SetField(form, f, v), g, w) == SetField(SetField(form, g, w), f, v)
  {
    var a := SetField(SetField(form, f, v), g, w);
    var b := if f == g then SetField(form, g, w) else SetField(SetField(form, g, w), f, v);
    assert forall h :: Get(a, h) == Get(b, h);
    assert a.name == Get(a, Name) && b.name == Get(b, Name);
    assert a.email == Get(a, Email) && b.email == Get(b, Email);
    assert a.password == Get(a, Password) && b.password == Get(b, Password);
    assert a.confirmPassword == Get(a, ConfirmPassword) && b.confirmPassword == Get(b, ConfirmPassword);
    assert a.role == Get(a, Role) && b.role == Get(b, Role);
  }

  /** The arguments of `signUp(email, password, name, role)`. */
  datatype SignUp = SignUp(email: string, password: string, name: string, role: string)

  const MismatchMessage := "Passwords do not match"
  const TooShortMessage := "Password must be at least 6 characters long"

  /** handleRegister's checks, mismatch first: the call is made exactly when
      the two passwords agree and have six or more characters. */
  function Validate(form: RegistrationForm): (r: Result<SignUp>)
    ensures r.Ok? <==> form.password == form.confirmPassword && |form.password| >= 6
    ensures r.Ok? ==> r.value == SignUp(form.email, form.password, form.name, form.role)
    ensures form.password != form.confirmPassword ==> r == Err(MismatchMessage)
    ensures form.password == form.confirmPassword && |form.password| < 6 ==> r == Err(TooShortMessage)
  {
    if form.password != form.confirmPassword then Err(MismatchMessage)
    else if |form.password| < 6 then Err(TooShortMessage)
    else Ok(SignUp(form.email, form.password, form.name, form.role))
  }

  /** A short password that also differs from its confirmation is reported
      as a mismatch, never as too short. */
  lemma MismatchReportedFirst(form: RegistrationForm)
    requires form.password != form.confirmPassword && |form.password| < 6
    ensures Validate(form).Err? && Validate(form).message == MismatchMessage
  {
  }

  datatype Outcome = Rejected(message: string) | Registered(request: SignUp) | Failed(request: SignUp)

  class RegisterPage {
    var formData: RegistrationForm
    var loading: bool

    constructor ()
      ensures formData == InitialForm && !loading
    {
      formData := InitialForm;
      loading := false;
    }

    method HandleInputChange(field: Field, value: string)
      modifies this
      ensures formData == SetField(old(formData), field, value)
      ensures loading == old(loading)
    {
      formData := SetField(formData, field, value);
    }

    /** The submit handler; `signUpOk` is whether the sign-up call
      succeeded. The form is kept and `loading` is off again on every path. */
    method HandleRegister(signUpOk: bool) returns (outcome: Outcome)
      modifies this
      ensures formData == old(formData) && !loading
      ensures Validate(formData).Err? ==> outcome == Rejected(Validate(formData).message)
      ensures Validate(formData).Ok? && signUpOk ==> outcome == Registered(Validate(formData).value)
      ensures Validate(formData).Ok? && !signUpOk ==> outcome == Failed(Validate(formData).value)
    {
      loading := true;
      var checked := Validate(formData);
      if checked.Err? {
        loading := false;
        return Rejected(checked.message);
      }
      if signUpOk {
        outcome := Registered(checked.value);
      } else {
        outcome := Failed(checked.value);
      }
      loading := false;
    }
  }
}
