/**
 * The sign-in page: a form step that issues a four-digit code and a code
 * step that signs the rider in when the entered code matches it. Login and
 * sign-up share this flow; no password is ever checked. The all-zero code
 * gets its own "imposter" reaction instead of the plain rejection.
 */
module Auth {

  import opened Options
  import opened AppContext
  import Otp

  datatype Step = FormStep | OtpStep

  datatype TextField = NameField | EmailField | PhoneField | PasswordField | ConfirmPasswordField | OtpField

  /** One change event: a text input, or the gender select with its three options. */
  datatype FieldChange = Typed(field: TextField, text: string) | GenderPicked(gender: Gender)

  datatype Form = Form(name: string, email: string, phone: string, password: string,
                       confirmPassword: string, gender: Gender, otp: string)

  const EmptyForm: Form := Form("", "", "", "", "", Female, "")

  const ImposterCode: string := "0000"

  /** The value of a text field of the form. */
  function Text(f: Form, field: TextField): string {
    match field
    case NameField => f.name
    case EmailField => f.email
    case PhoneField => f.phone
    case PasswordField => f.password
    case ConfirmPasswordField => f.confirmPassword
    case OtpField => f.otp
  }

  /** The form after a change event: the named field takes the event's value. */
  function Apply(f: Form, c: FieldChange): Form {
    match c
    case GenderPicked(g) => f.(gender := g)
    case Typed(NameField, t) => f.(name := t)
    case Typed(EmailField, t) => f.(email := t)
    case Typed(PhoneField, t) => f.(phone := t)
    case Typed(PasswordField, t) => f.(password := t)
    case Typed(ConfirmPasswordField, t) => f.(confirmPassword := t)
    case Typed(OtpField, t) => f.(otp := t)
  }

  /** A change sets its own field and leaves every other field of the form as it was. */
  lemma ChangeTouchesOnlyItsField(f: Form, c: FieldChange)
    ensures c.Typed? ==> Text(Apply(f, c), c.field) == c.text && Apply(f, c).gender == f.gender
    ensures c.Typed? ==> forall other :: other != c.field ==> Text(Apply(f, c), other) == Text(f, other)
    ensures c.GenderPicked? ==> Apply(f, c).gender == c.gender
    ensures c.GenderPicked? ==> forall field :: Text(Apply(f, c), field) == Text(f, field)
  {
  }

  /** What the page does with a submitted form or code. */
  datatype Outcome = CodeSent(code: string) | SignedIn | ImposterAlarm | Rejected

  /** The code step's three branches: the match comes first, then the all-zero code. */
  function Verify(entered: string, generated: string): Outcome {
    if entered == generated then SignedIn
    else if entered == ImposterCode then ImposterAlarm
    else Rejected
  }

  /** A code the page can have issued: four digits, the first not zero. */
  predicate IsIssued(code: string) {
    |code| == 4 && Otp.AllDigits(code) && code[0] != '0'
  }

  /**
   * Against an issued code, signing in happens exactly on the matching entry,
   * and the all-zero entry always reaches the imposter branch: it can never
   * be the correct code.
   */
  lemma VerifyAgainstIssued(entered: string, generated: string)
    requires IsIssued(generated)
    ensures Verify(entered, generated) == SignedIn <==> entered == generated
    ensures Verify(ImposterCode, generated) == ImposterAlarm
    ensures Verify(entered, generated) == ImposterAlarm <==> entered == ImposterCode
  {
    assert ImposterCode[0] == '0';
  }

  /** The rider a successful code entry signs in; the id is the clock reading. */
  function NewUser(f: Form, now: nat): (u: User)
    ensures u.name == f.name && u.email == f.email && u.phone == f.phone && u.gender == f.gender
    ensures u.sosCode == None && Otp.AllDigits(u.id) && Otp.ValueOf(u.id) == now
  {
    Otp.DecimalRoundTrip(now);
    User(Otp.ToDecimal(now), f.name, f.email, f.phone, f.gender, None)
  }

  /** The fixed account the simulated Google sign-in uses. */
  function DemoUser(now: nat): User {
    User(Otp.ToDecimal(now), "Demo User", "demo@ridesafe.ai", "+1234567890", Female, None)
  }

  class AuthPage {
    const store: Store
    var isLogin: bool
    var showPassword: bool
    var form: Form
    var step: Step
    var generatedOtp: string

    ghost predicate Valid()
      reads this, store
    {
      store.Valid() && (step == OtpStep ==> IsIssued(generatedOtp))
    }

    constructor (store: Store)
      requires store.Valid()
      ensures Valid() && this.store == store
      ensures isLogin && !showPassword && form == EmptyForm && step == FormStep && generatedOtp == ""
    {
      this.store := store;
      isLogin, showPassword := true, false;
      form := EmptyForm;
      step, generatedOtp := FormStep, "";
    }

    method InputChange(c: FieldChange)
      modifies this`form
      ensures form == Apply(old(form), c)
    {
      form := Apply(form, c);
    }

    /** The Login / Sign Up tabs. */
    method ChooseLogin(login: bool)
      modifies this`isLogin
      ensures isLogin == login
    {
      isLogin := login;
    }

    method ToggleShowPassword()
      modifies this`showPassword
      ensures showPassword == !old(showPassword)
    {
      showPassword := !showPassword;
    }

    /**
     * Submit. On the form step: a fresh code from `random`, the code step,
     * no dispatch. On the code step: SET_USER with the form's details exactly
     * when the entry matches; the step stays put either way.
     */
    method Submit(random: real, now: nat) returns (outcome: Outcome)
      requires Valid() && 0.0 <= random < 1.0
      modifies store, this`step, this`generatedOtp
      ensures Valid()
      ensures old(step) == FormStep ==>
        && outcome == CodeSent(Otp.Generate(random)) && generatedOtp == Otp.Generate(random)
        && step == OtpStep && store.log == old(store.log) && store.state == old(store.state)
      ensures old(step) == OtpStep ==>
        && step == OtpStep && generatedOtp == old(generatedOtp)
        && outcome == Verify(form.otp, generatedOtp)
        && (outcome == SignedIn <==> form.otp == generatedOtp)
        && (outcome == ImposterAlarm <==> form.otp == ImposterCode)
        && store.log == old(store.log) + (if outcome == SignedIn then [SetUser(NewUser(form, now))] else [])
    {
      if step == FormStep {
        var code := Otp.Generate(random);
        generatedOtp := code;
        step := OtpStep;
        outcome := CodeSent(code);
      } else {
        VerifyAgainstIssued(form.otp, generatedOtp);
        outcome := Verify(form.otp, generatedOtp);
        if outcome == SignedIn {
          store.Dispatch(SetUser(NewUser(form, now)));
        }
      }
    }

    /** Continue with Google: signs the demo account in at once. */
    method GoogleSignIn(now: nat)
      requires Valid()
      modifies store
      ensures Valid()
      ensures store.log == old(store.log) + [SetUser(DemoUser(now))]
      ensures store.state.isAuthenticated && store.state.user == Some(DemoUser(now))
    {
      store.Dispatch(SetUser(DemoUser(now)));
    }

    /** Back to form: no dispatch, the issued code is kept until the next submit. */
    method BackToForm()
      requires Valid()
      modifies this`step
      ensures Valid() && step == FormStep
    {
      step := FormStep;
    }
  }
}
