/**
 * The sign-in / sign-up page: a login/signup mode, the signup form record, the
 * "OTP sent" flag and the typed code. Logging in hands a user record to the
 * authentication context and moves to the profile page; both are recorded here.
 */
module Auth {
  import opened Wrappers
  import opened Users

  /** The three role buttons of the signup form. */
  datatype Role = Citizen | Police | Legal

  function RoleName(r: Role): (name: string)
    ensures r == Citizen <==> name == "Citizen"
    ensures r == Police <==> name == "Police"
    ensures r == Legal <==> name == "Legal"
  {
    match r
    case Citizen => "Citizen"
    case Police => "Police"
    case Legal => "Legal"
  }

  /** The form record; `role` is always one of the three button values. */
  datatype SignupForm = SignupForm(
    name: string,
    contact: string,
    password: string,
    role: Role,
    verificationId: string)

  /** The named text inputs that `handleInputChange` dispatches on. */
  datatype Field = Name | Contact | Password | VerificationId

  const EmptyForm := SignupForm("", "", "", Citizen, "")

  /** The fixed code the mock verification accepts. */
  const MockOtp := "1234"

  /** The code input accepts at most this many characters. */
  const OtpMaxLength := 4

  const ProfileRoute := "/profile"

  /** `{ ...formData, [name]: value }`: the one named field gets the new value. */
  function WithField(f: SignupForm, field: Field, value: string): (g: SignupForm)
    ensures g.role == f.role
    ensures g.name == (if field == Name then value else f.name)
    ensures g.contact == (if field == Contact then value else f.contact)
    ensures g.password == (if field == Password then value else f.password)
    ensures g.verificationId == (if field == VerificationId then value else f.verificationId)
  {
    match field
    case Name => f.(name := value)
    case Contact => f.(contact := value)
    case Password => f.(password := value)
    case VerificationId => f.(verificationId := value)
  }

  /** The record a verified signup logs in. */
  function SignupUser(f: SignupForm): (u: User)
    ensures u.name == f.name && u.email == f.contact && u.role == Some(RoleName(f.role))
    ensures u.avatar == None && u.stats == Some(Stats(0, 0, 0))
  {
    User(f.name, f.contact, Some(RoleName(f.role)), None, Some(Stats(0, 0, 0)))
  }

  /** The record the mock login logs in. */
  function DemoUser(contact: string): (u: User)
    ensures u.name == "Demo User" && u.email == contact && u.role == Some("Citizen")
    ensures u.avatar == None && u.stats == Some(Stats(5, 2, 1))
  {
    User("Demo User", contact, Some("Citizen"), None, Some(Stats(5, 2, 1)))
  }

  /** The signup user carries neither the password nor the verification id: forms
      that differ only there produce the same user. */
  lemma SignupUserIgnoresSecrets(f: SignupForm, password: string, verificationId: string)
    ensures SignupUser(f.(password := password, verificationId := verificationId)) == SignupUser(f)
  {
  }

  /** The verification-id input is shown for every role but Citizen. */
  predicate ShowsVerificationId(f: SignupForm) {
    RoleName(f.role) != "Citizen"
  }

  /** The browser's `required` check on the login form: contact and password must
      be non-empty before `handleLogin` runs. */
  predicate LoginRequiredFilled(f: SignupForm) {
    f.contact != "" && f.password != ""
  }

  /** The browser's `required` check on the signup form. Before the code is sent
      the form shows name and contact, and the verification id for every role but
      Citizen, all required; after it is sent only the code input is shown, and it
      is not required. */
  predicate SignupRequiredFilled(otpSent: bool, f: SignupForm) {
    otpSent || (f.name != "" && f.contact != "" && (ShowsVerificationId(f) ==> f.verificationId != ""))
  }

  /** With name and contact filled in, "Get OTP" submits exactly when the role is
      Citizen or a verification id was typed. */
  lemma VerificationIdRequiredIff(f: SignupForm)
    requires f.name != "" && f.contact != ""
    ensures SignupRequiredFilled(false, f) <==> f.role == Citizen || f.verificationId != ""
  {
  }

  class AuthPage {
    var isLogin: bool
    var form: SignupForm
    var otpSent: bool
    var otp: string
    /** Users handed to the authentication context's `login`, oldest first. */
    var loggedIn: seq<User>
    /** Routes navigated to, oldest first. */
    var navigations: seq<string>
    /** Alerts shown, oldest first. */
    var alerts: seq<string>

    ghost predicate Valid()
      reads this
    {
      |otp| <= OtpMaxLength && |loggedIn| == |navigations|
    }

    /** Login mode, empty Citizen form, no code sent, empty code. */
    constructor()
      ensures isLogin && form == EmptyForm && !otpSent && otp == ""
      ensures loggedIn == [] && navigations == [] && alerts == []
      ensures Valid()
    {
      isLogin := true;
      form := EmptyForm;
      otpSent := false;
      otp := "";
      loggedIn := [];
      navigations := [];
      alerts := [];
    }

    /** The "Login" tab. */
    method ShowLogin()
      modifies this
      ensures isLogin && form == old(form) && otpSent == old(otpSent) && otp == old(otp)
      ensures loggedIn == old(loggedIn) && navigations == old(navigations) && alerts == old(alerts)
    {
      isLogin := true;
    }

    /** The "Sign Up" tab. */
    method ShowSignup()
      modifies this
      ensures !isLogin && form == old(form) && otpSent == old(otpSent) && otp == old(otp)
      ensures loggedIn == old(loggedIn) && navigations == old(navigations) && alerts == old(alerts)
    {
      isLogin := false;
    }

    /** `handleInputChange`: only the named field changes. */
    method EditField(field: Field, value: string)
      modifies this
      ensures form == WithField(old(form), field, value)
      ensures isLogin == old(isLogin) && otpSent == old(otpSent) && otp == old(otp)
      ensures loggedIn == old(loggedIn) && navigations == old(navigations) && alerts == old(alerts)
    {
      form := WithField(form, field, value);
    }

    /** A role button sets only the role. */
    method SelectRole(role: Role)
      modifies this
      ensures form == old(form).(role := role)
      ensures isLogin == old(isLogin) && otpSent == old(otpSent) && otp == old(otp)
      ensures loggedIn == old(loggedIn) && navigations == old(navigations) && alerts == old(alerts)
    {
      form := form.(role := role);
    }

    /** The code input; the browser keeps it to four characters. */
    method EditOtp(value: string)
      requires |value| <= OtpMaxLength
      modifies this
      ensures otp == value
      ensures isLogin == old(isLogin) && form == old(form) && otpSent == old(otpSent)
      ensures loggedIn == old(loggedIn) && navigations == old(navigations) && alerts == old(alerts)
    {
      otp := value;
    }

    /** `handleSendOtp`: marks the code as sent and shows it in an alert. */
    method SendOtp()
      modifies this
      ensures otpSent
      ensures isLogin == old(isLogin) && form == old(form) && otp == old(otp)
      ensures loggedIn == old(loggedIn) && navigations == old(navigations)
      ensures alerts == old(alerts) + ["Mock OTP: 1234"]
    {
      otpSent := true;
      alerts := alerts + ["Mock OTP: 1234"];
    }

    /** `handleVerifyAndSignup`: a wrong code only alerts; the right code logs in
        the user built from the form and goes to the profile page. */
    method VerifyAndSignup()
      requires Valid()
      modifies this
      ensures Valid()
      ensures isLogin == old(isLogin) && form == old(form) && otpSent == old(otpSent) && otp == old(otp)
      ensures otp != MockOtp ==>
                && loggedIn == old(loggedIn) && navigations == old(navigations)
                && alerts == old(alerts) + ["Invalid OTP"]
      ensures otp == MockOtp ==>
                && loggedIn == old(loggedIn) + [SignupUser(form)]
                && navigations == old(navigations) + [ProfileRoute]
                && alerts == old(alerts)
    {
      if otp != MockOtp {
        alerts := alerts + ["Invalid OTP"];
        return;
      }
      loggedIn := loggedIn + [SignupUser(form)];
      navigations := navigations + [ProfileRoute];
    }

    /** Submitting the signup form, which is rendered only in signup mode. When a
        required field is empty the browser only reports it; otherwise "Get OTP"
        before the code is sent and "Verify & Sign Up" after. */
    method SubmitSignup()
      requires Valid() && !isLogin
      modifies this
      ensures Valid()
      ensures !SignupRequiredFilled(old(otpSent), old(form)) ==> unchanged(this)
      ensures SignupRequiredFilled(old(otpSent), old(form)) && !old(otpSent) ==>
                && otpSent && isLogin == old(isLogin) && form == old(form) && otp == old(otp)
                && loggedIn == old(loggedIn) && navigations == old(navigations)
                && alerts == old(alerts) + ["Mock OTP: 1234"]
      ensures old(otpSent) ==>
                && otpSent && isLogin == old(isLogin) && form == old(form) && otp == old(otp)
                && (old(otp) != MockOtp ==>
                      && loggedIn == old(loggedIn) && navigations == old(navigations)
                      && alerts == old(alerts) + ["Invalid OTP"])
                && (old(otp) == MockOtp ==>
                      && loggedIn == old(loggedIn) + [SignupUser(old(form))]
                      && navigations == old(navigations) + [ProfileRoute]
                      && alerts == old(alerts))
    {
      if !SignupRequiredFilled(otpSent, form) {
        return;
      }
      if otpSent {
        VerifyAndSignup();
      } else {
        SendOtp();
      }
    }

    /** Submitting the login form, which is rendered only in login mode. When
        contact or password is empty the browser only reports it; otherwise
        `handleLogin` logs in the demo user under the typed contact and goes to
        the profile page. */
    method Login()
      requires Valid() && isLogin
      modifies this
      ensures Valid()
      ensures !LoginRequiredFilled(old(form)) ==> unchanged(this)
      ensures LoginRequiredFilled(old(form)) ==>
                && loggedIn == old(loggedIn) + [DemoUser(old(form).contact)]
                && navigations == old(navigations) + [ProfileRoute]
                && isLogin == old(isLogin) && form == old(form) && otpSent == old(otpSent) && otp == old(otp)
                && alerts == old(alerts)
    {
      if !LoginRequiredFilled(form) {
        return;
      }
      loggedIn := loggedIn + [DemoUser(form.contact)];
      navigations := navigations + [ProfileRoute];
    }

    /** "Change Contact Info": back to the form, keeping the typed code and fields. */
    method ChangeContactInfo()
      modifies this
      ensures !otpSent
      ensures isLogin == old(isLogin) && form == old(form) && otp == old(otp)
      ensures loggedIn == old(loggedIn) && navigations == old(navigations) && alerts == old(alerts)
    {
      otpSent := false;
    }
  }
}
