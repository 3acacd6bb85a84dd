/** The sign-up screen: a six-field form, its validation (four checks in a
    fixed order, the first failure being the one reported) and the sign-up
    handler that brackets the external call with the loading flag. */
module Signup {
  import opened ScreenEvents
  import opened PasswordRule

  /** The keys `updateFormData` is called with. */
  datatype Field = FullName | Email | MobileNumber | CompanyName | Password | ConfirmPassword

  datatype FormData = FormData(
    fullName: string,
    email: string,
    mobileNumber: string,
    companyName: string,
    password: string,
    confirmPassword: string)
  {
    /** The field named by `key`. */
    function Get(key: Field): string {
      match key
      case FullName => fullName
      case Email => email
      case MobileNumber => mobileNumber
      case CompanyName => companyName
      case Password => password
      case ConfirmPassword => confirmPassword
    }

    /** The form with field `key` replaced by `value`, the others kept. */
    function With(key: Field, value: string): (r: FormData)
      ensures r.Get(key) == value
      ensures forall k :: k != key ==> r.Get(k) == Get(k)
    {
      match key
      case FullName => this.(fullName := value)
      case Email => this.(email := value)
      case MobileNumber => this.(mobileNumber := value)
      case CompanyName => this.(companyName := value)
      case Password => this.(password := value)
      case ConfirmPassword => this.(confirmPassword := value)
    }
  }

  const EmptyForm := FormData("", "", "", "", "", "")

  const MinPasswordLength := 8

  /** The outcome of validation: the first check that fails, or `Valid`. */
  datatype Verdict = Valid | MissingField | Mismatch | TooShort | WeakPassword

  /** Every field holds a non-empty string. */
  predicate AllFilled(f: FormData) {
    forall k :: f.Get(k) != ""
  }

  /** The checks of `validateForm`, in source order; the result names the
      first one that fails. */
  function Check(f: FormData): (v: Verdict)
    ensures v == MissingField <==> !AllFilled(f)
    ensures v == Mismatch <==> AllFilled(f) && f.password != f.confirmPassword
    ensures v == TooShort <==>
      AllFilled(f) && f.password == f.confirmPassword && |f.password| < MinPasswordLength
    ensures v == WeakPassword <==>
      && AllFilled(f) && f.password == f.confirmPassword && |f.password| >= MinPasswordLength
      && !PasswordRegexTest(f.password)
    ensures v == Valid <==>
      && AllFilled(f) && f.password == f.confirmPassword && |f.password| >= MinPasswordLength
      && PasswordRegexTest(f.password)
  {
    if f.fullName == "" || f.email == "" || f.mobileNumber == "" ||
       f.companyName == "" || f.password == "" || f.confirmPassword == "" then
      assert !AllFilled(f) by {
        if f.fullName == "" { assert f.Get(FullName) == ""; }
        else if f.email == "" { assert f.Get(Email) == ""; }
        else if f.mobileNumber == "" { assert f.Get(MobileNumber) == ""; }
        else if f.companyName == "" { assert f.Get(CompanyName) == ""; }
        else if f.password == "" { assert f.Get(Password) == ""; }
        else { assert f.Get(ConfirmPassword) == ""; }
      }
      MissingField
    else if f.password != f.confirmPassword then Mismatch
    else if |f.password| < MinPasswordLength then TooShort
    else if !PasswordRegexTest(f.password) then WeakPassword
    else Valid
  }

  const MissingFieldMessage := "Please fill in all fields"
  const MismatchMessage := "Passwords do not match"
  const TooShortMessage := "Password must be at least 8 characters long"
  const WeakPasswordMessage :=
    "Password must contain at least one uppercase letter, one lowercase letter, one number, and one special character"

  /** The alert `validateForm` raises for a failed check. */
  function VerdictAlert(v: Verdict): (e: Event)
    requires v != Valid
    ensures e.Alert? && e.title == "Error" && e.onOk == None
  {
    var message := match v
      case MissingField => MissingFieldMessage
      case Mismatch => MismatchMessage
      case TooShort => TooShortMessage
      case WeakPassword => WeakPasswordMessage;
    Alert("Error", message, None)
  }

  /** A form that passes validation holds a password of at least eight
      characters that starts with a character of `[A-Za-z\d@$!%*?&]` and has
      a lower-case letter, an upper-case letter, a digit and one of
      `@$!%*?&` before its first line break. */
  lemma ValidPasswordMeaning(f: FormData)
    requires Check(f) == Valid
    ensures |f.password| >= MinPasswordLength && AllowedFirst(f.password[0])
    ensures forall k :: InFirstLine(k, f.password)
    ensures f.confirmPassword == f.password
  {
    RegexMeaning(f.password);
  }

  /** An empty field is what is reported, whatever else is wrong with the form. */
  lemma EmptyFieldReportedFirst(f: FormData, key: Field)
    requires f.Get(key) == ""
    ensures Check(f) == MissingField
    ensures VerdictAlert(Check(f)) == Alert("Error", MissingFieldMessage, None)
  {
  }

  /** The payload of `signUp`, built from the form. */
  function Payload(f: FormData): (d: SignUpData)
    ensures d.email == f.Get(Email) && d.password == f.Get(Password)
    ensures d.fullName == f.Get(FullName) && d.mobileNumber == f.Get(MobileNumber)
    ensures d.companyName == f.Get(CompanyName)
  {
    SignUpData(f.email, f.password, f.fullName, f.mobileNumber, f.companyName)
  }

  const SignupSuccessMessage := "Account created successfully! Please check your email for verification."

  /** The effects of `handleSignup` when validation gives `v`, the form's
      payload is `data` and `signUp` answers `r`: the call is made exactly
      when validation passes, while loading; a failed validation reports its
      one alert and does nothing else; only a successful sign-up offers
      navigation, to the login screen. */
  function SignupEvents(v: Verdict, data: SignUpData, r: Reply): (es: seq<Event>)
    ensures v != Valid ==> es == [VerdictAlert(v)]
    ensures Request(SignUp(data), true) in es <==> v == Valid
    ensures OnlyCall(es, SignUp(data))
    ensures Reaches(es, Replace(LoginPath)) <==> v == Valid && !IsError(r)
    ensures !Reaches(es, Replace(LoginPath)) ==> Stays(es)
    ensures v == Valid && IsError(r) ==> es == [Request(SignUp(data), true), ErrorAlert("Signup Failed", r)]
    ensures v == Valid && !IsError(r) ==>
      es == [Request(SignUp(data), true), Alert("Success", SignupSuccessMessage, Some(Replace(LoginPath)))]
  {
    if v != Valid then [VerdictAlert(v)]
    else
      [Request(SignUp(data), true)] +
      if IsError(r) then [ErrorAlert("Signup Failed", r)]
      else [Alert("Success", SignupSuccessMessage, Some(Replace(LoginPath)))]
  }

  /** The screen's state: the form, the loading flag, and the effects emitted so far. */
  class SignupScreen {
    var formData: FormData
    var isLoading: bool
    var events: seq<Event>

    constructor ()
      ensures formData == EmptyForm && !isLoading && events == []
    {
      formData := EmptyForm;
      isLoading := false;
      events := [];
    }

    /** `updateFormData(key, value)`: only field `key` changes. */
    method UpdateFormData(key: Field, value: string)
      modifies this`formData
      ensures formData == old(formData).With(key, value)
      ensures formData.Get(key) == value
      ensures forall k :: k != key ==> formData.Get(k) == old(formData).Get(k)
    {
      formData := formData.With(key, value);
    }

    /** `validateForm()`: runs the checks in order and alerts on the first failure. */
    method ValidateForm() returns (ok: bool)
      modifies this`events
      ensures ok <==> Check(formData) == Valid
      ensures events == old(events) + if ok then [] else [VerdictAlert(Check(formData))]
    {
      var f := formData;
      if f.fullName == "" || f.email == "" || f.mobileNumber == "" ||
         f.companyName == "" || f.password == "" || f.confirmPassword == "" {
        events := events + [VerdictAlert(MissingField)];
        return false;
      }
      if f.password != f.confirmPassword {
        events := events + [VerdictAlert(Mismatch)];
        return false;
      }
      if |f.password| < MinPasswordLength {
        events := events + [VerdictAlert(TooShort)];
        return false;
      }
      if !PasswordRegexTest(f.password) {
        events := events + [VerdictAlert(WeakPassword)];
        return false;
      }
      return true;
    }

    /** `handleSignup()`, with `r` the answer `signUp` gives. */
    method HandleSignup(r: Reply)
      modifies this`isLoading, this`events
      ensures events == old(events) + SignupEvents(Check(formData), Payload(formData), r)
      ensures Check(formData) == Valid ==> !isLoading
      ensures Check(formData) != Valid ==> isLoading == old(isLoading)
    {
      var ok := ValidateForm();
      if !ok {
        return;
      }
      var data := Payload(formData);
      isLoading := true;
      events := events + [Request(SignUp(data), isLoading)];
      isLoading := false;
      if IsError(r) {
        events := events + [ErrorAlert("Signup Failed", r)];
      } else {
        events := events + [Alert("Success", SignupSuccessMessage, Some(Replace(LoginPath)))];
      }
    }
  }
}
