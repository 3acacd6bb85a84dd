/** The login screen: an email field, a password field, a two-way choice of
    login method, and one main button that runs the handler of the chosen
    method. */
module Login {
  import opened ScreenEvents

  /** `'password' | 'otp'`. */
  datatype LoginMethod = ByPassword | ByOtp

  /** The effects of `handlePasswordLogin` when `signIn` answers `r`: an
      empty field is reported and nothing is called; otherwise `signIn` is
      called while loading, and only success navigates, to the tabs. */
  function PasswordLoginEvents(email: string, password: string, r: Reply): (es: seq<Event>)
    ensures email == "" || password == "" ==>
      es == [Alert("Error", "Please fill in all fields", None)]
    ensures Request(SignIn(email, password), true) in es <==> email != "" && password != ""
    ensures OnlyCall(es, SignIn(email, password))
    ensures Reaches(es, Replace(TabsPath)) <==> email != "" && password != "" && !IsError(r)
    ensures !Reaches(es, Replace(TabsPath)) ==> Stays(es)
    ensures email != "" && password != "" && IsError(r) ==>
      es == [Request(SignIn(email, password), true), ErrorAlert("Login Failed", r)]
    ensures email != "" && password != "" && !IsError(r) ==>
      es == [Request(SignIn(email, password), true), Navigate(Replace(TabsPath))]
  {
    if email == "" || password == "" then [Alert("Error", "Please fill in all fields", None)]
    else
      [Request(SignIn(email, password), true)] +
      if IsError(r) then [ErrorAlert("Login Failed", r)] else [Navigate(Replace(TabsPath))]
  }

  /** The effects of `handleOTPLogin` when `sendOTP` answers `r`: an empty
      email is reported and nothing is called; otherwise `sendOTP` is called
      while loading, and only success navigates, to the code screen carrying
      the same email. */
  function OtpLoginEvents(email: string, r: Reply): (es: seq<Event>)
    ensures email == "" ==> es == [Alert("Error", "Please enter your email", None)]
    ensures Request(SendOtp(email), true) in es <==> email != ""
    ensures OnlyCall(es, SendOtp(email))
    ensures Reaches(es, Push(VerifyOtpPath, email)) <==> email != "" && !IsError(r)
    ensures !Reaches(es, Push(VerifyOtpPath, email)) ==> Stays(es)
    ensures email != "" && IsError(r) ==> es == [Request(SendOtp(email), true), ErrorAlert("Error", r)]
    ensures email != "" && !IsError(r) ==>
      es == [Request(SendOtp(email), true), Navigate(Push(VerifyOtpPath, email))]
  {
    if email == "" then [Alert("Error", "Please enter your email", None)]
    else
      [Request(SendOtp(email), true)] +
      if IsError(r) then [ErrorAlert("Error", r)] else [Navigate(Push(VerifyOtpPath, email))]
  }

  /** The screen's state. */
  class LoginScreen {
    var email: string
    var password: string
    var isLoading: bool
    var loginMethod: LoginMethod
    var events: seq<Event>

    constructor ()
      ensures email == "" && password == "" && !isLoading
      ensures loginMethod == ByPassword && events == []
    {
      email := "";
      password := "";
      isLoading := false;
      loginMethod := ByPassword;
      events := [];
    }

    /** `onChangeText={setEmail}`. */
    method SetEmail(value: string)
      modifies this`email
      ensures email == value
    {
      email := value;
    }

    /** `onChangeText={setPassword}`. */
    method SetPassword(value: string)
      modifies this`password
      ensures password == value
    {
      password := value;
    }

    /** The "Password" toggle: sets the method outright, whatever it was, so
        pressing it again changes nothing. */
    method ChoosePassword()
      modifies this`loginMethod
      ensures loginMethod == ByPassword
    {
      loginMethod := ByPassword;
    }

    /** The "OTP" toggle: sets the method outright, whatever it was. */
    method ChooseOtp()
      modifies this`loginMethod
      ensures loginMethod == ByOtp
    {
      loginMethod := ByOtp;
    }

    /** `handlePasswordLogin()`, with `r` the answer `signIn` gives. */
    method HandlePasswordLogin(r: Reply)
      modifies this`isLoading, this`events
      ensures events == old(events) + PasswordLoginEvents(email, password, r)
      ensures email != "" && password != "" ==> !isLoading
      ensures email == "" || password == "" ==> isLoading == old(isLoading)
    {
      if email == "" || password == "" {
        events := events + [Alert("Error", "Please fill in all fields", None)];
        return;
      }
      isLoading := true;
      events := events + [Request(SignIn(email, password), isLoading)];
      isLoading := false;
      if IsError(r) {
        events := events + [ErrorAlert("Login Failed", r)];
      } else {
        events := events + [Navigate(Replace(TabsPath))];
      }
    }

    /** `handleOTPLogin()`, with `r` the answer `sendOTP` gives. */
    method HandleOtpLogin(r: Reply)
      modifies this`isLoading, this`events
      ensures events == old(events) + OtpLoginEvents(email, r)
      ensures email != "" ==> !isLoading
      ensures email == "" ==> isLoading == old(isLoading)
    {
      if email == "" {
        events := events + [Alert("Error", "Please enter your email", None)];
        return;
      }
      isLoading := true;
      events := events + [Request(SendOtp(email), isLoading)];
      isLoading := false;
      if IsError(r) {
        events := events + [ErrorAlert("Error", r)];
      } else {
        events := events + [Navigate(Push(VerifyOtpPath, email))];
      }
    }

    /** The main button: the password handler in password mode, the OTP
        handler otherwise; the method itself is left as it was. */
    method PressLoginButton(r: Reply)
      modifies this`isLoading, this`events
      ensures loginMethod == ByPassword ==>
        events == old(events) + PasswordLoginEvents(email, password, r)
      ensures loginMethod == ByOtp ==>
        events == old(events) + OtpLoginEvents(email, r)
      ensures loginMethod == ByPassword ==>
        && (email != "" && password != "" ==> !isLoading)
        && (email == "" || password == "" ==> isLoading == old(isLoading))
      ensures loginMethod == ByOtp ==>
        && (email != "" ==> !isLoading)
        && (email == "" ==> isLoading == old(isLoading))
    {
      if loginMethod == ByPassword {
        HandlePasswordLogin(r);
      } else {
        HandleOtpLogin(r);
      }
    }
  }
}
