/** The forgot-password screen: one email field and a button that requests
    a one-time code and, once the user acknowledges, opens the code screen. */
module ForgotPassword {
  import opened ScreenEvents

  const SentTitle := "OTP Sent"
  const SentMessage := "Please check your email for the verification code"

  /** The effects of `handleSendOTP` when `sendOTP` answers `r`: an empty
      email is reported and nothing is called; otherwise `sendOTP` is called
      while loading; an error is reported with no navigation; success shows
      an alert whose OK button opens the code screen with the same email. */
  function SendCodeEvents(email: string, r: Reply): (es: seq<Event>)
    ensures email == "" ==>
      es == [Alert("Error", "Please enter your email address", None)]
    ensures Request(SendOtp(email), true) in es <==> email != ""
    ensures OnlyCall(es, SendOtp(email))
    ensures IsError(r) ==> Stays(es)
    ensures Reaches(es, Push(VerifyOtpPath, email)) <==> email != "" && !IsError(r)
    ensures !Reaches(es, Push(VerifyOtpPath, email)) ==> Stays(es)
    ensures email != "" && !IsError(r) ==> Navigate(Push(VerifyOtpPath, email)) !in es
    ensures email != "" && IsError(r) ==> es == [Request(SendOtp(email), true), ErrorAlert("Error", r)]
    ensures email != "" && !IsError(r) ==>
      es == [Request(SendOtp(email), true), Alert(SentTitle, SentMessage, Some(Push(VerifyOtpPath, email)))]
  {
    if email == "" then [Alert("Error", "Please enter your email address", None)]
    else
      [Request(SendOtp(email), true)] +
      if IsError(r) then [ErrorAlert("Error", r)]
      else [Alert(SentTitle, SentMessage, Some(Push(VerifyOtpPath, email)))]
  }

  /** The screen's state. */
  class ForgotPasswordScreen {
    var email: string
    var isLoading: bool
    var events: seq<Event>

    constructor ()
      ensures email == "" && !isLoading && events == []
    {
      email := "";
      isLoading := false;
      events := [];
    }

    /** `onChangeText={setEmail}`. */
    method SetEmail(value: string)
      modifies this`email
      ensures email == value
    {
      email := value;
    }

    /** `handleSendOTP()`, with `r` the answer `sendOTP` gives. */
    method HandleSendOtp(r: Reply)
      modifies this`isLoading, this`events
      ensures events == old(events) + SendCodeEvents(email, r)
      ensures email != "" ==> !isLoading
      ensures email == "" ==> isLoading == old(isLoading)
    {
      if email == "" {
        events := events + [Alert("Error", "Please enter your email address", None)];
        return;
      }
      isLoading := true;
      events := events + [Request(SendOtp(email), isLoading)];
      isLoading := false;
      if IsError(r) {
        events := events + [ErrorAlert("Error", r)];
      } else {
        events := events + [Alert(SentTitle, SentMessage, Some(Push(VerifyOtpPath, email)))];
      }
    }
  }
}
