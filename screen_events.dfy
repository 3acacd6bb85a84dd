/** Vocabulary shared by the four authentication screens: what an
    authentication call answers, which calls a screen issues, and the
    observable effects (alerts, navigation, focus moves) a handler emits. */
module ScreenEvents {

  datatype Option<+T> = None | Some(value: T)

  /** What an authentication call resolves to: `{}` or `{ error: message }`. */
  datatype Reply = Reply(error: Option<string>)

  /** The screens test `if (error)`: an absent error and an empty message are
      both falsy, so only a non-empty message counts as a failure. */
  predicate IsError(r: Reply)
    ensures r.error == None ==> !IsError(r)
    ensures r.error == Some("") ==> !IsError(r)
    ensures IsError(r) ==> r.error.Some? && |r.error.value| > 0
  {
    r.error.Some? && r.error.value != ""
  }

  /** The payload of a sign-up call (the confirmation field is not sent). */
  datatype SignUpData = SignUpData(
    email: string,
    password: string,
    fullName: string,
    mobileNumber: string,
    companyName: string)

  /** The external authentication calls a screen can issue. */
  datatype Call =
    | SignUp(data: SignUpData)
    | SignIn(email: string, password: string)
    | SendOtp(email: string)
    | VerifyOtp(email: string, token: string)

  const TabsPath: string := "/(tabs)"
  const LoginPath: string := "/auth/login"
  const VerifyOtpPath: string := "/auth/verify-otp"

  /** `router.replace(path)` or `router.push({ pathname, params: { email } })`. */
  datatype Nav = Replace(path: string) | Push(path: string, email: string)

  /** One observable effect of a screen handler, in the order it happens. */
  datatype Event =
      /** An external call, with the screen's `isLoading` flag at the moment it is issued. */
    | Request(call: Call, loading: bool)
      /** `Alert.alert(title, message)`; `onOk` is the navigation its OK button performs, if any. */
    | Alert(title: string, message: string, onOk: Option<Nav>)
    | Navigate(nav: Nav)
      /** `inputs.current[slot]?.focus()`. */
    | Focus(slot: nat)

  /** Every external call in the trace is `c`, issued while loading. */
  predicate OnlyCall(es: seq<Event>, c: Call) {
    forall e <- es :: e.Request? ==> e == Request(c, true)
  }

  /** The trace navigates to `n`, directly or from an alert's OK button. */
  predicate Reaches(es: seq<Event>, n: Nav) {
    Navigate(n) in es || exists e <- es :: e.Alert? && e.onOk == Some(n)
  }

  /** The trace offers no navigation at all. */
  predicate Stays(es: seq<Event>) {
    forall e <- es :: !e.Navigate? && !(e.Alert? && e.onOk.Some?)
  }

  /** The alert a failed reply produces under `title`. */
  function ErrorAlert(title: string, r: Reply): Event
    requires IsError(r)
  {
    Alert(title, r.error.value, None)
  }
}
