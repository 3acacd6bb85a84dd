# Authentication screens of the payment-link admin app

The repository is a React Native console for issuing payment links. Its
tab screens hold logic of their own: dashboard counts and revenue
(app/(tabs)/index.tsx:60-72), a search filter over payments
(app/(tabs)/payments.tsx:125-128) and the creation of pending requests that
expire after 24 hours (app/(tabs)/payments.tsx:72-85). That logic lies
outside the authentication core modelled here. This project models the four
authentication screens under `app/auth/` in Dafny:

- **Sign-up** (`signup.dfy`, `password_rule.dfy`): the six-field form, the
  single-field update, validation, and the sign-up handler. Validation runs
  four checks in a fixed order and reports only the first that fails: a
  missing field, then a password mismatch, then a password shorter than
  8, then the password pattern. The pattern
  `/^(?=.*[a-z])(?=.*[A-Z])(?=.*\d)(?=.*[@$!%*?&])[A-Za-z\d@$!%*?&]/` is
  modelled as JavaScript runs it. `.` stops at a line terminator, so each
  required class must appear before the first line break. Only the first
  character is checked against the allowed class; later characters are
  unconstrained.
- **One-time code** (`verify_otp.dfy`): the six-slot code buffer, the
  one-second countdown, the focus moves, the verify handler and the resend
  handler. The verify handler is guarded on the length of the joined code.
  The resend handler is gated on the countdown; on success it resets the
  countdown and the buffer.
- **Login** (`login.dfy`): the password/OTP method toggle, the two login
  handlers, and the main button that dispatches on the chosen method.
- **Forgot password** (`forgot_password.dfy`): the code request. On success it shows an alert
  whose OK button opens the code screen.

Each screen is a class holding the source's state variables. Its fields
are the form or inputs, `isLoading`, and an `events` trace. Each handler
is a method whose `ensures` ties the new trace to a pure function. That
function gives the handler's effects and states the guard and its outcomes.
`ScreenEvents` (`screen_events.dfy`) holds the shared vocabulary:
- A `Reply` is what an authentication call answers. A handler receives it
  as a parameter.
- An `Event` is an external call (`Request`), an `Alert`, a navigation or a
  focus move. A `Request` records the `isLoading` value at the moment the
  call is issued. An `Alert` records the navigation its OK button performs.

The screens test a reply with `if (error)`. `IsError` models this
truthiness, so an empty error message counts as success.

## Model

| member | source | states |
|---|---|---|
| `ScreenEvents.IsError` | app/auth/login.tsx:39 | a reply counts as a failure only when it carries a non-empty message: no error and an empty message both count as success |
| `Signup.FormData.With` | app/auth/signup.tsx:88-90 | the updated form holds `value` under `key` and every other field unchanged |
| `Signup.Check` | app/auth/signup.tsx:35-62 | the verdict is `MissingField` iff some field is empty; otherwise `Mismatch` iff password and confirmation differ; otherwise `TooShort` iff the password has fewer than 8 characters; otherwise `WeakPassword` iff the pattern rejects it; `Valid` iff all four checks pass |
| `Signup.VerdictAlert` | app/auth/signup.tsx:37-57 | each failed check raises one alert titled "Error", with no navigation on OK |
| `Signup.Payload` | app/auth/signup.tsx:68-74 | the sign-up payload carries the email, password, full name, mobile number and company name fields of the form, and not the confirmation |
| `Signup.EmptyFieldReportedFirst` | app/auth/signup.tsx:36-40 | an empty field is the error reported, with the "Please fill in all fields" alert, whatever else is wrong |
| `Signup.ValidPasswordMeaning` | app/auth/signup.tsx:47-59 | a form that passes validation has a password of at least 8 characters, equal to its confirmation, with an allowed first character and all four classes in its first line |
| `Signup.SignupEvents` | app/auth/signup.tsx:64-86 | `signUp` is called, while loading, exactly when validation passes; a failed validation emits only its one alert; only a successful sign-up offers navigation, to the login screen; after the call, an error reply gives exactly the "Signup Failed" alert with its message, and success gives exactly the success alert whose OK replaces to the login screen |
| `Signup.SignupScreen.constructor` | app/auth/signup.tsx:19-29 | the form starts with six empty fields, not loading, nothing emitted |
| `Signup.SignupScreen.UpdateFormData` | app/auth/signup.tsx:88-90 | only field `key` changes, to `value` |
| `Signup.SignupScreen.ValidateForm` | app/auth/signup.tsx:35-62 | the checks in source order return true iff the verdict is `Valid`, alerting the first failing check otherwise |
| `Signup.SignupScreen.HandleSignup` | app/auth/signup.tsx:64-86 | the trace grows by the sign-up effects; `isLoading` is false after a call is made and untouched when validation stops the handler |
| `PasswordRule.LookaheadMatches` | app/auth/signup.tsx:52 | a `(?=.*K)` lookahead never matches a string whose first character is a line terminator |
| `PasswordRule.PasswordRegexTest` | app/auth/signup.tsx:52-53 | a string the pattern accepts contains a lower-case letter, an upper-case letter, a digit and one of `@$!%*?&` |
| `PasswordRule.LookaheadMeaning` | app/auth/signup.tsx:52 | the backtracking match of a `(?=.*K)` lookahead succeeds iff a character of class K occurs before the first line terminator |
| `PasswordRule.RegexMeaning` | app/auth/signup.tsx:52-53 | the pattern accepts exactly the non-empty strings whose first character is in `[A-Za-z\d@$!%*?&]` and whose first line contains a lower-case letter, an upper-case letter, a digit and one of `@$!%*?&` |
| `PasswordRule.SingleLineMeaning` | app/auth/signup.tsx:52 | on a string without line breaks, acceptance is "contains each class and starts with an allowed character" |
| `PasswordRule.SuffixUnconstrained` | app/auth/signup.tsx:52 | anything appended to an accepted password is accepted too |
| `PasswordRule.AcceptsAnyLaterCharacter` | app/auth/signup.tsx:52 | a space, `#` or `~` after the first character does not cause rejection |
| `PasswordRule.RejectsBadFirstCharacter` | app/auth/signup.tsx:52 | a first character outside the allowed class is rejected even when all four classes occur |
| `PasswordRule.HiddenAfterLineBreak` | app/auth/signup.tsx:52 | a class that does not occur before a line break is not found by its lookahead |
| `PasswordRule.RejectsClassAfterLineBreak` | app/auth/signup.tsx:52 | a special character that occurs only after a line break does not satisfy the pattern |
| `VerifyOtp.TickDown` | app/auth/verify-otp.tsx:27 | one tick lowers a positive countdown by one and turns any other value into 0, so the result is never negative |
| `VerifyOtp.Join` | app/auth/verify-otp.tsx:51 | with slots of at most one character the joined code is no longer than the buffer; with every slot filled it is at least as long |
| `VerifyOtp.TicksClosedForm` | app/auth/verify-otp.tsx:25-31 | after n ticks from c >= 0 the countdown is c - n, floored at 0; it never goes negative |
| `VerifyOtp.ResendUnlocksAfterDelay` | app/auth/verify-otp.tsx:25-31 | from the initial 60 the countdown reaches 0, and resending is allowed, exactly from the 60th tick on |
| `VerifyOtp.JoinLength` | app/auth/verify-otp.tsx:51-52 | with slots of at most one character, the joined code is never longer than the buffer, and is as long as it iff every slot is filled |
| `VerifyOtp.CompleteCodeIffAllFilled` | app/auth/verify-otp.tsx:51-55 | with one-character slots, the length-6 guard passes iff all six slots are non-empty |
| `VerifyOtp.GuardReliesOnSingleChars` | app/auth/verify-otp.tsx:51-55 | without the one-character limit, a code with an empty slot can pass the guard |
| `VerifyOtp.ClearedBufferRefusesVerify` | app/auth/verify-otp.tsx:76-77 | after the buffer is cleared the joined code is empty and verifying only raises the incomplete-code alert |
| `VerifyOtp.AdvanceFocus` | app/auth/verify-otp.tsx:38-41 | focus moves, to slot index+1 (always a real slot), iff the typed value is non-empty and index < 5 |
| `VerifyOtp.RetreatFocus` | app/auth/verify-otp.tsx:44-48 | focus moves, to slot index-1, iff the key is Backspace, the slot is empty and index > 0 |
| `VerifyOtp.VerifyEvents` | app/auth/verify-otp.tsx:50-66 | `verifyOTP` is called with the email and joined code, while loading, iff the code has 6 characters; otherwise only the incomplete-code alert; only success navigates, to the tabs; after the call, an error reply gives exactly the "Verification Failed" alert with its message, and success exactly the replace to the tabs |
| `VerifyOtp.ResendEvents` | app/auth/verify-otp.tsx:68-79 | nothing happens while the countdown is positive; otherwise `sendOTP` is called once and is followed by exactly the "Error" alert with the reply's message, or the "Success" alert on success; resending never navigates |
| `VerifyOtp.VerifyOtpScreen.constructor` | app/auth/verify-otp.tsx:15-17 | the buffer starts as six empty slots, the countdown at 60, not loading |
| `VerifyOtp.VerifyOtpScreen.Tick` | app/auth/verify-otp.tsx:26-28 | the countdown goes from c to c-1 when c > 0 and stays 0 otherwise, remaining within [0, 60] |
| `VerifyOtp.VerifyOtpScreen.HandleOtpChange` | app/auth/verify-otp.tsx:33-42 | slot `index` becomes `value`, the buffer keeps six slots, the other slots are unchanged, one-character slots stay so, and the focus move is emitted |
| `VerifyOtp.VerifyOtpScreen.HandleKeyPress` | app/auth/verify-otp.tsx:44-48 | the backward focus move, judged on the slot's current content, is emitted |
| `VerifyOtp.VerifyOtpScreen.HandleVerifyOtp` | app/auth/verify-otp.tsx:50-66 | the trace grows by the verify effects; `isLoading` is false after a call is made |
| `VerifyOtp.VerifyOtpScreen.HandleResendOtp` | app/auth/verify-otp.tsx:68-79 | a no-op while the countdown runs; on success the countdown returns to 60 and the buffer is cleared; on error neither changes |
| `Login.PasswordLoginEvents` | app/auth/login.tsx:29-44 | `signIn` is called, while loading, iff email and password are non-empty; otherwise only the fill-in alert; only success navigates, to the tabs; after the call, an error reply gives exactly the "Login Failed" alert with its message, and success exactly the replace to the tabs |
| `Login.OtpLoginEvents` | app/auth/login.tsx:46-61 | `sendOTP` is called, while loading, iff the email is non-empty; otherwise only the enter-email alert; only success navigates, pushing the code screen with the same email; after the call, an error reply gives exactly the "Error" alert with its message |
| `Login.LoginScreen.constructor` | app/auth/login.tsx:19-23 | empty fields, not loading, method `password` |
| `Login.LoginScreen.SetEmail` | app/auth/login.tsx:121 | the email field takes the typed value |
| `Login.LoginScreen.SetPassword` | app/auth/login.tsx:135 | the password field takes the typed value |
| `Login.LoginScreen.ChoosePassword` | app/auth/login.tsx:85 | the method becomes `password` whatever it was, so a second press changes nothing |
| `Login.LoginScreen.ChooseOtp` | app/auth/login.tsx:101 | the method becomes `otp` whatever it was, so a second press changes nothing |
| `Login.LoginScreen.HandlePasswordLogin` | app/auth/login.tsx:29-44 | the trace grows by the password-login effects; `isLoading` is false after a call is made |
| `Login.LoginScreen.HandleOtpLogin` | app/auth/login.tsx:46-61 | the trace grows by the OTP-login effects; `isLoading` is false after a call is made |
| `Login.LoginScreen.PressLoginButton` | app/auth/login.tsx:150 | the password handler's effects are emitted iff the method is `password`, the OTP handler's otherwise; `isLoading` ends false when the chosen handler made its call and is untouched when its guard stopped it |
| `ForgotPassword.SendCodeEvents` | app/auth/forgot-password.tsx:23-50 | `sendOTP` is called, while loading, iff the email is non-empty; an error reply gives exactly the "Error" alert with its message and no navigation; success shows an alert whose OK opens the code screen with the same email, and nothing navigates before that press |
| `ForgotPassword.ForgotPasswordScreen.constructor` | app/auth/forgot-password.tsx:16-17 | empty email, not loading |
| `ForgotPassword.ForgotPasswordScreen.SetEmail` | app/auth/forgot-password.tsx:71 | the email field takes the typed value |
| `ForgotPassword.ForgotPasswordScreen.HandleSendOtp` | app/auth/forgot-password.tsx:23-50 | the trace grows by the send-code effects; `isLoading` is false after a call is made |

## Left out

- The tab screens (`app/(tabs)/`) lie outside the authentication core modelled here. They hold the dashboard statistics (counts by status, total paid amount, today's revenue), the case-insensitive payment search, the creation of pending payment requests with a 24-hour expiry, and the employee, transaction and settings screens.
- contexts/AuthContext.tsx and lib/supabase.ts are not part of this model. `signUp`, `signIn`, `sendOTP` and `verifyOTP` are decided by the identity provider, so each handler takes the reply as a `Reply` parameter. The reply is only consulted when the call is made.
- Interleaving during an awaited call: each handler runs to completion in one step. As a result, `disabled={isLoading}` on the buttons, and the closure capturing `email` at press time, make no observable difference in the model.
- `disabled={countdown > 0}` on the resend button is not modelled; the handler's own guard, which is modelled, has the same effect.
- Real time: the one-second interval is an explicit `Tick` step, and clearing the interval on unmount is not modelled.
- The user's press of an alert's OK button is not modelled; the alert records the navigation that button performs.
- The focus state the operating system keeps (taps on a slot) is not modelled; only the focus requests the handlers make are recorded.
- Rendering, styles, theming, the show/hide password toggles, keyboard avoidance, and the "Back to Login" / "Forgot Password?" / sign-up links.
- Lengths: `|s|` counts Unicode scalar values. JavaScript's `.length` counts UTF-16 code units, so a character outside the Basic Multilingual Plane counts twice there. This affects the 8-character check and the 6-character code guard.
- Signup.SignupScreen.UpdateFormData: the key is one of the six form fields, which are the only keys the screen passes. An arbitrary string key would add a new property, and that case is not modelled.
- VerifyOtp.VerifyOtpScreen.HandleOtpChange: requires an index below 6, the only indices the rendered inputs pass. Writing past the end of a JavaScript array would extend it, and that case is not modelled.
- VerifyOtp.VerifyOtpScreen.constructor: takes the `email` route parameter as a string; the case where the parameter is missing (`undefined`) is not modelled.
