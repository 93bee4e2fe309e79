# Livinn's Hub Stay: session, sign-up and profile wizard

This project models the three pieces of sequential logic in the Livinn's Hub
Stay Android app and proves properties about them:

- **The session view-model** (`AuthViewModel`). It holds one `AuthState`
  value. The intents Login, Register, Logout and ClearError reassign it.
  Login and Register run in a coroutine. The begin phase (loading, no error)
  runs when the intent is dispatched. The completion runs after a delay.
  The class `Auth.AuthViewModel` keeps the launched, unfinished coroutines
  in `inFlight`. `Resume` runs the completion of any one of them, so no
  order between overlapping operations is assumed. The pure functions
  `Loading`, `ErrorCleared`, `LoginCompleted`, `RegisterCompleted`,
  `Dispatched` and `Completed` describe each transition. The lemmas
  relate them.
- **The records** of `data/User.kt`, in the extended shape the view-model
  builds: `User` with phone, address, Aadhar, emergency contact and
  guardian, and `AuthEvent` with `Register`. A Kotlin `copy(...)` is
  Dafny's datatype update, which keeps every field it does not name.
- **The sign-up screen.** `SignUp.SignUpForm.SignUp` runs the ordered
  chain of checks. It forwards `(email, password)` as typed. `Email`
  models `isValidEmail` by hand. `IsValidEmail` is a scan. The ghost
  predicate `MatchesEmailPattern` reads the regular expression as
  "some `@` and some `.` split the string into the three parts". The
  contract of `IsValidEmail` says that the two agree on every string.
- **The profile wizard.** `UserDetails.UserDetailsForm` holds the
  screen's remembered variables. Its methods are the field edits (with
  the digit filters), `Previous` and `Next`. A field can be edited only
  while its step is shown, so the steps before the current one stay
  complete. `Next` on step 3 calls `registerUser` on the view-model and
  asks for the home screen.
- **The login button.** It trims the email before it dispatches. The
  password is not trimmed.

A Kotlin `when { … }` validation chain is modelled once, in `Checks`. It
is a sequence of checks, and the first failing check decides the message.
Kotlin's `isWhitespace`, `isBlank` and `trim` are modelled in `KotlinText`.

The random part of a user id (`UUID.randomUUID()`) is a parameter
(`idSuffix`). Navigation callbacks are return values: `proceed` for the
sign-up screen and `navigateHome` for the wizard.

Two behaviours of the code are worth stating:

- One might expect a session to be authenticated exactly when it has a
  user and no error. The code guarantees only one direction. A failed
  login (AuthViewModel.kt:77-81) clears the flag but keeps the previous
  user. `Auth.Consistent` (authenticated ⇒ user present and no error) is
  part of `AuthViewModel.Valid()`. `StaleUserAfterFailedLogin` shows a
  reachable state that has a user and no error but is not authenticated:
  a failed login after a successful one, then ClearError.
- On step 3, a successful Submit neither clears the wizard's error nor
  changes the step. `Next` says so.

## Model

| member | source | states |
|---|---|---|
| KotlinText.Trim | app/src/main/java/com/example/livinnshubstay/ui/screens/LoginScreen.kt:177 | the trimmed email is the infix of the input between a blank prefix and a blank suffix; it is empty iff the input is blank; it neither starts nor ends with whitespace |
| KotlinText.TrimPadded | app/src/main/java/com/example/livinnshubstay/ui/screens/LoginScreen.kt:177 | trimming removes exactly the whitespace around a word: `Trim(w1 + core + w2) == core` for blank `w1`, `w2` |
| KotlinText.TrimIdempotent | app/src/main/java/com/example/livinnshubstay/ui/screens/LoginScreen.kt:177 | trimming an already trimmed email changes nothing |
| Checks.FirstFailure | app/src/main/java/com/example/livinnshubstay/ui/screens/SignUpScreen.kt:204-222 | a `when` chain stops at the first failing branch: every earlier check holds and the one found fails |
| Checks.Verdict | app/src/main/java/com/example/livinnshubstay/ui/screens/SignUpScreen.kt:204-222 | no message iff every check holds; otherwise the message of a failing check that all earlier checks pass |
| Checks.FailureDecides | app/src/main/java/com/example/livinnshubstay/ui/screens/UserDetailsScreen.kt:316-330 | a failing check after only passing checks decides the message, whatever follows it |
| Auth.UserId | app/src/main/java/com/example/livinnshubstay/viewmodel/AuthViewModel.kt:63 | every generated id starts with "user_", and the random part can be read back |
| Auth.Loading | app/src/main/java/com/example/livinnshubstay/viewmodel/AuthViewModel.kt:49-52 | the begin phase of Login/Register sets loading, clears the error, keeps the user and the authenticated flag, and keeps the session consistent |
| Auth.ErrorCleared | app/src/main/java/com/example/livinnshubstay/viewmodel/AuthViewModel.kt:41-43 | ClearError empties the error and leaves loading, user and authenticated unchanged |
| Auth.LoginUser | app/src/main/java/com/example/livinnshubstay/viewmodel/AuthViewModel.kt:62-67 | a login user has the fresh id and the login email; the name is "John Doe" for the demo email, otherwise "Demo User"; every other field has its default |
| Auth.LoginCompleted | app/src/main/java/com/example/livinnshubstay/viewmodel/AuthViewModel.kt:58-82 | not loading afterwards; authenticated iff the pair is one of the two accepted credential pairs; success stores the login user with no error; failure keeps the previous user and shows the hint |
| Auth.RegisteredUser | app/src/main/java/com/example/livinnshubstay/viewmodel/AuthViewModel.kt:97-106 | the registered user takes every profile field from the event; the password is dropped and the profile image is empty |
| Auth.RegisterCompleted | app/src/main/java/com/example/livinnshubstay/viewmodel/AuthViewModel.kt:110-115 | registration always succeeds: not loading, authenticated, no error, and the user built from the event |
| Auth.RegisterRequest | app/src/main/java/com/example/livinnshubstay/viewmodel/AuthViewModel.kt:140-155 | `registerUser` packs the contact name and phone into `EmergencyContact`, the guardian name and phone into `Guardian`, and passes the other arguments unchanged |
| Auth.Dispatched | app/src/main/java/com/example/livinnshubstay/viewmodel/AuthViewModel.kt:30-52 | the synchronous part of `onEvent`: Login and Register start loading and clear the error without changing the user or the flag; Logout yields `AuthState()`; ClearError changes only the error |
| Auth.Completed | app/src/main/java/com/example/livinnshubstay/viewmodel/AuthViewModel.kt:54-116 | a coroutine's continuation ends loading; it authenticates iff the event is a Register or an accepted credential pair, then with no error and a user carrying the event's email and a fresh id; otherwise it keeps the user and shows the hint |
| Auth.TransitionsKeepConsistent | app/src/main/java/com/example/livinnshubstay/viewmodel/AuthViewModel.kt:30-125 | every dispatch and every completion keeps "authenticated ⇒ user present and no error" |
| Auth.LogoutForgets | app/src/main/java/com/example/livinnshubstay/viewmodel/AuthViewModel.kt:119-121 | Logout gives the same state from any two prior states: not loading, no user, no error, not authenticated |
| Auth.ClearErrorIdempotent | app/src/main/java/com/example/livinnshubstay/viewmodel/AuthViewModel.kt:41-43 | ClearError twice is ClearError once |
| Auth.StaleUserAfterFailedLogin | app/src/main/java/com/example/livinnshubstay/viewmodel/AuthViewModel.kt:75-81 | after a successful session, a rejected login and then ClearError leave the old user and no error, yet the session is not authenticated |
| Auth.DemoLoginScenario | app/src/main/java/com/example/livinnshubstay/viewmodel/AuthViewModel.kt:58-74 | dispatching and completing Login("test@demo.com", "123456") authenticates as "John Doe" with that email |
| Auth.WrongLoginScenario | app/src/main/java/com/example/livinnshubstay/viewmodel/AuthViewModel.kt:75-81 | wrong credentials leave the user, clear the authenticated flag and show "Invalid email or password. Try demo / pass"; the comparison is case-sensitive |
| Auth.RegisterUserRoundTrip | app/src/main/java/com/example/livinnshubstay/viewmodel/AuthViewModel.kt:128-158 | registering through `registerUser` ends with a user that holds every argument except the password |
| Auth.AuthViewModel.constructor | app/src/main/java/com/example/livinnshubstay/viewmodel/AuthViewModel.kt:19 | the view-model starts from the default state, with nothing in flight |
| Auth.AuthViewModel.OnEvent | app/src/main/java/com/example/livinnshubstay/viewmodel/AuthViewModel.kt:30-45 | every event is handled: Login and Register start loading and launch exactly one coroutine, Logout resets, ClearError clears the error; the invariant is kept |
| Auth.AuthViewModel.BeginLogin | app/src/main/java/com/example/livinnshubstay/viewmodel/AuthViewModel.kt:47-52 | `login` launches one Login coroutine and runs its begin phase |
| Auth.AuthViewModel.BeginRegister | app/src/main/java/com/example/livinnshubstay/viewmodel/AuthViewModel.kt:86-91 | `register` launches one Register coroutine and runs its begin phase |
| Auth.AuthViewModel.LogOut | app/src/main/java/com/example/livinnshubstay/viewmodel/AuthViewModel.kt:119-121 | `logout` replaces the state with the default; launched coroutines stay in flight |
| Auth.AuthViewModel.ResetAuthState | app/src/main/java/com/example/livinnshubstay/viewmodel/AuthViewModel.kt:123-125 | `resetAuthState` replaces the state with the default |
| Auth.AuthViewModel.Resume | app/src/main/java/com/example/livinnshubstay/viewmodel/AuthViewModel.kt:54-116 | the continuation of one launched coroutine applies its completion to the current state and removes it from the in-flight list; loading implies something is in flight |
| Auth.AuthViewModel.RegisterUser | app/src/main/java/com/example/livinnshubstay/viewmodel/AuthViewModel.kt:128-158 | `registerUser` dispatches exactly one Register event built by `RegisterRequest` |
| Email.ScanDecidesPattern | app/src/main/java/com/example/livinnshubstay/ui/screens/SignUpScreen.kt:260 | a full match exists iff the last `.` and the first `@` before it split the string into a local part, a domain part and a 2-to-6-letter top-level part |
| Email.IsValidEmail | app/src/main/java/com/example/livinnshubstay/ui/screens/SignUpScreen.kt:259-262 | `isValidEmail` holds iff the string is `[A-Za-z0-9._%+-]+`, `@`, `[A-Za-z0-9.-]+`, `.`, then 2 to 6 ASCII letters, matched in full |
| Email.ValidEmailHasOneAt | app/src/main/java/com/example/livinnshubstay/ui/screens/SignUpScreen.kt:260 | a valid address contains exactly one `@` |
| Email.NoAtRejected | app/src/main/java/com/example/livinnshubstay/ui/screens/SignUpScreen.kt:260 | a string without `@` is rejected |
| Email.BadTopLevelRejected | app/src/main/java/com/example/livinnshubstay/ui/screens/SignUpScreen.kt:260 | a string with no `.`, or whose text after the last `.` is shorter than 2 or longer than 6 characters, is rejected |
| Email.DemoEmailIsValid | app/src/main/java/com/example/livinnshubstay/ui/screens/SignUpScreen.kt:259-262 | "test@demo.com" is valid |
| Email.InvalidEmailExamples | app/src/main/java/com/example/livinnshubstay/ui/screens/SignUpScreen.kt:259-262 | "demo" is not valid, and neither is an address with a leading space (no trimming) |
| SignUp.SignUpChecks | app/src/main/java/com/example/livinnshubstay/ui/screens/SignUpScreen.kt:204-216 | the four branches of the `when` block all pass iff the form is acceptable |
| SignUp.SignUpError | app/src/main/java/com/example/livinnshubstay/ui/screens/SignUpScreen.kt:204-222 | the sign-up error is absent iff the name is not blank, the email is valid, the password has at least 6 characters and equals the confirmation |
| SignUp.SignUpCheckOrder | app/src/main/java/com/example/livinnshubstay/ui/screens/SignUpScreen.kt:204-216 | the checks run in the order name, email, password length, confirmation, and the first failure's message is shown |
| SignUp.SixCharacterPasswordAccepted | app/src/main/java/com/example/livinnshubstay/ui/screens/SignUpScreen.kt:211 | a password of exactly 6 characters passes the length check |
| SignUp.SignUpForm.constructor | app/src/main/java/com/example/livinnshubstay/ui/screens/SignUpScreen.kt:64-69 | the form starts with empty fields and no error |
| SignUp.SignUpForm.EditFullName | app/src/main/java/com/example/livinnshubstay/ui/screens/SignUpScreen.kt:151 | the name field takes input as typed |
| SignUp.SignUpForm.EditEmail | app/src/main/java/com/example/livinnshubstay/ui/screens/SignUpScreen.kt:160 | the email field takes input as typed |
| SignUp.SignUpForm.EditPassword | app/src/main/java/com/example/livinnshubstay/ui/screens/SignUpScreen.kt:169 | the password field takes input as typed |
| SignUp.SignUpForm.EditConfirmPassword | app/src/main/java/com/example/livinnshubstay/ui/screens/SignUpScreen.kt:180 | the confirmation field takes input as typed |
| SignUp.SignUpForm.SignUp | app/src/main/java/com/example/livinnshubstay/ui/screens/SignUpScreen.kt:202-222 | the button sets the error to the chain's verdict; when it passes, it forwards exactly `(email, password)` untrimmed and not the name |
| UserDetails.FilteredEdit | app/src/main/java/com/example/livinnshubstay/ui/screens/UserDetailsScreen.kt:180-184 | a digit field takes an edit iff the edit is all digits and short enough; otherwise it keeps its value, so it never leaves the filter's language |
| UserDetails.StepChecks | app/src/main/java/com/example/livinnshubstay/ui/screens/UserDetailsScreen.kt:313-376 | a step's `when` branches all pass iff the step is complete |
| UserDetails.Submission | app/src/main/java/com/example/livinnshubstay/ui/screens/UserDetailsScreen.kt:358-369 | the submitted event is a Register carrying the carried-in email and password, the name "New User" and all seven fields, with the contact and guardian packed into their records |
| UserDetails.StepError | app/src/main/java/com/example/livinnshubstay/ui/screens/UserDetailsScreen.kt:313-376 | a step shows no error iff all of its conditions hold |
| UserDetails.NextPress | app/src/main/java/com/example/livinnshubstay/ui/screens/UserDetailsScreen.kt:313-376 | Next rejects iff the step is incomplete, advances to the next step from steps 1 and 2, and submits iff step 3 is complete |
| UserDetails.Step1CheckOrder | app/src/main/java/com/example/livinnshubstay/ui/screens/UserDetailsScreen.kt:314-331 | step 1 checks phone length ≠ 10, then blank address, then Aadhar length ≠ 12; if all pass it moves to step 2 |
| UserDetails.Step2CheckOrder | app/src/main/java/com/example/livinnshubstay/ui/screens/UserDetailsScreen.kt:332-346 | step 2 checks a blank contact name, then contact phone length ≠ 10; if both pass it moves to step 3 |
| UserDetails.Step3CheckOrder | app/src/main/java/com/example/livinnshubstay/ui/screens/UserDetailsScreen.kt:347-375 | step 3 checks a blank guardian name, then guardian phone length ≠ 10; if both pass it submits |
| UserDetails.NextStaysInRange | app/src/main/java/com/example/livinnshubstay/ui/screens/UserDetailsScreen.kt:79-80 | Next never moves the step outside 1..3 |
| UserDetails.WizardSubmitsIffComplete | app/src/main/java/com/example/livinnshubstay/ui/screens/UserDetailsScreen.kt:312-376 | three presses of Next from step 1 reach submission iff every step's fields are complete |
| UserDetails.CompleteFieldsAreDigits | app/src/main/java/com/example/livinnshubstay/ui/screens/UserDetailsScreen.kt:181-183 | the filters and the length checks together make each accepted phone exactly 10 digits and the Aadhar number exactly 12 |
| UserDetails.SubmissionRegistersFields | app/src/main/java/com/example/livinnshubstay/ui/screens/UserDetailsScreen.kt:358-369 | the submitted registration ends with a user holding the carried-in email, the name "New User" and all seven collected fields |
| UserDetails.Step1Examples | app/src/main/java/com/example/livinnshubstay/ui/screens/UserDetailsScreen.kt:314-331 | a 5-digit phone is rejected on step 1; "1234567890", "X", "123456789012" move on to step 2 |
| UserDetails.UserDetailsForm.constructor | app/src/main/java/com/example/livinnshubstay/ui/screens/UserDetailsScreen.kt:69-80 | the wizard starts on step 1 with empty fields and no error |
| UserDetails.UserDetailsForm.EditPhoneNumber | app/src/main/java/com/example/livinnshubstay/ui/screens/UserDetailsScreen.kt:180-184 | on step 1, the phone field takes only edits of at most 10 digits; the earlier steps stay complete |
| UserDetails.UserDetailsForm.EditAddress | app/src/main/java/com/example/livinnshubstay/ui/screens/UserDetailsScreen.kt:193 | on step 1, the address field takes input as typed; the earlier steps stay complete |
| UserDetails.UserDetailsForm.EditAadharNumber | app/src/main/java/com/example/livinnshubstay/ui/screens/UserDetailsScreen.kt:202-206 | on step 1, the Aadhar field takes only edits of at most 12 digits; the earlier steps stay complete |
| UserDetails.UserDetailsForm.EditEmergencyContactName | app/src/main/java/com/example/livinnshubstay/ui/screens/UserDetailsScreen.kt:226 | on step 2, the contact name field takes input as typed; the earlier steps stay complete |
| UserDetails.UserDetailsForm.EditEmergencyContactPhone | app/src/main/java/com/example/livinnshubstay/ui/screens/UserDetailsScreen.kt:235-239 | on step 2, the contact phone field takes only edits of at most 10 digits; the earlier steps stay complete |
| UserDetails.UserDetailsForm.EditGuardianName | app/src/main/java/com/example/livinnshubstay/ui/screens/UserDetailsScreen.kt:259 | on step 3, the guardian name field takes input as typed; the earlier steps stay complete |
| UserDetails.UserDetailsForm.EditGuardianPhone | app/src/main/java/com/example/livinnshubstay/ui/screens/UserDetailsScreen.kt:268-272 | on step 3, the guardian phone field takes only edits of at most 10 digits; the earlier steps stay complete |
| UserDetails.UserDetailsForm.Previous | app/src/main/java/com/example/livinnshubstay/ui/screens/UserDetailsScreen.kt:298-306 | available only after step 1; clears the error, goes back one step and leaves every field unchanged |
| UserDetails.UserDetailsForm.Next | app/src/main/java/com/example/livinnshubstay/ui/screens/UserDetailsScreen.kt:310-376 | a rejection shows the message and stays; an advance clears the error and moves on; a submission happens only with every step complete, dispatches exactly one Register event with every field, requests home, and changes neither the step nor the error; fields never change |
| LoginScreen.LoginIntent | app/src/main/java/com/example/livinnshubstay/ui/screens/LoginScreen.kt:177 | the dispatched event is Login of the typed email trimmed (no surrounding whitespace, its own trim) and the password as typed |
| LoginScreen.PressLogin | app/src/main/java/com/example/livinnshubstay/ui/screens/LoginScreen.kt:175-178 | the button launches exactly one Login event with the trimmed email |
| LoginScreen.PaddedDemoEmailLogsIn | app/src/main/java/com/example/livinnshubstay/ui/screens/LoginScreen.kt:177 | whitespace typed around the demo email does not stop the demo login |
| LoginScreen.PaddedPasswordRejected | app/src/main/java/com/example/livinnshubstay/ui/screens/LoginScreen.kt:177 | anything typed after the demo password makes the login fail |

## Left out

- Coroutine timing (`delay(1500)`, `delay(2000)`) and `viewModelScope`. Completions may run in any order. The source's two delays partly fix that order, so the model allows more interleavings than the app can produce.
- The `StateFlow` observer mechanism. Only the current state value is modelled.
- `UUID.randomUUID()`. The random part of an id is a parameter.
- Navigation, layout, animations, the wizard's back arrow (`onNavigateBack`), the password-visibility toggle, the progress bar's float arithmetic, and the disabled login button while loading. These are presentation. The `NavigationItem` and `DashboardCard` types of `data/User.kt` are not used by the modelled logic.
- `Char.isDigit` in the phone and Aadhar filters accepts every Unicode decimal digit. The model accepts only `0`–`9`.
- SignUp.SignUpError: counts the password's length in characters, while Kotlin's `password.length` counts UTF-16 units. A password with characters outside the Basic Multilingual Plane is longer in Kotlin. Three emoji count as 6 units and pass the length check, but the model rejects them.
- SignUp.SignUpForm.SignUp: sets the error from `SignUpError`, so it has the same difference in how the password length is counted.
- The wizard's length checks on the phone and Aadhar fields are not affected. Kotlin's `isDigit` tests one UTF-16 unit, and a surrogate is never a digit, so these fields hold only Basic Multilingual Plane characters.
- UserDetails.UserDetailsForm.EditPhoneNumber and the other six `Edit` methods require the wizard to be on their field's step (UserDetailsScreen.kt:169, 215, 248). A step's fields stay composed while its exit animation runs, and the model does not capture an edit made in that short window.
- `data/User.kt` does not declare the extended `User` fields, `EmergencyContact`, `Guardian` or `AuthEvent.Register` that the view-model uses. The model gives them the shape the view-model constructs. For the defaults of a login user's contact and guardian, the model assumes records of empty strings.
- The regular-expression engine. `isValidEmail`'s pattern is written out by hand as character-class predicates.
