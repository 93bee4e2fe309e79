/** The session view-model: one `AuthState` value, reassigned by the intents
    Login, Register, Logout and ClearError.

    Login and Register run in a coroutine: its first assignment (the begin
    phase: loading, no error) happens when the intent is dispatched, and the
    rest (the completion) after a fixed delay. The model keeps the coroutines
    that have been launched and not yet resumed in `inFlight`; `Resume` runs
    the completion of any one of them, so no order between overlapping
    operations is assumed. The random part of a user id is a parameter. */
module Auth {
  import opened KotlinText
  import opened AuthData

  const DemoEmail: string := "test@demo.com"
  const DemoPassword: string := "123456"
  const DummyEmail: string := "demo"
  const DummyPassword: string := "pass"

  const DemoUserName: string := "John Doe"
  const DummyUserName: string := "Demo User"
  const LoginFailureMessage: string :=
    "Invalid email or password. Try " + DummyEmail + " / " + DummyPassword
  const UserIdPrefix: string := "user_"

  /** The credential pairs a login accepts, compared case-sensitively. */
  const AcceptedCredentials: set<(string, string)> :=
    {(DemoEmail, DemoPassword), (DummyEmail, DummyPassword)}

  /** `"user_${UUID.randomUUID()}"` with the random part passed in: the id
      starts with the fixed prefix and the random part can be read back. */
  function UserId(suffix: string): (id: string)
    ensures |id| == |UserIdPrefix| + |suffix|
    ensures id[..|UserIdPrefix|] == UserIdPrefix && id[|UserIdPrefix|..] == suffix
  {
    UserIdPrefix + suffix
  }

  /** What every reachable state satisfies: an authenticated session has a
      user and no error. The converse does not hold (StaleUserAfterFailedLogin). */
  ghost predicate Consistent(s: AuthState) {
    s.isAuthenticated ==> s.user.Some? && s.errorMessage == ""
  }

  /** The begin phase of Login and Register: the session is loading and shows
      no error; who is signed in does not change. */
  function Loading(s: AuthState): (t: AuthState)
    ensures t.isLoading && t.errorMessage == ""
    ensures t.user == s.user && t.isAuthenticated == s.isAuthenticated
    ensures Consistent(s) ==> Consistent(t)
  {
    s.(isLoading := true, errorMessage := "")
  }

  /** ClearError: the error goes away and nothing else changes. */
  function ErrorCleared(s: AuthState): (t: AuthState)
    ensures t.errorMessage == ""
    ensures t.isLoading == s.isLoading && t.user == s.user && t.isAuthenticated == s.isAuthenticated
    ensures Consistent(s) ==> Consistent(t)
  {
    s.(errorMessage := "")
  }

  /** The user a successful login creates: a fresh id, the email it logged in
      with, "John Doe" for the demo account and "Demo User" for the other;
      every other field keeps its default. */
  function LoginUser(email: string, idSuffix: string): (u: User)
    ensures u.id == UserId(idSuffix) && u.email == email
    ensures u.name == if email == DemoEmail then DemoUserName else DummyUserName
    ensures u.(id := "", email := "", name := "") == DefaultUser
  {
    DefaultUser.(
      id := UserId(idSuffix),
      email := email,
      name := if email == DemoEmail then DemoUserName else DummyUserName)
  }

  /** The completion of Login: authenticated exactly for an accepted credential
      pair; a rejected login shows the hint and keeps whatever user was there. */
  function LoginCompleted(s: AuthState, email: string, password: string, idSuffix: string): (t: AuthState)
    ensures !t.isLoading
    ensures t.isAuthenticated <==> (email, password) in AcceptedCredentials
    ensures t.isAuthenticated ==> t.user == Some(LoginUser(email, idSuffix)) && t.errorMessage == ""
    ensures !t.isAuthenticated ==> t.user == s.user && t.errorMessage == LoginFailureMessage
    ensures Consistent(t)
  {
    if (email == DemoEmail && password == DemoPassword)
      || (email == DummyEmail && password == DummyPassword)
    then
      s.(isLoading := false, user := Some(LoginUser(email, idSuffix)),
         isAuthenticated := true, errorMessage := "")
    else
      s.(isLoading := false, errorMessage := LoginFailureMessage, isAuthenticated := false)
  }

  /** The user a Register event creates: every profile field comes from the
      event, the password is dropped, the profile image stays empty. */
  function RegisteredUser(e: AuthEvent, idSuffix: string): (u: User)
    requires e.Register?
    ensures u.id == UserId(idSuffix) && u.email == e.email && u.name == e.name
    ensures u.phoneNumber == e.phoneNumber && u.address == e.address && u.aadharNumber == e.aadharNumber
    ensures u.emergencyContact == e.emergencyContact && u.guardian == e.guardian
    ensures u.profileImage == ""
  {
    User(UserId(idSuffix), e.email, e.name, "", e.phoneNumber, e.address,
         e.aadharNumber, e.emergencyContact, e.guardian)
  }

  /** The completion of Register, which cannot fail. */
  function RegisterCompleted(s: AuthState, e: AuthEvent, idSuffix: string): (t: AuthState)
    requires e.Register?
    ensures !t.isLoading && t.isAuthenticated && t.errorMessage == ""
    ensures t.user == Some(RegisteredUser(e, idSuffix))
    ensures Consistent(t)
  {
    s.(isLoading := false, user := Some(RegisteredUser(e, idSuffix)),
       isAuthenticated := true, errorMessage := "")
  }

  /** The intents that launch a coroutine. */
  predicate Launches(e: AuthEvent) {
    e.Login? || e.Register?
  }

  /** The synchronous effect of `onEvent`: Login and Register start loading
      and clear the error without touching who is signed in, Logout resets
      the session, ClearError removes the error only. */
  function Dispatched(s: AuthState, e: AuthEvent): (t: AuthState)
    ensures Launches(e) ==>
      t.isLoading && t.errorMessage == "" && t.user == s.user && t.isAuthenticated == s.isAuthenticated
    ensures e.Logout? ==> t == AuthState(false, None, "", false)
    ensures e.ClearError? ==>
      t.errorMessage == "" && t.isLoading == s.isLoading && t.user == s.user
      && t.isAuthenticated == s.isAuthenticated
  {
    match e
    case Login(_, _) => Loading(s)
    case Register(_, _, _, _, _, _, _, _) => Loading(s)
    case Logout => DefaultAuthState
    case ClearError => ErrorCleared(s)
  }

  /** The effect of a launched coroutine once its delay has elapsed: loading
      ends; a registration always succeeds and a login succeeds exactly for an
      accepted credential pair, with a fresh user carrying the event's email;
      a failed login keeps the previous user and shows the hint. */
  function Completed(s: AuthState, e: AuthEvent, idSuffix: string): (t: AuthState)
    requires Launches(e)
    ensures !t.isLoading
    ensures t.isAuthenticated <==> e.Register? || (e.email, e.password) in AcceptedCredentials
    ensures t.isAuthenticated ==>
      t.errorMessage == "" && t.user.Some? && t.user.value.id == UserId(idSuffix)
      && t.user.value.email == e.email
    ensures !t.isAuthenticated ==> t.user == s.user && t.errorMessage == LoginFailureMessage
  {
    if e.Login? then LoginCompleted(s, e.email, e.password, idSuffix)
    else RegisterCompleted(s, e, idSuffix)
  }

  /** `registerUser`: the contact and guardian names and phones are packed
      into their records; the other arguments go into the event unchanged. */
  function RegisterRequest(
    email: string, password: string, name: string, phoneNumber: string,
    address: string, aadharNumber: string,
    emergencyContactName: string, emergencyContactPhone: string,
    guardianName: string, guardianPhone: string): (e: AuthEvent)
    ensures e.Register? && e.email == email && e.password == password && e.name == name
    ensures e.phoneNumber == phoneNumber && e.address == address && e.aadharNumber == aadharNumber
    ensures e.emergencyContact.name == emergencyContactName
    ensures e.emergencyContact.phoneNumber == emergencyContactPhone
    ensures e.guardian.name == guardianName && e.guardian.phoneNumber == guardianPhone
  {
    Register(email, password, name, phoneNumber, address, aadharNumber,
             EmergencyContact(emergencyContactName, emergencyContactPhone),
             Guardian(guardianName, guardianPhone))
  }

  /** Every transition keeps the session consistent. */
  lemma TransitionsKeepConsistent(s: AuthState, e: AuthEvent, idSuffix: string)
    requires Consistent(s)
    ensures Consistent(Dispatched(s, e))
    ensures Launches(e) ==> Consistent(Completed(s, e, idSuffix))
  {
  }

  /** Logout yields the default session whatever came before, so it forgets
      the user and anything in flight has to start again from scratch. */
  lemma LogoutForgets(s: AuthState, s': AuthState)
    ensures Dispatched(s, Logout) == Dispatched(s', Logout)
    ensures var t := Dispatched(s, Logout);
      !t.isLoading && t.user == None && t.errorMessage == "" && !t.isAuthenticated
  {
  }

  /** ClearError twice is ClearError once. */
  lemma ClearErrorIdempotent(s: AuthState)
    ensures Dispatched(Dispatched(s, ClearError), ClearError) == Dispatched(s, ClearError)
  {
  }

  /** A rejected login after a successful one, followed by ClearError, leaves
      a session that has a user and no error and yet is not authenticated: an
      authenticated flag cannot be read off the user and the error alone. */
  lemma StaleUserAfterFailedLogin(s: AuthState, email: string, password: string, idSuffix: string)
    requires s.isAuthenticated && Consistent(s)
    requires (email, password) !in AcceptedCredentials
    ensures var t := Dispatched(Completed(Dispatched(s, Login(email, password)), Login(email, password), idSuffix), ClearError);
      t.user == s.user && t.user.Some? && t.errorMessage == "" && !t.isAuthenticated
  {
  }

  /** Signing in with the demo account authenticates as "John Doe". */
  lemma DemoLoginScenario(s: AuthState, idSuffix: string)
    ensures var e := Login("test@demo.com", "123456");
      var t := Completed(Dispatched(s, e), e, idSuffix);
      t.isAuthenticated && t.errorMessage == "" && !t.isLoading
      && t.user.Some? && t.user.value.name == "John Doe" && t.user.value.email == "test@demo.com"
  {
  }

  /** Wrong credentials are rejected with the hint naming the dummy account,
      and the comparison is case-sensitive. */
  lemma WrongLoginScenario(s: AuthState, idSuffix: string)
    ensures var t := LoginCompleted(s, "wrong@x.com", "bad", idSuffix);
      !t.isAuthenticated && t.user == s.user
      && t.errorMessage == "Invalid email or password. Try demo / pass"
    ensures !LoginCompleted(s, "TEST@demo.com", "123456", idSuffix).isAuthenticated
    ensures !LoginCompleted(s, "demo", "Pass", idSuffix).isAuthenticated
  {
  }

  /** Registering through `registerUser` yields a user holding every
      argument except the password. */
  lemma RegisterUserRoundTrip(
    s: AuthState, email: string, password: string, name: string, phoneNumber: string,
    address: string, aadharNumber: string,
    emergencyContactName: string, emergencyContactPhone: string,
    guardianName: string, guardianPhone: string, idSuffix: string)
    ensures var e := RegisterRequest(email, password, name, phoneNumber, address, aadharNumber,
                                     emergencyContactName, emergencyContactPhone, guardianName, guardianPhone);
      var t := Completed(Dispatched(s, e), e, idSuffix);
      t.isAuthenticated && t.user == Some(User(UserId(idSuffix), email, name, "", phoneNumber, address, aadharNumber,
        EmergencyContact(emergencyContactName, emergencyContactPhone), Guardian(guardianName, guardianPhone)))
  {
  }

  class AuthViewModel {
    var state: AuthState
    /** Login and Register coroutines launched and not yet resumed. */
    var inFlight: seq<AuthEvent>

    ghost predicate Valid()
      reads this
    {
      && Consistent(state)
      && (state.isLoading ==> inFlight != [])
      && forall e :: e in inFlight ==> Launches(e)
    }

    constructor ()
      ensures Valid()
      ensures state == DefaultAuthState && inFlight == []
    {
      state := DefaultAuthState;
      inFlight := [];
    }

    /** `onEvent`: every variant of the event is handled. */
    method OnEvent(event: AuthEvent)
      requires Valid()
      modifies this
      ensures Valid()
      ensures state == Dispatched(old(state), event)
      ensures inFlight == old(inFlight) + if Launches(event) then [event] else []
    {
      match event
      case Login(email, password) =>
        BeginLogin(email, password);
      case Register(_, _, _, _, _, _, _, _) =>
        BeginRegister(event);
      case Logout =>
        LogOut();
      case ClearError =>
        state := state.(errorMessage := "");
    }

    /** `login`: launch the coroutine and run its begin phase. */
    method BeginLogin(email: string, password: string)
      requires Valid()
      modifies this
      ensures Valid()
      ensures state == Loading(old(state))
      ensures inFlight == old(inFlight) + [Login(email, password)]
    {
      inFlight := inFlight + [Login(email, password)];
      state := state.(isLoading := true, errorMessage := "");
    }

    /** `register`: launch the coroutine and run its begin phase. */
    method BeginRegister(event: AuthEvent)
      requires Valid() && event.Register?
      modifies this
      ensures Valid()
      ensures state == Loading(old(state))
      ensures inFlight == old(inFlight) + [event]
    {
      inFlight := inFlight + [event];
      state := state.(isLoading := true, errorMessage := "");
    }

    /** `logout`: back to the default session. Coroutines already launched
        still complete later. */
    method LogOut()
      requires Valid()
      modifies this`state
      ensures Valid()
      ensures state == DefaultAuthState
    {
      state := AuthState(false, None, "", false);
    }

    /** `resetAuthState`: the same reset as Logout. */
    method ResetAuthState()
      requires Valid()
      modifies this`state
      ensures Valid()
      ensures state == DefaultAuthState
    {
      state := AuthState(false, None, "", false);
    }

    /** The delay of the `i`-th launched coroutine has elapsed: run the rest
        of its body. `idSuffix` stands for the random UUID. */
    method Resume(i: nat, idSuffix: string)
      requires Valid() && i < |inFlight|
      modifies this
      ensures Valid()
      ensures state == Completed(old(state), old(inFlight[i]), idSuffix)
      ensures inFlight == old(inFlight[..i] + inFlight[i + 1..])
    {
      var event := inFlight[i];
      assert event in inFlight;
      inFlight := inFlight[..i] + inFlight[i + 1..];
      forall e | e in inFlight ensures Launches(e) {
        assert e in old(inFlight);
      }
      if event.Login? {
        var email, password := event.email, event.password;
        if (email == DemoEmail && password == DemoPassword)
          || (email == DummyEmail && password == DummyPassword)
        {
          var user := DefaultUser.(
            id := UserId(idSuffix),
            email := email,
            name := if email == DemoEmail then DemoUserName else DummyUserName);
          state := state.(isLoading := false, user := Some(user),
                          isAuthenticated := true, errorMessage := "");
        } else {
          state := state.(isLoading := false, errorMessage := LoginFailureMessage,
                          isAuthenticated := false);
        }
      } else {
        var newUser := User(UserId(idSuffix), event.email, event.name, "",
                            event.phoneNumber, event.address, event.aadharNumber,
                            event.emergencyContact, event.guardian);
        state := state.(isLoading := false, user := Some(newUser),
                        isAuthenticated := true, errorMessage := "");
      }
    }

    /** `registerUser`: dispatch exactly one Register event built from the
        arguments. */
    method RegisterUser(
      email: string, password: string, name: string, phoneNumber: string,
      address: string, aadharNumber: string,
      emergencyContactName: string, emergencyContactPhone: string,
      guardianName: string, guardianPhone: string)
      requires Valid()
      modifies this
      ensures Valid()
      ensures state == Loading(old(state))
      ensures inFlight == old(inFlight) + [RegisterRequest(email, password, name, phoneNumber,
        address, aadharNumber, emergencyContactName, emergencyContactPhone, guardianName, guardianPhone)]
    {
      var event := Register(email, password, name, phoneNumber, address, aadharNumber,
                            EmergencyContact(emergencyContactName, emergencyContactPhone),
                            Guardian(guardianName, guardianPhone));
      OnEvent(event);
    }
  }
}
