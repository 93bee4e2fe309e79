/** The Login button of the login screen: it dispatches a Login event with
    the typed email trimmed and the password as typed. */
module LoginScreen {
  import opened KotlinText
  import opened AuthData
  import opened Auth

  /** The event the button dispatches: the typed email trimmed, so it has no
      surrounding whitespace and trimming it again changes nothing; the
      password as typed. */
  function LoginIntent(email: string, password: string): (e: AuthEvent)
    ensures e == Login(Trim(email), password)
    ensures e.email == [] || (!IsWhitespace(e.email[0]) && !IsWhitespace(e.email[|e.email| - 1]))
    ensures Trim(e.email) == e.email
  {
    var trimmed := Trim(email);
    TrimIdempotent(email);
    Login(trimmed, password)
  }

  /** The button on the view-model: one Login event is launched. */
  method PressLogin(vm: AuthViewModel, email: string, password: string)
    requires vm.Valid()
    modifies vm
    ensures vm.Valid()
    ensures vm.state == Loading(old(vm.state))
    ensures vm.inFlight == old(vm.inFlight) + [LoginIntent(email, password)]
  {
    vm.OnEvent(Login(Trim(email), password));
  }

  /** Whitespace typed around the demo email does not stop the login. */
  lemma PaddedDemoEmailLogsIn(w1: string, w2: string, s: AuthState, idSuffix: string)
    requires IsBlank(w1) && IsBlank(w2)
    ensures var e := LoginIntent(w1 + DemoEmail + w2, DemoPassword);
      var t := Completed(Dispatched(s, e), e, idSuffix);
      t.isAuthenticated && t.user.Some? && t.user.value.email == DemoEmail
  {
    assert DemoEmail[0] == 't' && DemoEmail[|DemoEmail| - 1] == 'm';
    TrimPadded(w1, DemoEmail, w2);
  }

  /** The demo email has no surrounding whitespace. */
  lemma DemoEmailIsTrimmed()
    ensures Trim(DemoEmail) == DemoEmail
  {
    assert DemoEmail[0] == 't' && DemoEmail[|DemoEmail| - 1] == 'm';
    assert [] + DemoEmail + [] == DemoEmail;
    TrimPadded([], DemoEmail, []);
  }

  /** The password is not trimmed: anything typed after the demo password
      makes the login fail. */
  lemma PaddedPasswordRejected(w: string, s: AuthState, idSuffix: string)
    requires w != []
    ensures var e := LoginIntent(DemoEmail, DemoPassword + w);
      !Completed(Dispatched(s, e), e, idSuffix).isAuthenticated
  {
    DemoEmailIsTrimmed();
    assert |DemoPassword + w| > |DemoPassword|;
  }
}
