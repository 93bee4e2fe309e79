/** The Sign Up button of the sign-up screen: an ordered chain of checks on
    the four text fields; the first that fails shows its message, and when
    all pass the error is cleared and the screen moves on to the profile
    wizard with the email and password exactly as typed. */
module SignUp {
  import opened KotlinText
  import opened Checks
  import opened Email

  const MinPasswordLength: nat := 6

  const FullNameMessage: string := "Please enter your full name"
  const EmailMessage: string := "Please enter a valid email address"
  const PasswordLengthMessage: string := "Password must be at least 6 characters"
  const MismatchMessage: string := "Passwords do not match"

  /** The branches of the `when` block, in source order: four checks that
      together hold exactly when the form is acceptable. */
  function SignUpChecks(fullName: string, email: string, password: string, confirmPassword: string): (r: seq<Check>)
    ensures |r| == 4
    ensures (forall i :: 0 <= i < |r| ==> r[i].holds) <==> SignUpAcceptable(fullName, email, password, confirmPassword)
  {
    var r :=
      [ Check(!IsBlank(fullName), FullNameMessage),
        Check(IsValidEmail(email), EmailMessage),
        Check(|password| >= MinPasswordLength, PasswordLengthMessage),
        Check(password == confirmPassword, MismatchMessage) ];
    assert r[0].holds && r[1].holds && r[2].holds && r[3].holds
      <==> SignUpAcceptable(fullName, email, password, confirmPassword);
    r
  }

  /** Every condition of the form at once, in no particular order. */
  predicate SignUpAcceptable(fullName: string, email: string, password: string, confirmPassword: string) {
    && !IsBlank(fullName)
    && password == confirmPassword
    && |password| >= MinPasswordLength
    && IsValidEmail(email)
  }

  /** The error the button leaves on screen: none exactly when the form is
      acceptable. */
  function SignUpError(fullName: string, email: string, password: string, confirmPassword: string): (r: Option<string>)
    ensures r == None <==> SignUpAcceptable(fullName, email, password, confirmPassword)
  {
    Verdict(SignUpChecks(fullName, email, password, confirmPassword))
  }

  /** The checks run in the order name, email, password length, confirmation:
      the message shown is that of the first one that fails. */
  lemma SignUpCheckOrder(fullName: string, email: string, password: string, confirmPassword: string)
    ensures IsBlank(fullName) ==>
      SignUpError(fullName, email, password, confirmPassword) == Some(FullNameMessage)
    ensures !IsBlank(fullName) && !IsValidEmail(email) ==>
      SignUpError(fullName, email, password, confirmPassword) == Some(EmailMessage)
    ensures !IsBlank(fullName) && IsValidEmail(email) && |password| < MinPasswordLength ==>
      SignUpError(fullName, email, password, confirmPassword) == Some(PasswordLengthMessage)
    ensures (!IsBlank(fullName) && IsValidEmail(email) && |password| >= MinPasswordLength
             && password != confirmPassword) ==>
      SignUpError(fullName, email, password, confirmPassword) == Some(MismatchMessage)
  {
    var checks := SignUpChecks(fullName, email, password, confirmPassword);
    if IsBlank(fullName) {
      FailureDecides(checks, 0);
    } else if !IsValidEmail(email) {
      FailureDecides(checks, 1);
    } else if |password| < MinPasswordLength {
      FailureDecides(checks, 2);
    } else if password != confirmPassword {
      FailureDecides(checks, 3);
    }
  }

  /** A password of exactly six characters passes the length check, so a
      complete form with one is accepted. */
  lemma SixCharacterPasswordAccepted(fullName: string, email: string, password: string)
    requires |password| == 6 && !IsBlank(fullName) && IsValidEmail(email)
    ensures SignUpError(fullName, email, password, password) == None
  {
  }

  /** The remembered state of the sign-up screen. */
  class SignUpForm {
    var fullName: string
    var email: string
    var password: string
    var confirmPassword: string
    var errorMessage: Option<string>

    constructor ()
      ensures fullName == "" && email == "" && password == "" && confirmPassword == ""
      ensures errorMessage == None
    {
      fullName, email, password, confirmPassword := "", "", "", "";
      errorMessage := None;
    }

    /** The text fields take any input as typed. */
    method EditFullName(input: string)
      modifies this`fullName
      ensures fullName == input
    {
      fullName := input;
    }

    method EditEmail(input: string)
      modifies this`email
      ensures email == input
    {
      email := input;
    }

    method EditPassword(input: string)
      modifies this`password
      ensures password == input
    {
      password := input;
    }

    method EditConfirmPassword(input: string)
      modifies this`confirmPassword
      ensures confirmPassword == input
    {
      confirmPassword := input;
    }

    /** The Sign Up button. `proceed` is the pair handed to the navigation
        callback, or None when the screen stays. Only the error changes. */
    method SignUp() returns (proceed: Option<(string, string)>)
      modifies this`errorMessage
      ensures errorMessage == SignUpError(fullName, email, password, confirmPassword)
      ensures proceed == if errorMessage == None then Some((email, password)) else None
    {
      SignUpCheckOrder(fullName, email, password, confirmPassword);
      if IsBlank(fullName) {
        errorMessage := Some(FullNameMessage);
        proceed := None;
      } else if !IsValidEmail(email) {
        errorMessage := Some(EmailMessage);
        proceed := None;
      } else if |password| < MinPasswordLength {
        errorMessage := Some(PasswordLengthMessage);
        proceed := None;
      } else if password != confirmPassword {
        errorMessage := Some(MismatchMessage);
        proceed := None;
      } else {
        errorMessage := None;
        proceed := Some((email, password));
      }
    }
  }
}
