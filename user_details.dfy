/** The three-step profile wizard: seven text fields, a current step in 1..3
    and an optional error. The phone and Aadhar fields take an edit only when
    it is short enough and all digits. Next validates the fields of the
    current step in a fixed order; on steps 1 and 2 success moves on, on step
    3 it registers the user through the view-model and asks for the home
    screen. Previous goes back a step without touching the fields. */
module UserDetails {
  import opened KotlinText
  import opened Checks
  import opened AuthData
  import opened Auth

  const TotalSteps: int := 3
  const PhoneLength: nat := 10
  const AadharLength: nat := 12
  const NewUserName: string := "New User"

  const PhoneMessage: string := "Please enter a valid 10-digit phone number"
  const AddressMessage: string := "Please enter your address"
  const AadharMessage: string := "Please enter a valid 12-digit Aadhar number"
  const EmergencyNameMessage: string := "Please enter emergency contact name"
  const GuardianNameMessage: string := "Please enter guardian name"

  /** What the input filter of a digits-only field lets through. */
  predicate IsDigitsUpTo(s: string, maxLength: nat) {
    |s| <= maxLength && AllDigits(s)
  }

  /** An edit of a digits-only field: taken as typed when it passes the
      filter, otherwise dropped. Either way the field stays within the
      filter's language. */
  function FilteredEdit(current: string, input: string, maxLength: nat): (r: string)
    ensures r == input || r == current
    ensures IsDigitsUpTo(input, maxLength) ==> r == input
    ensures IsDigitsUpTo(current, maxLength) ==> IsDigitsUpTo(r, maxLength)
    ensures r != current ==> IsDigitsUpTo(input, maxLength)
  {
    if IsDigitsUpTo(input, maxLength) then input else current
  }

  datatype ProfileFields = ProfileFields(
    phoneNumber: string,
    address: string,
    aadharNumber: string,
    emergencyContactName: string,
    emergencyContactPhone: string,
    guardianName: string,
    guardianPhone: string)

  const EmptyFields: ProfileFields := ProfileFields("", "", "", "", "", "", "")

  /** What the input filters guarantee of the fields at all times. */
  predicate Filtered(f: ProfileFields) {
    && IsDigitsUpTo(f.phoneNumber, PhoneLength)
    && IsDigitsUpTo(f.aadharNumber, AadharLength)
    && IsDigitsUpTo(f.emergencyContactPhone, PhoneLength)
    && IsDigitsUpTo(f.guardianPhone, PhoneLength)
  }

  /** The branches of the step's `when` block, in source order: they all
      hold exactly when the step is complete. */
  function StepChecks(step: int, f: ProfileFields): (r: seq<Check>)
    requires 1 <= step <= TotalSteps
    ensures (forall i :: 0 <= i < |r| ==> r[i].holds) <==> StepComplete(step, f)
  {
    var r :=
      if step == 1 then
        [ Check(|f.phoneNumber| == PhoneLength, PhoneMessage),
          Check(!IsBlank(f.address), AddressMessage),
          Check(|f.aadharNumber| == AadharLength, AadharMessage) ]
      else if step == 2 then
        [ Check(!IsBlank(f.emergencyContactName), EmergencyNameMessage),
          Check(|f.emergencyContactPhone| == PhoneLength, PhoneMessage) ]
      else
        [ Check(!IsBlank(f.guardianName), GuardianNameMessage),
          Check(|f.guardianPhone| == PhoneLength, PhoneMessage) ];
    assert (forall i :: 0 <= i < |r| ==> r[i].holds) <==> StepComplete(step, f) by {
      if step == 1 {
        assert r[0].holds && r[1].holds && r[2].holds <==> StepComplete(step, f);
      } else {
        assert r[0].holds && r[1].holds <==> StepComplete(step, f);
      }
    }
    r
  }

  /** The conditions of a step, all at once. */
  predicate StepComplete(step: int, f: ProfileFields) {
    if step == 1 then
      |f.phoneNumber| == PhoneLength && !IsBlank(f.address) && |f.aadharNumber| == AadharLength
    else if step == 2 then
      !IsBlank(f.emergencyContactName) && |f.emergencyContactPhone| == PhoneLength
    else
      !IsBlank(f.guardianName) && |f.guardianPhone| == PhoneLength
  }

  /** Every step complete: what a full pass through the wizard needs. */
  predicate ProfileComplete(f: ProfileFields) {
    StepComplete(1, f) && StepComplete(2, f) && StepComplete(3, f)
  }

  /** The message Next shows on a step: none exactly when the step is complete. */
  function StepError(step: int, f: ProfileFields): (r: Option<string>)
    requires 1 <= step <= TotalSteps
    ensures r == None <==> StepComplete(step, f)
  {
    Verdict(StepChecks(step, f))
  }

  /** What pressing Next does. */
  datatype Press = Rejected(message: string) | Advanced(step: int) | Submitted

  /** Next on `step`: an incomplete step is rejected with its first message;
      a complete one moves to the following step, or submits on the last. */
  function NextPress(step: int, f: ProfileFields): (p: Press)
    requires 1 <= step <= TotalSteps
    ensures p.Rejected? <==> !StepComplete(step, f)
    ensures p.Advanced? ==> step < TotalSteps && p.step == step + 1
    ensures p.Submitted? <==> step == TotalSteps && StepComplete(step, f)
  {
    match StepError(step, f)
    case Some(m) => Rejected(m)
    case None => if step < TotalSteps then Advanced(step + 1) else Submitted
  }

  /** Step 1 checks the phone length, then the address, then the Aadhar length. */
  lemma Step1CheckOrder(f: ProfileFields)
    ensures |f.phoneNumber| != PhoneLength ==> NextPress(1, f) == Rejected(PhoneMessage)
    ensures |f.phoneNumber| == PhoneLength && IsBlank(f.address) ==>
      NextPress(1, f) == Rejected(AddressMessage)
    ensures (|f.phoneNumber| == PhoneLength && !IsBlank(f.address)
             && |f.aadharNumber| != AadharLength) ==>
      NextPress(1, f) == Rejected(AadharMessage)
    ensures StepComplete(1, f) ==> NextPress(1, f) == Advanced(2)
  {
    var checks := StepChecks(1, f);
    if |f.phoneNumber| != PhoneLength {
      FailureDecides(checks, 0);
    } else if IsBlank(f.address) {
      FailureDecides(checks, 1);
    } else if |f.aadharNumber| != AadharLength {
      FailureDecides(checks, 2);
    }
  }

  /** Step 2 checks the contact name, then the contact phone length. */
  lemma Step2CheckOrder(f: ProfileFields)
    ensures IsBlank(f.emergencyContactName) ==> NextPress(2, f) == Rejected(EmergencyNameMessage)
    ensures !IsBlank(f.emergencyContactName) && |f.emergencyContactPhone| != PhoneLength ==>
      NextPress(2, f) == Rejected(PhoneMessage)
    ensures StepComplete(2, f) ==> NextPress(2, f) == Advanced(3)
  {
    var checks := StepChecks(2, f);
    if IsBlank(f.emergencyContactName) {
      FailureDecides(checks, 0);
    } else if |f.emergencyContactPhone| != PhoneLength {
      FailureDecides(checks, 1);
    }
  }

  /** Step 3 checks the guardian name, then the guardian phone length. */
  lemma Step3CheckOrder(f: ProfileFields)
    ensures IsBlank(f.guardianName) ==> NextPress(3, f) == Rejected(GuardianNameMessage)
    ensures !IsBlank(f.guardianName) && |f.guardianPhone| != PhoneLength ==>
      NextPress(3, f) == Rejected(PhoneMessage)
    ensures StepComplete(3, f) ==> NextPress(3, f) == Submitted
  {
    var checks := StepChecks(3, f);
    if IsBlank(f.guardianName) {
      FailureDecides(checks, 0);
    } else if |f.guardianPhone| != PhoneLength {
      FailureDecides(checks, 1);
    }
  }

  /** Next never leaves the range of steps. */
  lemma NextStaysInRange(step: int, f: ProfileFields)
    requires 1 <= step <= TotalSteps
    ensures NextPress(step, f).Advanced? ==> 1 <= NextPress(step, f).step <= TotalSteps
  {
  }

  /** Three presses of Next from step 1, with the fields unchanged, submit
      exactly when every field is complete. */
  lemma WizardSubmitsIffComplete(f: ProfileFields)
    ensures (NextPress(1, f) == Advanced(2) && NextPress(2, f) == Advanced(3)
             && NextPress(3, f) == Submitted) <==> ProfileComplete(f)
  {
  }

  /** The input filter and the length check together: a filtered phone field
      that passes its step is exactly ten digits, an Aadhar field twelve. */
  lemma CompleteFieldsAreDigits(f: ProfileFields)
    requires Filtered(f) && ProfileComplete(f)
    ensures |f.phoneNumber| == 10 && AllDigits(f.phoneNumber)
    ensures |f.aadharNumber| == 12 && AllDigits(f.aadharNumber)
    ensures |f.emergencyContactPhone| == 10 && AllDigits(f.emergencyContactPhone)
    ensures |f.guardianPhone| == 10 && AllDigits(f.guardianPhone)
  {
  }

  /** The event the submission dispatches, through `registerUser`. */
  function Submission(email: string, password: string, f: ProfileFields): (e: AuthEvent)
    ensures e.Register? && e.email == email && e.password == password && e.name == NewUserName
    ensures e.phoneNumber == f.phoneNumber && e.address == f.address && e.aadharNumber == f.aadharNumber
    ensures e.emergencyContact == EmergencyContact(f.emergencyContactName, f.emergencyContactPhone)
    ensures e.guardian == Guardian(f.guardianName, f.guardianPhone)
  {
    RegisterRequest(email, password, NewUserName, f.phoneNumber, f.address, f.aadharNumber,
                    f.emergencyContactName, f.emergencyContactPhone, f.guardianName, f.guardianPhone)
  }

  /** Once the submitted registration completes, the session's user holds
      every collected field, the carried-in email and the fixed name. */
  lemma SubmissionRegistersFields(s: AuthState, email: string, password: string, f: ProfileFields, idSuffix: string)
    ensures var e := Submission(email, password, f);
      var t := Completed(Dispatched(s, e), e, idSuffix);
      t.isAuthenticated && t.user.Some?
      && t.user.value.email == email && t.user.value.name == NewUserName
      && t.user.value.phoneNumber == f.phoneNumber && t.user.value.address == f.address
      && t.user.value.aadharNumber == f.aadharNumber
      && t.user.value.emergencyContact == EmergencyContact(f.emergencyContactName, f.emergencyContactPhone)
      && t.user.value.guardian == Guardian(f.guardianName, f.guardianPhone)
  {
  }

  /** The examples: a five-digit phone is rejected on step 1, a complete
      step 1 moves to step 2. */
  lemma Step1Examples(f: ProfileFields)
    ensures NextPress(1, f.(phoneNumber := "12345")) == Rejected(PhoneMessage)
    ensures NextPress(1, f.(phoneNumber := "1234567890", address := "X", aadharNumber := "123456789012"))
      == Advanced(2)
  {
    Step1CheckOrder(f.(phoneNumber := "12345"));
    var g := f.(phoneNumber := "1234567890", address := "X", aadharNumber := "123456789012");
    assert !IsWhitespace(g.address[0]);
  }

  /** The remembered state of the wizard screen. `email` and `password` are
      carried in from the sign-up screen. */
  class UserDetailsForm {
    const email: string
    const password: string
    var phoneNumber: string
    var address: string
    var aadharNumber: string
    var emergencyContactName: string
    var emergencyContactPhone: string
    var guardianName: string
    var guardianPhone: string
    var errorMessage: Option<string>
    var currentStep: int

    function Fields(): ProfileFields
      reads this
    {
      ProfileFields(phoneNumber, address, aadharNumber, emergencyContactName,
                    emergencyContactPhone, guardianName, guardianPhone)
    }

    /** The step is in range, the input filters hold, and every step before
        the current one is complete: its fields are hidden, so they keep the
        values Next accepted. */
    ghost predicate Valid()
      reads this
    {
      && 1 <= currentStep <= TotalSteps
      && Filtered(Fields())
      && (currentStep >= 2 ==> StepComplete(1, Fields()))
      && (currentStep == 3 ==> StepComplete(2, Fields()))
    }

    constructor (email: string, password: string)
      ensures Valid()
      ensures this.email == email && this.password == password
      ensures Fields() == EmptyFields && errorMessage == None && currentStep == 1
    {
      this.email, this.password := email, password;
      phoneNumber, address, aadharNumber := "", "", "";
      emergencyContactName, emergencyContactPhone := "", "";
      guardianName, guardianPhone := "", "";
      errorMessage := None;
      currentStep := 1;
    }

    /** The fields of a step are on screen, and so editable, only while the
        wizard is on that step. */
    method EditPhoneNumber(input: string)
      requires Valid() && currentStep == 1
      modifies this`phoneNumber
      ensures Valid()
      ensures phoneNumber == FilteredEdit(old(phoneNumber), input, PhoneLength)
    {
      if |input| <= PhoneLength && AllDigits(input) {
        phoneNumber := input;
      }
    }

    method EditAddress(input: string)
      requires Valid() && currentStep == 1
      modifies this`address
      ensures Valid()
      ensures address == input
    {
      address := input;
    }

    method EditAadharNumber(input: string)
      requires Valid() && currentStep == 1
      modifies this`aadharNumber
      ensures Valid()
      ensures aadharNumber == FilteredEdit(old(aadharNumber), input, AadharLength)
    {
      if |input| <= AadharLength && AllDigits(input) {
        aadharNumber := input;
      }
    }

    method EditEmergencyContactName(input: string)
      requires Valid() && currentStep == 2
      modifies this`emergencyContactName
      ensures Valid()
      ensures emergencyContactName == input
    {
      emergencyContactName := input;
    }

    method EditEmergencyContactPhone(input: string)
      requires Valid() && currentStep == 2
      modifies this`emergencyContactPhone
      ensures Valid()
      ensures emergencyContactPhone == FilteredEdit(old(emergencyContactPhone), input, PhoneLength)
    {
      if |input| <= PhoneLength && AllDigits(input) {
        emergencyContactPhone := input;
      }
    }

    method EditGuardianName(input: string)
      requires Valid() && currentStep == 3
      modifies this`guardianName
      ensures Valid()
      ensures guardianName == input
    {
      guardianName := input;
    }

    method EditGuardianPhone(input: string)
      requires Valid() && currentStep == 3
      modifies this`guardianPhone
      ensures Valid()
      ensures guardianPhone == FilteredEdit(old(guardianPhone), input, PhoneLength)
    {
      if |input| <= PhoneLength && AllDigits(input) {
        guardianPhone := input;
      }
    }

    /** The Previous button, shown only after step 1. */
    method Previous()
      requires Valid() && currentStep > 1
      modifies this`errorMessage, this`currentStep
      ensures Valid()
      ensures errorMessage == None && currentStep == old(currentStep) - 1
    {
      errorMessage := None;
      currentStep := currentStep - 1;
    }

    /** The Next / Submit button. `navigateHome` says whether the screen
        asks for the home screen. The fields never change. */
    method Next(vm: AuthViewModel) returns (navigateHome: bool)
      requires Valid() && vm.Valid()
      modifies this`errorMessage, this`currentStep, vm
      ensures Valid() && vm.Valid()
      ensures match NextPress(old(currentStep), Fields())
        case Rejected(m) =>
          && errorMessage == Some(m) && currentStep == old(currentStep) && !navigateHome
          && vm.state == old(vm.state) && vm.inFlight == old(vm.inFlight)
        case Advanced(next) =>
          && errorMessage == None && currentStep == next && !navigateHome
          && vm.state == old(vm.state) && vm.inFlight == old(vm.inFlight)
        case Submitted =>
          && errorMessage == old(errorMessage) && currentStep == old(currentStep) && navigateHome
          && ProfileComplete(Fields())
          && vm.state == Loading(old(vm.state))
          && vm.inFlight == old(vm.inFlight) + [Submission(email, password, Fields())]
    {
      navigateHome := false;
      if currentStep == 1 {
        Step1CheckOrder(Fields());
        if |phoneNumber| != PhoneLength {
          errorMessage := Some(PhoneMessage);
        } else if IsBlank(address) {
          errorMessage := Some(AddressMessage);
        } else if |aadharNumber| != AadharLength {
          errorMessage := Some(AadharMessage);
        } else {
          errorMessage := None;
          currentStep := currentStep + 1;
        }
      } else if currentStep == 2 {
        Step2CheckOrder(Fields());
        if IsBlank(emergencyContactName) {
          errorMessage := Some(EmergencyNameMessage);
        } else if |emergencyContactPhone| != PhoneLength {
          errorMessage := Some(PhoneMessage);
        } else {
          errorMessage := None;
          currentStep := currentStep + 1;
        }
      } else {
        Step3CheckOrder(Fields());
        if IsBlank(guardianName) {
          errorMessage := Some(GuardianNameMessage);
        } else if |guardianPhone| != PhoneLength {
          errorMessage := Some(PhoneMessage);
        } else {
          vm.RegisterUser(email, password, NewUserName, phoneNumber, address, aadharNumber,
                          emergencyContactName, emergencyContactPhone, guardianName, guardianPhone);
          navigateHome := true;
        }
      }
    }
  }
}
