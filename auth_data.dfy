/** The records the session works over: the user, the session state and the
    events the view-model accepts, in the shape the view-model constructs them
    (with the phone, address, Aadhar, emergency-contact and guardian fields,
    and the `Register` event). A Kotlin `copy(field = …)` is Dafny's datatype
    update `s.(field := …)`: every field not named keeps its value. */
module AuthData {
  import opened KotlinText

  datatype EmergencyContact = EmergencyContact(name: string, phoneNumber: string)

  datatype Guardian = Guardian(name: string, phoneNumber: string)

  datatype User = User(
    id: string,
    email: string,
    name: string,
    profileImage: string,
    phoneNumber: string,
    address: string,
    aadharNumber: string,
    emergencyContact: EmergencyContact,
    guardian: Guardian)

  /** `User()`: every field, nested contact fields included, is the empty string. */
  const DefaultUser: User :=
    User("", "", "", "", "", "", "", EmergencyContact("", ""), Guardian("", ""))

  datatype AuthState = AuthState(
    isLoading: bool,
    user: Option<User>,
    errorMessage: string,
    isAuthenticated: bool)

  /** `AuthState()`: not loading, no user, no error, not authenticated. */
  const DefaultAuthState: AuthState := AuthState(false, None, "", false)

  /** The closed set of intents `onEvent` accepts. */
  datatype AuthEvent =
    | Login(email: string, password: string)
    | Register(
        email: string,
        password: string,
        name: string,
        phoneNumber: string,
        address: string,
        aadharNumber: string,
        emergencyContact: EmergencyContact,
        guardian: Guardian)
    | Logout
    | ClearError
}
