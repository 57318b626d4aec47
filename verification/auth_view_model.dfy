/**
 The sign-in screen logic: blank-field and password-confirmation checks,
 the e-mail uniqueness check in front of account creation, and the
 session's current user.
 */
module AuthViewModel {
  import opened Entities
  import opened Database
  import opened Text
  import opened UserDao
  import opened UserRepository

  datatype LoginState = Idle | Loading | Success(user: User) | Error(message: string)

  datatype RegistrationState = Idle | Loading | Success(user: User) | Error(message: string)

  /** The three observable states of the view model. */
  datatype AuthState = AuthState(login: LoginState, registration: RegistrationState, currentUser: Option<User>)

  const SignedOut := AuthState(LoginState.Idle, RegistrationState.Idle, None)

  const EmptyCredentialsMessage := "Email and password cannot be empty"
  const InvalidCredentialsMessage := "Invalid email or password"
  const AuthenticationFailedMessage := "Authentication failed"
  const AllFieldsRequiredMessage := "All fields are required"
  const PasswordMismatchMessage := "Passwords do not match"
  const EmailTakenMessage := "Email already registered"
  const RegistrationFailedMessage := "Registration failed"

  /** Some stored account has this e-mail and this password. */
  predicate CredentialsMatch(s: Store, email: string, password: string)
  {
    exists k | k in s.users :: HasEmail(s.users, k, email) && s.users[k].password == password
  }

  /**
   `login`: blank input is refused before any lookup; otherwise the
   authenticated user becomes the current user, and a failed check leaves it
   as it was. `thrown` stands for an exception raised by the lookup, with
   its message.
   */
  method Login(st: AuthState, s: Store, email: string, password: string, thrown: Option<Option<string>>)
    returns (st': AuthState)
    ensures st'.registration == st.registration
    ensures IsBlank(email) || IsBlank(password) ==> st' == st.(login := LoginState.Error(EmptyCredentialsMessage))
    ensures !IsBlank(email) && !IsBlank(password) && thrown.Some? ==>
      st' == st.(login := LoginState.Error(MessageOr(thrown.value, AuthenticationFailedMessage)))
    ensures st'.login.Success? ==>
      && st'.currentUser == Some(st'.login.user)
      && st'.login.user in s.users.Values
      && st'.login.user.email == email && st'.login.user.password == password
    ensures !st'.login.Success? ==> st'.currentUser == st.currentUser && st'.login.Error?
    ensures !IsBlank(email) && !IsBlank(password) && thrown.None? && !CredentialsMatch(s, email, password) ==>
      st' == st.(login := LoginState.Error(InvalidCredentialsMessage))
    ensures UniqueEmails(s.users) ==>
      (st'.login.Success? <==>
         !IsBlank(email) && !IsBlank(password) && thrown.None? && CredentialsMatch(s, email, password))
  {
    if IsBlank(email) || IsBlank(password) {
      return st.(login := LoginState.Error(EmptyCredentialsMessage));
    }
    if thrown.Some? {
      return st.(login := LoginState.Error(MessageOr(thrown.value, AuthenticationFailedMessage)));
    }
    var user := AuthenticateUser(s, email, password);
    if user.Some? {
      ghost var k :| HasEmail(s.users, k, email) && s.users[k] == user.value;
      assert user.value in s.users.Values;
      st' := st.(login := LoginState.Success(user.value), currentUser := user);
    } else {
      st' := st.(login := LoginState.Error(InvalidCredentialsMessage));
    }
  }

  /**
   `register`: every field but the confirmation must be non-blank, the
   confirmation must equal the password, and the e-mail must be new; then
   the account is created and becomes the current user. `thrown` stands for
   an exception raised by the e-mail lookup, with its message.
   */
  method Register(st: AuthState, s: Store, email: string, password: string, confirmPassword: string,
                  fullName: string, phoneNumber: string, address: string, userType: UserType,
                  newId: Id, thrown: Option<Option<string>>)
    returns (st': AuthState, s': Store)
    ensures st'.login == st.login
    ensures IsBlank(email) || IsBlank(password) || IsBlank(fullName) || IsBlank(phoneNumber) || IsBlank(address) ==>
      st' == st.(registration := RegistrationState.Error(AllFieldsRequiredMessage)) && s' == s
    ensures FieldsFilled(email, password, fullName, phoneNumber, address) && password != confirmPassword ==>
      st' == st.(registration := RegistrationState.Error(PasswordMismatchMessage)) && s' == s
    ensures FieldsFilled(email, password, fullName, phoneNumber, address) && password == confirmPassword
            && thrown.Some? ==>
      st' == st.(registration := RegistrationState.Error(MessageOr(thrown.value, RegistrationFailedMessage))) && s' == s
    ensures FieldsFilled(email, password, fullName, phoneNumber, address) && password == confirmPassword
            && thrown.None? && EmailRegistered(s.users, email) ==>
      st' == st.(registration := RegistrationState.Error(EmailTakenMessage)) && s' == s
    ensures st'.registration.Success? <==>
      && FieldsFilled(email, password, fullName, phoneNumber, address) && password == confirmPassword
      && thrown.None? && !EmailRegistered(s.users, email)
    ensures !st'.registration.Success? ==> s' == s && st'.currentUser == st.currentUser && st'.registration.Error?
    ensures st'.registration.Success? ==>
      && st'.currentUser == Some(st'.registration.user)
      && (st'.registration.user, s') == CreateUser(s, email, password, fullName, phoneNumber, address, userType, newId)
    ensures UniqueEmails(s.users) ==> UniqueEmails(s'.users)
  {
    if !FieldsFilled(email, password, fullName, phoneNumber, address) {
      return st.(registration := RegistrationState.Error(AllFieldsRequiredMessage)), s;
    }
    if password != confirmPassword {
      return st.(registration := RegistrationState.Error(PasswordMismatchMessage)), s;
    }
    if thrown.Some? {
      return st.(registration := RegistrationState.Error(MessageOr(thrown.value, RegistrationFailedMessage))), s;
    }
    var existing := GetUserByEmail(s, email);
    if existing.Some? {
      return st.(registration := RegistrationState.Error(EmailTakenMessage)), s;
    }
    var created := CreateUser(s, email, password, fullName, phoneNumber, address, userType, newId);
    if UniqueEmails(s.users) {
      InsertNewEmailKeepsUnique(s, created.0);
    }
    st' := st.(registration := RegistrationState.Success(created.0), currentUser := Some(created.0));
    s' := created.1;
  }

  /** None of the five required registration fields is blank. */
  predicate FieldsFilled(email: string, password: string, fullName: string, phoneNumber: string, address: string)
  {
    !IsBlank(email) && !IsBlank(password) && !IsBlank(fullName) && !IsBlank(phoneNumber) && !IsBlank(address)
  }

  /** `logout`: both screens back to Idle and no current user, whatever the state was. */
  function Logout(st: AuthState): (st': AuthState)
    ensures st'.login.Idle? && st'.registration.Idle? && st'.currentUser.None?
  {
    SignedOut
  }

  /**
   On a table with unique e-mails, a successful registration is followed by
   a successful login with the same e-mail and password, for the same account.
   */
  method RegisterThenLogin(st: AuthState, s: Store, email: string, password: string, fullName: string,
                           phoneNumber: string, address: string, userType: UserType, newId: Id)
    returns (registered: AuthState, s': Store, loggedIn: AuthState)
    requires UniqueEmails(s.users)
    ensures registered.registration.Success? ==>
      loggedIn.login == LoginState.Success(registered.registration.user)
      && loggedIn.currentUser == registered.currentUser
  {
    registered, s' := Register(st, s, email, password, password, fullName, phoneNumber, address, userType, newId, None);
    if registered.registration.Success? {
      assert HasEmail(s'.users, newId, email);
    }
    loggedIn := Login(Logout(registered), s', email, password, None);
    if registered.registration.Success? {
      assert UniqueEmails(s'.users);
      assert loggedIn.login.Success?;
    }
  }
}
