/** Account creation and password check over the `users` table. */
module UserRepository {
  import opened Entities
  import opened Database
  import opened UserDao

  /**
   `createUser`: a user with the given fields under the fresh id `newId`,
   no profile image and the default rating (0, 0), inserted as is.
   */
  function CreateUser(s: Store, email: string, password: string, fullName: string, phoneNumber: string,
                      address: string, userType: UserType, newId: Id): (r: (User, Store))
    ensures var u := r.0;
            && u.userId == newId && u.email == email && u.password == password && u.fullName == fullName
            && u.phoneNumber == phoneNumber && u.address == address && u.userType == userType
            && u.profileImageUrl.None? && u.rating == 0.0 && u.ratingCount == 0
    ensures r.1.users == s.users[newId := r.0]
    ensures r.1.(users := s.users) == s
  {
    var u := User(newId, email, password, fullName, phoneNumber, address, userType, None, 0.0, 0);
    (u, InsertUser(s, u))
  }

  /** `createUser` does not look for the e-mail: a second account with a taken e-mail is stored. */
  lemma CreateUserAllowsDuplicateEmail(s: Store, email: string, password: string, fullName: string,
                                       phoneNumber: string, address: string, userType: UserType, newId: Id)
    requires EmailRegistered(s.users, email)
    requires newId !in s.users
    ensures !UniqueEmails(CreateUser(s, email, password, fullName, phoneNumber, address, userType, newId).1.users)
  {
    var r := CreateUser(s, email, password, fullName, phoneNumber, address, userType, newId);
    InsertUserAllowsDuplicateEmail(s, r.0);
  }

  /**
   `authenticateUser`: null when no user has the e-mail; otherwise the user
   the e-mail lookup found, if its stored password equals the given one.
   */
  method AuthenticateUser(s: Store, email: string, password: string) returns (u: Option<User>)
    ensures !EmailRegistered(s.users, email) ==> u.None?
    ensures u.Some? ==> exists k :: HasEmail(s.users, k, email) && s.users[k] == u.value
    ensures u.Some? ==> u.value.password == password
    ensures UniqueEmails(s.users) ==>
      (u.Some? <==> exists k :: HasEmail(s.users, k, email) && s.users[k].password == password)
  {
    var found := GetUserByEmail(s, email);
    if found.None? {
      return None;
    }
    u := if found.value.password == password then found else None;
  }

  /**
   When e-mails are unique, an account created with a new e-mail can log in
   with the same e-mail and password, and the login yields that account.
   */
  method CreateThenAuthenticate(s: Store, email: string, password: string, fullName: string, phoneNumber: string,
                                address: string, userType: UserType, newId: Id)
    returns (created: User, s': Store, u: Option<User>)
    requires UniqueEmails(s.users) && !EmailRegistered(s.users, email)
    ensures UniqueEmails(s'.users)
    ensures u == Some(created)
  {
    var r := CreateUser(s, email, password, fullName, phoneNumber, address, userType, newId);
    created, s' := r.0, r.1;
    InsertNewEmailKeepsUnique(s, created);
    assert HasEmail(s'.users, newId, email);
    u := AuthenticateUser(s', email, password);
  }
}
