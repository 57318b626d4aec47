/** The `users` table: keyed lookups and writes, the e-mail lookup and the rating update. */
module UserDao {
  import opened Entities
  import opened Database

  function GetUserById(s: Store, userId: Id): (u: Option<User>)
    ensures u.Some? <==> userId in s.users
    ensures u.Some? ==> u.value == s.users[userId]
  {
    if userId in s.users then Some(s.users[userId]) else None
  }

  predicate HasEmail(users: map<Id, User>, k: Id, email: string)
  {
    k in users && users[k].email == email
  }

  predicate EmailRegistered(users: map<Id, User>, email: string)
  {
    exists k | k in users :: HasEmail(users, k, email)
  }

  /** `SELECT * FROM users WHERE email = :email LIMIT 1`: some user with the e-mail, if any. */
  method GetUserByEmail(s: Store, email: string) returns (u: Option<User>)
    ensures u.None? <==> !EmailRegistered(s.users, email)
    ensures u.Some? ==> exists k :: HasEmail(s.users, k, email) && s.users[k] == u.value
  {
    if EmailRegistered(s.users, email) {
      var k :| k in s.users && HasEmail(s.users, k, email);
      u := Some(s.users[k]);
    } else {
      u := None;
    }
  }

  /** `@Insert(onConflict = REPLACE)` keyed on `userId`; e-mails are not checked. */
  function InsertUser(s: Store, u: User): (s': Store)
    ensures u.userId in s'.users && s'.users[u.userId] == u
    ensures s'.users.Keys == s.users.Keys + {u.userId}
    ensures forall k :: k in s.users && k != u.userId ==> s'.users[k] == s.users[k]
    ensures s'.(users := s.users) == s
  {
    s.(users := s.users[u.userId := u])
  }

  /** `@Update`: rewrites the row with the user's key, if there is one. */
  function UpdateUser(s: Store, u: User): (s': Store)
    ensures s'.users.Keys == s.users.Keys
    ensures u.userId in s.users ==> s'.users[u.userId] == u
    ensures forall k :: k in s.users && k != u.userId ==> s'.users[k] == s.users[k]
    ensures s'.(users := s.users) == s
  {
    if u.userId in s.users then s.(users := s.users[u.userId := u]) else s
  }

  /** `UPDATE users SET rating = :rating, ratingCount = :ratingCount WHERE userId = :userId`. */
  function UpdateUserRating(s: Store, userId: Id, rating: real, ratingCount: int): (s': Store)
    ensures s'.users.Keys == s.users.Keys
    ensures userId in s.users ==> s'.users[userId] == s.users[userId].(rating := rating, ratingCount := ratingCount)
    ensures forall k :: k in s.users && k != userId ==> s'.users[k] == s.users[k]
    ensures s'.(users := s.users) == s
  {
    if userId in s.users then
      s.(users := s.users[userId := s.users[userId].(rating := rating, ratingCount := ratingCount)])
    else s
  }

  function UsersByType(s: Store, userType: UserType): (us: set<User>)
    ensures forall u :: u in us <==> u in s.users.Values && u.userType == userType
  {
    set u | u in s.users.Values && u.userType == userType
  }

  /** No two stored users share an e-mail address. */
  ghost predicate UniqueEmails(users: map<Id, User>)
  {
    forall k1, k2, email :: HasEmail(users, k1, email) && HasEmail(users, k2, email) ==> k1 == k2
  }

  /** The table accepts a second user with an e-mail already taken. */
  lemma InsertUserAllowsDuplicateEmail(s: Store, u: User)
    requires EmailRegistered(s.users, u.email)
    requires u.userId !in s.users
    ensures !UniqueEmails(InsertUser(s, u).users)
  {
    var k :| k in s.users && HasEmail(s.users, k, u.email);
    assert HasEmail(InsertUser(s, u).users, k, u.email);
    assert HasEmail(InsertUser(s, u).users, u.userId, u.email);
  }

  /** Inserting a user whose e-mail is not yet registered keeps e-mails unique. */
  lemma InsertNewEmailKeepsUnique(s: Store, u: User)
    requires UniqueEmails(s.users)
    requires !EmailRegistered(s.users, u.email)
    ensures UniqueEmails(InsertUser(s, u).users)
  {
    var t := InsertUser(s, u).users;
    forall k1, k2, email | HasEmail(t, k1, email) && HasEmail(t, k2, email)
      ensures k1 == k2
    {
      if k1 != u.userId && k2 != u.userId {
        assert HasEmail(s.users, k1, email) && HasEmail(s.users, k2, email);
      }
    }
  }
}
