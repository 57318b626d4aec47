/**
 The profile screen logic: loading a profile, and the edit that checks the
 three editable text fields, keeps or replaces the profile image and
 writes the row back.
 */
module ProfileViewModel {
  import opened Entities
  import opened Database
  import opened Text
  import opened UserDao

  datatype ProfileState = Loading | Success(user: User) | Error(message: string)

  datatype EditProfileState = Idle | Loading | Success(user: User) | Error(message: string)

  /** The two observable states of the view model. */
  datatype ProfileUiState = ProfileUiState(profile: ProfileState, edit: EditProfileState)

  const UserNotFoundMessage := "User not found"
  const AllFieldsRequiredMessage := "All fields are required"

  /** `loadUserProfile`: the stored user, or "User not found". */
  function LoadUserProfile(s: Store, userId: Id): (r: ProfileState)
    ensures r.Success? <==> userId in s.users
    ensures r.Success? ==> r.user == s.users[userId]
    ensures !r.Success? ==> r == ProfileState.Error(UserNotFoundMessage)
  {
    match GetUserById(s, userId)
    case Some(u) => ProfileState.Success(u)
    case None => ProfileState.Error(UserNotFoundMessage)
  }

  /**
   `updateUserProfile`: blank name, phone or address is refused before
   anything else. `imageSave` is the outcome of saving a newly picked image:
   `None` when no image was picked, `Ok(path)` with the saved location, or
   `Err(message)` when the save failed, which ends in Error with nothing
   written. Otherwise the given user, with the three fields and the image
   reference replaced, is written back and shown by both states.
   */
  function UpdateUserProfile(st: ProfileUiState, s: Store, user: User, newFullName: string, newPhoneNumber: string,
                             newAddress: string, imageSave: Option<Result<string>>): (r: (ProfileUiState, Store))
    ensures IsBlank(newFullName) || IsBlank(newPhoneNumber) || IsBlank(newAddress) ==>
      r == (st.(edit := EditProfileState.Error(AllFieldsRequiredMessage)), s)
    ensures imageSave.Some? && imageSave.value.Err? ==> r.1 == s && r.0.profile == st.profile && r.0.edit.Error?
    ensures r.0.edit.Success? <==>
      !IsBlank(newFullName) && !IsBlank(newPhoneNumber) && !IsBlank(newAddress) && !(imageSave.Some? && imageSave.value.Err?)
    ensures !r.0.edit.Success? ==> r.1 == s && r.0.profile == st.profile
    ensures r.0.edit.Success? ==>
      var u := r.0.edit.user;
      && r.0.profile == ProfileState.Success(u)
      && u.userId == user.userId && u.email == user.email && u.password == user.password
      && u.userType == user.userType && u.rating == user.rating && u.ratingCount == user.ratingCount
      && u.fullName == newFullName && u.phoneNumber == newPhoneNumber && u.address == newAddress
      && (imageSave.None? ==> u.profileImageUrl == user.profileImageUrl)
      && (imageSave.Some? ==> u.profileImageUrl == Some(imageSave.value.value))
      && r.1.users.Keys == s.users.Keys
      && (user.userId in s.users ==> r.1.users[user.userId] == u)
      && (forall k :: k in s.users && k != user.userId ==> r.1.users[k] == s.users[k])
    ensures r.1.(users := s.users) == s
  {
    if IsBlank(newFullName) || IsBlank(newPhoneNumber) || IsBlank(newAddress) then
      (st.(edit := EditProfileState.Error(AllFieldsRequiredMessage)), s)
    else
      match imageSave
      case Some(Err(message)) => (st.(edit := EditProfileState.Error(message)), s)
      case Some(Ok(path)) => SaveProfile(s, user.(fullName := newFullName, phoneNumber := newPhoneNumber,
                                                  address := newAddress, profileImageUrl := Some(path)))
      case None => SaveProfile(s, user.(fullName := newFullName, phoneNumber := newPhoneNumber,
                                        address := newAddress))
  }

  /** `updateUser` with the edited user, then both states show it. */
  function SaveProfile(s: Store, updated: User): (r: (ProfileUiState, Store))
    ensures r.0.edit == EditProfileState.Success(updated) && r.0.profile == ProfileState.Success(updated)
    ensures r.1 == UpdateUser(s, updated)
  {
    (ProfileUiState(ProfileState.Success(updated), EditProfileState.Success(updated)), UpdateUser(s, updated))
  }

  /**
   Editing a stored user's profile from the loaded profile changes only the
   three text fields and the image of that row: loading the profile again
   shows the edited user.
   */
  lemma EditThenLoadShowsEdit(st: ProfileUiState, s: Store, userId: Id, newFullName: string, newPhoneNumber: string,
                              newAddress: string, imageSave: Option<Result<string>>)
    requires userId in s.users && s.users[userId].userId == userId
    ensures var r := UpdateUserProfile(st, s, LoadUserProfile(s, userId).user, newFullName, newPhoneNumber,
                                       newAddress, imageSave);
            r.0.edit.Success? ==> LoadUserProfile(r.1, userId) == r.0.profile
  {
  }
}
