/** The profile page: loading the profile, editing it, and changing the password. */
module ProfilePage {
  import opened Wrappers
  import opened Errors

  const LOAD_FAILED := "Failed to load profile. Please try again later."
  const PROFILE_SAVED := "Profile updated successfully!"
  const PROFILE_FAILED := "Failed to update profile. Please try again."
  const MISMATCH := "New passwords do not match."
  const PASSWORD_SAVED := "Password changed successfully!"
  const PASSWORD_FAILED := "Failed to change password. Please check your current password and try again."

  datatype Profile = Profile(name: string, email: string, bio: string)
  datatype ProfileField = Name | Email | Bio

  datatype Passwords = Passwords(currentPassword: string, newPassword: string, confirmPassword: string)
  datatype PasswordField = CurrentPassword | NewPassword | ConfirmPassword

  /** The profile record the server sends; any field may be missing. */
  datatype ProfileData = ProfileData(name: Option<string>, email: Option<string>, bio: Option<string>)

  const NO_PASSWORDS := Passwords("", "", "")

  /** `value || ''`. */
  function OrEmpty(value: Option<string>): (s: string)
    ensures value.Some? ==> s == value.value
    ensures value.None? ==> s == ""
  {
    if value.Some? then value.value else ""
  }

  /** The profile shown for what the server sent: every missing field shows as empty. */
  function ProfileOf(d: ProfileData): (p: Profile)
    ensures p.name == OrEmpty(d.name) && p.email == OrEmpty(d.email) && p.bio == OrEmpty(d.bio)
  {
    Profile(OrEmpty(d.name), OrEmpty(d.email), OrEmpty(d.bio))
  }

  function GetProfile(p: Profile, field: ProfileField): string {
    match field
    case Name => p.name
    case Email => p.email
    case Bio => p.bio
  }

  /** `handleProfileChange`: `{ ...prevProfile, [name]: value }`. */
  function SetProfile(p: Profile, field: ProfileField, value: string): (q: Profile)
    ensures GetProfile(q, field) == value
    ensures forall other :: other != field ==> GetProfile(q, other) == GetProfile(p, other)
  {
    match field
    case Name => p.(name := value)
    case Email => p.(email := value)
    case Bio => p.(bio := value)
  }

  function GetPassword(p: Passwords, field: PasswordField): string {
    match field
    case CurrentPassword => p.currentPassword
    case NewPassword => p.newPassword
    case ConfirmPassword => p.confirmPassword
  }

  /** `handlePasswordChange`: `{ ...prevData, [name]: value }`. */
  function SetPassword(p: Passwords, field: PasswordField, value: string): (q: Passwords)
    ensures GetPassword(q, field) == value
    ensures forall other :: other != field ==> GetPassword(q, other) == GetPassword(p, other)
  {
    match field
    case CurrentPassword => p.(currentPassword := value)
    case NewPassword => p.(newPassword := value)
    case ConfirmPassword => p.(confirmPassword := value)
  }

  /** The page's component state. */
  class ProfilePage {
    var profile: Profile
    var passwords: Passwords
    var loading: bool
    var error: string
    var success: string
    var passwordError: string
    var passwordSuccess: string

    constructor ()
      ensures profile == Profile("", "", "") && passwords == NO_PASSWORDS && loading
      ensures error == "" && success == "" && passwordError == "" && passwordSuccess == ""
    {
      profile := Profile("", "", "");
      passwords := NO_PASSWORDS;
      loading := true;
      error := "";
      success := "";
      passwordError := "";
      passwordSuccess := "";
    }

    /**
     * The fetch effect: the profile is asked for only when a user is
     * signed in; `fetched` is how that request settles.
     */
    method Fetch(hasUser: bool, fetched: Result<ProfileData, Thrown>) returns (requested: bool)
      modifies this
      ensures requested == hasUser
      ensures passwords == old(passwords) && success == old(success)
      ensures passwordError == old(passwordError) && passwordSuccess == old(passwordSuccess)
      ensures !hasUser ==> profile == old(profile) && loading == old(loading) && error == old(error)
      ensures hasUser ==> !loading
      ensures hasUser && fetched.Success? ==> profile == ProfileOf(fetched.value) && error == ""
      ensures hasUser && fetched.Failure? ==> profile == old(profile) && error == LOAD_FAILED
    {
      if !hasUser {
        return false;
      }
      loading := true;
      match fetched {
        case Success(d) =>
          profile := ProfileOf(d);
          error := "";
        case Failure(_) =>
          error := LOAD_FAILED;
      }
      loading := false;
      return true;
    }

    method HandleProfileChange(field: ProfileField, value: string)
      modifies this
      ensures profile == SetProfile(old(profile), field, value)
      ensures passwords == old(passwords) && loading == old(loading) && error == old(error) && success == old(success)
      ensures passwordError == old(passwordError) && passwordSuccess == old(passwordSuccess)
    {
      profile := SetProfile(profile, field, value);
    }

    method HandlePasswordChange(field: PasswordField, value: string)
      modifies this
      ensures passwords == SetPassword(old(passwords), field, value)
      ensures profile == old(profile) && loading == old(loading) && error == old(error) && success == old(success)
      ensures passwordError == old(passwordError) && passwordSuccess == old(passwordSuccess)
    {
      passwords := SetPassword(passwords, field, value);
    }

    /**
     * `handleProfileSubmit`: the profile's messages are cleared, then the
     * profile is sent and `updated` is how that settles. The result is what was sent.
     */
    method HandleProfileSubmit(updated: Result<(), Thrown>) returns (sent: Profile)
      modifies this
      ensures sent == profile
      ensures profile == old(profile) && passwords == old(passwords) && loading == old(loading)
      ensures passwordError == old(passwordError) && passwordSuccess == old(passwordSuccess)
      ensures updated.Success? ==> success == PROFILE_SAVED && error == ""
      ensures updated.Failure? ==> success == "" && error == PROFILE_FAILED
    {
      success := "";
      error := "";
      sent := profile;
      match updated {
        case Success(_) => success := PROFILE_SAVED;
        case Failure(_) => error := PROFILE_FAILED;
      }
    }

    /**
     * `handlePasswordSubmit`: the password messages are cleared; a mismatched
     * confirmation stops here, otherwise the three fields are sent and
     * `changed` is how that settles. The result is what was sent.
     */
    method HandlePasswordSubmit(changed: Result<(), Thrown>) returns (sent: Option<Passwords>)
      modifies this
      ensures profile == old(profile) && loading == old(loading) && error == old(error) && success == old(success)
      ensures old(passwords).newPassword != old(passwords).confirmPassword ==>
                sent == None && passwords == old(passwords) && passwordError == MISMATCH && passwordSuccess == ""
      ensures old(passwords).newPassword == old(passwords).confirmPassword ==> sent == Some(old(passwords))
      ensures old(passwords).newPassword == old(passwords).confirmPassword && changed.Success? ==>
                passwords == NO_PASSWORDS && passwordSuccess == PASSWORD_SAVED && passwordError == ""
      ensures old(passwords).newPassword == old(passwords).confirmPassword && changed.Failure? ==>
                passwords == old(passwords) && passwordSuccess == "" && passwordError == PASSWORD_FAILED
    {
      passwordError := "";
      passwordSuccess := "";
      if passwords.newPassword != passwords.confirmPassword {
        passwordError := MISMATCH;
        return None;
      }
      sent := Some(passwords);
      match changed {
        case Success(_) =>
          passwordSuccess := PASSWORD_SAVED;
          passwords := NO_PASSWORDS;
        case Failure(_) =>
          passwordError := PASSWORD_FAILED;
      }
    }
  }
}
