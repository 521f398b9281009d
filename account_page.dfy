/** The administrator's account settings: a profile tab seeded from the signed-in
    account with an avatar of initials, and a password tab with its checks. */
module AccountPage {
  import opened Common

  const DefaultPhone: string := "+1 234-567-8900"
  const MismatchMessage: string := "New passwords do not match"
  const LengthMessage: string := "Password must be at least 8 characters"
  const MinLength: nat := 8

  datatype Profile = Profile(name: string, email: string, phone: string, role: string)

  /** The profile form's first values: the account's name and email or empty, a
      fixed phone number, and the account's role or `'admin'`. */
  function InitialProfile(user: Option<SessionUser>): (p: Profile)
    ensures user.Some? && user.value.name.Some? && user.value.name.value != "" ==> p.name == user.value.name.value
    ensures user.None? || user.value.name.None? || user.value.name.value == "" ==> p.name == ""
    ensures user.Some? && user.value.email.Some? && user.value.email.value != "" ==> p.email == user.value.email.value
    ensures user.None? || user.value.email.None? || user.value.email.value == "" ==> p.email == ""
    ensures p.phone == DefaultPhone
    ensures user.Some? && user.value.role.Some? && user.value.role.value != "" ==> p.role == user.value.role.value
    ensures user.None? || user.value.role.None? || user.value.role.value == "" ==> p.role == "admin"
  {
    match user
    case None => Profile("", "", DefaultPhone, "admin")
    case Some(u) => Profile(OrElse(u.name, ""), OrElse(u.email, ""), DefaultPhone, OrElse(u.role, "admin"))
  }

  /** The avatar's letters, taken from the name as currently typed. */
  function AvatarLetters(p: Profile): (r: string)
    ensures r == WordStarts(p.name, true) && |r| <= |p.name|
  {
    InitialsAreWordStarts(p.name);
    Initials(p.name)
  }

  class ProfileForm {
    var profile: Profile
    var isSaving: bool

    constructor (user: Option<SessionUser>)
      ensures profile == InitialProfile(user) && !isSaving
    {
      profile := InitialProfile(user);
      isSaving := false;
    }

    /** Typing into the name, email or phone input rewrites that field only; the
        role input is disabled. */
    method Edit(field: ContactField, value: string)
      modifies this
      ensures isSaving == old(isSaving)
      ensures profile == match field
                case NameField => old(profile).(name := value)
                case EmailField => old(profile).(email := value)
                case PhoneField => old(profile).(phone := value)
    {
      match field
      case NameField => profile := profile.(name := value);
      case EmailField => profile := profile.(email := value);
      case PhoneField => profile := profile.(phone := value);
    }

    method Submit()
      requires !isSaving
      modifies this
      ensures isSaving && profile == old(profile)
    {
      isSaving := true;
    }

    /** The save timer firing. */
    method Complete()
      requires isSaving
      modifies this
      ensures !isSaving && profile == old(profile)
    {
      isSaving := false;
    }
  }

  class PasswordForm {
    var currentPassword: string
    var newPassword: string
    var confirmPassword: string
    var isSaving: bool
    var error: string

    constructor ()
      ensures currentPassword == "" && newPassword == "" && confirmPassword == ""
      ensures !isSaving && error == ""
    {
      currentPassword := "";
      newPassword := "";
      confirmPassword := "";
      isSaving := false;
      error := "";
    }

    /** Typing into one of the three inputs rewrites that field only. */
    method Edit(field: PasswordField, value: string)
      modifies this
      ensures currentPassword == (if field == CurrentField then value else old(currentPassword))
      ensures newPassword == (if field == NewField then value else old(newPassword))
      ensures confirmPassword == (if field == ConfirmField then value else old(confirmPassword))
      ensures isSaving == old(isSaving) && error == old(error)
    {
      match field
      case CurrentField => currentPassword := value;
      case NewField => newPassword := value;
      case ConfirmField => confirmPassword := value;
    }

    /** `handleSubmit`, with the button disabled while saving: the error is cleared;
        a mismatch is reported before a short password; only a new password passing
        both checks starts saving. */
    method Submit()
      requires !isSaving
      modifies this
      ensures currentPassword == old(currentPassword) && newPassword == old(newPassword)
      ensures confirmPassword == old(confirmPassword)
      ensures newPassword != confirmPassword ==> error == MismatchMessage && !isSaving
      ensures newPassword == confirmPassword && |newPassword| < MinLength ==> error == LengthMessage && !isSaving
      ensures isSaving <==> CheckPassword(newPassword, confirmPassword, MinLength) == Acceptable
      ensures isSaving ==> error == ""
    {
      error := "";
      match CheckPassword(newPassword, confirmPassword, MinLength)
      case Mismatch =>
        error := MismatchMessage;
      case TooShort =>
        error := LengthMessage;
      case Acceptable =>
        isSaving := true;
    }

    /** The save timer firing: saving ends and all three fields are emptied. */
    method Complete()
      requires isSaving
      modifies this
      ensures !isSaving && error == old(error)
      ensures currentPassword == "" && newPassword == "" && confirmPassword == ""
    {
      isSaving := false;
      currentPassword := "";
      newPassword := "";
      confirmPassword := "";
    }
  }
}
