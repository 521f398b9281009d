/** The customer's account settings: a contact form that is edited, saved or
    reset to the account's values, and a password-change modal. */
module UserAccount {
  import opened Common

  const MismatchMessage: string := "New passwords do not match"
  const LengthMessage: string := "Password must be at least 6 characters"
  const MinLength: nat := 6

  datatype Contact = Contact(name: string, email: string, phone: string)

  /** The account's name, email and phone, each empty when missing. */
  function ContactOf(user: Option<SessionUser>): (c: Contact)
    ensures user.Some? ==> c == Contact(OrElse(user.value.name, ""), OrElse(user.value.email, ""), OrElse(user.value.phone, ""))
    ensures user.None? ==> c == Contact("", "", "")
  {
    match user
    case None => Contact("", "", "")
    case Some(u) => Contact(OrElse(u.name, ""), OrElse(u.email, ""), OrElse(u.phone, ""))
  }

  class UserAccountPage {
    const currentUser: Option<SessionUser>
    var isEditing: bool
    var showPasswordModal: bool
    var form: Contact

    constructor (user: Option<SessionUser>)
      ensures currentUser == user && form == ContactOf(user) && !isEditing && !showPasswordModal
    {
      currentUser := user;
      form := ContactOf(user);
      isEditing := false;
      showPasswordModal := false;
    }

    /** "Edit Profile". */
    method StartEditing()
      requires !isEditing
      modifies this
      ensures isEditing && form == old(form) && showPasswordModal == old(showPasswordModal)
    {
      isEditing := true;
    }

    /** Typing into the name, email or phone input, which are disabled outside
        edit mode, rewrites that field only. */
    method Edit(field: ContactField, value: string)
      requires isEditing
      modifies this
      ensures isEditing && showPasswordModal == old(showPasswordModal)
      ensures form == match field
                case NameField => old(form).(name := value)
                case EmailField => old(form).(email := value)
                case PhoneField => old(form).(phone := value)
    {
      match field
      case NameField => form := form.(name := value);
      case EmailField => form := form.(email := value);
      case PhoneField => form := form.(phone := value);
    }

    /** `handleSave`: the typed values stay and edit mode ends. */
    method Save()
      requires isEditing
      modifies this
      ensures !isEditing && form == old(form) && showPasswordModal == old(showPasswordModal)
    {
      isEditing := false;
    }

    /** `handleCancel`: the form goes back to the account's values and edit mode ends. */
    method Cancel()
      requires isEditing
      modifies this
      ensures !isEditing && form == ContactOf(currentUser) && showPasswordModal == old(showPasswordModal)
    {
      form := ContactOf(currentUser);
      isEditing := false;
    }

    method OpenPasswordModal()
      modifies this
      ensures showPasswordModal && form == old(form) && isEditing == old(isEditing)
    {
      showPasswordModal := true;
    }

    /** The modal's `onClose`, from its close button or its timer. */
    method ClosePasswordModal()
      modifies this
      ensures !showPasswordModal && form == old(form) && isEditing == old(isEditing)
    {
      showPasswordModal := false;
    }
  }

  /** The password modal; once `success` is set it shows a message instead of the form. */
  class ChangePasswordModal {
    var currentPassword: string
    var newPassword: string
    var confirmPassword: string
    var error: string
    var success: bool

    constructor ()
      ensures currentPassword == "" && newPassword == "" && confirmPassword == ""
      ensures error == "" && !success
    {
      currentPassword := "";
      newPassword := "";
      confirmPassword := "";
      error := "";
      success := false;
    }

    /** Typing into one of the three inputs rewrites that field only. */
    method Edit(field: PasswordField, value: string)
      modifies this
      ensures currentPassword == (if field == CurrentField then value else old(currentPassword))
      ensures newPassword == (if field == NewField then value else old(newPassword))
      ensures confirmPassword == (if field == ConfirmField then value else old(confirmPassword))
      ensures error == old(error) && success == old(success)
    {
      match field
      case CurrentField => currentPassword := value;
      case NewField => newPassword := value;
      case ConfirmField => confirmPassword := value;
    }

    /** `handleSubmit`: the error is cleared; a mismatch is reported before a short
        password; success, and the close timer, only when both checks pass. */
    method Submit() returns (scheduleClose: bool)
      requires !success
      modifies this
      ensures currentPassword == old(currentPassword) && newPassword == old(newPassword)
      ensures confirmPassword == old(confirmPassword)
      ensures newPassword != confirmPassword ==> error == MismatchMessage && !success
      ensures newPassword == confirmPassword && |newPassword| < MinLength ==> error == LengthMessage && !success
      ensures scheduleClose <==> CheckPassword(newPassword, confirmPassword, MinLength) == Acceptable
      ensures success <==> scheduleClose
      ensures scheduleClose ==> error == ""
    {
      error := "";
      match CheckPassword(newPassword, confirmPassword, MinLength)
      case Mismatch =>
        error := MismatchMessage;
        scheduleClose := false;
      case TooShort =>
        error := LengthMessage;
        scheduleClose := false;
      case Acceptable =>
        success := true;
        scheduleClose := true;
    }
  }
}
