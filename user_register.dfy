/** The customer registration form: the password checks, then a deferred
    registration that signs the new customer in. */
module UserRegister {
  import opened Common

  const MismatchMessage: string := "Passwords do not match"
  const LengthMessage: string := "Password must be at least 6 characters"
  const MinLength: nat := 6

  datatype RegisterForm = RegisterForm(
    name: string, email: string, phone: string, password: string, confirmPassword: string)

  /** The `name` attributes of the five inputs. */
  datatype RegisterField = NameInput | EmailInput | PhoneInput | PasswordInput | ConfirmInput

  /** The account handed to `onRegister`; `id` stands for the random number the
      form draws. */
  function RegisteredUser(f: RegisterForm, id: int): (u: SessionUser)
    ensures u.id == id && u.name == Some(f.name) && u.email == Some(f.email)
    ensures u.phone == Some(f.phone) && u.role == Some("user")
  {
    SessionUser(id, Some(f.name), Some(f.email), Some(f.phone), Some("user"))
  }

  /** `pending` is the form as the scheduled registration captured it. */
  class RegisterPage {
    var form: RegisterForm
    var error: string
    var loading: bool
    var pending: Option<RegisterForm>

    ghost predicate Valid()
      reads this
    {
      loading <==> pending.Some?
    }

    constructor ()
      ensures Valid() && form == RegisterForm("", "", "", "", "") && error == "" && !loading
    {
      form := RegisterForm("", "", "", "", "");
      error := "";
      loading := false;
      pending := None;
    }

    /** `handleChange` on the input named `field`: that field takes the typed text
        and every other field is kept. */
    method Change(field: RegisterField, value: string)
      requires Valid()
      modifies this
      ensures Valid() && error == old(error) && loading == old(loading) && pending == old(pending)
      ensures form == match field
                case NameInput => old(form).(name := value)
                case EmailInput => old(form).(email := value)
                case PhoneInput => old(form).(phone := value)
                case PasswordInput => old(form).(password := value)
                case ConfirmInput => old(form).(confirmPassword := value)
    {
      match field
      case NameInput => form := form.(name := value);
      case EmailInput => form := form.(email := value);
      case PhoneInput => form := form.(phone := value);
      case PasswordInput => form := form.(password := value);
      case ConfirmInput => form := form.(confirmPassword := value);
    }

    /** `handleSubmit`, with the button disabled while loading: the error is cleared;
        a mismatch is reported before a short password; only a form passing both
        checks starts loading and schedules the registration. */
    method Submit()
      requires Valid() && !loading
      modifies this
      ensures Valid() && form == old(form)
      ensures form.password != form.confirmPassword ==> error == MismatchMessage && !loading
      ensures form.password == form.confirmPassword && |form.password| < MinLength ==> error == LengthMessage && !loading
      ensures CheckPassword(form.password, form.confirmPassword, MinLength) == Acceptable <==> loading
      ensures loading ==> error == "" && pending == Some(form)
    {
      error := "";
      match CheckPassword(form.password, form.confirmPassword, MinLength)
      case Mismatch =>
        error := MismatchMessage;
      case TooShort =>
        error := LengthMessage;
      case Acceptable =>
        loading := true;
        pending := Some(form);
    }

    /** The timer firing: the captured form becomes the registered account and
        loading ends; `id` is the drawn `Math.floor(Math.random() * 1000)`. */
    method Complete(id: int) returns (user: SessionUser)
      requires Valid() && loading && 0 <= id < 1000
      modifies this
      ensures Valid() && !loading && form == old(form) && error == old(error)
      ensures user == RegisteredUser(old(pending).value, id)
    {
      user := RegisteredUser(pending.value, id);
      loading := false;
      pending := None;
    }
  }
}
