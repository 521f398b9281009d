/** The administrator sign-in form, checked against one hard-coded account. */
module AdminLogin {
  import opened Common

  const AdminEmail: string := "admin@photobooth.com"
  const AdminPassword: string := "admin123"
  const InvalidCredentials: string := "Invalid email or password"

  /** The account the form reports on success. */
  const AdminAccount: SessionUser :=
    SessionUser(1, Some("Admin User"), Some(AdminEmail), None, Some("admin"))

  class LoginForm {
    var email: string
    var password: string
    var error: string

    constructor ()
      ensures email == "" && password == "" && error == ""
    {
      email := "";
      password := "";
      error := "";
    }

    method ChangeEmail(value: string)
      modifies this
      ensures email == value && password == old(password) && error == old(error)
    {
      email := value;
    }

    method ChangePassword(value: string)
      modifies this
      ensures password == value && email == old(email) && error == old(error)
    {
      password := value;
    }

    /** `handleSubmit`: the error is cleared, then the credentials either sign the
        administrator in (the result is what `onLogin` receives) or set the error. */
    method Submit() returns (login: Option<SessionUser>)
      modifies this
      ensures login.Some? <==> email == AdminEmail && password == AdminPassword
      ensures login.Some? ==> login.value == AdminAccount && login.value.id == 1 && login.value.role == Some("admin")
      ensures login.Some? ==> error == ""
      ensures login.None? ==> error == InvalidCredentials
      ensures email == old(email) && password == old(password)
    {
      error := "";
      if email == AdminEmail && password == AdminPassword {
        login := Some(AdminAccount);
      } else {
        error := InvalidCredentials;
        login := None;
      }
    }
  }
}
