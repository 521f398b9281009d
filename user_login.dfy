/** The customer sign-in form: a deferred check against one hard-coded account,
    with a loading flag while the check is pending. */
module UserLogin {
  import opened Common

  const UserEmail: string := "user@test.com"
  const UserPassword: string := "password"
  const InvalidCredentials: string := "Invalid email or password"

  /** The account the form reports on success. */
  const UserAccount: SessionUser :=
    SessionUser(1, Some("John Doe"), Some(UserEmail), Some("+63 912 345 6789"), Some("user"))

  /** The timer callback's outcome for the credentials it captured. */
  function CheckCredentials(email: string, password: string): (r: Option<SessionUser>)
    ensures r.Some? <==> email == UserEmail && password == UserPassword
    ensures r.Some? ==> r.value == UserAccount && r.value.role == Some("user")
  {
    if email == UserEmail && password == UserPassword then Some(UserAccount) else None
  }

  /** `pending` holds the credentials the scheduled check captured at submit time. */
  class LoginForm {
    var email: string
    var password: string
    var error: string
    var loading: bool
    var pending: Option<(string, string)>

    ghost predicate Valid()
      reads this
    {
      loading <==> pending.Some?
    }

    constructor ()
      ensures Valid() && email == "" && password == "" && error == "" && !loading
    {
      email := "";
      password := "";
      error := "";
      loading := false;
      pending := None;
    }

    method ChangeEmail(value: string)
      requires Valid()
      modifies this
      ensures Valid() && email == value && password == old(password)
      ensures error == old(error) && loading == old(loading) && pending == old(pending)
    {
      email := value;
    }

    method ChangePassword(value: string)
      requires Valid()
      modifies this
      ensures Valid() && password == value && email == old(email)
      ensures error == old(error) && loading == old(loading) && pending == old(pending)
    {
      password := value;
    }

    /** `handleSubmit`, with the button disabled while loading: the error is cleared,
        loading starts and the check is scheduled. */
    method Submit()
      requires Valid() && !loading
      modifies this
      ensures Valid() && error == "" && loading && pending == Some((email, password))
      ensures email == old(email) && password == old(password)
    {
      error := "";
      loading := true;
      pending := Some((email, password));
    }

    /** The timer firing: the captured credentials sign the customer in or set the
        error, and loading ends in both branches. */
    method Complete() returns (login: Option<SessionUser>)
      requires Valid() && loading
      modifies this
      ensures Valid() && !loading
      ensures login == CheckCredentials(old(pending).value.0, old(pending).value.1)
      ensures login.None? ==> error == InvalidCredentials
      ensures login.Some? ==> error == old(error)
      ensures email == old(email) && password == old(password)
    {
      login := CheckCredentials(pending.value.0, pending.value.1);
      if login.None? {
        error := InvalidCredentials;
      }
      loading := false;
      pending := None;
    }
  }

  /** Submitting and letting the check complete signs in exactly with the hard-coded
      credentials, and otherwise reports the error. */
  method SubmitAndWait(form: LoginForm) returns (login: Option<SessionUser>)
    requires form.Valid() && !form.loading
    modifies form
    ensures form.Valid() && !form.loading
    ensures login.Some? <==> old(form.email) == UserEmail && old(form.password) == UserPassword
    ensures login.Some? ==> login.value == UserAccount && form.error == ""
    ensures login.None? ==> form.error == InvalidCredentials
  {
    form.Submit();
    login := form.Complete();
  }
}
