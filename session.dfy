/** The application shell: which screen is shown, the signed-in account, and the
    browser storage that remembers it under one of two keys. */
module Session {
  import opened Common

  datatype AuthView = Landing | AdminLoginView | UserLoginView | UserRegisterView

  const AdminKey: string := "adminUser"
  const UserKey: string := "currentUser"

  predicate IsAdmin(u: SessionUser) {
    u.role == Some("admin")
  }

  datatype Screen =
    | LandingScreen | AdminLoginScreen | UserLoginScreen | RegisterScreen
    | AdminDashboardScreen | UserDashboardScreen

  /** What the shell renders: an authentication screen by view while signed out,
      otherwise the dashboard the account's role selects. */
  function ScreenOf(authenticated: bool, view: AuthView, user: Option<SessionUser>): (s: Screen)
    ensures !authenticated <==> s in {LandingScreen, AdminLoginScreen, UserLoginScreen, RegisterScreen}
    ensures authenticated ==> (s == AdminDashboardScreen <==> user.Some? && IsAdmin(user.value))
  {
    if !authenticated then
      match view
      case Landing => LandingScreen
      case AdminLoginView => AdminLoginScreen
      case UserLoginView => UserLoginScreen
      case UserRegisterView => RegisterScreen
    else if user.Some? && IsAdmin(user.value) then AdminDashboardScreen
    else UserDashboardScreen
  }

  /** The navigation links of the authentication screens. */
  datatype Link = GetStarted | AdminLoginLink | SwitchToUser | SwitchToRegister | SwitchToLogin

  /** Where a link leads from the screen of `view`, when that screen has the link. */
  function Follow(view: AuthView, link: Link): Option<AuthView> {
    match (view, link)
    case (Landing, GetStarted) => Some(UserLoginView)
    case (Landing, AdminLoginLink) => Some(AdminLoginView)
    case (AdminLoginView, SwitchToUser) => Some(UserLoginView)
    case (UserLoginView, SwitchToRegister) => Some(UserRegisterView)
    case (UserRegisterView, SwitchToLogin) => Some(UserLoginView)
    case _ => None
  }

  /** The screen-to-screen moves available while signed out. */
  predicate SignedOutMove(from: AuthView, to: AuthView) {
    (from == Landing && (to == UserLoginView || to == AdminLoginView)) ||
    (from == AdminLoginView && to == UserLoginView) ||
    (from == UserLoginView && to == UserRegisterView) ||
    (from == UserRegisterView && to == UserLoginView)
  }

  /** Some link leads from `from` to `to` exactly when that is a signed-out move. */
  lemma FollowIsSignedOutMove(from: AuthView, to: AuthView)
    ensures (exists link :: Follow(from, link) == Some(to)) <==> SignedOutMove(from, to)
  {
    if SignedOutMove(from, to) {
      if from == Landing && to == UserLoginView { assert Follow(from, GetStarted) == Some(to); }
      else if from == Landing { assert Follow(from, AdminLoginLink) == Some(to); }
      else if from == AdminLoginView { assert Follow(from, SwitchToUser) == Some(to); }
      else if from == UserLoginView { assert Follow(from, SwitchToRegister) == Some(to); }
      else { assert Follow(from, SwitchToLogin) == Some(to); }
    }
  }

  /** Stored accounts sit under the key their role calls for. */
  predicate StorageConsistent(storage: map<string, SessionUser>) {
    (AdminKey in storage ==> IsAdmin(storage[AdminKey])) &&
    (UserKey in storage ==> !IsAdmin(storage[UserKey]))
  }

  /** The shell's state; `storage` stands for the browser's local storage, the
      account values standing for their serialised form. */
  class App {
    var isAuthenticated: bool
    var currentUser: Option<SessionUser>
    var authView: AuthView
    var storage: map<string, SessionUser>

    /** While signed in, the view records which key holds the account. */
    ghost predicate Valid()
      reads this
    {
      (isAuthenticated <==> currentUser.Some?) &&
      (isAuthenticated ==> (authView == AdminLoginView || authView == UserLoginView)) &&
      (isAuthenticated && authView == AdminLoginView ==> AdminKey in storage && storage[AdminKey] == currentUser.value) &&
      (isAuthenticated && authView == UserLoginView ==> UserKey in storage && storage[UserKey] == currentUser.value)
    }

    /** The first render followed by the mount effect: a stored admin account wins
        over a stored customer account, and either one signs the session in. */
    constructor (stored: map<string, SessionUser>)
      ensures Valid() && storage == stored
      ensures AdminKey in stored ==> isAuthenticated && currentUser == Some(stored[AdminKey]) && authView == AdminLoginView
      ensures AdminKey !in stored && UserKey in stored ==>
                isAuthenticated && currentUser == Some(stored[UserKey]) && authView == UserLoginView
      ensures AdminKey !in stored && UserKey !in stored ==> !isAuthenticated && currentUser == None && authView == Landing
      ensures StorageConsistent(stored) && isAuthenticated ==>
                (ScreenOf(isAuthenticated, authView, currentUser) == AdminDashboardScreen <==> authView == AdminLoginView)
    {
      storage := stored;
      if AdminKey in stored {
        currentUser := Some(stored[AdminKey]);
        isAuthenticated := true;
        authView := AdminLoginView;
      } else if UserKey in stored {
        currentUser := Some(stored[UserKey]);
        isAuthenticated := true;
        authView := UserLoginView;
      } else {
        isAuthenticated := false;
        currentUser := None;
        authView := Landing;
      }
    }

    /** A link on one of the authentication screens. */
    method Navigate(link: Link)
      requires Valid() && !isAuthenticated && Follow(authView, link).Some?
      modifies this
      ensures Valid() && !isAuthenticated && SignedOutMove(old(authView), authView)
      ensures authView == Follow(old(authView), link).value
      ensures currentUser == old(currentUser) && storage == old(storage)
    {
      FollowIsSignedOutMove(authView, Follow(authView, link).value);
      authView := Follow(authView, link).value;
    }

    /** `handleLogin`, the callback of both login forms and the registration form. */
    method HandleLogin(user: SessionUser)
      requires Valid() && !isAuthenticated
      modifies this
      ensures Valid() && isAuthenticated && currentUser == Some(user)
      ensures IsAdmin(user) ==> storage == old(storage)[AdminKey := user] && authView == AdminLoginView
      ensures !IsAdmin(user) ==> storage == old(storage)[UserKey := user] && authView == UserLoginView
      ensures StorageConsistent(old(storage)) ==> StorageConsistent(storage)
      ensures ScreenOf(isAuthenticated, authView, currentUser) == AdminDashboardScreen <==> authView == AdminLoginView
    {
      currentUser := Some(user);
      isAuthenticated := true;
      if IsAdmin(user) {
        storage := storage[AdminKey := user];
        authView := AdminLoginView;
      } else {
        storage := storage[UserKey := user];
        authView := UserLoginView;
      }
    }

    /** `handleLogout`, offered by both dashboards: the key the view names is removed. */
    method HandleLogout()
      requires Valid() && isAuthenticated
      modifies this
      ensures Valid() && !isAuthenticated && currentUser == None && authView == Landing
      ensures old(authView) == AdminLoginView ==> storage == old(storage) - {AdminKey}
      ensures old(authView) != AdminLoginView ==> storage == old(storage) - {UserKey}
      ensures StorageConsistent(old(storage)) ==> StorageConsistent(storage)
    {
      currentUser := None;
      isAuthenticated := false;
      if authView == AdminLoginView {
        storage := storage - {AdminKey};
      } else {
        storage := storage - {UserKey};
      }
      authView := Landing;
    }
  }
}
