/** The fake authentication reducer: a user logs in with any credentials and logs out. */
module FakeAuth {
  import opened Wrappers

  datatype User = User(email: string, password: string)

  datatype AuthState = AuthState(isAuthenticated: bool, user: Option<User>)

  datatype AuthAction = Login(payload: User) | Logout

  /** `initialState`: not authenticated, with a user whose email and password are empty. */
  function InitialAuthState(): (s: AuthState)
    ensures !s.isAuthenticated
    ensures s.user == Some(User("", ""))
  {
    AuthState(false, Some(User("", "")))
  }

  /** `authReducer`: login authenticates its payload, logout clears the user. */
  function AuthReduce(s: AuthState, a: AuthAction): (r: AuthState)
    ensures r.isAuthenticated <==> a.Login?
    ensures a.Login? ==> r.user == Some(a.payload)
    ensures a.Logout? ==> r.user == None
  {
    match a
    case Login(user) => s.(isAuthenticated := true, user := Some(user))
    case Logout => s.(isAuthenticated := false, user := None)
  }

  /** The action `login(email, password)` dispatches. */
  function LoginAction(email: string, password: string): (a: AuthAction)
    ensures a.Login? && a.payload.email == email && a.payload.password == password
  {
    Login(User(email, password))
  }

  /** `login(email, password)`: the state after its dispatch. */
  function DoLogin(s: AuthState, email: string, password: string): (r: AuthState)
    ensures r.isAuthenticated && r.user == Some(User(email, password))
  {
    AuthReduce(s, LoginAction(email, password))
  }

  /** `logout()`: the state after its dispatch. */
  function DoLogout(s: AuthState): (r: AuthState)
    ensures !r.isAuthenticated && r.user == None
  {
    AuthReduce(s, Logout)
  }

  /** The state after an action does not depend on the state before it. */
  lemma AuthReduceForgetsState(s: AuthState, t: AuthState, a: AuthAction)
    ensures AuthReduce(s, a) == AuthReduce(t, a)
  {
  }

  /** Logging out twice is logging out once, and logging in then out is logging out. */
  lemma LogoutAbsorbs(s: AuthState, email: string, password: string)
    ensures DoLogout(DoLogout(s)) == DoLogout(s)
    ensures DoLogout(DoLogin(s, email, password)) == DoLogout(s)
  {
  }
}
