/** The client's authentication store (src/stores/useAuthStore.ts). */
module AuthStore {

  import opened Wrappers

  datatype Role = Admin | UserRole | Viewer

  /** `User` of src/types/index.ts. */
  datatype User = User(id: string, email: string, name: string, role: Role, createdAt: string, updatedAt: string)

  /** `AuthState`, the store's four fields. */
  datatype AuthState = AuthState(user: Option<User>, isAuthenticated: bool, isLoading: bool, error: Option<string>)

  /** `initialState`. */
  const INITIAL_STATE := AuthState(None, false, false, None)

  class AuthStore {
    var user: Option<User>
    var isAuthenticated: bool
    var isLoading: bool
    var error: Option<string>

    function State(): AuthState
      reads this
    {
      AuthState(user, isAuthenticated, isLoading, error)
    }

    /** `create(...)` spreads `initialState`. */
    constructor ()
      ensures State() == INITIAL_STATE
    {
      user, isAuthenticated, isLoading, error := None, false, false, None;
    }

    method SetUser(u: Option<User>)
      modifies this
      ensures State() == old(State()).(user := u)
    {
      user := u;
    }

    method SetIsAuthenticated(value: bool)
      modifies this
      ensures State() == old(State()).(isAuthenticated := value)
    {
      isAuthenticated := value;
    }

    method SetIsLoading(value: bool)
      modifies this
      ensures State() == old(State()).(isLoading := value)
    {
      isLoading := value;
    }

    method SetError(e: Option<string>)
      modifies this
      ensures State() == old(State()).(error := e)
    {
      error := e;
    }

    /** `logout`: user, flag and error cleared; `isLoading` kept. */
    method Logout()
      modifies this
      ensures State() == old(State()).(user := None, isAuthenticated := false, error := None)
    {
      user, isAuthenticated, error := None, false, None;
    }

    /** `reset`: back to `initialState` from any state, so resetting twice is resetting once. */
    method Reset()
      modifies this
      ensures State() == INITIAL_STATE
    {
      user, isAuthenticated, isLoading, error := INITIAL_STATE.user, INITIAL_STATE.isAuthenticated,
        INITIAL_STATE.isLoading, INITIAL_STATE.error;
    }
  }
}
