/**
  The shared authentication store that every component reaches through
  `useAuthContext()`: the state the guard and the login form read, and the
  actions they call on it.  What the actions do inside the store is not part
  of this model; each call is recorded, in order, in `calls`.
 */
module AuthContext {

  /** The text of an error handed to `authError`.  `CouldntFindUser` stands
      for the login form's `COULDNT_FIND_USER` constant, whose wording is
      defined outside the modelled files. */
  datatype ErrorText = Text(text: string) | CouldntFindUser

  /** One call on the store's actions. */
  datatype AuthAction =
    | ClearErrorCall
    | AuthErrorCall(message: ErrorText)
    | PasswordLoginCall(username: string, password: string)

  class AuthStore {
    /** `authState.authenticated`, `authState.jailed` and `authState.loading`. */
    var authenticated: bool
    var jailed: bool
    var loading: bool
    /** Every action called on the store so far, oldest first. */
    var calls: seq<AuthAction>

    constructor (authenticated: bool, jailed: bool, loading: bool)
      ensures this.authenticated == authenticated && this.jailed == jailed
      ensures this.loading == loading && calls == []
    {
      this.authenticated := authenticated;
      this.jailed := jailed;
      this.loading := loading;
      calls := [];
    }

    /** `authActions.clearError()` */
    method ClearError()
      modifies this`calls
      ensures calls == old(calls) + [ClearErrorCall]
    {
      calls := calls + [ClearErrorCall];
    }

    /** `authActions.authError(message)` */
    method AuthError(message: ErrorText)
      modifies this`calls
      ensures calls == old(calls) + [AuthErrorCall(message)]
    {
      calls := calls + [AuthErrorCall(message)];
    }

    /** `authActions.passwordLogin({ username, password })` */
    method PasswordLogin(username: string, password: string)
      modifies this`calls
      ensures calls == old(calls) + [PasswordLoginCall(username, password)]
    {
      calls := calls + [PasswordLoginCall(username, password)];
    }
  }
}
