/**
 * The authentication store: the signed-in user, the authenticated flag, the
 * loading flag and the last error. Each request is split at its `await`;
 * methods that return `thrown` report the error the action rethrows to its
 * caller.
 */
module AuthStore {
  import opened Wrappers
  import opened Types

  const LoginFallback := "Login failed"
  const RegisterFallback := "Registration failed"

  /** The slice written to storage: the authenticated flag alone. */
  datatype PersistedAuth = PersistedAuth(isAuthenticated: bool)

  class Auth {
    var user: Option<User>
    var isAuthenticated: bool
    var isLoading: bool
    var error: Option<string>

    /** Signed out and idle. */
    constructor()
      ensures user == None && !isAuthenticated && !isLoading && error == None
    {
      user := None;
      isAuthenticated := false;
      isLoading := false;
      error := None;
    }

    /** The store after a reload: only the persisted flag survives. */
    constructor Rehydrated(p: PersistedAuth)
      ensures user == None && isAuthenticated == p.isAuthenticated && !isLoading && error == None
    {
      user := None;
      isAuthenticated := p.isAuthenticated;
      isLoading := false;
      error := None;
    }

    /** `partialize`. */
    function Persisted(): (p: PersistedAuth)
      reads this
      ensures p.isAuthenticated == isAuthenticated
    {
      PersistedAuth(isAuthenticated)
    }

    /** What login and register do before their request. */
    method BeginSession()
      modifies this`isLoading, this`error
      ensures isLoading && error == None
    {
      isLoading := true;
      error := None;
    }

    /**
     * Login or register once the request settled: on success the user is
     * signed in; on failure only the loading flag and the error change, and
     * the error is rethrown.
     */
    method SettleSession(outcome: Result<User>, fallback: string) returns (thrown: Option<string>)
      modifies this`user, this`isAuthenticated, this`isLoading, this`error
      ensures !isLoading
      ensures outcome.Ok? ==> user == Some(outcome.value) && isAuthenticated && error == old(error) && thrown == None
      ensures outcome.Err? ==> user == old(user) && isAuthenticated == old(isAuthenticated)
                               && error == Some(OrFallback(outcome.message, fallback))
                               && thrown == Some(outcome.message)
    {
      match outcome
      case Ok(u) =>
        user := Some(u);
        isAuthenticated := true;
        isLoading := false;
        thrown := None;
      case Err(m) =>
        isLoading := false;
        error := Some(OrFallback(m, fallback));
        thrown := Some(m);
    }

    /** `login` once its request settled. */
    method LoginResolve(outcome: Result<User>) returns (thrown: Option<string>)
      modifies this`user, this`isAuthenticated, this`isLoading, this`error
      ensures !isLoading
      ensures outcome.Ok? ==> user == Some(outcome.value) && isAuthenticated && error == old(error) && thrown == None
      ensures outcome.Err? ==> user == old(user) && isAuthenticated == old(isAuthenticated)
                               && error == Some(OrFallback(outcome.message, LoginFallback))
                               && thrown == Some(outcome.message)
    {
      thrown := SettleSession(outcome, LoginFallback);
    }

    /** `register` once its request settled. */
    method RegisterResolve(outcome: Result<User>) returns (thrown: Option<string>)
      modifies this`user, this`isAuthenticated, this`isLoading, this`error
      ensures !isLoading
      ensures outcome.Ok? ==> user == Some(outcome.value) && isAuthenticated && error == old(error) && thrown == None
      ensures outcome.Err? ==> user == old(user) && isAuthenticated == old(isAuthenticated)
                               && error == Some(OrFallback(outcome.message, RegisterFallback))
                               && thrown == Some(outcome.message)
    {
      thrown := SettleSession(outcome, RegisterFallback);
    }

    /** `logout` before its request. */
    method LogoutBegin()
      modifies this`isLoading
      ensures isLoading
    {
      isLoading := true;
    }

    /** `logout` once its request settled: signed out whatever happened; a failure still propagates. */
    method LogoutResolve(failure: Option<string>) returns (thrown: Option<string>)
      modifies this`user, this`isAuthenticated, this`isLoading, this`error
      ensures user == None && !isAuthenticated && !isLoading && error == None
      ensures thrown == failure
    {
      user := None;
      isAuthenticated := false;
      isLoading := false;
      error := None;
      thrown := failure;
    }

    /** `fetchUser` before its request; `started` is false when it returns at once, signed out. */
    method FetchUserBegin() returns (started: bool)
      modifies this`isLoading
      ensures started == isAuthenticated
      ensures started ==> isLoading
      ensures !started ==> isLoading == old(isLoading)
    {
      started := isAuthenticated;
      if started {
        isLoading := true;
      }
    }

    /** `fetchUser` once its request settled: a failure signs the user out. */
    method FetchUserResolve(outcome: Result<User>)
      modifies this`user, this`isAuthenticated, this`isLoading
      ensures !isLoading
      ensures outcome.Ok? ==> user == Some(outcome.value) && isAuthenticated == old(isAuthenticated)
      ensures outcome.Err? ==> user == None && !isAuthenticated
    {
      match outcome
      case Ok(u) =>
        user := Some(u);
        isLoading := false;
      case Err(_) =>
        user := None;
        isAuthenticated := false;
        isLoading := false;
    }

    method ClearError()
      modifies this`error
      ensures error == None
    {
      error := None;
    }

    /** `setUser`: authenticated exactly when a user is given. */
    method SetUser(u: Option<User>)
      modifies this`user, this`isAuthenticated
      ensures user == u && isAuthenticated == u.Some?
    {
      user := u;
      isAuthenticated := u.Some?;
    }
  }

  /** Rehydrating from the persisted slice gives the slice back; the user is not kept across a reload. */
  method PersistRoundTrip(a: Auth) returns (b: Auth)
    ensures b.Persisted() == a.Persisted()
    ensures b.user == None
  {
    b := new Auth.Rehydrated(a.Persisted());
  }
}
