/** The process-wide registry of CRUD managers in pyfederate3/crud/auth.py:
    five slots, each of which may be filled once, and a configuration check
    that all of them are. The getters return the slot as it is (their
    "not set" check is commented out), so they are the fields themselves. */
module AuthCrud {
  import opened Wrappers

  /** The managers themselves are not part of this model: only their identity
      matters here. */
  class ScopeCrudManager { constructor () {} }
  class TokenModelCrudManager { constructor () {} }
  class ClientCrudManager { constructor () {} }
  class AuthnSessionCrudManager { constructor () {} }
  class TokenSessionCrudManager { constructor () {} }

  datatype ConfigError =
    /** `RuntimeError("The manager was already set")`. */
    | ManagerAlreadySet
    /** The failed `assert` of `check_config`. */
    | MissingConfiguration

  /** The `TypeError` Python raises when a value that is not a function is
      called. */
  datatype CallError = TypeError(message: string)

  class AuthCrudManager {
    var scopeManager: ScopeCrudManager?
    var tokenModelManager: TokenModelCrudManager?
    var clientManager: ClientCrudManager?
    var authnSessionManager: AuthnSessionCrudManager?
    var tokenSessionManager: TokenSessionCrudManager?

    /** Every slot is filled. */
    predicate IsConfigured()
      reads this
    {
      && scopeManager != null && tokenModelManager != null && clientManager != null
      && authnSessionManager != null && tokenSessionManager != null
    }

    /** A fresh manager has every slot unset. */
    constructor ()
      ensures scopeManager == null && tokenModelManager == null && clientManager == null
      ensures authnSessionManager == null && tokenSessionManager == null
      ensures !IsConfigured()
    {
      scopeManager := null;
      tokenModelManager := null;
      clientManager := null;
      authnSessionManager := null;
      tokenSessionManager := null;
    }

    /** The `scope_manager` setter. */
    method SetScopeManager(manager: ScopeCrudManager) returns (err: Option<ConfigError>)
      modifies this`scopeManager
      ensures err.None? <==> old(scopeManager) == null
      ensures err.Some? ==> err.value == ManagerAlreadySet
      ensures scopeManager == if err.None? then manager else old(scopeManager)
    {
      if scopeManager != null {
        return Some(ManagerAlreadySet);
      }
      scopeManager := manager;
      err := None;
    }

    /** The `token_model_manager` setter. */
    method SetTokenModelManager(manager: TokenModelCrudManager) returns (err: Option<ConfigError>)
      modifies this`tokenModelManager
      ensures err.None? <==> old(tokenModelManager) == null
      ensures err.Some? ==> err.value == ManagerAlreadySet
      ensures tokenModelManager == if err.None? then manager else old(tokenModelManager)
    {
      if tokenModelManager != null {
        return Some(ManagerAlreadySet);
      }
      tokenModelManager := manager;
      err := None;
    }

    /** The `client_manager` setter. */
    method SetClientManager(manager: ClientCrudManager) returns (err: Option<ConfigError>)
      modifies this`clientManager
      ensures err.None? <==> old(clientManager) == null
      ensures err.Some? ==> err.value == ManagerAlreadySet
      ensures clientManager == if err.None? then manager else old(clientManager)
    {
      if clientManager != null {
        return Some(ManagerAlreadySet);
      }
      clientManager := manager;
      err := None;
    }

    /** The `authn_session_manager` setter. */
    method SetAuthnSessionManager(manager: AuthnSessionCrudManager) returns (err: Option<ConfigError>)
      modifies this`authnSessionManager
      ensures err.None? <==> old(authnSessionManager) == null
      ensures err.Some? ==> err.value == ManagerAlreadySet
      ensures authnSessionManager == if err.None? then manager else old(authnSessionManager)
    {
      if authnSessionManager != null {
        return Some(ManagerAlreadySet);
      }
      authnSessionManager := manager;
      err := None;
    }

    /** The `token_session_manager` setter. */
    method SetTokenSessionManager(manager: TokenSessionCrudManager) returns (err: Option<ConfigError>)
      modifies this`tokenSessionManager
      ensures err.None? <==> old(tokenSessionManager) == null
      ensures err.Some? ==> err.value == ManagerAlreadySet
      ensures tokenSessionManager == if err.None? then manager else old(tokenSessionManager)
    {
      if tokenSessionManager != null {
        return Some(ManagerAlreadySet);
      }
      tokenSessionManager := manager;
      err := None;
    }

    /** `check_config`: it tests the token-model slot twice, which changes
        nothing about the verdict. */
    method CheckConfig() returns (err: Option<ConfigError>)
      ensures err.None? <==> IsConfigured()
      ensures err.Some? ==> err.value == MissingConfiguration
    {
      var configured :=
        && tokenModelManager != null
        && scopeManager != null
        && clientManager != null
        && tokenModelManager != null
        && authnSessionManager != null
        && tokenSessionManager != null;
      err := if configured then None else Some(MissingConfiguration);
    }
  }

  /** `AuthCRUDManager` under `@singleton`, taking pyfederate3's `singleton`
      (pyfederate3/utils/tools.py is not part of this model) to be the one of
      pyfederate/utils/tools.py: every call `AuthCRUDManager()` yields the
      instance the first call built.
      `Tools.Singleton` builds its instance with a function `A -> T`, and a
      Dafny function cannot allocate an object, so the wrapper is written out
      here with `new` in the method that takes the first call. */
  class AuthCrudManagerSingleton {
    var instance: AuthCrudManager?

    constructor ()
      ensures instance == null
    {
      instance := null;
    }

    /** The call `AuthCRUDManager()`, which is also what `get_manager`
        returns when it is reached through an instance, and what the
        class-level `AuthCRUDManager.get_manager()` is evidently meant to
        return. */
    method GetManager() returns (manager: AuthCrudManager)
      modifies this
      ensures instance == manager
      ensures old(instance) != null ==> manager == old(instance)
      ensures old(instance) == null ==>
                && fresh(manager)
                && manager.scopeManager == null && manager.tokenModelManager == null
                && manager.clientManager == null && manager.authnSessionManager == null
                && manager.tokenSessionManager == null
                && !manager.IsConfigured()
    {
      if instance == null {
        instance := new AuthCrudManager();
      }
      manager := instance;
    }

    /** The class-level call `AuthCRUDManager.get_manager()` as written.
        `functools.wraps` copies the class's attributes onto the wrapper
        function, so `get_manager` there is the bare `classmethod` object,
        which cannot be called: the call raises before the cached instance
        is consulted, and nothing changes. */
    method ClassGetManagerAsWritten() returns (r: Result<AuthCrudManager, CallError>)
      ensures r.Failure?
      ensures r.error == TypeError("'classmethod' object is not callable")
    {
      r := Failure(TypeError("'classmethod' object is not callable"));
    }
  }
}
