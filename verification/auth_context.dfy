/** The client session store: a token and a role kept in memory and mirrored
    into two entries of the browser's local storage. */
module AuthContext {
  import opened Wrappers
  import Api

  const TokenKey: string := "authToken"
  const RoleKey: string := "authRole"

  /** The browser's durable key/value storage. */
  class LocalStorage {
    var entries: map<string, string>

    constructor (entries: map<string, string>)
      ensures this.entries == entries
    {
      this.entries := entries;
    }
  }

  class AuthProvider {
    const storage: LocalStorage
    var token: Option<string>
    var role: Option<string>

    /** The in-memory session equals what storage holds. */
    ghost predicate Mirrored()
      reads this, storage
    {
      Get(storage.entries, TokenKey) == token && Get(storage.entries, RoleKey) == role
    }

    /** `AuthProvider` mounting: the session starts as whatever storage holds,
        possibly nothing. */
    constructor (storage: LocalStorage)
      ensures this.storage == storage
      ensures token == Get(storage.entries, TokenKey) && role == Get(storage.entries, RoleKey)
      ensures Mirrored()
    {
      this.storage := storage;
      token := Get(storage.entries, TokenKey);
      role := Get(storage.entries, RoleKey);
    }

    /** `login`: both values go to storage and to the session; other storage
        entries are untouched. */
    method Login(newToken: string, newRole: string)
      modifies this, storage
      ensures storage.entries == old(storage.entries)[TokenKey := newToken][RoleKey := newRole]
      ensures token == Some(newToken) && role == Some(newRole)
      ensures Mirrored()
      ensures IsAuthenticated() <==> newToken != ""
    {
      storage.entries := storage.entries[TokenKey := newToken];
      storage.entries := storage.entries[RoleKey := newRole];
      token := Some(newToken);
      role := Some(newRole);
    }

    /** `logout`: removes both storage entries and clears the session, with
        no call to the backend; other storage entries are untouched. */
    method Logout()
      modifies this, storage
      ensures storage.entries == old(storage.entries) - {TokenKey, RoleKey}
      ensures token.None? && role.None?
      ensures Mirrored()
      ensures !IsAuthenticated()
    {
      storage.entries := storage.entries - {TokenKey};
      storage.entries := storage.entries - {RoleKey};
      token := None;
      role := None;
    }

    /** `isAuthenticated`: `!!token`. */
    function IsAuthenticated(): (authenticated: bool)
      reads this
      ensures authenticated <==> token.Some? && token.value != ""
    {
      Api.Truthy(token)
    }
  }

  /** A page reload after `login(t, r)` restores the session `(t, r)`. */
  method ReloadAfterLogin(storage: LocalStorage, t: string, r: string) returns (reloaded: AuthProvider)
    modifies storage
    ensures reloaded.token == Some(t) && reloaded.role == Some(r)
  {
    var session := new AuthProvider(storage);
    session.Login(t, r);
    reloaded := new AuthProvider(storage);
  }

  /** A page reload after `logout()` comes back signed out. */
  method ReloadAfterLogout(storage: LocalStorage) returns (reloaded: AuthProvider)
    modifies storage
    ensures reloaded.token.None? && reloaded.role.None? && !reloaded.IsAuthenticated()
  {
    var session := new AuthProvider(storage);
    session.Logout();
    reloaded := new AuthProvider(storage);
  }
}
