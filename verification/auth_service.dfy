/** The backend session table: Google sign-in decides the user's role and
    records a fresh token; logout removes it; the queries read it. */
module AuthService {
  import opened Wrappers
  import opened AuthMapper

  /** The e-mail address that is always granted the admin role. */
  const AdminEmail: string := "raiabhijeet3009@gmail.com"

  /** `user.getRole() == null || user.getRole().isEmpty()`. */
  function RoleMissing(role: Option<string>): (missing: bool)
    ensures missing <==> role.None? || |role.value| == 0
  {
    role.None? || role.value == ""
  }

  /** The role the user signing in with `email` ends up with, given the user
      the repository holds under that e-mail (if any). */
  function RoleAfterLogin(email: string, stored: Option<User>): (role: string)
    ensures role != ""
    ensures stored.None? ==> (role == "admin" <==> email == AdminEmail) && (role == "admin" || role == "student")
    ensures email == AdminEmail ==> role == "admin"
    ensures stored.Some? && email != AdminEmail && !RoleMissing(stored.value.role) ==> role == stored.value.role.value
    ensures stored.Some? && email != AdminEmail && RoleMissing(stored.value.role) ==> role == "student"
  {
    if email == AdminEmail then "admin"
    else if stored.None? || RoleMissing(stored.value.role) then "student"
    else stored.value.role.value
  }

  /** The user the repository holds after sign-in; `None` when a new user
      cannot be created because the Google subject is null. */
  function UserAfterLogin(email: string, googleId: Option<string>, stored: Option<User>): (u: Option<User>)
    ensures u.None? <==> stored.None? && googleId.None?
    ensures u.Some? ==> u.value.role == Some(RoleAfterLogin(email, stored))
    ensures u.Some? && stored.Some? ==> u.value == stored.value.(role := u.value.role)
    ensures u.Some? && stored.None? ==> u.value == CreateGoogleUser(Some(email), googleId).value.(role := u.value.role)
  {
    var role := Some(RoleAfterLogin(email, stored));
    if stored.Some? then Some(stored.value.(role := role))
    else
      var created := CreateGoogleUser(Some(email), googleId);
      if created.None? then None else Some(created.value.(role := role))
  }

  class AuthService {
    /** TOKENS: token -> e-mail of the signed-in user. */
    var tokens: map<string, string>
    /** TOKEN_USER_ROLE: token -> role recorded at sign-in. */
    var tokenRoles: map<string, string>
    /** The user repository, by e-mail. */
    var users: map<string, User>

    /** Both token tables have the same tokens, every recorded role is
        non-empty, every token names a stored user whose role is not the
        empty string, and the repository files each user under its own
        e-mail. */
    ghost predicate Valid()
      reads this
    {
      && tokens.Keys == tokenRoles.Keys
      && (forall t :: t in tokenRoles ==> tokenRoles[t] != "")
      && (forall t :: t in tokens ==> tokens[t] in users)
      && (forall t :: t in tokens && tokens[t] in users ==> users[tokens[t]].role != Some(""))
      && (forall e :: e in users ==> users[e].email == Some(e))
    }

    /** A service over an existing repository; no one is signed in. */
    constructor (users: map<string, User>)
      requires forall e :: e in users ==> users[e].email == Some(e)
      ensures Valid()
      ensures this.users == users && tokens == map[] && tokenRoles == map[]
    {
      this.users := users;
      tokens := map[];
      tokenRoles := map[];
    }

    /** `userRepository.findByEmail`. */
    function FindUserByUsername(username: string): (u: Option<User>)
      reads this
      ensures u.Some? <==> username in users
      ensures u.Some? ==> u.value == users[username]
    {
      Get(users, username)
    }

    /** `googleLogin` after the Google payload has been read: `googleId`,
        `email` and `name` are its subject, e-mail and name, `token` the
        freshly generated token. Returns the response, and whether the user
        was saved. `None` is the NullPointerException raised when a new user
        has no Google subject; nothing changes then. */
    method GoogleLogin(googleId: Option<string>, email: string, name: Option<string>, token: string)
      returns (r: Option<AuthResponse>, saved: bool)
      requires Valid()
      modifies this
      ensures Valid()
      ensures var stored := Get(old(users), email);
        && (r.None? <==> stored.None? && googleId.None?)
        && (r.None? ==> tokens == old(tokens) && tokenRoles == old(tokenRoles) && users == old(users) && !saved)
        && (r.Some? ==>
             var role := RoleAfterLogin(email, stored);
             var user := UserAfterLogin(email, googleId, stored).value;
             && tokens == old(tokens)[token := email]
             && tokenRoles == old(tokenRoles)[token := role]
             && users == old(users)[email := user]
             && r == ToAuthResponseNamed(Some(user), Some(token), name)
             && GetUsernameFromToken(Some(token)) == Some(email)
             && GetRoleFromToken(Some(token)) == Some(role)
             && (saved <==> stored.None? || stored.value.role != Some(role)))
    {
      var existing := FindUserByUsername(email);
      var user: User;
      saved := false;
      if existing.None? {
        var created := CreateGoogleUser(Some(email), googleId);
        if created.None? {
          r := None;
          return;
        }
        user := created.value;
        if AdminEmail == email {
          user := user.(role := Some("admin"));
        } else {
          user := user.(role := Some("student"));
        }
        users := users[email := user];
        saved := true;
      } else {
        user := existing.value;
        if AdminEmail == email {
          if user.role != Some("admin") {
            user := user.(role := Some("admin"));
            users := users[email := user];
            saved := true;
          }
        } else {
          if user.role.None? || user.role.value == "" {
            user := user.(role := Some("student"));
            users := users[email := user];
            saved := true;
          }
        }
      }
      assert users == old(users)[email := user];
      tokens := tokens[token := email];
      tokenRoles := tokenRoles[token := user.role.value];
      r := ToAuthResponseNamed(Some(user), Some(token), name);
    }

    /** `logout`: removes a known token from both tables and reports whether
        it did. */
    method Logout(token: Option<string>) returns (removed: bool)
      requires Valid()
      modifies this
      ensures Valid()
      ensures removed <==> token.Some? && token.value in old(tokens)
      ensures removed ==> tokens == old(tokens) - {token.value} && tokenRoles == old(tokenRoles) - {token.value}
      ensures !removed ==> tokens == old(tokens) && tokenRoles == old(tokenRoles)
      ensures token.Some? ==> token.value !in tokens && token.value !in tokenRoles
      ensures users == old(users)
    {
      if token.Some? && token.value in tokens {
        tokens := tokens - {token.value};
        tokenRoles := tokenRoles - {token.value};
        return true;
      }
      return false;
    }

    /** `isTokenValid`: a non-null token that sign-in recorded. */
    function IsTokenValid(token: Option<string>): (valid: bool)
      reads this
      ensures token.None? ==> !valid
      ensures valid <==> token.Some? && token.value in tokens
    {
      token.Some? && token.value in tokens
    }

    /** `getUsernameFromToken`: the e-mail recorded for a valid token. */
    function GetUsernameFromToken(token: Option<string>): (r: Option<string>)
      reads this
      ensures r.Some? <==> IsTokenValid(token)
      ensures r.Some? ==> r.value == tokens[token.value]
    {
      if token.Some? && token.value in tokens then Some(tokens[token.value]) else None
    }

    /** `getRoleFromToken`: the role recorded for the token at sign-in. */
    function GetRoleFromToken(token: Option<string>): (r: Option<string>)
      reads this
      ensures token.None? ==> r.None?
      ensures r.Some? <==> token.Some? && token.value in tokenRoles
      ensures r.Some? ==> r.value == tokenRoles[token.value]
    {
      if token.Some? && token.value in tokenRoles then Some(tokenRoles[token.value]) else None
    }
  }

  /** Under the table invariant a token has a role exactly when it is valid,
      and then its user is in the repository and its role is not empty. */
  lemma RoleKnownIffValid(s: AuthService, token: Option<string>)
    requires s.Valid()
    ensures s.GetRoleFromToken(token).Some? <==> s.IsTokenValid(token)
    ensures s.IsTokenValid(token) ==>
      s.FindUserByUsername(s.GetUsernameFromToken(token).value).Some? && s.GetRoleFromToken(token).value != ""
  {
  }
}
