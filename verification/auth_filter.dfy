/** The per-request authentication filter: a known `X-Auth-Token` header
    installs an authentication for the token's user, and the request
    continues down the filter chain unless building the authority fails. */
module AuthFilter {
  import opened Wrappers
  import Text
  import opened AuthMapper
  import opened AuthService

  /** An authenticated principal with its granted authorities (the
      credentials are always null and are not kept). */
  datatype Authentication = Authentication(principal: User, authorities: seq<string>)

  /** The security context's one cell: the current authentication. */
  class SecurityContext {
    var authentication: Option<Authentication>

    constructor ()
      ensures authentication.None?
    {
      authentication := None;
    }
  }

  /** The rest of the filter chain; only the number of times it is entered
      is observed. */
  class FilterChain {
    var invocations: nat

    constructor ()
      ensures invocations == 0
    {
      invocations := 0;
    }

    method DoFilter()
      modifies this
      ensures invocations == old(invocations) + 1
    {
      invocations := invocations + 1;
    }
  }

  /** The granted authority: the user's role, or "student" when it is null
      (an empty or whitespace-only role is passed on as it is, and is then
      refused by `SimpleGrantedAuthority`). */
  function AuthorityFor(u: User): (a: string)
    ensures u.role.Some? ==> a == u.role.value
    ensures u.role.None? ==> a == "student"
  {
    if u.role.Some? then u.role.value else "student"
  }

  class AuthFilter {
    const authService: AuthService

    constructor (authService: AuthService)
      ensures this.authService == authService
    {
      this.authService := authService;
    }

    /** The stored user a request carrying `header` resolves to: the token's
        username looked up in the repository. */
    function UserFor(header: Option<string>): (u: Option<User>)
      reads authService
      ensures header.None? ==> u.None?
      ensures u.Some? <==>
        authService.IsTokenValid(header) && authService.tokens[header.value] in authService.users
      ensures u.Some? ==> u.value == authService.users[authService.tokens[header.value]]
    {
      if header.None? then None
      else
        var username := authService.GetUsernameFromToken(header);
        if username.None? then None
        else authService.FindUserByUsername(username.value)
    }

    /** `new SimpleGrantedAuthority(role)` asserts that the role has text:
        a resolved user whose role is empty or only whitespace makes the
        filter fail. */
    function Rejects(header: Option<string>): (rejected: bool)
      reads authService
      ensures rejected <==>
        && UserFor(header).Some? && UserFor(header).value.role.Some?
        && forall i :: 0 <= i < |UserFor(header).value.role.value| ==>
             Text.IsJavaWhitespace(UserFor(header).value.role.value[i])
      ensures UserFor(header).Some? && UserFor(header).value.role == Some("") ==> rejected
    {
      var user := UserFor(header);
      assert Text.HasText("student") by { assert !Text.IsJavaWhitespace("student"[0]); }
      user.Some? && !Text.HasText(AuthorityFor(user.value))
    }

    /** The authentication the filter installs for a request carrying
        `header`, or `None` when it installs nothing. */
    function AuthenticationFor(header: Option<string>): (a: Option<Authentication>)
      reads authService
      ensures header.None? ==> a.None?
      ensures a.Some? <==>
        && authService.IsTokenValid(header) && authService.tokens[header.value] in authService.users
        && !Rejects(header)
      ensures a.Some? ==>
        && a.value.principal == authService.users[authService.tokens[header.value]]
        && |a.value.authorities| == 1
        && a.value.authorities[0] == AuthorityFor(a.value.principal)
        && Text.HasText(a.value.authorities[0])
    {
      var user := UserFor(header);
      if user.None? || !Text.HasText(AuthorityFor(user.value)) then None
      else Some(Authentication(user.value, [AuthorityFor(user.value)]))
    }

    /** `doFilterInternal`: installs the authentication when there is one
        and calls the chain once; when the authority cannot be built the
        exception leaves the context alone and the chain is never called. */
    method DoFilterInternal(header: Option<string>, context: SecurityContext, chain: FilterChain)
      returns (threw: bool)
      modifies context, chain
      ensures threw <==> Rejects(header)
      ensures threw ==> chain.invocations == old(chain.invocations)
      ensures !threw ==> chain.invocations == old(chain.invocations) + 1
      ensures AuthenticationFor(header).Some? ==> context.authentication == AuthenticationFor(header)
      ensures AuthenticationFor(header).None? ==> context.authentication == old(context.authentication)
    {
      threw := false;
      if header.Some? {
        var usernameOpt := authService.GetUsernameFromToken(header);
        if usernameOpt.Some? {
          var userOpt := authService.FindUserByUsername(usernameOpt.value);
          if userOpt.Some? {
            var user := userOpt.value;
            var role := if user.role.Some? then user.role.value else "student";
            if !Text.HasText(role) {
              return true;
            }
            context.authentication := Some(Authentication(user, [role]));
          }
        }
      }
      chain.DoFilter();
    }
  }

  /** While the token tables are consistent, every valid token whose user's
      role is null or has text authenticates that user without the filter
      failing, with the role recorded at sign-in when the user's role has
      not changed since. */
  lemma ValidTokenAuthenticates(f: AuthFilter, token: string)
    requires f.authService.Valid()
    requires token in f.authService.tokens
    requires var u := f.authService.users[f.authService.tokens[token]];
      u.role.None? || Text.HasText(u.role.value)
    ensures !f.Rejects(Some(token))
    ensures f.AuthenticationFor(Some(token)).Some?
    ensures var u := f.authService.users[f.authService.tokens[token]];
      u.role == Some(f.authService.tokenRoles[token]) ==>
        f.AuthenticationFor(Some(token)).value.authorities == [f.authService.tokenRoles[token]]
  {
  }

  /** A valid token whose user's role is only whitespace makes the filter
      throw: nothing is authenticated. Sign-in issues such tokens, since it
      keeps a stored role that is not empty. */
  lemma BlankRoleRejected(f: AuthFilter, token: string)
    requires f.authService.Valid()
    requires token in f.authService.tokens
    requires var u := f.authService.users[f.authService.tokens[token]];
      u.role.Some? && !Text.HasText(u.role.value)
    ensures f.Rejects(Some(token))
    ensures f.AuthenticationFor(Some(token)).None?
  {
  }

  /** A user stored with the role " " signs in, is issued a token, and the
      next request carrying that token makes the filter throw before the
      chain is entered. */
  method WhitespaceRoleSignInThrows() returns (threw: bool, invocations: nat)
    ensures threw && invocations == 0
  {
    var email := "someone@example.com";
    var stored := User(Some(email), Some(email), Some("g"), Some("GOOGLE"), Some(" "));
    var service := new AuthService(map[email := stored]);
    var response, saved := service.GoogleLogin(Some("g"), email, None, "tok");
    assert service.tokens["tok"] == email;
    assert service.users[email].role == Some(" ");
    var filter := new AuthFilter(service);
    var context := new SecurityContext();
    var chain := new FilterChain();
    threw := filter.DoFilterInternal(Some("tok"), context, chain);
    invocations := chain.invocations;
  }
}
