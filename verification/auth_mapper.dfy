/** Building users and login responses: the user entity created for a
    first Google sign-in, and the response returned after login. */
module AuthMapper {
  import opened Wrappers

  /** The user entity; every field is a nullable Java string. */
  datatype User = User(
    username: Option<string>,
    email: Option<string>,
    googleId: Option<string>,
    authProvider: Option<string>,
    role: Option<string>)

  /** The login response: token, username, display name and role. */
  datatype AuthResponse = AuthResponse(
    token: string,
    username: Option<string>,
    displayName: Option<string>,
    role: Option<string>)

  /** `toAuthResponse(user, token)`: the display name is the email when
      there is one, otherwise the username. */
  function ToAuthResponse(user: Option<User>, token: Option<string>): (r: Option<AuthResponse>)
    ensures r.None? <==> user.None? || token.None?
    ensures r.Some? ==> r.value.token == token.value && r.value.username == user.value.username
                        && r.value.role == user.value.role
    ensures r.Some? ==> r.value.displayName == if user.value.email.Some? then user.value.email else user.value.username
  {
    if user.None? || token.None? then None
    else
      var u := user.value;
      var displayName := if u.email.Some? then u.email else u.username;
      Some(AuthResponse(token.value, u.username, displayName, u.role))
  }

  /** `toAuthResponse(user, token, name)`: the display name is `name` when
      given, otherwise the username. */
  function ToAuthResponseNamed(user: Option<User>, token: Option<string>, name: Option<string>): (r: Option<AuthResponse>)
    ensures r.None? <==> user.None? || token.None?
    ensures r.Some? ==> r.value.token == token.value && r.value.username == user.value.username
                        && r.value.role == user.value.role
    ensures r.Some? ==> r.value.displayName == if name.Some? then name else user.value.username
  {
    if user.None? || token.None? then None
    else
      var u := user.value;
      Some(AuthResponse(token.value, u.username, if name.Some? then name else u.username, u.role))
  }

  /** The two overloads agree when the named form is given the user's email. */
  lemma OverloadsAgree(user: Option<User>, token: Option<string>)
    ensures user.Some? ==> ToAuthResponse(user, token) == ToAuthResponseNamed(user, token, user.value.email)
    ensures user.None? ==> ToAuthResponse(user, token) == ToAuthResponseNamed(user, token, None) == None
  {
  }

  /** `createGoogleUser(email, googleId)`: null when either is null, otherwise
      a Google user whose username and email are `email`, with no role yet. */
  function CreateGoogleUser(email: Option<string>, googleId: Option<string>): (u: Option<User>)
    ensures u.None? <==> email.None? || googleId.None?
    ensures u.Some? ==> u.value.username == email && u.value.email == email && u.value.googleId == googleId
    ensures u.Some? ==> u.value.authProvider == Some("google") && u.value.role.None?
  {
    if email.None? || googleId.None? then None
    else Some(User(email, email, googleId, Some("google"), None))
  }

  /** For a user created by `createGoogleUser`, both overloads without a name
      display the email. */
  lemma GoogleUserDisplaysEmail(email: string, googleId: string, token: string)
    ensures var u := CreateGoogleUser(Some(email), Some(googleId));
      ToAuthResponse(u, Some(token)).value.displayName == Some(email)
      && ToAuthResponseNamed(u, Some(token), None).value.displayName == Some(email)
  {
  }
}
