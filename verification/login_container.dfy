/** The sign-in screen's response handler: it marks the screen busy, clears
    the previous error, awaits the sign-in call, and then either opens the
    session or shows the reported error. */
module LoginContainer {
  import opened Wrappers
  import opened AuthContext

  /** The decoded answer of the sign-in call, by the keys it carries (`role`
      is read only when `token` is present); `Threw` when the awaited call
      rejected. */
  datatype LoginReply = Reply(token: Option<string>, role: string, error: Option<string>) | Threw

  /** The message shown for an empty `error`. */
  const DefaultError: string := "Google login failed"

  class LoginContainer {
    const auth: AuthProvider
    var loading: bool
    var error: Option<string>

    constructor (auth: AuthProvider)
      ensures this.auth == auth && !loading && error.None?
    {
      this.auth := auth;
      loading := false;
      error := None;
    }

    /** `handleGoogleResponse` once the call has settled. */
    method HandleGoogleResponse(reply: LoginReply)
      modifies this, auth, auth.storage
      ensures reply.Threw? ==> loading && error.None? && unchanged(auth, auth.storage)
      ensures reply.Reply? ==> !loading
      ensures reply.Reply? && reply.token.Some? ==>
        && error.None?
        && auth.token == reply.token && auth.role == Some(reply.role) && auth.Mirrored()
        && auth.storage.entries == old(auth.storage.entries)[TokenKey := reply.token.value][RoleKey := reply.role]
      ensures reply.Reply? && reply.token.None? && reply.error.Some? ==>
        && error == Some(if reply.error.value == "" then DefaultError else reply.error.value)
        && unchanged(auth, auth.storage)
      ensures reply.Reply? && reply.token.None? && reply.error.None? ==>
        error.None? && unchanged(auth, auth.storage)
    {
      loading := true;
      error := None;
      if reply.Threw? {
        return;
      }
      loading := false;
      if reply.token.Some? {
        auth.Login(reply.token.value, reply.role);
      } else if reply.error.Some? {
        error := Some(if reply.error.value == "" then DefaultError else reply.error.value);
      }
    }
  }
}
