/** The notification banners and the profile dialog's sign-out button
    (src/components/GlobalLazyComponents.tsx). */
module GlobalLazyComponents {
  import opened Wrappers
  import opened State

  /** The `showProfileDialog` state the parent owns and passes down with its setter. */
  class ProfileDialog {
    var open: bool

    constructor (open: bool)
      ensures this.open == open
    {
      this.open := open;
    }
  }

  /** `logOut`: close the dialog, revoke with the refresh token held before clearing,
      clear the session, and go to `/` unless already there. */
  method LogOut(dialog: ProfileDialog, session: Session, pathname: string)
    returns (revokeUrl: string, navigate: Option<string>)
    modifies dialog, session
    ensures !dialog.open
    ensures revokeUrl == RevokeUrl(old(session.user.refreshToken))
    ensures session.accessToken == NoToken && session.user == SignedOut
    ensures navigate == (if pathname != "/" then Some("/") else None)
  {
    dialog.open := false;
    revokeUrl := RevokeUrl(session.user.refreshToken);
    session.SignOut();
    navigate := None;
    if pathname != "/" {
      navigate := Some("/");
    }
  }

  /** `handleCloseError` and `handleCloseSuccess`, the same handler on the two banners:
      a click away from the snackbar keeps it; any other close hides it. The message
      is kept either way. */
  method HandleClose(banner: Banner, reason: Option<string>)
    modifies banner
    ensures banner.message == old(banner.message)
    ensures banner.show == (old(banner.show) && reason == Some("clickaway"))
  {
    if reason == Some("clickaway") {
      return;
    }
    banner.show := false;
  }
}
