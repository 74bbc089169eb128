/** The application's global state containers (src/helpers/state.ts). */
module State {

  /** The signed-in user; every field is '' when nobody is signed in. */
  datatype User = User(email: string, name: string, picture: string, refreshToken: string)

  /** The cached access token and the time (ms since the epoch) at which it expires. */
  datatype AccessToken = AccessToken(token: string, expiresAt: int)

  const SignedOut := User("", "", "", "")
  const NoToken := AccessToken("", 0)

  /** `globalUser` and `globalAccessToken` together. */
  datatype Credentials = Credentials(user: User, accessToken: AccessToken)

  /** The revoke request both sign-out handlers send, carrying the refresh token. */
  function RevokeUrl(refreshToken: string): string {
    "https://oauth2.googleapis.com/revoke?token=" + refreshToken
  }

  /** The two session globals, both replaced as a whole by every `set`. */
  class Session {
    var user: User
    var accessToken: AccessToken

    constructor ()
      ensures user == SignedOut && accessToken == NoToken
    {
      user := SignedOut;
      accessToken := NoToken;
    }

    function Snapshot(): Credentials
      reads this
    {
      Credentials(user, accessToken)
    }

    /** The two `set` calls every sign-out path makes: the token becomes `{'', 0}`
        and all four user fields become empty. */
    method SignOut()
      modifies this
      ensures accessToken == NoToken && user == SignedOut
    {
      accessToken := NoToken;
      user := SignedOut;
    }
  }

  /** `globalImageIds` and `globalTemplate`. */
  class Settings {
    var imageIds: seq<string>
    var template: string

    constructor ()
      ensures imageIds == [] && template == ""
    {
      imageIds := [];
      template := "";
    }
  }

  /** `errorState` or `successState`: a message and whether its banner is shown. */
  class Banner {
    var message: string
    var show: bool

    constructor ()
      ensures message == "" && !show
    {
      message := "";
      show := false;
    }
  }
}
