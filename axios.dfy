/** The earlier revision of the API client, built on axios (src/helpers/axios.ts). Its
    token refresh and request interceptor decide exactly as the ky hooks do; its
    response interceptor reports through the notification banner. */
module Axios {
  import opened Wrappers
  import opened State
  import Ky
  import Notification

  /** How axios settles a request: with its response data, or rejected with an error. */
  datatype Reply = Fulfilled(data: string) | Rejected(err: Notification.ErrorValue)

  /** What the caller's `await` receives after the response interceptor. */
  datatype Outcome = Data(data: string) | EmptyObject

  /** `refreshAccessToken`, same decisions as the ky revision. */
  method RefreshAccessToken(session: Session, reply: Ky.RefreshReply, now: int, origin: string)
    returns (end: Ky.RefreshEnd)
    modifies session
    ensures (session.Snapshot(), end) == Ky.Refreshed(old(session.Snapshot()), reply, now, origin)
  {
    match reply
    case Granted(token, expiresIn) =>
      session.accessToken := AccessToken(token, now + expiresIn * 1000);
      end := Ky.Settled(None);
    case Failed(code) =>
      if code.None? {
        end := Ky.Threw;
      } else if code.value == Ky.InvalidGrant {
        session.user := SignedOut;
        session.accessToken := NoToken;
        end := Ky.Settled(Some(Ky.LogInAgainUrl(origin)));
      } else {
        end := Ky.Settled(None);
      }
  }

  /** The request interceptor: refresh inside the window, then set the header from the
      token held afterwards, only when a token was held on entry. */
  method RequestInterceptor(session: Session, now: int, reply: Ky.RefreshReply, repliedAt: int, origin: string)
    returns (request: Ky.Prepared, redirect: Option<string>)
    modifies session
    ensures Ky.Hooked(session.Snapshot(), request, redirect) ==
            Ky.BeforeRequestEffect(old(session.Snapshot()), now, reply, repliedAt, origin)
  {
    request, redirect := Ky.Send(None), None;
    if session.accessToken.token != "" {
      if session.accessToken.expiresAt - now < Ky.RefreshWindow {
        var end := RefreshAccessToken(session, reply, repliedAt, origin);
        if end.Threw? {
          return Ky.Aborted, None;
        }
        redirect := end.redirect;
      }
      request := Ky.Send(Some("Bearer " + session.accessToken.token));
    }
  }

  /** The response interceptor: a success passes through; a failure is reported
      through `error` and resolves to `{}` instead of rejecting. */
  method ResponseInterceptor(errorState: Banner, reply: Reply) returns (outcome: Outcome)
    modifies errorState
    ensures reply.Fulfilled? ==> outcome == Data(reply.data) && unchanged(errorState)
    ensures reply.Rejected? ==>
              outcome == EmptyObject && errorState.message == Notification.Message(reply.err) && errorState.show
  {
    match reply
    case Fulfilled(data) =>
      outcome := Data(data);
    case Rejected(err) =>
      Notification.Error(errorState, err);
      outcome := EmptyObject;
  }
}
