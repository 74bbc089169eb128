/** The HTTP client for Google's APIs built on ky (src/helpers/ky.ts): a hook that
    refreshes the access token shortly before it expires and attaches it, and a hook
    that turns failed responses into empty ones. */
module Ky {
  import opened Wrappers
  import opened State

  /** A token with fewer than this many milliseconds left is refreshed first. */
  const RefreshWindow := 60000
  /** The token endpoint's error code for a refresh token that is no longer valid. */
  const InvalidGrant := "invalid_grant"

  /** The token endpoint's answer to a refresh: a new token valid for `expiresIn`
      seconds, or a failure whose error code is `None` when none can be read from
      the exception (then reading it throws inside the catch block). */
  datatype RefreshReply = Granted(accessToken: string, expiresIn: int) | Failed(code: Option<string>)

  /** What a failed ky call throws: an `HTTPError`, whose `response` is a fetch `Response`
      with the endpoint's JSON body (`bodyError` is that body's `error` field, when it has
      one), or a network failure, which has no response. */
  datatype KyError = HttpError(bodyError: Option<string>) | NetworkError

  /** The token endpoint's answer as ky delivers it. */
  datatype KyReply = KyGranted(accessToken: string, expiresIn: int) | KyFailed(error: KyError)

  /** A JavaScript value read from an object: `undefined`, or an object with an optional
      string field `error`. */
  datatype Value = Undefined | Object(error: Option<string>)

  /** `e?.response.data`: `None` when the read throws. A network failure has no
      `response`, so reading `.data` of it throws; a fetch `Response` has no `data`
      field, so the read gives `undefined`. */
  function ResponseData(e: KyError): Option<Value> {
    match e
    case NetworkError => None
    case HttpError(_) => Some(Undefined)
  }

  /** `err.error`: `None` when the read throws, as it does on `undefined`; a missing
      field reads as `''`, which is not `invalid_grant`. */
  function ErrorField(v: Value): Option<string> {
    match v
    case Undefined => None
    case Object(error) => Some(error.GetOr(""))
  }

  /** The catch block's error code as written, `e?.response.data` then `.error`: both
      reads throw for every ky error, so no code is ever read. */
  function CaughtCodeAsWritten(e: KyError): (code: Option<string>)
    ensures code.None?
  {
    match ResponseData(e)
    case None => None
    case Some(data) => ErrorField(data)
  }

  /** As written, an `invalid_grant` answer does not sign the user out: the catch block
      throws instead. */
  lemma InvalidGrantIgnoredAsWritten(c: Credentials, now: int, origin: string)
    ensures Refreshed(c, Failed(CaughtCodeAsWritten(HttpError(Some(InvalidGrant)))), now, origin) == (c, Threw)
  {
  }

  /** The error code read from the response body (`(await e.response?.json())?.error`):
      the body's code for an HTTP error, no code for a network failure. The read never
      throws. */
  function CaughtCode(e: KyError): (code: Option<string>)
    ensures code.Some?
    ensures e.HttpError? && e.bodyError.Some? ==> code == e.bodyError
    ensures e.NetworkError? || e.bodyError.None? ==> code.value != InvalidGrant
  {
    match e
    case NetworkError => Some("")
    case HttpError(bodyError) => Some(bodyError.GetOr(""))
  }

  /** The token endpoint's answer in the terms the refresh decides on. */
  function Reply(reply: KyReply): (r: RefreshReply)
    ensures reply.KyGranted? ==> r == Granted(reply.accessToken, reply.expiresIn)
    ensures reply.KyFailed? ==> r == Failed(CaughtCode(reply.error))
  {
    match reply
    case KyGranted(token, expiresIn) => Granted(token, expiresIn)
    case KyFailed(e) => Failed(CaughtCode(e))
  }

  /** With the code read from the body, an `invalid_grant` answer signs the user out and
      asks for a new log-in, and no failure throws out of the catch block. */
  lemma InvalidGrantSignsOut(c: Credentials, e: KyError, now: int, origin: string)
    ensures Refreshed(c, Reply(KyFailed(e)), now, origin).1 != Threw
    ensures e == HttpError(Some(InvalidGrant)) ==>
              Refreshed(c, Reply(KyFailed(e)), now, origin) ==
              (Credentials(SignedOut, NoToken), Settled(Some(LogInAgainUrl(origin))))
    ensures e != HttpError(Some(InvalidGrant)) ==> Refreshed(c, Reply(KyFailed(e)), now, origin) == (c, Settled(None))
  {
  }

  /** How `refreshAccessToken` ends: normally, possibly redirecting the page, or by
      throwing out of its catch block. */
  datatype RefreshEnd = Settled(redirect: Option<string>) | Threw

  /** The request after `beforeRequest`: sent with or without an Authorization header,
      or abandoned because the hook threw. */
  datatype Prepared = Send(authorization: Option<string>) | Aborted

  /** What one run of `beforeRequest` leaves behind. */
  datatype Hooked = Hooked(session: Credentials, request: Prepared, redirect: Option<string>)

  /** A fetch response: whether its status is 2xx, and its body text. */
  datatype Response = Response(ok: bool, body: string)

  /** `new Response()`: status 200 and an empty body. */
  const EmptyResponse := Response(true, "")

  /** Where an unrecoverable refresh failure sends the browser. */
  function LogInAgainUrl(origin: string): string {
    origin + "?error=Please log in again"
  }

  /** The hook refreshes exactly when a token is held and it is inside the window. */
  predicate ShouldRefresh(t: AccessToken, now: int) {
    t.token != "" && t.expiresAt - now < RefreshWindow
  }

  /** The effect of `refreshAccessToken` on the session. Success replaces token and
      expiry together and keeps the user; `invalid_grant` signs out and redirects; any
      other failure changes nothing. The user is never partly changed. */
  function Refreshed(c: Credentials, reply: RefreshReply, now: int, origin: string): (r: (Credentials, RefreshEnd))
    ensures reply.Granted? ==>
              r == (Credentials(c.user, AccessToken(reply.accessToken, now + reply.expiresIn * 1000)), Settled(None))
    ensures reply == Failed(Some(InvalidGrant)) ==>
              r == (Credentials(SignedOut, NoToken), Settled(Some(LogInAgainUrl(origin))))
    ensures reply.Failed? && reply != Failed(Some(InvalidGrant)) ==> r.0 == c
    ensures reply.Failed? && reply != Failed(None) && reply != Failed(Some(InvalidGrant)) ==> r == (c, Settled(None))
    ensures r.1 == Threw <==> reply == Failed(None)
    ensures r.0.user == c.user || r.0 == Credentials(SignedOut, NoToken)
  {
    match reply
    case Granted(token, expiresIn) =>
      (Credentials(c.user, AccessToken(token, now + expiresIn * 1000)), Settled(None))
    case Failed(None) => (c, Threw)
    case Failed(Some(code)) =>
      if code == InvalidGrant then (Credentials(SignedOut, NoToken), Settled(Some(LogInAgainUrl(origin))))
      else (c, Settled(None))
  }

  /** The effect of `beforeRequest` when the clock reads `now` at the check and
      `repliedAt` when the refresh reply arrives. */
  function BeforeRequestEffect(c: Credentials, now: int, reply: RefreshReply, repliedAt: int, origin: string): (r: Hooked)
    // without a token nothing is refreshed and no header is set
    ensures c.accessToken.token == "" ==> r == Hooked(c, Send(None), None)
    // outside the window the session is untouched
    ensures !ShouldRefresh(c.accessToken, now) ==> r.session == c && r.redirect == None
    // inside the window the session is what the refresh left
    ensures ShouldRefresh(c.accessToken, now) ==> r.session == Refreshed(c, reply, repliedAt, origin).0
    // and the redirect is the one a settled refresh asked for
    ensures ShouldRefresh(c.accessToken, now) ==>
              r.redirect == match Refreshed(c, reply, repliedAt, origin).1
                            case Threw => None
                            case Settled(redirect) => redirect
    // the request is abandoned only when the refresh threw
    ensures r.request == Aborted <==> ShouldRefresh(c.accessToken, now) && reply == Failed(None)
    // a held token always yields a header, carrying the token held after the refresh
    ensures c.accessToken.token != "" && r.request.Send? ==>
              r.request.authorization == Some("Bearer " + r.session.accessToken.token)
    ensures ShouldRefresh(c.accessToken, now) && reply.Granted? ==>
              r.request == Send(Some("Bearer " + reply.accessToken))
  {
    if c.accessToken.token == "" then Hooked(c, Send(None), None)
    else if c.accessToken.expiresAt - now < RefreshWindow then
      var (after, end) := Refreshed(c, reply, repliedAt, origin);
      match end
      case Threw => Hooked(after, Aborted, None)
      case Settled(redirect) => Hooked(after, Send(Some("Bearer " + after.accessToken.token)), redirect)
    else Hooked(c, Send(Some("Bearer " + c.accessToken.token)), None)
  }

  /** `refreshAccessToken`: exchanges the stored refresh token for a new access token,
      reading a failure's code from the response body. */
  method RefreshAccessToken(session: Session, reply: KyReply, now: int, origin: string)
    returns (end: RefreshEnd)
    modifies session
    ensures (session.Snapshot(), end) == Refreshed(old(session.Snapshot()), Reply(reply), now, origin)
  {
    match Reply(reply)
    case Granted(token, expiresIn) =>
      session.accessToken := AccessToken(token, now + expiresIn * 1000);
      end := Settled(None);
    case Failed(code) =>
      if code.None? {
        end := Threw;
      } else if code.value == InvalidGrant {
        session.user := SignedOut;
        session.accessToken := NoToken;
        end := Settled(Some(LogInAgainUrl(origin)));
      } else {
        end := Settled(None);
      }
  }

  /** The `beforeRequest` hook. */
  method BeforeRequest(session: Session, now: int, reply: KyReply, repliedAt: int, origin: string)
    returns (request: Prepared, redirect: Option<string>)
    modifies session
    ensures Hooked(session.Snapshot(), request, redirect) ==
            BeforeRequestEffect(old(session.Snapshot()), now, Reply(reply), repliedAt, origin)
  {
    request, redirect := Send(None), None;
    if session.accessToken.token != "" {
      if session.accessToken.expiresAt - now < RefreshWindow {
        var end := RefreshAccessToken(session, reply, repliedAt, origin);
        if end.Threw? {
          return Aborted, None;
        }
        redirect := end.redirect;
      }
      request := Send(Some("Bearer " + session.accessToken.token));
    }
  }

  /** The `afterResponse` hook: a failed response is reported (its body text is the
      message) and replaced by an empty successful one; a successful one passes. */
  function AfterResponse(response: Response): (r: (Response, Option<string>))
    ensures r.0.ok
    ensures response.ok ==> r == (response, None)
    ensures !response.ok ==> r == (EmptyResponse, Some(response.body))
  {
    if !response.ok then (EmptyResponse, Some(response.body)) else (response, None)
  }
}
