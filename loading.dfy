/** The OAuth redirect target page (src/pages/loading.tsx): checks the granted scope,
    exchanges the authorization code once, and sets up the session. */
module Loading {
  import opened Wrappers
  import opened State
  import opened Strings
  import Query

  /** The scope the app cannot work without. */
  const DriveScope := "drive.file"

  /** The `error` and `error_description` fields of a failed OAuth call. */
  datatype ErrorDetail = ErrorDetail(error: string, description: string)

  /** The token endpoint's answer to the code exchange; a failure's detail is `None`
      when it cannot be read from the exception (reading it then throws). */
  datatype ExchangeReply =
    | Exchanged(accessToken: string, refreshToken: string, expiresIn: int)
    | ExchangeFailed(detail: Option<ErrorDetail>)

  /** The userinfo endpoint's answer. */
  datatype ProfileReply =
    | Profile(email: string, name: string, picture: string)
    | ProfileFailed(detail: Option<ErrorDetail>)

  /** The parts of the code-exchange request that vary: the code from the query
      string (`null` when absent) and the redirect URI. */
  datatype CodeExchange = CodeExchange(code: Option<string>, redirectUri: string)

  function MissingScopeUrl(origin: string): string {
    origin + "/about?error=You must allow the app to use Google Drive"
  }

  function FailureUrl(origin: string, d: ErrorDetail): string {
    origin + "/about?error=" + d.error + ": " + d.description
  }

  /** Where the catch block sends the browser; `None` when it throws instead. */
  function FailureRedirect(origin: string, detail: Option<ErrorDetail>): Option<string> {
    match detail
    case None => None
    case Some(d) => Some(FailureUrl(origin, d))
  }

  /** `query.get('scope')?.includes('drive.file')` */
  predicate ScopeGranted(search: Query.Params) {
    var scope := Query.Get(search, "scope");
    scope.Some? && Contains(scope.value, DriveScope)
  }

  /** The module-level `firstMount` state. */
  class Page {
    var firstMount: bool

    constructor ()
      ensures firstMount
    {
      firstMount := true;
    }
  }

  /** The session and redirect `initialRun` leaves: a failed exchange changes nothing;
      a granted one stores the token first; the user, with the exchange's refresh token,
      is stored only when the profile arrives, and then the page goes home. */
  twostate predicate ExchangeOutcome(session: Session, exchange: ExchangeReply, profile: ProfileReply,
                                     now: int, origin: string, new redirect: Option<string>)
    reads session
  {
    (exchange.ExchangeFailed? ==>
       unchanged(session) && redirect == FailureRedirect(origin, exchange.detail)) &&
    (exchange.Exchanged? ==>
       session.accessToken == AccessToken(exchange.accessToken, now + exchange.expiresIn * 1000)) &&
    (exchange.Exchanged? && profile.Profile? ==>
       session.user == User(profile.email, profile.name, profile.picture, exchange.refreshToken) &&
       redirect == Some(origin)) &&
    (exchange.Exchanged? && profile.ProfileFailed? ==>
       session.user == old(session.user) && redirect == FailureRedirect(origin, profile.detail))
  }

  /** `initialRun`: exchange the code, store the token, fetch the profile, store the
      user with the exchange's refresh token, then go home. The token is stored before
      the profile is fetched, so a profile failure leaves it set. */
  method InitialRun(session: Session, search: Query.Params, exchange: ExchangeReply,
                    profile: ProfileReply, now: int, origin: string)
    returns (sent: CodeExchange, redirect: Option<string>)
    modifies session
    ensures sent == CodeExchange(Query.Get(search, "code"), origin + "/loading")
    ensures ExchangeOutcome(session, exchange, profile, now, origin, redirect)
  {
    sent := CodeExchange(Query.Get(search, "code"), origin + "/loading");
    match exchange
    case ExchangeFailed(detail) =>
      redirect := FailureRedirect(origin, detail);
    case Exchanged(accessToken, refreshToken, expiresIn) =>
      session.accessToken := AccessToken(accessToken, now + expiresIn * 1000);
      match profile
      case ProfileFailed(detail) =>
        redirect := FailureRedirect(origin, detail);
      case Profile(email, name, picture) =>
        session.user := User(email, name, picture, refreshToken);
        redirect := Some(origin);
  }

  /** The mount effect: without the Drive scope it only redirects with an error; with
      it, the exchange runs only while `firstMount` is still set, and clears it first. */
  method Effect(page: Page, session: Session, search: Query.Params, exchange: ExchangeReply,
                profile: ProfileReply, now: int, origin: string)
    returns (sent: Option<CodeExchange>, redirect: Option<string>)
    modifies page, session
    ensures !ScopeGranted(search) ==>
              sent == None && redirect == Some(MissingScopeUrl(origin)) && unchanged(page, session)
    ensures ScopeGranted(search) && !old(page.firstMount) ==>
              sent == None && redirect == None && unchanged(page, session)
    ensures ScopeGranted(search) && old(page.firstMount) ==>
              sent == Some(CodeExchange(Query.Get(search, "code"), origin + "/loading")) && !page.firstMount &&
              ExchangeOutcome(session, exchange, profile, now, origin, redirect)
    ensures sent.Some? ==> old(page.firstMount) && !page.firstMount
    ensures !old(page.firstMount) ==> !page.firstMount
  {
    if !ScopeGranted(search) {
      return None, Some(MissingScopeUrl(origin));
    }
    if !page.firstMount {
      return None, None;
    }
    page.firstMount := false;
    var request;
    request, redirect := InitialRun(session, search, exchange, profile, now, origin);
    sent := Some(request);
  }

  /** Two mounts in a row exchange the code at most once. */
  method MountTwice(page: Page, session: Session, search: Query.Params, exchange: ExchangeReply,
                    profile: ProfileReply, now: int, later: int, origin: string)
    returns (first: Option<CodeExchange>, second: Option<CodeExchange>)
    modifies page, session
    ensures second == None
    ensures first.Some? <==> ScopeGranted(search) && old(page.firstMount)
  {
    var r1, r2;
    first, r1 := Effect(page, session, search, exchange, profile, now, origin);
    second, r2 := Effect(page, session, search, exchange, profile, later, origin);
  }
}
