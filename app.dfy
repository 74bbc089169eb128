/** The application shell (src/pages/_app.tsx): sign-in URL, sign-out, the start-up
    effect, and the image scale-and-name modal. */
module App {
  import opened Wrappers
  import opened State
  import opened Strings
  import Query
  import Loading

  /** The OAuth scopes the app asks for (src/helpers/constants.ts). */
  const Scopes := ["openid", "profile", "email", "https://www.googleapis.com/auth/drive.file"]

  const AuthEndpoint := "https://accounts.google.com/o/oauth2/v2/auth"

  /** `k1=v1&k2=v2&…` without any escaping, as the template literal builds it. */
  function QueryString(params: seq<(string, string)>): string
    decreases |params|
  {
    if params == [] then ""
    else if |params| == 1 then params[0].0 + "=" + params[0].1
    else params[0].0 + "=" + params[0].1 + "&" + QueryString(params[1..])
  }

  /** The fixed flags of the consent-screen request: an authorization code, offline
      access (so a refresh token is issued), and a forced consent prompt. */
  const Flags := [("response_type", "code"), ("access_type", "offline"),
                  ("include_granted_scopes", "true"), ("prompt", "consent")]

  /** The parameters of the consent-screen request, in the order the URL lists them. */
  function LogInParams(clientId: string, origin: string, scopes: seq<string>): seq<(string, string)> {
    [("client_id", clientId), ("redirect_uri", origin + "/loading"), ("scope", Join(scopes, " "))] + Flags
  }

  /** `logIn`'s URL, as the template literal builds it. */
  function LogInUrl(clientId: string, origin: string, scopes: seq<string>): string {
    AuthEndpoint + "?client_id=" + clientId + "&redirect_uri=" + origin + "/loading" + "&scope=" +
    Join(scopes, " ") + "&response_type=code" + "&access_type=offline" + "&include_granted_scopes=true" +
    "&prompt=consent"
  }

  /** Prepending one `&key=value` piece to an encoded tail encodes one more parameter. */
  lemma ParamStep(piece: string, key: string, value: string, tail: string, rest: seq<(string, string)>)
    requires rest != [] && piece == "&" + key + "=" + value && tail == "&" + QueryString(rest)
    ensures piece + tail == "&" + QueryString([(key, value)] + rest)
  {
    assert ([(key, value)] + rest)[1..] == rest;
  }

  lemma LastFlag()
    ensures "&prompt=consent" == "&" + QueryString(Flags[3..])
  {
    assert Flags[3..] == [("prompt", "consent")];
    assert "&prompt=consent" == "&" + "prompt" + "=" + "consent";
  }

  lemma ThirdFlag()
    ensures "&include_granted_scopes=true" + "&prompt=consent" == "&" + QueryString(Flags[2..])
  {
    LastFlag();
    assert "&include_granted_scopes=true" == "&" + "include_granted_scopes" + "=" + "true";
    ParamStep("&include_granted_scopes=true", "include_granted_scopes", "true", "&prompt=consent", Flags[3..]);
    assert Flags[2..] == [("include_granted_scopes", "true")] + Flags[3..];
  }

  lemma SecondFlag()
    ensures "&access_type=offline" + ("&include_granted_scopes=true" + "&prompt=consent") == "&" + QueryString(Flags[1..])
  {
    ThirdFlag();
    assert "&access_type=offline" == "&" + "access_type" + "=" + "offline";
    ParamStep("&access_type=offline", "access_type", "offline", "&include_granted_scopes=true" + "&prompt=consent", Flags[2..]);
    assert Flags[1..] == [("access_type", "offline")] + Flags[2..];
  }

  lemma FlagsQuery()
    ensures "&response_type=code" + ("&access_type=offline" + ("&include_granted_scopes=true" + "&prompt=consent")) ==
            "&" + QueryString(Flags)
  {
    SecondFlag();
    assert "&response_type=code" == "&" + "response_type" + "=" + "code";
    ParamStep("&response_type=code", "response_type", "code",
              "&access_type=offline" + ("&include_granted_scopes=true" + "&prompt=consent"), Flags[1..]);
    assert Flags == [("response_type", "code")] + Flags[1..];
  }

  lemma ScopeStep(scope: string, tail: string, rest: seq<(string, string)>)
    requires rest != [] && tail == "&" + QueryString(rest)
    ensures "&scope=" + scope + tail == "&" + QueryString([("scope", scope)] + rest)
  {
    assert "&scope=" == "&" + "scope" + "=";
    ParamStep("&scope=" + scope, "scope", scope, tail, rest);
  }

  lemma RedirectStep(loading: string, tail: string, rest: seq<(string, string)>)
    requires rest != [] && tail == "&" + QueryString(rest)
    ensures "&redirect_uri=" + loading + tail == "&" + QueryString([("redirect_uri", loading)] + rest)
  {
    assert "&redirect_uri=" == "&" + "redirect_uri" + "=";
    ParamStep("&redirect_uri=" + loading, "redirect_uri", loading, tail, rest);
  }

  lemma ClientStep(clientId: string, tail: string, rest: seq<(string, string)>)
    requires rest != [] && tail == "&" + QueryString(rest)
    ensures "?client_id=" + clientId + tail == "?" + QueryString([("client_id", clientId)] + rest)
  {
    assert "?client_id=" == "?" + "client_id" + "=";
    assert ([("client_id", clientId)] + rest)[1..] == rest;
  }

  /** Regrouping the pieces of the template. */
  lemma Shape(a: string, b: string, c: string, d: string, o: string, l: string, e: string, j: string,
              f1: string, f2: string, f3: string, f4: string)
    ensures a + b + c + d + o + l + e + j + f1 + f2 + f3 + f4 ==
            a + (b + c + (d + (o + l) + (e + j + (f1 + (f2 + (f3 + f4))))))
  {
  }

  /** The sign-in URL is the authorization endpoint carrying exactly the client id, the
      `/loading` redirect, the space-joined scopes, and the code/offline/consent flags. */
  lemma LogInUrlParams(clientId: string, origin: string, scopes: seq<string>)
    ensures LogInUrl(clientId, origin, scopes) == AuthEndpoint + "?" + QueryString(LogInParams(clientId, origin, scopes))
  {
    var scope, loading := Join(scopes, " "), origin + "/loading";
    var flags := "&response_type=code" + ("&access_type=offline" + ("&include_granted_scopes=true" + "&prompt=consent"));
    FlagsQuery();
    var t2 := "&scope=" + scope + flags;
    ScopeStep(scope, flags, Flags);
    var t1 := "&redirect_uri=" + loading + t2;
    RedirectStep(loading, t2, [("scope", scope)] + Flags);
    ClientStep(clientId, t1, [("redirect_uri", loading)] + ([("scope", scope)] + Flags));
    assert LogInParams(clientId, origin, scopes) ==
           [("client_id", clientId)] + ([("redirect_uri", loading)] + ([("scope", scope)] + Flags));
    Shape(AuthEndpoint, "?client_id=", clientId, "&redirect_uri=", origin, "/loading", "&scope=", scope,
          "&response_type=code", "&access_type=offline", "&include_granted_scopes=true", "&prompt=consent");
  }

  /** The scope list the app requests contains the scope the loading page insists on. */
  lemma RequestedScopesIncludeDrive()
    ensures Contains(Join(Scopes, " "), Loading.DriveScope)
  {
    JoinCons(Scopes[2], Scopes[3..], " ");
    assert Scopes[2..] == [Scopes[2]] + Scopes[3..];
    JoinCons(Scopes[1], Scopes[2..], " ");
    assert Scopes[1..] == [Scopes[1]] + Scopes[2..];
    JoinCons(Scopes[0], Scopes[1..], " ");
    assert Scopes == [Scopes[0]] + Scopes[1..];
    assert Scopes[3] == "https://www.googleapis.com/auth/" + "drive.file";
    var before := "openid" + " " + "profile" + " " + "email" + " " + "https://www.googleapis.com/auth/";
    assert Join(Scopes, " ") == before + "drive.file" + "";
    ContainsInMiddle(before, "drive.file", "");
  }

  /** `logOut`: revoke with the refresh token held before clearing, clear the session,
      then go to the about page. */
  method LogOut(session: Session) returns (revokeUrl: string, navigate: string)
    modifies session
    ensures revokeUrl == RevokeUrl(old(session.user.refreshToken))
    ensures session.accessToken == NoToken && session.user == SignedOut
    ensures navigate == "/about"
  {
    revokeUrl := RevokeUrl(session.user.refreshToken);
    session.SignOut();
    navigate := "/about";
  }

  /** The four notification kinds the start-up effect can raise from the query string. */
  datatype Kind = ErrorKind | SuccessKind | WarningKind | InfoKind

  datatype Notice = Notice(kind: Kind, message: string)

  /** The query parameter each kind is read from. */
  function Key(kind: Kind): string {
    match kind
    case ErrorKind => "error"
    case SuccessKind => "success"
    case WarningKind => "warning"
    case InfoKind => "info"
  }

  /** The order in which the effect checks the kinds. */
  function Rank(kind: Kind): nat {
    match kind
    case ErrorKind => 0
    case SuccessKind => 1
    case WarningKind => 2
    case InfoKind => 3
  }

  /** `[Notice(kind, v)]` when the parameter is present and non-empty, else nothing. */
  function NoticeFor(search: Query.Params, kind: Kind): seq<Notice> {
    var v := Query.Get(search, Key(kind));
    if v.Some? && v.value != "" then [Notice(kind, v.value)] else []
  }

  /** The notices raised when the kinds are checked in the order given. */
  function Collect(search: Query.Params, kinds: seq<Kind>): seq<Notice>
    decreases |kinds|
  {
    if kinds == [] then [] else NoticeFor(search, kinds[0]) + Collect(search, kinds[1..])
  }

  /** Every raised notice carries the non-empty value of its kind's parameter. */
  lemma {:induction false} CollectSound(search: Query.Params, kinds: seq<Kind>)
    ensures forall i :: 0 <= i < |Collect(search, kinds)| ==>
              var n := Collect(search, kinds)[i];
              n.kind in kinds && n.message != "" && Query.Get(search, Key(n.kind)) == Some(n.message)
    decreases |kinds|
  {
    if kinds != [] {
      CollectSound(search, kinds[1..]);
      var head, tail := NoticeFor(search, kinds[0]), Collect(search, kinds[1..]);
      assert forall i :: 0 <= i < |tail| ==> (head + tail)[|head| + i] == tail[i];
    }
  }

  /** A checked kind raises a notice exactly when its parameter is present and non-empty. */
  lemma {:induction false} CollectComplete(search: Query.Params, kinds: seq<Kind>, kind: Kind)
    requires kind in kinds
    ensures (exists i :: 0 <= i < |Collect(search, kinds)| && Collect(search, kinds)[i].kind == kind) <==>
            Query.Get(search, Key(kind)).GetOr("") != ""
    decreases |kinds|
  {
    var r := Collect(search, kinds);
    var head, tail := NoticeFor(search, kinds[0]), Collect(search, kinds[1..]);
    CollectSound(search, kinds);
    assert r == head + tail;
    if kind == kinds[0] {
      if Query.Get(search, Key(kind)).GetOr("") != "" {
        assert |head| == 1 && head[0].kind == kind;
        assert r[0] == head[0];
      }
    } else {
      assert kind in kinds[1..];
      CollectComplete(search, kinds[1..], kind);
      if Query.Get(search, Key(kind)).GetOr("") != "" {
        var i :| 0 <= i < |tail| && tail[i].kind == kind;
        assert r[|head| + i] == tail[i];
      }
    }
  }

  /** Kinds checked in increasing rank raise notices in increasing rank. */
  lemma {:induction false} CollectOrdered(search: Query.Params, kinds: seq<Kind>)
    requires forall i, j :: 0 <= i < j < |kinds| ==> Rank(kinds[i]) < Rank(kinds[j])
    ensures forall i, j :: 0 <= i < j < |Collect(search, kinds)| ==>
              Rank(Collect(search, kinds)[i].kind) < Rank(Collect(search, kinds)[j].kind)
    decreases |kinds|
  {
    if kinds != [] {
      CollectOrdered(search, kinds[1..]);
      CollectSound(search, kinds[1..]);
      var head, tail := NoticeFor(search, kinds[0]), Collect(search, kinds[1..]);
      var r := Collect(search, kinds);
      assert r == head + tail;
      forall k | k in kinds[1..] ensures Rank(kinds[0]) < Rank(k) {
        var m :| 0 <= m < |kinds[1..]| && kinds[1..][m] == k;
        assert kinds[1..][m] == kinds[m + 1];
      }
      forall i, j | 0 <= i < j < |r| ensures Rank(r[i].kind) < Rank(r[j].kind) {
        assert r[j] == tail[j - |head|];
        if i < |head| {
          assert r[i] == head[i] && head[i].kind == kinds[0];
        } else {
          assert r[i] == tail[i - |head|];
        }
      }
    }
  }

  /** The order in which the start-up effect checks the kinds. */
  const CheckOrder := [ErrorKind, SuccessKind, WarningKind, InfoKind]

  lemma CheckOrderComplete(search: Query.Params)
    ensures forall kind :: (exists i :: 0 <= i < |Collect(search, CheckOrder)| && Collect(search, CheckOrder)[i].kind == kind) <==>
                           Query.Get(search, Key(kind)).GetOr("") != ""
  {
    forall kind
      ensures (exists i :: 0 <= i < |Collect(search, CheckOrder)| && Collect(search, CheckOrder)[i].kind == kind) <==>
              Query.Get(search, Key(kind)).GetOr("") != ""
    {
      assert kind in CheckOrder by {
        match kind
        case ErrorKind => assert CheckOrder[0] == kind;
        case SuccessKind => assert CheckOrder[1] == kind;
        case WarningKind => assert CheckOrder[2] == kind;
        case InfoKind => assert CheckOrder[3] == kind;
      }
      CollectComplete(search, CheckOrder, kind);
    }
  }

  /** The notifications the start-up effect raises: one per kind whose parameter is
      present and non-empty, carrying its value, in the order error, success, warning,
      info. */
  function StartupNotices(search: Query.Params): (r: seq<Notice>)
    ensures forall i :: 0 <= i < |r| ==>
              r[i].message != "" && Query.Get(search, Key(r[i].kind)) == Some(r[i].message)
    ensures forall kind :: (exists i :: 0 <= i < |r| && r[i].kind == kind) <==>
              Query.Get(search, Key(kind)).GetOr("") != ""
    ensures forall i, j :: 0 <= i < j < |r| ==> Rank(r[i].kind) < Rank(r[j].kind)
  {
    CollectSound(search, CheckOrder);
    CollectOrdered(search, CheckOrder);
    CheckOrderComplete(search);
    Collect(search, CheckOrder)
  }

  /** What the start-up effect does with the settings files once notices are raised. */
  datatype StartupAction =
    | NotSignedIn        // no email: no remote call at all
    | SearchFailed       // the settings search gave no result
    | CreateRootFolder   // no settings files yet: `getRootFolderId()`
    | LoadSettings       // fetch image ids and template and store them

  /** The decision the start-up effect takes from the stored email and the result of
      searching for `image-ids.json` and `template.html` (how many files it found). */
  function StartupStep(email: string, found: Option<nat>): (r: StartupAction)
    ensures r == NotSignedIn <==> email == ""
    ensures r == SearchFailed <==> email != "" && found.None?
    ensures r == CreateRootFolder <==> email != "" && found == Some(0)
    ensures r == LoadSettings <==> email != "" && found.Some? && found.value > 0
  {
    if email == "" then NotSignedIn
    else if found.None? then SearchFailed
    else if found.value == 0 then CreateRootFolder
    else LoadSettings
  }

  /** The start-up effect's settings step: only `LoadSettings` stores the fetched image
      ids and template; every other outcome leaves the settings as they were. */
  method StartupEffect(settings: Settings, email: string, found: Option<nat>, imageIds: seq<string>, template: string)
    returns (step: StartupAction)
    modifies settings
    ensures step == StartupStep(email, found)
    ensures step == LoadSettings ==> settings.imageIds == imageIds && settings.template == template
    ensures step != LoadSettings ==> unchanged(settings)
  {
    step := StartupStep(email, found);
    if step == LoadSettings {
      settings.imageIds := imageIds;
      settings.template := template;
    }
  }

  /** The value handed to the modal's `onSubmit` callback: a width (or `undefined`)
      and an image name. */
  datatype Submission = Submission(width: Option<int>, name: string)

  /** `globalImageScale`: the scale-and-name modal's state. */
  class ImageScale {
    var show: bool
    var width: int
    var name: string

    constructor (width: int, name: string)
      ensures !show && this.width == width && this.name == name
    {
      show := false;
      this.width := width;
      this.name := name;
    }

    /** The modal's `setOpen`: records the new open state and submits `[undefined, '']`. */
    method SetOpen(open: bool) returns (submitted: Submission)
      modifies this
      ensures show == open && width == old(width) && name == old(name)
      ensures submitted == Submission(None, "")
    {
      show := open;
      submitted := Submission(None, "");
    }

    /** The Save button: hides the modal and submits the chosen width and name. */
    method Save() returns (submitted: Submission)
      modifies this
      ensures !show && width == old(width) && name == old(name)
      ensures submitted == Submission(Some(width), name)
    {
      show := false;
      submitted := Submission(Some(width), name);
    }
  }

  /** An option of the image-name select. */
  datatype SelectOption = SelectOption(value: string, caption: string)

  /** The image-name options: `photo` labelled `None`, then each stored id labelled by
      itself, in order. */
  function ImageNameOptions(imageIds: seq<string>): (r: seq<SelectOption>)
    ensures |r| == |imageIds| + 1
    ensures r[0] == SelectOption("photo", "None")
    ensures forall i :: 0 <= i < |imageIds| ==> r[i + 1] == SelectOption(imageIds[i], imageIds[i])
  {
    [SelectOption("photo", "None")] + seq(|imageIds|, i requires 0 <= i < |imageIds| => SelectOption(imageIds[i], imageIds[i]))
  }
}
