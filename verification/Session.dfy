/**
 The two ends of the login protocol (crates/rd-engine/src/session.rs): what a
 viewer and a host do with each record, each local call and each failed write.

 A record is a decoded message. `sent` collects the records handed to the wire. A
 write that fails is the last one of its end: it counts as handed over, since the
 peer may or may not have received it, and the end closes.
 */
module Session {
  import opened Wrappers
  import A = Authentication

  // A PermissionInfo record: the raw protobuf enum value and the flag.
  datatype Report = Report(permission: int, enabled: bool)

  datatype Message =
    | Empty
    | TestDelay(fromClient: bool)
    | SignedId
    | Hash(salt: Bytes, challenge: Bytes)
    | LoginError(text: string)
    | LoginOk(info: string)
    | LoginEmpty
    | Login(req: A.LoginRequest)
    | Auth2fa(code: string)
    | PermissionInfo(report: Report)
    | CloseReason
    | ChatMessage
    | MessageBox
    | Application(tag: nat)

  // What a receive call finds: a record, the end of the stream, or no record at all.
  datatype Incoming = Record(message: Message) | Eof | ReadError | Timeout

  // The local failures of a call, by their message in the code.
  datatype Reason =
    | DeadlineExpired | LoginNotAllowed | NoChallenge | DesktopOnly | OsLoginUnsupported
    | IdentityChanged | EmptyPassword | NotAwaitingFactor | WriteFailed
    | InvalidRecord | ReceiveTimeout | InvalidChallenge | EmptyResponse
    | UnsolicitedSuccess      // "Unsolicited login success"
    | Unauthenticated         // "Application payload before authentication"

  const NO_PASSWORD_ACCESS := "No Password Access"
  const VERSION_1_2_0 := 1002000

  const KEYBOARD := 0
  const CLIPBOARD := 2
  const AUDIO := 3
  const FILE := 4

  predicate KnownPermission(p: int) {
    p in {KEYBOARD, CLIPBOARD, AUDIO, FILE, 5, 6, 7, 8}
  }

  // Remote permissions a viewer assumes until the host reports otherwise.
  const VIEWER_REMOTE_DEFAULTS := A.Permissions(true, true, true, true)

  // ----- Permission reports -----

  function Apply(p: A.Permissions, r: Report): A.Permissions {
    if r.permission == KEYBOARD then p.(keyboard := r.enabled)
    else if r.permission == CLIPBOARD then p.(clipboard := r.enabled)
    else if r.permission == AUDIO then p.(audio := r.enabled)
    else if r.permission == FILE then p.(file := r.enabled)
    else p
  }

  function Upsert(reports: seq<Report>, r: Report): seq<Report> {
    if reports == [] then [r]
    else if reports[0].permission == r.permission then [r] + reports[1..]
    else [reports[0]] + Upsert(reports[1..], r)
  }

  // Where the first report with the key is, or would be.
  lemma {:induction false} UpsertAt(reports: seq<Report>, r: Report, i: nat)
    requires i <= |reports| && forall k :: 0 <= k < i ==> reports[k].permission != r.permission
    requires i < |reports| ==> reports[i].permission == r.permission
    ensures Upsert(reports, r) == if i < |reports| then reports[i := r] else reports + [r]
  {
    if i > 0 {
      UpsertAt(reports[1..], r, i - 1);
      assert reports == [reports[0]] + reports[1..];
    }
  }

  predicate UniqueKeys(reports: seq<Report>) {
    forall i, j :: 0 <= i < j < |reports| ==> reports[i].permission != reports[j].permission
  }

  // The latest report about permission p, or the default.
  function Reported(reports: seq<Report>, p: int, default: bool): bool {
    if reports == [] then default
    else if reports[0].permission == p then reports[0].enabled
    else Reported(reports[1..], p, default)
  }

  function Overlay(defaults: A.Permissions, reports: seq<Report>): A.Permissions {
    A.Permissions(Reported(reports, KEYBOARD, defaults.keyboard), Reported(reports, CLIPBOARD, defaults.clipboard),
                  Reported(reports, AUDIO, defaults.audio), Reported(reports, FILE, defaults.file))
  }

  lemma {:induction false} UpsertReports(reports: seq<Report>, r: Report, p: int, default: bool)
    ensures Reported(Upsert(reports, r), p, default) == if p == r.permission then r.enabled else Reported(reports, p, default)
  {
    if reports != [] && reports[0].permission != r.permission {
      UpsertReports(reports[1..], r, p, default);
    }
  }

  lemma {:induction false} UpsertKeys(reports: seq<Report>, r: Report)
    requires UniqueKeys(reports)
    ensures UniqueKeys(Upsert(reports, r))
    ensures forall k :: 0 <= k < |Upsert(reports, r)| ==>
      Upsert(reports, r)[k] == r || Upsert(reports, r)[k] in reports
  {
    if reports != [] && reports[0].permission != r.permission {
      UpsertKeys(reports[1..], r);
    }
  }

  // ----- The viewer -----

  datatype ViewerState = AwaitHash | AwaitLogin | AwaitApproval | Await2Fa | Active | Closed

  datatype Challenge = Challenge(salt: Bytes, challenge: Bytes)

  datatype Viewer = Viewer(
    state: ViewerState,
    plain: bool,              // security is LegacyPlain
    hash: Option<Challenge>,
    request: Option<A.LoginRequest>,
    permissions: A.Permissions,
    reports: seq<Report>,
    peerInfo: Option<string>)

  datatype ViewerEvent =
    | Challenged
    | LoginFailed(text: string)
    | Authorized(info: string)
    | PermissionChanged(permissions: A.Permissions)
    | PreAuthControl(message: Message)
    | Payload(message: Message)
    | Progress
    | SessionClosed

  datatype Outcome<+E> = Event(event: E) | Fault(reason: Reason)

  function NewViewer(plain: bool): Viewer {
    Viewer(AwaitHash, plain, None, None, VIEWER_REMOTE_DEFAULTS, [], None)
  }

  function Terminate(v: Viewer): Viewer {
    Viewer(Closed, v.plain, None, None, A.DENY_ALL, [], None)
  }

  function RecordPermission(v: Viewer, r: Report): Viewer {
    if !KnownPermission(r.permission) then v
    else v.(permissions := Apply(v.permissions, r), reports := Upsert(v.reports, r))
  }

  // The state a login error leaves a waiting viewer in.
  function AfterError(text: string): ViewerState {
    if text == A.TWO_FACTOR_REQUIRED || text == A.WRONG_TWO_FACTOR || text == A.TWO_FACTOR_UNSUPPORTED then Await2Fa
    else if text == NO_PASSWORD_ACCESS then AwaitApproval
    else AwaitLogin
  }

  function Dispatch(v: Viewer, m: Message, echoOk: bool): (Viewer, Outcome<ViewerEvent>, seq<Message>) {
    match m
    case CloseReason => (v.(state := Closed), Event(SessionClosed), [])
    case TestDelay(fromClient) =>
      if v.state == Active then (v, Event(Payload(m)), [])
      else if fromClient then (v, Event(Progress), [])
      else (v, if echoOk then Event(Progress) else Fault(WriteFailed), [m])
    case Empty => (v, Event(Progress), [])
    case PermissionInfo(r) =>
      var w := RecordPermission(v, r);
      (w, Event(if v.state == Active then PermissionChanged(w.permissions) else PreAuthControl(m)), [])
    case _ =>
      if v.state == Active then (v, Event(Payload(m)), []) else
      match m
      case SignedId =>
        if v.state == AwaitHash && v.plain then (v, Event(Progress), []) else (v.(state := Closed), Fault(Unauthenticated), [])
      case Hash(salt, challenge) =>
        if v.state != AwaitHash then (v.(state := Closed), Fault(Unauthenticated), [])
        else if challenge == [] then (v.(state := Closed), Fault(InvalidChallenge), [])
        else (v.(hash := Some(Challenge(salt, challenge)), state := AwaitLogin), Event(Challenged), [])
      case LoginError(text) =>
        (v.(state := if v.request.None? then Closed else AfterError(text)), Event(LoginFailed(text)), [])
      case LoginOk(info) =>
        if v.request.None? then (v, Fault(UnsolicitedSuccess), [])
        else (v.(state := Active, peerInfo := Some(info)), Event(Authorized(info)), [])
      case LoginEmpty => (v.(state := Closed), Fault(EmptyResponse), [])
      case MessageBox => (v, Event(PreAuthControl(m)), [])
      case ChatMessage => (v, Event(PreAuthControl(m)), [])
      case _ => (v.(state := Closed), Fault(Unauthenticated), [])
  }

  // One receive call of the viewer. Every fault terminates the session.
  function ViewerReceive(v: Viewer, incoming: Incoming, echoOk: bool): (Viewer, Outcome<ViewerEvent>, seq<Message>) {
    if v.state == Closed then (Terminate(v), Event(SessionClosed), []) else
    match incoming
    case Eof => (Terminate(v), Event(SessionClosed), [])
    case ReadError => (Terminate(v), Fault(InvalidRecord), [])
    case Timeout => (Terminate(v), Fault(ReceiveTimeout), [])
    case Record(m) =>
      var (w, outcome, out) := Dispatch(v, m, echoOk);
      (if outcome.Fault? || w.state == Closed then Terminate(w) else w, outcome, out)
  }

  // What a session-aware caller may ask for; the reasons are those of the code.
  function LoginRefusal(v: Viewer, req: A.LoginRequest, password: Option<Bytes>): Option<Reason> {
    if v.state !in {AwaitLogin, AwaitApproval, Await2Fa} then Some(LoginNotAllowed)
    else if v.hash.None? then Some(NoChallenge)
    else if req.role.Some? || req.username == "" || req.myId == "" then
      Some(DesktopOnly)
    else if req.osUsername != "" || req.osPassword != "" then Some(OsLoginUnsupported)
    else if v.request.Some? && (v.request.value.username != req.username || v.request.value.myId != req.myId
                                || v.request.value.sessionId != req.sessionId) then
      Some(IdentityChanged)
    else if password == Some([]) then Some(EmptyPassword)
    else None
  }

  function Credential(sha: Bytes -> Bytes, hash: Challenge, password: Option<Bytes>): Bytes {
    if password.None? then []
    else A.PasswordResponse(sha, A.SaltedPassword(sha, password.value, hash.salt), hash.challenge)
  }

  function ViewerLogin(sha: Bytes -> Bytes, v: Viewer, req: A.LoginRequest, password: Option<Bytes>, expired: bool, ok: bool)
    : (Viewer, Option<Reason>, seq<Message>)
  {
    if expired then (Terminate(v), Some(DeadlineExpired), []) else
    var refusal := LoginRefusal(v, req, password);
    if refusal.Some? then (v, refusal, []) else
    var out := [Login(req.(password := Credential(sha, v.hash.value, password)))];
    if !ok then (Terminate(v), Some(WriteFailed), out)
    else (v.(request := Some(req.(password := [])), state := AwaitLogin), None, out)
  }

  function ViewerFactor(v: Viewer, code: string, expired: bool, ok: bool): (Viewer, Option<Reason>, seq<Message>) {
    if expired then (Terminate(v), Some(DeadlineExpired), [])
    else if v.state != Await2Fa then (v, Some(NotAwaitingFactor), [])
    else if !ok then (Terminate(v), Some(WriteFailed), [Auth2fa(code)])
    else (v, None, [Auth2fa(code)])
  }

  function ViewerClose(v: Viewer): (Viewer, seq<Message>) {
    if v.state == Closed then (v, []) else (Terminate(v), [CloseReason])
  }

  // Reports are keyed and the cached permissions are the defaults they overlay.
  predicate ReportsConsistent(v: Viewer) {
    v.state != Closed ==> UniqueKeys(v.reports) && v.permissions == Overlay(VIEWER_REMOTE_DEFAULTS, v.reports)
  }

  lemma RecordConsistent(v: Viewer, r: Report)
    requires ReportsConsistent(v)
    ensures ReportsConsistent(RecordPermission(v, r))
  {
    if v.state != Closed {
      UpsertKeys(v.reports, r);
      UpsertReports(v.reports, r, KEYBOARD, true);
      UpsertReports(v.reports, r, CLIPBOARD, true);
      UpsertReports(v.reports, r, AUDIO, true);
      UpsertReports(v.reports, r, FILE, true);
    }
  }

  /** Against an arbitrary peer, no receive call breaks the reports or the permissions derived from them. */
  lemma ReceiveConsistent(v: Viewer, incoming: Incoming, echoOk: bool)
    requires ReportsConsistent(v)
    ensures ReportsConsistent(ViewerReceive(v, incoming, echoOk).0)
  {
    if incoming.Record? && incoming.message.PermissionInfo? {
      RecordConsistent(v, incoming.message.report);
    }
  }

  // ----- Exactly when a viewer answers what -----

  // A session that is over owns nothing it was told.
  predicate Cleared(v: Viewer) {
    v.state == Closed && v.hash.None? && v.request.None? && v.permissions == A.DENY_ALL && v.reports == [] && v.peerInfo.None?
  }

  /** What an open viewer reports to its caller for a record, each event exactly in its case. */
  lemma ViewerEventsExact(v: Viewer, m: Message, echoOk: bool)
    requires v.state != Closed
    ensures var outcome := ViewerReceive(v, Record(m), echoOk).1;
      && (outcome == Event(SessionClosed) <==> m.CloseReason?)
      && (outcome == Event(Payload(m)) <==> v.state == Active && !m.CloseReason? && !m.Empty? && !m.PermissionInfo?)
      && (outcome == Event(Challenged) <==> m.Hash? && v.state == AwaitHash && m.challenge != [])
      && (forall info :: outcome == Event(Authorized(info)) <==> m == LoginOk(info) && v.state != Active && v.request.Some?)
      && (forall text :: outcome == Event(LoginFailed(text)) <==> m == LoginError(text) && v.state != Active)
      && (forall p :: outcome == Event(PermissionChanged(p)) <==>
            m.PermissionInfo? && v.state == Active && p == if KnownPermission(m.report.permission) then Apply(v.permissions, m.report) else v.permissions)
      && (outcome == Event(PreAuthControl(m)) <==> v.state != Active && (m.PermissionInfo? || m.MessageBox? || m.ChatMessage?))
      && (outcome == Event(Progress) <==>
            || m.Empty? || (m.TestDelay? && v.state != Active && (m.fromClient || echoOk))
            || (m.SignedId? && v.state == AwaitHash && v.plain))
  {
    hide Upsert;
  }

  /** And which records it refuses, with which reason. */
  lemma ViewerFaultsExact(v: Viewer, m: Message, echoOk: bool)
    requires v.state != Closed
    ensures var outcome := ViewerReceive(v, Record(m), echoOk).1;
      && (outcome == Fault(WriteFailed) <==> m.TestDelay? && v.state != Active && !m.fromClient && !echoOk)
      && (outcome == Fault(InvalidChallenge) <==> m.Hash? && v.state == AwaitHash && m.challenge == [])
      && (outcome == Fault(UnsolicitedSuccess) <==> m.LoginOk? && v.state != Active && v.request.None?)
      && (outcome == Fault(EmptyResponse) <==> m.LoginEmpty? && v.state != Active)
      && (outcome == Fault(Unauthenticated) <==>
            v.state != Active && (m.Login? || m.Auth2fa? || m.Application? || (m.Hash? && v.state != AwaitHash)
                                  || (m.SignedId? && !(v.state == AwaitHash && v.plain))))
      && (outcome.Fault? ==> outcome.reason in {WriteFailed, InvalidChallenge, UnsolicitedSuccess, EmptyResponse, Unauthenticated})
  {
    hide Upsert;
  }

  /** What a record makes of an open viewer: which records end it, and what the others change. */
  lemma ViewerStateExact(v: Viewer, m: Message, echoOk: bool)
    requires v.state != Closed
    ensures var (w, outcome, out) := ViewerReceive(v, Record(m), echoOk);
      && (w.state == Closed <==> outcome.Fault? || m.CloseReason? || (m.LoginError? && v.state != Active && v.request.None?))
      && (w.state == Closed ==> Cleared(w))
      && (outcome == Event(Challenged) ==> w == v.(hash := Some(Challenge(m.salt, m.challenge)), state := AwaitLogin))
      && (m.LoginOk? && v.state != Active && v.request.Some? ==> w == v.(state := Active, peerInfo := Some(m.info)))
      && (m.LoginError? && v.state != Active && v.request.Some? ==> w == v.(state := AfterError(m.text)))
      && (m.PermissionInfo? ==> w == RecordPermission(v, m.report))
      && (w.state == Closed || outcome == Event(Challenged) || m.PermissionInfo? || (v.state != Active && (m.LoginOk? || m.LoginError?)) || w == v)
      && out == if m.TestDelay? && !m.fromClient && v.state != Active then [m] else []
  {
    hide Upsert;
  }

  /** A report of a known permission changes just that permission, and no other report is kept of it. */
  lemma RecordExact(v: Viewer, r: Report)
    ensures var w := RecordPermission(v, r);
      && (!(0 <= r.permission <= 8) || r.permission == 1 ==> w == v)
      && (r.permission in {0, 2, 3, 4, 5, 6, 7, 8} ==>
            && w == v.(permissions := w.permissions, reports := w.reports) && Reported(w.reports, r.permission, !r.enabled) == r.enabled
            && (w.permissions.keyboard <==> if r.permission == 0 then r.enabled else v.permissions.keyboard)
            && (w.permissions.clipboard <==> if r.permission == 2 then r.enabled else v.permissions.clipboard)
            && (w.permissions.audio <==> if r.permission == 3 then r.enabled else v.permissions.audio)
            && (w.permissions.file <==> if r.permission == 4 then r.enabled else v.permissions.file))
  {
    hide Upsert, Reported;
    UpsertReports(v.reports, r, r.permission, !r.enabled);
  }

  /** Without a record, or once closed, a receive call leaves nothing behind, for the reason there is. */
  lemma ViewerInterrupted(v: Viewer, incoming: Incoming, echoOk: bool)
    ensures var (w, outcome, out) := ViewerReceive(v, incoming, echoOk);
      && (v.state == Closed || !incoming.Record? ==> Cleared(w) && out == [])
      && (v.state == Closed || incoming.Eof? ==> outcome == Event(SessionClosed))
      && (v.state != Closed && incoming.ReadError? ==> outcome == Fault(InvalidRecord))
      && (v.state != Closed && incoming.Timeout? ==> outcome == Fault(ReceiveTimeout))
  {
    hide Dispatch;
  }

  /** A code goes out exactly from a viewer that waits for one in time, and ends the session only if its write fails. */
  lemma FactorSent(v: Viewer, code: string, expired: bool, ok: bool)
    ensures var (w, error, out) := ViewerFactor(v, code, expired, ok);
      && out == (if !expired && v.state == Await2Fa then [Auth2fa(code)] else [])
      && (error.None? <==> !expired && v.state == Await2Fa && ok)
      && (if expired || (v.state == Await2Fa && !ok) then Cleared(w) else w == v)
  {
  }

  /** Closing tells the peer once, and clears the session. */
  lemma ClosedOnce(v: Viewer)
    ensures var (w, out) := ViewerClose(v);
      && w.state == Closed && out == (if v.state == Closed then [] else [CloseReason]) && (v.state != Closed ==> Cleared(w))
      && ViewerClose(w) == (w, [])
  {
  }

  /** What each login error makes of a waiting viewer. */
  lemma AfterErrorExact(text: string)
    ensures AfterError(text) == Await2Fa <==> text in {"2FA Required", "Wrong 2FA Code", "2FA verification unsupported"}
    ensures AfterError(text) == AwaitApproval <==> text == "No Password Access"
    ensures AfterError(text) in {AwaitLogin, AwaitApproval, Await2Fa}
  {
  }

  /** Exactly when a login goes out: an open viewer with a challenge, a plain desktop request of the identity it already used, no empty password. */
  lemma LoginSent(sha: Bytes -> Bytes, v: Viewer, req: A.LoginRequest, password: Option<Bytes>, expired: bool, ok: bool)
    ensures ViewerLogin(sha, v, req, password, expired, ok).2 != [] <==>
      && !expired && v.state in {AwaitLogin, AwaitApproval, Await2Fa} && v.hash.Some?
      && req.role.None? && req.username != "" && req.myId != "" && req.osUsername == "" && req.osPassword == ""
      && (v.request.Some? ==>
            && v.request.value.username == req.username && v.request.value.myId == req.myId
            && v.request.value.sessionId == req.sessionId)
      && password != Some([])
    ensures var (w, error, out) := ViewerLogin(sha, v, req, password, expired, ok);
      && (error.None? <==> out != [] && ok)
      && (if out != [] && ok then w == v.(state := AwaitLogin, request := Some(req.(password := [])))
          else if out != [] || expired then Cleared(w) else w == v)
  {
    hide Credential;
  }

  /**
   The one record a login sends: the request with its password answered. A password is accepted by
   a host with this challenge exactly if its salted form is stored, or collides with a stored value.
   */
  lemma LoginAnswersChallenge(c: A.Config, v: Viewer, req: A.LoginRequest, password: Option<Bytes>, expired: bool, ok: bool, salt: Bytes)
    requires v.hash == Some(Challenge(salt, c.challenge)) && forall x: Bytes :: |c.sha(x)| == 32
    requires ViewerLogin(c.sha, v, req, password, expired, ok).2 != []
    ensures var out := ViewerLogin(c.sha, v, req, password, expired, ok).2;
      && |out| == 1 && out[0].Login? && out[0].req == req.(password := out[0].req.password)
      && (password.None? ==> out[0].req.password == [])
      && (password.Some? ==>
            && password.value != [] && out[0].req.password == c.sha(c.sha(password.value + salt) + c.challenge)
            && (A.ValidResponse(c, out[0].req.password) <==>
                  var h1 := c.sha(password.value + salt); h1 in c.passwords || exists p :: p in c.passwords && A.Collides(c, p, h1)))
  {
    if password.Some? {
      A.PasswordRoundTrip(c, salt, password.value);
    }
  }

  // SessionIo.send on whole messages, for both sessions: the wire is owned across the write
  // and not put back after a failure. Transport.SessionIo.SendCall is the same on bytes.
  function IoSend(sent: seq<Message>, m: Message, ok: bool): (bool, seq<Message>) {
    (ok, sent + [m])
  }

  class ViewerSession {
    const plain: bool
    const sha: Bytes -> Bytes
    var state: ViewerState
    var hash: Option<Challenge>
    var request: Option<A.LoginRequest>
    var permissions: A.Permissions
    var reports: seq<Report>
    var peerInfo: Option<string>
    var open: bool            // SessionIo still owns the wire
    var sent: seq<Message>

    function View(): Viewer
      reads this
    {
      Viewer(state, plain, hash, request, permissions, reports, peerInfo)
    }

    predicate Valid()
      reads this
    {
      ReportsConsistent(View()) && (open <==> state != Closed)
    }

    constructor (plain: bool, sha: Bytes -> Bytes)
      ensures Valid() && View() == NewViewer(plain) && sent == [] && this.sha == sha
    {
      this.plain, this.sha := plain, sha;
      state, hash, request, permissions := AwaitHash, None, None, VIEWER_REMOTE_DEFAULTS;
      reports, peerInfo, open, sent := [], None, true, [];
    }

    method Send(m: Message, ok: bool) returns (done: bool)
      requires open
      modifies this`open, this`sent
      ensures done == ok && (open, sent) == IoSend(old(sent), m, ok)
    {
      open := false;
      sent := sent + [m];
      if ok {
        open := true;
      }
      done := ok;
    }

    method TerminateCall()
      modifies this
      ensures Valid() && View() == Terminate(old(View())) && sent == old(sent)
    {
      state, permissions, hash, request := Closed, A.DENY_ALL, None, None;
      reports, peerInfo, open := [], None, false;
    }

    // Replaces the report with the same key in place, or appends.
    method StoreReport(info: Report)
      modifies this`reports
      ensures reports == Upsert(old(reports), info)
    {
      var i := 0;
      while i < |reports| && reports[i].permission != info.permission
        invariant i <= |reports|
        invariant forall k :: 0 <= k < i ==> reports[k].permission != info.permission
      {
        i := i + 1;
      }
      UpsertAt(reports, info, i);
      if i < |reports| {
        reports := reports[i := info];
      } else {
        reports := reports + [info];
      }
    }

    method RecordPermissionCall(info: Report)
      requires ReportsConsistent(View())
      modifies this`permissions, this`reports
      ensures View() == RecordPermission(old(View()), info) && ReportsConsistent(View())
    {
      RecordConsistent(View(), info);
      if !KnownPermission(info.permission) {
        return;
      }
      if info.permission == KEYBOARD { permissions := permissions.(keyboard := info.enabled); }
      else if info.permission == CLIPBOARD { permissions := permissions.(clipboard := info.enabled); }
      else if info.permission == AUDIO { permissions := permissions.(audio := info.enabled); }
      else if info.permission == FILE { permissions := permissions.(file := info.enabled); }
      StoreReport(info);
    }

    method Refuse(req: A.LoginRequest, password: Option<Bytes>) returns (error: Option<Reason>)
      ensures error == LoginRefusal(View(), req, password)
    {
      if state !in {AwaitLogin, AwaitApproval, Await2Fa} {
        return Some(LoginNotAllowed);
      }
      if hash.None? {
        return Some(NoChallenge);
      }
      if req.role.Some? || req.username == "" || req.myId == "" {
        return Some(DesktopOnly);
      }
      if req.osUsername != "" || req.osPassword != "" {
        return Some(OsLoginUnsupported);
      }
      if request.Some? {
        var first := request.value;
        if first.username != req.username || first.myId != req.myId || first.sessionId != req.sessionId {
          return Some(IdentityChanged);
        }
      }
      if password == Some([]) {
        return Some(EmptyPassword);
      }
      error := None;
    }

    method LoginCall(req: A.LoginRequest, password: Option<Bytes>, expired: bool, ok: bool) returns (error: Option<Reason>)
      requires Valid()
      modifies this
      ensures Valid()
      ensures var spec := ViewerLogin(sha, old(View()), req, password, expired, ok);
        View() == spec.0 && error == spec.1 && sent == old(sent) + spec.2
    {
      if expired {
        TerminateCall();
        return Some(DeadlineExpired);
      }
      error := Refuse(req, password);
      if error.Some? {
        return;
      }
      var response: Bytes := [];
      if password.Some? {
        var h1 := A.SaltedPassword(sha, password.value, hash.value.salt);
        response := A.PasswordResponse(sha, h1, hash.value.challenge);
      }
      var done := Send(Login(req.(password := response)), ok);
      if !done {
        TerminateCall();
        return Some(WriteFailed);
      }
      request := Some(req.(password := []));
      state := AwaitLogin;
      error := None;
    }

    method SendSecondFactor(code: string, expired: bool, ok: bool) returns (error: Option<Reason>)
      requires Valid()
      modifies this
      ensures Valid()
      ensures var spec := ViewerFactor(old(View()), code, expired, ok);
        View() == spec.0 && error == spec.1 && sent == old(sent) + spec.2
    {
      if expired {
        TerminateCall();
        return Some(DeadlineExpired);
      }
      if state != Await2Fa {
        return Some(NotAwaitingFactor);
      }
      var done := Send(Auth2fa(code), ok);
      if !done {
        TerminateCall();
        return Some(WriteFailed);
      }
      error := None;
    }

    method Receive(incoming: Incoming, echoOk: bool) returns (outcome: Outcome<ViewerEvent>)
      requires Valid()
      modifies this
      ensures Valid()
      ensures var spec := ViewerReceive(old(View()), incoming, echoOk);
        View() == spec.0 && outcome == spec.1 && sent == old(sent) + spec.2
    {
      outcome := ReceiveInner(incoming, echoOk);
      if outcome.Fault? || state == Closed {
        TerminateCall();
      }
    }

    // recv_inner: like Receive, before the wrapper terminates a closed or failed session.
    method ReceiveInner(incoming: Incoming, echoOk: bool) returns (outcome: Outcome<ViewerEvent>)
      requires Valid()
      modifies this
      ensures ReportsConsistent(View()) && (outcome.Event? ==> state != Closed ==> open)
      ensures var spec := ViewerReceive(old(View()), incoming, echoOk);
        && outcome == spec.1 && sent == old(sent) + spec.2
        && spec.0 == if outcome.Fault? || state == Closed then Terminate(View()) else View()
    {
      hide Overlay, UniqueKeys, RecordPermission, AfterError;
      if state == Closed {
        return Event(SessionClosed);
      }
      if incoming.Eof? {
        state := Closed;
        return Event(SessionClosed);
      }
      if incoming.ReadError? {
        state := Closed;
        return Fault(InvalidRecord);
      }
      if incoming.Timeout? {
        state := Closed;
        return Fault(ReceiveTimeout);
      }
      var message := incoming.message;
      if message.CloseReason? {
        state := Closed;
        return Event(SessionClosed);
      }
      if message.TestDelay? {
        if state == Active {
          return Event(Payload(message));
        }
        if !message.fromClient {
          var done := Send(message, echoOk);
          if !done {
            return Fault(WriteFailed);
          }
        }
        return Event(Progress);
      }
      if message.Empty? {
        return Event(Progress);
      }
      if message.SignedId? && state == AwaitHash && plain {
        return Event(Progress);
      }
      if message.Hash? && state == AwaitHash {
        if message.challenge == [] {
          state := Closed;
          return Fault(InvalidChallenge);
        }
        hash := Some(Challenge(message.salt, message.challenge));
        state := AwaitLogin;
        return Event(Challenged);
      }
      if state != Active {
        if message.LoginError? {
          if request.None? {
            state := Closed;
            return Event(LoginFailed(message.text));
          }
          state := AfterError(message.text);
          return Event(LoginFailed(message.text));
        }
        if message.LoginOk? {
          if request.None? {
            return Fault(UnsolicitedSuccess);
          }
          state := Active;
          peerInfo := Some(message.info);
          return Event(Authorized(message.info));
        }
        if message.LoginEmpty? {
          state := Closed;
          return Fault(EmptyResponse);
        }
      }
      if message.PermissionInfo? {
        RecordPermissionCall(message.report);
        return Event(if state == Active then PermissionChanged(permissions) else PreAuthControl(message));
      }
      if state != Active && (message.MessageBox? || message.ChatMessage?) {
        return Event(PreAuthControl(message));
      }
      if state != Active {
        state := Closed;
        return Fault(Unauthenticated);
      }
      outcome := Event(Payload(message));
    }

    method Close(ok: bool)
      requires Valid()
      modifies this
      ensures Valid()
      ensures var spec := ViewerClose(old(View())); View() == spec.0 && sent == old(sent) + spec.1
    {
      if state == Closed {
        return;
      }
      var _ := Send(CloseReason, ok);
      TerminateCall();
    }
  }

  // ----- The host -----

  datatype Host = Host(auth: A.Auth, permissions: A.Permissions, ready: bool)

  datatype HostEvent =
    | HostProgress
    | AwaitingApproval
    | LoginRejected(text: string)
    | HostAuthorized(permissions: A.Permissions)
    | Unsupported
    | HostClosed

  const NEW_HOST := Host(A.INITIAL, A.DENY_ALL, false)

  function Shut(h: Host): Host {
    Host(A.CLOSED, A.DENY_ALL, h.ready)
  }

  function GrantReports(p: A.Permissions): seq<Report> {
    [Report(KEYBOARD, p.keyboard), Report(CLIPBOARD, p.clipboard), Report(AUDIO, p.audio), Report(FILE, p.file)]
  }

  function Announce(reports: seq<Report>): (r: seq<Message>)
    ensures |r| == |reports|
  {
    seq(|reports|, i requires 0 <= i < |reports| => PermissionInfo(reports[i]))
  }

  // The records an authentication action writes.
  function Reply(a: A.Auth, action: A.AuthAction): seq<Message> {
    match action
    case Ignored => []
    case PendingApproval =>
      if a.request.Some? && a.request.value.version >= VERSION_1_2_0 then [LoginError(NO_PASSWORD_ACCESS)] else []
    case Error(text, _) => [LoginError(text)]
    case Authorize(info, p) => [LoginOk(info)] + Announce(GrantReports(p))
  }

  function EventOf(action: A.AuthAction): HostEvent {
    match action
    case Ignored => HostProgress
    case PendingApproval => AwaitingApproval
    case Error(text, _) => LoginRejected(text)
    case Authorize(_, p) => HostAuthorized(p)
  }

  // `budget` is the number of writes of this call that complete.
  function ApplyAction(h: Host, action: A.AuthAction, budget: nat): (Host, Outcome<HostEvent>, seq<Message>) {
    var out := Reply(h.auth, action);
    if budget < |out| then (Shut(h), Fault(WriteFailed), out[..budget + 1]) else
    var g := if action.Authorize? then h.(permissions := action.permissions, ready := true) else h;
    (if g.auth.state == A.Closed then Shut(g) else g, Event(EventOf(action)), out)
  }

  ghost function HostReceive(c: A.Config, h: Host, incoming: Incoming, env: A.Answers, budget: nat)
    : (Host, Outcome<HostEvent>, seq<Message>)
  {
    if h.auth.state == A.Closed then (Shut(h), Event(HostClosed), []) else
    match incoming
    case Eof => (Shut(h), Event(HostClosed), [])
    case ReadError => (Shut(h), Fault(InvalidRecord), [])
    case Timeout => (Shut(h), Fault(ReceiveTimeout), [])
    case Record(m) =>
      match m
      case CloseReason => (Shut(h), Event(HostClosed), [])
      case Empty => (h, Event(HostProgress), [])
      case TestDelay(fromClient) =>
        if !fromClient then (h, Event(HostProgress), [])
        else if budget == 0 then (Shut(h), Fault(WriteFailed), [m])
        else (h, Event(HostProgress), [m])
      case Login(req) =>
        var (a, action) := A.Login(c, h.auth, req, env);
        ApplyAction(h.(auth := a), action, budget)
      case Auth2fa(_) =>
        var (a, action) := A.SecondFactor(c, h.auth, env);
        ApplyAction(h.(auth := a), action, budget)
      case _ =>
        if h.auth.state == A.Authorized then (h, Event(Unsupported), [])
        else (Shut(h), Fault(if budget == 0 then WriteFailed else Unauthenticated), [LoginError(A.NOT_ALLOWED)])
  }

  function HostPoll(c: A.Config, h: Host, expired: bool, env: A.Answers, budget: nat)
    : (Host, Outcome<HostEvent>, seq<Message>)
  {
    if expired && h.auth.state != A.Authorized then (h.(auth := A.CLOSED), Fault(DeadlineExpired), []) else
    var (a, action) := A.Poll(c, h.auth, env);
    ApplyAction(h.(auth := a), action, budget)
  }

  function HostClose(h: Host): (Host, seq<Message>) {
    if h.auth.state == A.Closed then (h, []) else (Shut(h), [CloseReason])
  }

  // ----- Exactly when a host answers what -----

  predicate HostOver(h: Host) {
    h.auth == A.CLOSED && h.permissions == A.DENY_ALL
  }

  // The four reports of a grant.
  function Reports(p: A.Permissions): seq<Message> {
    [PermissionInfo(Report(0, p.keyboard)), PermissionInfo(Report(2, p.clipboard)),
     PermissionInfo(Report(3, p.audio)), PermissionInfo(Report(4, p.file))]
  }

  /** What the host writes and reports for an authentication action; a write that fails ends the session there. */
  lemma ActionExact(h: Host, action: A.AuthAction, budget: nat)
    ensures var (g, outcome, out) := ApplyAction(h, action, budget);
      var all := match action
        case Ignored => []
        case PendingApproval => if h.auth.request.Some? && h.auth.request.value.version >= 1002000 then [LoginError("No Password Access")] else []
        case Error(text, _) => [LoginError(text)]
        case Authorize(info, p) => [LoginOk(info)] + Reports(p);
      && (budget < |all| ==> outcome == Fault(WriteFailed) && HostOver(g) && out == all[..budget + 1])
      && (budget >= |all| ==> out == all && outcome == Event(match action
            case Ignored => HostProgress
            case PendingApproval => AwaitingApproval
            case Error(text, _) => LoginRejected(text)
            case Authorize(_, p) => HostAuthorized(p)))
      && (budget >= |all| && h.auth.state == A.Closed ==> HostOver(g))
      && (budget >= |all| && h.auth.state != A.Closed ==>
            g == if action.Authorize? then Host(h.auth, action.permissions, true) else h)
  {
    if action.Authorize? {
      assert Announce(GrantReports(action.permissions)) == Reports(action.permissions);
    }
  }

  /** What an open host makes of a record: logins and codes are calls of its authentication, little else passes before it. */
  lemma HostRecordsExact(c: A.Config, h: Host, m: Message, env: A.Answers, budget: nat)
    requires h.auth.state != A.Closed
    ensures var (g, outcome, out) := HostReceive(c, h, Record(m), env, budget);
      && (m.CloseReason? ==> HostOver(g) && outcome == Event(HostClosed) && out == [])
      && (m.Empty? || (m.TestDelay? && !m.fromClient) ==> g == h && outcome == Event(HostProgress) && out == [])
      && (m.TestDelay? && m.fromClient ==>
            out == [m] && if budget >= 1 then g == h && outcome == Event(HostProgress) else HostOver(g) && outcome == Fault(WriteFailed))
      && (m.Login? ==>
            var (a, action) := A.Step(c, h.auth, A.LoginEvent(m.req, env)); (g, outcome, out) == ApplyAction(h.(auth := a), action, budget))
      && (m.Auth2fa? ==>
            var (a, action) := A.Step(c, h.auth, A.FactorEvent(env)); (g, outcome, out) == ApplyAction(h.(auth := a), action, budget))
      && (!m.CloseReason? && !m.Empty? && !m.TestDelay? && !m.Login? && !m.Auth2fa? ==>
            if h.auth.state == A.Authorized then g == h && outcome == Event(Unsupported) && out == []
            else HostOver(g) && out == [LoginError("Connection not allowed")] && outcome == Fault(if budget >= 1 then Unauthenticated else WriteFailed))
  {
    hide A.Login, A.SecondFactor, ApplyAction;
  }

  /** Without a record, past its deadline or when it closes, a host is over, and says so to its peer only when it closes. */
  lemma HostEndsExact(c: A.Config, h: Host, incoming: Incoming, env: A.Answers, budget: nat)
    ensures var (g, outcome, out) := HostReceive(c, h, incoming, env, budget);
      && (h.auth.state == A.Closed || !incoming.Record? ==> HostOver(g) && out == [])
      && (h.auth.state == A.Closed || incoming.Eof? ==> outcome == Event(HostClosed))
      && (h.auth.state != A.Closed && incoming.ReadError? ==> outcome == Fault(InvalidRecord))
      && (h.auth.state != A.Closed && incoming.Timeout? ==> outcome == Fault(ReceiveTimeout))
    ensures var (g, outcome, out) := HostPoll(c, h, true, env, budget);
      h.auth.state != A.Authorized ==> g.auth == A.CLOSED && outcome == Fault(DeadlineExpired) && out == []
    ensures var (a, action) := A.Step(c, h.auth, A.PollEvent(env));
      HostPoll(c, h, false, env, budget) == ApplyAction(h.(auth := a), action, budget)
    ensures h.auth.state != A.Closed ==> HostOver(HostClose(h).0) && HostClose(h).1 == [CloseReason]
    ensures h.auth.state == A.Closed ==> HostClose(h) == (h, [])
  {
    hide A.Login, A.Poll, A.SecondFactor, ApplyAction;
  }

  class HostSession {
    const auth: A.HostAuthentication
    var permissions: A.Permissions
    var ready: bool
    var open: bool
    var sent: seq<Message>

    function View(): Host
      reads this, auth
    {
      Host(auth.View(), permissions, ready)
    }

    predicate Valid()
      reads this, auth
    {
      auth.Valid() && (auth.state != A.Closed ==> open)
    }

    constructor (config: A.Config)
      ensures Valid() && fresh(auth) && View() == NEW_HOST && auth.config == config && sent == []
    {
      auth := new A.HostAuthentication(config);
      permissions, ready, open, sent := A.DENY_ALL, false, true, [];
    }

    method Send(m: Message, ok: bool) returns (done: bool)
      requires open
      modifies this`open, this`sent
      ensures done == ok && (open, sent) == IoSend(old(sent), m, ok)
    {
      open := false;
      sent := sent + [m];
      if ok {
        open := true;
      }
      done := ok;
    }

    method ShutCall()
      modifies this, auth
      ensures Valid() && View() == Shut(old(View())) && sent == old(sent)
    {
      auth.Close();
      permissions, open := A.DENY_ALL, false;
    }

    // apply: the writes of an action, then its effect; a closed session is torn down.
    method ApplyCall(action: A.AuthAction, budget: nat) returns (outcome: Outcome<HostEvent>)
      requires auth.Valid() && ((action.Ignored? && auth.state == A.Closed) || open)
      modifies this, auth
      ensures Valid()
      ensures var spec := ApplyAction(old(View()), action, budget);
        View() == spec.0 && outcome == spec.1 && sent == old(sent) + spec.2
    {
      outcome := ApplyInner(action, budget);
      if outcome.Fault? || auth.state == A.Closed {
        ShutCall();
      }
    }

    method ApplyInner(action: A.AuthAction, budget: nat) returns (outcome: Outcome<HostEvent>)
      requires action.Ignored? || open
      modifies this
      ensures outcome.Event? ==> open == old(open)
      ensures var spec := ApplyAction(old(View()), action, budget);
        && outcome == spec.1 && sent == old(sent) + spec.2
        && spec.0 == if outcome.Fault? || auth.state == A.Closed then Shut(View()) else View()
    {
      match action
      case Ignored =>
        outcome := Event(HostProgress);
      case PendingApproval =>
        if auth.request.Some? && auth.request.value.version >= VERSION_1_2_0 {
          var done := Send(LoginError(NO_PASSWORD_ACCESS), budget >= 1);
          if !done {
            return Fault(WriteFailed);
          }
        }
        outcome := Event(AwaitingApproval);
      case Error(text, _) =>
        var done := Send(LoginError(text), budget >= 1);
        if !done {
          return Fault(WriteFailed);
        }
        outcome := Event(LoginRejected(text));
      case Authorize(info, granted) =>
        var done := Send(LoginOk(info), budget >= 1);
        ghost var spec := Reply(auth.View(), action);
        assert spec[..1] == [LoginOk(info)];
        if !done {
          return Fault(WriteFailed);
        }
        permissions := granted;
        var reports := GrantReports(granted);
        for i := 0 to 4
          invariant open && i + 1 <= budget
          invariant sent == old(sent) + spec[..i + 1]
          invariant permissions == granted && ready == old(ready)
        {
          done := Send(PermissionInfo(reports[i]), budget >= i + 2);
          assert spec[..i + 2] == spec[..i + 1] + [PermissionInfo(reports[i])];
          if !done {
            return Fault(WriteFailed);
          }
        }
        assert spec[..5] == spec;
        ready := true;
        outcome := Event(HostAuthorized(granted));
    }

    method PollApproval(expired: bool, env: A.Answers, budget: nat) returns (outcome: Outcome<HostEvent>)
      requires Valid()
      modifies this, auth
      ensures Valid()
      ensures var spec := HostPoll(auth.config, old(View()), expired, env, budget);
        View() == spec.0 && outcome == spec.1 && sent == old(sent) + spec.2
    {
      if expired && auth.state != A.Authorized {
        auth.Close();
        open := false;
        return Fault(DeadlineExpired);
      }
      var action := auth.PollApproval(env);
      outcome := ApplyCall(action, budget);
    }

    method Receive(incoming: Incoming, env: A.Answers, budget: nat) returns (outcome: Outcome<HostEvent>)
      requires Valid()
      modifies this, auth
      ensures Valid()
      ensures var spec := HostReceive(auth.config, old(View()), incoming, env, budget);
        View() == spec.0 && outcome == spec.1 && sent == old(sent) + spec.2
    {
      outcome := ReceiveInner(incoming, env, budget);
      if outcome.Fault? || auth.state == A.Closed {
        ShutCall();
      }
    }

    method ReceiveInner(incoming: Incoming, env: A.Answers, budget: nat) returns (outcome: Outcome<HostEvent>)
      requires Valid()
      modifies this, auth
      ensures auth.Valid() && (outcome.Event? ==> Valid())
      ensures var spec := HostReceive(auth.config, old(View()), incoming, env, budget);
        && outcome == spec.1 && sent == old(sent) + spec.2
        && spec.0 == if outcome.Fault? || auth.state == A.Closed then Shut(View()) else View()
    {
      hide A.Login, A.SecondFactor, Reply, EventOf;
      if auth.state == A.Closed {
        return Event(HostClosed);
      }
      if incoming.Eof? {
        auth.Close();
        return Event(HostClosed);
      }
      if incoming.ReadError? {
        auth.Close();
        return Fault(InvalidRecord);
      }
      if incoming.Timeout? {
        auth.Close();
        return Fault(ReceiveTimeout);
      }
      var message := incoming.message;
      match message
      case CloseReason =>
        auth.Close();
        outcome := Event(HostClosed);
      case Empty =>
        outcome := Event(HostProgress);
      case TestDelay(fromClient) =>
        if fromClient {
          var done := Send(message, budget >= 1);
          if !done {
            return Fault(WriteFailed);
          }
        }
        outcome := Event(HostProgress);
      case Login(req) =>
        var action := auth.LoginCall(req, env);
        outcome := ApplyCall(action, budget);
      case Auth2fa(_) =>
        var action := auth.SecondFactorCall(env);
        outcome := ApplyCall(action, budget);
      case _ =>
        if auth.state == A.Authorized {
          return Event(Unsupported);
        }
        var done := Send(LoginError(A.NOT_ALLOWED), budget >= 1);
        if !done {
          return Fault(WriteFailed);
        }
        auth.Close();
        outcome := Fault(Unauthenticated);
    }

    method Close(ok: bool)
      requires Valid()
      modifies this, auth
      ensures Valid()
      ensures var spec := HostClose(old(View())); View() == spec.0 && sent == old(sent) + spec.1
    {
      if auth.state == A.Closed {
        return;
      }
      auth.Close();
      permissions := A.DENY_ALL;
      var _ := Send(CloseReason, ok);
      open := false;
    }
  }
}
