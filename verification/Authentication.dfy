/**
 Host-side authentication: password, click approval, second factor, identity
 latch and permission ceiling (crates/rd-engine/src/authentication.rs).

 Local providers (attempt policy, approval UI, second factor) are arbitrary: what
 they answer during one call is the `Answers` record of that call.
 */
module Authentication {
  import opened Wrappers

  const WRONG_PASSWORD := "Wrong Password"
  const TWO_FACTOR_REQUIRED := "2FA Required"
  const WRONG_TWO_FACTOR := "Wrong 2FA Code"
  const TWO_FACTOR_UNSUPPORTED := "2FA verification unsupported"
  const NOT_ALLOWED := "Connection not allowed"

  datatype Permissions = Permissions(keyboard: bool, clipboard: bool, audio: bool, file: bool)
  {
    predicate Within(other: Permissions) {
      && (keyboard ==> other.keyboard)
      && (clipboard ==> other.clipboard)
      && (audio ==> other.audio)
      && (file ==> other.file)
    }

    // The greatest permission set below both operands.
    function Intersect(other: Permissions): (r: Permissions)
      ensures r.Within(this) && r.Within(other)
      ensures forall p: Permissions :: p.Within(this) && p.Within(other) ==> p.Within(r)
    {
      Permissions(keyboard && other.keyboard, clipboard && other.clipboard, audio && other.audio, file && other.file)
    }
  }

  const DENY_ALL := Permissions(false, false, false, false)

  datatype Role = FileTransfer | PortForward | ViewCamera | Terminal | OtherRole

  // Viewer preferences: true means an explicit BoolOption.Yes (No for enable_file_transfer).
  datatype Options = Options(disableKeyboard: bool, disableClipboard: bool, disableAudio: bool, refuseFile: bool)

  datatype LoginRequest = LoginRequest(
    username: string,
    myId: string,
    sessionId: nat,
    version: int,             // the number get_version_number computes from the version string
    role: Option<Role>,
    osUsername: string,
    osPassword: string,
    password: Bytes,
    options: Option<Options>)

  datatype PrimaryPolicy = PasswordOnly | ClickOnly | PasswordOrClick

  datatype Approval = Pending | Denied | Approved(grant: Permissions)

  datatype FactorResult = Verified | Wrong | Unsupported

  // What the local providers answer while one call runs.
  datatype Answers = Answers(
    attempt: Option<string>,  // AttemptPolicy.allow: None is Ok, Some is the refusal text
    approval: Approval,
    factorRequired: bool,
    factor: FactorResult)

  datatype Config = Config(
    acceptedTargets: set<string>,
    passwords: seq<Bytes>,    // stored h1 values
    policy: PrimaryPolicy,
    ceiling: Permissions,
    passwordPermissions: Permissions,
    challenge: Bytes,
    peerInfo: string,         // identity metadata, opaque to authentication
    sha: Bytes -> Bytes)      // SHA-256

  datatype HostAuthState = AwaitLogin | AwaitApproval | Await2Fa | Authorized | Closed

  datatype AuthAction =
    | Error(message: string, terminal: bool)
    | PendingApproval
    | Authorize(info: string, permissions: Permissions)
    | Ignored

  datatype Auth = Auth(state: HostAuthState, request: Option<LoginRequest>, grant: Permissions)

  const INITIAL := Auth(AwaitLogin, None, DENY_ALL)
  const CLOSED := Auth(Closed, None, DENY_ALL)

  // ----- Passwords -----

  function SaltedPassword(sha: Bytes -> Bytes, password: Bytes, salt: Bytes): Bytes {
    sha(password + salt)
  }

  function PasswordResponse(sha: Bytes -> Bytes, h1: Bytes, challenge: Bytes): Bytes {
    sha(h1 + challenge)
  }

  ghost predicate ValidResponse(c: Config, response: Bytes) {
    |response| == 32 && exists i :: 0 <= i < |c.passwords| && PasswordResponse(c.sha, c.passwords[i], c.challenge) == response
  }

  /** Every stored value is compared; no early exit. */
  method Verify(c: Config, response: Bytes) returns (valid: bool)
    ensures valid <==> ValidResponse(c, response)
  {
    if |response| != 32 {
      return false;
    }
    valid := false;
    for i := 0 to |c.passwords|
      invariant valid <==> exists k :: 0 <= k < i && PasswordResponse(c.sha, c.passwords[k], c.challenge) == response
    {
      var expected := PasswordResponse(c.sha, c.passwords[i], c.challenge);
      valid := valid || expected == response;
    }
  }

  // ----- The state machine as functions -----

  predicate PasswordTried(c: Config, req: LoginRequest) {
    c.policy != ClickOnly && req.password != []
  }

  ghost predicate PasswordAccepted(c: Config, req: LoginRequest, env: Answers) {
    PasswordTried(c, req) && env.attempt.None? && ValidResponse(c, req.password)
  }

  function RoleError(role: Role): string {
    match role
    case FileTransfer => "No permission of file transfer"
    case PortForward => "No permission of IP tunneling"
    case ViewCamera => "No permission of viewing camera"
    case Terminal => "No permission of terminal"
    case OtherRole => "Unsupported session role"
  }

  // The terminal refusal of a login request, if any, in the order of the checks.
  function Refusal(c: Config, a: Auth, req: LoginRequest): Option<string> {
    if req.username !in c.acceptedTargets then Some("Offline")
    else if req.role.Some? then Some(RoleError(req.role.value))
    else if req.osUsername != "" || req.osPassword != "" then Some("OS login is unsupported for this session")
    else if a.request.Some? && a.request.value.myId != req.myId then Some(NOT_ALLOWED)
    else if req.myId == "" then Some(NOT_ALLOWED)
    else None
  }

  // What is latched of a request: never the wire password.
  function Scrub(req: LoginRequest): LoginRequest {
    req.(password := [], osUsername := "", osPassword := "")
  }

  // Viewer preferences can only remove grants.
  function Disable(grant: Permissions, options: Option<Options>): (r: Permissions)
    ensures r.Within(grant)
  {
    match options
    case None => grant
    case Some(o) =>
      Permissions(grant.keyboard && !o.disableKeyboard, grant.clipboard && !o.disableClipboard,
                  grant.audio && !o.disableAudio, grant.file && !o.refuseFile)
  }

  function Grant(c: Config, a: Auth): (Auth, AuthAction)
    requires a.request.Some?
  {
    var p := Disable(a.grant, a.request.value.options);
    (Auth(Authorized, a.request, p), Authorize(c.peerInfo, p))
  }

  function AfterPrimary(c: Config, a: Auth, env: Answers): (Auth, AuthAction)
    requires a.request.Some?
  {
    if env.factorRequired then (a.(state := Await2Fa), Error(TWO_FACTOR_REQUIRED, false)) else Grant(c, a)
  }

  function Poll(c: Config, a: Auth, env: Answers): (Auth, AuthAction) {
    if a.state != AwaitApproval || a.request.None? then (a, Ignored) else
    match env.approval
    case Pending => (a, PendingApproval)
    case Denied => (CLOSED, Error(NOT_ALLOWED, true))
    case Approved(g) => AfterPrimary(c, a.(grant := g.Intersect(c.ceiling)), env)
  }

  ghost function Login(c: Config, a: Auth, req: LoginRequest, env: Answers): (Auth, AuthAction) {
    if a.state == Closed || a.state == Authorized then (a, Ignored) else
    var refusal := Refusal(c, a, req);
    if refusal.Some? then (CLOSED, Error(refusal.value, true))
    else if PasswordTried(c, req) && env.attempt.Some? then
      (a.(state := AwaitLogin), Error(env.attempt.value, false))
    else
      var latched := Auth(AwaitLogin, Some(Scrub(req)), a.grant);
      if PasswordAccepted(c, req, env) then
        AfterPrimary(c, latched.(grant := c.passwordPermissions.Intersect(c.ceiling)), env)
      else if c.policy == PasswordOnly then
        (latched, Error(if req.password != [] then WRONG_PASSWORD else "Empty Password", false))
      else
        var (polled, action) := Poll(c, latched.(state := AwaitApproval), env);
        if action.PendingApproval? && c.policy == PasswordOrClick && req.password != []
        then (polled, Error(WRONG_PASSWORD, false))
        else (polled, action)
  }

  function SecondFactor(c: Config, a: Auth, env: Answers): (Auth, AuthAction) {
    if a.state != Await2Fa || a.request.None? then (a, Ignored)
    else if env.attempt.Some? then (a, Error(env.attempt.value, false))
    else match env.factor
      case Verified => Grant(c, a)
      case Wrong => (a, Error(WRONG_TWO_FACTOR, false))
      case Unsupported => (a, Error(TWO_FACTOR_UNSUPPORTED, false))
  }

  // ----- The object -----

  class HostAuthentication {
    const config: Config
    var state: HostAuthState
    var request: Option<LoginRequest>
    var grant: Permissions

    function View(): Auth
      reads this
    {
      Auth(state, request, grant)
    }

    // A primary credential is only pending or accepted for a latched request.
    predicate Valid()
      reads this
    {
      Latched(View())
    }

    constructor (config: Config)
      ensures View() == INITIAL && Valid() && this.config == config
    {
      this.config := config;
      state, request, grant := AwaitLogin, None, DENY_ALL;
    }

    method Close()
      modifies this
      ensures View() == CLOSED
    {
      state, grant, request := Closed, DENY_ALL, None;
    }

    method Fail(message: string, terminal: bool) returns (action: AuthAction)
      modifies this
      ensures action == Error(message, terminal)
      ensures View() == if terminal then CLOSED else old(View())
    {
      if terminal {
        Close();
      }
      action := Error(message, terminal);
    }

    method LoginCall(req: LoginRequest, env: Answers) returns (action: AuthAction)
      requires Valid()
      modifies this
      ensures Valid()
      ensures (View(), action) == Login(config, old(View()), req, env)
    {
      if state == Closed || state == Authorized {
        return Ignored;
      }
      if req.username !in config.acceptedTargets {
        action := Fail("Offline", true);
        return;
      }
      if req.role.Some? {
        action := Fail(RoleError(req.role.value), true);
        return;
      }
      if req.osUsername != "" || req.osPassword != "" {
        action := Fail("OS login is unsupported for this session", true);
        return;
      }
      if request.Some? && request.value.myId != req.myId {
        action := Fail(NOT_ALLOWED, true);
        return;
      }
      if req.myId == "" {
        action := Fail(NOT_ALLOWED, true);
        return;
      }
      state := AwaitLogin;
      var nonempty := req.password != [];
      var valid := false;
      if config.policy != ClickOnly && nonempty {
        if env.attempt.Some? {
          action := Fail(env.attempt.value, false);
          return;
        }
        valid := Verify(config, req.password);
      }
      request := Some(Scrub(req));
      if valid {
        grant := config.passwordPermissions.Intersect(config.ceiling);
        action := AfterPrimaryCall(env);
        return;
      }
      if config.policy == PasswordOnly {
        action := Fail(if nonempty then WRONG_PASSWORD else "Empty Password", false);
        return;
      }
      state := AwaitApproval;
      action := PollApproval(env);
      if action.PendingApproval? && config.policy == PasswordOrClick && nonempty {
        action := Fail(WRONG_PASSWORD, false);
      }
    }

    method PollApproval(env: Answers) returns (action: AuthAction)
      requires Valid()
      modifies this
      ensures Valid()
      ensures (View(), action) == Poll(config, old(View()), env)
    {
      if state != AwaitApproval || request.None? {
        return Ignored;
      }
      match env.approval
      case Pending => action := PendingApproval;
      case Denied => action := Fail(NOT_ALLOWED, true);
      case Approved(g) =>
        grant := g.Intersect(config.ceiling);
        action := AfterPrimaryCall(env);
    }

    method AfterPrimaryCall(env: Answers) returns (action: AuthAction)
      requires request.Some?
      modifies this
      ensures Valid()
      ensures (View(), action) == AfterPrimary(config, old(View()), env)
    {
      if env.factorRequired {
        state := Await2Fa;
        action := Fail(TWO_FACTOR_REQUIRED, false);
        return;
      }
      action := AuthorizeCall();
    }

    method SecondFactorCall(env: Answers) returns (action: AuthAction)
      requires Valid()
      modifies this
      ensures Valid()
      ensures (View(), action) == SecondFactor(config, old(View()), env)
    {
      if state != Await2Fa {
        return Ignored;
      }
      if env.attempt.Some? {
        action := Fail(env.attempt.value, false);
        return;
      }
      match env.factor
      case Verified => action := AuthorizeCall();
      case Wrong => action := Fail(WRONG_TWO_FACTOR, false);
      case Unsupported => action := Fail(TWO_FACTOR_UNSUPPORTED, false);
    }

    method AuthorizeCall() returns (action: AuthAction)
      requires request.Some?
      modifies this
      ensures Valid()
      ensures (View(), action) == Grant(config, old(View()))
    {
      if request.value.options.Some? {
        var o := request.value.options.value;
        if o.disableKeyboard { grant := grant.(keyboard := false); }
        if o.disableClipboard { grant := grant.(clipboard := false); }
        if o.disableAudio { grant := grant.(audio := false); }
        if o.refuseFile { grant := grant.(file := false); }
      }
      state := Authorized;
      action := Authorize(config.peerInfo, grant);
    }
  }

  predicate Latched(a: Auth) {
    && (a.state in {AwaitApproval, Await2Fa, Authorized} ==> a.request.Some?)
    && (a.state == Closed ==> a == CLOSED)
  }

  // ----- Runs -----

  datatype AuthEvent =
    | LoginEvent(req: LoginRequest, env: Answers)
    | PollEvent(env: Answers)
    | FactorEvent(env: Answers)
    | CloseEvent

  ghost function Step(c: Config, a: Auth, e: AuthEvent): (Auth, AuthAction) {
    match e
    case LoginEvent(req, env) => Login(c, a, req, env)
    case PollEvent(env) => Poll(c, a, env)
    case FactorEvent(env) => SecondFactor(c, a, env)
    case CloseEvent => (CLOSED, Ignored)
  }

  ghost function Run(c: Config, events: seq<AuthEvent>): (a: Auth)
    ensures Latched(a)
  {
    if events == [] then INITIAL else Step(c, Run(c, events[..|events| - 1]), events[|events| - 1]).0
  }

  // The action the i-th call of a run returns.
  ghost function ActionAt(c: Config, events: seq<AuthEvent>, i: nat): AuthAction
    requires i < |events|
  {
    Step(c, Run(c, events[..i]), events[i]).1
  }

  // The last login request of a run is event l.
  predicate LastLogin(events: seq<AuthEvent>, l: nat) {
    l < |events| && events[l].LoginEvent? && forall k :: l < k < |events| ==> !events[k].LoginEvent?
  }

  // Event j carries an accepted primary credential whose provider grants g.
  ghost predicate Primary(c: Config, e: AuthEvent, g: Permissions) {
    match e
    case LoginEvent(req, env) =>
      if PasswordAccepted(c, req, env) then g == c.passwordPermissions
      else c.policy != PasswordOnly && env.approval == Approved(g)
    case PollEvent(env) => c.policy != PasswordOnly && env.approval == Approved(g)
    case _ => false
  }

  predicate DesktopRequest(c: Config, req: LoginRequest) {
    req.username in c.acceptedTargets && req.role.None? && req.osUsername == "" && req.osPassword == "" && req.myId != ""
  }

  // The latched request is exactly the last login, and it is a plain desktop login.
  ghost predicate Current(c: Config, events: seq<AuthEvent>, a: Auth, l: nat) {
    LastLogin(events, l) && a.request == Some(Scrub(events[l].req)) && DesktopRequest(c, events[l].req)
  }

  // The grant was computed from an accepted credential that followed the last login.
  ghost predicate Backed(c: Config, events: seq<AuthEvent>, a: Auth, l: nat, j: nat, g: Permissions) {
    && Current(c, events, a, l) && l <= j < |events|
    && Primary(c, events[j], g) && events[j].env.factorRequired
    && a.grant == g.Intersect(c.ceiling)
  }

  ghost predicate Provenance(c: Config, events: seq<AuthEvent>) {
    var a := Run(c, events);
    && (a.state == AwaitApproval ==> c.policy != PasswordOnly && exists l :: Current(c, events, a, l))
    && (a.state == Await2Fa ==> exists l, j, g :: Backed(c, events, a, l, j, g))
  }

  lemma {:induction false} RunHasProvenance(c: Config, events: seq<AuthEvent>)
    ensures Provenance(c, events)
  {
    if events != [] {
      var n := |events| - 1;
      RunHasProvenance(c, events[..n]);
      match events[n]
      case LoginEvent(_, _) => LoginProvenance(c, events);
      case PollEvent(_) => PollProvenance(c, events);
      case FactorEvent(_) => FactorProvenance(c, events);
      case CloseEvent =>
    }
  }

  lemma LoginProvenance(c: Config, events: seq<AuthEvent>)
    requires events != [] && events[|events| - 1].LoginEvent? && Provenance(c, events[..|events| - 1])
    ensures Provenance(c, events)
  {
    var n := |events| - 1;
    var e, b := events[n], Run(c, events);
    assert LastLogin(events, n);
    if b.state == AwaitApproval {
      assert Current(c, events, b, n);
    } else if b.state == Await2Fa {
      LoginAwaits2Fa(c, events);
    }
  }

  lemma LoginAwaits2Fa(c: Config, events: seq<AuthEvent>)
    requires events != [] && events[|events| - 1].LoginEvent? && Run(c, events).state == Await2Fa
    ensures exists l, j, g :: Backed(c, events, Run(c, events), l, j, g)
  {
    var n := |events| - 1;
    var e := events[n];
    assert LastLogin(events, n);
    var g := if PasswordAccepted(c, e.req, e.env) then c.passwordPermissions else e.env.approval.grant;
    assert Backed(c, events, Run(c, events), n, n, g);
  }

  lemma PollProvenance(c: Config, events: seq<AuthEvent>)
    requires events != [] && events[|events| - 1].PollEvent? && Provenance(c, events[..|events| - 1])
    ensures Provenance(c, events)
  {
    var n := |events| - 1;
    var before := events[..n];
    var a, b := Run(c, before), Run(c, events);
    if a.state == AwaitApproval {
      var l :| Current(c, before, a, l);
      if b.state == AwaitApproval {
        assert Current(c, events, b, l);
      } else if b.state == Await2Fa {
        assert Backed(c, events, b, l, n, events[n].env.approval.grant);
      }
    } else if b.state == Await2Fa {
      var l, j, g :| Backed(c, before, a, l, j, g);
      assert Backed(c, events, b, l, j, g);
    }
  }

  lemma FactorProvenance(c: Config, events: seq<AuthEvent>)
    requires events != [] && events[|events| - 1].FactorEvent? && Provenance(c, events[..|events| - 1])
    ensures Provenance(c, events)
  {
    var before := events[..|events| - 1];
    var a, b := Run(c, before), Run(c, events);
    if b.state == AwaitApproval {
      var l :| Current(c, before, a, l);
      assert Current(c, events, b, l);
    } else if b.state == Await2Fa {
      var l, j, g :| Backed(c, before, a, l, j, g);
      assert Backed(c, events, b, l, j, g);
    }
  }

  /**
   Where an authorization comes from, in every run against arbitrary providers:
   event l is the last login, event j the accepted password or approval for it,
   and if a second factor was required at j then event i is a later verified code.
   The grant is that primary grant cut by the ceiling and the viewer's disables.
   */
  lemma AuthorizationProvenance(c: Config, events: seq<AuthEvent>, i: nat) returns (l: nat, j: nat, g: Permissions)
    requires i < |events|
    requires ActionAt(c, events, i).Authorize?
    ensures l <= j <= i && LastLogin(events[..i + 1], l) && DesktopRequest(c, events[l].req)
    ensures Primary(c, events[j], g)
    ensures events[j].env.factorRequired ==>
      j < i && events[i].FactorEvent? && events[i].env.attempt.None? && events[i].env.factor == Verified
    ensures !events[j].env.factorRequired ==> j == i
    ensures ActionAt(c, events, i).permissions == Disable(g.Intersect(c.ceiling), events[l].req.options)
    ensures ActionAt(c, events, i).permissions.Within(c.ceiling) && ActionAt(c, events, i).permissions.Within(g)
    ensures Run(c, events[..i]).state !in {Authorized, Closed}
  {
    var before, upto := events[..i], events[..i + 1];
    RunHasProvenance(c, before);
    var a, e := Run(c, before), events[i];
    assert upto[..i] == before;
    match e
    case LoginEvent(req, env) =>
      l, j := i, i;
      g := if PasswordAccepted(c, req, env) then c.passwordPermissions else env.approval.grant;
    case PollEvent(env) =>
      l :| Current(c, before, a, l);
      j, g := i, env.approval.grant;
    case FactorEvent(env) =>
      l, j, g :| Backed(c, before, a, l, j, g);
  }

  // How many authorizations a run issued.
  ghost function Issued(c: Config, events: seq<AuthEvent>): nat {
    if events == [] then 0
    else Issued(c, events[..|events| - 1]) + if ActionAt(c, events, |events| - 1).Authorize? then 1 else 0
  }

  /** Authorized is issued at most once, and is followed only by Authorized or Closed. */
  lemma {:induction false} AuthorizedOnce(c: Config, events: seq<AuthEvent>)
    ensures Issued(c, events) <= 1
    ensures Issued(c, events) == 1 ==> Run(c, events).state in {Authorized, Closed}
    ensures Run(c, events).state == Authorized ==> Issued(c, events) == 1
  {
    if events != [] {
      AuthorizedOnce(c, events[..|events| - 1]);
    }
  }

  /** The index of an authorization is determined by the run. */
  lemma {:induction false} IssuedPositive(c: Config, events: seq<AuthEvent>) returns (i: nat)
    requires Issued(c, events) > 0
    ensures i < |events| && ActionAt(c, events, i).Authorize?
  {
    var n := |events| - 1;
    if ActionAt(c, events, n).Authorize? {
      i := n;
    } else {
      i := IssuedPositive(c, events[..n]);
      assert events[..n][..i] == events[..i];
    }
  }

  lemma StepKeepsIdentity(c: Config, a: Auth, e: AuthEvent)
    requires Latched(a)
    ensures var b := Step(c, a, e).0;
      && (a.state == Closed ==> b.state == Closed)
      && (a.request.Some? ==> b.state == Closed || (b.request.Some? && b.request.value.myId == a.request.value.myId))
  {
  }

  /** The controller id a host latched never changes until the session closes, and closing is final. */
  lemma {:induction false} IdentityLatched(c: Config, events: seq<AuthEvent>, i: nat)
    requires i <= |events|
    ensures Run(c, events[..i]).state == Closed ==> Run(c, events).state == Closed
    ensures Run(c, events[..i]).request.Some? ==>
      || Run(c, events).state == Closed
      || (Run(c, events).request.Some? &&
          Run(c, events).request.value.myId == Run(c, events[..i]).request.value.myId)
  {
    hide Step;
    if i < |events| {
      var n := |events| - 1;
      var before := events[..n];
      assert before[..i] == events[..i];
      IdentityLatched(c, before, i);
      StepKeepsIdentity(c, Run(c, before), events[n]);
    } else {
      assert events[..i] == events;
    }
  }

  // ----- Who is let in, and with what -----

  // Each permission is granted exactly if the provider and the ceiling allow it and the viewer does not disable it.
  predicate Cut(p: Permissions, g: Permissions, ceiling: Permissions, options: Option<Options>) {
    && (p.keyboard <==> g.keyboard && ceiling.keyboard && !(options.Some? && options.value.disableKeyboard))
    && (p.clipboard <==> g.clipboard && ceiling.clipboard && !(options.Some? && options.value.disableClipboard))
    && (p.audio <==> g.audio && ceiling.audio && !(options.Some? && options.value.disableAudio))
    && (p.file <==> g.file && ceiling.file && !(options.Some? && options.value.refuseFile))
  }

  // The host has not decided yet, and the request is a plain desktop login of the controller it knows, if any.
  ghost predicate Admissible(c: Config, events: seq<AuthEvent>, req: LoginRequest) {
    var a := Run(c, events);
    a.state !in {Authorized, Closed} && DesktopRequest(c, req) && (a.request.Some? ==> a.request.value.myId == req.myId)
  }

  // After the last event the session is authorized with exactly the grant g cut, or asks for a required code.
  ghost predicate LetIn(c: Config, events: seq<AuthEvent>, g: Permissions, options: Option<Options>, factorRequired: bool)
    requires events != []
  {
    var b, action := Run(c, events), ActionAt(c, events, |events| - 1);
    if factorRequired then b.state == Await2Fa && action == Error(TWO_FACTOR_REQUIRED, false)
    else b.state == Authorized && action == Authorize(c.peerInfo, b.grant) && Cut(b.grant, g, c.ceiling, options)
  }

  lemma LastStep(c: Config, events: seq<AuthEvent>, e: AuthEvent)
    ensures Run(c, events + [e]) == Step(c, Run(c, events), e).0
    ensures ActionAt(c, events + [e], |events|) == Step(c, Run(c, events), e).1
  {
    assert (events + [e])[..|events|] == events;
  }

  /** An allowed attempt with a response that answers the challenge for a stored password lets an admissible request in. */
  lemma PasswordLetsIn(c: Config, events: seq<AuthEvent>, req: LoginRequest, env: Answers)
    requires Admissible(c, events, req)
    requires c.policy != ClickOnly && env.attempt.None? && req.password != [] && ValidResponse(c, req.password)
    ensures LetIn(c, events + [LoginEvent(req, env)], c.passwordPermissions, req.options, env.factorRequired)
    ensures Run(c, events + [LoginEvent(req, env)]).request == Some(req.(password := []))
  {
    hide ValidResponse;
    LastStep(c, events, LoginEvent(req, env));
  }

  // The request brings no accepted password and the policy lets it ask the approver.
  ghost predicate AsksApprover(c: Config, req: LoginRequest, env: Answers) {
    && c.policy != PasswordOnly
    && (c.policy == ClickOnly || req.password == [] || (env.attempt.None? && !ValidResponse(c, req.password)))
  }

  /** An approval lets the session in that waits for it. */
  lemma ApprovalLetsIn(c: Config, events: seq<AuthEvent>, env: Answers, g: Permissions)
    requires Run(c, events).state == AwaitApproval && env.approval == Approved(g)
    ensures LetIn(c, events + [PollEvent(env)], g, Run(c, events).request.value.options, env.factorRequired)
  {
    LastStep(c, events, PollEvent(env));
  }

  /** An approval already given lets in the admissible request that asks for it. */
  lemma ClickLetsIn(c: Config, events: seq<AuthEvent>, req: LoginRequest, env: Answers, g: Permissions)
    requires Admissible(c, events, req) && AsksApprover(c, req, env) && env.approval == Approved(g)
    ensures LetIn(c, events + [LoginEvent(req, env)], g, req.options, env.factorRequired)
  {
    hide ValidResponse;
    LastStep(c, events, LoginEvent(req, env));
  }

  /** One that is not yet given leaves it waiting, and the viewer told unless it sent a password. */
  lemma ApprovalPending(c: Config, events: seq<AuthEvent>, req: LoginRequest, env: Answers)
    requires Admissible(c, events, req) && AsksApprover(c, req, env) && env.approval == Pending
    ensures Run(c, events + [LoginEvent(req, env)]).state == AwaitApproval
    ensures ActionAt(c, events + [LoginEvent(req, env)], |events|)
         == if c.policy == PasswordOrClick && req.password != [] then Error(WRONG_PASSWORD, false) else PendingApproval
  {
    hide ValidResponse;
    LastStep(c, events, LoginEvent(req, env));
  }

  /** A verified code authorizes the session that waits for it with what its primary credential was granted. */
  lemma CodeLetsIn(c: Config, events: seq<AuthEvent>, env: Answers) returns (l: nat, j: nat, g: Permissions)
    requires Run(c, events).state == Await2Fa && env.attempt.None? && env.factor == Verified
    ensures l <= j < |events| && LastLogin(events, l) && Primary(c, events[j], g)
    ensures LetIn(c, events + [FactorEvent(env)], g, events[l].req.options, false)
  {
    RunHasProvenance(c, events);
    l, j, g :| Backed(c, events, Run(c, events), l, j, g);
    LastStep(c, events, FactorEvent(env));
  }

  /** Whatever happened before, an admissible request that is refused for its password leaves the right one to be accepted. */
  lemma RetryLetsIn(c: Config, events: seq<AuthEvent>, wrong: LoginRequest, right: LoginRequest, env: Answers, again: Answers)
    requires Admissible(c, events, wrong) && DesktopRequest(c, right) && right.myId == wrong.myId
    requires c.policy == PasswordOnly && (env.attempt.None? ==> wrong.password == [] || !ValidResponse(c, wrong.password))
    requires again.attempt.None? && right.password != [] && ValidResponse(c, right.password)
    ensures var first := events + [LoginEvent(wrong, env)];
      && Run(c, first).state == AwaitLogin
      && ActionAt(c, first, |events|) == Error(if wrong.password == [] then "Empty Password"
                                               else if env.attempt.Some? then env.attempt.value else WRONG_PASSWORD, false)
      && LetIn(c, first + [LoginEvent(right, again)], c.passwordPermissions, right.options, again.factorRequired)
  {
    hide ValidResponse;
    LastStep(c, events, LoginEvent(wrong, env));
    PasswordLetsIn(c, events + [LoginEvent(wrong, env)], right, again);
  }

  /** A login closes an undecided session exactly if it is not admissible, or is denied by the approver it reaches. */
  lemma LoginCloses(c: Config, events: seq<AuthEvent>, req: LoginRequest, env: Answers)
    requires Run(c, events).state !in {Authorized, Closed}
    ensures Run(c, events + [LoginEvent(req, env)]).state == Closed <==>
      !Admissible(c, events, req) || (env.approval == Denied && AsksApprover(c, req, env))
  {
    hide ValidResponse;
    LastStep(c, events, LoginEvent(req, env));
  }

  /** With which words, in this order of precedence. */
  lemma LoginRefusedWith(c: Config, events: seq<AuthEvent>, req: LoginRequest, env: Answers)
    requires Run(c, events).state !in {Authorized, Closed}
    ensures var action := ActionAt(c, events + [LoginEvent(req, env)], |events|);
      && (req.username !in c.acceptedTargets ==> action == Error("Offline", true))
      && (req.username in c.acceptedTargets && req.role.Some? ==>
            action == Error(match req.role.value
                            case FileTransfer => "No permission of file transfer"
                            case PortForward => "No permission of IP tunneling"
                            case ViewCamera => "No permission of viewing camera"
                            case Terminal => "No permission of terminal"
                            case OtherRole => "Unsupported session role", true))
      && (req.username in c.acceptedTargets && req.role.None? && (req.osUsername != "" || req.osPassword != "") ==>
            action == Error("OS login is unsupported for this session", true))
      && (req.username in c.acceptedTargets && req.role.None? && req.osUsername == "" && req.osPassword == ""
          && (!Admissible(c, events, req) || (env.approval == Denied && AsksApprover(c, req, env))) ==>
            action == Error("Connection not allowed", true))
  {
    hide ValidResponse;
    LastStep(c, events, LoginEvent(req, env));
  }

  /** A poll asks the approver only for a session that waits, and a denial closes it. */
  lemma PollDecides(c: Config, events: seq<AuthEvent>, env: Answers)
    ensures var n, b := |events|, Run(c, events + [PollEvent(env)]);
      var action := ActionAt(c, events + [PollEvent(env)], n);
      && (Run(c, events).state != AwaitApproval || env.approval == Pending ==> b == Run(c, events))
      && (Run(c, events).state == AwaitApproval ==>
            && (env.approval == Pending ==> action == PendingApproval)
            && (env.approval == Denied ==> b.state == Closed && action == Error("Connection not allowed", true)))
      && (Run(c, events).state != AwaitApproval ==> action == Ignored)
  {
    LastStep(c, events, PollEvent(env));
  }

  /** What is decided stays: no call changes an authorized or closed session, except closing it. */
  lemma DecidedStays(c: Config, events: seq<AuthEvent>, e: AuthEvent)
    requires Run(c, events).state in {Authorized, Closed}
    ensures var n := |events|; ActionAt(c, events + [e], n) == Ignored
    ensures Run(c, events + [e]) == if e.CloseEvent? then CLOSED else Run(c, events)
  {
    LastStep(c, events, e);
  }

  /** A code closes nothing; anything but a verified one, and any code after a refused attempt, leaves the session waiting. */
  lemma CodeRefused(c: Config, events: seq<AuthEvent>, env: Answers)
    requires Run(c, events).state == Await2Fa && (env.attempt.Some? || env.factor != Verified)
    ensures Run(c, events + [FactorEvent(env)]) == Run(c, events)
    ensures ActionAt(c, events + [FactorEvent(env)], |events|)
         == Error(if env.attempt.Some? then env.attempt.value
                  else if env.factor == Wrong then WRONG_TWO_FACTOR else TWO_FACTOR_UNSUPPORTED, false)
  {
    LastStep(c, events, FactorEvent(env));
  }

  /** No run keeps a secret of a request: neither its password response nor an operating-system login. */
  lemma {:induction false} SecretsDropped(c: Config, events: seq<AuthEvent>)
    ensures var r := Run(c, events).request;
      r.Some? ==> r.value.password == [] && r.value.osUsername == "" && r.value.osPassword == ""
  {
    if events != [] {
      SecretsDropped(c, events[..|events| - 1]);
    }
  }

  /**
   A viewer that answers the challenge with its password is accepted exactly if the host
   stores that password's salted form, or a different value whose answer to this
   challenge has the same digest.
   */
  lemma PasswordRoundTrip(c: Config, salt: Bytes, password: Bytes)
    requires forall x: Bytes :: |c.sha(x)| == 32
    ensures var h1 := SaltedPassword(c.sha, password, salt);
      ValidResponse(c, PasswordResponse(c.sha, h1, c.challenge)) <==> h1 in c.passwords || exists p :: p in c.passwords && Collides(c, p, h1)
  {
    var h1 := SaltedPassword(c.sha, password, salt);
    var response := PasswordResponse(c.sha, h1, c.challenge);
    forall p | p in c.passwords && (p == h1 || Collides(c, p, h1))
      ensures ValidResponse(c, response)
    {
      var i :| 0 <= i < |c.passwords| && c.passwords[i] == p;
      assert PasswordResponse(c.sha, c.passwords[i], c.challenge) == response;
    }
    if ValidResponse(c, response) && h1 !in c.passwords {
      var i :| 0 <= i < |c.passwords| && PasswordResponse(c.sha, c.passwords[i], c.challenge) == response;
      var p := c.passwords[i];
      assert p == (p + c.challenge)[..|p + c.challenge| - |c.challenge|];
      assert h1 == (h1 + c.challenge)[..|h1 + c.challenge| - |c.challenge|];
      assert Collides(c, p, h1);
    }
  }

  // Two different strings with one digest, both ending in the challenge.
  predicate Collides(c: Config, p: Bytes, q: Bytes) {
    p + c.challenge != q + c.challenge && c.sha(p + c.challenge) == c.sha(q + c.challenge)
  }
}
