/**
 An honest viewer and an honest host joined by two FIFO channels, with a local
 approver, arbitrary providers, failing writes, time-outs and lost tails of a
 closed connection, in every interleaving.
 */
module TwoParty {
  import opened Wrappers
  import A = Authentication
  import S = Session

  type Message = S.Message

  // `log` lists the calls the host's authentication object has received; `id` is
  // the controller id of the first login the viewer sent.
  datatype System = System(
    v: S.Viewer,
    h: S.Host,
    toV: seq<Message>,
    toH: seq<Message>,
    log: seq<A.AuthEvent>,
    id: Option<string>)

  datatype Step =
    | ViewerLogin(req: A.LoginRequest, password: Option<Bytes>, expired: bool, ok: bool)
    | ViewerFactor(code: string, expired: bool, ok: bool)
    | ViewerRecord(ok: bool)
    | ViewerInterrupt(incoming: S.Incoming)
    | ViewerClose
    | ViewerWrite(m: Message)
    | HostRecord(env: A.Answers, budget: nat)
    | HostInterrupt(incoming: S.Incoming)
    | HostPoll(expired: bool, env: A.Answers, budget: nat)
    | HostClose
    | HostWrite(m: Message)
    | LoseToViewer(n: nat)
    | LoseToHost(n: nat)

  ghost predicate Enabled(s: System, step: Step) {
    match step
    case ViewerRecord(_) => s.toV != []
    case ViewerInterrupt(incoming) => !incoming.Record?
    // After the hand-off the media runtime writes anything but another login.
    case ViewerWrite(m) => s.v.state == S.Active && !m.Login?
    case HostRecord(_, _) => s.toH != []
    case HostInterrupt(incoming) => !incoming.Record?
    case HostPoll(_, _, _) => s.h.auth.state != A.Closed
    case HostWrite(m) =>
      s.h.auth.state == A.Authorized && (m.Application? || m.TestDelay? || m.ChatMessage? || m.MessageBox? || m.Empty?)
    // A closed end may take the unread tail of its stream with it.
    case LoseToViewer(n) => s.h.auth.state == A.Closed && n <= |s.toV|
    case LoseToHost(n) => s.v.state == S.Closed && n <= |s.toH|
    case _ => true
  }

  function CallOf(m: Message, env: A.Answers): seq<A.AuthEvent> {
    match m
    case Login(req) => [A.LoginEvent(req, env)]
    case Auth2fa(_) => [A.FactorEvent(env)]
    case _ => []
  }

  function CloseOf(h: S.Host): seq<A.AuthEvent> {
    if h.auth.state == A.Closed then [A.CloseEvent] else []
  }

  ghost function Next(c: A.Config, s: System, step: Step): System
    requires Enabled(s, step)
  {
    match step
    case ViewerLogin(req, password, expired, ok) =>
      var (v, _, out) := S.ViewerLogin(c.sha, s.v, req, password, expired, ok);
      s.(v := v, toH := s.toH + out, id := if out != [] && s.id.None? then Some(req.myId) else s.id)
    case ViewerFactor(code, expired, ok) =>
      var (v, _, out) := S.ViewerFactor(s.v, code, expired, ok);
      s.(v := v, toH := s.toH + out)
    case ViewerRecord(ok) =>
      var (v, _, out) := S.ViewerReceive(s.v, S.Record(s.toV[0]), ok);
      s.(v := v, toV := s.toV[1..], toH := s.toH + out)
    case ViewerInterrupt(incoming) =>
      s.(v := S.ViewerReceive(s.v, incoming, true).0)
    case ViewerClose =>
      var (v, out) := S.ViewerClose(s.v);
      s.(v := v, toH := s.toH + out)
    case ViewerWrite(m) =>
      s.(toH := s.toH + [m])
    case HostRecord(env, budget) =>
      var (h, _, out) := S.HostReceive(c, s.h, S.Record(s.toH[0]), env, budget);
      s.(h := h, toH := s.toH[1..], toV := s.toV + out, log := s.log + CallOf(s.toH[0], env) + CloseOf(h))
    case HostInterrupt(incoming) =>
      var (h, _, _) := S.HostReceive(c, s.h, incoming, A.Answers(None, A.Pending, false, A.Wrong), 0);
      s.(h := h, log := s.log + CloseOf(h))
    case HostPoll(expired, env, budget) =>
      var (h, _, out) := S.HostPoll(c, s.h, expired, env, budget);
      s.(h := h, toV := s.toV + out,
         log := s.log + (if expired && s.h.auth.state != A.Authorized then [] else [A.PollEvent(env)]) + CloseOf(h))
    case HostClose =>
      var (h, out) := S.HostClose(s.h);
      s.(h := h, toV := s.toV + out, log := s.log + CloseOf(h))
    case HostWrite(m) =>
      s.(toV := s.toV + [m])
    case LoseToViewer(n) => s.(toV := s.toV[..n])
    case LoseToHost(n) => s.(toH := s.toH[..n])
  }

  // The host has sent its challenge. A viewer without a key may find an earlier
  // SignedId in front of it, and has already sent the empty compatibility record.
  ghost predicate Initial(c: A.Config, s: System) {
    && s.h == S.NEW_HOST && s.log == [] && s.id == None && c.challenge != []
    && s.v == S.NewViewer(s.v.plain)
    && (exists salt :: s.toV == [S.Hash(salt, c.challenge)] || (s.v.plain && s.toV == [S.SignedId, S.Hash(salt, c.challenge)]))
    && s.toH in {[], [S.Empty]}
  }

  // ----- Draining the channel to the viewer -----

  function Receive(v: S.Viewer, m: Message): S.Viewer {
    S.ViewerReceive(v, S.Record(m), true).0
  }

  // The viewer after reading everything in flight.
  function Drain(v: S.Viewer, messages: seq<Message>): S.Viewer
    decreases messages
  {
    if messages == [] then v else Drain(Receive(v, messages[0]), messages[1..])
  }

  predicate Accepts(v: S.Viewer, m: Message) {
    S.ViewerReceive(v, S.Record(m), true).1 !in {S.Fault(S.UnsolicitedSuccess), S.Fault(S.Unauthenticated)}
  }

  // No record in flight will be an unsolicited success or a premature payload.
  predicate Clean(v: S.Viewer, messages: seq<Message>)
    decreases messages
  {
    messages == [] || (Accepts(v, messages[0]) && Clean(Receive(v, messages[0]), messages[1..]))
  }

  lemma {:induction false} DrainAppend(v: S.Viewer, a: seq<Message>, b: seq<Message>)
    ensures Drain(v, a + b) == Drain(Drain(v, a), b)
    ensures Clean(v, a + b) <==> Clean(v, a) && Clean(Drain(v, a), b)
    decreases a
  {
    if a == [] {
      assert a + b == b;
    } else {
      assert (a + b)[0] == a[0] && (a + b)[1..] == a[1..] + b;
      DrainAppend(Receive(v, a[0]), a[1..], b);
    }
  }

  lemma CleanPrefix(v: S.Viewer, messages: seq<Message>, n: nat)
    requires Clean(v, messages) && n <= |messages|
    ensures Clean(v, messages[..n])
  {
    assert messages == messages[..n] + messages[n..];
    DrainAppend(v, messages[..n], messages[n..]);
  }

  predicate Asked(v: S.Viewer) {
    v.request.Some? || v.state == S.Closed
  }

  predicate LoginResult(m: Message) {
    m.LoginError? || m.LoginOk?
  }

  lemma {:induction false} DrainFacts(v: S.Viewer, messages: seq<Message>)
    ensures var d := Drain(v, messages);
      && (Asked(v) ==> Asked(d))
      && (v.state == S.Closed ==> d.state == S.Closed && Clean(v, messages))
      && (d.state == S.Active ==> v.state == S.Active || exists m :: m in messages && m.LoginOk?)
    decreases messages
  {
    if messages != [] {
      DrainFacts(Receive(v, messages[0]), messages[1..]);
      assert messages[0] in messages;
      assert forall m :: m in messages[1..] ==> m in messages;
    }
  }

  predicate Waiting(v: S.Viewer) {
    v.state in {S.AwaitLogin, S.AwaitApproval, S.Await2Fa}
  }

  // Viewers that differ only in where they wait; the second one has asked.
  predicate Alike(v: S.Viewer, w: S.Viewer) {
    && v.permissions == w.permissions && Asked(w)
    && (if v.state in {S.Active, S.Closed} then w.state == v.state else Waiting(v) && Waiting(w))
  }

  lemma AlikeStep(v: S.Viewer, w: S.Viewer, m: Message)
    requires Alike(v, w) && Accepts(v, m) && (Asked(v) || !LoginResult(m))
    ensures Accepts(w, m) && Alike(Receive(v, m), Receive(w, m))
  {
  }

  lemma {:induction false} LoginKeepsDrain(v: S.Viewer, w: S.Viewer, messages: seq<Message>)
    requires Alike(v, w) && Clean(v, messages)
    requires Asked(v) || forall m :: m in messages ==> !LoginResult(m)
    ensures Clean(w, messages) && Alike(Drain(v, messages), Drain(w, messages))
    decreases messages
  {
    if messages != [] {
      assert messages[0] in messages;
      assert forall m :: m in messages[1..] ==> m in messages;
      AlikeStep(v, w, messages[0]);
      LoginKeepsDrain(Receive(v, messages[0]), Receive(w, messages[0]), messages[1..]);
    }
  }

  // ----- The inductive invariant -----

  // Records the host never treats as an application payload.
  predicate PreAuth(m: Message) {
    m.Login? || m.Auth2fa? || m.TestDelay? || m.Empty? || m.CloseReason?
  }

  ghost predicate Inv(c: A.Config, s: System) {
    InvLog(c, s) && InvDrain(s) && InvAsked(s) && Identity(s)
  }

  // The host is where its calls brought it; success and payloads follow its one authorization.
  ghost predicate InvLog(c: A.Config, s: System) {
    && A.Run(c, s.log) == s.h.auth
    && (s.v.state == S.Active || (exists m :: m in s.toV && m.LoginOk?) ==> A.Issued(c, s.log) == 1)
    && ((exists m :: m in s.toH && !PreAuth(m)) ==> A.Issued(c, s.log) == 1)
    && ((exists m :: m in s.toV && m.CloseReason?) ==> s.h.auth.state == A.Closed)
  }

  // What is in flight drains cleanly, and completes the grant of an authorized host.
  ghost predicate InvDrain(s: System) {
    var d := Drain(s.v, s.toV);
    && Clean(s.v, s.toV)
    && (s.h.auth.state == A.Authorized ==>
          && s.h.permissions == s.h.auth.grant
          && d.state in {S.Active, S.Closed}
          && (d.state == S.Active ==> d.permissions == s.h.permissions))
  }

  // Nothing happens to a login the viewer has not sent.
  ghost predicate InvAsked(s: System) {
    && (s.h.auth.request.Some? || (exists m :: m in s.toH && m.Login?) ==> Asked(s.v))
    && ((exists m :: m in s.toV && LoginResult(m)) ==> Asked(s.v))
  }

  // One controller id on both sides and in flight.
  ghost predicate Identity(s: System) {
    && (s.v.request.Some? ==> s.id == Some(s.v.request.value.myId))
    && (s.h.auth.request.Some? ==> s.id == Some(s.h.auth.request.value.myId))
    && (forall m :: m in s.toH && m.Login? ==> s.id == Some(m.req.myId))
    && (s.id.Some? ==> Asked(s.v))
  }

  lemma RunAppend(c: A.Config, log: seq<A.AuthEvent>, e: A.AuthEvent)
    ensures A.Run(c, log + [e]) == A.Step(c, A.Run(c, log), e).0
    ensures A.Issued(c, log + [e]) == A.Issued(c, log) + if A.Step(c, A.Run(c, log), e).1.Authorize? then 1 else 0
  {
    var all := log + [e];
    assert all[..|all| - 1] == log;
  }

  // Closing the host is one more call, and authorizes nothing.
  lemma LogClose(c: A.Config, log: seq<A.AuthEvent>, h: S.Host)
    requires h.auth == A.CLOSED || h.auth == A.Run(c, log)
    ensures A.Run(c, log + CloseOf(h)) == if h.auth.state == A.Closed then A.CLOSED else h.auth
    ensures A.Issued(c, log + CloseOf(h)) == A.Issued(c, log)
  {
    if h.auth.state == A.Closed {
      RunAppend(c, log, A.CloseEvent);
    } else {
      assert log + CloseOf(h) == log;
    }
  }

  // The viewer reads the whole announcement of a grant and ends with exactly that grant.
  lemma AuthorizeDrains(d: S.Viewer, info: string, p: A.Permissions)
    requires Asked(d) && d.state != S.Active
    ensures var out := [S.LoginOk(info)] + S.Announce(S.GrantReports(p));
      && Clean(d, out)
      && Drain(d, out).state in {S.Active, S.Closed}
      && (Drain(d, out).state == S.Active ==> Drain(d, out).permissions == p)
      && (d.state != S.Closed ==> Drain(d, out).state == S.Active)
  {
    var reports := S.Announce(S.GrantReports(p));
    var out := [S.LoginOk(info)] + reports;
    assert out[1..] == reports;
    if d.state == S.Closed {
      DrainFacts(d, out);
    } else {
      var d0 := Receive(d, out[0]);
      assert d0.state == S.Active;
      ReportsDrain(d0, p);
    }
  }

  lemma ReportsDrain(d: S.Viewer, p: A.Permissions)
    requires d.state == S.Active
    ensures var reports := S.Announce(S.GrantReports(p));
      Clean(d, reports) && Drain(d, reports).state == S.Active && Drain(d, reports).permissions == p
  {
    var reports := S.Announce(S.GrantReports(p));
    var a, b := reports[..2], reports[2..];
    assert reports == a + b;
    DrainAppend(d, a, b);
    ReportPair(d, a);
    ReportPair(Drain(d, a), b);
  }

  lemma ReportPair(d: S.Viewer, messages: seq<Message>)
    requires d.state == S.Active && |messages| == 2
    requires messages[0].PermissionInfo? && S.KnownPermission(messages[0].report.permission)
    requires messages[1].PermissionInfo? && S.KnownPermission(messages[1].report.permission)
    ensures Clean(d, messages) && Drain(d, messages).state == S.Active
    ensures Drain(d, messages).permissions == S.Apply(S.Apply(d.permissions, messages[0].report), messages[1].report)
  {
    var d1 := Receive(d, messages[0]);
    assert messages[1..][0] == messages[1] && messages[1..][1..] == [];
    assert Drain(d1, messages[1..]) == Receive(d1, messages[1]);
    assert Clean(d1, messages[1..]);
  }

  // One record of the host is drained by a viewer that has asked.
  lemma SingleDrains(d: S.Viewer, m: Message)
    requires m.LoginError? ==> Asked(d)
    requires m.LoginError? || m.CloseReason? || m.TestDelay? || m.Empty? || m.ChatMessage? || m.MessageBox?
             || (m.Application? && d.state in {S.Active, S.Closed})
    ensures Clean(d, [m]) && Drain(d, [m]) == Receive(d, m)
  {
    assert [m][1..] == [];
  }

  // What the host's writes for one authentication action do to a waiting viewer.
  lemma ReplyDrains(d: S.Viewer, a: A.Auth, action: A.AuthAction, budget: nat)
    requires action.Ignored? || Asked(d)
    requires action.Authorize? ==> d.state != S.Active
    ensures var out := S.ApplyAction(S.Host(a, A.DENY_ALL, false), action, budget).2;
      && Clean(d, out)
      && (budget >= |S.Reply(a, action)| && action.Authorize? ==>
            Drain(d, out).state in {S.Active, S.Closed} &&
            (Drain(d, out).state == S.Active ==> Drain(d, out).permissions == action.permissions))
  {
    var reply := S.Reply(a, action);
    if action.Authorize? {
      AuthorizeDrains(d, action.info, action.permissions);
      if budget < |reply| {
        CleanPrefix(d, reply, budget + 1);
      }
    } else if reply != [] {
      SingleDrains(d, reply[0]);
      assert reply == [reply[0]] && reply[..1] == reply;
    }
  }

  // An authentication call `e` followed by its writes keeps the invariant.
  ghost predicate Called(c: A.Config, s: System, e: A.AuthEvent, budget: nat, t: System) {
    && !e.CloseEvent? && (e.LoginEvent? ==> Asked(s.v) && s.id == Some(e.req.myId))
    && var (a, action) := A.Step(c, s.h.auth, e);
    var (h, _, out) := S.ApplyAction(s.h.(auth := a), action, budget);
    t == s.(h := h, toV := s.toV + out, log := s.log + [e] + CloseOf(h))
  }

  lemma CallKeepsInv(c: A.Config, s: System, e: A.AuthEvent, budget: nat, t: System)
    requires Inv(c, s) && Called(c, s, e, budget, t)
    ensures Inv(c, t)
  {
    hide *;
    CallKeepsLog(c, s, e, budget, t);
    CallKeepsDrain(c, s, e, budget, t);
    CallKeepsAsked(c, s, e, budget, t);
    InvParts(c, t);
  }

  lemma InvParts(c: A.Config, s: System)
    ensures Inv(c, s) <==> InvLog(c, s) && InvDrain(s) && InvAsked(s) && Identity(s)
  {
  }

  lemma CallKeepsLog(c: A.Config, s: System, e: A.AuthEvent, budget: nat, t: System)
    requires Inv(c, s) && Called(c, s, e, budget, t)
    ensures InvLog(c, t)
  {
    hide InvDrain, InvAsked, Identity;
    var (a, action) := A.Step(c, s.h.auth, e);
    var (h, _, out) := S.ApplyAction(s.h.(auth := a), action, budget);
    RunAppend(c, s.log, e);
    A.AuthorizedOnce(c, s.log);
    A.AuthorizedOnce(c, t.log);
    if s.h.auth.state in {A.Authorized, A.Closed} {
      FinalActions(c, s.h.auth, e);
    }
    assert A.Latched(a);
    hide A.Step, A.Run, A.Issued;
    CallOutput(s.h.(auth := a), action, budget);
    LogClose(c, s.log + [e], h);
    assert forall m :: m in t.toV ==> m in s.toV || m in out;
  }

  // A host that is authorized or closed ignores every call.
  lemma FinalActions(c: A.Config, a: A.Auth, e: A.AuthEvent)
    requires !e.CloseEvent? && a.state in {A.Authorized, A.Closed}
    ensures A.Step(c, a, e) == (a, A.Ignored)
  {
  }

  lemma CallKeepsDrain(c: A.Config, s: System, e: A.AuthEvent, budget: nat, t: System)
    requires Inv(c, s) && Called(c, s, e, budget, t)
    ensures InvDrain(t)
  {
    var (a, action) := A.Step(c, s.h.auth, e);
    var (h, _, out) := S.ApplyAction(s.h.(auth := a), action, budget);
    var d := Drain(s.v, s.toV);
    DrainFacts(s.v, s.toV);
    A.AuthorizedOnce(c, s.log);
    CallKeepsId(c, s, e);
    assert !action.Ignored? ==> Asked(s.v);
    hide A.Step, A.Run;
    ReplyDrains(d, a, action, budget);
    DrainAppend(s.v, s.toV, out);
    assert action.Ignored? ==> out == [];
  }

  lemma CallKeepsAsked(c: A.Config, s: System, e: A.AuthEvent, budget: nat, t: System)
    requires Inv(c, s) && Called(c, s, e, budget, t)
    ensures InvAsked(t) && Identity(t)
  {
    var (a, action) := A.Step(c, s.h.auth, e);
    var (h, _, out) := S.ApplyAction(s.h.(auth := a), action, budget);
    CallKeepsId(c, s, e);
    assert !action.Ignored? ==> Asked(s.v);
    hide A.Step, InvLog, InvDrain;
    CallOutput(s.h.(auth := a), action, budget);
    assert forall m :: m in t.toV ==> m in s.toV || m in out;
  }

  lemma CallOutput(h: S.Host, action: A.AuthAction, budget: nat)
    ensures var out := S.ApplyAction(h, action, budget).2;
      forall m :: m in out ==> (m.LoginOk? ==> action.Authorize?) && (LoginResult(m) ==> !action.Ignored?) && !m.CloseReason?
    ensures A.Latched(h.auth) ==> S.ApplyAction(h, action, budget).0.auth in {h.auth, A.CLOSED}
  {
  }

  lemma CallKeepsId(c: A.Config, s: System, e: A.AuthEvent)
    requires Inv(c, s) && !e.CloseEvent?
    requires e.LoginEvent? ==> s.id == Some(e.req.myId)
    ensures var a := A.Step(c, s.h.auth, e).0; a.request.Some? ==> s.id == Some(a.request.value.myId)
    ensures var a := A.Step(c, s.h.auth, e).0; a.request.Some? ==> s.h.auth.request.Some? || e.LoginEvent?
    ensures var (a, action) := A.Step(c, s.h.auth, e); action.Authorize? ==> a.state == A.Authorized && a.grant == action.permissions
    ensures var (a, action) := A.Step(c, s.h.auth, e); a.state == A.Authorized ==> action.Authorize? || a == s.h.auth
  {
  }

  lemma InitialInv(c: A.Config, s: System)
    requires Initial(c, s)
    ensures Inv(c, s)
  {
    var salt :| s.toV == [S.Hash(salt, c.challenge)] || (s.v.plain && s.toV == [S.SignedId, S.Hash(salt, c.challenge)]);
    var hash := S.Hash(salt, c.challenge);
    assert [hash][1..] == [];
    if s.toV != [hash] {
      assert s.toV[1..] == [hash];
    }
  }

  lemma ViewerLoginInv(c: A.Config, s: System, step: Step)
    requires Inv(c, s) && step.ViewerLogin?
    ensures Inv(c, Next(c, s, step))
  {
    hide Inv, InvLog, InvDrain, InvAsked, Identity, Next;
    ViewerLoginLog(c, s, step);
    ViewerLoginDrain(c, s, step);
    InvParts(c, Next(c, s, step));
  }

  lemma ViewerLoginLog(c: A.Config, s: System, step: Step)
    requires Inv(c, s) && step.ViewerLogin?
    ensures var t := Next(c, s, step); InvLog(c, t) && InvAsked(t) && Identity(t)
  {
    hide InvDrain, A.Run, A.Issued, S.Credential;
    var t := Next(c, s, step);
    assert forall m :: m in t.toH ==> m in s.toH || m == t.toH[|s.toH|];
  }

  lemma ViewerLoginDrain(c: A.Config, s: System, step: Step)
    requires Inv(c, s) && step.ViewerLogin?
    ensures InvDrain(Next(c, s, step))
  {
    hide InvLog, Identity, S.Credential;
    var t := Next(c, s, step);
    if t.v.state == S.Closed {
      DrainFacts(t.v, t.toV);
    } else if t.v != s.v || t.toH != s.toH {
      LoginKeepsDrain(s.v, t.v, s.toV);
    }
  }

  // A viewer step that ends closed. What is still unread no longer matters.
  lemma ViewerClosesInv(c: A.Config, s: System, v: S.Viewer, unread: seq<Message>, out: seq<Message>)
    requires Inv(c, s) && v.state == S.Closed && v.request.None?
    requires forall m :: m in unread ==> m in s.toV
    requires forall m :: m in out ==> PreAuth(m) && !m.Login?
    ensures Inv(c, s.(v := v, toV := unread, toH := s.toH + out))
  {
    DrainFacts(v, unread);
    assert forall m :: m in s.toH + out ==> m in s.toH || m in out;
  }

  // What a record read may do to the viewer that stays open.
  lemma ReadFacts(v: S.Viewer, m: Message, ok: bool)
    requires S.ViewerReceive(v, S.Record(m), ok).0.state != S.Closed
    ensures var (w, _, out) := S.ViewerReceive(v, S.Record(m), ok);
      && w == Receive(v, m)
      && (Asked(v) ==> Asked(w))
      && (out == [] || (out == [m] && !m.Login? && (PreAuth(m) || w.state == S.Active)))
  {
  }

  lemma ReadKeepsId(v: S.Viewer, m: Message)
    ensures Receive(v, m).request.Some? ==> v.request.Some? && Receive(v, m).request.value.myId == v.request.value.myId
  {
  }

  lemma ViewerReadInv(c: A.Config, s: System)
    requires Inv(c, s) && s.toV != []
    requires Asked(s.v) ==> Asked(Receive(s.v, s.toV[0]))
    ensures Inv(c, s.(v := Receive(s.v, s.toV[0]), toV := s.toV[1..]))
  {
    ReadKeepsId(s.v, s.toV[0]);
    assert s.toV[0] in s.toV;
    assert forall k :: k in s.toV[1..] ==> k in s.toV;
    hide S.ViewerReceive;
  }

  lemma ViewerRecordInv(c: A.Config, s: System, ok: bool)
    requires Inv(c, s) && s.toV != []
    ensures Inv(c, Next(c, s, ViewerRecord(ok)))
  {
    var m := s.toV[0];
    var (v, _, out) := S.ViewerReceive(s.v, S.Record(m), ok);
    assert forall k :: k in s.toV[1..] ==> k in s.toV;
    if v.state == S.Closed {
      ClosedOut(s.v, m, ok);
      hide Inv, S.ViewerReceive;
      ViewerClosesInv(c, s, v, s.toV[1..], out);
    } else {
      ReadFacts(s.v, m, ok);
      hide Inv, S.ViewerReceive;
      ViewerReadInv(c, s);
      var t := s.(v := v, toV := s.toV[1..]);
      if out == [] {
        assert t.toH + out == t.toH;
      } else {
        ViewerWriteInv(c, t, m);
      }
    }
  }

  lemma ClosedOut(v: S.Viewer, m: Message, ok: bool)
    requires S.ViewerReceive(v, S.Record(m), ok).0.state == S.Closed
    ensures var (w, _, out) := S.ViewerReceive(v, S.Record(m), ok);
      && (w.request.None? || v.state == S.Closed)
      && forall k :: k in out ==> PreAuth(k) && !k.Login?
  {
  }

  lemma ViewerWriteInv(c: A.Config, s: System, m: Message)
    requires Inv(c, s) && !m.Login?
    requires PreAuth(m) || s.v.state == S.Active
    ensures Inv(c, s.(toH := s.toH + [m]))
  {
    assert forall k :: k in s.toH + [m] ==> k in s.toH || k == m;
  }

  lemma LoseInv(c: A.Config, s: System, step: Step)
    requires Inv(c, s) && Enabled(s, step) && (step.LoseToHost? || step.LoseToViewer?)
    ensures Inv(c, Next(c, s, step))
  {
    var t := Next(c, s, step);
    if step.LoseToViewer? {
      CleanPrefix(s.v, s.toV, step.n);
    }
    assert forall m :: m in t.toV ==> m in s.toV;
    assert forall m :: m in t.toH ==> m in s.toH;
  }

  lemma ViewerStepInv(c: A.Config, s: System, step: Step)
    requires Inv(c, s) && Enabled(s, step)
    requires step.ViewerFactor? || step.ViewerInterrupt? || step.ViewerClose? || step.ViewerWrite?
    ensures Inv(c, Next(c, s, step))
  {
    var t := Next(c, s, step);
    assert s.toH + [] == s.toH;
    match step
    case ViewerFactor(code, expired, ok) =>
      var (v, _, out) := S.ViewerFactor(s.v, code, expired, ok);
      if v.state == S.Closed {
        ViewerClosesInv(c, s, S.Terminate(s.v), s.toV, out);
      } else if out != [] {
        ViewerWriteInv(c, s, S.Auth2fa(code));
      }
    case ViewerInterrupt(incoming) =>
      ViewerClosesInv(c, s, t.v, s.toV, []);
    case ViewerClose =>
      var (v, out) := S.ViewerClose(s.v);
      if s.v.state != S.Closed {
        ViewerClosesInv(c, s, v, s.toV, out);
      }
    case ViewerWrite(m) =>
      ViewerWriteInv(c, s, m);
  }

  lemma PopInv(c: A.Config, s: System)
    requires Inv(c, s) && s.toH != []
    ensures Inv(c, s.(toH := s.toH[1..]))
    ensures s.toH[0].Login? ==> Asked(s.v) && s.id == Some(s.toH[0].req.myId)
    ensures !PreAuth(s.toH[0]) ==> s.h.auth.state in {A.Authorized, A.Closed}
  {
    assert s.toH[0] in s.toH;
    assert forall k :: k in s.toH[1..] ==> k in s.toH;
    A.AuthorizedOnce(c, s.log);
  }

  // A record that reaches a closed host is dropped.
  lemma ClosedHostInv(c: A.Config, s: System, m: Message, env: A.Answers)
    requires Inv(c, s) && s.h.auth.state == A.Closed
    ensures Inv(c, s.(h := S.Shut(s.h), log := s.log + CallOf(m, env) + CloseOf(S.Shut(s.h))))
  {
    var h := S.Shut(s.h);
    var call := CallOf(m, env);
    if call == [] {
      assert s.log + call == s.log;
    } else {
      assert call == [call[0]];
      RunAppend(c, s.log, call[0]);
    }
    A.AuthorizedOnce(c, s.log);
    LogClose(c, s.log + call, h);
  }

  lemma HostRecordInv(c: A.Config, s: System, step: Step)
    requires Inv(c, s) && Enabled(s, step) && step.HostRecord?
    ensures Inv(c, Next(c, s, step))
  {
    hide InvLog, InvDrain, InvAsked, Identity, A.Login, A.SecondFactor, S.ApplyAction;
    var t := Next(c, s, step);
    var m := s.toH[0];
    assert m in s.toH;
    var s0 := s.(toH := s.toH[1..]);
    PopInv(c, s);
    if s.h.auth.state == A.Closed {
      ClosedHostInv(c, s0, m, step.env);
      assert s.toV + [] == s.toV;
    } else if m.Login? || m.Auth2fa? {
      CallKeepsInv(c, s0, CallOf(m, step.env)[0], step.budget, t);
    } else {
      assert s.log + [] == s.log;
      QuietHostInv(c, s0, t.h, S.HostReceive(c, s.h, S.Record(m), step.env, step.budget).2);
    }
  }

  lemma HostShutsInv(c: A.Config, s: System, h: S.Host)
    requires Inv(c, s) && h.auth == A.CLOSED
    ensures Inv(c, s.(h := h, log := s.log + CloseOf(h)))
  {
    LogClose(c, s.log, h);
  }

  lemma HostSendsInv(c: A.Config, s: System, m: Message)
    requires Inv(c, s)
    requires m.TestDelay? || m.CloseReason?
             || (s.h.auth.state == A.Authorized && (m.Application? || m.ChatMessage? || m.MessageBox? || m.Empty?))
    requires m.CloseReason? ==> s.h.auth.state == A.Closed
    ensures Inv(c, s.(toV := s.toV + [m]))
  {
    var d := Drain(s.v, s.toV);
    SingleDrains(d, m);
    DrainAppend(s.v, s.toV, [m]);
    assert forall k :: k in s.toV + [m] ==> k in s.toV || k == m;
  }

  // A host step without an authentication call: at most one record out, and the
  // authentication state is kept or closed.
  lemma QuietHostInv(c: A.Config, s: System, h: S.Host, out: seq<Message>)
    requires Inv(c, s)
    requires (h == s.h && h.auth.state != A.Closed) || h.auth == A.CLOSED
    requires |out| <= 1
    requires out != [] ==> out[0].TestDelay? || (out[0].CloseReason? && h.auth == A.CLOSED)
    ensures Inv(c, s.(h := h, toV := s.toV + out, log := s.log + CloseOf(h)))
  {
    var t := s;
    if h.auth == A.CLOSED {
      HostShutsInv(c, s, h);
      t := s.(h := h, log := s.log + CloseOf(h));
    } else {
      assert s.log + CloseOf(h) == s.log;
    }
    if out == [] {
      assert s.toV + out == s.toV;
    } else {
      assert out == [out[0]];
      HostSendsInv(c, t, out[0]);
    }
  }

  lemma HostStepInv(c: A.Config, s: System, step: Step)
    requires Inv(c, s) && Enabled(s, step)
    requires step.HostInterrupt? || step.HostPoll? || step.HostClose? || step.HostWrite?
    ensures Inv(c, Next(c, s, step))
  {
    var t := Next(c, s, step);
    match step
    case HostInterrupt(_) =>
      assert s.toV + [] == s.toV;
      QuietHostInv(c, s, t.h, []);
    case HostPoll(expired, env, budget) =>
      if expired && s.h.auth.state != A.Authorized {
        assert s.toV + [] == s.toV && s.log + [] == s.log;
        QuietHostInv(c, s, t.h, []);
      } else {
        CallKeepsInv(c, s, A.PollEvent(env), budget, t);
      }
    case HostClose =>
      QuietHostInv(c, s, t.h, S.HostClose(s.h).1);
    case HostWrite(m) =>
      HostSendsInv(c, s, m);
  }

  lemma StepInv(c: A.Config, s: System, step: Step)
    requires Inv(c, s) && Enabled(s, step)
    ensures Inv(c, Next(c, s, step))
  {
    match step
    case ViewerLogin(_, _, _, _) => ViewerLoginInv(c, s, step);
    case HostRecord(_, _) => HostRecordInv(c, s, step);
    case HostInterrupt(_) => HostStepInv(c, s, step);
    case HostPoll(_, _, _) => HostStepInv(c, s, step);
    case HostClose => HostStepInv(c, s, step);
    case HostWrite(_) => HostStepInv(c, s, step);
    case ViewerRecord(ok) => ViewerRecordInv(c, s, ok);
    case LoseToViewer(_) => LoseInv(c, s, step);
    case LoseToHost(_) => LoseInv(c, s, step);
    case _ => ViewerStepInv(c, s, step);
  }

  // ----- Executions -----

  ghost predicate Execution(c: A.Config, states: seq<System>, steps: seq<Step>) {
    && |states| == |steps| + 1 && Initial(c, states[0])
    && forall k :: 0 <= k < |steps| ==> Enabled(states[k], steps[k]) && states[k + 1] == Next(c, states[k], steps[k])
  }

  lemma {:induction false} ReachableInv(c: A.Config, states: seq<System>, steps: seq<Step>, k: nat)
    requires Execution(c, states, steps) && k < |states|
    ensures Inv(c, states[k])
  {
    if k == 0 {
      InitialInv(c, states[0]);
    } else {
      ReachableInv(c, states, steps, k - 1);
      StepInv(c, states[k - 1], steps[k - 1]);
    }
  }

  /**
   Safety of the pair. At every point of every execution the viewer is Active only
   after the host's one Authorized action, and whatever record is read next, the
   viewer never meets an unsolicited success or a premature payload and the host
   never meets a payload before it authorized the session.
   */
  lemma PairSafety(c: A.Config, states: seq<System>, steps: seq<Step>, k: nat)
    requires Execution(c, states, steps) && k < |states|
    ensures A.Run(c, states[k].log) == states[k].h.auth
    ensures A.Issued(c, states[k].log) <= 1
    ensures states[k].v.state == S.Active ==> A.Issued(c, states[k].log) == 1 && states[k].h.auth.state in {A.Authorized, A.Closed}
    ensures forall ok :: states[k].toV != [] ==>
      S.ViewerReceive(states[k].v, S.Record(states[k].toV[0]), ok).1 !in {S.Fault(S.UnsolicitedSuccess), S.Fault(S.Unauthenticated)}
    ensures forall env, budget :: states[k].toH != [] ==>
      S.HostReceive(c, states[k].h, S.Record(states[k].toH[0]), env, budget).1 != S.Fault(S.Unauthenticated)
  {
    var s := states[k];
    ReachableInv(c, states, steps, k);
    A.AuthorizedOnce(c, s.log);
    if s.toH != [] {
      PopInv(c, s);
    }
    if s.toV != [] {
      assert Accepts(s.v, s.toV[0]);
    }
  }

  /**
   An Active viewer was let in by an accepted password or a local approval of its
   last login, and by a verified code whenever the second factor was required.
   */
  lemma ActiveProvenance(c: A.Config, states: seq<System>, steps: seq<Step>, k: nat)
    returns (i: nat, l: nat, j: nat, g: A.Permissions)
    requires Execution(c, states, steps) && k < |states| && states[k].v.state == S.Active
    ensures l <= j <= i < |states[k].log|
    ensures A.LastLogin(states[k].log[..i + 1], l) && A.DesktopRequest(c, states[k].log[l].req)
    ensures A.Primary(c, states[k].log[j], g)
    ensures states[k].log[j].env.factorRequired ==>
      j < i && states[k].log[i].FactorEvent? && states[k].log[i].env.factor == A.Verified
    ensures states[k].h.auth.state == A.Authorized ==>
      states[k].h.permissions == A.Disable(g.Intersect(c.ceiling), states[k].log[l].req.options)
  {
    var s := states[k];
    PairSafety(c, states, steps, k);
    ReachableInv(c, states, steps, k);
    i := A.IssuedPositive(c, s.log);
    l, j, g := A.AuthorizationProvenance(c, s.log, i);
    if s.h.auth.state == A.Authorized {
      AuthorizedGrantStays(c, s.log, i);
    }
  }

  // While the session stays authorized its grant is the one that was announced.
  lemma {:induction false} AuthorizedGrantStays(c: A.Config, log: seq<A.AuthEvent>, i: nat)
    requires i < |log| && A.ActionAt(c, log, i).Authorize? && A.Run(c, log).state == A.Authorized
    ensures A.Run(c, log).grant == A.ActionAt(c, log, i).permissions
  {
    var n := |log| - 1;
    var before := log[..n];
    if i < n {
      assert before[..i] == log[..i];
      if A.Run(c, before).state == A.Authorized {
        AuthorizedGrantStays(c, before, i);
      } else {
        A.AuthorizedOnce(c, before);
        A.AuthorizedOnce(c, log);
        IssuedAt(c, before, i);
      }
    }
  }

  lemma {:induction false} IssuedAt(c: A.Config, log: seq<A.AuthEvent>, i: nat)
    requires i < |log| && A.ActionAt(c, log, i).Authorize?
    ensures A.Issued(c, log) >= 1
  {
    hide A.Step, A.Run;
    var n := |log| - 1;
    if i < n {
      assert log[..n][..i] == log[..i];
      IssuedAt(c, log[..n], i);
    }
  }

  // ----- Permissions -----

  // The cached permissions after the permission records still in flight.
  function InFlight(p: A.Permissions, messages: seq<Message>): A.Permissions
    decreases messages
  {
    if messages == [] then p
    else InFlight(if messages[0].PermissionInfo? then S.Apply(p, messages[0].report) else p, messages[1..])
  }

  lemma {:induction false} ActiveDrain(v: S.Viewer, messages: seq<Message>)
    requires v.state == S.Active && forall m :: m in messages ==> !m.CloseReason?
    ensures Drain(v, messages).state == S.Active
    ensures Drain(v, messages).permissions == InFlight(v.permissions, messages)
    decreases messages
  {
    if messages != [] {
      assert messages[0] in messages;
      assert forall m :: m in messages[1..] ==> m in messages;
      ActiveDrain(Receive(v, messages[0]), messages[1..]);
    }
  }

  /** While the viewer is Active on a live host, the reports in flight complete its view of the grant. */
  lemma PermissionConvergence(c: A.Config, states: seq<System>, steps: seq<Step>, k: nat)
    requires Execution(c, states, steps) && k < |states|
    requires states[k].v.state == S.Active && states[k].h.auth.state == A.Authorized
    ensures InFlight(states[k].v.permissions, states[k].toV) == states[k].h.permissions == states[k].h.auth.grant
  {
    ReachableInv(c, states, steps, k);
    ActiveDrain(states[k].v, states[k].toV);
  }

  /** The reports a viewer caches have unique keys, and its permissions are the defaults they overlay. */
  lemma {:induction false} ReportsStayConsistent(c: A.Config, states: seq<System>, steps: seq<Step>, k: nat)
    requires Execution(c, states, steps) && k < |states|
    ensures S.ReportsConsistent(states[k].v)
  {
    if k > 0 {
      ReportsStayConsistent(c, states, steps, k - 1);
      var s, step := states[k - 1], steps[k - 1];
      if step.ViewerRecord? {
        S.ReceiveConsistent(s.v, S.Record(s.toV[0]), step.ok);
      }
    }
  }

  // ----- Second factor -----

  // The attempt policy does not answer with one of the texts the protocol reserves.
  predicate Polite(env: A.Answers) {
    env.attempt.Some? ==> S.AfterError(env.attempt.value) != S.Await2Fa
  }

  predicate PoliteStep(step: Step) {
    (step.HostRecord? || step.HostPoll?) ==> Polite(step.env)
  }

  predicate PoliteRun(steps: seq<Step>) {
    forall i :: 0 <= i < |steps| ==> PoliteStep(steps[i])
  }

  // No viewer logs in with an older version.
  predicate Recent(steps: seq<Step>, version: int) {
    forall i :: 0 <= i < |steps| && steps[i].ViewerLogin? ==> steps[i].req.version >= version
  }

  predicate AwaitsOldApproval(h: S.Host) {
    h.auth.state == A.AwaitApproval && h.auth.request.Some? && h.auth.request.value.version < S.VERSION_1_2_0
  }

  ghost predicate Synchronised(s: System) {
    Drain(s.v, s.toV).state == S.Await2Fa && (forall m :: m in s.toH ==> !m.Login?) ==>
      s.h.auth.state in {A.Await2Fa, A.Closed} || AwaitsOldApproval(s.h)
  }

  lemma ErrorTexts()
    ensures S.AfterError(A.WRONG_PASSWORD) != S.Await2Fa && S.AfterError("Empty Password") != S.Await2Fa
    ensures S.AfterError(S.NO_PASSWORD_ACCESS) != S.Await2Fa
  {
    assert |A.TWO_FACTOR_REQUIRED| == 12 && |A.WRONG_TWO_FACTOR| == 14 && |A.TWO_FACTOR_UNSUPPORTED| == 28;
    assert |A.WRONG_PASSWORD| == 14 && A.WRONG_PASSWORD[6] == 'P' && A.WRONG_TWO_FACTOR[6] == '2';
    assert |"Empty Password"| == 14 && "Empty Password"[0] == 'E' && A.WRONG_TWO_FACTOR[0] == 'W';
    assert |S.NO_PASSWORD_ACCESS| == 18;
  }

  // The error a host answers with tells the viewer whether it waits for a code.
  lemma ActionText(c: A.Config, a: A.Auth, e: A.AuthEvent)
    requires !e.CloseEvent? && Polite(e.env) && A.Latched(a)
    ensures var (b, action) := A.Step(c, a, e);
      && (action.Error? && S.AfterError(action.message) == S.Await2Fa ==> b.state in {A.Await2Fa, A.Closed})
      && (action.PendingApproval? ==> b.state == A.AwaitApproval && b.request.Some?)
      && (action.Ignored? ==> b == a)
      && (e.LoginEvent? && action.Ignored? ==> a.state in {A.Authorized, A.Closed})
  {
    ErrorTexts();
  }

  lemma CallSync(c: A.Config, s: System, e: A.AuthEvent, budget: nat, t: System)
    requires Inv(c, s) && !e.CloseEvent? && Polite(e.env)
    requires e.LoginEvent? ==> Asked(s.v)
    requires !e.LoginEvent? ==> Synchronised(s)
    requires var (a, action) := A.Step(c, s.h.auth, e);
      var (h, _, out) := S.ApplyAction(s.h.(auth := a), action, budget);
      t == s.(h := h, toV := s.toV + out, log := s.log + [e] + CloseOf(h))
    ensures Synchronised(t)
  {
    var (a, action) := A.Step(c, s.h.auth, e);
    var out := S.ApplyAction(s.h.(auth := a), action, budget).2;
    var d := Drain(s.v, s.toV);
    DrainAppend(s.v, s.toV, out);
    DrainFacts(s.v, s.toV);
    ActionText(c, s.h.auth, e);
    A.AuthorizedOnce(c, s.log);
    if s.h.auth.state in {A.Authorized, A.Closed} {
      FinalActions(c, s.h.auth, e);
    }
    hide A.Step, A.Run, A.Issued, Polite, Identity;
    if t.h.auth.state != A.Closed && Drain(t.v, t.toV).state == S.Await2Fa {
      if action.Authorize? {
        assert d.state != S.Active;
        AuthorizeDrains(d, action.info, action.permissions);
      } else if out != [] {
        assert out == [out[0]];
        SingleDrains(d, out[0]);
        ErrorTexts();
      }
    }
  }

  lemma StepSync(c: A.Config, s: System, step: Step)
    requires Inv(c, s) && Synchronised(s) && Enabled(s, step) && PoliteStep(step)
    ensures Synchronised(Next(c, s, step))
  {
    hide InvLog, InvDrain, InvAsked, Identity, A.Login, A.Poll, A.SecondFactor, Polite;
    var t := Next(c, s, step);
    match step
    case HostRecord(env, budget) =>
      PopInv(c, s);
      var m := s.toH[0];
      var s0 := s.(toH := s.toH[1..]);
      if s.h.auth.state != A.Closed {
        if m.Login? || m.Auth2fa? {
          assert m.Auth2fa? && (forall k :: k in s0.toH ==> !k.Login?) ==> forall k :: k in s.toH ==> !k.Login?;
          CallSync(c, s0, CallOf(m, env)[0], budget, t);
        } else {
          QuietSync(s, t, S.HostReceive(c, s.h, S.Record(m), env, budget).2);
        }
      }
    case HostPoll(expired, env, budget) =>
      if !(expired && s.h.auth.state != A.Authorized) {
        CallSync(c, s, A.PollEvent(env), budget, t);
      }
    case HostWrite(m) =>
      QuietSync(s, t, [m]);
    case _ => ViewerSync(c, s, step);
  }

  lemma QuietSync(s: System, t: System, out: seq<Message>)
    requires Synchronised(s)
    requires t.v == s.v && t.toV == s.toV + out && |out| <= 1
    requires t.h.auth.state == A.Closed || t.h == s.h
    requires forall m :: m in s.toH && m.Login? ==> m in t.toH
    requires out != [] ==>
      (out[0].TestDelay? || out[0].Application? || out[0].ChatMessage? || out[0].MessageBox? || out[0].Empty?
       || t.h.auth.state == A.Closed)
    ensures Synchronised(t)
  {
    DrainAppend(s.v, s.toV, out);
    if out != [] {
      assert out == [out[0]] && out[1..] == [];
    } else {
      assert t.toV == s.toV;
    }
  }

  lemma ViewerSync(c: A.Config, s: System, step: Step)
    requires Synchronised(s) && Enabled(s, step) && !step.HostRecord? && !step.HostPoll? && !step.HostWrite?
    ensures Synchronised(Next(c, s, step))
  {
    var t := Next(c, s, step);
    if t.v.state == S.Closed {
      DrainFacts(t.v, t.toV);
    } else if step.ViewerLogin? && t.toH != s.toH {
      assert t.toH[|s.toH|].Login?;
      assert t.toH[|s.toH|] in t.toH;
    } else {
      assert forall m :: m in s.toH ==> m in t.toH;
    }
  }

  /**
   Second factor: with every record read and no login in flight, a viewer that
   waits for a code faces a host that waits for one (or has closed), except a host
   that silently waits for a local approval because the viewer is older than 1.2.0.
   */
  lemma {:induction false} SecondFactorSync(c: A.Config, states: seq<System>, steps: seq<Step>, k: nat)
    requires Execution(c, states, steps) && k < |states|
    requires PoliteRun(steps)
    ensures Synchronised(states[k])
    ensures states[k].toV == [] && states[k].v.state == S.Await2Fa && (forall m :: m in states[k].toH ==> !m.Login?) ==>
      states[k].h.auth.state in {A.Await2Fa, A.Closed} || AwaitsOldApproval(states[k].h)
  {
    if k > 0 {
      SecondFactorSync(c, states, steps, k - 1);
      ReachableInv(c, states, steps, k - 1);
      StepSync(c, states[k - 1], steps[k - 1]);
    } else {
      InitialDrain(c, states[0]);
    }
  }

  lemma InitialDrain(c: A.Config, s: System)
    requires Initial(c, s)
    ensures Drain(s.v, s.toV).state == S.AwaitLogin
  {
    var salt :| s.toV == [S.Hash(salt, c.challenge)] || (s.v.plain && s.toV == [S.SignedId, S.Hash(salt, c.challenge)]);
    var hash := S.Hash(salt, c.challenge);
    assert Drain(s.v, [hash]) == Receive(s.v, hash) by {
      assert [hash][1..] == [];
    }
    if s.toV != [hash] {
      assert s.toV == [S.SignedId] + [hash] && [S.SignedId][1..] == [];
      DrainAppend(s.v, [S.SignedId], [hash]);
      assert Drain(s.v, [S.SignedId]) == s.v;
    }
  }

  function OldRequest(target: string, version: int): A.LoginRequest {
    A.LoginRequest(target, "controller", 1, version, None, "", "", [], None)
  }

  const CLICKED := A.Answers(None, A.Approved(A.DENY_ALL), true, A.Wrong)
  const NOT_CLICKED := A.Answers(None, A.Pending, true, A.Wrong)

  // A state that some execution ends in whose attempt policy is polite and whose viewers
  // log in with at least this version.
  ghost predicate Reachable(c: A.Config, version: int, s: System) {
    exists states, steps ::
      Execution(c, states, steps) && PoliteRun(steps) && Recent(steps, version) && states[|steps|] == s
  }

  lemma ReachNext(c: A.Config, version: int, s: System, step: Step)
    requires Reachable(c, version, s) && Enabled(s, step) && PoliteStep(step)
    requires step.ViewerLogin? ==> step.req.version >= version
    ensures Reachable(c, version, Next(c, s, step))
  {
    hide Next, Enabled, Initial, PoliteStep;
    var states, steps :|
      Execution(c, states, steps) && PoliteRun(steps) && Recent(steps, version) && states[|steps|] == s;
    ExecutionAppend(c, states, steps, step);
  }

  lemma ExecutionAppend(c: A.Config, states: seq<System>, steps: seq<Step>, step: Step)
    requires Execution(c, states, steps) && Enabled(states[|steps|], step)
    ensures Execution(c, states + [Next(c, states[|steps|], step)], steps + [step])
  {
    hide Next, Enabled, Initial;
  }

  lemma OldLogin(c: A.Config, s: System, target: string, version: int) returns (t: System)
    requires Reachable(c, version, s)
    requires target != "" && Waiting(s.v) && s.v.hash.Some?
    requires s.v.request in {None, Some(OldRequest(target, version))}
    ensures Reachable(c, version, t)
    ensures t.v == s.v.(request := Some(OldRequest(target, version)), state := S.AwaitLogin)
    ensures t.h == s.h && t.toV == s.toV && t.toH == s.toH + [S.Login(OldRequest(target, version))]
  {
    t := Next(c, s, ViewerLogin(OldRequest(target, version), None, false, true));
    ReachNext(c, version, s, ViewerLogin(OldRequest(target, version), None, false, true));
  }

  lemma ClickReply(c: A.Config, h: S.Host, target: string, version: int, env: A.Answers)
    requires c.policy != A.PasswordOnly && version < S.VERSION_1_2_0 && target in c.acceptedTargets
    requires h.auth.state in {A.AwaitLogin, A.Await2Fa} && h.auth.request in {None, Some(OldRequest(target, version))}
    requires env in {CLICKED, NOT_CLICKED}
    ensures var (h', _, out) := S.HostReceive(c, h, S.Record(S.Login(OldRequest(target, version))), env, 1);
      && h'.auth.request == Some(OldRequest(target, version))
      && h'.auth.state == (if env == CLICKED then A.Await2Fa else A.AwaitApproval)
      && out == if env == CLICKED then [S.LoginError(A.TWO_FACTOR_REQUIRED)] else []
  {
    var req := OldRequest(target, version);
    assert A.Refusal(c, h.auth, req).None?;
    assert !A.PasswordTried(c, req) && A.Scrub(req) == req;
  }

  lemma OldClick(c: A.Config, s: System, target: string, version: int, env: A.Answers) returns (t: System)
    requires Reachable(c, version, s)
    requires c.policy != A.PasswordOnly && version < S.VERSION_1_2_0 && target in c.acceptedTargets && s.toH == [S.Login(OldRequest(target, version))]
    requires s.h.auth.state in {A.AwaitLogin, A.Await2Fa} && s.h.auth.request in {None, Some(OldRequest(target, version))}
    requires env in {CLICKED, NOT_CLICKED}
    ensures Reachable(c, version, t)
    ensures t.v == s.v && t.toH == [] && t.h.auth.request == Some(OldRequest(target, version))
    ensures t.h.auth.state == (if env == CLICKED then A.Await2Fa else A.AwaitApproval)
    ensures t.toV == s.toV + if env == CLICKED then [S.LoginError(A.TWO_FACTOR_REQUIRED)] else []
  {
    hide Reachable, S.HostReceive;
    ClickReply(c, s.h, target, version, env);
    t := Next(c, s, HostRecord(env, 1));
    ReachNext(c, version, s, HostRecord(env, 1));
  }

  lemma OldRead(c: A.Config, version: int, s: System) returns (t: System)
    requires Reachable(c, version, s) && |s.toV| == 1
    requires (s.toV[0] == S.LoginError(A.TWO_FACTOR_REQUIRED) && s.v.state == S.AwaitLogin && s.v.request.Some?)
          || (s.toV[0] == S.Hash([], c.challenge) && s.v.state == S.AwaitHash && c.challenge != [])
    ensures Reachable(c, version, t)
    ensures t.h == s.h && t.toH == s.toH && t.toV == [] && t.v.request == s.v.request
    ensures t.v.state == (if s.toV[0].Hash? then S.AwaitLogin else S.Await2Fa)
    ensures s.toV[0].Hash? ==> t.v.hash.Some?
  {
    t := Next(c, s, ViewerRecord(true));
    ReachNext(c, version, s, ViewerRecord(true));
  }

  /**
   The exception is real under every policy that allows a click: an old viewer that retries its login while the request
   for a code is in flight waits for a code from a host that waits for a click.
   */
  lemma OldViewerDesynchronised(c: A.Config, target: string, version: int) returns (s: System)
    requires c.policy != A.PasswordOnly && version < S.VERSION_1_2_0 && target in c.acceptedTargets && target != "" && c.challenge != []
    ensures Reachable(c, version, s)
    ensures s.toV == [] && s.toH == [] && s.v.state == S.Await2Fa && s.h.auth.state == A.AwaitApproval
  {
    s := System(S.NewViewer(true), S.NEW_HOST, [S.Hash([], c.challenge)], [], [], None);
    assert Execution(c, [s], []);
    s := OldRead(c, version, s);
    s := OldLogin(c, s, target, version);
    s := OldClick(c, s, target, version, CLICKED);
    s := OldLogin(c, s, target, version);
    s := OldClick(c, s, target, version, NOT_CLICKED);
    s := OldRead(c, version, s);
  }

  // ----- Exactly when the two ends agree about the second factor -----

  ghost predicate Agreed(s: System) {
    Drain(s.v, s.toV).state == S.Await2Fa && (forall m :: m in s.toH ==> !m.Login?) ==> s.h.auth.state in {A.Await2Fa, A.Closed}
  }

  // Every login in flight, and the one the host latched, is of at least this version.
  ghost predicate VersionsFrom(s: System, version: int) {
    && (forall m :: m in s.toH && m.Login? ==> m.req.version >= version)
    && (s.h.auth.request.Some? ==> s.h.auth.request.value.version >= version)
  }

  lemma StepRequest(c: A.Config, a: A.Auth, e: A.AuthEvent)
    ensures var b := A.Step(c, a, e).0;
      b.request.None? || b.request == a.request || (e.LoginEvent? && b.request == Some(A.Scrub(e.req)))
  {
  }

  lemma HostRequest(c: A.Config, h: S.Host, m: Message, env: A.Answers, budget: nat)
    ensures var r := S.HostReceive(c, h, S.Record(m), env, budget).0.auth.request;
      r.None? || r == h.auth.request || (m.Login? && r == Some(A.Scrub(m.req)))
  {
    if m.Login? || m.Auth2fa? {
      StepRequest(c, h.auth, CallOf(m, env)[0]);
    }
  }

  lemma VersionsKept(c: A.Config, s: System, step: Step, version: int)
    requires VersionsFrom(s, version) && Enabled(s, step)
    requires step.ViewerLogin? ==> step.req.version >= version
    ensures VersionsFrom(Next(c, s, step), version)
  {
    var t := Next(c, s, step);
    match step
    case HostRecord(env, budget) =>
      HostRequest(c, s.h, s.toH[0], env, budget);
      assert s.toH[0] in s.toH;
      assert forall m :: m in t.toH ==> m in s.toH;
    case HostPoll(expired, env, budget) =>
      StepRequest(c, s.h.auth, A.PollEvent(env));
    case LoseToHost(n) =>
      assert forall m :: m in t.toH ==> m in s.toH;
    case _ =>
  }

  lemma {:induction false} ReachableVersions(c: A.Config, states: seq<System>, steps: seq<Step>, k: nat, version: int)
    requires Execution(c, states, steps) && k < |states| && Recent(steps, version)
    ensures VersionsFrom(states[k], version)
  {
    if k > 0 {
      ReachableVersions(c, states, steps, k - 1, version);
      VersionsKept(c, states[k - 1], steps[k - 1], version);
    }
  }

  // Every login in flight names a target, and the one the host latched names one it accepts.
  ghost predicate Named(c: A.Config, s: System) {
    && (forall m :: m in s.toH && m.Login? ==> m.req.username != "")
    && (s.h.auth.request.Some? ==> s.h.auth.request.value.username != "" && s.h.auth.request.value.username in c.acceptedTargets)
  }

  lemma RequestNamed(c: A.Config, a: A.Auth, e: A.AuthEvent)
    ensures var b := A.Step(c, a, e).0;
      b.request.Some? && b.request != a.request ==> e.LoginEvent? && b.request.value.username == e.req.username && e.req.username in c.acceptedTargets
  {
  }

  lemma HostNamed(c: A.Config, h: S.Host, m: Message, env: A.Answers, budget: nat)
    ensures var r := S.HostReceive(c, h, S.Record(m), env, budget).0.auth.request;
      r.Some? && r != h.auth.request ==> m.Login? && r.value.username == m.req.username && m.req.username in c.acceptedTargets
  {
    if m.Login? || m.Auth2fa? {
      RequestNamed(c, h.auth, CallOf(m, env)[0]);
    }
  }

  lemma NamedKept(c: A.Config, s: System, step: Step)
    requires Named(c, s) && Enabled(s, step)
    ensures Named(c, Next(c, s, step))
  {
    var t := Next(c, s, step);
    match step
    case HostRecord(env, budget) =>
      HostNamed(c, s.h, s.toH[0], env, budget);
      assert s.toH[0] in s.toH;
      assert forall m :: m in t.toH ==> m in s.toH;
    case HostPoll(expired, env, budget) =>
      RequestNamed(c, s.h.auth, A.PollEvent(env));
    case LoseToHost(n) =>
      assert forall m :: m in t.toH ==> m in s.toH;
    case _ =>
  }

  lemma {:induction false} ReachableNamed(c: A.Config, states: seq<System>, steps: seq<Step>, k: nat)
    requires Execution(c, states, steps) && k < |states|
    ensures Named(c, states[k])
  {
    if k > 0 {
      ReachableNamed(c, states, steps, k - 1);
      NamedKept(c, states[k - 1], steps[k - 1]);
    }
  }

  // A host that can be logged in to: it has a challenge to answer and a target to name.
  ghost predicate Reached(c: A.Config) {
    c.challenge != [] && exists target :: target in c.acceptedTargets && target != ""
  }

  /** Whoever waits for a code faces a host that does, if the host does not wait for clicks or no viewer is older than 1.2.0. */
  lemma SecondFactorAgrees(c: A.Config, states: seq<System>, steps: seq<Step>, k: nat)
    requires Execution(c, states, steps) && k < |states| && PoliteRun(steps)
    requires c.policy == A.PasswordOnly || Recent(steps, S.VERSION_1_2_0) || !Reached(c)
    ensures Agreed(states[k])
  {
    SecondFactorSync(c, states, steps, k);
    if !Reached(c) {
      ReachableNamed(c, states, steps, k);
    } else if c.policy == A.PasswordOnly {
      PairSafety(c, states, steps, k);
      A.RunHasProvenance(c, states[k].log);
    } else {
      ReachableVersions(c, states, steps, k, S.VERSION_1_2_0);
    }
  }

  // Every state of every polite execution with viewers of at least this version agrees.
  ghost predicate AlwaysAgrees(c: A.Config, version: int) {
    forall states, steps, k :: Execution(c, states, steps) && PoliteRun(steps) && Recent(steps, version) && 0 <= k < |states| ==> Agreed(states[k])
  }

  /** Exactly the hosts and viewer versions for which the ends always agree: no click, no old viewer, or no way to log in. */
  lemma SecondFactorExact(c: A.Config, version: int)
    ensures AlwaysAgrees(c, version) <==> c.policy == A.PasswordOnly || version >= S.VERSION_1_2_0 || !Reached(c)
  {
    if c.policy == A.PasswordOnly || version >= S.VERSION_1_2_0 || !Reached(c) {
      forall states, steps, k | Execution(c, states, steps) && PoliteRun(steps) && Recent(steps, version) && 0 <= k < |states|
        ensures Agreed(states[k])
      {
        SecondFactorAgrees(c, states, steps, k);
      }
    } else {
      var target :| target in c.acceptedTargets && target != "";
      var s := OldViewerDesynchronised(c, target, version);
      assert !Agreed(s);
      Disagrees(c, version, s);
    }
  }

  lemma Disagrees(c: A.Config, version: int, s: System)
    requires Reachable(c, version, s) && !Agreed(s)
    ensures !AlwaysAgrees(c, version)
  {
    hide Agreed, PoliteRun, Recent;
    var states, steps :| Execution(c, states, steps) && PoliteRun(steps) && Recent(steps, version) && |states| == |steps| + 1 && states[|steps|] == s;
  }

  // ----- A host that waits for a code has a viewer that knows -----

  ghost predicate HostWaits(s: System) {
    s.h.auth.state == A.Await2Fa && (forall m :: m in s.toH ==> !m.Login?) ==> Drain(s.v, s.toV).state in {S.Await2Fa, S.Closed}
  }

  // An attempt policy that refuses a code says so in words the viewer takes for an answer to its code.
  predicate TellsFactor(s: System, step: Step) {
    step.HostRecord? && s.toH != [] && s.toH[0].Auth2fa? && step.env.attempt.Some? ==> S.AfterError(step.env.attempt.value) == S.Await2Fa
  }

  lemma FactorTexts()
    ensures S.AfterError(A.TWO_FACTOR_REQUIRED) == S.Await2Fa && S.AfterError(A.WRONG_TWO_FACTOR) == S.Await2Fa
    ensures S.AfterError(A.TWO_FACTOR_UNSUPPORTED) == S.Await2Fa
  {
  }

  // A call that leaves the host waiting for a code answers with such words, or changes nothing.
  lemma WaitingText(c: A.Config, a: A.Auth, e: A.AuthEvent)
    requires !e.CloseEvent? && (e.FactorEvent? && e.env.attempt.Some? ==> S.AfterError(e.env.attempt.value) == S.Await2Fa)
    ensures var (b, action) := A.Step(c, a, e);
      b.state == A.Await2Fa ==> (action.Ignored? && b == a && !e.LoginEvent?) || (action.Error? && S.AfterError(action.message) == S.Await2Fa)
  {
    FactorTexts();
    hide S.AfterError;
  }

  lemma CallWaits(c: A.Config, s: System, e: A.AuthEvent, budget: nat, t: System)
    requires Inv(c, s) && Called(c, s, e, budget, t) && (!e.LoginEvent? ==> HostWaits(s))
    requires e.FactorEvent? && e.env.attempt.Some? ==> S.AfterError(e.env.attempt.value) == S.Await2Fa
    ensures HostWaits(t)
  {
    var (a, action) := A.Step(c, s.h.auth, e);
    var out := S.ApplyAction(s.h.(auth := a), action, budget).2;
    var d := Drain(s.v, s.toV);
    WaitingText(c, s.h.auth, e);
    hide A.Step, Identity, InvLog;
    if t.h.auth.state == A.Await2Fa {
      assert t.h.auth == a;
      DrainAppend(s.v, s.toV, out);
      if action.Error? {
        assert out == [S.LoginError(action.message)];
        CallAsked(c, s, e);
        NotActive(c, s, e);
        DrainFacts(s.v, s.toV);
        SingleDrains(d, out[0]);
      } else {
        assert t.toV == s.toV;
      }
    }
  }

  lemma CallAsked(c: A.Config, s: System, e: A.AuthEvent)
    requires Inv(c, s) && !e.CloseEvent? && (e.LoginEvent? ==> Asked(s.v))
    ensures !A.Step(c, s.h.auth, e).1.Ignored? ==> Asked(s.v)
  {
  }

  lemma NotActive(c: A.Config, s: System, e: A.AuthEvent)
    requires Inv(c, s) && !e.CloseEvent? && !A.Step(c, s.h.auth, e).1.Ignored?
    ensures Drain(s.v, s.toV).state != S.Active
  {
    if s.h.auth.state in {A.Authorized, A.Closed} {
      FinalActions(c, s.h.auth, e);
    }
    A.AuthorizedOnce(c, s.log);
    DrainFacts(s.v, s.toV);
  }

  lemma StepWaits(c: A.Config, s: System, step: Step)
    requires Inv(c, s) && HostWaits(s) && Enabled(s, step) && TellsFactor(s, step)
    ensures HostWaits(Next(c, s, step))
  {
    hide InvLog, InvDrain, InvAsked, Identity, A.Login, A.Poll, A.SecondFactor, S.AfterError;
    var t := Next(c, s, step);
    match step
    case HostRecord(env, budget) =>
      PopInv(c, s);
      var m := s.toH[0];
      var s0 := s.(toH := s.toH[1..]);
      if s.h.auth.state != A.Closed {
        if m.Login? || m.Auth2fa? {
          assert m.Auth2fa? && (forall k :: k in s0.toH ==> !k.Login?) ==> forall k :: k in s.toH ==> !k.Login?;
          CallWaits(c, s0, CallOf(m, env)[0], budget, t);
        } else {
          QuietWaits(s, t, S.HostReceive(c, s.h, S.Record(m), env, budget).2);
        }
      }
    case HostPoll(expired, env, budget) =>
      if !(expired && s.h.auth.state != A.Authorized) {
        CallWaits(c, s, A.PollEvent(env), budget, t);
      }
    case HostWrite(m) =>
      QuietWaits(s, t, [m]);
    case _ => ViewerWaits(c, s, step);
  }

  lemma QuietWaits(s: System, t: System, out: seq<Message>)
    requires HostWaits(s)
    requires t.v == s.v && t.toV == s.toV + out && |out| <= 1
    requires t.h.auth.state == A.Closed || t.h == s.h
    requires forall m :: m in s.toH && m.Login? ==> m in t.toH
    requires out != [] ==>
      (out[0].TestDelay? || out[0].Application? || out[0].ChatMessage? || out[0].MessageBox? || out[0].Empty?
       || t.h.auth.state == A.Closed)
    requires out != [] && out[0].Application? ==> s.h.auth.state == A.Authorized
    ensures HostWaits(t)
  {
    DrainAppend(s.v, s.toV, out);
    if out != [] {
      assert out == [out[0]] && out[1..] == [];
    } else {
      assert t.toV == s.toV;
    }
  }

  lemma ViewerWaits(c: A.Config, s: System, step: Step)
    requires HostWaits(s) && Enabled(s, step) && !step.HostRecord? && !step.HostPoll? && !step.HostWrite?
    ensures HostWaits(Next(c, s, step))
  {
    var t := Next(c, s, step);
    if t.v.state == S.Closed {
      DrainFacts(t.v, t.toV);
    } else if step.ViewerLogin? && t.toH != s.toH {
      assert t.toH[|s.toH|].Login?;
      assert t.toH[|s.toH|] in t.toH;
    } else {
      assert forall m :: m in s.toH ==> m in t.toH;
    }
  }

  /** With every record read and no login in flight, a host that waits for a code has a viewer that waits for one, or has closed. */
  lemma {:induction false} SecondFactorAsked(c: A.Config, states: seq<System>, steps: seq<Step>, k: nat)
    requires Execution(c, states, steps) && k < |states|
    requires forall i :: 0 <= i < |steps| ==> TellsFactor(states[i], steps[i])
    ensures HostWaits(states[k])
  {
    if k > 0 {
      SecondFactorAsked(c, states, steps, k - 1);
      ReachableInv(c, states, steps, k - 1);
      StepWaits(c, states[k - 1], steps[k - 1]);
    }
  }

  /** The hypothesis is needed, and decides: after a refused code the drained viewer waits for one exactly if the words are such. */
  lemma RefusedCode(c: A.Config, s: System, env: A.Answers, budget: nat)
    requires Inv(c, s) && s.toH != [] && s.toH[0].Auth2fa? && s.h.auth.state == A.Await2Fa
    requires env.attempt.Some? && budget >= 1 && Drain(s.v, s.toV).state != S.Closed
    ensures var t := Next(c, s, HostRecord(env, budget));
      t.h.auth.state == A.Await2Fa && Drain(t.v, t.toV).state == S.AfterError(env.attempt.value)
  {
    hide S.AfterError;
    var e := A.FactorEvent(env);
    assert A.Step(c, s.h.auth, e) == (s.h.auth, A.Error(env.attempt.value, false));
    var out := [S.LoginError(env.attempt.value)];
    CallAsked(c, s, e);
    NotActive(c, s, e);
    DrainFacts(s.v, s.toV);
    hide Inv;
    DrainAppend(s.v, s.toV, out);
    SingleDrains(Drain(s.v, s.toV), out[0]);
  }

  // ----- The right password lets its viewer in -----

  // A viewer holds the challenge of its host, or has yet to read it.
  ghost predicate HashOfHost(c: A.Config, s: System) {
    && (s.v.hash.Some? ==> s.v.hash.value.challenge == c.challenge)
    && (forall m :: m in s.toV && m.Hash? ==> m.challenge == c.challenge)
  }

  lemma NoHash(h: S.Host, action: A.AuthAction, budget: nat)
    ensures forall m :: m in S.ApplyAction(h, action, budget).2 ==> !m.Hash?
  {
  }

  lemma HostSendsNoHash(c: A.Config, h: S.Host, m: Message, env: A.Answers, budget: nat)
    ensures forall k :: k in S.HostReceive(c, h, S.Record(m), env, budget).2 ==> !k.Hash?
  {
    if m.Login? || m.Auth2fa? {
      var (a, action) := A.Step(c, h.auth, CallOf(m, env)[0]);
      NoHash(h.(auth := a), action, budget);
    }
  }

  lemma HashKept(c: A.Config, s: System, step: Step)
    requires HashOfHost(c, s) && Enabled(s, step)
    ensures HashOfHost(c, Next(c, s, step))
  {
    hide A.Login, A.Poll, A.SecondFactor, S.ApplyAction;
    var t := Next(c, s, step);
    match step
    case ViewerRecord(ok) =>
      assert s.toV[0] in s.toV;
      assert forall m :: m in t.toV ==> m in s.toV;
    case HostRecord(env, budget) =>
      HostSendsNoHash(c, s.h, s.toH[0], env, budget);
      hide S.HostReceive;
      assert forall m :: m in t.toV ==> m in s.toV || m in S.HostReceive(c, s.h, S.Record(s.toH[0]), env, budget).2;
    case HostPoll(expired, env, budget) =>
      var (a, action) := A.Poll(c, s.h.auth, env);
      NoHash(s.h.(auth := a), action, budget);
      assert forall m :: m in t.toV ==> m in s.toV || !m.Hash?;
    case LoseToViewer(n) =>
      assert forall m :: m in t.toV ==> m in s.toV;
    case _ =>
  }

  lemma {:induction false} ReachableHash(c: A.Config, states: seq<System>, steps: seq<Step>, k: nat)
    requires Execution(c, states, steps) && k < |states|
    ensures HashOfHost(c, states[k])
  {
    if k > 0 {
      ReachableHash(c, states, steps, k - 1);
      HashKept(c, states[k - 1], steps[k - 1]);
    }
  }

  // An idle pair whose viewer may send this request and whose host has not decided.
  ghost predicate MayLogin(c: A.Config, s: System, req: A.LoginRequest) {
    && s.toV == [] && s.toH == [] && Waiting(s.v) && s.v.hash.Some? && s.h.auth.state !in {A.Authorized, A.Closed}
    && A.DesktopRequest(c, req) && req.username != ""
    && (s.v.request.Some? ==>
          && s.v.request.value.username == req.username && s.v.request.value.myId == req.myId
          && s.v.request.value.sessionId == req.sessionId)
  }

  lemma HostAdmits(c: A.Config, s: System, req: A.LoginRequest)
    requires Inv(c, s) && MayLogin(c, s, req)
    ensures A.Admissible(c, s.log, req)
  {
  }

  /**
   In any reachable idle pair, a viewer that supplies a password whose salted form its host stores
   is let in by the login it sends: the host authorizes it with exactly the grant for passwords and
   the viewer, having read the answer, is Active with that grant; or both wait for the required code.
   */
  lemma RightPasswordLetsIn(c: A.Config, states: seq<System>, steps: seq<Step>, k: nat, req: A.LoginRequest, password: Bytes,
                            env: A.Answers, budget: nat)
    requires Execution(c, states, steps) && k < |states| && MayLogin(c, states[k], req)
    requires forall x: Bytes :: |c.sha(x)| == 32
    requires c.policy != A.ClickOnly && env.attempt.None? && budget >= 5
    requires password != [] && c.sha(password + states[k].v.hash.value.salt) in c.passwords
    ensures var s := Next(c, states[k], ViewerLogin(req, Some(password), false, true));
      && s.toH != []
      && var t := Next(c, s, HostRecord(env, budget));
      && t.h.auth.state == (if env.factorRequired then A.Await2Fa else A.Authorized)
      && Drain(t.v, t.toV).state == (if env.factorRequired then S.Await2Fa else S.Active)
      && (!env.factorRequired ==>
            A.Cut(t.h.permissions, c.passwordPermissions, c.ceiling, req.options) && Drain(t.v, t.toV).permissions == t.h.permissions)
  {
    var s0 := states[k];
    ReachableInv(c, states, steps, k);
    ReachableHash(c, states, steps, k);
    HostAdmits(c, s0, req);
    var salt := s0.v.hash.value.salt;
    S.LoginSent(c.sha, s0.v, req, Some(password), false, true);
    S.LoginAnswersChallenge(c, s0.v, req, Some(password), false, true, salt);
    var s := Next(c, s0, ViewerLogin(req, Some(password), false, true));
    var sent := s.toH[0].req;
    assert s.toH == [S.Login(sent)];
    A.PasswordLetsIn(c, s0.log, sent, env);
    A.LastStep(c, s0.log, A.LoginEvent(sent, env));
    hide Inv, HashOfHost, A.Run, A.Login, A.ValidResponse, S.ViewerLogin;
    assert A.Admissible(c, s0.log, sent);
    AnswerDrains(c, s, sent, env, budget);
  }

  // The answer to an accepted login, as the viewer that sent it reads it.
  lemma AnswerDrains(c: A.Config, s: System, sent: A.LoginRequest, env: A.Answers, budget: nat)
    requires s.toV == [] && s.toH == [S.Login(sent)] && Waiting(s.v) && Asked(s.v) && budget >= 5
    requires s.h.auth.state !in {A.Authorized, A.Closed}
    requires var (a, action) := A.Step(c, s.h.auth, A.LoginEvent(sent, env));
      if env.factorRequired then a.state == A.Await2Fa && action == A.Error(A.TWO_FACTOR_REQUIRED, false)
      else a.state == A.Authorized && action == A.Authorize(c.peerInfo, a.grant)
    ensures var t := Next(c, s, HostRecord(env, budget));
      var a := A.Step(c, s.h.auth, A.LoginEvent(sent, env)).0;
      && t.h.auth == a && (!env.factorRequired ==> t.h.permissions == a.grant && Drain(t.v, t.toV).permissions == a.grant)
      && Drain(t.v, t.toV).state == (if env.factorRequired then S.Await2Fa else S.Active)
  {
    hide A.Login;
    var (a, action) := A.Step(c, s.h.auth, A.LoginEvent(sent, env));
    var t := Next(c, s, HostRecord(env, budget));
    var out := S.Reply(a, action);
    assert t.toV == out;
    if env.factorRequired {
      SingleDrains(s.v, out[0]);
      assert out == [out[0]];
    } else {
      AuthorizeDrains(s.v, c.peerInfo, a.grant);
    }
  }

  /** The identity both ends latched, and every login in flight, is the first one sent. */
  lemma {:induction false} LatchedIdentity(c: A.Config, states: seq<System>, steps: seq<Step>, i: nat, k: nat)
    requires Execution(c, states, steps) && i <= k < |states|
    ensures Identity(states[k])
    ensures states[i].id.Some? ==> states[k].id == states[i].id
    ensures states[i].v.request.Some? && states[k].v.request.Some? ==>
      states[i].v.request.value.myId == states[k].v.request.value.myId
    ensures states[i].h.auth.request.Some? && states[k].h.auth.request.Some? ==>
      states[i].h.auth.request.value.myId == states[k].h.auth.request.value.myId
  {
    ReachableInv(c, states, steps, i);
    ReachableInv(c, states, steps, k);
    IdStays(c, states, steps, i, k);
  }

  lemma {:induction false} IdStays(c: A.Config, states: seq<System>, steps: seq<Step>, i: nat, k: nat)
    requires Execution(c, states, steps) && i <= k < |states|
    ensures states[i].id.Some? ==> states[k].id == states[i].id
  {
    if i < k {
      IdStays(c, states, steps, i, k - 1);
      assert states[k] == Next(c, states[k - 1], steps[k - 1]);
    }
  }
}
