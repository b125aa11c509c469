/**
 Local approval in crates/rd-engine/src/host.rs: request epochs shared by every host of
 the process, the decision a human takes on one of them, and the authentication of one
 peer after another that polls it.
 */
module Host {
  import opened Wrappers
  import A = Authentication

  const MAX_EPOCH: nat := 0xFFFF_FFFF_FFFF_FFFF

  // Bounded dispatch before authentication.
  const MAX_TURNS: nat := 64

  // decision: 0 none, 1 allow, 2 deny.
  datatype LocalGrant = LocalGrant(epoch: nat, decision: nat)

  const NO_REQUEST := LocalGrant(0, 0)

  function Decided(g: LocalGrant, epoch: nat, allow: bool): Option<LocalGrant> {
    if epoch == 0 || g.epoch != epoch || g.decision != 0 then None
    else Some(g.(decision := if allow then 1 else 2))
  }

  function Check(g: LocalGrant, epoch: nat, permissions: A.Permissions): A.Approval {
    if g.epoch != epoch then A.Pending
    else if g.decision == 1 then A.Approved(permissions)
    else if g.decision == 2 then A.Denied
    else A.Pending
  }

  /** A session learns of a decision exactly if it was taken on its own epoch. */
  lemma CheckExact(g: LocalGrant, epoch: nat, permissions: A.Permissions)
    ensures (Check(g, epoch, permissions).Approved? <==> g.epoch == epoch && g.decision == 1)
    ensures (Check(g, epoch, permissions).Denied? <==> g.epoch == epoch && g.decision == 2)
    ensures Check(g, epoch, permissions).Approved? ==> Check(g, epoch, permissions).grant == permissions
  {
  }

  // Only an armed input policy with a sink behind it grants anything.
  function LocalPermissions(inputInjection: bool, inputSink: bool): A.Permissions {
    A.Permissions(inputInjection && inputSink, false, false, false)
  }

  // `events` are the calls the peer's authentication has received; `pending` that the
  // last of them awaits approval and its request is not yet published.
  datatype Session = Session(epoch: nat, config: A.Config, events: seq<A.AuthEvent>, turns: nat, pending: bool)

  // The operator's opt-in and the sink compiled in decide what a peer may hold.
  datatype HostState = HostState(inputInjection: bool, inputSink: bool, grant: LocalGrant, cancelled: bool, session: Option<Session>) {
    function Armed(): A.Permissions {
      LocalPermissions(inputInjection, inputSink)
    }
  }

  datatype Entry =
    | Began(epoch: nat)
    | Published(epoch: nat)
    | Ruled(epoch: nat, allow: bool)
    | Issued(epoch: nat, h: nat, permissions: A.Permissions)

  datatype Process = Process(counter: nat, hosts: seq<HostState>, log: seq<Entry>)

  datatype Step =
    | StartHost(inputInjection: bool, inputSink: bool)
    | Begin(h: nat, config: A.Config)
    | Call(h: nat, e: A.AuthEvent)
    | OtherEvent(h: nat)
    | Publish(h: nat)
    | Approve(h: nat, request: Option<nat>, allow: bool)   // None: the text is not a number
    | Cancel(h: nat)
    | End(h: nat)

  // The session's providers: click approval only, no second factor.
  predicate LocalAnswers(s: Session, g: LocalGrant, e: A.AuthEvent) {
    e.CloseEvent? || (e.env.approval == Check(g, s.epoch, s.config.ceiling) && !e.env.factorRequired)
  }

  predicate Enabled(p: Process, step: Step) {
    match step
    case StartHost(_, _) => true
    case Begin(h, config) =>
      h < |p.hosts| && p.hosts[h].session.None? && config.policy == A.ClickOnly && config.ceiling == p.hosts[h].Armed()
    case Call(h, e) =>
      && h < |p.hosts| && p.hosts[h].session.Some?
      && var s := p.hosts[h].session.value;
      !s.pending && s.turns < MAX_TURNS && LocalAnswers(s, p.hosts[h].grant, e)
    case OtherEvent(h) =>
      h < |p.hosts| && p.hosts[h].session.Some? && !p.hosts[h].session.value.pending && p.hosts[h].session.value.turns < MAX_TURNS
    case Publish(h) => h < |p.hosts| && p.hosts[h].session.Some? && p.hosts[h].session.value.pending
    case Approve(h, _, _) => h < |p.hosts|
    case Cancel(h) => h < |p.hosts|
    case End(h) => h < |p.hosts| && p.hosts[h].session.Some?
  }

  ghost function Next(p: Process, step: Step): Process
    requires Enabled(p, step)
  {
    match step
    case StartHost(injection, sink) =>
      p.(hosts := p.hosts + [HostState(injection, sink, NO_REQUEST, false, None)])
    case Begin(h, config) =>
      if p.counter == MAX_EPOCH then p
      else
        p.(counter := p.counter + 1, log := p.log + [Began(p.counter + 1)],
           hosts := p.hosts[h := p.hosts[h].(grant := NO_REQUEST, session := Some(Session(p.counter + 1, config, [], 0, false)))])
    case Call(h, e) =>
      var s := p.hosts[h].session.value;
      var action := A.Step(s.config, A.Run(s.config, s.events), e).1;
      var t := s.(events := s.events + [e], turns := s.turns + 1, pending := action.PendingApproval?);
      if action.Authorize? then
        // The request is cleared and the session handed over.
        p.(hosts := p.hosts[h := p.hosts[h].(grant := NO_REQUEST, session := None)], log := p.log + [Issued(s.epoch, h, action.permissions)])
      else p.(hosts := p.hosts[h := p.hosts[h].(session := Some(t))])
    case OtherEvent(h) =>
      var s := p.hosts[h].session.value;
      p.(hosts := p.hosts[h := p.hosts[h].(session := Some(s.(turns := s.turns + 1)))])
    case Publish(h) =>
      var s := p.hosts[h].session.value;
      p.(hosts := p.hosts[h := p.hosts[h].(grant := p.hosts[h].grant.(epoch := s.epoch), session := Some(s.(pending := false)))],
         log := p.log + [Published(s.epoch)])
    case Approve(h, request, allow) =>
      var g := if request.None? || p.hosts[h].cancelled then None else Decided(p.hosts[h].grant, request.value, allow);
      if g.None? then p
      else p.(hosts := p.hosts[h := p.hosts[h].(grant := g.value)], log := p.log + [Ruled(request.value, allow)])
    case Cancel(h) => p.(hosts := p.hosts[h := p.hosts[h].(cancelled := true)])
    case End(h) => p.(hosts := p.hosts[h := p.hosts[h].(grant := NO_REQUEST, session := None)])
  }

  // ----- The objects -----

  class Grant {
    var epoch: nat
    var decision: nat

    function Value(): LocalGrant
      reads this
    {
      LocalGrant(epoch, decision)
    }

    constructor ()
      ensures Value() == NO_REQUEST
    {
      epoch, decision := 0, 0;
    }

    method Decide(epoch: nat, allow: bool) returns (taken: bool)
      modifies this
      ensures taken <==> Decided(old(Value()), epoch, allow).Some?
      ensures Value() == if taken then Decided(old(Value()), epoch, allow).value else old(Value())
    {
      if epoch == 0 || this.epoch != epoch || decision != 0 {
        return false;
      }
      decision := if allow then 1 else 2;
      taken := true;
    }

    method Clear()
      modifies this
      ensures Value() == NO_REQUEST
    {
      epoch, decision := 0, 0;
    }

    // Repeating a request keeps a decision already taken.
    method PublishEpoch(epoch: nat)
      modifies this
      ensures Value() == old(Value()).(epoch := epoch)
    {
      this.epoch := epoch;
    }

    method CheckCall(epoch: nat, permissions: A.Permissions) returns (r: A.Approval)
      ensures r == Check(Value(), epoch, permissions)
    {
      if this.epoch != epoch {
        return A.Pending;
      }
      match decision
      case 1 => r := A.Approved(permissions);
      case 2 => r := A.Denied;
      case _ => r := A.Pending;
    }
  }

  class LocalHost {
    const grant: Grant
    var cancelled: bool

    constructor ()
      ensures fresh(grant) && grant.Value() == NO_REQUEST && !cancelled
    {
      grant := new Grant();
      cancelled := false;
    }

    method ApproveCall(request: Option<nat>, allow: bool) returns (taken: bool)
      modifies grant
      ensures taken <==> request.Some? && !cancelled && Decided(old(grant.Value()), request.value, allow).Some?
      ensures grant.Value() == if taken then Decided(old(grant.Value()), request.value, allow).value else old(grant.Value())
    {
      if request.None? || cancelled {
        return false;
      }
      taken := grant.Decide(request.value, allow);
    }
  }

  // ----- Runs -----

  function Start(): Process {
    Process(0, [], [])
  }

  ghost predicate Run(p: Process, steps: seq<Step>, q: Process)
    decreases |steps|
  {
    if steps == [] then q == p else Enabled(p, steps[0]) && Run(Next(p, steps[0]), steps[1..], q)
  }

  // A decision to allow was taken on this epoch, and its request had been published before.
  ghost predicate Allowed(log: seq<Entry>, epoch: nat, allow: bool) {
    exists i, j :: 0 <= i < j < |log| && log[i] == Published(epoch) && log[j] == Ruled(epoch, allow)
  }

  ghost predicate WasPublished(log: seq<Entry>, epoch: nat) {
    Published(epoch) in log
  }

  predicate Undecided(log: seq<Entry>, epoch: nat) {
    Ruled(epoch, true) !in log && Ruled(epoch, false) !in log
  }

  ghost predicate HostGood(p: Process, x: HostState) {
    && (x.session.None? ==> x.grant == NO_REQUEST)
    && (x.session.Some? ==>
          var s := x.session.value;
          && 0 < s.epoch <= p.counter && s.config.policy == A.ClickOnly && s.config.ceiling == x.Armed()
          && x.grant.epoch in {0, s.epoch} && x.grant.decision <= 2
          && (x.grant.epoch != 0 ==> WasPublished(p.log, s.epoch))
          && (x.grant.epoch == 0 ==> x.grant.decision == 0)
          && (if x.grant.decision == 0 then Undecided(p.log, s.epoch) else Allowed(p.log, s.epoch, x.grant.decision == 1))
          && (forall i :: 0 <= i < |s.events| ==> EventBacked(p.log, s, s.events[i])))
  }

  ghost predicate EventBacked(log: seq<Entry>, s: Session, e: A.AuthEvent) {
    && (!e.CloseEvent? ==> !e.env.factorRequired)
    && (!e.CloseEvent? && e.env.approval.Approved? ==> e.env.approval.grant == s.config.ceiling && Allowed(log, s.epoch, true))
  }

  ghost predicate LogGood(p: Process) {
    && (forall i :: 0 <= i < |p.log| && p.log[i].Began? ==> p.log[i].epoch <= p.counter)
    && (forall i, j :: 0 <= i < j < |p.log| && p.log[i].Began? && p.log[j].Began? ==> p.log[i].epoch < p.log[j].epoch)
    && (forall i :: 0 <= i < |p.log| && p.log[i].Ruled? ==> 0 < p.log[i].epoch <= p.counter)
    && (forall i, j :: 0 <= i < j < |p.log| && p.log[i].Ruled? && p.log[j].Ruled? ==> p.log[i].epoch != p.log[j].epoch)
    && (forall k :: 0 <= k < |p.log| && p.log[k].Issued? ==> Allowed(p.log[..k], p.log[k].epoch, true))
  }

  ghost predicate Inv(p: Process) {
    && LogGood(p)
    && (forall h :: 0 <= h < |p.hosts| ==> HostGood(p, p.hosts[h]))
    && (forall h, k :: 0 <= h < k < |p.hosts| && p.hosts[h].session.Some? && p.hosts[k].session.Some?
          ==> p.hosts[h].session.value.epoch != p.hosts[k].session.value.epoch)
  }

  lemma AllowedGrows(log: seq<Entry>, e: Entry, epoch: nat, allow: bool)
    requires Allowed(log, epoch, allow)
    ensures Allowed(log + [e], epoch, allow)
  {
    var i, j :| 0 <= i < j < |log| && log[i] == Published(epoch) && log[j] == Ruled(epoch, allow);
    assert (log + [e])[i] == Published(epoch) && (log + [e])[j] == Ruled(epoch, allow);
  }

  lemma AllowedNow(log: seq<Entry>, epoch: nat, allow: bool)
    requires WasPublished(log, epoch)
    ensures Allowed(log + [Ruled(epoch, allow)], epoch, allow)
  {
    var i :| 0 <= i < |log| && log[i] == Published(epoch);
    var more := log + [Ruled(epoch, allow)];
    assert more[i] == Published(epoch) && more[|log|] == Ruled(epoch, allow);
  }

  // A host whose own epoch the new entry does not rule on stays good.
  lemma HostKept(p: Process, q: Process, x: HostState)
    requires HostGood(p, x) && p.counter <= q.counter
    requires q.log == p.log || (|q.log| == |p.log| + 1 && q.log == p.log + [q.log[|p.log|]])
    requires |q.log| > |p.log| && x.session.Some? && q.log[|p.log|].Ruled? ==> q.log[|p.log|].epoch != x.session.value.epoch
    ensures HostGood(q, x)
  {
    if q.log != p.log && x.session.Some? {
      var e := q.log[|p.log|];
      var s := x.session.value;
      if x.grant.decision != 0 {
        AllowedGrows(p.log, e, s.epoch, x.grant.decision == 1);
      }
      forall i | 0 <= i < |s.events|
        ensures EventBacked(q.log, s, s.events[i])
      {
        assert EventBacked(p.log, s, s.events[i]);
        if Allowed(p.log, s.epoch, true) {
          AllowedGrows(p.log, e, s.epoch, true);
        }
      }
    }
  }

  // Only an approval authorizes under this policy: some call of the session saw it.
  lemma IssuedBacked(p: Process, h: nat, e: A.AuthEvent)
    requires Inv(p) && Enabled(p, Call(h, e))
    requires var s := p.hosts[h].session.value; A.Step(s.config, A.Run(s.config, s.events), e).1.Authorize?
    ensures var s := p.hosts[h].session.value;
      && Allowed(p.log, s.epoch, true)
      && A.Step(s.config, A.Run(s.config, s.events), e).1.permissions.Within(s.config.ceiling)
  {
    var s := p.hosts[h].session.value;
    var events := s.events + [e];
    var n := |s.events|;
    assert events[..n] == s.events;
    assert A.ActionAt(s.config, events, n).Authorize?;
    var l, j, g := A.AuthorizationProvenance(s.config, events, n);
    assert HostGood(p, p.hosts[h]);
    CallBacked(p, h, e);
    assert EventBacked(p.log, s, events[j]);
  }

  lemma CallBacked(p: Process, h: nat, e: A.AuthEvent)
    requires Inv(p) && Enabled(p, Call(h, e))
    ensures EventBacked(p.log, p.hosts[h].session.value, e)
  {
    assert HostGood(p, p.hosts[h]);
  }

  // ----- The steps keep it -----

  lemma OthersKept(p: Process, q: Process, h: nat)
    requires Inv(p) && h < |p.hosts| == |q.hosts| && q.hosts == p.hosts[h := q.hosts[h]] && p.counter <= q.counter
    requires q.log == p.log || (|q.log| == |p.log| + 1 && q.log == p.log + [q.log[|p.log|]])
    requires |q.log| > |p.log| && q.log[|p.log|].Ruled? ==>
      p.hosts[h].session.Some? && q.log[|p.log|].epoch == p.hosts[h].session.value.epoch
    ensures forall k :: 0 <= k < |q.hosts| && k != h ==> HostGood(q, q.hosts[k])
  {
    hide HostGood;
    forall k | 0 <= k < |q.hosts| && k != h
      ensures HostGood(q, q.hosts[k])
    {
      assert q.hosts[k] == p.hosts[k];
      assert HostGood(p, p.hosts[k]);
      HostKept(p, q, p.hosts[k]);
    }
  }

  lemma LogKept(p: Process, q: Process)
    requires LogGood(p) && p.counter <= q.counter && |q.log| == |p.log| + 1 && q.log == p.log + [q.log[|p.log|]]
    requires var e := q.log[|p.log|];
      match e
      case Began(epoch) => p.counter < epoch <= q.counter
      case Published(_) => true
      case Ruled(epoch, _) => 0 < epoch <= q.counter && Undecided(p.log, epoch)
      case Issued(epoch, _, _) => Allowed(p.log, epoch, true)
    ensures LogGood(q)
  {
    hide Allowed;
    var n := |p.log|;
    forall k | 0 <= k < |q.log| && q.log[k].Issued?
      ensures Allowed(q.log[..k], q.log[k].epoch, true)
    {
      assert q.log[..k] == if k < n then p.log[..k] else p.log;
    }
    forall i | 0 <= i < n && p.log[i].Ruled? && q.log[n].Ruled?
      ensures p.log[i].epoch != q.log[n].epoch
    {
      assert p.log[i] == Ruled(p.log[i].epoch, true) || p.log[i] == Ruled(p.log[i].epoch, false);
      assert p.log[i] in p.log;
    }
  }

  lemma BeginKeeps(p: Process, h: nat, config: A.Config)
    requires Inv(p) && Enabled(p, Begin(h, config))
    ensures Inv(Next(p, Begin(h, config)))
  {
    var q := Next(p, Begin(h, config));
    if p.counter != MAX_EPOCH {
      OthersKept(p, q, h);
      LogKept(p, q);
      assert Undecided(q.log, p.counter + 1);
      hide Allowed, LogGood;
      assert HostGood(q, q.hosts[h]);
      forall k | 0 <= k < |p.hosts| && p.hosts[k].session.Some?
        ensures p.hosts[k].session.value.epoch <= p.counter
      {
        assert HostGood(p, p.hosts[k]);
      }
    }
  }

  lemma CallKeeps(p: Process, h: nat, e: A.AuthEvent)
    requires Inv(p) && Enabled(p, Call(h, e))
    ensures Inv(Next(p, Call(h, e)))
  {
    var s := p.hosts[h].session.value;
    if A.Step(s.config, A.Run(s.config, s.events), e).1.Authorize? {
      IssueKeeps(p, h, e);
    } else {
      AnswerKeeps(p, h, e);
    }
  }

  lemma IssueKeeps(p: Process, h: nat, e: A.AuthEvent)
    requires Inv(p) && Enabled(p, Call(h, e))
    requires var s := p.hosts[h].session.value; A.Step(s.config, A.Run(s.config, s.events), e).1.Authorize?
    ensures Inv(Next(p, Call(h, e)))
  {
    hide Allowed, A.Step, A.Run;
    var q := Next(p, Call(h, e));
    IssuedBacked(p, h, e);
    LogKept(p, q);
    OthersKept(p, q, h);
    hide LogGood;
    assert HostGood(q, q.hosts[h]);
  }

  lemma AnswerKeeps(p: Process, h: nat, e: A.AuthEvent)
    requires Inv(p) && Enabled(p, Call(h, e))
    requires var s := p.hosts[h].session.value; !A.Step(s.config, A.Run(s.config, s.events), e).1.Authorize?
    ensures Inv(Next(p, Call(h, e)))
  {
    hide Allowed, A.Step, A.Run;
    var q := Next(p, Call(h, e));
    assert LogGood(q);
    hide LogGood;
    CallBacked(p, h, e);
    OthersKept(p, q, h);
    assert HostGood(p, p.hosts[h]);
    assert HostGood(q, q.hosts[h]);
  }

  lemma PublishKeeps(p: Process, h: nat)
    requires Inv(p) && Enabled(p, Publish(h))
    ensures Inv(Next(p, Publish(h)))
  {
    var q := Next(p, Publish(h));
    var x := p.hosts[h];
    OthersKept(p, q, h);
    LogKept(p, q);
    assert HostGood(p, x);
    HostKept(p, q, x);
    hide Allowed;
    assert WasPublished(q.log, x.session.value.epoch) by { assert q.log[|p.log|] == Published(x.session.value.epoch); }
    assert HostGood(q, q.hosts[h]);
  }

  lemma ApproveKeeps(p: Process, h: nat, request: Option<nat>, allow: bool)
    requires Inv(p) && Enabled(p, Approve(h, request, allow))
    ensures Inv(Next(p, Approve(h, request, allow)))
  {
    var q := Next(p, Approve(h, request, allow));
    if q != p {
      var x := p.hosts[h];
      assert HostGood(p, x);
      var s := x.session.value;
      OthersKept(p, q, h);
      LogKept(p, q);
      AllowedNow(p.log, s.epoch, allow);
      forall i | 0 <= i < |s.events|
        ensures EventBacked(q.log, s, s.events[i])
      {
        assert EventBacked(p.log, s, s.events[i]);
        if Allowed(p.log, s.epoch, true) {
          AllowedGrows(p.log, Ruled(s.epoch, allow), s.epoch, true);
        }
      }
      hide Allowed;
      assert HostGood(q, q.hosts[h]);
    }
  }

  lemma StepKeeps(p: Process, step: Step)
    requires Inv(p) && Enabled(p, step)
    ensures Inv(Next(p, step))
  {
    hide Inv, Next;
    match step {
      case StartHost(_, _) => StartKeeps(p, step);
      case Begin(h, config) => BeginKeeps(p, h, config);
      case Call(h, e) => CallKeeps(p, h, e);
      case Publish(h) => PublishKeeps(p, h);
      case Approve(h, request, allow) => ApproveKeeps(p, h, request, allow);
      case OtherEvent(h) => QuietKeeps(p, step, h);
      case Cancel(h) => QuietKeeps(p, step, h);
      case End(h) => QuietKeeps(p, step, h);
    }
  }

  lemma StartKeeps(p: Process, step: Step)
    requires Inv(p) && step.StartHost?
    ensures Inv(Next(p, step))
  {
    hide Allowed;
    var q := Next(p, step);
    assert LogGood(q);
    hide LogGood;
    forall k | 0 <= k < |p.hosts|
      ensures HostGood(q, p.hosts[k])
    {
      assert HostGood(p, p.hosts[k]);
    }
  }

  lemma QuietKeeps(p: Process, step: Step, h: nat)
    requires Inv(p) && Enabled(p, step) && step in {OtherEvent(h), Cancel(h), End(h)}
    ensures Inv(Next(p, step))
  {
    var q := Next(p, step);
    OthersKept(p, q, h);
    assert HostGood(p, p.hosts[h]);
    hide Allowed;
    assert HostGood(q, q.hosts[h]);
  }

  lemma {:induction false} RunKeeps(p: Process, steps: seq<Step>, q: Process)
    requires Inv(p) && Run(p, steps, q)
    ensures Inv(q)
    decreases |steps|
  {
    hide Inv, Next;
    if steps != [] {
      StepKeeps(p, steps[0]);
      RunKeeps(Next(p, steps[0]), steps[1..], q);
    }
  }

  lemma StartGood()
    ensures Inv(Start())
  {
  }

  /**
   However hosts, peers and clicks interleave: epochs begin in strictly increasing order,
   each takes at most one decision, and a session is authorized only after its own request
   was published and an allow decision was then taken on its own epoch.
   */
  lemma ApprovalEpochs(steps: seq<Step>, q: Process)
    requires Run(Start(), steps, q)
    ensures forall i, j :: 0 <= i < j < |q.log| && q.log[i].Began? && q.log[j].Began? ==> q.log[i].epoch < q.log[j].epoch
    ensures forall i, j :: 0 <= i < j < |q.log| && q.log[i].Ruled? && q.log[j].Ruled? ==> q.log[i].epoch != q.log[j].epoch
    ensures forall k :: 0 <= k < |q.log| && q.log[k].Issued? ==> Allowed(q.log[..k], q.log[k].epoch, true)
  {
    hide *;
    StartGood();
    RunKeeps(Start(), steps, q);
    InvLog(q);
  }

  lemma InvLog(q: Process)
    requires Inv(q)
    ensures forall i, j :: 0 <= i < j < |q.log| && q.log[i].Began? && q.log[j].Began? ==> q.log[i].epoch < q.log[j].epoch
    ensures forall i, j :: 0 <= i < j < |q.log| && q.log[i].Ruled? && q.log[j].Ruled? ==> q.log[i].epoch != q.log[j].epoch
    ensures forall k :: 0 <= k < |q.log| && q.log[k].Issued? ==> Allowed(q.log[..k], q.log[k].epoch, true)
  {
  }

  /** An epoch that was authorized is never denied, before or after. */
  lemma DenialStands(steps: seq<Step>, q: Process, epoch: nat, h: nat, permissions: A.Permissions)
    requires Run(Start(), steps, q) && Issued(epoch, h, permissions) in q.log
    ensures Ruled(epoch, false) !in q.log
  {
    hide *;
    ApprovalEpochs(steps, q);
    var k :| 0 <= k < |q.log| && q.log[k] == Issued(epoch, h, permissions);
    AllowedAlone(q.log, k, epoch);
  }

  lemma AllowedAlone(log: seq<Entry>, k: nat, epoch: nat)
    requires forall i, j :: 0 <= i < j < |log| && log[i].Ruled? && log[j].Ruled? ==> log[i].epoch != log[j].epoch
    requires k <= |log| && Allowed(log[..k], epoch, true)
    ensures Ruled(epoch, false) !in log
  {
    var i, j :| 0 <= i < j < |log[..k]| && log[..k][i] == Published(epoch) && log[..k][j] == Ruled(epoch, true);
    assert log[j] == Ruled(epoch, true);
  }

  /**
   A decision lasts as long as its session: whatever is published again or clicked
   afterwards, the session that asks gets exactly the decision taken on its epoch.
   */
  lemma DecisionLasts(steps: seq<Step>, q: Process, h: nat, allow: bool)
    requires Run(Start(), steps, q) && h < |q.hosts| && q.hosts[h].session.Some?
    requires Ruled(q.hosts[h].session.value.epoch, allow) in q.log
    ensures var s := q.hosts[h].session.value;
      Check(q.hosts[h].grant, s.epoch, s.config.ceiling) == if allow then A.Approved(q.hosts[h].Armed()) else A.Denied
  {
    hide *;
    StartGood();
    RunKeeps(Start(), steps, q);
    DecisionKept(q, h, allow);
  }

  lemma DecisionKept(q: Process, h: nat, allow: bool)
    requires Inv(q) && h < |q.hosts| && q.hosts[h].session.Some?
    requires Ruled(q.hosts[h].session.value.epoch, allow) in q.log
    ensures var s := q.hosts[h].session.value;
      Check(q.hosts[h].grant, s.epoch, s.config.ceiling) == if allow then A.Approved(q.hosts[h].Armed()) else A.Denied
  {
    var x, s := q.hosts[h], q.hosts[h].session.value;
    assert HostGood(q, x);
    assert x.grant.decision != 0;
    assert x.grant.epoch == s.epoch;
    var i, j :| 0 <= i < j < |q.log| && q.log[i] == Published(s.epoch) && q.log[j] == Ruled(s.epoch, x.grant.decision == 1);
    var k :| 0 <= k < |q.log| && q.log[k] == Ruled(s.epoch, allow);
    assert j == k;
  }

  // ----- Which clicks count -----

  // A published request is the one its live session can be decided on.
  ghost predicate PublishedGood(p: Process) {
    && (forall i :: 0 <= i < |p.log| && p.log[i].Published? ==> p.log[i].epoch <= p.counter)
    && (forall h :: 0 <= h < |p.hosts| && p.hosts[h].session.Some? && WasPublished(p.log, p.hosts[h].session.value.epoch) ==>
          p.hosts[h].grant.epoch == p.hosts[h].session.value.epoch)
  }

  lemma PublishedKept(p: Process, step: Step)
    requires Inv(p) && PublishedGood(p) && Enabled(p, step)
    ensures PublishedGood(Next(p, step))
  {
    hide LogGood, A.Step, A.Run, LocalAnswers, EventBacked, Allowed, Undecided;
    var q := Next(p, step);
    if step.Publish? {
      var x := p.hosts[step.h];
      assert HostGood(p, x);
      assert forall e :: e in q.log ==> e in p.log || e == Published(x.session.value.epoch);
    } else if step.Begin? {
      assert forall e :: e in q.log ==> e in p.log || e == Began(q.counter);
    } else {
      assert forall e :: e in q.log && e.Published? ==> e in p.log;
    }
  }

  lemma {:induction false} RunPublished(p: Process, steps: seq<Step>, q: Process)
    requires Inv(p) && PublishedGood(p) && Run(p, steps, q)
    ensures PublishedGood(q)
    decreases |steps|
  {
    hide Inv, Next, PublishedGood;
    if steps != [] {
      StepKeeps(p, steps[0]);
      PublishedKept(p, steps[0]);
      RunPublished(Next(p, steps[0]), steps[1..], q);
    }
  }

  /**
   Exactly the clicks that count: on a host that is not cancelled, with the number of its live
   session's request, once that is published and while nobody has decided on it. No other click
   changes anything.
   */
  lemma ClickCounts(steps: seq<Step>, q: Process, h: nat, request: Option<nat>, allow: bool)
    requires Run(Start(), steps, q) && h < |q.hosts|
    ensures var x, t := q.hosts[h], Next(q, Approve(h, request, allow));
      if !x.cancelled && x.session.Some? && request == Some(x.session.value.epoch)
         && Published(x.session.value.epoch) in q.log && Undecided(q.log, x.session.value.epoch)
      then t.log == q.log + [Ruled(x.session.value.epoch, allow)] else t == q
  {
    StartGood();
    assert PublishedGood(Start());
    RunKeeps(Start(), steps, q);
    RunPublished(Start(), steps, q);
    hide Run, Start;
    ClickDecides(q, h, request, allow);
  }

  lemma ClickDecides(q: Process, h: nat, request: Option<nat>, allow: bool)
    requires Inv(q) && PublishedGood(q) && h < |q.hosts|
    ensures var x, t := q.hosts[h], Next(q, Approve(h, request, allow));
      if !x.cancelled && x.session.Some? && request == Some(x.session.value.epoch)
         && Published(x.session.value.epoch) in q.log && Undecided(q.log, x.session.value.epoch)
      then t.log == q.log + [Ruled(x.session.value.epoch, allow)] else t == q
  {
    hide LogGood, EventBacked;
    var x := q.hosts[h];
    assert HostGood(q, x);
    if x.session.Some? {
      AllowedDecides(q.log, x.session.value.epoch);
    }
  }

  lemma AllowedDecides(log: seq<Entry>, epoch: nat)
    ensures Undecided(log, epoch) ==> !Allowed(log, epoch, true) && !Allowed(log, epoch, false)
  {
  }

  /** A host that is cancelled stays so, and no click counts on it any more. */
  lemma {:induction false} CancelStops(p: Process, h: nat, steps: seq<Step>, q: Process, request: Option<nat>, allow: bool)
    requires Enabled(p, Cancel(h)) && Run(Next(p, Cancel(h)), steps, q)
    ensures h < |q.hosts| && q.hosts[h].cancelled && Next(q, Approve(h, request, allow)) == q
    decreases |steps|
  {
    StaysCancelled(Next(p, Cancel(h)), h, steps, q);
  }

  lemma {:induction false} StaysCancelled(p: Process, h: nat, steps: seq<Step>, q: Process)
    requires h < |p.hosts| && p.hosts[h].cancelled && Run(p, steps, q)
    ensures h < |q.hosts| && q.hosts[h].cancelled
    decreases |steps|
  {
    hide A.Step, A.Run;
    if steps != [] {
      StaysCancelled(Next(p, steps[0]), h, steps[1..], q);
    }
  }

  // ----- No request waits unseen -----

  ghost predicate Seen(log: seq<Entry>, s: Session) {
    && s.turns <= 64 && |s.events| <= s.turns
    && (A.Run(s.config, s.events).state == A.AwaitApproval ==> s.pending || WasPublished(log, s.epoch))
  }

  ghost predicate AllSeen(p: Process) {
    forall h :: 0 <= h < |p.hosts| && p.hosts[h].session.Some? ==> Seen(p.log, p.hosts[h].session.value)
  }

  // Under click-only policy a call that leaves the session waiting announces it, or changes nothing.
  lemma WaitingAnnounced(c: A.Config, a: A.Auth, e: A.AuthEvent)
    requires c.policy == A.ClickOnly
    ensures var (b, action) := A.Step(c, a, e);
      b.state == A.AwaitApproval ==> action.PendingApproval? || (b == a && action.Ignored?)
  {
  }

  lemma CallSeen(p: Process, h: nat, e: A.AuthEvent)
    requires Inv(p) && AllSeen(p) && Enabled(p, Call(h, e))
    ensures AllSeen(Next(p, Call(h, e)))
  {
    hide LogGood, EventBacked, Allowed, Undecided, LocalAnswers;
    var s := p.hosts[h].session.value;
    assert HostGood(p, p.hosts[h]);
    A.LastStep(s.config, s.events, e);
    WaitingAnnounced(s.config, A.Run(s.config, s.events), e);
    hide A.Step, A.Run, Inv, HostGood;
    var q := Next(p, Call(h, e));
    forall k | 0 <= k < |q.hosts| && q.hosts[k].session.Some?
      ensures Seen(q.log, q.hosts[k].session.value)
    {
      if k != h {
        assert Seen(p.log, p.hosts[k].session.value);
      } else {
        assert Seen(p.log, s);
      }
    }
  }

  lemma StepSeen(p: Process, step: Step)
    requires Inv(p) && AllSeen(p) && Enabled(p, step)
    ensures AllSeen(Next(p, step))
  {
    if step.Call? {
      CallSeen(p, step.h, step.e);
    } else {
      hide Inv, A.Step;
      var q := Next(p, step);
      assert forall e :: e in p.log ==> e in q.log;
      if step.Publish? {
        assert q.log[|p.log|] == Published(p.hosts[step.h].session.value.epoch);
      }
    }
  }

  lemma {:induction false} RunSeen(p: Process, steps: seq<Step>, q: Process)
    requires Inv(p) && AllSeen(p) && Run(p, steps, q)
    ensures AllSeen(q)
    decreases |steps|
  {
    hide Inv, Next, AllSeen;
    if steps != [] {
      StepKeeps(p, steps[0]);
      StepSeen(p, steps[0]);
      RunSeen(Next(p, steps[0]), steps[1..], q);
    }
  }

  /** A session that waits for an approval has its request published, or published next; and none gets more than 64 events. */
  lemma WaitingIsPublished(steps: seq<Step>, q: Process, h: nat)
    requires Run(Start(), steps, q) && h < |q.hosts| && q.hosts[h].session.Some?
    ensures var s := q.hosts[h].session.value;
      && |s.events| <= s.turns <= 64
      && (A.Run(s.config, s.events).state == A.AwaitApproval ==> s.pending || Published(s.epoch) in q.log)
      && (s.pending ==> forall e :: !Enabled(q, Call(h, e)))
  {
    StartGood();
    assert AllSeen(Start());
    hide Run, Start, Inv;
    RunSeen(Start(), steps, q);
  }

  // ----- A click never widens what the operator armed -----

  ghost predicate WithinPolicy(p: Process) {
    forall k :: 0 <= k < |p.log| ==> WithinArmed(p.hosts, p.log[k])
  }

  predicate WithinArmed(hosts: seq<HostState>, e: Entry) {
    e.Issued? ==> e.h < |hosts| && e.permissions.Within(hosts[e.h].Armed())
  }

  lemma ArmedKept(p: Process, step: Step)
    requires Enabled(p, step)
    ensures var q := Next(p, step);
      |p.hosts| <= |q.hosts| && forall h :: 0 <= h < |p.hosts| ==> q.hosts[h].Armed() == p.hosts[h].Armed()
  {
    hide A.Step, A.Run;
  }

  // A step adds at most one entry, and issues nothing beyond the host's policy.
  lemma EntryWithin(p: Process, step: Step)
    requires Inv(p) && Enabled(p, step)
    ensures var q := Next(p, step);
      || q.log == p.log
      || (|q.log| == |p.log| + 1 && q.log == p.log + [q.log[|p.log|]] && WithinArmed(p.hosts, q.log[|p.log|]))
  {
    hide A.Step, A.Run;
    if step.Call? {
      var s := p.hosts[step.h].session.value;
      assert HostGood(p, p.hosts[step.h]);
      if A.Step(s.config, A.Run(s.config, s.events), step.e).1.Authorize? {
        IssuedBacked(p, step.h, step.e);
      }
    }
    hide Inv;
  }

  lemma PolicyKept(p: Process, step: Step)
    requires Inv(p) && WithinPolicy(p) && Enabled(p, step)
    ensures WithinPolicy(Next(p, step))
  {
    hide Inv, Next, Enabled;
    ArmedKept(p, step);
    EntryWithin(p, step);
  }

  lemma {:induction false} RunPolicy(p: Process, steps: seq<Step>, q: Process)
    requires Inv(p) && WithinPolicy(p) && Run(p, steps, q)
    ensures WithinPolicy(q)
    decreases |steps|
  {
    hide Inv, Next, WithinPolicy;
    if steps != [] {
      StepKeeps(p, steps[0]);
      PolicyKept(p, steps[0]);
      RunPolicy(Next(p, steps[0]), steps[1..], q);
    }
  }

  /**
   Whatever a human allows: a session is never granted clipboard, audio or files, and the keyboard
   only on a host whose operator opted in and that has a sink for it.
   */
  lemma ClickNeverWidens(steps: seq<Step>, q: Process, k: nat)
    requires Run(Start(), steps, q) && k < |q.log| && q.log[k].Issued?
    ensures q.log[k].h < |q.hosts|
    ensures var p, x := q.log[k].permissions, q.hosts[q.log[k].h];
      !p.clipboard && !p.audio && !p.file && (p.keyboard ==> x.inputInjection && x.inputSink)
  {
    assert WithinPolicy(Start());
    hide Run, Start, Inv;
    StartGood();
    RunPolicy(Start(), steps, q);
  }

  /** And it is granted the keyboard there, unless the viewer disabled it: a session that asks after an allow decision is let in with it. */
  lemma AllowGrants(steps: seq<Step>, q: Process, h: nat, env: A.Answers)
    requires Run(Start(), steps, q) && h < |q.hosts| && q.hosts[h].session.Some?
    requires var s := q.hosts[h].session.value;
      && Ruled(s.epoch, true) in q.log && A.Run(s.config, s.events).state == A.AwaitApproval
      && LocalAnswers(s, q.hosts[h].grant, A.PollEvent(env))
    ensures var s, x := q.hosts[h].session.value, q.hosts[h];
      var events := s.events + [A.PollEvent(env)];
      var b := A.Run(s.config, events);
      && b.state == A.Authorized && b.request.Some?
      && (b.grant.keyboard <==>
            x.inputInjection && x.inputSink && !(b.request.value.options.Some? && b.request.value.options.value.disableKeyboard))
      && A.ActionAt(s.config, events, |s.events|) == A.Authorize(s.config.peerInfo, b.grant)
  {
    DecisionLasts(steps, q, h, true);
    StartGood();
    RunKeeps(Start(), steps, q);
    assert HostGood(q, q.hosts[h]);
    hide Run, Inv, HostGood;
    var s := q.hosts[h].session.value;
    A.ApprovalLetsIn(s.config, s.events, env, q.hosts[h].Armed());
    A.LastStep(s.config, s.events, A.PollEvent(env));
  }
}
