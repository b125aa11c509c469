/**
 Admission of video records in crates/rd-engine/src/viewer.rs: the receiving task takes
 a slot, then the record's bytes, from two semaphores and sends the record to the
 feeding task, which gives both back when the record has crossed the decoder. Either
 task may stop at any point; the steps of the two interleave freely.
 */
module VideoAdmission {

  const VIDEO_RECORDS: nat := 2
  const VIDEO_BYTES: nat := 32 * 1024 * 1024
  const MAX_UNITS_PER_RECORD: nat := 256

  type Unit = seq<int>

  type Record = seq<Unit>

  // What the receiver is doing with the record it holds.
  datatype Receiver = Idle | WantSlot(record: Record) | WantBytes(record: Record) | Sending(record: Record) | Stopped

  // A feeder that left its loop has given back its record and closes the decoder before it
  // drops the channel and with it the records still queued.
  datatype Feeder = Waiting | Feeding(record: Record, done: nat) | TearingDown | Gone

  // `wire` lists the units of every record accepted from the wire, `decoded` those
  // submitted to the decoder.
  datatype Pipe = Pipe(slots: nat, bytes: nat, receiver: Receiver, channel: seq<Record>, feeder: Feeder,
                       wire: seq<Unit>, decoded: seq<Unit>)

  datatype Step =
    | Arrive(record: Record)
    | AcquireSlot
    | AcquireBytes
    | Send
    | StopReceiver
    | Take
    | Submit
    | Finish
    | LeaveLoop
    | DropChannel

  function Length(record: Record): nat {
    if record == [] then 0 else |record[0]| + Length(record[1..])
  }

  function Lengths(records: seq<Record>): nat {
    if records == [] then 0 else Length(records[0]) + Lengths(records[1..])
  }

  function Units(records: seq<Record>): seq<Unit> {
    if records == [] then [] else records[0] + Units(records[1..])
  }

  function Start(): Pipe {
    Pipe(VIDEO_RECORDS, VIDEO_BYTES, Idle, [], Waiting, [], [])
  }

  predicate Enabled(p: Pipe, step: Step) {
    match step
    // Empty records are ignored; oversized ones and empty units end the session.
    case Arrive(record) =>
      p.receiver.Idle? && 0 < |record| <= MAX_UNITS_PER_RECORD && Length(record) <= VIDEO_BYTES && [] !in record
    case AcquireSlot => p.receiver.WantSlot? && p.slots >= 1
    case AcquireBytes => p.receiver.WantBytes? && p.bytes >= Length(p.receiver.record)
    case Send => p.receiver.Sending? && (p.feeder.Gone? || |p.channel| < VIDEO_RECORDS)
    case StopReceiver => !p.receiver.Stopped?
    case Take => p.feeder.Waiting? && p.channel != []
    case Submit => p.feeder.Feeding? && p.feeder.done < |p.feeder.record|
    case Finish => p.feeder.Feeding? && p.feeder.done == |p.feeder.record|
    case LeaveLoop => p.feeder.Waiting? || p.feeder.Feeding?
    case DropChannel => p.feeder.TearingDown?
  }

  function Next(p: Pipe, step: Step): Pipe
    requires Enabled(p, step)
  {
    match step
    case Arrive(record) => p.(receiver := WantSlot(record), wire := p.wire + record)
    case AcquireSlot => p.(slots := p.slots - 1, receiver := WantBytes(p.receiver.record))
    case AcquireBytes => p.(bytes := p.bytes - Length(p.receiver.record), receiver := Sending(p.receiver.record))
    case Send =>
      // A send to a feeder that is gone fails, and the record's permits go back.
      if p.feeder.Gone? then Release(p, p.receiver.record).(receiver := Stopped)
      else p.(channel := p.channel + [p.receiver.record], receiver := Idle)
    case StopReceiver =>
      (match p.receiver
       case WantBytes(_) => p.(slots := p.slots + 1, receiver := Stopped)
       case Sending(record) => Release(p, record).(receiver := Stopped)
       case _ => p.(receiver := Stopped))
    case Take => p.(channel := p.channel[1..], feeder := Feeding(p.channel[0], 0))
    case Submit => p.(feeder := p.feeder.(done := p.feeder.done + 1), decoded := p.decoded + [p.feeder.record[p.feeder.done]])
    case Finish => Release(p, p.feeder.record).(feeder := Waiting)
    case LeaveLoop =>
      (if p.feeder.Feeding? then Release(p, p.feeder.record) else p).(feeder := TearingDown)
    case DropChannel =>
      p.(slots := p.slots + |p.channel|, bytes := p.bytes + Lengths(p.channel), channel := [], feeder := Gone)
  }

  function Release(p: Pipe, record: Record): Pipe {
    p.(slots := p.slots + 1, bytes := p.bytes + Length(record))
  }

  // ----- What the permits account for -----

  function HeldSlots(p: Pipe): nat {
    |p.channel| + (if p.receiver.WantBytes? || p.receiver.Sending? then 1 else 0) + (if p.feeder.Feeding? then 1 else 0)
  }

  function HeldBytes(p: Pipe): nat {
    Lengths(p.channel) + (if p.receiver.Sending? then Length(p.receiver.record) else 0)
    + (if p.feeder.Feeding? then Length(p.feeder.record) else 0)
  }

  // Units the feeder will still submit, and those the receiver has not handed over.
  function Ahead(p: Pipe): seq<Unit> {
    (if p.feeder.Feeding? && p.feeder.done <= |p.feeder.record| then p.feeder.record[p.feeder.done..] else []) + Units(p.channel)
  }

  function Pending(p: Pipe): seq<Unit> {
    if p.receiver.WantSlot? || p.receiver.WantBytes? || p.receiver.Sending? then p.receiver.record else []
  }

  // The feeder is in its loop.
  predicate Running(p: Pipe) {
    p.feeder.Waiting? || p.feeder.Feeding?
  }

  ghost predicate Inv(p: Pipe) {
    && p.slots + HeldSlots(p) == VIDEO_RECORDS
    && p.bytes + HeldBytes(p) == VIDEO_BYTES
    && (p.feeder.Feeding? ==> p.feeder.done <= |p.feeder.record|)
    && (Pending(p) != [] ==> Length(Pending(p)) <= VIDEO_BYTES)
    && p.decoded <= p.wire
    && (Running(p) ==> p.decoded + Ahead(p) + Pending(p) <= p.wire)
    && (Running(p) && !p.receiver.Stopped? ==> p.decoded + Ahead(p) + Pending(p) == p.wire)
  }

  lemma {:induction false} AppendRecord(records: seq<Record>, record: Record)
    ensures Lengths(records + [record]) == Lengths(records) + Length(record)
    ensures Units(records + [record]) == Units(records) + record
  {
    if records == [] {
      assert records + [record] == [record];
      assert [record][1..] == [];
    } else {
      assert (records + [record])[0] == records[0] && (records + [record])[1..] == records[1..] + [record];
      AppendRecord(records[1..], record);
      assert Units(records + [record]) == records[0] + (Units(records[1..]) + record);
    }
  }

  lemma StepPermits(p: Pipe, step: Step)
    requires Inv(p) && Enabled(p, step)
    ensures var q := Next(p, step);
      && q.slots + HeldSlots(q) == VIDEO_RECORDS && q.bytes + HeldBytes(q) == VIDEO_BYTES
      && (q.feeder.Feeding? ==> q.feeder.done <= |q.feeder.record|)
      && (Pending(q) != [] ==> Length(Pending(q)) <= VIDEO_BYTES)
  {
    hide Units, Ahead;
    if step.Send? {
      AppendRecord(p.channel, p.receiver.record);
    }
  }

  lemma StepOrder(p: Pipe, step: Step)
    requires Inv(p) && Enabled(p, step)
    ensures var q := Next(p, step);
      && q.decoded <= q.wire
      && (Running(q) ==> q.decoded + Ahead(q) + Pending(q) <= q.wire)
      && (Running(q) && !q.receiver.Stopped? ==> q.decoded + Ahead(q) + Pending(q) == q.wire)
  {
    hide Length, Lengths;
    var q := Next(p, step);
    match step {
      case Arrive(record) =>
        Longer(p.decoded + Ahead(p), Pending(p), record, p.wire);
      case Send =>
        if Running(p) {
          SendKeepsAhead(p);
        }
      case StopReceiver =>
        Shorter(p.decoded + Ahead(p), Pending(p), p.wire);
      case Take =>
        assert Ahead(q) == Ahead(p);
      case Submit =>
        SubmitMoves(p);
        Shorter(q.decoded, Ahead(q) + Pending(q), p.wire);
        Regroup(q.decoded, Ahead(q), Pending(q));
      case Finish =>
        assert Ahead(q) == Ahead(p);
      case _ =>
    }
  }

  lemma SendKeepsAhead(p: Pipe)
    requires Inv(p) && Enabled(p, Send) && Running(p)
    ensures var q := Next(p, Send); q.decoded + Ahead(q) + Pending(q) == p.decoded + Ahead(p) + Pending(p)
  {
    hide Length, Lengths;
    AppendRecord(p.channel, p.receiver.record);
    hide Units;
    Regroup(p.decoded, Ahead(p), p.receiver.record);
  }

  lemma Regroup(a: seq<Unit>, b: seq<Unit>, c: seq<Unit>)
    ensures a + b + c == a + (b + c) && b + c + [] == b + c
  {
  }

  lemma Shorter(a: seq<Unit>, b: seq<Unit>, w: seq<Unit>)
    ensures a + b <= w ==> a <= w && a + [] <= w
  {
    assert a + [] == a;
    if a + b <= w {
      assert a == (a + b)[..|a|] == w[..|a|];
    }
  }

  lemma Longer(a: seq<Unit>, b: seq<Unit>, r: seq<Unit>, w: seq<Unit>)
    ensures b == [] && a + b <= w ==> a <= w
    ensures b == [] && a + b == w ==> a + r == w + r
  {
  }

  lemma SubmitMoves(p: Pipe)
    requires Enabled(p, Submit)
    ensures Next(p, Submit).decoded + Ahead(Next(p, Submit)) == p.decoded + Ahead(p)
  {
    hide Inv, Length, Lengths, Units;
    MoveOne(p.decoded, p.feeder.record, p.feeder.done, Units(p.channel));
  }

  lemma MoveOne(decoded: seq<Unit>, record: Record, done: nat, rest: seq<Unit>)
    requires done < |record|
    ensures decoded + [record[done]] + (record[done + 1..] + rest) == decoded + (record[done..] + rest)
  {
    hide *;
    assert record[done..] == [record[done]] + record[done + 1..];
  }

  ghost predicate Run(p: Pipe, steps: seq<Step>, q: Pipe)
    decreases |steps|
  {
    if steps == [] then q == p else Enabled(p, steps[0]) && Run(Next(p, steps[0]), steps[1..], q)
  }

  lemma {:induction false} RunInv(p: Pipe, steps: seq<Step>, q: Pipe)
    requires Inv(p) && Run(p, steps, q)
    ensures Inv(q)
    decreases |steps|
  {
    hide HeldSlots, HeldBytes, Ahead, Pending;
    if steps != [] {
      StepPermits(p, steps[0]);
      StepOrder(p, steps[0]);
      RunInv(Next(p, steps[0]), steps[1..], q);
    }
  }

  lemma StartInv()
    ensures Inv(Start()) && Start().channel == []
  {
  }

  // A record that holds both permits finds room in the channel.
  lemma SendNeverWaits(p: Pipe)
    requires Inv(p) && p.receiver.Sending?
    ensures Enabled(p, Send)
  {
  }

  /**
   In every run: what is free plus what is held never changes, so at most 2 records and
   32 MiB are admitted; the decoder sees the wire's units in order, with none missing
   among those submitted; and a record with its permits never waits for the channel.
   */
  lemma {:induction false} BoundedOrderedAdmission(steps: seq<Step>, q: Pipe)
    requires Run(Start(), steps, q)
    ensures q.slots + HeldSlots(q) == VIDEO_RECORDS && q.bytes + HeldBytes(q) == VIDEO_BYTES
    ensures q.decoded <= q.wire
    ensures Running(q) && !q.receiver.Stopped? ==> q.decoded + Ahead(q) + Pending(q) == q.wire
    ensures q.receiver.Sending? ==> Enabled(q, Send)
  {
    StartInv();
    hide Start, Run, HeldSlots, HeldBytes, Ahead, Pending, Enabled;
    RunInv(Start(), steps, q);
    if q.receiver.Sending? {
      SendNeverWaits(q);
    }
  }

  predicate Blocked(p: Pipe) {
    (p.receiver.WantSlot? && !Enabled(p, AcquireSlot)) || (p.receiver.WantBytes? && !Enabled(p, AcquireBytes))
  }

  // What the feeder alone still has to do.
  function FeederWork(p: Pipe): nat {
    Work(p.channel)
    + (if p.feeder.Feeding? && p.feeder.done <= |p.feeder.record| then 1 + |p.feeder.record| - p.feeder.done else 0)
    + (if p.feeder.TearingDown? then 1 else 0)
  }

  function Work(records: seq<Record>): nat {
    if records == [] then 0 else 2 + |records[0]| + Work(records[1..])
  }

  // The feeder's next step, if it has one.
  function FeederStep(p: Pipe): Step {
    match p.feeder
    case TearingDown => DropChannel
    case Waiting => Take
    case Feeding(record, done) => if done < |record| then Submit else Finish
    case Gone => Finish
  }

  lemma EmptyHoldsNothing(records: seq<Record>)
    ensures Lengths(records) > 0 ==> records != []
  {
  }

  lemma {:induction false} Admitted(p: Pipe)
    requires Inv(p) && Blocked(p)
    ensures p.feeder.Feeding? || p.channel != []
  {
    EmptyHoldsNothing(p.channel);
  }

  lemma {:induction false} GoneKeepsNothing(p: Pipe, steps: seq<Step>, q: Pipe)
    requires (p.feeder.Gone? ==> p.channel == []) && Run(p, steps, q)
    ensures q.feeder.Gone? ==> q.channel == []
    decreases |steps|
  {
    if steps != [] {
      GoneKeepsNothing(Next(p, steps[0]), steps[1..], q);
    }
  }

  /** A receiver blocked on permits means an admitted record, and a step of the feeder that brings its end, or that of the channel, nearer. */
  lemma {:induction false} BlockedMeansFeeding(steps: seq<Step>, q: Pipe)
    requires Run(Start(), steps, q) && Blocked(q)
    ensures q.feeder.Feeding? || q.channel != []
    ensures Enabled(q, FeederStep(q)) && FeederStep(q) in {Take, Submit, Finish, DropChannel}
    ensures FeederWork(Next(q, FeederStep(q))) < FeederWork(q)
  {
    hide *;
    Reachable(steps, q);
    BlockedFeeds(q);
  }

  lemma {:induction false} Reachable(steps: seq<Step>, q: Pipe)
    requires Run(Start(), steps, q)
    ensures Inv(q) && (q.feeder.Gone? ==> q.channel == [])
  {
    hide *;
    StartInv();
    RunInv(Start(), steps, q);
    GoneKeepsNothing(Start(), steps, q);
  }

  lemma BlockedFeeds(q: Pipe)
    requires Inv(q) && (q.feeder.Gone? ==> q.channel == []) && Blocked(q)
    ensures q.feeder.Feeding? || q.channel != []
    ensures Enabled(q, FeederStep(q)) && FeederStep(q) in {Take, Submit, Finish, DropChannel}
    ensures FeederWork(Next(q, FeederStep(q))) < FeederWork(q)
  {
    Admitted(q);
    if Running(q) {
      hide Inv, Blocked, Next, Enabled, FeederWork;
      FeederStepKeeps(q);
    }
  }

  /** Without another arrival the feeder's steps alone end with every permit of the channel and the feeder free. */
  lemma {:induction false} FeederDrains(p: Pipe) returns (steps: seq<Step>, q: Pipe)
    requires Inv(p) && Running(p)
    ensures Run(p, steps, q) && Inv(q) && q.receiver == p.receiver
    ensures q.channel == [] && q.feeder.Waiting? && q.decoded == p.decoded + Ahead(p) && !Blocked(q)
    decreases FeederWork(p)
  {
    if p.channel == [] && p.feeder.Waiting? {
      steps, q := [], p;
      assert Ahead(p) == [];
    } else {
      var step := FeederStep(p);
      StepPermits(p, step);
      StepOrder(p, step);
      var r := Next(p, step);
      FeederStepKeeps(p);
      var rest: seq<Step>;
      rest, q := FeederDrains(r);
      steps := [step] + rest;
      assert steps[1..] == rest;
    }
  }

  lemma FeederStepKeeps(p: Pipe)
    requires Inv(p) && Running(p) && (p.channel != [] || p.feeder.Feeding?)
    ensures Enabled(p, FeederStep(p))
    ensures var r := Next(p, FeederStep(p));
      FeederWork(r) < FeederWork(p) && Running(r) && r.receiver == p.receiver && r.decoded + Ahead(r) == p.decoded + Ahead(p)
  {
    hide Length, Lengths;
    if p.feeder.Feeding? && p.feeder.done < |p.feeder.record| {
      SubmitMoves(p);
    }
  }
}
