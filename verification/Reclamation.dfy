/**
 Who owns the native decoders of crates/rd-engine/src/viewer.rs, and what `close` may
 say about it. The decoder library is a sequence of answers; each answer also says,
 for the proof alone, whether the native object is really gone.
 */
module Reclamation {
  import opened Wrappers

  datatype DecoderError = DestroyFailed | WorkerPanicked | OtherDecoderError(code: int)

  datatype ViewerError = Decoder(error: DecoderError) | ReclamationUnconfirmed | TaskFailed | TimestampOverflow | OtherError

  type Done = Result<(), ViewerError>

  datatype Stats = Stats(closed: bool, quarantined: bool)

  datatype CloseAnswer = CloseAnswer(joined: bool, error: Option<DecoderError>, stats: Option<Stats>, ghost destroyed: bool)

  datatype OpenAnswer = Opened | Refused(error: DecoderError, ghost left: bool) | OpenPanicked

  datatype UnitAnswer = Submitted | CancelledFirst | Overflow | Rejected(reason: DecoderError, cancelled: bool) | UnitPanics

  // One turn of the feeding loop: how the wait ended, and the answers it then gets.
  datatype Event =
    | Cancelled
    | StoppedByItself(error: Option<DecoderError>)
    | ChannelClosed
    | Video(contract: int, close: CloseAnswer, cancelled: bool, open: OpenAnswer, units: seq<UnitAnswer>)
    | LoopPanics

  datatype LoopEnd = Returned(result: Done) | Unwound

  predicate Confirms(a: CloseAnswer) {
    a.stats.Some? && a.stats.value.closed && !a.stats.value.quarantined
  }

  function CloseResult(a: CloseAnswer): Done {
    if !a.joined then Err(TaskFailed) else if a.error.Some? then Err(Decoder(a.error.value)) else Ok(())
  }

  predicate Unproven(e: DecoderError) {
    e == DestroyFailed || e == WorkerPanicked
  }

  // `alive` are the native decoders that exist; `doubt` the attempts whose end nothing has confirmed.
  datatype Owner = Owner(unconfirmed: bool, current: Option<nat>, next: nat, alive: set<nat>, doubt: set<nat>)

  const Fresh: Owner := Owner(false, None, 0, {}, {})

  ghost function CloseCurrent(o: Owner, a: CloseAnswer): (Owner, Done) {
    if o.current.None? then (o, Ok(()))
    else
      var d := {o.current.value};
      (o.(current := None, unconfirmed := o.unconfirmed && !Confirms(a),
          alive := if a.destroyed then o.alive - d else o.alive, doubt := if Confirms(a) then o.doubt - d else o.doubt),
       CloseResult(a))
  }

  ghost function OpenNext(o: Owner, a: OpenAnswer): (Owner, Done) {
    var tried := o.(next := o.next + 1, unconfirmed := true, doubt := o.doubt + {o.next});
    match a
    case Opened => (tried.(current := Some(o.next), alive := o.alive + {o.next}), Ok(()))
    case Refused(e, left) =>
      (tried.(unconfirmed := Unproven(e), alive := if left then o.alive + {o.next} else o.alive,
              doubt := if Unproven(e) then tried.doubt else o.doubt), Err(Decoder(e)))
    case OpenPanicked => (tried.(alive := o.alive + {o.next}), Err(TaskFailed))
  }

  // None when all units of the record were submitted.
  function SubmitAll(units: seq<UnitAnswer>): Option<LoopEnd> {
    if units == [] then None
    else
      match units[0]
      case Submitted => SubmitAll(units[1..])
      case CancelledFirst => Some(Returned(Ok(())))
      case Overflow => Some(Returned(Err(TimestampOverflow)))
      case Rejected(reason, cancelled) => Some(Returned(if cancelled then Ok(()) else Err(Decoder(reason))))
      case UnitPanics => Some(Unwound)
  }

  // A turn that gets a record: the owner, the contract now decoded, and the end of the loop if this is it.
  ghost function Turn(o: Owner, contract: Option<int>, e: Event): (Owner, Option<int>, Option<LoopEnd>)
    requires e.Video?
  {
    if contract == Some(e.contract) then (o, contract, SubmitAll(e.units))
    else
      var (p, closed) := CloseCurrent(o, e.close);
      if closed.Err? then (p, contract, Some(Returned(closed)))
      else if e.cancelled then (p, contract, Some(Returned(Ok(()))))
      else
        var (q, ready) := OpenNext(p, e.open);
        if ready.Err? then (q, contract, Some(Returned(ready)))
        else (q, Some(e.contract), SubmitAll(e.units))
  }

  ghost function Loop(o: Owner, contract: Option<int>, events: seq<Event>): (Owner, LoopEnd)
    decreases |events|
  {
    if events == [] then (o, Returned(Ok(())))
    else
      match events[0]
      case Cancelled => (o, Returned(Ok(())))
      case ChannelClosed => (o, Returned(Ok(())))
      case StoppedByItself(error) => (o, Returned(Err(Decoder(if error.Some? then error.value else OtherDecoderError(0)))))
      case LoopPanics => (o, Unwound)
      case Video(_, _, _, _, _) =>
        var (p, next, end) := Turn(o, contract, events[0]);
        if end.Some? then (p, end.value) else Loop(p, next, events[1..])
  }

  // The feeding task: an unwinding task drops its decoder without any confirmation.
  ghost function FeedTask(o: Owner, events: seq<Event>, last: CloseAnswer): (Owner, Done) {
    var (p, end) := Loop(o, None, events);
    match end
    case Unwound => (p.(current := None), Err(TaskFailed))
    case Returned(result) =>
      var (q, teardown) := CloseCurrent(p, last);
      (q, if teardown.Err? then teardown else result)
  }

  // The result of the session: the first to end, unless a later task fails where it did not,
  // or fails to destroy the decoder.
  function Join(first: Done, rest: seq<Done>): Done
    decreases |rest|
  {
    if rest == [] then first
    else Join(if rest[0].Err? && (first.Ok? || rest[0] == Err(Decoder(DestroyFailed))) then rest[0] else first, rest[1..])
  }

  function Reclamation(unconfirmed: bool, result: Done): Done {
    if !unconfirmed then Ok(())
    else if result == Err(Decoder(DestroyFailed)) then result
    else Err(ReclamationUnconfirmed)
  }

  // ----- The viewer, with its state in place -----

  class Viewer {
    var unconfirmed: bool
    var current: Option<nat>
    var next: nat
    ghost var alive: set<nat>
    ghost var doubt: set<nat>
    var result: Option<Done>

    ghost function State(): Owner
      reads this
    {
      Owner(unconfirmed, current, next, alive, doubt)
    }

    constructor ()
      ensures State() == Fresh && result == None
    {
      unconfirmed, current, next, alive, doubt, result := false, None, 0, {}, {}, None;
    }

    method CloseDecoder(a: CloseAnswer) returns (r: Done)
      modifies this`unconfirmed, this`current, this`alive, this`doubt
      ensures (State(), r) == CloseCurrent(old(State()), a)
    {
      if current.None? {
        return Ok(());
      }
      ghost var d := {current.value};
      current := None;
      if a.destroyed {
        alive := alive - d;
      }
      if a.stats.Some? && a.stats.value.closed && !a.stats.value.quarantined {
        unconfirmed := false;
        doubt := doubt - d;
      }
      r := CloseResult(a);
    }

    method OpenDecoder(a: OpenAnswer) returns (r: Done)
      modifies this`unconfirmed, this`current, this`next, this`alive, this`doubt
      ensures (State(), r) == OpenNext(old(State()), a)
    {
      ghost var before := doubt;
      unconfirmed := true;
      doubt := doubt + {next};
      next := next + 1;
      match a {
        case OpenPanicked =>
          alive := alive + {next - 1};
          return Err(TaskFailed);
        case Refused(error, left) =>
          if left {
            alive := alive + {next - 1};
          }
          if !Unproven(error) {
            unconfirmed := false;
            doubt := before;
          }
          return Err(Decoder(error));
        case Opened =>
          alive := alive + {next - 1};
          current := Some(next - 1);
          return Ok(());
      }
    }

    method SubmitUnits(units: seq<UnitAnswer>) returns (end: Option<LoopEnd>)
      ensures end == SubmitAll(units)
    {
      for i := 0 to |units|
        invariant SubmitAll(units) == SubmitAll(units[i..])
      {
        assert units[i..][1..] == units[i + 1..];
        match units[i] {
          case Submitted =>
          case CancelledFirst => return Some(Returned(Ok(())));
          case Overflow => return Some(Returned(Err(TimestampOverflow)));
          case Rejected(reason, cancelled) => return Some(Returned(if cancelled then Ok(()) else Err(Decoder(reason))));
          case UnitPanics => return Some(Unwound);
        }
      }
      end := None;
    }

    method FeedLoop(events: seq<Event>) returns (end: LoopEnd)
      modifies this`unconfirmed, this`current, this`next, this`alive, this`doubt
      ensures (State(), end) == Loop(old(State()), None, events)
    {
      hide CloseCurrent, OpenNext, SubmitAll;
      var contract: Option<int> := None;
      for i := 0 to |events|
        invariant Loop(old(State()), None, events) == Loop(State(), contract, events[i..])
      {
        assert events[i..][1..] == events[i + 1..];
        match events[i] {
          case Cancelled => return Returned(Ok(()));
          case ChannelClosed => return Returned(Ok(()));
          case StoppedByItself(error) =>
            return Returned(Err(Decoder(if error.Some? then error.value else OtherDecoderError(0))));
          case LoopPanics => return Unwound;
          case Video(wanted, close, cancelled, open, units) =>
            if contract != Some(wanted) {
              var closed := CloseDecoder(close);
              if closed.Err? {
                return Returned(closed);
              }
              if cancelled {
                return Returned(Ok(()));
              }
              var ready := OpenDecoder(open);
              if ready.Err? {
                return Returned(ready);
              }
              contract := Some(wanted);
            }
            var over := SubmitUnits(units);
            if over.Some? {
              return over.value;
            }
        }
      }
      end := Returned(Ok(()));
    }

    method Feed(events: seq<Event>, last: CloseAnswer) returns (r: Done)
      modifies this`unconfirmed, this`current, this`next, this`alive, this`doubt
      ensures (State(), r) == FeedTask(old(State()), events, last)
    {
      hide CloseCurrent, Loop;
      var end := FeedLoop(events);
      match end {
        case Unwound =>
          current := None;
          r := Err(TaskFailed);
        case Returned(outcome) =>
          var teardown := CloseDecoder(last);
          r := if teardown.Err? then teardown else outcome;
      }
    }

    method JoinTasks(first: Done, rest: seq<Done>) returns (r: Done)
      ensures r == Join(first, rest)
    {
      r := first;
      for i := 0 to |rest|
        invariant Join(first, rest) == Join(r, rest[i..])
      {
        assert rest[i..][1..] == rest[i + 1..];
        if rest[i].Err? && (r.Ok? || rest[i] == Err(Decoder(DestroyFailed))) {
          r := rest[i];
        }
      }
    }

    // The last reference to the surface is dropped, then the session reports its end.
    method FinishCall(outcome: Done, leaseReleased: bool)
      modifies this`unconfirmed, this`result
      ensures unconfirmed == (old(unconfirmed) || !leaseReleased)
      ensures result == Some(Reclamation(unconfirmed, if !leaseReleased && outcome.Ok? then Err(TaskFailed) else outcome))
    {
      var r := outcome;
      if !leaseReleased {
        unconfirmed := true;
        if r.Ok? {
          r := Err(TaskFailed);
        }
      }
      result := Some(Reclamation(unconfirmed, r));
    }
  }

  // ----- What close may promise -----

  // close returning Ok means closed and not quarantined, and that report is the truth.
  ghost predicate HonestClose(a: CloseAnswer) {
    (a.joined && a.error.None? ==> Confirms(a)) && (Confirms(a) ==> a.destroyed)
  }

  ghost predicate HonestOpen(a: OpenAnswer) {
    a.Refused? && a.error !in {DestroyFailed, WorkerPanicked} ==> !a.left
  }

  ghost predicate HonestEvents(events: seq<Event>) {
    forall i :: 0 <= i < |events| && events[i].Video? ==> HonestClose(events[i].close) && HonestOpen(events[i].open)
  }

  // The flag is up exactly while something is in doubt, and nothing lives that is not.
  ghost predicate Accounted(o: Owner) {
    && (o.unconfirmed <==> o.doubt != {})
    && o.alive <= o.doubt
    && (forall d :: d in o.doubt ==> d < o.next)
    && (o.current.Some? ==> o.doubt == {o.current.value})
  }

  lemma CloseAccounted(o: Owner, a: CloseAnswer)
    requires Accounted(o) && HonestClose(a)
    ensures var (p, r) := CloseCurrent(o, a);
      Accounted(p) && p.current.None? && (r.Ok? && o.current.Some? ==> p.doubt == {})
  {
  }

  lemma OpenAccounted(o: Owner, a: OpenAnswer)
    requires Accounted(o) && o.current.None? && o.doubt == {} && HonestOpen(a)
    ensures var (p, r) := OpenNext(o, a); Accounted(p) && (p.current.Some? <==> r.Ok?)
  {
  }

  // While the loop runs, only the decoder in use is in doubt.
  lemma {:induction false} LoopAccounted(o: Owner, contract: Option<int>, events: seq<Event>)
    requires Accounted(o) && (o.current.None? ==> o.doubt == {}) && HonestEvents(events)
    ensures Accounted(Loop(o, contract, events).0)
    decreases |events|
  {
    hide CloseCurrent, OpenNext, SubmitAll, Accounted;
    if events != [] && events[0].Video? {
      var e := events[0];
      CloseAccounted(o, e.close);
      var (p, closed) := CloseCurrent(o, e.close);
      var (q, next, end) := Turn(o, contract, e);
      if contract != Some(e.contract) && closed.Ok? && !e.cancelled {
        CloseIdle(o, e.close);
        OpenAccounted(p, e.open);
        assert end.None? ==> q == OpenNext(p, e.open).0 && q.current.Some?;
      }
      if end.None? {
        assert HonestEvents(events[1..]);
        LoopAccounted(q, next, events[1..]);
      }
    }
  }

  lemma CloseIdle(o: Owner, a: CloseAnswer)
    ensures o.current.None? ==> CloseCurrent(o, a) == (o, Ok(()))
  {
  }

  lemma TaskAccounted(events: seq<Event>, last: CloseAnswer)
    requires HonestEvents(events) && HonestClose(last)
    ensures Accounted(FeedTask(Fresh, events, last).0)
  {
    LoopAccounted(Fresh, None, events);
    hide Loop;
    CloseAccounted(Loop(Fresh, None, events).0, last);
  }

  /**
   Whatever the events, close returns Ok exactly when no attempt to open a decoder is left
   in doubt and the surface was released; and then every decoder opened was destroyed.
   */
  lemma ReclamationSound(events: seq<Event>, last: CloseAnswer, outcome: Done, leaseReleased: bool)
    requires HonestEvents(events) && HonestClose(last)
    ensures var o := FeedTask(Fresh, events, last).0;
      && (Reclamation(o.unconfirmed || !leaseReleased, outcome).Ok? <==> o.doubt == {} && leaseReleased)
      && (Reclamation(o.unconfirmed || !leaseReleased, outcome).Ok? ==> o.alive == {})
  {
    hide FeedTask;
    TaskAccounted(events, last);
  }

  /** A close that returns Ok without proof lets the next decoder clear the flag while the first still lives. */
  lemma ContractNeeded()
    ensures var silent := CloseAnswer(true, None, None, false);
      var clean := CloseAnswer(true, None, Some(Stats(true, false)), true);
      var o := FeedTask(Fresh, [Video(0, clean, false, Opened, []), Video(1, silent, false, Opened, [])], clean).0;
      o.alive == {0} && Reclamation(o.unconfirmed, Ok(())).Ok?
  {
    var silent := CloseAnswer(true, None, None, false);
    var clean := CloseAnswer(true, None, Some(Stats(true, false)), true);
    var first, second := Video(0, clean, false, Opened, []), Video(1, silent, false, Opened, []);
    var events := [first, second];
    var one := Owner(true, Some(0), 1, {0}, {0});
    var two := Owner(true, Some(1), 2, {0, 1}, {0, 1});
    assert {} + {0 as nat} == {0 as nat} && {0 as nat} + {1 as nat} == {0 as nat, 1 as nat};
    assert CloseCurrent(one, silent) == (one.(current := None), Ok(()));
    assert OpenNext(Fresh, Opened) == (one, Ok(()));
    assert OpenNext(one.(current := None), Opened) == (two, Ok(()));
    assert Turn(Fresh, None, first) == (one, Some(0), None);
    assert Turn(one, Some(0), second) == (two, Some(1), None);
    assert events[1..] == [second] && [second][1..] == [];
    assert Loop(two, Some(1), []) == (two, Returned(Ok(())));
    assert Loop(one, Some(0), events[1..]) == (two, Returned(Ok(())));
    assert Loop(Fresh, None, events) == (two, Returned(Ok(())));
    assert CloseCurrent(two, clean).0.alive == {0};
  }

  // ----- A failure to destroy is never lost -----

  lemma {:induction false} JoinKeeps(first: Done, rest: seq<Done>)
    ensures first == Err(Decoder(DestroyFailed)) || Err(Decoder(DestroyFailed)) in rest <==> Join(first, rest) == Err(Decoder(DestroyFailed))
    ensures Join(first, rest).Ok? <==> first.Ok? && forall r :: r in rest ==> r.Ok?
    decreases |rest|
  {
    if rest != [] {
      JoinKeeps(if rest[0].Err? && (first.Ok? || rest[0] == Err(Decoder(DestroyFailed))) then rest[0] else first, rest[1..]);
      assert rest == [rest[0]] + rest[1..];
    }
  }

  /** A decoder that could not be destroyed is what close reports, in whatever order the tasks end. */
  lemma DestroyFailureReported(events: seq<Event>, last: CloseAnswer, first: Done, rest: seq<Done>, leaseReleased: bool)
    requires HonestEvents(events) && HonestClose(last)
    requires var (o, r) := FeedTask(Fresh, events, last);
      r == Err(Decoder(DestroyFailed)) && o.doubt != {} && (first == r || r in rest)
    ensures var o := FeedTask(Fresh, events, last).0;
      Reclamation(o.unconfirmed || !leaseReleased, Join(first, rest)) == Err(Decoder(DestroyFailed))
  {
    hide FeedTask;
    TaskAccounted(events, last);
    JoinKeeps(first, rest);
  }

  // ----- From the decoder's answers -----

  // Closing joined, but the decoder could not be destroyed.
  predicate CloseFails(a: CloseAnswer) {
    a.joined && a.error == Some(DestroyFailed) && !Confirms(a)
  }

  // Submitting these units, or getting this record while its contract is in use, goes on to the next record.
  predicate GoesOn(units: seq<UnitAnswer>) {
    forall i :: 0 <= i < |units| ==> units[i].Submitted?
  }

  // A record that opens a decoder and is submitted whole.
  predicate Opens(e: Event) {
    e.Video? && (e.close.joined && e.close.error.None?) && !e.cancelled && e.open.Opened? && GoesOn(e.units)
  }

  // A sequence of records that the loop gets through, ending with a decoder for `contract` in use.
  ghost predicate Decodes(events: seq<Event>, contract: int)
    decreases |events|
  {
    events != [] &&
    var n := |events| - 1;
    var e := events[n];
    && e.Video? && e.contract == contract
    && (if n == 0 then Opens(e)
        else exists before :: Decodes(events[..n], before) && (if before == contract then GoesOn(e.units) else Opens(e)))
  }

  lemma {:induction false} SubmitsAll(units: seq<UnitAnswer>)
    ensures SubmitAll(units).None? <==> GoesOn(units)
    decreases |units|
  {
    if units != [] && units[0].Submitted? {
      SubmitsAll(units[1..]);
      assert units == [units[0]] + units[1..];
    }
  }

  // Running the loop over such records and then some leaves exactly that decoder to the rest.
  lemma {:induction false} LoopDecodes(events: seq<Event>, contract: int, rest: seq<Event>) returns (o: Owner)
    requires Decodes(events, contract)
    ensures o.current.Some? && o.unconfirmed && Loop(Fresh, None, events + rest) == Loop(o, Some(contract), rest)
    decreases |events|
  {
    var n := |events| - 1;
    var e := events[n];
    SubmitsAll(e.units);
    assert events + rest == events[..n] + ([e] + rest);
    assert ([e] + rest)[1..] == rest;
    if n == 0 {
      o := OpenNext(Fresh, e.open).0;
      assert events[..n] + ([e] + rest) == [e] + rest;
    } else {
      var before :| Decodes(events[..n], before) && (if before == contract then GoesOn(e.units) else Opens(e));
      var p := LoopDecodes(events[..n], before, [e] + rest);
      o := Turn(p, Some(before), e).0;
    }
  }

  // What ends the loop while its decoder is in use, other than a panic.
  predicate Stops(rest: seq<Event>, contract: int) {
    || rest == []
    || rest[0].Cancelled? || rest[0].ChannelClosed? || rest[0].StoppedByItself?
    || (rest[0].Video? && rest[0].contract == contract && LeavesByReturn(rest[0].units))
  }

  // The first unit that is not submitted ends the loop by a return.
  predicate LeavesByReturn(units: seq<UnitAnswer>) {
    exists i :: 0 <= i < |units| && !units[i].Submitted? && !units[i].UnitPanics? && forall k :: 0 <= k < i ==> units[k].Submitted?
  }

  lemma {:induction false} ReturnsFrom(units: seq<UnitAnswer>)
    requires LeavesByReturn(units)
    ensures SubmitAll(units).Some? && SubmitAll(units).value.Returned?
    decreases |units|
  {
    var i :| 0 <= i < |units| && !units[i].Submitted? && !units[i].UnitPanics? && forall k :: 0 <= k < i ==> units[k].Submitted?;
    if i > 0 {
      assert units[1..][i - 1] == units[i];
      assert forall k :: 0 <= k < i - 1 ==> units[1..][k] == units[k + 1];
      ReturnsFrom(units[1..]);
    }
  }

  // The decoder in use could not be destroyed: at a switch to another contract, or when the loop had stopped.
  ghost predicate DestroyFailsAtClose(events: seq<Event>, contract: int, rest: seq<Event>, last: CloseAnswer) {
    && Decodes(events, contract)
    && ((rest != [] && rest[0].Video? && rest[0].contract != contract && CloseFails(rest[0].close))
        || (Stops(rest, contract) && CloseFails(last)))
  }

  // A decoder that could not be opened could not be destroyed either.
  ghost predicate DestroyFailsAtOpen(events: seq<Event>, rest: seq<Event>) {
    && rest != [] && rest[0].Video? && !rest[0].cancelled && rest[0].open.Refused? && rest[0].open.error == DestroyFailed
    && (events == [] || exists contract ::
          Decodes(events, contract) && contract != rest[0].contract && rest[0].close.joined && rest[0].close.error.None?)
  }

  lemma FailedClose(events: seq<Event>, contract: int, rest: seq<Event>, last: CloseAnswer)
    requires DestroyFailsAtClose(events, contract, rest, last)
    ensures var (o, r) := FeedTask(Fresh, events + rest, last); r == Err(Decoder(DestroyFailed)) && o.unconfirmed
  {
    var p := LoopDecodes(events, contract, rest);
    if !(rest != [] && rest[0].Video? && rest[0].contract != contract && CloseFails(rest[0].close)) {
      if rest != [] && rest[0].Video? {
        ReturnsFrom(rest[0].units);
      }
      assert Loop(p, Some(contract), rest).0 == p && Loop(p, Some(contract), rest).1.Returned?;
    }
  }

  lemma FailedOpen(events: seq<Event>, rest: seq<Event>, last: CloseAnswer)
    requires DestroyFailsAtOpen(events, rest)
    ensures var (o, r) := FeedTask(Fresh, events + rest, last); r == Err(Decoder(DestroyFailed)) && o.unconfirmed
  {
    if events == [] {
      assert events + rest == rest;
    } else {
      var contract :| Decodes(events, contract) && contract != rest[0].contract && rest[0].close.joined && rest[0].close.error.None?;
      var p := LoopDecodes(events, contract, rest);
    }
  }

  /**
   Whatever the loop had returned, and in whatever order the tasks end: if a decoder the task opened
   could not be destroyed, when its contract changed, when the loop stopped, or when opening it
   failed, then close reports exactly that.
   */
  lemma DestroyFailureSurvives(events: seq<Event>, rest: seq<Event>, last: CloseAnswer, first: Done, others: seq<Done>, leaseReleased: bool)
    requires (exists contract :: DestroyFailsAtClose(events, contract, rest, last)) || DestroyFailsAtOpen(events, rest)
    requires var r := FeedTask(Fresh, events + rest, last).1; first == r || r in others
    ensures var o := FeedTask(Fresh, events + rest, last).0;
      Reclamation(o.unconfirmed || !leaseReleased, Join(first, others)) == Err(Decoder(DestroyFailed))
  {
    hide FeedTask, Decodes, Loop;
    if DestroyFailsAtOpen(events, rest) {
      FailedOpen(events, rest, last);
    } else {
      var contract :| DestroyFailsAtClose(events, contract, rest, last);
      FailedClose(events, contract, rest, last);
    }
    JoinKeeps(first, others);
  }

  // The first unit that is not submitted is unit i.
  predicate FirstStop(units: seq<UnitAnswer>, i: nat) {
    i < |units| && !units[i].Submitted? && forall k :: 0 <= k < i ==> units[k].Submitted?
  }

  lemma {:induction false} FirstStopDecides(units: seq<UnitAnswer>, i: nat)
    requires FirstStop(units, i)
    ensures SubmitAll(units) == SubmitAll([units[i]])
    decreases |units|
  {
    if i > 0 {
      assert units[1..][i - 1] == units[i];
      FirstStopDecides(units[1..], i - 1);
    } else {
      assert SubmitAll(units) == SubmitAll([units[0]]);
    }
  }

  /**
   How the task ends when its decoder is in use: the reason it stopped, unless closing fails, which
   is then reported instead; a cancellation, even one that made the decoder refuse a unit, is no
   failure; a panic is reported as such and closes nothing.
   */
  lemma StopReported(events: seq<Event>, contract: int, rest: seq<Event>, last: CloseAnswer, i: nat)
    requires Decodes(events, contract)
    ensures var r := FeedTask(Fresh, events + rest, last).1;
      var closing := if !last.joined then Err(TaskFailed) else if last.error.Some? then Err(Decoder(last.error.value)) else Ok(());
      && (rest == [] || rest[0].Cancelled? || rest[0].ChannelClosed? ==> r == closing)
      && (rest != [] && rest[0].LoopPanics? ==> r == Err(TaskFailed))
      && (rest != [] && rest[0].StoppedByItself? && rest[0].error.Some? ==>
            r == if closing.Err? then closing else Err(Decoder(rest[0].error.value)))
      && (rest != [] && rest[0].Video? && rest[0].contract == contract && FirstStop(rest[0].units, i) ==>
            match rest[0].units[i]
            case CancelledFirst => r == closing
            case Overflow => r == if closing.Err? then closing else Err(TimestampOverflow)
            case Rejected(reason, cancelled) => r == if closing.Err? || cancelled then closing else Err(Decoder(reason))
            case UnitPanics => r == Err(TaskFailed)
            case Submitted => true)
  {
    var p := LoopDecodes(events, contract, rest);
    if rest != [] && rest[0].Video? && rest[0].contract == contract && FirstStop(rest[0].units, i) {
      FirstStopDecides(rest[0].units, i);
    }
  }
}
