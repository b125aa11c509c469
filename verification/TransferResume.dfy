/**
 A transfer stopped at any point, whatever was in flight, can be taken up again: what the
 receiver's disk then holds, and the transfer that continues it.
 */
module TransferResume {
  import opened Wrappers
  import opened TransferJob
  import opened FileTransfer
  import opened TransferProgress

  // ----- The receiver is always where the sender once was -----

  // Turns of the sender that put exactly these messages on the wire.
  predicate Emits(zip: Zip, from: Fs, s: Job, down: seq<Out>, t: Job)
    decreases |down|
  {
    if down == [] then s == t
    else
      var (next, out, _) := Turn(zip, s, from, false);
      out == [down[0]] && Emits(zip, from, next, down[1..], t)
  }

  lemma {:induction false} EmitsAppend(zip: Zip, from: Fs, s: Job, down: seq<Out>, t: Job, m: Out)
    requires Emits(zip, from, s, down, t) && Turn(zip, t, from, false).1 == [m]
    ensures Emits(zip, from, s, down + [m], Turn(zip, t, from, false).0)
    decreases |down|
  {
    hide Turn;
    if down == [] {
      assert [m][1..] == [] && down + [m] == [m];
    } else {
      assert (down + [m])[0] == down[0] && (down + [m])[1..] == down[1..] + [m];
      EmitsAppend(zip, from, Turn(zip, s, from, false).0, down[1..], t, m);
    }
  }

  // The receiver's disk fits a sender that has yet to send what is in flight.
  ghost predicate Behind(c: Setup, s: System, j: Job)
    requires |c.sender.files| == |c.receiver.files|
  {
    Good(c, View(j, s.r, s.disk, s.choices)) && Emits(c.zip, c.from, j, s.down, s.s)
  }

  ghost predicate Lags(c: Setup, s: System)
    requires |c.sender.files| == |c.receiver.files|
  {
    s.complete || s.up != [] || exists j :: Behind(c, s, j)
  }

  lemma LagTurn(c: Setup, s: System)
    requires Honest(c) && Inv(c, s) && Lags(c, s) && !s.done
    ensures Lags(c, Next(c, s, SenderTurn))
  {
    hide Good, Turn, Settle;
    if Flowing(c, s) {
      var j :| Behind(c, s, j);
      TurnShape(c, Drained(c, s, s.s));
      var out := Turn(c.zip, s.s, c.from, false).1;
      assert out == [out[0]];
      EmitsAppend(c.zip, c.from, j, s.down, s.s, out[0]);
      assert Behind(c, Next(c, s, SenderTurn), j);
    } else {
      IdleTurn(c, s);
    }
  }

  lemma LagConfirm(c: Setup, s: System)
    requires Honest(c) && Inv(c, s) && s.up != []
    ensures Lags(c, Next(c, s, SenderConfirm))
  {
    hide Good, Decide, Backed;
    assert Answering(c, s);
    var t := Next(c, s, SenderConfirm);
    assert Behind(c, t, t.s);
  }

  lemma EmitsFirst(zip: Zip, from: Fs, s: Job, down: seq<Out>, t: Job)
    requires Emits(zip, from, s, down, t) && down != []
    ensures Turn(zip, s, from, false).1 == [down[0]] && Emits(zip, from, Turn(zip, s, from, false).0, down[1..], t)
  {
    hide Turn;
  }

  lemma TakesData(c: Setup, s: System, choice: Choice)
    requires |c.sender.files| == |c.receiver.files| && s.down != [] && s.down[0].Data?
    ensures var t := Next(c, s, ReceiverTake(choice));
      var (r, disk, _) := Write(c.zip, s.r, s.disk, s.down[0].block);
      t.r == r && t.disk == disk && t.s == s.s && t.down == s.down[1..] && t.choices == s.choices
  {
    hide Write;
  }

  // A sender the receiver is level with, whose next message is a block, sends just that.
  lemma NextBlock(c: Setup, v: View, block: Block)
    requires Honest(c) && Good(c, v) && Turn(c.zip, v.s, c.from, false).1 == [Data(block)]
    ensures var (r, disk, _) := Write(c.zip, v.r, v.disk, block);
      Good(c, View(Turn(c.zip, v.s, c.from, false).0, r, disk, v.choices))
  {
    assert |c.sender.files| == |c.receiver.files|;
    if IsWaiting(v) {
      SenderOpen(c, v);
      WaitingTurn(c.zip, v.s, c.from);
    } else {
      hide Good, Honest, Turn, Write;
      TurnShape(c, v);
    }
  }

  lemma BlocksFlow(c: Setup, s: System)
    requires |c.sender.files| == |c.receiver.files| && Inv(c, s) && s.down != []
    ensures !s.complete && s.up == []
  {
    hide Good, Settle, Backed;
  }

  lemma LagData(c: Setup, s: System, choice: Choice)
    requires Honest(c) && Inv(c, s) && Lags(c, s) && s.down != [] && s.down[0].Data?
    ensures Lags(c, Next(c, s, ReceiverTake(choice)))
  {
    hide Inv, HonestZip, Trio, Good, Turn, Write, Next, Emits;
    BlocksFlow(c, s);
    var j :| Behind(c, s, j);
    EmitsFirst(c.zip, c.from, j, s.down, s.s);
    NextBlock(c, View(j, s.r, s.disk, s.choices), s.down[0].block);
    TakesData(c, s, choice);
    assert Behind(c, Next(c, s, ReceiverTake(choice)), Turn(c.zip, j, c.from, false).0);
  }

  lemma LagStep(c: Setup, s: System, step: Step)
    requires Honest(c) && Inv(c, s) && Lags(c, s) && Enabled(c, s, step)
    ensures Lags(c, Next(c, s, step))
  {
    match step {
      case SenderTurn => LagTurn(c, s);
      case SenderConfirm => LagConfirm(c, s);
      case ReceiverTake(choice) =>
        if s.down[0].Data? {
          LagData(c, s, choice);
        } else {
          StepKeeps(c, s, step);
          LagOther(c, s, choice);
        }
    }
  }

  // A digest leaves an answer on its way, the end completes the transfer.
  lemma LagOther(c: Setup, s: System, choice: Choice)
    requires Honest(c) && Inv(c, s) && Enabled(c, s, ReceiverTake(choice)) && !s.down[0].Data?
    requires !Next(c, s, ReceiverTake(choice)).fault
    ensures Lags(c, Next(c, s, ReceiverTake(choice)))
  {
    hide Good, Decide, ModifyTime, Settle, Polite, InBounds, Backed;
  }

  lemma {:induction false} RunLags(c: Setup, s: System, steps: seq<Step>, t: System)
    requires Honest(c) && Inv(c, s) && Lags(c, s) && Run(c, s, steps, t)
    ensures Lags(c, t)
    decreases |steps|
  {
    hide Inv, Lags, Next, HonestZip, Trio;
    if steps != [] {
      StepKeeps(c, s, steps[0]);
      LagStep(c, s, steps[0]);
      RunLags(c, Next(c, s, steps[0]), steps[1..], t);
    }
  }

  // A view of the receiver as it is, at any point of a run.
  lemma ReceiverView(c: Setup, steps: seq<Step>, t: System) returns (v: View)
    requires Honest(c) && Run(c, Start(c), steps, t) && !t.complete
    ensures Good(c, v) && v.r == t.r && v.disk == t.disk && v.choices == t.choices && Backed(c, t.choices)
  {
    StartGood(c);
    StartInv(c);
    assert Behind(c, Start(c), c.sender);
    RunKeeps(c, Start(c), steps, t);
    RunLags(c, Start(c), steps, t);
    hide Good, Run, Emits, HonestZip, Trio, Settle, Backed;
    if t.up != [] {
      v := View(Decide(t.s, c.from, t.up[0]), t.r, t.disk, t.choices);
    } else {
      var j :| Behind(c, t, j);
      v := View(j, t.r, t.disk, t.choices);
    }
  }

  // ----- What an interruption leaves -----

  lemma PartialPrefix(c: Setup, choices: seq<Choice>, j: nat, p: nat)
    requires Honest(c) && Backed(c, choices) && j < |c.sender.files| && Intact(c, choices, j)
    ensures Expected(c, choices, j, p) <= Source(c, j)
  {
    hide Fate, FirstAccepted, Content, PathOf, Download;
    var whole, o := Source(c, j), Offset(c, choices, j);
    if o <= p <= |whole| {
      assert o == 0 ==> whole[o..p] == whole[..p];
      assert whole[..p] == whole[..o] + whole[o..p];
    }
  }

  /**
   At any point of a run, whatever is in flight: the file the receiver has open has a download that
   is a prefix of the sender's, if the file will be whole at all, and the digest of its job beside
   it, or the one it was continued with; the files accepted before it are whole, with no companions.
   */
  lemma LeftBehind(c: Setup, steps: seq<Step>, t: System)
    requires Honest(c) && Run(c, Start(c), steps, t) && !t.complete && t.r.stream.Some?
    ensures First(c) <= t.r.fileNum < |c.sender.files|
    ensures var path := TargetPath(c, t.r.fileNum);
      && Download(path) in t.disk && (Intact(c, t.choices, t.r.fileNum) ==> t.disk[Download(path)] <= Source(c, t.r.fileNum))
      && DigestOf(path) in t.disk
      && t.disk[DigestOf(path)] == (if Resumed(c, t.choices, t.r.fileNum) then Content(c.into, DigestOf(path)) else c.receiver.digest)
    ensures forall j :: First(c) <= j < t.r.fileNum && Accepted(c, t.choices, j) && Intact(c, t.choices, j) ==>
      Finished(t.disk, TargetPath(c, j), Source(c, j))
  {
    var v := ReceiverView(c, steps, t);
    hide Run, Expected, Intact, PathOf, Download, DigestOf, Fate, Resumed, Backed, OthersShape, Counted, Source, HonestZip, Trio;
    var n := t.r.fileNum;
    assert FileShape(c, v, n);
    if Intact(c, t.choices, n) {
      PartialPrefix(c, t.choices, n, Position(c, v, n));
    }
    forall j | First(c) <= j < n && Accepted(c, t.choices, j) && Intact(c, t.choices, j)
      ensures Finished(t.disk, TargetPath(c, j), Source(c, j))
    {
      assert FileShape(c, v, j);
      IntactExact(c, t.choices, j);
    }
  }

  // ----- Taking it up again -----

  function Again(c: Setup, disk: Fs): Setup {
    c.(into := disk, sender := c.sender.(overwriteDetection := true), receiver := c.receiver.(overwriteDetection := true))
  }

  lemma AgainHonest(c: Setup, disk: Fs)
    requires Honest(c)
    ensures Honest(Again(c, disk))
    ensures forall j :: 0 <= j < |c.sender.files| ==>
      TargetPath(Again(c, disk), j) == TargetPath(c, j) && SourcePath(Again(c, disk), j) == SourcePath(c, j)
  {
    hide HonestZip, PathOf, Download, DigestOf;
    forall j, k | 0 <= j < k < |c.sender.files|
      ensures Trio(TargetPath(Again(c, disk), j)) !! Trio(TargetPath(Again(c, disk), k))
    {
      assert Trio(TargetPath(c, j)) !! Trio(TargetPath(c, k));
    }
    forall j | 0 <= j < |c.sender.files|
      ensures SourcePath(Again(c, disk), j) in c.from && Download(SourcePath(Again(c, disk), j)) !in c.from
    {
      assert SourcePath(c, j) in c.from && Download(SourcePath(c, j)) !in c.from;
    }
  }

  // Skip what is done, continue file n from the end of its download, and send the rest.
  function Continuing(c: Setup, n: nat, size: nat): seq<Choice>
    requires First(c) <= |c.sender.files|
  {
    seq(|c.sender.files| - First(c), k requires 0 <= k =>
      if First(c) + k < n then Skip(true) else if First(c) + k == n then OffsetBlk(size) else OffsetBlk(0))
  }

  lemma ContinuingFates(c: Setup, n: nat, size: nat)
    requires First(c) <= n < |c.sender.files| && |c.sender.files| == |c.receiver.files|
    ensures var w := Continuing(c, n, size);
      && (forall j :: First(c) <= j < n ==> !Accepted(c, w, j))
      && (forall j :: n <= j < |c.sender.files| ==> Accepted(c, w, j) && Offset(c, w, j) == if j == n then size else 0)
      && FirstAccepted(c, w, n)
  {
  }

  lemma ContinuingPolite(c: Setup, n: nat, size: nat)
    requires First(c) <= n < |c.sender.files| && |c.sender.files| == |c.receiver.files| && c.sender.overwriteDetection
    requires var path := TargetPath(c, n); Download(path) in c.into && DigestOf(path) in c.into && |c.into[Download(path)]| == size
    ensures PoliteList(c, Continuing(c, n, size))
  {
    hide PathOf, Download, DigestOf;
  }

  /**
   A transfer stopped at any point can be taken up again from the receiver's disk: new jobs that skip
   what is done and continue the open download from its end are a run that completes, and leave the
   open file, the ones before it and the ones after it whole.
   */
  lemma InterruptedResumes(c: Setup, steps: seq<Step>, t: System) returns (again: seq<Step>, u: System)
    requires Honest(c) && Run(c, Start(c), steps, t) && !t.complete && t.r.stream.Some?
    requires t.r.fileNum < |c.sender.files| ==> Intact(c, t.choices, t.r.fileNum)
    ensures Honest(Again(c, t.disk)) && Run(Again(c, t.disk), Start(Again(c, t.disk)), again, u) && u.complete
    ensures t.r.fileNum < |c.sender.files|
    ensures forall j :: t.r.fileNum <= j < |c.sender.files| ==> Finished(u.disk, TargetPath(c, j), Source(c, j))
    ensures forall j :: First(c) <= j < t.r.fileNum && Accepted(c, t.choices, j) && Intact(c, t.choices, j) ==>
      Finished(u.disk, TargetPath(c, j), Source(c, j))
  {
    var d, n := Again(c, t.disk), t.r.fileNum;
    LeftBehind(c, steps, t);
    AgainHonest(c, t.disk);
    var size := |t.disk[Download(TargetPath(c, n))]|;
    var w := Continuing(d, n, size);
    ContinuingFates(d, n, size);
    ContinuingPolite(d, n, size);
    StartInv(d);
    assert AnswerPending(d, Start(d));
    hide Run, Expected, Inv, PathOf, Download, DigestOf, Fate, PoliteList, Continuing, HonestZip, Trio, AnswerPending;
    again, u := EveryChoiceCompletes(d, Start(d), w);
    forall j | n <= j < |c.sender.files|
      ensures Finished(u.disk, TargetPath(c, j), Source(c, j))
    {
      FilesRecreated(d, again, u, j);
    }
    forall j | First(c) <= j < n && Accepted(c, t.choices, j) && Intact(c, t.choices, j)
      ensures Finished(u.disk, TargetPath(c, j), Source(c, j))
    {
      FilesRecreated(d, again, u, j);
      StaysFinished(d, u.disk, j, Source(c, j));
    }
  }

  lemma StaysFinished(c: Setup, disk: Fs, j: nat, bytes: Bytes)
    requires j < |c.sender.files| == |c.receiver.files| && Untouched(c, disk, j) && Finished(c.into, TargetPath(c, j), bytes)
    ensures Finished(disk, TargetPath(c, j), bytes)
  {
    var path := TargetPath(c, j);
    hide TargetPath, Download, DigestOf;
    assert path in Trio(path) && Download(path) in Trio(path) && DigestOf(path) in Trio(path);
  }
}
