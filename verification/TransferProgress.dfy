/**
 When a transfer ends: exactly which turn of handle_read_jobs reports a job as done,
 with and without errors, and a measure that every step of a transfer decreases.
 */
module TransferProgress {
  import opened Wrappers
  import opened TransferJob
  import opened FileTransfer

  // ----- One job, whatever goes wrong -----

  // A file is confirmed, or waits to be, only while it is open.
  predicate Orderly(job: Job) {
    (job.confirmed || job.waiting ==> job.stream.Some?) && (job.stream.Some? ==> job.fileNum < |job.files|)
  }

  // This turn will try to open a file that is not there.
  predicate OpenFails(job: Job, fs: Fs) {
    job.fileNum < |job.files| && job.stream.None? && PathOf(job.base, job.files[job.fileNum]) !in fs
  }

  /**
   Exactly when a turn reports the job as done: no file is left, or the open of this turn
   fails and overwrite detection is on, whatever is left, or it was the last file.
   */
  lemma DoneExactly(zip: Zip, job: Job, fs: Fs, faulty: bool)
    requires Orderly(job)
    ensures Turn(zip, job, fs, faulty).2 <==>
      job.fileNum >= |job.files| || (OpenFails(job, fs) && (job.overwriteDetection || job.fileNum + 1 == |job.files|))
  {
    hide PathOf, Pack, Chunk, NameOf, Content;
  }

  lemma OrderlyKept(zip: Zip, job: Job, fs: Fs, faulty: bool, answer: Confirm)
    requires Orderly(job)
    ensures Orderly(Turn(zip, job, fs, faulty).0)
    ensures job.waiting ==> InBounds(job, answer) && Orderly(Decide(job, fs, answer))
  {
    hide PathOf, Pack, Chunk, NameOf, Content;
  }

  /** With overwrite detection, a missing first file ends a job that still has the second to send. */
  lemma DoneTooEarly(zip: Zip, digest: Bytes)
    ensures var job := Job(1, "d", ["a", "b"], true, digest, 0, None, false, false, false, 0, 0);
      Turn(zip, job, map["d/b" := [7]], false) == (NextFile(job), [Failure(1), Done(1)], true)
  {
    var job := Job(1, "d", ["a", "b"], true, digest, 0, None, false, false, false, 0, 0);
    assert PathOf("d", "a") == "d/a";
    assert "d/a"[2] != "d/b"[2] && "a" != "";
    assert [Failure(1)] + [Done(1)] == [Failure(1), Done(1)];
  }

  // ----- Progress -----

  // Files left, bytes left in the current one, and what its confirmation still needs.
  function FilesLeft(job: Job): nat {
    if job.fileNum < |job.files| then |job.files| - job.fileNum else 0
  }

  function BytesLeft(job: Job, fs: Fs): nat {
    if job.fileNum >= |job.files| then 0
    else
      var s := if job.stream.Some? then job.stream.value else Stream(PathOf(job.base, job.files[job.fileNum]), 0, ReadOnly);
      var size := |Content(fs, s.path)|;
      if s.pos < size then size - s.pos else 0
  }

  function Phase(job: Job): nat {
    if !job.overwriteDetection || job.confirmed then 0 else if job.waiting && job.stream.Some? then 1 else 2
  }

  predicate Less(a: (nat, nat, nat), b: (nat, nat, nat)) {
    a.0 < b.0 || (a.0 == b.0 && (a.1 < b.1 || (a.1 == b.1 && a.2 < b.2)))
  }

  function Measure(job: Job, fs: Fs): (nat, nat, nat) {
    (FilesLeft(job), BytesLeft(job, fs), Phase(job))
  }

  /** Faults included, a turn brings the job nearer to its end unless it waits for a decision or is over. */
  lemma TurnProgress(zip: Zip, job: Job, fs: Fs, faulty: bool)
    requires Orderly(job) && job.fileNum < |job.files|
    ensures var j := Turn(zip, job, fs, faulty).0;
      Less(Measure(j, fs), Measure(job, fs)) || (j == job && job.stream.Some? && job.overwriteDetection && !job.confirmed && job.waiting)
  {
    hide PathOf, Pack, NameOf, Content, Chunk;
    var j := InitStream(job, fs).0;
    if j.fileNum < |j.files| && j.stream.Some? {
      ChunkSize(Content(fs, j.stream.value.path), j.stream.value.pos);
    }
  }

  lemma ChunkSize(content: Bytes, p: nat)
    ensures Chunk(content, p) == [] <==> p >= |content|
    ensures p < |content| ==> 0 < |Chunk(content, p)| <= |content| - p
  {
  }

  // ----- The whole transfer -----

  predicate LessTransfer(a: (nat, (nat, nat, nat), nat), b: (nat, (nat, nat, nat), nat)) {
    a.0 < b.0 || (a.0 == b.0 && (Less(a.1, b.1) || (a.1 == b.1 && a.2 < b.2)))
  }

  // The sender's work, then the messages in flight.
  function Remaining(c: Setup, s: System): (nat, (nat, nat, nat), nat) {
    (if s.done then 0 else 1, Measure(s.s, c.from), 2 * |s.down| + |s.up|)
  }

  lemma SenderOrderly(c: Setup, v: View)
    requires Honest(c) && Good(c, v)
    ensures Orderly(v.s) && v.s.files == c.sender.files && v.s.fileNum <= |c.sender.files| && (IsWaiting(v) || IsSending(v) || IsFresh(v))
  {
  }

  lemma TurnAdvances(c: Setup, s: System)
    requires Honest(c) && Inv(c, s) && !s.done
    ensures var t := Next(c, s, SenderTurn);
      && (t.done <==> s.s.fileNum == |c.sender.files|)
      && (if Flowing(c, s) then LessTransfer(Remaining(c, t), Remaining(c, s)) else t == s)
  {
    hide Good, Settle, Turn, Measure, Less;
    if Flowing(c, s) {
      var v := Drained(c, s, s.s);
      SenderOrderly(c, v);
      TurnShape(c, v);
      if s.s.fileNum < |c.sender.files| {
        TurnProgress(c.zip, s.s, c.from, false);
        assert IsWaiting(v) || IsSending(v) || IsFresh(v);
      }
    } else {
      IdleTurn(c, s);
      if Asking(c, s) {
        SenderOpen(c, Drained(c, s, s.s));
      } else if Answering(c, s) {
        SenderOrderly(c, View(Decide(s.s, c.from, s.up[0]), s.r, s.disk, s.choices));
      }
    }
  }

  // A decision on the wire is about the sender's current file, which it has open from the start.
  ghost predicate AnswerPending(c: Setup, s: System) {
    s.up != [] ==> |s.up| == 1 && s.up[0].fileNum == s.s.fileNum && s.up[0].choice != Unset && Unmoved(c, s.s)
  }

  predicate Unmoved(c: Setup, job: Job) {
    && job.fileNum < |job.files| && job.base == c.sender.base && job.files == c.sender.files
    && job.stream == Some(Stream(PathOf(job.base, job.files[job.fileNum]), 0, ReadOnly))
  }

  lemma PendingKept(c: Setup, s: System, step: Step)
    requires Honest(c) && Inv(c, s) && AnswerPending(c, s) && Enabled(c, s, step)
    ensures AnswerPending(c, Next(c, s, step))
  {
    hide Write, Settle, PathOf, Turn;
    var t := Next(c, s, step);
    match step {
      case SenderTurn =>
        if s.up != [] {
          IdleTurn(c, s);
        }
      case SenderConfirm =>
      case ReceiverTake(choice) =>
        if !s.down[0].Data? {
          LastAlone(s.down);
          assert s.down == [s.down[0]];
          SettleOne(c.zip, s.r, s.disk, s.down);
        }
    }
  }

  lemma ConfirmAdvances(c: Setup, s: System)
    requires Honest(c) && Inv(c, s) && AnswerPending(c, s) && s.up != []
    ensures var t := Next(c, s, SenderConfirm);
      t.done == s.done && Less(Measure(t.s, c.from), Measure(s.s, c.from))
  {
    hide Good, Backed, Settle, Content;
    assert Answering(c, s);
    var i := s.s.fileNum;
    assert Download(SourcePath(c, i)) !in c.from && SourcePath(c, i) in c.from;
    assert SourcePath(c, i) == PathOf(s.s.base, s.s.files[i]);
    hide PathOf, Download, DigestOf;
  }

  lemma TakeAdvances(c: Setup, s: System, choice: Choice)
    requires Honest(c) && Inv(c, s) && Enabled(c, s, ReceiverTake(choice))
    ensures LessTransfer(Remaining(c, Next(c, s, ReceiverTake(choice))), Remaining(c, s))
  {
    hide Inv, Honest, Measure, Write, Decide, ModifyTime, Polite, InBounds;
  }

  lemma StepAdvances(c: Setup, s: System, step: Step)
    requires Honest(c) && Inv(c, s) && AnswerPending(c, s) && Enabled(c, s, step)
    ensures Next(c, s, step) == s || LessTransfer(Remaining(c, Next(c, s, step)), Remaining(c, s))
  {
    hide Measure, Less;
    match step {
      case SenderTurn => TurnAdvances(c, s);
      case SenderConfirm => ConfirmAdvances(c, s);
      case ReceiverTake(choice) => TakeAdvances(c, s, choice);
    }
  }

  // Some step of an unfinished transfer advances it.
  lemma CanAdvance(c: Setup, s: System)
    requires Honest(c) && Inv(c, s) && AnswerPending(c, s) && !s.complete
    ensures exists step :: Enabled(c, s, step) && LessTransfer(Remaining(c, Next(c, s, step)), Remaining(c, s))
  {
    var step := if Flowing(c, s) then SenderTurn else if s.up != [] then SenderConfirm else ReceiverTake(Skip(true));
    assert Enabled(c, s, step);
    hide Next, Remaining, LessTransfer, Good, Settle;
    match step {
      case SenderTurn => TurnAdvances(c, s);
      case SenderConfirm => ConfirmLess(c, s);
      case ReceiverTake(choice) => TakeAdvances(c, s, choice);
    }
  }

  lemma ConfirmLess(c: Setup, s: System)
    requires Honest(c) && Inv(c, s) && AnswerPending(c, s) && s.up != []
    ensures LessTransfer(Remaining(c, Next(c, s, SenderConfirm)), Remaining(c, s))
  {
    ConfirmAdvances(c, s);
    hide Next, Measure, Less, Honest, Inv;
  }

  lemma {:induction false} RunPending(c: Setup, s: System, steps: seq<Step>, t: System)
    requires Honest(c) && Inv(c, s) && AnswerPending(c, s) && Run(c, s, steps, t)
    ensures AnswerPending(c, t)
    decreases |steps|
  {
    hide Inv, Next, HonestZip, Trio, AnswerPending;
    if steps != [] {
      StepKeeps(c, s, steps[0]);
      PendingKept(c, s, steps[0]);
      RunPending(c, Next(c, s, steps[0]), steps[1..], t);
    }
  }

  /**
   In any run the sender reports the job as done only when every file has been decided on
   and sent; until the receiver has seen that, some step decreases what remains, and no
   step that changes anything increases it.
   */
  lemma TransferCompletes(c: Setup, steps: seq<Step>, t: System)
    requires Honest(c) && Run(c, Start(c), steps, t)
    ensures t.done ==> t.s.fileNum == |c.sender.files|
    ensures !t.done ==> (Next(c, t, SenderTurn).done <==> t.s.fileNum == |c.sender.files|)
    ensures t.complete || exists step :: Enabled(c, t, step) && LessTransfer(Remaining(c, Next(c, t, step)), Remaining(c, t))
    ensures forall step :: Enabled(c, t, step) ==> Next(c, t, step) == t || LessTransfer(Remaining(c, Next(c, t, step)), Remaining(c, t))
  {
    StartInv(c);
    RunKeeps(c, Start(c), steps, t);
    RunPending(c, Start(c), steps, t);
    hide Run, Next, Remaining, LessTransfer, Good, Settle, HonestZip, Trio, Enabled, AnswerPending;
    if !t.done {
      TurnAdvances(c, t);
    }
    if !t.complete {
      CanAdvance(c, t);
    }
    forall step | Enabled(c, t, step)
      ensures Next(c, t, step) == t || LessTransfer(Remaining(c, Next(c, t, step)), Remaining(c, t))
    {
      StepAdvances(c, t, step);
    }
  }

  // ----- Every polite list of decisions is that of a completed transfer -----

  // An offset continues, from its end, a partial download the receiver starts with.
  predicate PoliteList(c: Setup, wanted: seq<Choice>)
    requires |c.sender.files| == |c.receiver.files|
  {
    && First(c) <= |c.sender.files|
    && |wanted| == (if c.sender.overwriteDetection then |c.sender.files| - First(c) else 0)
    && forall k :: 0 <= k < |wanted| ==> Polite(c.into, TargetPath(c, First(c) + k), wanted[k])
  }

  // The step that brings the transfer nearer to its end, deciding as wanted.
  function ChosenStep(c: Setup, s: System, wanted: seq<Choice>): Step {
    if s.up != [] then SenderConfirm
    else if s.down != [] then ReceiverTake(if |s.choices| < |wanted| then wanted[|s.choices|] else Skip(true))
    else SenderTurn
  }

  // The file being asked about is on the receiver's disk as it was at the start.
  lemma AskedUntouched(c: Setup, s: System)
    requires Honest(c) && Inv(c, s) && !s.complete && Asking(c, s) && !s.down[0].Data?
    ensures |s.choices| == s.s.fileNum - First(c) && s.s.fileNum < |c.sender.files| && s.down[0] == Digest(s.s.fileNum, |Source(c, s.s.fileNum)|)
    ensures Untouched(c, s.disk, s.s.fileNum)
  {
    LastAlone(s.down);
    assert s.down == [s.down[0]];
    SettleOne(c.zip, s.r, s.disk, s.down);
    var v := View(s.s, s.r, s.disk, s.choices);
    SenderOpen(c, v);
    WaitingNotBegun(c, v);
    assert FileShape(c, v, s.s.fileNum);
  }

  lemma PoliteSame(c: Setup, disk: Fs, j: nat, choice: Choice)
    requires j < |c.sender.files| == |c.receiver.files| && Untouched(c, disk, j) && Polite(c.into, TargetPath(c, j), choice)
    ensures Polite(disk, TargetPath(c, j), choice)
  {
    var path := TargetPath(c, j);
    hide TargetPath, Download, DigestOf;
    assert Download(path) in Trio(path) && DigestOf(path) in Trio(path);
  }

  lemma ChosenTake(c: Setup, s: System, wanted: seq<Choice>)
    requires Honest(c) && Inv(c, s) && !s.complete && PoliteList(c, wanted) && s.choices <= wanted
    requires s.up == [] && s.down != []
    ensures var step := ChosenStep(c, s, wanted);
      Enabled(c, s, step) && Next(c, s, step).choices <= wanted
  {
    assert |c.sender.files| == |c.receiver.files|;
    hide Inv, Honest, Polite, Write, Decide, ModifyTime, InBounds;
    if s.down[0].Digest? {
      ChosenDigest(c, s, wanted);
      Longer(s.choices, wanted);
    }
  }

  lemma Longer(choices: seq<Choice>, wanted: seq<Choice>)
    requires choices <= wanted && |choices| < |wanted|
    ensures choices + [wanted[|choices|]] <= wanted
  {
    hide *;
  }

  lemma ChosenDigest(c: Setup, s: System, wanted: seq<Choice>)
    requires Honest(c) && Inv(c, s) && !s.complete && PoliteList(c, wanted) && s.choices <= wanted
    requires s.down != [] && s.down[0].Digest?
    ensures |s.choices| < |wanted| && s.down[0].fileNum < |c.sender.files|
    ensures Polite(s.disk, TargetPath(c, s.down[0].fileNum), wanted[|s.choices|])
  {
    DigestAsks(c, s);
    AskedUntouched(c, s);
    hide Inv, Asking, Polite, Untouched, Trio, HonestZip, TargetPath;
    PoliteSame(c, s.disk, s.s.fileNum, wanted[|s.choices|]);
  }

  lemma DigestAsks(c: Setup, s: System)
    requires |c.sender.files| == |c.receiver.files| && Inv(c, s) && !s.complete && s.down != [] && s.down[0].Digest?
    ensures Asking(c, s) && c.sender.overwriteDetection
  {
    hide FileShape, OthersShape, ReceiverShape, Counted, Settle;
  }

  lemma ChosenAdvances(c: Setup, s: System, wanted: seq<Choice>)
    requires Honest(c) && Inv(c, s) && AnswerPending(c, s) && !s.complete && PoliteList(c, wanted) && s.choices <= wanted
    ensures var step := ChosenStep(c, s, wanted);
      Enabled(c, s, step) && LessTransfer(Remaining(c, Next(c, s, step)), Remaining(c, s)) && Next(c, s, step).choices <= wanted
  {
    hide Good, Settle, Remaining, LessTransfer, PoliteList, HonestZip, Trio;
    if s.up != [] {
      ConfirmLess(c, s);
    } else if s.down != [] {
      ChosenTake(c, s, wanted);
      TakeAdvances(c, s, if |s.choices| < |wanted| then wanted[|s.choices|] else Skip(true));
    } else {
      TurnAdvances(c, s);
    }
  }

  /** For every polite list of decisions there is a run that makes exactly these and completes. */
  lemma {:induction false} EveryChoiceCompletes(c: Setup, s: System, wanted: seq<Choice>) returns (steps: seq<Step>, t: System)
    requires Honest(c) && Inv(c, s) && AnswerPending(c, s) && PoliteList(c, wanted) && s.choices <= wanted
    ensures Run(c, s, steps, t) && t.complete && t.choices == wanted
    decreases Remaining(c, s).0, Remaining(c, s).1.0, Remaining(c, s).1.1, Remaining(c, s).1.2, Remaining(c, s).2
  {
    if s.complete {
      steps, t := [], s;
      CompleteChoices(c, s, wanted);
    } else {
      var step := ChosenStep(c, s, wanted);
      ChosenAdvances(c, s, wanted);
      StepKeeps(c, s, step);
      PendingKept(c, s, step);
      hide Inv, AnswerPending, Next, Enabled, Remaining, Honest, PoliteList, ChosenStep;
      var rest;
      rest, t := EveryChoiceCompletes(c, Next(c, s, step), wanted);
      steps := [step] + rest;
      assert steps[1..] == rest;
    }
  }

  lemma CompleteChoices(c: Setup, s: System, wanted: seq<Choice>)
    requires Honest(c) && Inv(c, s) && PoliteList(c, wanted) && s.choices <= wanted && s.complete
    ensures s.choices == wanted
  {
    hide Untouched, Expected, Polite;
  }

  // Two files, the first empty; the receiver has the first byte of the second.
  function LateSetup(zip: Zip): Setup {
    var sender := Job(1, "s", ["a", "b"], true, [], 0, None, false, false, false, 0, 0);
    Setup(zip, map["s/a" := [], "s/b" := [1, 2]], map["r/b.download" := [1], "r/b.digest" := []], sender, sender.(base := "r"))
  }

  const LATE: seq<Choice> := [OffsetBlk(0), OffsetBlk(1)]

  lemma LatePaths(zip: Zip)
    ensures var c := LateSetup(zip);
      && SourcePath(c, 0) == "s/a" && SourcePath(c, 1) == "s/b" && TargetPath(c, 0) == "r/a" && TargetPath(c, 1) == "r/b"
      && Download("r/b") == "r/b.download" && DigestOf("r/b") == "r/b.digest"
      && Trio("r/a") !! Trio("r/b")
      && Download("s/a") !in c.from && Download("s/b") !in c.from
  {
    assert "a" != "" && "b" != "";
    assert forall key :: key in Trio("r/a") ==> key[2] == 'a';
    assert forall key :: key in Trio("r/b") ==> key[2] == 'b';
    assert |Download("s/a")| > 3 && |Download("s/b")| > 3;
  }

  lemma LateHonest(zip: Zip)
    requires HonestZip(zip)
    ensures Honest(LateSetup(zip)) && PoliteList(LateSetup(zip), LATE)
  {
    hide HonestZip, PathOf, Download, DigestOf, Trio;
    LatePaths(zip);
  }

  lemma LateExpected(zip: Zip)
    ensures var c := LateSetup(zip); Accepted(c, LATE, 1) && Source(c, 1) == [1, 2] && Expected(c, LATE, 1, |Source(c, 1)|) == [2]
  {
    hide Download, DigestOf, PathOf;
    LatePaths(zip);
    assert Accepted(LateSetup(zip), LATE, 0);
  }

  /**
   A late resume: in a completed run the second file, accepted at offset 1 after an
   accepted first one, arrives without its first byte.
   */
  lemma LateResume(zip: Zip) returns (steps: seq<Step>, t: System)
    requires HonestZip(zip)
    ensures var c := LateSetup(zip);
      Honest(c) && Run(c, Start(c), steps, t) && t.complete && Source(c, 1) == [1, 2] && Finished(t.disk, "r/b", [2])
  {
    var c := LateSetup(zip);
    LateHonest(zip);
    LatePaths(zip);
    LateExpected(zip);
    hide HonestZip, LateSetup, Trio, Expected, Inv;
    StartInv(c);
    assert AnswerPending(c, Start(c));
    steps, t := EveryChoiceCompletes(c, Start(c), LATE);
    TransferResult(c, steps, t);
  }
}
