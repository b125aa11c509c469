/**
 A sending and a receiving TransferJob joined by two FIFO channels, in every
 interleaving: the sender takes turns, the receiver writes what arrives and answers
 each digest with a decision of its own, the decision travels back.
 */
module FileTransfer {
  import opened Wrappers
  import opened TransferJob

  datatype Setup = Setup(zip: Zip, from: Fs, into: Fs, sender: Job, receiver: Job)

  // `choices` lists the receiver's decisions; `fault` records a failed write or an index out of bounds.
  datatype System = System(s: Job, r: Job, disk: Fs, down: seq<Out>, up: seq<Confirm>, choices: seq<Choice>,
                           done: bool, complete: bool, fault: bool)

  datatype Step = SenderTurn | SenderConfirm | ReceiverTake(choice: Choice)

  function SourcePath(c: Setup, j: nat): string
    requires j < |c.sender.files|
  {
    PathOf(c.sender.base, c.sender.files[j])
  }

  function TargetPath(c: Setup, j: nat): string
    requires j < |c.sender.files| == |c.receiver.files|
  {
    PathOf(c.receiver.base, c.receiver.files[j])
  }

  function Trio(path: string): set<string> {
    {path, Download(path), DigestOf(path)}
  }

  ghost predicate HonestZip(zip: Zip) {
    forall x: Bytes :: 0 < |x| <= BUF_SIZE ==> zip.compress(x) != [] && zip.decompress(zip.compress(x)) == x
  }

  predicate NewJob(job: Job) {
    && job.stream.None? && !job.confirmed && !job.waiting && !job.skipped
    && job.finished == 0 && job.transferred == 0 && job.fileNum <= |job.files|
  }

  // Both ends list the same names, which with their companions are pairwise distinct
  // on the receiver; the sender has every file and no companions.
  ghost predicate Honest(c: Setup) {
    && HonestZip(c.zip) && NewJob(c.sender) && NewJob(c.receiver)
    && c.sender.id == c.receiver.id && c.sender.files == c.receiver.files && c.sender.fileNum == c.receiver.fileNum
    && (forall j, k :: 0 <= j < k < |c.sender.files| ==> Trio(TargetPath(c, j)) !! Trio(TargetPath(c, k)))
    && (forall j :: 0 <= j < |c.sender.files| ==> SourcePath(c, j) in c.from && Download(SourcePath(c, j)) !in c.from)
  }

  function Start(c: Setup): System {
    System(c.sender, c.receiver, c.into, [], [], [], false, false, false)
  }

  // An offset is asked for only to continue a partial download, from its end.
  predicate Polite(disk: Fs, path: string, choice: Choice) {
    match choice
    case Skip(_) => true
    case OffsetBlk(offset) =>
      offset > 0 ==> Download(path) in disk && DigestOf(path) in disk && |disk[Download(path)]| == offset
    case Unset => false
  }

  predicate Enabled(c: Setup, s: System, step: Step)
    requires |c.sender.files| == |c.receiver.files|
  {
    match step
    case SenderTurn => !s.done
    case SenderConfirm => s.up != []
    case ReceiverTake(choice) =>
      && s.down != []
      && (s.down[0].Digest? && s.down[0].fileNum < |c.sender.files| ==> Polite(s.disk, TargetPath(c, s.down[0].fileNum), choice))
  }

  function Next(c: Setup, s: System, step: Step): System
    requires |c.sender.files| == |c.receiver.files| && Enabled(c, s, step)
  {
    match step
    case SenderTurn =>
      var (j, out, done) := Turn(c.zip, s.s, c.from, false);
      s.(s := j, down := s.down + out, done := done)
    case SenderConfirm =>
      if !InBounds(s.s, s.up[0]) then s.(fault := true)
      else s.(s := Decide(s.s, c.from, s.up[0]), up := s.up[1..])
    case ReceiverTake(choice) =>
      Take(c, s.(down := s.down[1..]), s.down[0], choice)
  }

  function Take(c: Setup, s: System, m: Out, choice: Choice): System {
    match m
    case Data(block) =>
      var (r, disk, result) := Write(c.zip, s.r, s.disk, block);
      s.(r := r, disk := disk, fault := s.fault || result.Err?)
    case Digest(n, _) =>
      var answer := Confirm(n, choice);
      if !InBounds(s.r, answer) then s.(fault := true)
      else s.(r := Decide(s.r, s.disk, answer), up := s.up + [answer], choices := s.choices + [choice])
    case Done(_) => s.(disk := ModifyTime(s.r, s.disk), complete := true)
    case JobSkipped => s.(complete := true)
    case Failure(_) => s
  }

  // ----- What the decisions mean -----

  function First(c: Setup): nat {
    c.sender.fileNum
  }

  // Without overwrite detection every file is accepted from its beginning.
  function Fate(c: Setup, choices: seq<Choice>, j: nat): Choice {
    if First(c) <= j < First(c) + |choices| then choices[j - First(c)] else OffsetBlk(0)
  }

  predicate Accepted(c: Setup, choices: seq<Choice>, j: nat) {
    Fate(c, choices, j) != Skip(true)
  }

  function Offset(c: Setup, choices: seq<Choice>, j: nat): nat {
    if Fate(c, choices, j).OffsetBlk? then Fate(c, choices, j).offset else 0
  }

  predicate FirstAccepted(c: Setup, choices: seq<Choice>, j: nat) {
    forall k :: First(c) <= k < j ==> !Accepted(c, choices, k)
  }

  // The receiver's file number matches, so it too moves to the offset.
  predicate Resumed(c: Setup, choices: seq<Choice>, j: nat) {
    Offset(c, choices, j) > 0 && FirstAccepted(c, choices, j)
  }

  function Part(content: Bytes, offset: nat, p: nat): Bytes {
    if offset <= p <= |content| then content[offset..p] else []
  }

  function Source(c: Setup, j: nat): Bytes
    requires j < |c.sender.files|
  {
    Content(c.from, SourcePath(c, j))
  }

  // What the receiver holds for file j when the sender has reached position p of it.
  function Expected(c: Setup, choices: seq<Choice>, j: nat, p: nat): Bytes
    requires j < |c.sender.files| == |c.receiver.files|
  {
    (if Resumed(c, choices, j) then Content(c.into, Download(TargetPath(c, j))) else [])
    + Part(Source(c, j), Offset(c, choices, j), p)
  }

  // Bytes both ends count as transferred for the sender alone.
  function Lost(c: Setup, choices: seq<Choice>, n: nat): nat
    requires n <= |choices|
  {
    if n == 0 then 0
    else
      var j := First(c) + n - 1;
      Lost(c, choices, n - 1) + if Resumed(c, choices, j) then 0 else Offset(c, choices, j)
  }

  // ----- The invariant of the two ends when nothing is in flight -----

  datatype View = View(s: Job, r: Job, disk: Fs, choices: seq<Choice>)

  predicate Static(a: Job, b: Job) {
    a.id == b.id && a.base == b.base && a.files == b.files && a.overwriteDetection == b.overwriteDetection && a.digest == b.digest
  }

  predicate IsFresh(v: View) {
    v.s.stream.None? && !v.s.confirmed && !v.s.waiting
  }

  predicate IsWaiting(v: View) {
    v.s.overwriteDetection && v.s.stream.Some? && !v.s.confirmed && v.s.waiting
  }

  predicate IsSending(v: View) {
    v.s.stream.Some? && v.s.confirmed == v.s.waiting == v.s.overwriteDetection
  }

  ghost predicate SenderShape(c: Setup, v: View)
    requires |c.sender.files| == |c.receiver.files|
  {
    var i := v.s.fileNum;
    && Static(v.s, c.sender) && First(c) <= i <= |c.sender.files|
    && (IsFresh(v) || IsWaiting(v) || IsSending(v))
    && (v.s.stream.Some? ==>
          i < |c.sender.files| && v.s.stream.value.path == SourcePath(c, i) && v.s.stream.value.access == ReadOnly)
    && (IsWaiting(v) ==> v.s.stream.value.pos == 0)
    && |v.choices| == (if !v.s.overwriteDetection then 0 else i - First(c) + if IsSending(v) then 1 else 0)
    && (IsSending(v) ==> Accepted(c, v.choices, i) && Reached(c, v))
    && (v.s.skipped ==> v.choices != [] && v.choices[|v.choices| - 1] == Skip(true))
  }

  predicate Reached(c: Setup, v: View)
    requires v.s.stream.Some? && v.s.fileNum < |c.sender.files|
  {
    var o, p := Offset(c, v.choices, v.s.fileNum), v.s.stream.value.pos;
    p == o || o < p <= |Source(c, v.s.fileNum)|
  }

  // The receiver has the sender's current file open.
  predicate Current(v: View) {
    v.r.stream.Some? && v.r.fileNum == v.s.fileNum
  }

  predicate Begun(c: Setup, v: View, j: nat) {
    First(c) <= j && ((j < v.s.fileNum && Accepted(c, v.choices, j)) || (j == v.s.fileNum && Current(v)))
  }

  // How far the sender is with file j.
  function Position(c: Setup, v: View, j: nat): nat
    requires j < |c.sender.files|
  {
    if j == v.s.fileNum && v.s.stream.Some? then v.s.stream.value.pos else |Source(c, j)|
  }

  ghost predicate ReceiverShape(c: Setup, v: View)
    requires |c.sender.files| == |c.receiver.files|
  {
    && Static(v.r, c.receiver)
    && (Current(v) ==> IsSending(v))
    && (IsSending(v) && (v.s.stream.value.pos > Offset(c, v.choices, v.s.fileNum) || Resumed(c, v.choices, v.s.fileNum)) ==> Current(v))
    && (v.r.stream.None? ==> v.r.fileNum == v.s.fileNum && FirstAccepted(c, v.choices, v.s.fileNum))
    && (v.r.stream.Some? ==>
          && v.r.fileNum < |c.sender.files| && Begun(c, v, v.r.fileNum)
          && (forall j :: v.r.fileNum < j ==> !Begun(c, v, j))
          && v.r.stream.value == Stream(Download(TargetPath(c, v.r.fileNum)), |Content(v.disk, Download(TargetPath(c, v.r.fileNum)))|, WriteOnly))
  }

  ghost predicate Same(a: Fs, b: Fs, key: string) {
    (key in a <==> key in b) && (key in a ==> a[key] == b[key])
  }

  ghost predicate Untouched(c: Setup, disk: Fs, j: nat)
    requires j < |c.sender.files| == |c.receiver.files|
  {
    forall key :: key in Trio(TargetPath(c, j)) ==> Same(c.into, disk, key)
  }

  predicate Finished(disk: Fs, path: string, bytes: Bytes) {
    path in disk && disk[path] == bytes && Download(path) !in disk && DigestOf(path) !in disk
  }

  // A download under way, with the digest that lets it be continued later.
  predicate Holds(disk: Fs, path: string, bytes: Bytes, digest: Bytes) {
    Download(path) in disk && disk[Download(path)] == bytes && DigestOf(path) in disk && disk[DigestOf(path)] == digest
  }

  // A continued download keeps the digest it had.
  function DigestHeld(c: Setup, choices: seq<Choice>, j: nat): Bytes
    requires j < |c.sender.files| == |c.receiver.files|
  {
    if Resumed(c, choices, j) then Content(c.into, DigestOf(TargetPath(c, j))) else c.receiver.digest
  }

  ghost predicate FileShape(c: Setup, v: View, j: nat)
    requires j < |c.sender.files| == |c.receiver.files|
  {
    if !Begun(c, v, j) then Untouched(c, v.disk, j)
    else
      var bytes := Expected(c, v.choices, j, Position(c, v, j));
      if j == v.r.fileNum then Holds(v.disk, TargetPath(c, j), bytes, DigestHeld(c, v.choices, j)) else Finished(v.disk, TargetPath(c, j), bytes)
  }

  // No file of the list owns this path.
  ghost predicate Foreign(c: Setup, key: string)
    requires |c.sender.files| == |c.receiver.files|
  {
    forall j :: 0 <= j < |c.sender.files| ==> key !in Trio(TargetPath(c, j))
  }

  ghost predicate OthersShape(c: Setup, disk: Fs)
    requires |c.sender.files| == |c.receiver.files|
  {
    forall key :: Foreign(c, key) ==> Same(c.into, disk, key)
  }

  predicate Counted(c: Setup, v: View) {
    var lost := Lost(c, v.choices, |v.choices|);
    v.s.finished == v.r.finished + lost && v.s.transferred == v.r.transferred + lost
  }

  ghost predicate Good(c: Setup, v: View)
    requires |c.sender.files| == |c.receiver.files|
  {
    && SenderShape(c, v) && ReceiverShape(c, v) && OthersShape(c, v.disk) && Counted(c, v)
    && (forall j :: 0 <= j < |c.sender.files| ==> FileShape(c, v, j))
  }

  // ----- Paths -----

  lemma TrioDistinct(path: string)
    ensures path != Download(path) && path != DigestOf(path) && Download(path) != DigestOf(path)
  {
    assert Download(path)[|path| + 1] == 'd';
    assert |Download(path)| > |DigestOf(path)| > |path|;
  }

  lemma PromoteEffect(fs: Fs, path: string)
    ensures var f := Promote(fs, path);
      && (Download(path) in fs ==> Finished(f, path, fs[Download(path)]))
      && (forall key :: key !in Trio(path) ==> Same(fs, f, key))
  {
    TrioDistinct(path);
  }

  lemma StartEffect(c: Setup, r: Job, fs: Fs, n: nat)
    requires Honest(c) && Static(r, c.receiver) && n < |c.sender.files| && r.fileNum <= n
    ensures var (j, f) := StartFile(r, fs, n); var path := TargetPath(c, n);
      && Holds(f, path, [], r.digest)
      && (forall k :: 0 <= k < |c.sender.files| && k != n && k != r.fileNum ==> forall key :: key in Trio(TargetPath(c, k)) ==> Same(fs, f, key))
      && (forall key :: Foreign(c, key) ==> Same(fs, f, key))
      && (r.fileNum < n && Download(TargetPath(c, r.fileNum)) in fs ==>
            Finished(f, TargetPath(c, r.fileNum), fs[Download(TargetPath(c, r.fileNum))]))
  {
    hide PathOf, Download, DigestOf;
    var path, was := TargetPath(c, n), TargetPath(c, r.fileNum);
    TrioDistinct(path);
    TrioDistinct(was);
    PromoteEffect(fs, was);
    var g := ModifyTime(r, fs);
    var f := StartFile(r, fs, n).1;
    assert forall key :: key !in Trio(path) ==> Same(g, f, key);
    assert forall key :: key !in Trio(was) ==> Same(fs, g, key);
  }

  // ----- The steps keep it -----

  lemma StartGood(c: Setup)
    requires Honest(c)
    ensures Good(c, View(c.sender, c.receiver, c.into, []))
  {
  }

  // A fresh sender opens its file; with overwrite detection it now waits.
  lemma OpenGood(c: Setup, v: View)
    requires Honest(c) && Good(c, v) && IsFresh(v) && v.s.fileNum < |c.sender.files|
    ensures var (s, out, r) := InitStream(v.s, c.from);
      && r.Ok? && s.fileNum == v.s.fileNum && Good(c, v.(s := s)) && (if v.s.overwriteDetection then IsWaiting(v.(s := s)) else IsSending(v.(s := s)))
      && out == if v.s.overwriteDetection then Some(Digest(s.fileNum, |Source(c, s.fileNum)|)) else None
  {
    hide PathOf, Download, DigestOf, Expected, Untouched, Lost, Fate;
    assert SourcePath(c, v.s.fileNum) in c.from;
    var s := InitStream(v.s, c.from).0;
    var w := v.(s := s);
    assert !Current(v) && !Current(w);
    assert Fate(c, v.choices, v.s.fileNum) == OffsetBlk(0) by { FateOpen(c, v.choices, v.s.fileNum); }
    assert forall j :: Begun(c, v, j) <==> Begun(c, w, j);
    assert forall j :: 0 <= j < |c.sender.files| && Begun(c, v, j) ==> Position(c, v, j) == Position(c, w, j);
    forall j | 0 <= j < |c.sender.files|
      ensures FileShape(c, w, j)
    {
      assert FileShape(c, v, j);
    }
  }

  lemma FateOpen(c: Setup, choices: seq<Choice>, j: nat)
    requires j >= First(c) + |choices|
    ensures Fate(c, choices, j) == OffsetBlk(0)
  {
  }

  // The first block of a file makes the receiver turn to it.
  lemma BeginGood(c: Setup, v: View)
    requires Honest(c) && Good(c, v) && IsSending(v) && !Current(v)
    ensures Good(c, Started(v)) && Current(Started(v))
  {
    hide PathOf, Download, DigestOf, Lost, Fate, Promote, FileShape, Expected;
    var i, w := v.s.fileNum, Started(v);
    StartEffect(c, v.r, v.disk, i);
    assert forall j :: Begun(c, w, j) <==> Begun(c, v, j) || j == i;
    assert !Begun(c, v, i);
    forall j | 0 <= j < |c.sender.files|
      ensures FileShape(c, w, j)
    {
      BeginFile(c, v, j);
    }
    assert OthersShape(c, w.disk);
    assert ReceiverShape(c, w);
  }

  // The receiver has turned to the sender's file.
  function Started(v: View): View
    requires v.s.fileNum < |v.r.files|
  {
    var (r, disk) := StartFile(v.r, v.disk, v.s.fileNum);
    v.(r := r, disk := disk)
  }

  lemma BeginFile(c: Setup, v: View, j: nat)
    requires Honest(c) && Good(c, v) && IsSending(v) && !Current(v) && j < |c.sender.files|
    ensures FileShape(c, Started(v), j)
  {
    hide PathOf, Download, DigestOf, Lost, Fate, Promote, OthersShape, Counted;
    var i := v.s.fileNum;
    StartEffect(c, v.r, v.disk, i);
    assert FileShape(c, v, j);
    if j == i {
      assert v.s.stream.value.pos == Offset(c, v.choices, i);
      assert Expected(c, v.choices, i, Position(c, v, i)) == [];
    }
  }

  lemma ChunkExtends(content: Bytes, offset: nat, p: nat)
    requires p == offset || offset < p <= |content|
    ensures var chunk := Chunk(content, p);
      && |chunk| <= BUF_SIZE && (chunk == [] <==> p >= |content|)
      && Part(content, offset, p) + chunk == Part(content, offset, if chunk == [] then |content| else p + |chunk|)
      && (chunk != [] ==> p + |chunk| <= |content|)
  {
  }

  lemma PackRoundTrip(zip: Zip, name: string, chunk: Bytes, id: int, n: int)
    requires HonestZip(zip) && |chunk| <= BUF_SIZE
    ensures var (data, compressed) := Pack(zip, name, chunk); Unpack(zip, Block(id, n, data, compressed)) == chunk
    ensures chunk == [] ==> Pack(zip, name, chunk).0 == []
  {
    hide IsCompressedFile;
  }

  /** A compressor that fails, and so returns nothing, loses the block of every file that is compressed at all. */
  lemma FailedCompression(zip: Zip, name: string, chunk: Bytes, id: int, n: int)
    requires chunk != [] && zip.compress(chunk) == [] && zip.decompress([]) == []
    ensures var (data, compressed) := Pack(zip, name, chunk);
      Unpack(zip, Block(id, n, data, compressed)) == chunk <==> IsCompressedFile(name)
  {
    hide IsCompressedFile;
  }

  // A job after k bytes on the wire stood for this chunk of its file.
  function MovedOn(job: Job, chunk: Bytes, k: nat): Job
    requires job.stream.Some?
  {
    job.(stream := Some(job.stream.value.(pos := job.stream.value.pos + |chunk|)), finished := job.finished + |chunk|,
         transferred := job.transferred + k)
  }

  function SentOne(job: Job, chunk: Bytes, k: nat): Job
    requires job.stream.Some?
  {
    if chunk == [] then NextFile(job) else MovedOn(job, chunk, k)
  }

  // Reading one block at the sender.
  lemma ReadEffect(c: Setup, v: View)
    requires Honest(c) && Good(c, v) && IsSending(v)
    ensures var chunk := Chunk(Source(c, v.s.fileNum), v.s.stream.value.pos);
      var (data, compressed) := Pack(c.zip, NameOf(v.s), chunk);
      Read(c.zip, v.s, c.from, false)
      == (SentOne(v.s, chunk, |data|), Ok(Some(Block(v.s.id, v.s.fileNum, data, compressed))))
  {
    hide Pack, Chunk, NameOf, ReceiverShape, FileShape, OthersShape, PathOf;
  }

  lemma AppendAtEnd(content: Bytes, bytes: Bytes)
    ensures WriteAt(content, |content|, bytes) == content + bytes
  {
  }

  // Writing that block at a receiver that has the file open.
  lemma WriteEffect(c: Setup, v: View, block: Block)
    requires Honest(c) && Good(c, v) && IsSending(v) && Current(v)
    requires block.id == v.s.id && block.fileNum == v.s.fileNum
    ensures var bytes, key := Unpack(c.zip, block), Download(TargetPath(c, v.s.fileNum));
      Write(c.zip, v.r, v.disk, block)
      == (MovedOn(v.r, bytes, |block.data|), v.disk[key := Content(v.disk, key) + bytes], Ok(()))
  {
    hide Unpack, FileShape, OthersShape, PathOf, Download, WriteAt;
    AppendAtEnd(Content(v.disk, Download(TargetPath(c, v.s.fileNum))), Unpack(c.zip, block));
  }

  // The sender's position and the receiver's download grow together.
  ghost predicate Grown(c: Setup, v: View, chunk: Bytes, w: View, k: nat)
    requires |c.sender.files| == |c.receiver.files|
  {
    && Good(c, v) && IsSending(v) && Current(v)
    && chunk == Chunk(Source(c, v.s.fileNum), v.s.stream.value.pos)
    && w.s == SentOne(v.s, chunk, k) && w.r == MovedOn(v.r, chunk, k)
    && w.disk == v.disk[Download(TargetPath(c, v.s.fileNum)) := Content(v.disk, Download(TargetPath(c, v.s.fileNum))) + chunk]
    && w.choices == v.choices && (chunk == [] ==> k == 0)
  }

  lemma GrowFiles(c: Setup, v: View, chunk: Bytes, w: View, k: nat)
    requires Honest(c) && Grown(c, v, chunk, w, k)
    ensures forall j :: Begun(c, w, j) <==> Begun(c, v, j)
    ensures forall j :: 0 <= j < |c.sender.files| ==> FileShape(c, w, j)
  {
    hide PathOf, Download, DigestOf, Lost, Fate, Chunk, Expected, OthersShape;
    var i := v.s.fileNum;
    var key, p := Download(TargetPath(c, i)), v.s.stream.value.pos;
    assert FileShape(c, v, i);
    assert Begun(c, v, i);
    GrowExpected(c, v, chunk, w, k);
    TrioDistinct(TargetPath(c, i));
    forall j | 0 <= j < |c.sender.files|
      ensures FileShape(c, w, j)
    {
      assert FileShape(c, v, j);
      if j != i {
        assert key !in Trio(TargetPath(c, j));
        assert Trio(TargetPath(c, j)) !! Trio(TargetPath(c, i));
      }
    }
  }

  lemma AppendLater(a: Bytes, b: Bytes, d: Bytes)
    ensures (a + b) + d == a + (b + d)
  {
    hide *;
  }

  lemma GrowExpected(c: Setup, v: View, chunk: Bytes, w: View, k: nat)
    requires Honest(c) && Grown(c, v, chunk, w, k)
    ensures var i := v.s.fileNum;
      Expected(c, v.choices, i, v.s.stream.value.pos) + chunk == Expected(c, v.choices, i, Position(c, w, i))
  {
    hide PathOf, Download, DigestOf, Lost, Offset, Resumed, Part, Chunk, OthersShape, ReceiverShape, FileShape, Content;
    var i := v.s.fileNum;
    var content, o, p := Source(c, i), Offset(c, v.choices, i), v.s.stream.value.pos;
    ChunkExtends(content, o, p);
    assert Position(c, w, i) == if chunk == [] then |content| else p + |chunk|;
    var base := if Resumed(c, v.choices, i) then Content(c.into, Download(TargetPath(c, i))) else [];
    AppendLater(base, Part(content, o, p), chunk);
  }

  lemma GrowSender(c: Setup, v: View, chunk: Bytes, w: View, k: nat)
    requires Honest(c) && Grown(c, v, chunk, w, k)
    ensures SenderShape(c, w) && Counted(c, w) && !IsWaiting(w)
  {
    hide PathOf, Download, DigestOf, Lost, Fate, Chunk, FileShape, ReceiverShape, OthersShape;
    ChunkExtends(Source(c, v.s.fileNum), Offset(c, v.choices, v.s.fileNum), v.s.stream.value.pos);
  }

  lemma GrowReceiver(c: Setup, v: View, chunk: Bytes, w: View, k: nat)
    requires Honest(c) && Grown(c, v, chunk, w, k)
    ensures ReceiverShape(c, w) && OthersShape(c, w.disk)
  {
    hide PathOf, Download, DigestOf, Fate, Chunk, FileShape, Counted;
    assert forall j :: Begun(c, w, j) <==> Begun(c, v, j);
    assert Download(TargetPath(c, v.s.fileNum)) in Trio(TargetPath(c, v.s.fileNum));
  }

  lemma WriteBegins(c: Setup, v: View, block: Block)
    requires Honest(c) && Good(c, v) && IsSending(v) && !Current(v)
    requires block.id == v.s.id && block.fileNum == v.s.fileNum
    ensures var (r, disk) := StartFile(v.r, v.disk, v.s.fileNum);
      Write(c.zip, v.r, v.disk, block) == Write(c.zip, r, disk, block)
  {
    hide FileShape, OthersShape, PathOf, Download, Store, ModifyTime;
  }

  // The view when the next block has arrived.
  function Arrived(c: Setup, v: View): View
    requires v.s.fileNum < |c.sender.files| && v.s.stream.Some?
  {
    var (s, result) := Read(c.zip, v.s, c.from, false);
    if result.Ok? && result.value.Some? then
      var (r, disk, _) := Write(c.zip, v.r, v.disk, result.value.value);
      View(s, r, disk, v.choices)
    else v
  }

  lemma GoodParts(c: Setup, w: View)
    requires |c.sender.files| == |c.receiver.files|
    requires SenderShape(c, w) && ReceiverShape(c, w) && OthersShape(c, w.disk) && Counted(c, w)
    requires forall j :: 0 <= j < |c.sender.files| ==> FileShape(c, w, j)
    ensures Good(c, w)
  {
  }

  lemma ArrivedIs(c: Setup, v: View)
    requires Honest(c) && Good(c, v) && IsSending(v) && Current(v)
    ensures v.s.fileNum < |v.s.files| == |c.sender.files|
    ensures var chunk := Chunk(Source(c, v.s.fileNum), v.s.stream.value.pos);
      var (data, compressed) := Pack(c.zip, NameOf(v.s), chunk);
      var block := Block(v.s.id, v.s.fileNum, data, compressed);
      && Read(c.zip, v.s, c.from, false).1 == Ok(Some(block))
      && Write(c.zip, v.r, v.disk, block).2.Ok?
      && Grown(c, v, chunk, Arrived(c, v), |data|)
  {
    hide PathOf, Download, DigestOf, Pack, Unpack, Chunk, NameOf, Read, Write, Content;
    assert v.s.fileNum < |v.s.files| == |c.sender.files|;
    hide Good, Honest, SentOne, MovedOn;
    var chunk := Chunk(Source(c, v.s.fileNum), v.s.stream.value.pos);
    var (data, compressed) := Pack(c.zip, NameOf(v.s), chunk);
    ReadEffect(c, v);
    ShortChunk(Source(c, v.s.fileNum), v.s.stream.value.pos);
    PackRoundTrip(c.zip, NameOf(v.s), chunk, v.s.id, v.s.fileNum);
    WriteEffect(c, v, Block(v.s.id, v.s.fileNum, data, compressed));
  }

  lemma ArrivedGrown(c: Setup, v: View)
    requires Honest(c) && Good(c, v) && IsSending(v) && Current(v)
    ensures var (s, result) := Read(c.zip, v.s, c.from, false);
      && result.Ok? && result.value.Some? && result.value.value.id == v.s.id && result.value.value.fileNum == v.s.fileNum
      && Write(c.zip, v.r, v.disk, result.value.value).2.Ok?
      && Good(c, Arrived(c, v)) && !IsWaiting(Arrived(c, v))
  {
    hide Good, PathOf, Pack, Chunk, NameOf, Read, Write, Grown, Arrived, HonestZip, Trio;
    ArrivedIs(c, v);
    var chunk := Chunk(Source(c, v.s.fileNum), v.s.stream.value.pos);
    var k := |Pack(c.zip, NameOf(v.s), chunk).0|;
    GrowFiles(c, v, chunk, Arrived(c, v), k);
    GrowSender(c, v, chunk, Arrived(c, v), k);
    GrowReceiver(c, v, chunk, Arrived(c, v), k);
    GoodParts(c, Arrived(c, v));
  }

  lemma ShortChunk(content: Bytes, p: nat)
    ensures |Chunk(content, p)| <= BUF_SIZE
  {
  }

  // One block from a sender that may send, and its arrival.
  lemma BlockGood(c: Setup, v: View)
    requires Honest(c) && Good(c, v) && IsSending(v)
    ensures var (s, result) := Read(c.zip, v.s, c.from, false);
      && result.Ok? && result.value.Some?
      && Write(c.zip, v.r, v.disk, result.value.value).2.Ok?
      && Good(c, Arrived(c, v)) && !IsWaiting(Arrived(c, v))
  {
    hide PathOf, Download, DigestOf, Read, Write, FileShape, OthersShape;
    if Current(v) {
      ArrivedGrown(c, v);
    } else {
      BeginGood(c, v);
      ArrivedGrown(c, Started(v));
      WriteBegins(c, v, Read(c.zip, v.s, c.from, false).1.value.value);
    }
  }

  // ----- A decision, at both ends -----

  lemma FateGrows(c: Setup, choices: seq<Choice>, choice: Choice, n: nat)
    requires n <= First(c) + |choices|
    ensures forall j :: 0 <= j < n ==> Fate(c, choices + [choice], j) == Fate(c, choices, j)
    ensures forall j :: 0 <= j <= n ==> FirstAccepted(c, choices + [choice], j) == FirstAccepted(c, choices, j)
  {
    forall j | 0 <= j <= n
      ensures FirstAccepted(c, choices + [choice], j) == FirstAccepted(c, choices, j)
    {
      assert forall k :: 0 <= k < j ==> Accepted(c, choices + [choice], k) == Accepted(c, choices, k);
    }
  }

  lemma {:induction false} LostGrows(c: Setup, choices: seq<Choice>, choice: Choice, n: nat)
    requires n <= |choices|
    ensures Lost(c, choices + [choice], n) == Lost(c, choices, n)
  {
    if n > 0 {
      FateGrows(c, choices, choice, First(c) + n);
      LostGrows(c, choices, choice, n - 1);
    }
  }

  // The view when both ends have taken the decision on the sender's current file.
  function Decided(c: Setup, v: View, choice: Choice): View
    requires v.s.fileNum < |v.s.files| && v.r.files == v.s.files
  {
    var answer := Confirm(v.s.fileNum, choice);
    View(Decide(v.s, c.from, answer), Decide(v.r, v.disk, answer), v.disk, v.choices + [choice])
  }

  lemma DecideSender(c: Setup, v: View, choice: Choice)
    requires Honest(c) && Good(c, v) && IsWaiting(v) && choice != Unset
    ensures var s := Decide(v.s, c.from, Confirm(v.s.fileNum, choice));
      s == match choice
           case Skip(true) => SkipFile(v.s)
           case Skip(false) => v.s.(confirmed := true, skipped := false)
           case OffsetBlk(o) =>
             v.s.(confirmed := true, skipped := false, stream := Some(v.s.stream.value.(pos := o)),
                  finished := v.s.finished + o, transferred := v.s.transferred + o)
           case Unset => v.s
  {
    hide PathOf, Download, DigestOf, ReceiverShape, FileShape, OthersShape, Counted;
    assert SourcePath(c, v.s.fileNum) in c.from && Download(SourcePath(c, v.s.fileNum)) !in c.from;
  }

  lemma DecideReceiver(c: Setup, v: View, choice: Choice)
    requires Honest(c) && Good(c, v) && IsWaiting(v) && Polite(v.disk, TargetPath(c, v.s.fileNum), choice)
    ensures v.r.files == v.s.files
    ensures var r, i := Decide(v.r, v.disk, Confirm(v.s.fileNum, choice)), v.s.fileNum;
      if v.r.fileNum != i then r == v.r
      else
        match choice
        case Skip(true) => r == SkipFile(v.r)
        case Skip(false) => r == v.r.(confirmed := true, skipped := false)
        case OffsetBlk(o) =>
          (if o == 0 then r == v.r.(confirmed := true, skipped := false)
           else
             && |Content(v.disk, Download(TargetPath(c, i)))| == o && Download(TargetPath(c, i)) in v.disk
             && r == v.r.(confirmed := true, skipped := false, stream := Some(Stream(Download(TargetPath(c, i)), o, WriteOnly)),
                          finished := v.r.finished + o, transferred := v.r.transferred + o))
        case Unset => true
  {
    hide PathOf, Download, DigestOf, FileShape, OthersShape, Counted;
  }

  // The receiver's file number is the sender's exactly while every file so far was skipped.
  lemma Matched(c: Setup, v: View)
    requires Honest(c) && Good(c, v) && IsWaiting(v)
    ensures v.r.fileNum == v.s.fileNum <==> FirstAccepted(c, v.choices, v.s.fileNum)
    ensures v.r.fileNum == v.s.fileNum <==> v.r.stream.None?
  {
    hide FileShape, OthersShape, Counted, Fate;
  }

  lemma DecideCounts(c: Setup, v: View, choice: Choice)
    requires Honest(c) && Good(c, v) && IsWaiting(v) && Polite(v.disk, TargetPath(c, v.s.fileNum), choice)
    ensures v.r.files == v.s.files && Counted(c, Decided(c, v, choice))
  {
    hide PathOf, Download, DigestOf, FileShape, OthersShape, Decide, FirstAccepted;
    var i := v.s.fileNum;
    Matched(c, v);
    DecideSender(c, v, choice);
    DecideReceiver(c, v, choice);
    FateGrows(c, v.choices, choice, i);
    LostGrows(c, v.choices, choice, |v.choices|);
    assert Fate(c, v.choices + [choice], i) == choice;
  }

  lemma DecideEnds(c: Setup, v: View, choice: Choice)
    requires Honest(c) && Good(c, v) && IsWaiting(v) && Polite(v.disk, TargetPath(c, v.s.fileNum), choice)
    ensures v.r.files == v.s.files && v.s.fileNum < |v.s.files|
    ensures SenderShape(c, Decided(c, v, choice)) && !IsWaiting(Decided(c, v, choice))
    ensures ReceiverShape(c, Decided(c, v, choice))
    ensures DecideBegins(c, v, Decided(c, v, choice))
  {
    DecideReceiver(c, v, choice);
    DecideSenderShape(c, v, choice);
    DecideReceiverShape(c, v, choice);
  }

  // A decision begins a file exactly if it resumes it.
  ghost predicate DecideBegins(c: Setup, v: View, w: View) {
    forall j :: Begun(c, w, j) <==> Begun(c, v, j) || (j == v.s.fileNum && Resumed(c, w.choices, j))
  }

  lemma DecideSenderShape(c: Setup, v: View, choice: Choice)
    requires Honest(c) && Good(c, v) && IsWaiting(v) && Polite(v.disk, TargetPath(c, v.s.fileNum), choice)
    requires v.r.files == v.s.files && v.s.fileNum < |v.s.files|
    ensures SenderShape(c, Decided(c, v, choice)) && !IsWaiting(Decided(c, v, choice))
  {
    hide PathOf, Download, DigestOf, FileShape, OthersShape, ReceiverShape, Decide, Counted, FirstAccepted, Fate;
    DecideSender(c, v, choice);
    FateLast(c, v.choices, choice);
  }

  lemma DecideReceiverShape(c: Setup, v: View, choice: Choice)
    requires Honest(c) && Good(c, v) && IsWaiting(v) && Polite(v.disk, TargetPath(c, v.s.fileNum), choice)
    requires v.r.files == v.s.files && v.s.fileNum < |v.s.files|
    ensures ReceiverShape(c, Decided(c, v, choice)) && DecideBegins(c, v, Decided(c, v, choice))
  {
    hide PathOf, Download, DigestOf, FileShape, OthersShape, Decide, Counted, FirstAccepted, Fate;
    var i := v.s.fileNum;
    Matched(c, v);
    DecideSender(c, v, choice);
    DecideReceiver(c, v, choice);
    FateGrows(c, v.choices, choice, i);
    FateOpen(c, v.choices, i);
    FateLast(c, v.choices, choice);
    var w := Decided(c, v, choice);
    assert DecideBegins(c, v, w);
    assert w.r.stream.Some? ==> Begun(c, w, w.r.fileNum);
  }

  lemma FateLast(c: Setup, choices: seq<Choice>, choice: Choice)
    ensures var j := First(c) + |choices|;
      && Fate(c, choices + [choice], j) == choice
      && FirstAccepted(c, choices + [choice], j + 1) == (FirstAccepted(c, choices, j) && choice == Skip(true))
  {
    FateGrows(c, choices, choice, First(c) + |choices|);
    var j, more := First(c) + |choices|, choices + [choice];
    assert Fate(c, more, j) == choice;
    assert FirstAccepted(c, more, j + 1) <==> FirstAccepted(c, more, j) && !Accepted(c, more, j);
  }

  lemma DecideFile(c: Setup, v: View, choice: Choice, j: nat)
    requires Honest(c) && Good(c, v) && IsWaiting(v) && Polite(v.disk, TargetPath(c, v.s.fileNum), choice)
    requires j < |c.sender.files|
    ensures v.r.files == v.s.files && FileShape(c, Decided(c, v, choice), j)
  {
    hide PathOf, Download, DigestOf, OthersShape, SenderShape, ReceiverShape, Decide, Counted, FirstAccepted, Fate, Part, Trio;
    assert FileShape(c, v, j);
    DecideEnds(c, v, choice);
    var w := Decided(c, v, choice);
    if Begun(c, v, j) {
      DecideKeeps(c, v, choice, j);
    } else if Begun(c, w, j) {
      DecideResumes(c, v, choice);
    }
  }

  lemma DecideKeeps(c: Setup, v: View, choice: Choice, j: nat)
    requires Honest(c) && Good(c, v) && IsWaiting(v) && Polite(v.disk, TargetPath(c, v.s.fileNum), choice)
    requires j < |c.sender.files| && Begun(c, v, j)
    ensures v.r.files == v.s.files
    ensures var w := Decided(c, v, choice);
      && (w.r.fileNum == j <==> v.r.fileNum == j)
      && Expected(c, w.choices, j, Position(c, w, j)) == Expected(c, v.choices, j, Position(c, v, j))
      && DigestHeld(c, w.choices, j) == DigestHeld(c, v.choices, j)
  {
    hide PathOf, Download, DigestOf, OthersShape, FileShape, Decide, Counted, FirstAccepted, Fate, Part;
    Matched(c, v);
    DecideSender(c, v, choice);
    DecideReceiver(c, v, choice);
    FateGrows(c, v.choices, choice, v.s.fileNum);
  }

  lemma DecideResumes(c: Setup, v: View, choice: Choice)
    requires Honest(c) && Good(c, v) && IsWaiting(v) && Polite(v.disk, TargetPath(c, v.s.fileNum), choice)
    requires v.r.files == v.s.files && Resumed(c, v.choices + [choice], v.s.fileNum)
    ensures var w, i := Decided(c, v, choice), v.s.fileNum;
      && w.r.fileNum == i && Holds(v.disk, TargetPath(c, i), Expected(c, w.choices, i, Position(c, w, i)), DigestHeld(c, w.choices, i))
  {
    hide PathOf, Download, DigestOf, OthersShape, Decide, Counted, FirstAccepted, Fate;
    var i := v.s.fileNum;
    assert FileShape(c, v, i);
    Matched(c, v);
    DecideSender(c, v, choice);
    DecideReceiver(c, v, choice);
    FateGrows(c, v.choices, choice, i);
    FateLast(c, v.choices, choice);
    assert Download(TargetPath(c, i)) in Trio(TargetPath(c, i));
  }

  lemma DecideGood(c: Setup, v: View, choice: Choice)
    requires Honest(c) && Good(c, v) && IsWaiting(v) && Polite(v.disk, TargetPath(c, v.s.fileNum), choice)
    ensures v.r.files == v.s.files
    ensures Good(c, Decided(c, v, choice)) && !IsWaiting(Decided(c, v, choice))
  {
    hide PathOf, Download, DigestOf, FileShape, SenderShape, ReceiverShape, Counted, Decide;
    DecideEnds(c, v, choice);
    DecideCounts(c, v, choice);
    forall j | 0 <= j < |c.sender.files|
      ensures FileShape(c, Decided(c, v, choice), j)
    {
      DecideFile(c, v, choice, j);
    }
  }

  // ----- The system: what is in flight is drained first -----

  // The receiver after writing every block in flight, and whether all writes succeeded.
  function Settle(zip: Zip, r: Job, disk: Fs, down: seq<Out>): (Job, Fs, bool)
    decreases down
  {
    if down == [] then (r, disk, true)
    else if down[0].Data? then
      var (r', disk', result) := Write(zip, r, disk, down[0].block);
      var (r'', disk'', ok) := Settle(zip, r', disk', down[1..]);
      (r'', disk'', ok && result.Ok?)
    else Settle(zip, r, disk, down[1..])
  }

  lemma {:induction false} SettleAppend(zip: Zip, r: Job, disk: Fs, down: seq<Out>, m: Out)
    ensures var (r1, disk1, ok1) := Settle(zip, r, disk, down);
      var (r2, disk2, ok2) := Settle(zip, r1, disk1, [m]);
      Settle(zip, r, disk, down + [m]) == (r2, disk2, ok1 && ok2)
    decreases down
  {
    hide Write;
    if down != [] {
      assert (down + [m])[0] == down[0] && (down + [m])[1..] == down[1..] + [m];
      if down[0].Data? {
        var (r', disk', _) := Write(zip, r, disk, down[0].block);
        SettleAppend(zip, r', disk', down[1..], m);
      } else {
        SettleAppend(zip, r, disk, down[1..], m);
      }
    }
  }

  predicate AllData(down: seq<Out>) {
    forall k :: 0 <= k < |down| ==> down[k].Data?
  }

  // A run of blocks and one last message of another kind.
  predicate Closing(down: seq<Out>) {
    down != [] && !down[|down| - 1].Data? && forall k :: 0 <= k < |down| - 1 ==> down[k].Data?
  }

  function Drained(c: Setup, s: System, j: Job): View {
    var (r, disk, _) := Settle(c.zip, s.r, s.disk, s.down);
    View(j, r, disk, s.choices)
  }

  // Decisions to continue a download were made from its end.
  predicate Backed(c: Setup, choices: seq<Choice>)
    requires |c.sender.files| == |c.receiver.files|
  {
    forall j :: 0 <= j < |c.sender.files| && Resumed(c, choices, j)
      ==> |Content(c.into, Download(TargetPath(c, j)))| == Offset(c, choices, j)
  }

  ghost predicate Flowing(c: Setup, s: System)
    requires |c.sender.files| == |c.receiver.files|
  {
    !s.done && s.up == [] && AllData(s.down) && Good(c, Drained(c, s, s.s)) && !IsWaiting(Drained(c, s, s.s))
  }

  ghost predicate Asking(c: Setup, s: System)
    requires |c.sender.files| == |c.receiver.files|
  {
    && !s.done && s.up == [] && Good(c, Drained(c, s, s.s)) && IsWaiting(Drained(c, s, s.s))
    && Closing(s.down) && s.down[|s.down| - 1] == Digest(s.s.fileNum, |Source(c, s.s.fileNum)|)
  }

  ghost predicate Answering(c: Setup, s: System)
    requires |c.sender.files| == |c.receiver.files|
  {
    && !s.done && s.down == [] && |s.up| == 1
    && s.s.fileNum < |s.s.files| && s.s.stream.Some? && s.s.overwriteDetection && !s.s.confirmed && s.s.waiting
    && Good(c, View(Decide(s.s, c.from, s.up[0]), s.r, s.disk, s.choices))
    && !IsWaiting(View(Decide(s.s, c.from, s.up[0]), s.r, s.disk, s.choices))
  }

  ghost predicate Ending(c: Setup, s: System)
    requires |c.sender.files| == |c.receiver.files|
  {
    && s.done && s.up == [] && Good(c, Drained(c, s, s.s)) && IsFresh(Drained(c, s, s.s)) && s.s.fileNum == |c.sender.files|
    && Closing(s.down) && s.down[|s.down| - 1] == if SkippedWhole(s.s) then JobSkipped else Done(s.s.fileNum)
  }

  // Accepted files hold what was sent for them, the others and all foreign paths are as before.
  ghost predicate Delivered(c: Setup, s: System)
    requires |c.sender.files| == |c.receiver.files|
  {
    && s.s.fileNum == |c.sender.files|
    && |s.choices| == (if c.sender.overwriteDetection then |c.sender.files| - First(c) else 0)
    && (forall j :: 0 <= j < |c.sender.files| ==>
          if First(c) <= j && Accepted(c, s.choices, j) then Finished(s.disk, TargetPath(c, j), Expected(c, s.choices, j, |Source(c, j)|))
          else Untouched(c, s.disk, j))
    && OthersShape(c, s.disk)
    && Counted(c, View(s.s, s.r, s.disk, s.choices))
  }

  ghost predicate Inv(c: Setup, s: System)
    requires |c.sender.files| == |c.receiver.files|
  {
    && !s.fault && Backed(c, s.choices) && Settle(c.zip, s.r, s.disk, s.down).2
    && if s.complete then s.done && s.down == [] && s.up == [] && Delivered(c, s)
       else Flowing(c, s) || Asking(c, s) || Answering(c, s) || Ending(c, s)
  }

  lemma AppendOne(down: seq<Out>, m: Out)
    requires AllData(down)
    ensures if m.Data? then AllData(down + [m]) else Closing(down + [m])
  {
  }

  lemma SettleOne(zip: Zip, r: Job, disk: Fs, out: seq<Out>)
    requires |out| == 1
    ensures Settle(zip, r, disk, out) == if out[0].Data? then var (r', disk', result) := Write(zip, r, disk, out[0].block); (r', disk', result.Ok?) else (r, disk, true)
  {
    hide Write;
    assert out[1..] == [];
  }

  lemma TurnEnds(c: Setup, v: View)
    requires Honest(c) && Good(c, v) && IsFresh(v) && v.s.fileNum == |c.sender.files|
    ensures Turn(c.zip, v.s, c.from, false) == (v.s, [if SkippedWhole(v.s) then JobSkipped else Done(v.s.fileNum)], true)
  {
    hide ReceiverShape, FileShape, OthersShape, Counted, PathOf;
    var last := if SkippedWhole(v.s) then JobSkipped else Done(v.s.fileNum);
    assert [] + [last] == [last];
  }

  lemma TurnAsks(c: Setup, v: View)
    requires Honest(c) && Good(c, v) && IsFresh(v) && v.s.fileNum < |c.sender.files| && v.s.overwriteDetection
    ensures var s := InitStream(v.s, c.from).0;
      && s.fileNum == v.s.fileNum
      && Turn(c.zip, v.s, c.from, false) == (s, [Digest(s.fileNum, |Source(c, s.fileNum)|)], false)
      && Good(c, v.(s := s)) && IsWaiting(v.(s := s))
  {
    OpenGood(c, v);
    hide Good, PathOf, InitStream;
  }

  lemma TurnSends(c: Setup, v: View)
    requires Honest(c) && Good(c, v) && v.s.fileNum < |c.sender.files|
    requires IsSending(v) || (IsFresh(v) && !v.s.overwriteDetection)
    ensures var (s, out, done) := Turn(c.zip, v.s, c.from, false);
      && |out| == 1 && !done && out[0].Data?
      && var (r, disk, written) := Write(c.zip, v.r, v.disk, out[0].block);
      written.Ok? && Good(c, View(s, r, disk, v.choices)) && !IsWaiting(View(s, r, disk, v.choices))
  {
    var w := v.(s := InitStream(v.s, c.from).0);
    if IsFresh(v) {
      OpenGood(c, v);
    } else {
      assert InitStream(v.s, c.from) == (v.s, None, Ok(()));
    }
    hide Good, PathOf, InitStream, Read, Write;
    BlockGood(c, w);
  }

  // One turn of a sender that is not waiting for a decision.
  lemma TurnShape(c: Setup, v: View)
    requires Honest(c) && Good(c, v) && !IsWaiting(v)
    ensures var (s, out, done) := Turn(c.zip, v.s, c.from, false);
      && |out| == 1 && s.overwriteDetection == v.s.overwriteDetection
      && done == (v.s.fileNum == |c.sender.files|)
      && (if done then
            && out[0] == (if SkippedWhole(s) then JobSkipped else Done(s.fileNum))
            && Good(c, v.(s := s)) && IsFresh(v.(s := s)) && s.fileNum == |c.sender.files|
          else if out[0].Data? then
            var (r, disk, written) := Write(c.zip, v.r, v.disk, out[0].block);
            written.Ok? && Good(c, View(s, r, disk, v.choices)) && !IsWaiting(View(s, r, disk, v.choices))
          else
            && s.fileNum < |c.sender.files| && out[0] == Digest(s.fileNum, |Source(c, s.fileNum)|)
            && Good(c, v.(s := s)) && IsWaiting(v.(s := s)))
  {
    if v.s.fileNum == |c.sender.files| {
      assert IsFresh(v);
      hide Good, Turn;
      TurnEnds(c, v);
    } else if IsFresh(v) && v.s.overwriteDetection {
      hide Good, Turn;
      TurnAsks(c, v);
    } else {
      assert IsSending(v) || IsFresh(v);
      TurnKeepsPolicy(c, v);
      hide Good, Turn, Write;
      TurnSends(c, v);
    }
  }

  lemma TurnKeepsPolicy(c: Setup, v: View)
    ensures Turn(c.zip, v.s, c.from, false).0.overwriteDetection == v.s.overwriteDetection
  {
    hide PathOf, Pack, Chunk, NameOf;
  }

  // The sender's turn while it may send: a digest, a block, or the end.
  lemma FlowingTurn(c: Setup, s: System)
    requires Honest(c) && Inv(c, s) && !s.complete && Flowing(c, s)
    ensures Inv(c, Next(c, s, SenderTurn)) && !Next(c, s, SenderTurn).complete
  {
    hide Good, Backed, Settle, Read, Write, InitStream, Completed;
    var v := Drained(c, s, s.s);
    var t := Next(c, s, SenderTurn);
    TurnShape(c, v);
    hide Turn;
    var (j, out, done) := Turn(c.zip, s.s, c.from, false);
    assert out == [out[0]];
    SettleAppend(c.zip, s.r, s.disk, s.down, out[0]);
    AppendOne(s.down, out[0]);
    SettleOne(c.zip, v.r, v.disk, out);
    assert t.down[|t.down| - 1] == out[0];
    if done {
      assert Drained(c, t, j) == v.(s := j);
      assert Ending(c, t);
    } else if out[0].Data? {
      assert Flowing(c, t);
    } else {
      assert Drained(c, t, j) == v.(s := j);
      assert Asking(c, t);
    }
  }

  // A sender waiting for a decision does nothing in its turn.
  lemma WaitingTurn(zip: Zip, job: Job, from: Fs)
    requires job.fileNum < |job.files| && job.stream.Some? && job.overwriteDetection && !job.confirmed && job.waiting
    ensures Turn(zip, job, from, false) == (job, [], false)
  {
  }

  lemma IdleTurn(c: Setup, s: System)
    requires Honest(c) && Inv(c, s) && !s.complete && (Asking(c, s) || Answering(c, s))
    ensures Next(c, s, SenderTurn) == s
  {
    WaitingTurn(c.zip, s.s, c.from);
    assert s.down + [] == s.down;
  }

  lemma ConfirmKeeps(c: Setup, s: System)
    requires Honest(c) && Inv(c, s) && s.up != []
    ensures Inv(c, Next(c, s, SenderConfirm))
  {
    hide Good, Decide, Backed;
    assert Answering(c, s);
    assert s.up[1..] == [];
  }

  lemma TakeData(c: Setup, s: System, choice: Choice)
    requires Honest(c) && Inv(c, s) && s.down != [] && s.down[0].Data?
    ensures Inv(c, Next(c, s, ReceiverTake(choice)))
  {
    hide Good, Write, Backed;
    var t := Next(c, s, ReceiverTake(choice));
    assert Drained(c, t, t.s) == Drained(c, s, s.s);
    assert AllData(s.down) ==> AllData(t.down);
    if Closing(s.down) {
      assert t.down[|t.down| - 1] == s.down[|s.down| - 1];
    }
  }

  lemma LastAlone(down: seq<Out>)
    requires Closing(down) && !down[0].Data?
    ensures |down| == 1
  {
  }

  lemma BackedGrows(c: Setup, v: View, choice: Choice)
    requires Honest(c) && Good(c, v) && IsWaiting(v) && Backed(c, v.choices)
    requires Polite(v.disk, TargetPath(c, v.s.fileNum), choice)
    ensures Backed(c, v.choices + [choice])
  {
    hide PathOf, Download, DigestOf, OthersShape, ReceiverShape, Counted, Fate, FirstAccepted;
    var i := v.s.fileNum;
    assert v.r.stream.Some? && v.r.fileNum == i ==> Current(v);
    assert !Begun(c, v, i) by { WaitingNotBegun(c, v); }
    assert FileShape(c, v, i);
    assert Download(TargetPath(c, i)) in Trio(TargetPath(c, i));
    FateGrows(c, v.choices, choice, i);
    FateLast(c, v.choices, choice);
    forall j | 0 <= j < |c.sender.files| && Resumed(c, v.choices + [choice], j)
      ensures |Content(c.into, Download(TargetPath(c, j)))| == Offset(c, v.choices + [choice], j)
    {
      if j < i {
        assert Resumed(c, v.choices, j);
      } else if j > i {
        FateOpen(c, v.choices + [choice], j);
      }
    }
  }

  lemma WaitingNotBegun(c: Setup, v: View)
    requires Honest(c) && Good(c, v) && IsWaiting(v)
    ensures !Begun(c, v, v.s.fileNum)
  {
  }

  lemma TakeDigest(c: Setup, s: System, choice: Choice)
    requires Honest(c) && Inv(c, s) && !s.complete && Asking(c, s) && !s.down[0].Data? && Enabled(c, s, ReceiverTake(choice))
    ensures Inv(c, Next(c, s, ReceiverTake(choice)))
  {
    LastAlone(s.down);
    assert s.down == [s.down[0]] && s.down[1..] == [];
    var v := View(s.s, s.r, s.disk, s.choices);
    SettleOne(c.zip, s.r, s.disk, s.down);
    assert Drained(c, s, s.s) == v;
    SenderOpen(c, v);
    hide Good, Backed, Polite;
    BackedGrows(c, v, choice);
    DecideGood(c, v, choice);
    var t := Next(c, s, ReceiverTake(choice));
    assert t.up == [Confirm(s.s.fileNum, choice)];
    assert Decided(c, v, choice) == View(Decide(t.s, c.from, t.up[0]), t.r, t.disk, t.choices);
  }

  lemma SenderOpen(c: Setup, v: View)
    requires Honest(c) && Good(c, v) && IsWaiting(v)
    ensures v.s.fileNum < |v.s.files| == |v.r.files| == |c.sender.files| && v.s.stream.Some? && v.s.overwriteDetection
  {
  }

  // At the end the last file begun is promoted; if none was, nothing is.
  lemma PromoteLast(c: Setup, v: View, j: nat)
    requires Honest(c) && Good(c, v) && IsFresh(v) && v.s.fileNum == |c.sender.files| && j < |c.sender.files|
    ensures var disk := ModifyTime(v.r, v.disk);
      if First(c) <= j && Accepted(c, v.choices, j) then Finished(disk, TargetPath(c, j), Expected(c, v.choices, j, |Source(c, j)|))
      else Untouched(c, disk, j)
  {
    hide PathOf, Download, DigestOf, Expected, Fate, Promote, Counted, OthersShape;
    assert FileShape(c, v, j);
    if v.r.stream.Some? {
      assert FileShape(c, v, v.r.fileNum);
      PromoteEffect(v.disk, TargetPath(c, v.r.fileNum));
    }
  }

  lemma EndCounts(c: Setup, v: View)
    requires Honest(c) && Good(c, v) && IsFresh(v) && v.s.fileNum == |c.sender.files|
    ensures |v.choices| == if c.sender.overwriteDetection then |c.sender.files| - First(c) else 0
    ensures OthersShape(c, ModifyTime(v.r, v.disk))
    ensures SkippedWhole(v.s) ==> ModifyTime(v.r, v.disk) == v.disk
  {
    hide PathOf, Download, DigestOf, Expected, Promote, Counted;
    if v.r.stream.Some? {
      PromoteEffect(v.disk, TargetPath(c, v.r.fileNum));
      assert forall key :: Foreign(c, key) ==> key !in Trio(TargetPath(c, v.r.fileNum));
    }
  }

  lemma TakeEnd(c: Setup, s: System, choice: Choice)
    requires Honest(c) && Inv(c, s) && !s.complete && Ending(c, s) && !s.down[0].Data?
    ensures Inv(c, Next(c, s, ReceiverTake(choice)))
  {
    assert |c.sender.files| == |c.receiver.files|;
    hide Flowing, Asking, Answering, Honest, SenderShape, ReceiverShape, OthersShape, FileShape;
    LastAlone(s.down);
    assert s.down == [s.down[0]] && s.down[1..] == [];
    var v := View(s.s, s.r, s.disk, s.choices);
    SettleOne(c.zip, s.r, s.disk, s.down);
    assert Drained(c, s, s.s) == v;
    EndCounts(c, v);
    assert Counted(c, v);
    hide Settle, Drained;
    var t := Next(c, s, ReceiverTake(choice));
    hide Good, Backed, Counted, Expected, ModifyTime, Untouched;
    assert t.disk == ModifyTime(s.r, s.disk);
    forall j | 0 <= j < |c.sender.files|
      ensures if First(c) <= j && Accepted(c, t.choices, j) then Finished(t.disk, TargetPath(c, j), Expected(c, t.choices, j, |Source(c, j)|))
              else Untouched(c, t.disk, j)
    {
      PromoteLast(c, v, j);
    }
  }

  lemma StepKeeps(c: Setup, s: System, step: Step)
    requires Honest(c) && Inv(c, s) && Enabled(c, s, step)
    ensures Inv(c, Next(c, s, step))
  {
    match step {
      case SenderTurn =>
        if Flowing(c, s) {
          FlowingTurn(c, s);
        } else {
          IdleTurn(c, s);
        }
      case SenderConfirm =>
        ConfirmKeeps(c, s);
      case ReceiverTake(choice) =>
        hide Good, Delivered, Settle, Drained;
        if s.down[0].Data? {
          TakeData(c, s, choice);
        } else if Asking(c, s) {
          TakeDigest(c, s, choice);
        } else {
          assert !Flowing(c, s);
          TakeEnd(c, s, choice);
        }
    }
  }

  // ----- Runs -----

  ghost predicate Run(c: Setup, s: System, steps: seq<Step>, t: System)
    requires |c.sender.files| == |c.receiver.files|
    decreases |steps|
  {
    if steps == [] then t == s else Enabled(c, s, steps[0]) && Run(c, Next(c, s, steps[0]), steps[1..], t)
  }

  lemma {:induction false} RunKeeps(c: Setup, s: System, steps: seq<Step>, t: System)
    requires Honest(c) && Inv(c, s) && Run(c, s, steps, t)
    ensures Inv(c, t)
    decreases |steps|
  {
    hide Inv, Next, HonestZip, Trio;
    if steps != [] {
      StepKeeps(c, s, steps[0]);
      RunKeeps(c, Next(c, s, steps[0]), steps[1..], t);
    }
  }

  lemma StartInv(c: Setup)
    requires Honest(c)
    ensures Inv(c, Start(c))
  {
    hide Good;
    StartGood(c);
    assert Drained(c, Start(c), c.sender) == View(c.sender, c.receiver, c.into, []);
  }

  /**
   No write fails and no index is out of bounds, in any run; and when the receiver has
   seen the end, every accepted file holds exactly what was sent for it, with no companion
   left, and every other path of the disk is as it was.
   */
  lemma TransferResult(c: Setup, steps: seq<Step>, t: System)
    requires Honest(c) && Run(c, Start(c), steps, t)
    ensures !t.fault
    ensures t.complete ==> Delivered(c, t) && Backed(c, t.choices)
  {
    hide Good;
    StartInv(c);
    RunKeeps(c, Start(c), steps, t);
  }

  // Exactly when an accepted file ends up as the sender's: it was sent from its beginning;
  // or everything before it was skipped and the partial download is a prefix of it;
  // or it is empty.
  predicate Intact(c: Setup, choices: seq<Choice>, j: nat)
    requires j < |c.sender.files| == |c.receiver.files|
  {
    || Offset(c, choices, j) == 0
    || (if FirstAccepted(c, choices, j) then Content(c.into, Download(TargetPath(c, j))) <= Source(c, j) else Source(c, j) == [])
  }

  lemma IntactExact(c: Setup, choices: seq<Choice>, j: nat)
    requires Honest(c) && Backed(c, choices) && j < |c.sender.files|
    ensures Expected(c, choices, j, |Source(c, j)|) == Source(c, j) <==> Intact(c, choices, j)
  {
    hide Fate, FirstAccepted, Content, PathOf, Download;
    var whole, o := Source(c, j), Offset(c, choices, j);
    if Resumed(c, choices, j) {
      var base := Content(c.into, Download(TargetPath(c, j)));
      if o <= |whole| {
        assert whole == whole[..o] + whole[o..];
        assert (base + whole[o..])[..o] == base;
      }
    }
  }

  /** Every file of a completed transfer: skipped ones untouched, accepted ones recreated exactly when Intact says. */
  lemma FilesRecreated(c: Setup, steps: seq<Step>, t: System, j: nat)
    requires Honest(c) && Run(c, Start(c), steps, t) && t.complete && First(c) <= j < |c.sender.files|
    ensures !Accepted(c, t.choices, j) ==> Untouched(c, t.disk, j)
    ensures Accepted(c, t.choices, j) ==> (Finished(t.disk, TargetPath(c, j), Source(c, j)) <==> Intact(c, t.choices, j))
  {
    hide Honest, Run, Expected, Untouched, PathOf, Source, Intact;
    TransferResult(c, steps, t);
    if Accepted(c, t.choices, j) {
      IntactExact(c, t.choices, j);
    }
  }

  // ----- Counters -----

  predicate AllMatched(c: Setup, choices: seq<Choice>, n: nat) {
    forall j :: First(c) <= j < First(c) + n && Offset(c, choices, j) > 0 ==> FirstAccepted(c, choices, j)
  }

  lemma {:induction false} LostNothing(c: Setup, choices: seq<Choice>, n: nat)
    requires n <= |choices|
    ensures Lost(c, choices, n) == 0 <==> AllMatched(c, choices, n)
  {
    hide Fate, FirstAccepted;
    if n > 0 {
      LostNothing(c, choices, n - 1);
      assert AllMatched(c, choices, n) <==>
        AllMatched(c, choices, n - 1) && (Offset(c, choices, First(c) + n - 1) > 0 ==> FirstAccepted(c, choices, First(c) + n - 1));
    }
  }

  /** Both ends count the same exactly when every offset was asked for before any file was accepted. */
  lemma CountersAgree(c: Setup, steps: seq<Step>, t: System)
    requires Honest(c) && Run(c, Start(c), steps, t) && t.complete
    ensures t.s.finished - t.r.finished == t.s.transferred - t.r.transferred >= 0
    ensures t.s.finished == t.r.finished <==> AllMatched(c, t.choices, |t.choices|)
  {
    hide Honest, Run, Expected, Untouched, PathOf, Source, AllMatched;
    TransferResult(c, steps, t);
    LostNothing(c, t.choices, |t.choices|);
  }
}
