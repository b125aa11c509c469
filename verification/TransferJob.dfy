/**
 TransferJob of libs/hbb_common/src/fs.rs for generic jobs over files. A disk is a map
 from path to contents; the compressor is a parameter.
 */
module TransferJob {
  import opened Wrappers

  const BUF_SIZE: nat := 128 * 1024

  type Fs = map<string, Bytes>

  datatype Access = ReadOnly | WriteOnly

  datatype Stream = Stream(path: string, pos: nat, access: Access)

  datatype Block = Block(id: int, fileNum: int, data: Bytes, compressed: bool)

  datatype Error = WrongId | WrongFileNumber | StreamNone | OpenFailed | ReadFailed | WriteFailed

  datatype Choice = Skip(skip: bool) | OffsetBlk(offset: nat) | Unset

  datatype Confirm = Confirm(fileNum: int, choice: Choice)

  // What a sender puts on the wire.
  datatype Out = Digest(fileNum: nat, size: nat) | Failure(fileNum: nat) | Data(block: Block) | Done(fileNum: nat) | JobSkipped

  datatype Zip = Zip(compress: Bytes -> Bytes, decompress: Bytes -> Bytes)

  datatype Job = Job(
    id: int, base: string, files: seq<string>, overwriteDetection: bool, digest: Bytes,
    fileNum: nat, stream: Option<Stream>, confirmed: bool, waiting: bool, skipped: bool,
    finished: nat, transferred: nat)

  // ----- Paths and contents -----

  function PathOf(base: string, name: string): string {
    if name == "" then base else base + "/" + name
  }

  function Download(path: string): string {
    path + ".download"
  }

  function DigestOf(path: string): string {
    path + ".digest"
  }

  function Content(fs: Fs, path: string): Bytes {
    if path in fs then fs[path] else []
  }

  // What follows the last occurrence of c, and whether there is one.
  function After(s: string, c: char): (string, bool) {
    if s == "" then ("", false)
    else
      var (rest, found) := After(s[1..], c);
      if found then (rest, true) else if s[0] == c then (s[1..], true) else (s, false)
  }

  function Extension(name: string): string {
    var (ext, found) := After(name, '.');
    if found then ext else ""
  }

  predicate IsCompressedFile(name: string) {
    Extension(name) in ["xz", "gz", "zip", "7z", "rar", "bz2", "tgz", "png", "jpg"]
  }

  // The name by which `read` judges the current file.
  function NameOf(job: Job): string
    requires job.fileNum < |job.files|
  {
    if |job.files| == 1 && job.files[job.fileNum] == "" then After(job.base, '/').0 else job.files[job.fileNum]
  }

  // ----- Receiving -----

  function ModifyTime(job: Job, fs: Fs): Fs {
    if job.fileNum < |job.files| then Promote(fs, PathOf(job.base, job.files[job.fileNum])) else fs
  }

  // Drops the digest and renames the download over the file.
  function Promote(fs: Fs, path: string): Fs {
    var without := fs - {DigestOf(path)};
    if Download(path) in without then (without - {Download(path)})[path := without[Download(path)]] else without
  }

  function Zeros(n: nat): (z: Bytes)
    ensures |z| == n
  {
    seq(n, _ => 0)
  }

  function WriteAt(content: Bytes, pos: nat, data: Bytes): Bytes {
    if data == [] then content
    else (if pos <= |content| then content[..pos] else content + Zeros(pos - |content|)) + data
         + (if pos + |data| <= |content| then content[pos + |data|..] else [])
  }

  function Unpack(zip: Zip, block: Block): Bytes {
    if block.compressed then zip.decompress(block.data) else block.data
  }

  // The receiver turns to file n: the previous one is promoted, this one started afresh.
  function StartFile(job: Job, fs: Fs, n: nat): (Job, Fs)
    requires n < |job.files|
  {
    var path := PathOf(job.base, job.files[n]);
    (job.(fileNum := n, stream := Some(Stream(Download(path), 0, WriteOnly))),
     (ModifyTime(job, fs) - {DigestOf(path)})[Download(path) := []][DigestOf(path) := job.digest])
  }

  function Write(zip: Zip, job: Job, fs: Fs, block: Block): (Job, Fs, Result<(), Error>) {
    if block.id != job.id then (job, fs, Err(WrongId))
    else if block.fileNum < 0 || block.fileNum >= |job.files| then (job, fs, Err(WrongFileNumber))
    else
      var (j, f) := if block.fileNum != job.fileNum || job.stream.None? then StartFile(job, fs, block.fileNum) else (job, fs);
      Store(zip, j, f, block)
  }

  function Store(zip: Zip, job: Job, fs: Fs, block: Block): (Job, Fs, Result<(), Error>)
    requires job.stream.Some?
  {
    var bytes, s := Unpack(zip, block), job.stream.value;
    if s.access == ReadOnly && bytes != [] then (job, fs, Err(WriteFailed))
    else
      (job.(stream := Some(s.(pos := s.pos + |bytes|)), finished := job.finished + |bytes|, transferred := job.transferred + |block.data|),
       fs[s.path := WriteAt(Content(fs, s.path), s.pos, bytes)], Ok(()))
  }

  // ----- Sending -----

  // The job after giving up on, or finishing, the current file.
  function NextFile(job: Job): Job {
    job.(fileNum := job.fileNum + 1, stream := None, confirmed := false, waiting := false)
  }

  // Ok(true) when there is no file left.
  function OpenStream(job: Job, fs: Fs): (Job, Result<bool, Error>) {
    if job.fileNum >= |job.files| then (job.(stream := None), Ok(true))
    else if job.stream.Some? then (job, Ok(false))
    else
      var path := PathOf(job.base, job.files[job.fileNum]);
      if path in fs then (job.(stream := Some(Stream(path, 0, ReadOnly)), confirmed := false, waiting := false), Ok(false))
      else (NextFile(job), Err(OpenFailed))
  }

  function InitStream(job: Job, fs: Fs): (Job, Option<Out>, Result<(), Error>) {
    var (j, r) := OpenStream(job, fs);
    if r.Err? then (j, None, Err(r.error))
    else if !r.value && j.overwriteDetection && !j.confirmed && !j.waiting && j.stream.Some? then
      (j.(waiting := true), Some(Digest(j.fileNum, |Content(fs, j.stream.value.path)|)), Ok(()))
    else (j, None, Ok(()))
  }

  // What a stream yields until the buffer is full or the file ends.
  function Chunk(content: Bytes, pos: nat): Bytes {
    if pos >= |content| then []
    else if pos + BUF_SIZE <= |content| then content[pos..pos + BUF_SIZE]
    else content[pos..]
  }

  function Pack(zip: Zip, name: string, chunk: Bytes): (Bytes, bool) {
    if chunk != [] && !IsCompressedFile(name) && |zip.compress(chunk)| < |chunk| then (zip.compress(chunk), true) else (chunk, false)
  }

  function Read(zip: Zip, job: Job, fs: Fs, faulty: bool): (Job, Result<Option<Block>, Error>) {
    if job.overwriteDetection && !job.confirmed then (job, Ok(None))
    else if job.fileNum >= |job.files| then (job.(stream := None), Ok(None))
    else if job.stream.None? then (job, Err(StreamNone))
    else if faulty || job.stream.value.access == WriteOnly then (NextFile(job), Err(ReadFailed))
    else
      var s := job.stream.value;
      var chunk := Chunk(Content(fs, s.path), s.pos);
      var (data, compressed) := Pack(zip, NameOf(job), chunk);
      (if chunk == [] then NextFile(job)
       else job.(stream := Some(s.(pos := s.pos + |chunk|)), finished := job.finished + |chunk|, transferred := job.transferred + |data|),
       Ok(Some(Block(job.id, job.fileNum, data, compressed))))
  }

  predicate Completed(job: Job) {
    !job.overwriteDetection || (!job.confirmed && !job.waiting)
  }

  predicate SkippedWhole(job: Job) {
    job.skipped && |job.files| == 1
  }

  // One turn of handle_read_jobs for the job at the front; true when the job is removed.
  function Turn(zip: Zip, job: Job, fs: Fs, faulty: bool): (Job, seq<Out>, bool) {
    var (j, digest, ready) := InitStream(job, fs);
    var first := if ready.Err? then [Failure(j.fileNum)] else if digest.Some? then [digest.value] else [];
    var (k, r) := Read(zip, j, fs, faulty);
    match r
    case Err(_) => (k, first + [Failure(k.fileNum)], false)
    case Ok(Some(block)) => (k, first + [Data(block)], false)
    case Ok(None) =>
      if !Completed(k) then (k, first, false)
      else (k, first + [if SkippedWhole(k) then JobSkipped else Done(k.fileNum)], true)
  }

  // ----- Confirmation -----

  function SkipFile(job: Job): Job {
    NextFile(job).(skipped := true)
  }

  function SeekTo(job: Job, fs: Fs, offset: nat): Job
    requires job.fileNum < |job.files|
  {
    var path := PathOf(job.base, job.files[job.fileNum]);
    var moved := job.(transferred := job.transferred + offset, finished := job.finished + offset);
    if Download(path) in fs && DigestOf(path) in fs then moved.(stream := Some(Stream(Download(path), offset, WriteOnly)))
    else if path in fs then moved.(stream := Some(Stream(path, offset, ReadOnly)))
    else job
  }

  // An offset for a file number outside the list makes the source index out of bounds.
  predicate InBounds(job: Job, r: Confirm) {
    r.fileNum == job.fileNum && r.choice.OffsetBlk? && r.choice.offset > 0 ==> job.fileNum < |job.files|
  }

  function Decide(job: Job, fs: Fs, r: Confirm): Job
    requires InBounds(job, r)
  {
    if r.fileNum != job.fileNum then job
    else
      match r.choice
      case Skip(true) => SkipFile(job)
      case Skip(false) => job.(confirmed := true, skipped := false)
      case OffsetBlk(offset) =>
        var j := job.(confirmed := true, skipped := false);
        if offset > 0 then SeekTo(j, fs, offset) else j
      case Unset => job
  }

  // ----- What the pieces mean -----

  /** What follows the last c, if there is one; else the whole string. */
  lemma {:induction false} AfterLast(s: string, c: char)
    ensures After(s, c).1 <==> c in s
    ensures c in s ==> c !in After(s, c).0 && exists stem :: s == stem + [c] + After(s, c).0
    ensures c !in s ==> After(s, c).0 == s
  {
    if s != "" {
      AfterLast(s[1..], c);
      assert s == [s[0]] + s[1..];
      if c in s[1..] {
        var stem :| s[1..] == stem + [c] + After(s[1..], c).0;
        assert s == ([s[0]] + stem) + [c] + After(s, c).0;
      } else if s[0] == c {
        assert s == "" + [c] + After(s, c).0;
      }
    }
  }

  lemma LastSplit(stem: string, c: char, rest: string)
    requires c !in rest
    ensures After(stem + [c] + rest, c).0 == rest
  {
    var s := stem + [c] + rest;
    assert s[|stem|] == c;
    AfterLast(s, c);
    var other :| s == other + [c] + After(s, c).0;
    var r := After(s, c).0;
    assert s[|other|] == c;
    forall i | |other| < i < |s|
      ensures s[i] in r
    {
      assert s[i] == r[i - |other| - 1];
    }
    forall i | |stem| < i < |s|
      ensures s[i] in rest
    {
      assert s[i] == rest[i - |stem| - 1];
    }
    assert |other| == |stem|;
    assert r == s[|other| + 1..] && rest == s[|stem| + 1..];
  }

  /** A job's unnamed file is its base itself; companions lie beside a file under their endings. */
  lemma PathsExact(base: string, name: string, path: string)
    ensures PathOf(base, "") == base && (name != "" ==> PathOf(base, name) == base + ['/'] + name)
    ensures Download(path) == path + ".download" && DigestOf(path) == path + ".digest"
  {
  }

  /** Writing replaces just the bytes from its position on, past the end after a gap of zeros. */
  lemma WriteAtExact(content: Bytes, pos: nat, data: Bytes)
    ensures var w := WriteAt(content, pos, data);
      && (data == [] ==> w == content)
      && (data != [] ==> |w| == (if pos + |data| > |content| then pos + |data| else |content|) && w[pos..pos + |data|] == data)
      && (data != [] ==> forall i :: 0 <= i < |w| && !(pos <= i < pos + |data|) ==> w[i] == if i < |content| then content[i] else 0)
  {
  }

  /** Names that are never compressed again: exactly those with one of nine endings. */
  lemma CompressedNames(name: string)
    ensures IsCompressedFile(name) <==>
      exists stem, ext :: name == stem + ['.'] + ext && ext in {"xz", "gz", "zip", "7z", "rar", "bz2", "tgz", "png", "jpg"}
  {
    AfterLast(name, '.');
    forall stem, ext | name == stem + ['.'] + ext && ext in {"xz", "gz", "zip", "7z", "rar", "bz2", "tgz", "png", "jpg"}
      ensures IsCompressedFile(name)
    {
      LastSplit(stem, '.', ext);
    }
  }

  /** A single unnamed file is judged by the last component of its path, any other by its name. */
  lemma NameExact(job: Job)
    requires job.fileNum < |job.files|
    ensures job.files != [""] ==> NameOf(job) == job.files[job.fileNum]
    ensures job.files == [""] ==> '/' !in NameOf(job) && (NameOf(job) == job.base || exists dir :: job.base == dir + ['/'] + NameOf(job))
  {
    AfterLast(job.base, '/');
    if |job.files| == 1 {
      assert job.files == [job.files[0]];
    }
  }

  /** A block for another job or no file of this one is refused; so is writing to a file opened to be read. Nothing changes. */
  lemma WriteRefused(zip: Zip, job: Job, fs: Fs, block: Block)
    ensures block.id != job.id ==> Write(zip, job, fs, block) == (job, fs, Err(WrongId))
    ensures block.id == job.id && !(0 <= block.fileNum < |job.files|) ==> Write(zip, job, fs, block) == (job, fs, Err(WrongFileNumber))
    ensures (block.id == job.id && 0 <= block.fileNum == job.fileNum < |job.files| && job.stream.Some?
             && job.stream.value.access == ReadOnly && Unpack(zip, block) != []) ==>
      Write(zip, job, fs, block) == (job, fs, Err(WriteFailed))
  {
  }

  /** An accepted block counts its bytes and its size on the wire, and ends up at the position of its file's download. */
  lemma WriteCounts(zip: Zip, job: Job, fs: Fs, block: Block)
    ensures var (j, disk, r) := Write(zip, job, fs, block);
      r.Ok? ==>
        && j.fileNum == block.fileNum && j.stream.Some? && j.confirmed == job.confirmed && j.waiting == job.waiting
        && j.finished == job.finished + |Unpack(zip, block)| && j.transferred == job.transferred + |block.data|
        && j.stream.value.pos == |Unpack(zip, block)| + (if block.fileNum == job.fileNum && job.stream.Some? then job.stream.value.pos else 0)
        && (!(block.fileNum == job.fileNum && job.stream.Some?) ==> j.stream.value.path == Download(PathOf(job.base, job.files[j.fileNum])))
  {
  }

  /** Opening: the current file afresh, or none left, or past one that is missing; an open one is left alone. */
  lemma OpenExact(job: Job, fs: Fs)
    ensures var (j, r) := OpenStream(job, fs);
      if job.fileNum >= |job.files| then r == Ok(true) && j == job.(stream := None)
      else if job.stream.Some? then r == Ok(false) && j == job
      else
        var path := PathOf(job.base, job.files[job.fileNum]);
        && !j.confirmed && !j.waiting && j.skipped == job.skipped
        && (if path in fs then r == Ok(false) && j.fileNum == job.fileNum && j.stream == Some(Stream(path, 0, ReadOnly))
            else r == Err(OpenFailed) && j.fileNum == job.fileNum + 1 && j.stream == None)
  {
  }

  /** A block never grows by packing: it is compressed exactly if its name allows it and it gets shorter. */
  lemma PackExact(zip: Zip, name: string, chunk: Bytes)
    ensures var (data, compressed) := Pack(zip, name, chunk);
      && |data| <= |chunk| && (compressed <==> chunk != [] && !IsCompressedFile(name) && |zip.compress(chunk)| < |chunk|)
      && data == if compressed then zip.compress(chunk) else chunk
  {
    hide IsCompressedFile;
  }

  /** Every failure of a turn is reported, with the file number to go on from. */
  lemma FailuresReported(zip: Zip, job: Job, fs: Fs, faulty: bool)
    ensures var (j, out, done) := Turn(zip, job, fs, faulty);
      && (InitStream(job, fs).2.Err? ==> out != [] && out[0] == Failure(job.fileNum + 1))
      && (Read(zip, InitStream(job, fs).0, fs, faulty).1.Err? ==>
            !done && out != [] && out[|out| - 1] == Failure(j.fileNum))
      && (Read(zip, InitStream(job, fs).0, fs, faulty).1 == Err(ReadFailed) ==> j.fileNum == job.fileNum + 1)
  {
    hide PathOf, Pack, Chunk, NameOf, Content;
  }

  /** A decision about another file changes nothing, nor does one that decides nothing. */
  lemma DecideIgnored(job: Job, fs: Fs, r: Confirm)
    requires InBounds(job, r)
    ensures r.fileNum != job.fileNum || r.choice == Unset ==> Decide(job, fs, r) == job
  {
  }

  /** A skip gives up the open file, clears its flags, moves on and is remembered; a job of one file so skipped reports that, not that it is done. */
  lemma SkipExact(zip: Zip, job: Job, fs: Fs, faulty: bool)
    ensures var j := Decide(job, fs, Confirm(job.fileNum, Skip(true)));
      && j.fileNum == job.fileNum + 1 && j.stream == None && !j.confirmed && !j.waiting && j.skipped
      && j.finished == job.finished && j.transferred == job.transferred
      && (|job.files| == 1 && job.fileNum == 0 ==> Turn(zip, j, fs, faulty).1 == [JobSkipped] && Turn(zip, j, fs, faulty).2)
      && (|job.files| > 1 && job.fileNum == |job.files| - 1 ==> Turn(zip, j, fs, faulty).1 == [Done(|job.files|)] && Turn(zip, j, fs, faulty).2)
  {
    assert [] + [JobSkipped] == [JobSkipped] && [] + [Done(|job.files|)] == [Done(|job.files|)];
  }

  /** An acceptance confirms the file; an offset moves it to its download if both companions exist, to the file if only that does, and is counted then. */
  lemma AcceptExact(job: Job, fs: Fs, offset: nat)
    requires job.fileNum < |job.files|
    ensures Decide(job, fs, Confirm(job.fileNum, Skip(false))) == job.(confirmed := true, skipped := false)
    ensures var j := Decide(job, fs, Confirm(job.fileNum, OffsetBlk(offset)));
      var path := PathOf(job.base, job.files[job.fileNum]);
      var both := Download(path) in fs && DigestOf(path) in fs;
      && j.confirmed && !j.skipped && j.fileNum == job.fileNum && j.waiting == job.waiting
      && (if offset == 0 || (!both && path !in fs)
          then j.stream == job.stream && j.finished == job.finished && j.transferred == job.transferred
          else
            && j.finished == job.finished + offset && j.transferred == job.transferred + offset
            && j.stream == Some(if both then Stream(Download(path), offset, WriteOnly) else Stream(path, offset, ReadOnly)))
  {
  }

  // ----- The job in place -----

  class Disk {
    var files: Fs

    constructor (files: Fs)
      ensures this.files == files
    {
      this.files := files;
    }
  }

  class TransferJob {
    const id: int
    const base: string
    const files: seq<string>
    const overwriteDetection: bool
    const digest: Bytes
    const disk: Disk
    const zip: Zip
    var fileNum: nat
    var stream: Option<Stream>
    var confirmed: bool
    var waiting: bool
    var skipped: bool
    var finished: nat
    var transferred: nat

    function Value(): Job
      reads this
    {
      Job(id, base, files, overwriteDetection, digest, fileNum, stream, confirmed, waiting, skipped, finished, transferred)
    }

    constructor (id: int, base: string, files: seq<string>, fileNum: nat, overwriteDetection: bool, digest: Bytes, disk: Disk, zip: Zip)
      ensures Value() == Job(id, base, files, overwriteDetection, digest, fileNum, None, false, false, false, 0, 0)
      ensures this.disk == disk && this.zip == zip
    {
      this.id, this.base, this.files, this.overwriteDetection, this.digest := id, base, files, overwriteDetection, digest;
      this.disk, this.zip, this.fileNum := disk, zip, fileNum;
      stream, confirmed, waiting, skipped, finished, transferred := None, false, false, false, 0, 0;
    }

    method ModifyTimeCall()
      modifies disk
      ensures disk.files == ModifyTime(Value(), old(disk.files))
    {
      if fileNum < |files| {
        var path := PathOf(base, files[fileNum]);
        disk.files := disk.files - {DigestOf(path)};
        if Download(path) in disk.files {
          var bytes := disk.files[Download(path)];
          disk.files := (disk.files - {Download(path)})[path := bytes];
        }
      }
    }

    method WriteCall(block: Block) returns (r: Result<(), Error>)
      modifies this, disk
      ensures (Value(), disk.files, r) == Write(zip, old(Value()), old(disk.files), block)
    {
      hide PathOf, WriteAt, Content, Promote, Unpack;
      if block.id != id {
        return Err(WrongId);
      }
      if block.fileNum < 0 || block.fileNum >= |files| {
        return Err(WrongFileNumber);
      }
      if block.fileNum != fileNum || stream.None? {
        ModifyTimeCall();
        fileNum := block.fileNum;
        var path := PathOf(base, files[fileNum]);
        disk.files := disk.files - {DigestOf(path)};
        stream := Some(Stream(Download(path), 0, WriteOnly));
        disk.files := disk.files[Download(path) := []];
        disk.files := disk.files[DigestOf(path) := digest];
      }
      var bytes, s := Unpack(zip, block), stream.value;
      if s.access == ReadOnly && bytes != [] {
        return Err(WriteFailed);
      }
      disk.files := disk.files[s.path := WriteAt(Content(disk.files, s.path), s.pos, bytes)];
      stream := Some(s.(pos := s.pos + |bytes|));
      finished := finished + |bytes|;
      transferred := transferred + |block.data|;
      r := Ok(());
    }

    method OpenStreamCall() returns (r: Result<bool, Error>)
      modifies this
      ensures (Value(), r) == OpenStream(old(Value()), disk.files)
    {
      if fileNum >= |files| {
        stream := None;
        return Ok(true);
      }
      if stream.None? {
        var path := PathOf(base, files[fileNum]);
        if path in disk.files {
          stream := Some(Stream(path, 0, ReadOnly));
          confirmed, waiting := false, false;
        } else {
          fileNum := fileNum + 1;
          confirmed, waiting := false, false;
          return Err(OpenFailed);
        }
      }
      r := Ok(false);
    }

    method InitStreamCall() returns (digest: Option<Out>, r: Result<(), Error>)
      modifies this
      ensures (Value(), digest, r) == InitStream(old(Value()), disk.files)
    {
      digest := None;
      var ready := OpenStreamCall();
      if ready.Err? {
        return None, Err(ready.error);
      }
      if !ready.value && overwriteDetection && !confirmed && !waiting && stream.Some? {
        digest := Some(Digest(fileNum, |Content(disk.files, stream.value.path)|));
        waiting := true;
      }
      r := Ok(());
    }

    // The stream delivers pieces of any size until the buffer is full or the file ends.
    method Fill() returns (buf: Bytes)
      requires stream.Some?
      modifies this`stream
      ensures buf == Chunk(Content(disk.files, old(stream).value.path), old(stream).value.pos)
      ensures stream == Some(old(stream).value.(pos := old(stream).value.pos + |buf|))
    {
      var content, start := Content(disk.files, stream.value.path), stream.value.pos;
      buf := [];
      while |buf| < BUF_SIZE
        invariant stream == Some(old(stream).value.(pos := start + |buf|))
        invariant |buf| <= BUF_SIZE && (buf == [] || start + |buf| <= |content|)
        invariant buf == if start + |buf| <= |content| then content[start..start + |buf|] else []
        decreases BUF_SIZE - |buf|
      {
        var pos := stream.value.pos;
        var left := if pos <= |content| then |content| - pos else 0;
        var n: nat :| n <= left && n <= BUF_SIZE - |buf| && (n == 0 ==> left == 0);
        if n == 0 {
          break;
        }
        buf := buf + content[pos..pos + n];
        stream := Some(stream.value.(pos := pos + n));
      }
    }

    method ReadCall(faulty: bool) returns (r: Result<Option<Block>, Error>)
      modifies this
      ensures (Value(), r) == Read(zip, old(Value()), disk.files, faulty)
    {
      hide IsCompressedFile, Chunk, NameOf, Content;
      if overwriteDetection && !confirmed {
        return Ok(None);
      }
      if fileNum >= |files| {
        stream := None;
        return Ok(None);
      }
      if stream.None? {
        return Err(StreamNone);
      }
      if faulty || stream.value.access == WriteOnly {
        fileNum, stream, confirmed, waiting := fileNum + 1, None, false, false;
        return Err(ReadFailed);
      }
      var n, name := fileNum, NameOf(Value());
      var buf := Fill();
      var compressed := false;
      if |buf| == 0 {
        fileNum, stream, confirmed, waiting := fileNum + 1, None, false, false;
      } else {
        finished := finished + |buf|;
        if !IsCompressedFile(name) {
          var tmp := zip.compress(buf);
          if |tmp| < |buf| {
            buf, compressed := tmp, true;
          }
        }
        transferred := transferred + |buf|;
      }
      r := Ok(Some(Block(id, n, buf, compressed)));
    }

    method TurnCall(faulty: bool) returns (out: seq<Out>, finishedJob: bool)
      modifies this
      ensures (Value(), out, finishedJob) == Turn(zip, old(Value()), disk.files, faulty)
    {
      hide PathOf, IsCompressedFile, Pack, Chunk, NameOf, Content;
      out, finishedJob := [], false;
      var digest, ready := InitStreamCall();
      if ready.Err? {
        out := [Failure(fileNum)];
      } else if digest.Some? {
        out := [digest.value];
      }
      var r := ReadCall(faulty);
      if r.Err? {
        out := out + [Failure(fileNum)];
      } else if r.value.Some? {
        out := out + [Data(r.value.value)];
      } else if Completed(Value()) {
        out := out + [if SkippedWhole(Value()) then JobSkipped else Done(fileNum)];
        finishedJob := true;
      }
    }

    method DecideCall(r: Confirm)
      requires InBounds(Value(), r)
      modifies this
      ensures Value() == Decide(old(Value()), disk.files, r)
    {
      if fileNum != r.fileNum {
        return;
      }
      match r.choice {
        case Skip(s) =>
          if s {
            stream, confirmed, waiting, fileNum, skipped := None, false, false, fileNum + 1, true;
          } else {
            confirmed, skipped := true, false;
          }
        case OffsetBlk(offset) =>
          confirmed, skipped := true, false;
          if offset > 0 {
            SeekToCall(offset);
          }
        case Unset =>
      }
    }

    method SeekToCall(offset: nat)
      requires fileNum < |files|
      modifies this
      ensures Value() == SeekTo(old(Value()), disk.files, offset)
    {
      var path := PathOf(base, files[fileNum]);
      if Download(path) in disk.files && DigestOf(path) in disk.files {
        stream := Some(Stream(Download(path), offset, WriteOnly));
      } else if path in disk.files {
        stream := Some(Stream(path, offset, ReadOnly));
      } else {
        return;
      }
      transferred := transferred + offset;
      finished := finished + offset;
    }
  }
}
