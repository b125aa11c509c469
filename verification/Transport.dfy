/**
 The write side of an established connection and the read side of its peer
 (crates/rd-engine/src/transport.rs, `SessionIo::send` of session.rs, `Encrypt` of
 libs/hbb_common/src/tcp.rs). A message is its serialized bytes. A write may be
 cancelled, time out or fail after any number of bytes reached the wire.
 */
module Transport {
  import opened Wrappers
  import C = BytesCodec
  import S = Session

  const MAC_BYTES := 16
  const MAX_MESSAGE_BYTES := 64 * 1024 * 1024
  const AUTH_MAX_RECORD_BYTES := 64 * 1024

  // The secret box of one direction, if the key transition chose encryption, and
  // the largest message a sender accepts.
  datatype Link = Link(encrypted: bool, seal: (nat, Bytes) -> Bytes, open: (nat, Bytes) -> Option<Bytes>, limit: nat)

  ghost predicate Sound(l: Link) {
    && l.limit <= MAX_MESSAGE_BYTES
    && forall n, x :: l.open(n, l.seal(n, x)) == Some(x) && |l.seal(n, x)| == |x| + MAC_BYTES
  }

  function Payload(l: Link, nonce: nat, message: Bytes): (p: Bytes)
    requires Sound(l) && |message| <= l.limit
    ensures |p| <= l.limit + MAC_BYTES && |p| <= C.MAX_FRAME
  {
    if l.encrypted then l.seal(nonce, message) else message
  }

  // How many bytes of a record reach the wire, and whether the write completed.
  datatype Outcome = Whole | Cut(k: nat)

  datatype SendResult = Sent | Disconnected | Oversized | Interrupted

  datatype Writer = Writer(counter: nat, closed: bool, wire: Bytes)

  function Count(l: Link, counter: nat): nat {
    if l.encrypted then counter + 1 else counter
  }

  function Reached(record: Bytes, outcome: Outcome): Bytes {
    match outcome
    case Whole => record
    case Cut(k) => if k <= |record| then record[..k] else record
  }

  function Send(l: Link, w: Writer, message: Bytes, outcome: Outcome): (Writer, SendResult)
    requires Sound(l)
  {
    if w.closed then (w, Disconnected)
    else if |message| > l.limit then (w, Oversized)
    else
      var n := Count(l, w.counter);
      var record := C.Encode(Payload(l, n, message));
      (Writer(n, outcome.Cut?, w.wire + Reached(record, outcome)), if outcome.Whole? then Sent else Interrupted)
  }

  datatype Event = SendEvent(message: Bytes, outcome: Outcome) | CancelEvent

  function Step(l: Link, w: Writer, e: Event): Writer
    requires Sound(l)
  {
    match e
    case SendEvent(message, outcome) => Send(l, w, message, outcome).0
    case CancelEvent => w.(closed := true)
  }

  function Run(l: Link, w: Writer, events: seq<Event>): Writer
    requires Sound(l)
    decreases events
  {
    if events == [] then w else Run(l, Step(l, w, events[0]), events[1..])
  }

  // The sends that were neither refused as oversized nor after the end.
  datatype Attempt = Attempt(nonce: nat, message: Bytes, outcome: Outcome)

  function Attempts(l: Link, w: Writer, events: seq<Event>): seq<Attempt>
    requires Sound(l)
    decreases events
  {
    if events == [] then [] else
    var rest := Attempts(l, Step(l, w, events[0]), events[1..]);
    match events[0]
    case SendEvent(message, outcome) =>
      if w.closed || |message| > l.limit then rest
      else [Attempt(Count(l, w.counter), message, outcome)] + rest
    case CancelEvent => rest
  }

  function Messages(attempts: seq<Attempt>): (r: seq<Bytes>)
    ensures |r| == |attempts|
  {
    seq(|attempts|, i requires 0 <= i < |attempts| => attempts[i].message)
  }

  ghost predicate Accepted(l: Link, attempts: seq<Attempt>) {
    forall i :: 0 <= i < |attempts| ==> |attempts[i].message| <= l.limit
  }

  function Record(l: Link, a: Attempt): (r: Bytes)
    requires Sound(l) && |a.message| <= l.limit
    ensures r != []
  {
    C.Encode(Payload(l, a.nonce, a.message))
  }

  // What attempts put on the wire, one after the other.
  function Written(l: Link, attempts: seq<Attempt>): Bytes
    requires Sound(l) && Accepted(l, attempts)
  {
    if attempts == [] then []
    else Reached(Record(l, attempts[0]), attempts[0].outcome) + Written(l, attempts[1..])
  }

  /**
   The shape of every run: consecutive nonces, only the last attempt may be cut, a
   cut closes the writer, and a closed writer attempts nothing.
   */
  ghost predicate Shape(l: Link, w: Writer, a: seq<Attempt>, f: Writer)
    requires Sound(l)
  {
    && Accepted(l, a)
    && (l.encrypted ==> forall i :: 0 <= i < |a| ==> a[i].nonce == w.counter + 1 + i)
    && (forall i :: 0 <= i < |a| - 1 ==> a[i].outcome.Whole?)
    && (a != [] && a[|a| - 1].outcome.Cut? ==> f.closed)
    && (w.closed ==> a == [] && f.closed)
    && f.wire == w.wire + Written(l, a)
  }

  lemma ShapeFirst(l: Link, w: Writer, message: Bytes, outcome: Outcome, rest: seq<Attempt>, f: Writer)
    requires Sound(l) && !w.closed && |message| <= l.limit
    requires Shape(l, Send(l, w, message, outcome).0, rest, f)
    ensures Shape(l, w, [Attempt(Count(l, w.counter), message, outcome)] + rest, f)
  {
    var first := Attempt(Count(l, w.counter), message, outcome);
    var all := [first] + rest;
    assert all[1..] == rest;
    assert forall i :: 1 <= i < |all| ==> all[i] == rest[i - 1];
    Associate(w.wire, Reached(Record(l, first), outcome), Written(l, rest));
  }

  lemma Associate(a: Bytes, b: Bytes, c: Bytes)
    ensures (a + b) + c == a + (b + c)
  {
  }

  lemma {:induction false} RunShape(l: Link, w: Writer, events: seq<Event>)
    requires Sound(l)
    ensures Shape(l, w, Attempts(l, w, events), Run(l, w, events))
    decreases events
  {
    if events == [] {
      assert w.wire + Written(l, []) == w.wire;
    } else {
      var next := Step(l, w, events[0]);
      RunShape(l, next, events[1..]);
      if events[0].SendEvent? && !w.closed && |events[0].message| <= l.limit {
        ShapeFirst(l, w, events[0].message, events[0].outcome, Attempts(l, next, events[1..]), Run(l, w, events));
      }
    }
  }

  // ----- The peer -----

  // Decrypts and checks frames in order, as long as they are acceptable. A packet
  // of at most one byte passes undecrypted and uncounted.
  function Open(l: Link, counter: nat, frames: seq<Bytes>): seq<Bytes>
    decreases frames
  {
    if frames == [] then [] else
    var n := if l.encrypted && |frames[0]| > 1 then counter + 1 else counter;
    var plain := if l.encrypted && |frames[0]| > 1 then l.open(n, frames[0]) else Some(frames[0]);
    if plain.None? || |plain.value| > MAX_MESSAGE_BYTES then []
    else [plain.value] + Open(l, n, frames[1..])
  }

  /** What the reader makes of one packet: opened under the next nonce, or passed on if it has at most one byte or nothing is encrypted; one that does not open, or is too long, is the last. */
  lemma OpenExact(l: Link, counter: nat, frame: Bytes, frames: seq<Bytes>)
    ensures var all := [frame] + frames;
      && (!l.encrypted || |frame| <= 1 ==>
            Open(l, counter, all) == if |frame| <= 64 * 1024 * 1024 then [frame] + Open(l, counter, frames) else [])
      && (l.encrypted && |frame| > 1 ==>
            var plain := l.open(counter + 1, frame);
            Open(l, counter, all) == if plain.Some? && |plain.value| <= 64 * 1024 * 1024
                                     then [plain.value] + Open(l, counter + 1, frames) else [])
  {
    assert ([frame] + frames)[1..] == frames;
  }

  // How many attempts reached the wire in full.
  function Completed(l: Link, attempts: seq<Attempt>): nat
    requires Sound(l) && Accepted(l, attempts)
  {
    if attempts == [] then 0
    else if |Reached(Record(l, attempts[0]), attempts[0].outcome)| < |Record(l, attempts[0])| then 0
    else 1 + Completed(l, attempts[1..])
  }

  lemma OpenFirst(l: Link, counter: nat, a: Attempt, frames: seq<Bytes>)
    requires Sound(l) && |a.message| <= l.limit && (l.encrypted ==> a.nonce == counter + 1)
    ensures Open(l, counter, [Payload(l, a.nonce, a.message)] + frames) == [a.message] + Open(l, Count(l, counter), frames)
  {
    assert ([Payload(l, a.nonce, a.message)] + frames)[1..] == frames;
  }

  // A record cut short is never a message.
  lemma CutReads(l: Link, a: Attempt)
    requires Sound(l) && |a.message| <= l.limit && |Reached(Record(l, a), a.outcome)| < |Record(l, a)|
    ensures C.Parse(l.limit + MAC_BYTES, Reached(Record(l, a), a.outcome)).frames == []
  {
    var reached := Reached(Record(l, a), a.outcome);
    assert reached == Record(l, a)[..|reached|];
    C.ParseTruncated(l.limit + MAC_BYTES, Payload(l, a.nonce, a.message), |reached|);
  }

  // A whole record is its message, followed by what the rest of the bytes mean.
  lemma RecordReads(l: Link, counter: nat, a: Attempt, rest: Bytes)
    requires Sound(l) && |a.message| <= l.limit && (l.encrypted ==> a.nonce == counter + 1)
    ensures Open(l, counter, C.Parse(l.limit + MAC_BYTES, Record(l, a) + rest).frames)
         == [a.message] + Open(l, Count(l, counter), C.Parse(l.limit + MAC_BYTES, rest).frames)
  {
    hide C.Parse;
    var p := Payload(l, a.nonce, a.message);
    C.ParseEncoded(l.limit + MAC_BYTES, p, rest);
    OpenFirst(l, counter, a, C.Parse(l.limit + MAC_BYTES, rest).frames);
  }

  lemma {:induction false} CompletedBounds(l: Link, a: seq<Attempt>)
    requires Sound(l) && Accepted(l, a) && forall i :: 0 <= i < |a| - 1 ==> a[i].outcome.Whole?
    ensures |a| - 1 <= Completed(l, a) <= |a|
    decreases |a|
  {
    if a != [] {
      CompletedBounds(l, a[1..]);
    }
  }

  // The messages a peer gets from the bytes of some attempts.
  function Read(l: Link, counter: nat, bytes: Bytes): seq<Bytes>
    requires Sound(l)
  {
    Open(l, counter, C.Parse(l.limit + MAC_BYTES, bytes).frames)
  }

  lemma {:induction false} PeerReads(l: Link, counter: nat, a: seq<Attempt>)
    requires Sound(l) && Accepted(l, a)
    requires l.encrypted ==> forall i :: 0 <= i < |a| ==> a[i].nonce == counter + 1 + i
    requires forall i :: 0 <= i < |a| - 1 ==> a[i].outcome.Whole?
    ensures Completed(l, a) <= |a| && Read(l, counter, Written(l, a)) == Messages(a)[..Completed(l, a)]
    decreases |a|
  {
    hide C.Parse, C.Encode, C.Header;
    CompletedBounds(l, a);
    if a != [] {
      var reached := Reached(Record(l, a[0]), a[0].outcome);
      if |reached| < |Record(l, a[0])| {
        CutReads(l, a[0]);
        assert reached + Written(l, a[1..]) == reached;
      } else {
        assert reached == Record(l, a[0]);
        PeerReads(l, Count(l, counter), a[1..]);
        RecordReads(l, counter, a[0], Written(l, a[1..]));
        MessagesFirst(a, Completed(l, a));
      }
    } else {
      ReadNothing(l, counter);
    }
  }

  lemma ReadNothing(l: Link, counter: nat)
    requires Sound(l)
    ensures Read(l, counter, []) == []
  {
  }

  lemma MessagesFirst(a: seq<Attempt>, k: nat)
    requires 0 < k <= |a|
    ensures Messages(a)[..k] == [a[0].message] + Messages(a[1..])[..k - 1]
  {
  }

  /**
   A cancelled send is terminal. After any schedule of sends, cancellations, time-outs
   and failures, the wire holds the whole records of all attempts but the last and a
   prefix of the last; a cut closes the writer for good; no nonce is used twice; and
   a peer that reads the bytes in any chunks decodes exactly the attempts that
   reached the wire in full, which is all of them or all but the last.
   */
  lemma CancelledSendsAreTerminal(l: Link, counter: nat, events: seq<Event>, chunks: seq<Bytes>)
    requires Sound(l)
    requires C.Concat(chunks) == Run(l, Writer(counter, false, []), events).wire
    ensures var w := Writer(counter, false, []);
      var a, f := Attempts(l, w, events), Run(l, w, events);
      && Accepted(l, a) && f.wire == Written(l, a)
      && (forall i :: 0 <= i < |a| - 1 ==> a[i].outcome.Whole?)
      && (a != [] && a[|a| - 1].outcome.Cut? ==> f.closed)
      && (l.encrypted ==> forall i, j :: 0 <= i < j < |a| ==> a[i].nonce != a[j].nonce)
      && |a| - 1 <= Completed(l, a) <= |a|
      && Open(l, counter, C.Stream(l.limit + MAC_BYTES, C.Head, [], chunks).frames) == Messages(a)[..Completed(l, a)]
  {
    hide C.Parse, C.Stream;
    var w := Writer(counter, false, []);
    var a := Attempts(l, w, events);
    RunShape(l, w, events);
    assert [] + Written(l, a) == Written(l, a);
    C.StreamingRefinesParse(l.limit + MAC_BYTES, chunks);
    CompletedBounds(l, a);
    PeerReads(l, counter, a);
  }

  // ----- The objects -----

  class CancellationToken {
    var cancelled: bool

    constructor ()
      ensures !cancelled
    {
      cancelled := false;
    }

    method Cancel()
      modifies this
      ensures cancelled
    {
      cancelled := true;
    }
  }

  class WireWriter {
    const link: Link
    const closed: CancellationToken
    var counter: nat
    var wire: Bytes

    function View(): Writer
      reads this, closed
    {
      Writer(counter, closed.cancelled, wire)
    }

    constructor (encrypted: bool, seal: (nat, Bytes) -> Bytes, open: (nat, Bytes) -> Option<Bytes>, closed: CancellationToken, counter: nat)
      ensures link == Link(encrypted, seal, open, MAX_MESSAGE_BYTES)
      ensures this.closed == closed && this.counter == counter && wire == []
    {
      this.link, this.closed, this.counter, wire := Link(encrypted, seal, open, MAX_MESSAGE_BYTES), closed, counter, [];
    }

    // The pending-write guard: unless the write completes, the connection is over.
    method SendCall(message: Bytes, outcome: Outcome) returns (result: SendResult)
      requires Sound(link)
      modifies this, closed
      ensures (View(), result) == Send(link, old(View()), message, outcome)
    {
      if closed.cancelled {
        return Disconnected;
      }
      if |message| > link.limit {
        return Oversized;
      }
      var complete := false;
      var bytes := message;
      if link.encrypted {
        counter := counter + 1;
        bytes := link.seal(counter, message);
      }
      var record := C.Encode(bytes);
      match outcome {
        case Whole =>
          wire := wire + record;
          complete := true;
        case Cut(k) =>
          wire := wire + Reached(record, outcome);
      }
      if !complete {
        closed.Cancel();
      }
      result := if complete then Sent else Interrupted;
    }
  }

  // The wire while authentication owns it: counter and bytes written so far.
  class FramedStream {
    var counter: nat
    var bytes: Bytes

    constructor (counter: nat)
      ensures this.counter == counter && bytes == []
    {
      this.counter, bytes := counter, [];
    }
  }

  /** A message that is too long, or comes after the end, is refused and changes nothing; any other uses one nonce if encrypted, and ends the stream unless written whole. */
  lemma SendExact(l: Link, w: Writer, message: Bytes, outcome: Outcome)
    requires Sound(l)
    ensures var (after, result) := Send(l, w, message, outcome);
      && (result == Disconnected <==> w.closed)
      && (result == Oversized <==> !w.closed && |message| > l.limit)
      && (result in {Disconnected, Oversized} ==> after == w)
      && (!w.closed && |message| <= l.limit ==>
            && after.counter == w.counter + (if l.encrypted then 1 else 0) && w.wire <= after.wire
            && (result == Sent <==> outcome.Whole?) && (after.closed <==> result == Interrupted))
  {
    hide C.Encode;
  }

  // What a session sees of a send on its wire: it keeps the wire exactly if the write completed.
  lemma SessionSend(l: Link, w: Writer, bytes: Bytes, outcome: Outcome, sent: seq<S.Message>, m: S.Message)
    requires Sound(l) && !w.closed && |bytes| <= l.limit
    ensures var (after, result) := Send(l, w, bytes, outcome);
      S.IoSend(sent, m, result == Sent) == (!after.closed, sent + [m])
  {
  }

  // SessionIo on bytes: the wire is taken out across the write and only put back on success.
  class SessionIo {
    const link: Link
    var wire: FramedStream?
    ghost const stream: FramedStream

    ghost predicate Valid()
      reads this
    {
      wire == null || wire == stream
    }

    ghost function View(): Writer
      reads this, stream
    {
      Writer(stream.counter, wire == null, stream.bytes)
    }

    // A record of an encrypted session leaves room for the authenticator.
    constructor (encrypted: bool, seal: (nat, Bytes) -> Bytes, open: (nat, Bytes) -> Option<Bytes>, wire: FramedStream)
      ensures Valid() && stream == wire && this.wire == wire
      ensures link == Link(encrypted, seal, open, AUTH_MAX_RECORD_BYTES - if encrypted then MAC_BYTES else 0)
    {
      link := Link(encrypted, seal, open, AUTH_MAX_RECORD_BYTES - if encrypted then MAC_BYTES else 0);
      this.wire, stream := wire, wire;
    }

    method SendCall(message: Bytes, outcome: Outcome) returns (result: SendResult)
      requires Valid() && Sound(link)
      modifies this, stream
      ensures Valid()
      ensures (View(), result) == Send(link, old(View()), message, outcome)
    {
      if wire == null {
        return Disconnected;
      }
      if |message| > link.limit {
        return Oversized;
      }
      var taken := wire;
      wire := null;
      var bytes := message;
      if link.encrypted {
        taken.counter := taken.counter + 1;
        bytes := link.seal(taken.counter, message);
      }
      taken.bytes := taken.bytes + Reached(C.Encode(bytes), outcome);
      if outcome.Cut? {
        return Interrupted;
      }
      wire := taken;
      result := Sent;
    }
  }

  // What the framed stream hands to a receive call.
  datatype Packet = NoPacket | PacketError | Packet(bytes: Bytes)

  datatype RecvResult = Message(bytes: Bytes) | EndOfStream | RecvError

  class WireReader {
    const link: Link
    const closed: CancellationToken
    var counter: nat

    constructor (link: Link, closed: CancellationToken, counter: nat)
      ensures this.link == link && this.closed == closed && this.counter == counter
    {
      this.link, this.closed, this.counter := link, closed, counter;
    }

    /** Each accepted packet is the next message; everything else ends the connection for both halves. */
    method Recv(packet: Packet) returns (result: RecvResult)
      modifies this, closed
      ensures old(closed.cancelled) ==> result == RecvError && counter == old(counter)
      ensures result.Message? ==> packet.Packet? && !closed.cancelled
      ensures result.Message? ==>
        forall rest :: Open(link, old(counter), [packet.bytes] + rest) == [result.bytes] + Open(link, counter, rest)
      ensures !result.Message? ==> closed.cancelled
      ensures !old(closed.cancelled) && packet.Packet? && !result.Message? ==> Open(link, old(counter), [packet.bytes]) == []
    {
      if closed.cancelled {
        return RecvError;
      }
      if packet.NoPacket? {
        closed.Cancel();
        return EndOfStream;
      }
      if packet.PacketError? {
        closed.Cancel();
        return RecvError;
      }
      var plain := Some(packet.bytes);
      if link.encrypted && |packet.bytes| > 1 {
        counter := counter + 1;
        plain := link.open(counter, packet.bytes);
      }
      if plain.None? || |plain.value| > MAX_MESSAGE_BYTES {
        closed.Cancel();
        return RecvError;
      }
      assert forall rest: seq<Bytes> :: ([packet.bytes] + rest)[0] == packet.bytes && ([packet.bytes] + rest)[1..] == rest;
      result := Message(plain.value);
    }
  }
}
