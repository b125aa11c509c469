/**
 Length-prefixed framing with a header of one to four bytes
 (libs/hbb_common/src/bytes_codec.rs). The low two bits of the first byte give the
 header length, the remaining bits, little endian, the payload length. The bytes
 the code combines by shift and or have no common bits, so they are added here.
 */
module BytesCodec {
  import opened Wrappers

  datatype DecodeState = Head | Data(n: nat)

  datatype Decoded = Frame(data: Bytes) | Incomplete | TooBig

  function HeadLength(first: byte): nat {
    first % 4 + 1
  }

  function HeadNumber(b0: nat, b1: nat, b2: nat, b3: nat): nat {
    b0 + b1 * 0x100 + b2 * 0x1_0000 + b3 * 0x100_0000
  }

  function HeadValue(src: Bytes): nat
    requires src != [] && HeadLength(src[0]) <= |src|
  {
    var h := HeadLength(src[0]);
    HeadNumber(src[0], if h > 1 then src[1] else 0, if h > 2 then src[2] else 0, if h > 3 then src[3] else 0) / 4
  }

  predicate HasHead(src: Bytes) {
    src != [] && HeadLength(src[0]) <= |src|
  }

  // ----- One-shot parser of a whole stream -----

  datatype Parsed = Parsed(frames: seq<Bytes>, state: DecodeState, rest: Bytes, failed: bool)

  function Prepend(frame: Bytes, p: Parsed): Parsed {
    p.(frames := [frame] + p.frames)
  }

  function Parse(max: nat, src: Bytes): Parsed {
    if !HasHead(src) then Parsed([], Head, src, false) else
    var n, h := HeadValue(src), HeadLength(src[0]);
    if n > max then Parsed([], Head, src, true)
    else if |src| - h < n then Parsed([], Data(n), src[h..], false)
    else Prepend(src[h..h + n], Parse(max, src[h + n..]))
  }

  // ----- One decode call -----

  function Decode(max: nat, state: DecodeState, src: Bytes): (DecodeState, Bytes, Decoded) {
    match state
    case Data(n) => DecodeData(n, src)
    case Head =>
      if !HasHead(src) then (Head, src, Incomplete)
      else if HeadValue(src) > max then (Head, src, TooBig)
      else DecodeData(HeadValue(src), src[HeadLength(src[0])..])
  }

  function DecodeData(n: nat, src: Bytes): (DecodeState, Bytes, Decoded) {
    if |src| < n then (Data(n), src, Incomplete) else (Head, src[n..], Frame(src[..n]))
  }

  function Pending(state: DecodeState): nat {
    if state.Data? then 1 else 0
  }

  // Decoding until no frame is left, as the framed reader does after every read.
  function DecodeAll(max: nat, state: DecodeState, src: Bytes): Parsed
    decreases |src|, Pending(state)
  {
    var (next, rest, result) := Decode(max, state, src);
    match result
    case Frame(data) => Prepend(data, DecodeAll(max, next, rest))
    case Incomplete => Parsed([], next, rest, false)
    case TooBig => Parsed([], next, rest, true)
  }

  // A reader that gets the stream in chunks and stops at the first error.
  function Stream(max: nat, state: DecodeState, buffered: Bytes, chunks: seq<Bytes>): Parsed
    decreases |chunks|
  {
    if chunks == [] then Parsed([], state, buffered, false) else
    var p := DecodeAll(max, state, buffered + chunks[0]);
    if p.failed then p else
    var q := Stream(max, p.state, p.rest, chunks[1..]);
    q.(frames := p.frames + q.frames)
  }

  function Concat(chunks: seq<Bytes>): Bytes {
    if chunks == [] then [] else chunks[0] + Concat(chunks[1..])
  }

  // Results that a reader can tell apart: bytes after a failure are never looked at.
  predicate Same(p: Parsed, q: Parsed) {
    p.frames == q.frames && p.failed == q.failed && (!p.failed ==> p.state == q.state && p.rest == q.rest)
  }

  lemma {:induction false} DecodeAllIsParse(max: nat, src: Bytes)
    ensures DecodeAll(max, Head, src) == Parse(max, src)
    decreases |src|
  {
    if HasHead(src) && HeadValue(src) <= max {
      var n, h := HeadValue(src), HeadLength(src[0]);
      if |src| - h >= n {
        assert src[h..][..n] == src[h..h + n] && src[h..][n..] == src[h + n..];
        DecodeAllIsParse(max, src[h + n..]);
      }
    }
  }

  lemma HeadExtends(a: Bytes, b: Bytes)
    requires HasHead(a)
    ensures HasHead(a + b) && HeadLength((a + b)[0]) == HeadLength(a[0]) && HeadValue(a + b) == HeadValue(a)
  {
    assert (a + b)[0] == a[0];
  }

  // What one call decides does not depend on bytes that arrive later.
  lemma DecodeExtends(max: nat, state: DecodeState, a: Bytes, b: Bytes)
    ensures var (next, rest, result) := Decode(max, state, a);
      match result
      case Frame(_) => Decode(max, state, a + b) == (next, rest + b, result)
      case TooBig => Decode(max, state, a + b).2 == TooBig
      case Incomplete => Decode(max, state, a + b) == Decode(max, next, rest + b)
  {
    if state.Data? {
      DataExtends(state.n, a, b);
    } else if HasHead(a) {
      HeadExtends(a, b);
      var h := HeadLength(a[0]);
      assert (a + b)[h..] == a[h..] + b;
      DataExtends(HeadValue(a), a[h..], b);
    }
  }

  lemma DataExtends(n: nat, a: Bytes, b: Bytes)
    ensures n <= |a| ==> DecodeData(n, a + b) == (Head, a[n..] + b, Frame(a[..n]))
  {
    if n <= |a| {
      assert (a + b)[..n] == a[..n] && (a + b)[n..] == a[n..] + b;
    }
  }

  function Then(p: Parsed, q: Parsed): Parsed {
    if p.failed then p else q.(frames := p.frames + q.frames)
  }

  lemma {:induction false} DecodeAllExtends(max: nat, state: DecodeState, a: Bytes, b: Bytes)
    ensures var p := DecodeAll(max, state, a);
      Same(DecodeAll(max, state, a + b), Then(p, DecodeAll(max, p.state, p.rest + b)))
    decreases |a|, Pending(state)
  {
    var (next, rest, result) := Decode(max, state, a);
    DecodeExtends(max, state, a, b);
    match result
    case Frame(data) =>
      DecodeAllExtends(max, next, rest, b);
      var p := DecodeAll(max, next, rest);
      var q := DecodeAll(max, p.state, p.rest + b);
      assert [data] + (p.frames + q.frames) == ([data] + p.frames) + q.frames;
    case Incomplete =>
      var q := DecodeAll(max, next, rest + b);
      assert [] + q.frames == q.frames;
      assert DecodeAll(max, state, a + b) == q;
    case TooBig =>
  }

  // Nothing is left to decode once a reader has decoded everything.
  lemma {:induction false} DecodeAllIdle(max: nat, state: DecodeState, src: Bytes)
    ensures var p := DecodeAll(max, state, src);
      !p.failed ==> DecodeAll(max, p.state, p.rest) == Parsed([], p.state, p.rest, false)
    decreases |src|, Pending(state)
  {
    var (next, rest, result) := Decode(max, state, src);
    if result.Frame? {
      DecodeAllIdle(max, next, rest);
    }
  }

  lemma {:induction false} StreamIsDecodeAll(max: nat, state: DecodeState, buffered: Bytes, chunks: seq<Bytes>)
    requires DecodeAll(max, state, buffered) == Parsed([], state, buffered, false)
    ensures Same(Stream(max, state, buffered, chunks), DecodeAll(max, state, buffered + Concat(chunks)))
    decreases |chunks|
  {
    if chunks == [] {
      assert buffered + Concat(chunks) == buffered;
    } else {
      var p := DecodeAll(max, state, buffered + chunks[0]);
      assert buffered + Concat(chunks) == (buffered + chunks[0]) + Concat(chunks[1..]);
      DecodeAllExtends(max, state, buffered + chunks[0], Concat(chunks[1..]));
      if !p.failed {
        DecodeAllIdle(max, state, buffered + chunks[0]);
        StreamIsDecodeAll(max, p.state, p.rest, chunks[1..]);
      }
    }
  }

  /** Every way of cutting a byte stream into chunks yields what one parse of the whole stream yields. */
  lemma StreamingRefinesParse(max: nat, chunks: seq<Bytes>)
    ensures Same(Stream(max, Head, [], chunks), Parse(max, Concat(chunks)))
  {
    StreamIsDecodeAll(max, Head, [], chunks);
    assert [] + Concat(chunks) == Concat(chunks);
    DecodeAllIsParse(max, Concat(chunks));
  }

  // ----- Encoding -----

  const MAX_FRAME := 0x3FFF_FFFF

  function Header(length: nat): Bytes
    requires length <= MAX_FRAME
  {
    if length <= 0x3F then [length * 4]
    else if length <= 0x3FFF then
      var v := length * 4 + 1; [v % 0x100, v / 0x100]
    else if length <= 0x3F_FFFF then
      var v := length * 4 + 2; [v % 0x100, v / 0x100 % 0x100, v / 0x1_0000]
    else
      var v := length * 4 + 3; [v % 0x100, v / 0x100 % 0x100, v / 0x1_0000 % 0x100, v / 0x100_0000]
  }

  function Encode(data: Bytes): Bytes
    requires |data| <= MAX_FRAME
  {
    Header(|data|) + data
  }

  predicate Encodable(payloads: seq<Bytes>) {
    forall i :: 0 <= i < |payloads| ==> |payloads[i]| <= MAX_FRAME
  }

  function EncodeAll(payloads: seq<Bytes>): Bytes
    requires Encodable(payloads)
  {
    if payloads == [] then [] else Encode(payloads[0]) + EncodeAll(payloads[1..])
  }

  // The base-256 digits of a header word, and the two bits that give its length.
  lemma Digits(v: nat)
    ensures v % 0x100 % 4 == v % 4
    ensures v == HeadNumber(v % 0x100, v / 0x100, 0, 0)
    ensures v == HeadNumber(v % 0x100, v / 0x100 % 0x100, v / 0x1_0000, 0)
    ensures v == HeadNumber(v % 0x100, v / 0x100 % 0x100, v / 0x1_0000 % 0x100, v / 0x100_0000)
  {
    assert v / 0x1_0000 == v / 0x100 / 0x100;
    assert v / 0x100_0000 == v / 0x1_0000 / 0x100;
  }

  lemma HeaderReads(length: nat, rest: Bytes)
    requires length <= MAX_FRAME
    ensures var src := Header(length) + rest;
      HasHead(src) && HeadLength(src[0]) == |Header(length)| && HeadValue(src) == length
  {
    var header := Header(length);
    var src := header + rest;
    assert src[..|header|] == header;
    var v := length * 4 + |header| - 1;
    Digits(v);
    assert v % 4 == |header| - 1 && v / 4 == length;
    assert src[0] == header[0] == v % 0x100;
    if |header| > 1 {
      assert src[1] == header[1];
    }
    if |header| > 2 {
      assert src[2] == header[2];
    }
    if |header| > 3 {
      assert src[3] == header[3];
    }
  }

  lemma ParseEncoded(max: nat, data: Bytes, rest: Bytes)
    requires |data| <= MAX_FRAME
    ensures |data| <= max ==> Parse(max, Encode(data) + rest) == Prepend(data, Parse(max, rest))
    ensures |data| > max ==> Parse(max, Encode(data) + rest).frames == [] && Parse(max, Encode(data) + rest).failed
  {
    var src := Encode(data) + rest;
    assert src == Header(|data|) + (data + rest);
    HeaderReads(|data|, data + rest);
    var h := |Header(|data|)|;
    assert src[h..h + |data|] == data && src[h + |data|..] == rest;
  }

  // A record cut short never yields a frame.
  lemma ParseTruncated(max: nat, data: Bytes, k: nat)
    requires |data| <= MAX_FRAME && |data| <= max && k < |Encode(data)|
    ensures var p := Parse(max, Encode(data)[..k]); p.frames == [] && !p.failed
  {
    var src := Encode(data)[..k];
    HeaderReads(|data|, data);
    if HasHead(src) {
      HeadExtends(src, Encode(data)[k..]);
      assert src + Encode(data)[k..] == Encode(data);
    }
  }

  // The payloads before the first one over the limit.
  function UpToLimit(max: nat, payloads: seq<Bytes>): seq<Bytes> {
    if payloads == [] || |payloads[0]| > max then [] else [payloads[0]] + UpToLimit(max, payloads[1..])
  }

  lemma {:induction false} WithinLimit(max: nat, payloads: seq<Bytes>)
    ensures Fits(max, payloads) <==> UpToLimit(max, payloads) == payloads
  {
    if payloads != [] {
      WithinLimit(max, payloads[1..]);
      if |payloads[0]| <= max {
        assert payloads == [payloads[0]] + payloads[1..];
        assert forall i :: 0 <= i < |payloads[1..]| ==> payloads[1..][i] == payloads[i + 1];
      }
    }
  }

  predicate Fits(max: nat, payloads: seq<Bytes>) {
    forall i :: 0 <= i < |payloads| ==> |payloads[i]| <= max
  }

  lemma HeadFirst(payloads: seq<Bytes>, frames: seq<Bytes>)
    requires payloads != []
    ensures payloads + frames == [payloads[0]] + (payloads[1..] + frames)
  {
  }

  lemma {:induction false} ParseWithin(max: nat, payloads: seq<Bytes>, rest: Bytes)
    requires Encodable(payloads) && Fits(max, payloads)
    ensures Parse(max, EncodeAll(payloads) + rest) == Parse(max, rest).(frames := payloads + Parse(max, rest).frames)
  {
    if payloads == [] {
      assert EncodeAll(payloads) + rest == rest;
      assert payloads + Parse(max, rest).frames == Parse(max, rest).frames;
    } else {
      var first, tail := payloads[0], payloads[1..];
      var all := EncodeAll(tail) + rest;
      assert EncodeAll(payloads) + rest == Encode(first) + all;
      ParseEncoded(max, first, all);
      ParseWithin(max, tail, rest);
      HeadFirst(payloads, Parse(max, rest).frames);
    }
  }

  lemma {:induction false} ParseOver(max: nat, payloads: seq<Bytes>)
    requires Encodable(payloads) && !Fits(max, payloads)
    ensures Parse(max, EncodeAll(payloads)).frames == UpToLimit(max, payloads) && Parse(max, EncodeAll(payloads)).failed
  {
    var first, tail := payloads[0], payloads[1..];
    ParseEncoded(max, first, EncodeAll(tail));
    if |first| <= max {
      assert payloads == [first] + tail;
      ParseOver(max, tail);
    }
  }

  /**
   What was encoded is what is decoded, however the bytes are cut: every payload up
   to the first one over the reader's limit, and a failure exactly if there is one.
   */
  lemma FramingRoundTrip(max: nat, payloads: seq<Bytes>, chunks: seq<Bytes>)
    requires Encodable(payloads) && Concat(chunks) == EncodeAll(payloads)
    ensures var p := Stream(max, Head, [], chunks);
      && p.frames == UpToLimit(max, payloads)
      && (p.failed <==> !Fits(max, payloads))
      && (!p.failed ==> p.frames == payloads && p.state == Head && p.rest == [])
  {
    StreamingRefinesParse(max, chunks);
    WithinLimit(max, payloads);
    if Fits(max, payloads) {
      ParseWithin(max, payloads, []);
      assert EncodeAll(payloads) + [] == EncodeAll(payloads);
    } else {
      ParseOver(max, payloads);
    }
  }

  /** Bytes cut inside the last record yield exactly the whole records before it. */
  lemma TruncatedStream(max: nat, payloads: seq<Bytes>, last: Bytes, k: nat, chunks: seq<Bytes>)
    requires Encodable(payloads) && |last| <= MAX_FRAME && k <= |Encode(last)|
    requires |last| <= max && Fits(max, payloads)
    requires Concat(chunks) == EncodeAll(payloads) + Encode(last)[..k]
    ensures var p := Stream(max, Head, [], chunks);
      !p.failed && p.frames == if k == |Encode(last)| then payloads + [last] else payloads
  {
    StreamingRefinesParse(max, chunks);
    ParseWithin(max, payloads, Encode(last)[..k]);
    if k < |Encode(last)| {
      ParseTruncated(max, last, k);
    } else {
      ParseEncoded(max, last, []);
      assert Encode(last)[..k] == Encode(last) + [];
    }
  }

  // ----- The objects -----

  class BytesMut {
    var data: Bytes

    constructor ()
      ensures data == []
    {
      data := [];
    }

    method Advance(n: nat)
      requires n <= |data|
      modifies this
      ensures data == old(data)[n..]
    {
      data := data[n..];
    }

    method SplitTo(n: nat) returns (front: Bytes)
      requires n <= |data|
      modifies this
      ensures front == old(data)[..n] && data == old(data)[n..]
    {
      front := data[..n];
      data := data[n..];
    }

    method Extend(bytes: Bytes)
      modifies this
      ensures data == old(data) + bytes
    {
      data := data + bytes;
    }
  }

  class Codec {
    var state: DecodeState
    var raw: bool
    var max: nat

    constructor (max: nat)
      ensures state == Head && !raw && this.max == max
    {
      state, raw, this.max := Head, false, max;
    }

    method DecodeHeadCall(src: BytesMut) returns (result: Result<Option<nat>, Decoded>)
      modifies src
      ensures !HasHead(old(src.data)) ==> result == Ok(None) && src.data == old(src.data)
      ensures HasHead(old(src.data)) && HeadValue(old(src.data)) > max ==> result == Err(TooBig) && src.data == old(src.data)
      ensures HasHead(old(src.data)) && HeadValue(old(src.data)) <= max ==>
        result == Ok(Some(HeadValue(old(src.data)))) && src.data == old(src.data)[HeadLength(old(src.data)[0])..]
    {
      if src.data == [] {
        return Ok(None);
      }
      var headLength := src.data[0] % 4 + 1;
      if |src.data| < headLength {
        return Ok(None);
      }
      var n: nat := src.data[0];
      if headLength > 1 {
        n := n + (src.data[1] as int) * 0x100;
      }
      if headLength > 2 {
        n := n + (src.data[2] as int) * 0x1_0000;
      }
      if headLength > 3 {
        n := n + (src.data[3] as int) * 0x100_0000;
      }
      n := n / 4;
      if n > max {
        return Err(TooBig);
      }
      src.Advance(headLength);
      result := Ok(Some(n));
    }

    method DecodeCall(src: BytesMut) returns (result: Decoded)
      modifies this`state, src
      ensures !old(raw) ==> (state, src.data, result) == Decode(max, old(state), old(src.data))
      ensures old(raw) ==> state == old(state) && src.data == []
      ensures old(raw) ==> result == if old(src.data) == [] then Incomplete else Frame(old(src.data))
    {
      if raw {
        if src.data != [] {
          var all := src.SplitTo(|src.data|);
          return Frame(all);
        }
        return Incomplete;
      }
      var n: nat;
      match state
      case Head =>
        var head := DecodeHeadCall(src);
        if head.Err? {
          return head.error;
        }
        if head.value.None? {
          return Incomplete;
        }
        n := head.value.value;
        state := Data(n);
        result := DecodeDataCall(n, src);
      case Data(m) =>
        result := DecodeDataCall(m, src);
    }

    method DecodeDataCall(n: nat, src: BytesMut) returns (result: Decoded)
      requires state == Data(n)
      modifies this`state, src
      ensures (state, src.data, result) == DecodeData(n, old(src.data))
    {
      if |src.data| < n {
        return Incomplete;
      }
      var front := src.SplitTo(n);
      state := Head;
      result := Frame(front);
    }

    /** The framed reader: append what was read, then decode until no frame is left. */
    method Read(src: BytesMut, chunk: Bytes) returns (frames: seq<Bytes>, failed: bool)
      requires !raw
      modifies this`state, src
      ensures Parsed(frames, state, src.data, failed) == DecodeAll(max, old(state), old(src.data) + chunk)
    {
      src.Extend(chunk);
      frames := [];
      ghost var goal := DecodeAll(max, state, src.data);
      while true
        invariant !raw
        invariant goal == DecodeAll(max, state, src.data).(frames := frames + DecodeAll(max, state, src.data).frames)
        decreases |src.data|, Pending(state)
      {
        ghost var before := DecodeAll(max, state, src.data);
        var result := DecodeCall(src);
        if !result.Frame? {
          assert frames + [] == frames;
          return frames, result.TooBig?;
        }
        assert before.frames == [result.data] + DecodeAll(max, state, src.data).frames;
        assert frames + before.frames == (frames + [result.data]) + DecodeAll(max, state, src.data).frames;
        frames := frames + [result.data];
      }
    }

    method EncodeCall(data: Bytes, buf: BytesMut) returns (ok: bool)
      modifies buf
      ensures raw ==> ok && buf.data == old(buf.data) + data
      ensures !raw ==> (ok <==> |data| <= MAX_FRAME)
      ensures !raw ==> buf.data == old(buf.data) + if ok then Encode(data) else []
    {
      if raw {
        buf.Extend(data);
        return true;
      }
      ok := PutHeader(|data|, buf);
      if ok {
        assert (old(buf.data) + Header(|data|)) + data == old(buf.data) + Encode(data);
        buf.Extend(data);
      }
    }

    method PutHeader(length: nat, buf: BytesMut) returns (ok: bool)
      modifies buf
      ensures ok <==> length <= MAX_FRAME
      ensures buf.data == old(buf.data) + if ok then Header(length) else []
    {
      if length <= 0x3F {
        buf.Extend([length * 4]);
      } else if length <= 0x3FFF {
        var v := length * 4 + 1;
        buf.Extend([v % 0x100, v / 0x100]);
      } else if length <= 0x3F_FFFF {
        PutThree(length * 4 + 2, buf);
      } else if length <= MAX_FRAME {
        var v := length * 4 + 3;
        buf.Extend([v % 0x100, v / 0x100 % 0x100, v / 0x1_0000 % 0x100, v / 0x100_0000]);
      } else {
        return false;
      }
      ok := true;
    }

    // A little-endian u16 followed by the third byte.
    method PutThree(h: nat, buf: BytesMut)
      requires h < 0x100_0000
      modifies buf
      ensures buf.data == old(buf.data) + [h % 0x100, h / 0x100 % 0x100, h / 0x1_0000]
    {
      var low := h % 0x1_0000;
      Digits(h);
      assert low % 0x100 == h % 0x100 && low / 0x100 == h / 0x100 % 0x100;
      buf.Extend([low % 0x100, low / 0x100]);
      buf.Extend([h / 0x1_0000]);
    }
  }
}
