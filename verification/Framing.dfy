/** The byte stream between two peers: a batching writer, arbitrary cuts, an incremental decoder. */
module Framing {
  import opened Common

  type Byte = b: int | 0 <= b < 256
  type Bytes = seq<Byte>

  const MAX_FRAME_SIZE: nat := 16 * 1024 * 1024

  datatype Kind = Handshake | Data | Heartbeat | Error

  datatype WireMessage = WireMessage(
    version: Byte, msgId: nat, src: string, dstActor: string, kind: Kind,
    payload: Bytes, replyTo: Option<string>, correlationId: Option<nat>)

  /** The body codec, left abstract: it may refuse a message and it may reject a body. */
  datatype BodyCodec = BodyCodec(encode: WireMessage -> Option<Bytes>, decode: Bytes -> Result<WireMessage, string>)

  ghost predicate RoundTrips(k: BodyCodec) {
    forall m :: k.encode(m).Some? ==> k.decode(k.encode(m).value) == Ok(m)
  }

  datatype FrameError = TooLarge(len: nat) | Decode(detail: string)

  // ---------- one frame ----------

  function LittleEndian(n: nat): (r: Bytes)
    requires n < 0x1_0000_0000
    ensures |r| == 4 && FromLittleEndian(r) == n
  {
    var q := n / 256;
    var r := q / 256;
    [n % 256, q % 256, r % 256, r / 256]
  }

  function FromLittleEndian(b: Bytes): nat
    requires |b| == 4
  {
    b[0] as int + 256 * (b[1] as int + 256 * (b[2] as int + 256 * b[3] as int))
  }

  /** The least significant byte comes first. */
  lemma LowByteFirst(n: nat)
    requires n < 0x1_0000
    ensures LittleEndian(n) == [n % 256, n / 256, 0, 0]
  {
  }

  /** The length prefix is the body length cast to 32 bits. */
  function FrameOf(body: Bytes): Bytes {
    LittleEndian(|body| % 0x1_0000_0000) + body
  }

  // ---------- decoding as a whole ----------

  datatype Scan = Scan(msgs: seq<WireMessage>, rest: Bytes, error: Option<FrameError>)

  function Prepend(ms: seq<WireMessage>, scan: Scan): Scan {
    scan.(msgs := ms + scan.msgs)
  }

  lemma PrependTwice(a: seq<WireMessage>, b: seq<WireMessage>, scan: Scan)
    ensures Prepend(a, Prepend(b, scan)) == Prepend(a + b, scan)
    ensures Prepend([], scan) == scan
  {
    assert a + (b + scan.msgs) == (a + b) + scan.msgs;
    assert [] + scan.msgs == scan.msgs;
  }

  /** The frame at the front of the buffer, if it is complete. */
  datatype Piece = Incomplete | Oversized(len: nat) | Undecodable(detail: string, used: nat)
      | Whole(msg: WireMessage, used: nat)

  function Front(k: BodyCodec, buf: Bytes): (p: Piece)
    ensures p.Undecodable? || p.Whole? ==> 4 <= p.used <= |buf|
  {
    if |buf| < 4 then Incomplete
    else
      var len := FromLittleEndian(buf[..4]);
      if len > MAX_FRAME_SIZE then Oversized(len)
      else if |buf| < 4 + len then Incomplete
      else match k.decode(buf[4..4 + len])
        case Err(e) => Undecodable(e, 4 + len)
        case Ok(m) => Whole(m, 4 + len)
  }

  /** Everything one pass of the decoder takes from `buf`, up to an incomplete frame or the first error. */
  function ScanAll(k: BodyCodec, buf: Bytes): Scan
    decreases |buf|
  {
    match Front(k, buf)
    case Incomplete => Scan([], buf, None)
    case Oversized(len) => Scan([], buf, Some(TooLarge(len)))
    case Undecodable(e, used) => Scan([], buf[used..], Some(Decode(e)))
    case Whole(m, used) =>
      Prepend([m], ScanAll(k, buf[used..]))
  }

  class FrameDecoder {
    var buf: Bytes

    constructor ()
      ensures buf == []
    {
      buf := [];
    }

    method DecodeChunk(k: BodyCodec, data: Bytes) returns (r: Result<seq<WireMessage>, FrameError>)
      modifies this
      ensures var whole := ScanAll(k, old(buf) + data);
              && buf == whole.rest
              && r == if whole.error.None? then Ok(whole.msgs) else Err(whole.error.value)
    {
      buf := buf + data;
      ghost var all := buf;
      var out := [];
      while |buf| >= 4
        invariant ScanAll(k, all) == Prepend(out, ScanAll(k, buf))
        decreases |buf|
      {
        ghost var front := Front(k, buf);
        var len := FromLittleEndian(buf[..4]);
        if len > MAX_FRAME_SIZE {
          return Err(TooLarge(len));
        }
        if |buf| < 4 + len {
          break;
        }
        var body := buf[4..4 + len];
        buf := buf[4 + len..];
        match k.decode(body) {
          case Err(e) => return Err(Decode(e));
          case Ok(m) => out := out + [m];
        }
      }
      assert ScanAll(k, buf) == Scan([], buf, None) && out + [] == out;
      return Ok(out);
    }
  }

  // ---------- decoding in chunks ----------

  function Flatten(chunks: seq<Bytes>): Bytes {
    if chunks == [] then [] else chunks[0] + Flatten(chunks[1..])
  }

  /** The read loop: chunk after chunk until the first error, which also costs that chunk's messages. */
  function Feed(k: BodyCodec, buf: Bytes, chunks: seq<Bytes>): Scan
    decreases |chunks|
  {
    if chunks == [] then Scan([], buf, None)
    else
      var first := ScanAll(k, buf + chunks[0]);
      if first.error.Some? then first.(msgs := [])
      else
        Prepend(first.msgs, Feed(k, first.rest, chunks[1..]))
  }

  lemma FrontExtends(k: BodyCodec, a: Bytes, b: Bytes)
    ensures !Front(k, a).Incomplete? ==> Front(k, a + b) == Front(k, a)
  {
    if |a| >= 4 {
      assert (a + b)[..4] == a[..4];
      var len := FromLittleEndian(a[..4]);
      if |a| >= 4 + len {
        assert (a + b)[4..4 + len] == a[4..4 + len];
      }
    }
  }

  /** More bytes change nothing about what was already complete, and nothing about an error. */
  lemma {:induction false} ScanSplit(k: BodyCodec, a: Bytes, b: Bytes)
    ensures var first, whole := ScanAll(k, a), ScanAll(k, a + b);
            if first.error.Some? then whole.error == first.error && whole.msgs == first.msgs
            else whole == Prepend(first.msgs, ScanAll(k, first.rest + b))
    decreases |a|
  {
    FrontExtends(k, a, b);
    match Front(k, a) {
      case Whole(m, used) =>
        assert (a + b)[used..] == a[used..] + b;
        ScanSplit(k, a[used..], b);
        var first := ScanAll(k, a[used..]);
        PrependTwice([m], first.msgs, ScanAll(k, first.rest + b));
      case Incomplete => PrependTwice([], [], ScanAll(k, a + b));
      case _ =>
    }
  }

  lemma {:induction false} FlattenCons(chunks: seq<Bytes>, buf: Bytes)
    requires chunks != []
    ensures buf + Flatten(chunks) == (buf + chunks[0]) + Flatten(chunks[1..])
  {
  }

  lemma {:induction false} ScanRestIsIdle(k: BodyCodec, a: Bytes)
    requires ScanAll(k, a).error.None?
    ensures ScanAll(k, ScanAll(k, a).rest) == Scan([], ScanAll(k, a).rest, None)
    decreases |a|
  {
    if Front(k, a).Whole? {
      ScanRestIsIdle(k, a[Front(k, a).used..]);
    }
  }

  /** Whether decoding fails, and with which error, does not depend on how the bytes were cut; without an
      error neither do the messages and the leftover, and with one the messages seen are a prefix. */
  lemma {:induction false} CutsDoNotMatter(k: BodyCodec, buf: Bytes, chunks: seq<Bytes>)
    requires ScanAll(k, buf) == Scan([], buf, None)
    ensures var fed, whole := Feed(k, buf, chunks), ScanAll(k, buf + Flatten(chunks));
            && fed.error == whole.error
            && (whole.error.None? ==> fed == whole)
            && fed.msgs <= whole.msgs
    decreases |chunks|
  {
    if chunks == [] {
      assert buf + Flatten(chunks) == buf;
    } else {
      FlattenCons(chunks, buf);
      var a := buf + chunks[0];
      var first := ScanAll(k, a);
      ScanSplit(k, a, Flatten(chunks[1..]));
      if first.error.None? {
        ScanRestIsIdle(k, a);
        CutsDoNotMatter(k, first.rest, chunks[1..]);
      }
    }
  }

  // ---------- the writer ----------

  function Encodable(k: BodyCodec, queue: seq<WireMessage>): seq<WireMessage> {
    if queue == [] then []
    else (if k.encode(queue[0]).Some? then [queue[0]] else []) + Encodable(k, queue[1..])
  }

  /** The frames of the queued messages, one after the other; a message that does not encode is dropped. */
  function Stream(k: BodyCodec, queue: seq<WireMessage>): Bytes {
    if queue == [] then []
    else (match k.encode(queue[0]) case Some(body) => FrameOf(body) case None => []) + Stream(k, queue[1..])
  }

  lemma {:induction false} StreamSnoc(k: BodyCodec, queue: seq<WireMessage>, i: nat)
    requires i < |queue|
    ensures Stream(k, queue[..i + 1])
            == Stream(k, queue[..i]) + (match k.encode(queue[i]) case Some(body) => FrameOf(body) case None => [])
    decreases |queue|
  {
    if i == 0 {
      assert queue[..1][1..] == [] && queue[..0] == [];
    } else {
      assert queue[..i + 1][1..] == queue[1..][..i] && queue[..i][1..] == queue[1..][..i - 1];
      StreamSnoc(k, queue[1..], i - 1);
    }
  }

  lemma {:induction false} FlattenSnoc(chunks: seq<Bytes>, last: Bytes)
    ensures Flatten(chunks + [last]) == Flatten(chunks) + last
  {
    if chunks == [] {
      assert chunks + [last] == [last] && [last][1..] == [];
    } else {
      assert (chunks + [last])[1..] == chunks[1..] + [last];
      FlattenSnoc(chunks[1..], last);
    }
  }

  /** Drains `queue`. `burst(r)` bounds how many further messages happen to be queued in round `r`. */
  method WriterLoop(k: BodyCodec, queue: seq<WireMessage>, burst: nat -> nat) returns (writes: seq<Bytes>)
    ensures Flatten(writes) == Stream(k, queue)
  {
    writes := [];
    var i, round := 0, 0;
    while i < |queue|
      invariant 0 <= i <= |queue|
      invariant Flatten(writes) == Stream(k, queue[..i])
      decreases |queue| - i
    {
      var batch: Bytes := [];
      var encoded := k.encode(queue[i]);
      StreamSnoc(k, queue, i);
      i, round := i + 1, round + 1;
      if encoded.None? {
        continue;
      }
      batch := FrameOf(encoded.value);
      var left := burst(round);
      ghost var taken := i;
      while left > 0 && i < |queue|
        invariant taken <= i <= |queue|
        invariant Flatten(writes) + batch == Stream(k, queue[..i])
      {
        var next := k.encode(queue[i]);
        StreamSnoc(k, queue, i);
        i, left := i + 1, left - 1;
        if next.Some? {
          batch := batch + FrameOf(next.value);
        }
      }
      FlattenSnoc(writes, batch);
      writes := writes + [batch];
    }
    assert queue[..|queue|] == queue;
  }

  // ---------- end to end ----------

  ghost predicate Fits(k: BodyCodec, m: WireMessage) {
    k.encode(m).Some? ==> |k.encode(m).value| <= MAX_FRAME_SIZE
  }

  lemma FrameInPieces(body: Bytes, rest: Bytes)
    requires |body| < 0x1_0000_0000
    ensures var buf, n := FrameOf(body) + rest, |body|;
            && |buf| >= 4 + n && FromLittleEndian(buf[..4]) == n && buf[4..4 + n] == body && buf[4 + n..] == rest
  {
    var buf := FrameOf(body) + rest;
    assert buf[..4] == LittleEndian(|body|);
    assert buf[4..4 + |body|] == body;
    assert buf[4 + |body|..] == rest;
  }

  lemma ScanOneFrame(k: BodyCodec, m: WireMessage, rest: Bytes)
    requires RoundTrips(k) && k.encode(m).Some? && |k.encode(m).value| < 0x1_0000_0000
    ensures var body := k.encode(m).value;
            var whole := ScanAll(k, FrameOf(body) + rest);
            if |body| <= MAX_FRAME_SIZE then whole == Prepend([m], ScanAll(k, rest))
            else whole.msgs == [] && whole.error == Some(TooLarge(|body|))
  {
    FrameInPieces(k.encode(m).value, rest);
  }

  /** The stream of a queue decodes to the queue with nothing left over exactly when every body fits. */
  lemma {:induction false} StreamDecodesIffFits(k: BodyCodec, queue: seq<WireMessage>)
    requires RoundTrips(k)
    requires forall i :: 0 <= i < |queue| && k.encode(queue[i]).Some? ==> |k.encode(queue[i]).value| < 0x1_0000_0000
    ensures ScanAll(k, Stream(k, queue)) == Scan(Encodable(k, queue), [], None)
            <==> forall i :: 0 <= i < |queue| ==> Fits(k, queue[i])
    ensures ScanAll(k, Stream(k, queue)).msgs <= Encodable(k, queue)
  {
    if queue != [] {
      StreamDecodesIffFits(k, queue[1..]);
      var m := queue[0];
      assert forall i :: 1 <= i < |queue| ==> queue[i] == queue[1..][i - 1];
      assert (forall i :: 0 <= i < |queue| ==> Fits(k, queue[i]))
        <==> Fits(k, m) && forall i :: 0 <= i < |queue[1..]| ==> Fits(k, queue[1..][i]);
      if k.encode(m).Some? {
        ScanOneFrame(k, m, Stream(k, queue[1..]));
      } else {
        assert Stream(k, queue) == Stream(k, queue[1..]) && Encodable(k, queue) == Encodable(k, queue[1..]);
      }
    }
  }

  /** For every queue whose bodies fit, every batching by the writer and every cut into reads, the decoder
      yields the queued messages in order and ends with an empty buffer. */
  lemma {:induction false} StreamFidelity(k: BodyCodec, queue: seq<WireMessage>, writes: seq<Bytes>, chunks: seq<Bytes>)
    requires RoundTrips(k) && forall i :: 0 <= i < |queue| ==> Fits(k, queue[i])
    requires Flatten(writes) == Stream(k, queue) && Flatten(chunks) == Flatten(writes)
    ensures Feed(k, [], chunks) == Scan(Encodable(k, queue), [], None)
  {
    StreamDecodesIffFits(k, queue);
    CutsDoNotMatter(k, [], chunks);
    assert [] + Flatten(chunks) == Flatten(chunks);
  }

  /** `send_data_bytes` accepts a payload up to the frame limit, ... */
  predicate SenderAccepts(m: WireMessage) {
    |m.payload| <= MAX_FRAME_SIZE
  }

  /** ... so a message it accepts is lost, and its connection with it, exactly when the rest of the body
      no longer fits next to the payload. */
  lemma AcceptedButTooLarge(k: BodyCodec, m: WireMessage, overhead: nat)
    requires RoundTrips(k) && SenderAccepts(m) && overhead < 0x1_0000_0000 - MAX_FRAME_SIZE
    requires k.encode(m).Some? && |k.encode(m).value| == |m.payload| + overhead
    ensures Feed(k, [], [Stream(k, [m])]).error.Some? <==> |m.payload| > MAX_FRAME_SIZE - overhead
    ensures Feed(k, [], [Stream(k, [m])]).msgs == if |m.payload| > MAX_FRAME_SIZE - overhead then [] else [m]
  {
    var frame := FrameOf(k.encode(m).value);
    assert Stream(k, [m]) == frame && [] + frame == frame == frame + [];
    ScanOneFrame(k, m, []);
  }

  /** Such a message exists: a payload of exactly the limit, under a codec that adds a single byte. */
  lemma LargestPayloadIsLost(payload: Bytes) returns (k: BodyCodec, m: WireMessage)
    requires |payload| == MAX_FRAME_SIZE
    ensures RoundTrips(k) && m.payload == payload && SenderAccepts(m)
    ensures Feed(k, [], [Stream(k, [m])]).msgs == [] && Feed(k, [], [Stream(k, [m])]).error.Some?
  {
    m := WireMessage(1, 1, "", "", Data, payload, None, None);
    var it := m;
    k := BodyCodec(x => if x == it then Some([0] + payload) else None, _ => Ok(it));
    AcceptedButTooLarge(k, m, 1);
  }

  /** A complete frame whose body does not decode is an error, and costs the frame. */
  lemma UndecodableIsError(k: BodyCodec, body: Bytes, rest: Bytes)
    requires |body| <= MAX_FRAME_SIZE && k.decode(body).Err?
    ensures ScanAll(k, FrameOf(body) + rest) == Scan([], rest, Some(Decode(k.decode(body).error)))
  {
    FrameInPieces(body, rest);
  }
}
