/**
 Length-prefixed framing: the timeout-tolerant incremental reader of the Rust side, the blocking
 reader of the Python side, and the proof that both recover what the writers framed.
 */
module Framing {
  import opened Text
  import opened Utf8
  import opened Json

  const MAX_FRAME_LEN: nat := 16 * 1024 * 1024
  const MAX_MESSAGE_LEN: nat := 64 * 1024 * 1024

  // ── Frames ─────────────────────────────────────────────────────────────────

  function Be32(n: nat): (r: seq<byte>)
    ensures |r| == 4
  {
    var m := n % U32_LIMIT;
    [m / 0x100_0000, m / 0x1_0000 % 0x100, m / 0x100 % 0x100, m % 0x100]
  }

  function FromBe32(bs: seq<byte>): nat
    requires |bs| >= 4
  {
    var a: int, b: int, c: int, d: int := bs[0], bs[1], bs[2], bs[3];
    a * 0x100_0000 + b * 0x1_0000 + c * 0x100 + d
  }

  lemma Be32RoundTrip(n: nat, rest: seq<byte>)
    requires n < U32_LIMIT
    ensures FromBe32(Be32(n) + rest) == n
  {
    var bs := Be32(n) + rest;
    assert n % U32_LIMIT == n;
    assert bs[0] == n / 0x100_0000 && bs[1] == n / 0x1_0000 % 0x100 && bs[2] == n / 0x100 % 0x100 && bs[3] == n % 0x100;
    FourBytes(n);
  }

  lemma FourBytes(n: nat)
    ensures n == n / 0x100_0000 * 0x100_0000 + n / 0x1_0000 % 0x100 * 0x1_0000 + n / 0x100 % 0x100 * 0x100 + n % 0x100
  {
    TwoBytes(n);
    TwoBytes(n / 0x1_0000);
    TopBytes(n);
  }

  lemma TwoBytes(n: nat)
    ensures n == n / 0x1_0000 * 0x1_0000 + n / 0x100 % 0x100 * 0x100 + n % 0x100
  {
  }

  lemma TopBytes(n: nat)
    ensures n / 0x1_0000 / 0x100 == n / 0x100_0000
  {
  }

  /** The bytes of a frame around a body. */
  function Frame(body: seq<byte>): seq<byte> {
    Be32(|body|) + body
  }

  type Parser = seq<byte> -> Option<Json>

  /** `serde_json::from_slice`, `json.loads(body.decode("utf-8"))` */
  function ParseBody(body: seq<byte>): Option<Json> {
    var text :- Decode(body);
    Parse(text)
  }

  /** `serde_json::to_vec`, and `json.dumps` of the same value. */
  function BodyOf(j: Json): seq<byte> {
    Encode(Print(j))
  }

  lemma ParseBodyRoundTrip(j: Json)
    requires Valid(j)
    ensures ParseBody(BodyOf(j)) == Some(j)
  {
    DecodeEncode(Print(j));
    ParsePrintDocument(j);
  }

  // ── The incremental reader ─────────────────────────────────────────────────

  /** What a buffer holds at its front. */
  datatype Front = Incomplete | TooLarge | BadBody(used: nat) | Complete(value: Json, used: nat)

  function FrontOf(buf: seq<byte>, parse: Parser): (f: Front)
    ensures f.Complete? || f.BadBody? ==> 4 <= f.used <= |buf|
  {
    if |buf| < 4 then Incomplete
    else
      var len := FromBe32(buf);
      if len > MAX_FRAME_LEN then TooLarge
      else if |buf| < 4 + len then Incomplete
      else
        match parse(buf[4..4 + len])
        case None => BadBody(4 + len)
        case Some(v) => Complete(v, 4 + len)
  }

  /** More bytes never change a decision already taken. */
  lemma FrontIsStable(a: seq<byte>, b: seq<byte>, parse: Parser)
    requires !FrontOf(a, parse).Incomplete?
    ensures FrontOf(a + b, parse) == FrontOf(a, parse)
  {
    var len := FromBe32(a);
    assert FromBe32(a + b) == len;
    if 4 + len <= |a| {
      assert (a + b)[4..4 + len] == a[4..4 + len];
    }
  }

  /** One `read` call: some bytes (none means the peer closed), a timeout, an interruption, an error. */
  datatype ReadResult = Data(bytes: seq<byte>) | TimedOut | Interrupted | Broken

  datatype FrameRead = Got(value: Json) | Timeout | Eof | Fault

  /** The outcome of `read_frame` with the buffer and the script left. */
  datatype After = After(result: FrameRead, buf: seq<byte>, script: seq<ReadResult>)

  /** Reads that are not there are a closed peer. */
  function NextFrame(buf: seq<byte>, script: seq<ReadResult>, parse: Parser): (r: After)
    ensures |r.script| <= |script|
    ensures r.result.Got? || r.result.Timeout? ==> |r.script| < |script| || |r.buf| < |buf|
    ensures |r.script| == |script| ==> |r.buf| <= |buf|
    decreases |script|
  {
    match FrontOf(buf, parse)
    case Complete(v, used) => After(Got(v), buf[used..], script)
    case TooLarge => After(Fault, buf, script)
    case BadBody(used) => After(Fault, buf[used..], script)
    case Incomplete =>
      if script == [] then After(Eof, buf, [])
      else
        match script[0]
        case Data(bytes) =>
          if bytes == [] then After(Eof, buf, script[1..]) else NextFrame(buf + bytes, script[1..], parse)
        case Interrupted => NextFrame(buf, script[1..], parse)
        case TimedOut => After(Timeout, buf, script[1..])
        case Broken => After(Fault, buf, script[1..])
  }

  class Socket {
    var script: seq<ReadResult>

    constructor (script: seq<ReadResult>)
      ensures this.script == script
    {
      this.script := script;
    }

    method Read() returns (r: ReadResult)
      modifies this
      ensures old(script) == [] ==> r == Data([]) && script == []
      ensures old(script) != [] ==> r == old(script)[0] && script == old(script)[1..]
    {
      if script == [] {
        return Data([]);
      }
      r, script := script[0], script[1..];
    }
  }

  datatype Taken = Nothing | Value(value: Json) | Invalid

  class FrameReader {
    var buf: seq<byte>

    constructor ()
      ensures buf == []
    {
      buf := [];
    }

    /** `take_frame` */
    method TakeFrame(parse: Parser) returns (t: Taken)
      modifies this
      ensures match FrontOf(old(buf), parse)
              case Incomplete => t == Nothing && buf == old(buf)
              case TooLarge => t == Invalid && buf == old(buf)
              case BadBody(used) => t == Invalid && buf == old(buf)[used..]
              case Complete(v, used) => t == Value(v) && buf == old(buf)[used..]
    {
      if |buf| < 4 {
        return Nothing;
      }
      var len := FromBe32(buf);
      if len > MAX_FRAME_LEN {
        return Invalid;
      }
      if |buf| < 4 + len {
        return Nothing;
      }
      var body := buf[4..4 + len];
      buf := buf[4 + len..];
      match parse(body)
      case None => t := Invalid;
      case Some(v) => t := Value(v);
    }

    /** `read_frame` */
    method ReadFrame(sock: Socket, parse: Parser) returns (r: FrameRead)
      modifies this, sock
      ensures After(r, buf, sock.script) == NextFrame(old(buf), old(sock.script), parse)
    {
      while true
        invariant NextFrame(buf, sock.script, parse) == NextFrame(old(buf), old(sock.script), parse)
        decreases |sock.script|
      {
        var taken := TakeFrame(parse);
        if taken.Value? {
          return Got(taken.value);
        } else if taken.Invalid? {
          return Fault;
        }
        if sock.script == [] {
          return Eof;
        }
        var chunk := sock.Read();
        match chunk
        case Data(bytes) =>
          if bytes == [] {
            return Eof;
          }
          buf := buf + bytes;
        case TimedOut => return Timeout;
        case Interrupted =>
        case Broken => return Fault;
      }
    }
  }

  // ── Reading a whole conversation ───────────────────────────────────────────

  /** How a conversation ended: the peer closed, or the stream broke or was malformed. */
  datatype Ending = ClosedByPeer | Failed

  datatype Conversation = Conversation(values: seq<Json>, ending: Ending)

  function Before(v: Json, c: Conversation): Conversation {
    Conversation([v] + c.values, c.ending)
  }

  /** Calling `read_frame` again and again, trying once more after every timeout. */
  function ReadAll(buf: seq<byte>, script: seq<ReadResult>, parse: Parser): Conversation
    decreases |script|, |buf|
  {
    var r := NextFrame(buf, script, parse);
    match r.result
    case Got(v) => Before(v, ReadAll(r.buf, r.script, parse))
    case Timeout => ReadAll(r.buf, r.script, parse)
    case Eof => Conversation([], ClosedByPeer)
    case Fault => Conversation([], Failed)
  }

  /** The bytes that arrive before the peer closes or the connection breaks. */
  function Arriving(script: seq<ReadResult>): seq<byte> {
    if script == [] then []
    else
      match script[0]
      case Data(bytes) => if bytes == [] then [] else bytes + Arriving(script[1..])
      case Broken => []
      case _ => Arriving(script[1..])
  }

  function EndOf(script: seq<ReadResult>): Ending {
    if script == [] then ClosedByPeer
    else
      match script[0]
      case Data(bytes) => if bytes == [] then ClosedByPeer else EndOf(script[1..])
      case Broken => Failed
      case _ => EndOf(script[1..])
  }

  /** The reference: cut frames off the whole stream, with no notion of reads. */
  function DecodeStream(stream: seq<byte>, end: Ending, parse: Parser): Conversation
    decreases |stream|
  {
    match FrontOf(stream, parse)
    case Complete(v, used) => Before(v, DecodeStream(stream[used..], end, parse))
    case Incomplete => Conversation([], end)
    case _ => Conversation([], Failed)
  }

  /** A read call loses no byte: the buffer and what is still to arrive are the undecoded suffix. */
  lemma {:induction false} NothingIsLost(buf: seq<byte>, script: seq<ReadResult>, parse: Parser)
    ensures var r := NextFrame(buf, script, parse);
            var stream := buf + Arriving(script);
            match r.result
            case Got(v) =>
              && FrontOf(stream, parse).Complete? && FrontOf(stream, parse).value == v
              && r.buf + Arriving(r.script) == stream[FrontOf(stream, parse).used..]
              && EndOf(r.script) == EndOf(script)
            case Timeout => r.buf + Arriving(r.script) == stream && EndOf(r.script) == EndOf(script)
            case Eof => FrontOf(stream, parse).Incomplete? && EndOf(script) == ClosedByPeer
            case Fault =>
              if FrontOf(stream, parse).Incomplete? then EndOf(script) == Failed
              else !FrontOf(stream, parse).Complete?
    decreases |script|
  {
    var stream := buf + Arriving(script);
    var f := FrontOf(buf, parse);
    if !f.Incomplete? {
      FrontIsStable(buf, Arriving(script), parse);
      if f.Complete? {
        assert stream[f.used..] == buf[f.used..] + Arriving(script);
      }
    } else if script == [] {
      assert stream == buf;
    } else {
      match script[0]
      case Data(bytes) =>
        if bytes == [] {
          assert stream == buf;
        } else {
          assert stream == (buf + bytes) + Arriving(script[1..]);
          NothingIsLost(buf + bytes, script[1..], parse);
        }
      case Interrupted => NothingIsLost(buf, script[1..], parse);
      case TimedOut =>
      case Broken => assert stream == buf;
    }
  }

  /**
   Refinement: whatever the reads, and wherever timeouts and interruptions fall between or inside
   frames, the incremental reader yields the decoding of the stream as a whole.
   */
  lemma {:induction false} ReadAllIsDecode(buf: seq<byte>, script: seq<ReadResult>, parse: Parser)
    ensures ReadAll(buf, script, parse) == DecodeStream(buf + Arriving(script), EndOf(script), parse)
    decreases |script|, |buf|
  {
    NothingIsLost(buf, script, parse);
    var r := NextFrame(buf, script, parse);
    if r.result.Got? || r.result.Timeout? {
      ReadAllIsDecode(r.buf, r.script, parse);
    }
  }

  // ── What the writer sends ──────────────────────────────────────────────────

  function FrameOf(j: Json): seq<byte> {
    Frame(BodyOf(j))
  }

  function Wire(js: seq<Json>, frame: Json -> seq<byte>): seq<byte> {
    if js == [] then [] else frame(js[0]) + Wire(js[1..], frame)
  }

  lemma FrontOfFrame(body: seq<byte>, v: Json, rest: seq<byte>, parse: Parser)
    requires |body| <= MAX_FRAME_LEN && parse(body) == Some(v)
    ensures FrontOf(Frame(body) + rest, parse) == Complete(v, 4 + |body|)
    ensures (Frame(body) + rest)[4 + |body|..] == rest
  {
    var s := Frame(body) + rest;
    assert s == Be32(|body|) + (body + rest);
    Be32RoundTrip(|body|, body + rest);
    assert s[4..4 + |body|] == body;
  }

  ghost predicate Sendable(js: seq<Json>, parse: Parser) {
    forall i :: 0 <= i < |js| ==> |BodyOf(js[i])| <= MAX_FRAME_LEN && parse(BodyOf(js[i])) == Some(js[i])
  }

  /** The reader takes a frame off the front of whatever follows it. */
  ghost predicate Takes<E>(read: seq<byte> -> (seq<Json>, E), frame: seq<byte>, v: Json) {
    forall rest :: read(frame + rest) == ([v] + read(rest).0, read(rest).1)
  }

  /** A reader that takes every frame goes through them all to what follows. */
  lemma {:induction false} FramesThen<E>(js: seq<Json>, frame: Json -> seq<byte>, tail: seq<byte>,
                                         read: seq<byte> -> (seq<Json>, E))
    requires forall i :: 0 <= i < |js| ==> Takes(read, frame(js[i]), js[i])
    ensures read(Wire(js, frame) + tail) == (js + read(tail).0, read(tail).1)
  {
    var vs := read(tail).0;
    if js == [] {
      assert [] + tail == tail && [] + vs == vs;
    } else {
      var first, rest := frame(js[0]), Wire(js[1..], frame);
      FramesThen(js[1..], frame, tail, read);
      assert read(first + (rest + tail)) == ([js[0]] + (js[1..] + vs), read(tail).1);
      assert first + rest + tail == first + (rest + tail) by { Reassociate(first, rest, tail); }
      assert [js[0]] + (js[1..] + vs) == js + vs by {
        Reassociate([js[0]], js[1..], vs);
        assert [js[0]] + js[1..] == js;
      }
    }
  }

  lemma DecodeAfterFrame(body: seq<byte>, v: Json, rest: seq<byte>, end: Ending, parse: Parser)
    requires |body| <= MAX_FRAME_LEN && parse(body) == Some(v)
    ensures DecodeStream(Frame(body) + rest, end, parse) == Before(v, DecodeStream(rest, end, parse))
  {
    FrontOfFrame(body, v, rest, parse);
  }

  /** Decoding goes through whole frames to what follows them. */
  lemma DecodeThen(js: seq<Json>, tail: seq<byte>, end: Ending, parse: Parser)
    requires Sendable(js, parse)
    ensures var c := DecodeStream(tail, end, parse);
            DecodeStream(Wire(js, FrameOf) + tail, end, parse) == Conversation(js + c.values, c.ending)
  {
    var read := s => (DecodeStream(s, end, parse).values, DecodeStream(s, end, parse).ending);
    forall i | 0 <= i < |js| ensures Takes(read, FrameOf(js[i]), js[i]) {
      forall rest ensures read(FrameOf(js[i]) + rest) == ([js[i]] + read(rest).0, read(rest).1) {
        DecodeAfterFrame(BodyOf(js[i]), js[i], rest, end, parse);
      }
    }
    FramesThen(js, FrameOf, tail, read);
  }

  /** What is decoded before a body that does not parse, or a frame over the cap, is kept; nothing after it is read. */
  lemma DecodeStops(js: seq<Json>, body: seq<byte>, rest: seq<byte>, end: Ending, parse: Parser)
    requires Sendable(js, parse) && |body| < 0x1_0000_0000
    requires |body| > MAX_FRAME_LEN || parse(body) == None
    ensures DecodeStream(Wire(js, FrameOf) + (Frame(body) + rest), end, parse) == Conversation(js, Failed)
  {
    BadFrameStops(body, rest, end, parse);
    DecodeThen(js, Frame(body) + rest, end, parse);
    assert js + [] == js;
  }

  lemma BadFrameStops(body: seq<byte>, rest: seq<byte>, end: Ending, parse: Parser)
    requires |body| < 0x1_0000_0000 && (|body| > MAX_FRAME_LEN || parse(body) == None)
    ensures DecodeStream(Frame(body) + rest, end, parse) == Conversation([], Failed)
  {
    var s := Frame(body) + rest;
    Be32RoundTrip(|body|, body + rest);
    assert s == Be32(|body|) + (body + rest);
    assert s[4..4 + |body|] == body;
  }

  lemma DecodeWire(js: seq<Json>, end: Ending, parse: Parser)
    requires Sendable(js, parse)
    ensures DecodeStream(Wire(js, FrameOf), end, parse) == Conversation(js, end)
  {
    DecodeThen(js, [], end, parse);
    assert Wire(js, FrameOf) + [] == Wire(js, FrameOf) && js + [] == js;
  }

  /** End to end: every list of values within the size cap arrives in order, under every split. */
  lemma FramesArrive(js: seq<Json>, script: seq<ReadResult>)
    requires forall i :: 0 <= i < |js| ==> Valid(js[i]) && |BodyOf(js[i])| <= MAX_FRAME_LEN
    requires Arriving(script) == Wire(js, FrameOf)
    ensures ReadAll([], script, ParseBody) == Conversation(js, EndOf(script))
  {
    forall i | 0 <= i < |js| ensures ParseBody(BodyOf(js[i])) == Some(js[i]) { ParseBodyRoundTrip(js[i]); }
    ReadAllIsDecode([], script, ParseBody);
    assert [] + Arriving(script) == Arriving(script);
    DecodeWire(js, EndOf(script), ParseBody);
  }

  // ── The blocking reader ────────────────────────────────────────────────────

  datatype Received = Bytes(bytes: seq<byte>) | CleanEof | Truncated

  datatype Message = Msg(value: Json) | PeerClosed | ShortFrame | Oversized | NotJson

  /** What `recv_message` returns on a stream, and the stream left. */
  function NextMessage(stream: seq<byte>, parse: Parser): (Message, seq<byte>) {
    if stream == [] then (PeerClosed, [])
    else if |stream| < 4 then (ShortFrame, [])
    else
      var len := FromBe32(stream);
      if len > MAX_MESSAGE_LEN then (Oversized, stream[4..])
      else if |stream| < 4 + len then (ShortFrame, [])
      else
        match parse(stream[4..4 + len])
        case None => (NotJson, stream[4 + len..])
        case Some(v) => (Msg(v), stream[4 + len..])
  }

  class BlockingSocket {
    var pending: seq<byte>

    constructor (pending: seq<byte>)
      ensures this.pending == pending
    {
      this.pending := pending;
    }

    /** `recv`: any non-empty amount up to `max`, nothing only at end of stream. */
    method Recv(max: nat) returns (chunk: seq<byte>)
      requires max > 0
      modifies this
      ensures old(pending) == chunk + pending && |chunk| <= max
      ensures chunk == [] <==> old(pending) == []
    {
      if pending == [] {
        return [];
      }
      var n :| 1 <= n <= max && n <= |pending|;
      chunk, pending := pending[..n], pending[n..];
    }

    /** `_recv_exactly` */
    method RecvExactly(n: nat, atBoundary: bool) returns (r: Received)
      modifies this
      ensures |old(pending)| >= n ==> r == Bytes(old(pending)[..n]) && pending == old(pending)[n..]
      ensures |old(pending)| < n ==>
                pending == [] && r == if atBoundary && old(pending) == [] then CleanEof else Truncated
    {
      var buf := [];
      while |buf| < n
        invariant |buf| <= n
        invariant old(pending) == buf + pending
        decreases n - |buf|
      {
        var chunk := Recv(n - |buf|);
        if chunk == [] {
          if atBoundary && buf == [] {
            return CleanEof;
          }
          return Truncated;
        }
        buf := buf + chunk;
      }
      r := Bytes(buf);
    }

    /** `recv_message` */
    method RecvMessage(parse: Parser) returns (m: Message)
      modifies this
      ensures (m, pending) == NextMessage(old(pending), parse)
    {
      ghost var all := pending;
      var header := RecvExactly(4, true);
      if header.CleanEof? {
        return PeerClosed;
      } else if header.Truncated? {
        return ShortFrame;
      }
      var len := FromBe32(header.bytes);
      assert FromBe32(all) == len;
      if len > MAX_MESSAGE_LEN {
        return Oversized;
      }
      var body := RecvExactly(len, false);
      if !body.Bytes? {
        return ShortFrame;
      }
      assert body.bytes == all[4..4 + len] && pending == all[4 + len..];
      match parse(body.bytes)
      case None => m := NotJson;
      case Some(v) => m := Msg(v);
    }
  }

  /** Receiving until the first outcome that is no message. */
  function Messages(stream: seq<byte>, parse: Parser): (seq<Json>, Message)
    decreases |stream|
  {
    var (m, rest) := NextMessage(stream, parse);
    if m.Msg? then
      var (vs, last) := Messages(rest, parse);
      ([m.value] + vs, last)
    else ([], m)
  }

  /** The two readers see the same values, and a clean close in the same streams. */
  predicate Agree(stream: seq<byte>, parse: Parser) {
    var c := DecodeStream(stream, ClosedByPeer, parse);
    var (vs, last) := Messages(stream, parse);
    vs == c.values && (c.ending == ClosedByPeer <==> last == PeerClosed)
  }

  /** After some decoded frames the stream stops inside a header, or inside a body within the smaller cap. */
  predicate CutShort(stream: seq<byte>, parse: Parser)
    decreases |stream|
  {
    if |stream| < 4 then stream != []
    else
      var f := FrontOf(stream, parse);
      f.Incomplete? || (f.Complete? && CutShort(stream[f.used..], parse))
  }

  /** After some decoded frames comes a complete one between the two caps that parses. */
  predicate BetweenCaps(stream: seq<byte>, parse: Parser)
    decreases |stream|
  {
    |stream| >= 4 &&
    var len, f := FromBe32(stream), FrontOf(stream, parse);
    if len <= MAX_FRAME_LEN then f.Complete? && BetweenCaps(stream[f.used..], parse)
    else len <= MAX_MESSAGE_LEN && |stream| >= 4 + len && parse(stream[4..4 + len]).Some?
  }

  lemma AgreeAfterFrame(stream: seq<byte>, parse: Parser)
    requires FrontOf(stream, parse).Complete?
    ensures Agree(stream, parse) <==> Agree(stream[FrontOf(stream, parse).used..], parse)
  {
    var f := FrontOf(stream, parse);
    var rest := stream[f.used..];
    var values, vs := DecodeStream(rest, ClosedByPeer, parse).values, Messages(rest, parse).0;
    assert ([f.value] + vs)[1..] == vs && ([f.value] + values)[1..] == values;
  }

  /**
   For every stream, the two readers part ways if and only if a decoded boundary is followed by a frame
   cut off within the smaller cap, or by a complete one between the caps that parses.
   */
  lemma {:induction false} ReadersAgreeIff(stream: seq<byte>, parse: Parser)
    ensures Agree(stream, parse) <==> !CutShort(stream, parse) && !BetweenCaps(stream, parse)
    decreases |stream|
  {
    var f := FrontOf(stream, parse);
    if f.Complete? {
      ReadersAgreeIff(stream[f.used..], parse);
      AgreeAfterFrame(stream, parse);
    }
  }

  /** The incremental reader takes a stream to be closed when it is not exactly when it is cut short. */
  lemma {:induction false} ClosedOrCutShort(stream: seq<byte>, parse: Parser)
    ensures DecodeStream(stream, ClosedByPeer, parse).ending == ClosedByPeer && Messages(stream, parse).1 != PeerClosed
            <==> CutShort(stream, parse)
    ensures CutShort(stream, parse) ==> Messages(stream, parse).1 == ShortFrame
    decreases |stream|
  {
    var f := FrontOf(stream, parse);
    if f.Complete? {
      ClosedOrCutShort(stream[f.used..], parse);
    }
  }

  /** Every frame within the cap, cut off anywhere: a clean close to one reader and a short frame to the other. */
  lemma CutFrameLooksClosed(body: seq<byte>, k: nat, parse: Parser)
    requires |body| <= MAX_FRAME_LEN && 0 < k < 4 + |body|
    ensures var cut := Frame(body)[..k];
            && DecodeStream(cut, ClosedByPeer, parse) == Conversation([], ClosedByPeer)
            && Messages(cut, parse) == ([], ShortFrame)
            && !Agree(cut, parse)
  {
    var cut := Frame(body)[..k];
    if k >= 4 {
      Be32RoundTrip(|body|, body[..k - 4]);
      assert cut == Be32(|body|) + body[..k - 4];
    }
  }

  lemma MessageOfFrame(body: seq<byte>, v: Json, rest: seq<byte>, parse: Parser)
    requires |body| <= MAX_MESSAGE_LEN && parse(body) == Some(v)
    ensures NextMessage(Frame(body) + rest, parse) == (Msg(v), rest)
  {
    var s := Frame(body) + rest;
    Be32RoundTrip(|body|, body + rest);
    assert s == Be32(|body|) + (body + rest);
    assert s[4..4 + |body|] == body && s[4 + |body|..] == rest;
  }

  lemma MessagesAfterFrame(body: seq<byte>, v: Json, rest: seq<byte>, parse: Parser)
    requires |body| <= MAX_MESSAGE_LEN && parse(body) == Some(v)
    ensures Messages(Frame(body) + rest, parse) == ([v] + Messages(rest, parse).0, Messages(rest, parse).1)
  {
    MessageOfFrame(body, v, rest, parse);
  }

  /** Every frame between the caps that parses: too large for one reader and a message to the other. */
  lemma CapsDiffer(body: seq<byte>, v: Json, parse: Parser)
    requires MAX_FRAME_LEN < |body| <= MAX_MESSAGE_LEN && parse(body) == Some(v)
    ensures DecodeStream(Frame(body), ClosedByPeer, parse) == Conversation([], Failed)
    ensures Messages(Frame(body), parse) == ([v], PeerClosed)
    ensures !Agree(Frame(body), parse)
  {
    Be32RoundTrip(|body|, body);
    assert Frame(body) + [] == Frame(body) && [v] + [] == [v];
    MessagesAfterFrame(body, v, [], parse);
  }

  lemma MessagesThen(js: seq<Json>, tail: seq<byte>, parse: Parser)
    requires Sendable(js, parse)
    ensures Messages(Wire(js, FrameOf) + tail, parse) == (js + Messages(tail, parse).0, Messages(tail, parse).1)
  {
    var read := s => Messages(s, parse);
    forall i | 0 <= i < |js| ensures Takes(read, FrameOf(js[i]), js[i]) {
      forall rest ensures read(FrameOf(js[i]) + rest) == ([js[i]] + read(rest).0, read(rest).1) {
        MessagesAfterFrame(BodyOf(js[i]), js[i], rest, parse);
      }
    }
    FramesThen(js, FrameOf, tail, read);
  }

  // ── The completion loop over the incremental reader ────────────────────────

  datatype Completion = Token(text: string) | Done

  datatype Outcome = Completed(completions: seq<Completion>) | Provider(message: string) | Cancelled

  /** A member of an object value that is a string. */
  function StringMember(v: Json, key: string): Option<string> {
    if !v.Obj? then None
    else match Get(v.members, key) case Some(Str(s)) => Some(s) case _ => None
  }

  /** What one frame from the worker asks for. */
  datatype Command = Emit(text: string) | Finish | Abort(message: string) | Skip

  function CommandOf(v: Json): Command {
    var kind, text, message := StringMember(v, "type"), StringMember(v, "text"), StringMember(v, "message");
    if kind == Some("token") then if text.Some? then Emit(text.value) else Skip
    else if kind == Some("done") then Finish
    else if kind == Some("error") then Abort(if message.Some? then message.value else "unknown worker error")
    else Skip
  }

  /** The result the decoded conversation calls for: tokens up to the first `done`, `error` or end. */
  function Collect(out: seq<Completion>, c: Conversation, command: Json -> Command): Outcome
    decreases |c.values|
  {
    if c.values == [] then
      if c.ending.ClosedByPeer? then Completed(out + [Done]) else Provider("")
    else
      var rest := Conversation(c.values[1..], c.ending);
      match command(c.values[0])
      case Emit(x) => Collect(out + [Token(x)], rest, command)
      case Finish => Completed(out + [Done])
      case Abort(m) => Provider(m)
      case Skip => Collect(out, rest, command)
  }

  /** No `done` and no `error` among the values. */
  ghost predicate Unending(values: seq<Json>, command: Json -> Command) {
    forall i :: 0 <= i < |values| ==> !Ends(command(values[i]))
  }

  /** With no `done` and no `error`, the result is a completion exactly when the reader saw a close. */
  lemma {:induction false} CollectWithoutDone(out: seq<Completion>, c: Conversation, command: Json -> Command)
    requires Unending(c.values, command)
    ensures Collect(out, c, command).Completed? <==> c.ending.ClosedByPeer?
    decreases |c.values|
  {
    if c.values != [] {
      var k := command(c.values[0]);
      assert !Ends(k);
      var rest := Conversation(c.values[1..], c.ending);
      CollectWithoutDone(if k.Emit? then out + [Token(k.text)] else out, rest, command);
    }
  }

  /**
   A worker that never says `done` is taken to have completed, though the blocking reader would report no
   orderly close, if and only if its output is cut off inside a frame.
   */
  lemma CompletedUnclosedIff(stream: seq<byte>, parse: Parser, command: Json -> Command)
    requires Unending(DecodeStream(stream, ClosedByPeer, parse).values, command)
    ensures Collect([], DecodeStream(stream, ClosedByPeer, parse), command).Completed?
            && Messages(stream, parse).1 != PeerClosed
            <==> CutShort(stream, parse)
  {
    CollectWithoutDone([], DecodeStream(stream, ClosedByPeer, parse), command);
    ClosedOrCutShort(stream, parse);
  }

  function Obey(out: seq<Completion>, rest: Conversation, k: Command, command: Json -> Command): Outcome {
    match k
    case Emit(x) => Collect(out + [Token(x)], rest, command)
    case Finish => Completed(out + [Done])
    case Abort(m) => Provider(m)
    case Skip => Collect(out, rest, command)
  }

  lemma CollectBefore(out: seq<Completion>, v: Json, c: Conversation, command: Json -> Command)
    ensures Collect(out, Before(v, c), command) ==
            Obey(out, c, command(v), command)
  {
    assert Before(v, c).values[1..] == c.values;
  }

  predicate Ends(k: Command) {
    k.Finish? || k.Abort?
  }

  /** How many times the receive loop goes round if it is not cancelled. */
  function TurnsNeeded(buf: seq<byte>, script: seq<ReadResult>, parse: Parser, command: Json -> Command): (n: nat)
    ensures n > 0
    decreases |script|, |buf|
  {
    var r := NextFrame(buf, script, parse);
    if r.result.Eof? || r.result.Fault? || (r.result.Got? && Ends(command(r.result.value))) then 1
    else 1 + TurnsNeeded(r.buf, r.script, parse, command)
  }

  /** One turn of the receive loop. */
  lemma OneTurn(out: seq<Completion>, buf: seq<byte>, script: seq<ReadResult>, parse: Parser, command: Json -> Command)
    ensures var r := NextFrame(buf, script, parse);
            var now, later := Collect(out, ReadAll(buf, script, parse), command), ReadAll(r.buf, r.script, parse);
            && (r.result.Got? ==> now == Obey(out, later, command(r.result.value), command))
            && (r.result.Timeout? ==> now == Collect(out, later, command))
            && (r.result.Eof? ==> now == Completed(out + [Done]))
            && (r.result.Fault? ==> now == Provider(""))
            && TurnsNeeded(buf, script, parse, command) ==
               if r.result.Eof? || r.result.Fault? || (r.result.Got? && Ends(command(r.result.value))) then 1
               else 1 + TurnsNeeded(r.buf, r.script, parse, command)
  {
    var r := NextFrame(buf, script, parse);
    if r.result.Got? {
      CollectBefore(out, r.result.value, ReadAll(r.buf, r.script, parse), command);
    }
  }

  /**
   The receive loop of `run_live_completion`. It is cancelled exactly when cancellation is seen on one
   of the turns it needs; otherwise its result is `Collect` of the stream's decoding: timeouts and the
   cutting of reads do not show. The text of I/O and decoding errors is left blank.
   */
  method ReceiveCompletions(sock: Socket, parse: Parser, command: Json -> Command, cancelled: nat -> bool)
    returns (r: Outcome)
    modifies sock
    ensures r == Cancelled <==>
            exists k :: 0 <= k < TurnsNeeded([], old(sock.script), parse, command) && cancelled(k)
    ensures r != Cancelled ==>
              r == Collect([], DecodeStream(Arriving(old(sock.script)), EndOf(old(sock.script)), parse), command)
  {
    var reader := new FrameReader();
    ghost var script := sock.script;
    ReadAllIsDecode([], script, parse);
    assert [] + Arriving(script) == Arriving(script);
    CollectedIsNotCancelled([], ReadAll([], script, parse), command);
    r := ReceiveFrom(reader, sock, parse, command, cancelled, Collect([], ReadAll([], script, parse), command),
                     TurnsNeeded([], script, parse, command));
  }

  /** The loop: cancelled on the first turn that sees it, otherwise what is to be collected. */
  method ReceiveFrom(reader: FrameReader, sock: Socket, parse: Parser, command: Json -> Command, cancelled: nat -> bool,
                     ghost want: Outcome, ghost turns: int) returns (r: Outcome)
    requires Remaining([], reader.buf, sock.script, parse, command, want, turns)
    modifies reader, sock
    ensures r == if exists k :: 0 <= k < turns && cancelled(k) then Cancelled else want
  {
    var completions: seq<Completion>, turn: int := [], 0;
    while true
      invariant Remaining(completions, reader.buf, sock.script, parse, command, want, turns - turn)
      invariant 0 <= turn < turns && forall k :: 0 <= k < turn ==> !cancelled(k)
      decreases |sock.script|, |reader.buf|
    {
      if cancelled(turn) {
        assert exists k :: 0 <= k < turns && cancelled(k);
        return Cancelled;
      }
      var ended;
      ended, completions := Turn(reader, sock, parse, command, completions, want, turns - turn);
      turn := turn + 1;
      if ended.Some? {
        assert forall k :: 0 <= k < turns ==> !cancelled(k);
        return ended.value;
      }
    }
  }

  /** What is still to be collected, and in how many turns. */
  ghost predicate Remaining(out: seq<Completion>, buf: seq<byte>, script: seq<ReadResult>, parse: Parser,
                            command: Json -> Command, want: Outcome, turns: int)
  {
    Collect(out, ReadAll(buf, script, parse), command) == want && TurnsNeeded(buf, script, parse, command) == turns > 0
  }

  /** One turn: a result, or one turn less to go. */
  method Turn(reader: FrameReader, sock: Socket, parse: Parser, command: Json -> Command, out: seq<Completion>,
              ghost want: Outcome, ghost turns: int) returns (ended: Option<Outcome>, out': seq<Completion>)
    requires Remaining(out, reader.buf, sock.script, parse, command, want, turns)
    modifies reader, sock
    ensures ended.Some? ==> ended.value == want && turns == 1
    ensures ended.None? ==>
              && Remaining(out', reader.buf, sock.script, parse, command, want, turns - 1)
              && (|sock.script| < |old(sock.script)| ||
                  (|sock.script| == |old(sock.script)| && |reader.buf| < |old(reader.buf)|))
  {
    OneTurn(out, reader.buf, sock.script, parse, command);
    var frame := reader.ReadFrame(sock, parse);
    match frame
    case Got(v) =>
      match command(v) {
        case Emit(x) => return None, out + [Token(x)];
        case Finish => return Some(Completed(out + [Done])), out;
        case Abort(m) => return Some(Provider(m)), out;
        case Skip => return None, out;
      }
    case Eof => return Some(Completed(out + [Done])), out;
    case Timeout => return None, out;
    case Fault => return Some(Provider("")), out;
  }

  lemma {:induction false} CollectedIsNotCancelled(out: seq<Completion>, c: Conversation, command: Json -> Command)
    ensures Collect(out, c, command) != Cancelled
    decreases |c.values|
  {
    if c.values != [] {
      var rest := Conversation(c.values[1..], c.ending);
      match command(c.values[0]) {
        case Emit(x) => CollectedIsNotCancelled(out + [Token(x)], rest, command);
        case Skip => CollectedIsNotCancelled(out, rest, command);
        case _ =>
      }
    }
  }

  // ── A worker's tokens ──────────────────────────────────────────────────────

  function TokenFrame(text: string): Json {
    Obj([Member("type", Str("token")), Member("text", Str(text))])
  }

  const DONE_FRAME := Obj([Member("type", Str("done"))])

  function Tokens(ts: seq<string>): seq<Completion> {
    if ts == [] then [Done] else [Token(ts[0])] + Tokens(ts[1..])
  }

  lemma CommandsOfFrames(text: string)
    ensures CommandOf(TokenFrame(text)) == Emit(text) && CommandOf(DONE_FRAME) == Finish
  {
    var ms := [Member("type", Str("token")), Member("text", Str(text))];
    assert ms[..1] == [Member("type", Str("token"))] && ms[..1][..0] == [];
    assert Get(ms, "text") == Some(Str(text)) && Get(ms, "type") == Some(Str("token"));
    assert "token" != "done";
  }

  lemma {:induction false} CollectTokens(
    out: seq<Completion>, ts: seq<string>, more: seq<Json>, e: Ending, frame: string -> Json, done: Json,
    command: Json -> Command)
    requires command(done) == Finish && forall t :: command(frame(t)) == Emit(t)
    ensures Collect(out, Conversation(Framed(ts, frame) + ([done] + more), e), command) == Completed(out + Tokens(ts))
    decreases |ts|
  {
    var values := Framed(ts, frame) + ([done] + more);
    if ts == [] {
      assert values[0] == done;
    } else {
      assert values[0] == frame(ts[0]) && values[1..] == Framed(ts[1..], frame) + ([done] + more);
      CollectTokens(out + [Token(ts[0])], ts[1..], more, e, frame, done, command);
      assert out + [Token(ts[0])] + Tokens(ts[1..]) == out + ([Token(ts[0])] + Tokens(ts[1..]));
    }
  }

  /** The same when the stream just ends. */
  lemma {:induction false} CollectToTheEnd(out: seq<Completion>, ts: seq<string>, frame: string -> Json,
                                           command: Json -> Command)
    requires forall t :: command(frame(t)) == Emit(t)
    ensures Collect(out, Conversation(Framed(ts, frame), ClosedByPeer), command) == Completed(out + Tokens(ts))
    decreases |ts|
  {
    if ts != [] {
      var values := Framed(ts, frame);
      assert values[0] == frame(ts[0]) && values[1..] == Framed(ts[1..], frame);
      CollectToTheEnd(out + [Token(ts[0])], ts[1..], frame, command);
      Reassociate(out, [Token(ts[0])], Tokens(ts[1..]));
    }
  }

  function Framed(ts: seq<string>, frame: string -> Json): seq<Json> {
    if ts == [] then [] else [frame(ts[0])] + Framed(ts[1..], frame)
  }

  /**
   A worker that frames its tokens and then `done` is understood exactly, however its bytes are cut
   into reads and whatever timeouts lie between them.
   */
  lemma TokensArrive(ts: seq<string>, more: seq<Json>, script: seq<ReadResult>)
    requires var js := Framed(ts, TokenFrame) + ([DONE_FRAME] + more);
             && (forall i :: 0 <= i < |js| ==> Valid(js[i]) && |BodyOf(js[i])| <= MAX_FRAME_LEN)
             && Arriving(script) == Wire(js, FrameOf)
    ensures Collect([], DecodeStream(Arriving(script), EndOf(script), ParseBody), CommandOf) == Completed(Tokens(ts))
  {
    var js := Framed(ts, TokenFrame) + ([DONE_FRAME] + more);
    FramesArrive(js, script);
    ReadAllIsDecode([], script, ParseBody);
    assert [] + Arriving(script) == Arriving(script);
    forall t ensures CommandOf(TokenFrame(t)) == Emit(t) && CommandOf(DONE_FRAME) == Finish {
      CommandsOfFrames(t);
    }
    CollectTokens([], ts, more, EndOf(script), TokenFrame, DONE_FRAME, CommandOf);
    assert [] + Tokens(ts) == Tokens(ts);
  }

  // ── Whatever a worker sends ────────────────────────────────────────────────

  /** The last member under `key` has this value. */
  ghost predicate Holds(v: Json, key: string, j: Json) {
    v.Obj? && Has(v.members, key, j)
  }

  /** There is no string under `key`. */
  predicate NoString(v: Json, key: string) {
    v.Obj? ==> forall i :: 0 <= i < |v.members| && v.members[i].key == key ==> !v.members[i].value.Str?
  }

  /** What a worker says with a frame; an error may come without a string for its message. */
  datatype Word = Says(text: string) | Quits | Fails(message: Option<string>) | Idles

  ghost predicate Means(v: Json, w: Word) {
    match w
    case Says(text) => Holds(v, "type", Str("token")) && Holds(v, "text", Str(text))
    case Quits => Holds(v, "type", Str("done"))
    case Fails(Some(m)) => Holds(v, "type", Str("error")) && Holds(v, "message", Str(m))
    case Fails(None) => Holds(v, "type", Str("error")) && NoString(v, "message")
    case Idles => IdleFrame(v)
  }

  /** A frame without a type, of an unknown type, or for a token without a text. */
  ghost predicate IdleFrame(v: Json) {
    || NoString(v, "type")
    || (Holds(v, "type", Str("token")) && NoString(v, "text"))
    || exists t :: t != "token" && t != "done" && t != "error" && Holds(v, "type", Str(t))
  }

  lemma HeldIsGot(v: Json, key: string, s: string)
    requires Holds(v, key, Str(s))
    ensures StringMember(v, key) == Some(s)
  {
    GetIff(v.members, key, Str(s));
  }

  lemma {:induction false} GetNoString(ms: seq<Member>, key: string)
    requires forall i :: 0 <= i < |ms| && ms[i].key == key ==> !ms[i].value.Str?
    ensures Get(ms, key).Some? ==> !Get(ms, key).value.Str?
  {
    if ms != [] {
      GetNoString(ms[..|ms| - 1], key);
    }
  }

  lemma NoStringIsNotGot(v: Json, key: string)
    requires NoString(v, key)
    ensures StringMember(v, key) == None
  {
    if v.Obj? {
      GetNoString(v.members, key);
    }
  }

  function MessageOr(o: Option<string>): string {
    if o.Some? then o.value else "unknown worker error"
  }

  lemma MeaningOfSays(v: Json, text: string)
    requires Means(v, Says(text))
    ensures CommandOf(v) == Emit(text)
  {
    HeldIsGot(v, "type", "token");
    HeldIsGot(v, "text", text);
  }

  lemma MeaningOfQuits(v: Json)
    requires Means(v, Quits)
    ensures CommandOf(v) == Finish
  {
    HeldIsGot(v, "type", "done");
    assert "done" != "token";
  }

  lemma MeaningOfFails(v: Json, m: Option<string>)
    requires Means(v, Fails(m))
    ensures CommandOf(v) == Abort(MessageOr(m))
  {
    HeldIsGot(v, "type", "error");
    assert "error" != "token" && "error" != "done";
    if m.Some? {
      HeldIsGot(v, "message", m.value);
    } else {
      NoStringIsNotGot(v, "message");
    }
  }

  lemma MeaningOfIdles(v: Json)
    requires Means(v, Idles)
    ensures CommandOf(v) == Skip
  {
    if NoString(v, "type") {
      NoStringIsNotGot(v, "type");
    } else if Holds(v, "type", Str("token")) && NoString(v, "text") {
      HeldIsGot(v, "type", "token");
      NoStringIsNotGot(v, "text");
    } else {
      var t :| t != "token" && t != "done" && t != "error" && Holds(v, "type", Str(t));
      HeldIsGot(v, "type", t);
    }
  }

  /** What was said, in order. */
  function Texts(words: seq<Word>): seq<string> {
    if words == [] then []
    else (if words[0].Says? then [words[0].text] else []) + Texts(words[1..])
  }

  predicate Talk(words: seq<Word>) {
    forall i :: 0 <= i < |words| ==> words[i].Says? || words[i].Idles?
  }

  /** The commands of some talk, and of what ends it. */
  ghost predicate Obeys(command: Json -> Command, v: Json, w: Word) {
    match w
    case Says(text) => command(v) == Emit(text)
    case Quits => command(v) == Finish
    case Fails(m) => command(v) == Abort(MessageOr(m))
    case Idles => command(v) == Skip
  }

  lemma {:induction false} CollectWords(out: seq<Completion>, js: seq<Json>, e: Ending, words: seq<Word>,
                                        end: Word, command: Json -> Command)
    requires |words| < |js| && Talk(words) && (end.Quits? || end.Fails?)
    requires forall i :: 0 <= i < |words| ==> Obeys(command, js[i], words[i])
    requires Obeys(command, js[|words|], end)
    ensures Collect(out, Conversation(js, e), command) ==
            if end.Quits? then Completed(out + Tokens(Texts(words))) else Provider(MessageOr(end.message))
    decreases |words|
  {
    if words != [] {
      var w, rest := words[0], words[1..];
      assert Obeys(command, js[0], w);
      var now := if w.Says? then out + [Token(w.text)] else out;
      CollectWords(now, js[1..], e, rest, end, command);
      if w.Says? {
        assert Texts(words) == [w.text] + Texts(rest);
        assert Tokens(Texts(words)) == [Token(w.text)] + Tokens(Texts(rest));
        Reassociate(out, [Token(w.text)], Tokens(Texts(rest)));
      } else {
        assert Texts(words) == Texts(rest);
      }
    }
  }

  lemma MeaningObeyed(v: Json, w: Word)
    requires Means(v, w)
    ensures Obeys(CommandOf, v, w)
  {
    match w
    case Says(text) => MeaningOfSays(v, text);
    case Quits => MeaningOfQuits(v);
    case Fails(m) => MeaningOfFails(v, m);
    case Idles => MeaningOfIdles(v);
  }

  /**
   Whatever frames a worker sends, with whatever members in whatever order, and however they are cut
   into reads: what it says up to the first `done` is completed, what it says up to the first `error` is
   that error, and frames that say nothing change nothing.
   */
  lemma WorkerIsUnderstood(js: seq<Json>, words: seq<Word>, end: Word, script: seq<ReadResult>)
    requires |words| < |js| && Talk(words) && (end.Quits? || end.Fails?)
    requires forall i :: 0 <= i < |words| ==> Means(js[i], words[i])
    requires Means(js[|words|], end)
    requires forall i :: 0 <= i < |js| ==> Valid(js[i]) && |BodyOf(js[i])| <= MAX_FRAME_LEN
    requires Arriving(script) == Wire(js, FrameOf)
    ensures Collect([], DecodeStream(Arriving(script), EndOf(script), ParseBody), CommandOf) ==
            if end.Quits? then Completed(Tokens(Texts(words))) else Provider(MessageOr(end.message))
  {
    FramesArrive(js, script);
    ReadAllIsDecode([], script, ParseBody);
    assert [] + Arriving(script) == Arriving(script);
    forall i | 0 <= i < |words| ensures Obeys(CommandOf, js[i], words[i]) {
      MeaningObeyed(js[i], words[i]);
    }
    MeaningObeyed(js[|words|], end);
    CollectWords([], js, EndOf(script), words, end, CommandOf);
    assert [] + Tokens(Texts(words)) == Tokens(Texts(words));
  }

  /**
   A worker whose output is cut off inside a frame is reported as having completed, with the same result
   as if it had said `done` there; the blocking reader would raise on that stream.
   */
  lemma CutOutputCompletes(ts: seq<string>, body: seq<byte>, k: nat)
    requires Sendable(Framed(ts, TokenFrame), ParseBody) && |body| <= MAX_FRAME_LEN && 0 < k < 4 + |body|
    ensures var stream := Wire(Framed(ts, TokenFrame), FrameOf) + Frame(body)[..k];
            && Collect([], DecodeStream(stream, ClosedByPeer, ParseBody), CommandOf) == Completed(Tokens(ts))
            && Messages(stream, ParseBody) == (Framed(ts, TokenFrame), ShortFrame)
  {
    var js, cut := Framed(ts, TokenFrame), Frame(body)[..k];
    CutFrameLooksClosed(body, k, ParseBody);
    DecodeThen(js, cut, ClosedByPeer, ParseBody);
    MessagesThen(js, cut, ParseBody);
    assert js + [] == js;
    forall t ensures CommandOf(TokenFrame(t)) == Emit(t) {
      CommandsOfFrames(t);
    }
    CollectToTheEnd([], ts, TokenFrame, CommandOf);
    assert [] + Tokens(ts) == Tokens(ts);
  }

  /** `write_frame`, and `send_message` alike: the length, then the body. */
  method WriteFrame(out: seq<byte>, j: Json) returns (r: seq<byte>)
    ensures r == out + Frame(BodyOf(j))
  {
    var body := Encode(Print(j));
    r := out + Be32(|body|);
    r := r + body;
  }
}
