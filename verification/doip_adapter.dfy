/** DoIP framing (generic header of ISO 13400-2) and the adapter that receives frames
    from a byte stream, acknowledges them and sends replies.

    The socket is a sequence of bytes still to come and a sequence of frames written.
    A blocking read that meets the end of the stream returns what is left. */
module Doip {
  import opened DiagTypes

  const MAX_PAYLOAD: nat := 4096
  const HEADER: nat := 8

  const ROUTING_REQUEST: u16 := 0x0005
  const ROUTING_RESPONSE: u16 := 0x0006
  const DIAGNOSTIC: u16 := 0x8001
  const DIAGNOSTIC_ACK: u16 := 0x8002

  // ---- 32-bit lengths ---------------------------------------------------

  function Big32(x: u32): bytes {
    [x / 0x100_0000, x / 0x1_0000 % 0x100, x / 0x100 % 0x100, x % 0x100]
  }

  function Join32(a: byte, b: byte, c: byte, d: byte): u32 {
    ((a * 0x100 + b) * 0x100 + c) * 0x100 + d
  }

  lemma ByteSplit(x: nat)
    ensures x == x / 0x100 * 0x100 + x % 0x100
    ensures x / 0x100 / 0x100 == x / 0x1_0000
  {
  }

  lemma Big32RoundTrip(x: u32)
    ensures var w := Big32(x); Join32(w[0], w[1], w[2], w[3]) == x
  {
    var x8, x16 := x / 0x100, x / 0x1_0000;
    ByteSplit(x);
    ByteSplit(x8);
    ByteSplit(x16);
    assert x / 0x100_0000 == x16 / 0x100;
  }

  // ---- Frames -----------------------------------------------------------

  /** Version, inverse version, type and length. */
  function HeaderSpec(payloadType: u16, length: u32): (header: bytes)
    ensures |header| == HEADER
  {
    [0x02, 0xFD] + Big16(payloadType) + Big32(length)
  }

  function FrameSpec(payloadType: u16, payload: bytes): (frame: bytes)
    ensures |frame| == HEADER + |payload|
  {
    HeaderSpec(payloadType, |payload| % U32_SIZE) + payload
  }

  /** `Overrun` is the case in which the source would read past the end of its buffer. */
  datatype ParseResult = Rejected | Parsed(payloadType: u16, payload: bytes) | Overrun

  function TypeOf(raw: bytes): u16
    requires |raw| >= HEADER
  {
    Join16(raw[2], raw[3])
  }

  function DeclaredLength(raw: bytes): u32
    requires |raw| >= HEADER
  {
    Join32(raw[4], raw[5], raw[6], raw[7])
  }

  function ParseSpec(raw: bytes): ParseResult {
    if |raw| < HEADER then Rejected
    else if |raw| < (HEADER + DeclaredLength(raw)) % U32_SIZE then Rejected
    else if |raw| < HEADER + DeclaredLength(raw) then Overrun
    else Parsed(TypeOf(raw), raw[HEADER..HEADER + DeclaredLength(raw)])
  }

  lemma HeaderFields(payloadType: u16, length: u32)
    ensures TypeOf(HeaderSpec(payloadType, length)) == payloadType
    ensures DeclaredLength(HeaderSpec(payloadType, length)) == length
  {
    Big32RoundTrip(length);
  }

  /** Only the first eight bytes matter to the header fields. */
  lemma HeaderInFront(header: bytes, rest: bytes)
    requires |header| == HEADER
    ensures TypeOf(header + rest) == TypeOf(header)
    ensures DeclaredLength(header + rest) == DeclaredLength(header)
    ensures (header + rest)[HEADER..] == rest
  {
  }

  lemma FrameHeader(payloadType: u16, payload: bytes, tail: bytes)
    ensures var raw := FrameSpec(payloadType, payload) + tail;
            && |raw| == HEADER + |payload| + |tail|
            && TypeOf(raw) == payloadType
            && DeclaredLength(raw) == |payload| % U32_SIZE
            && raw[HEADER..] == payload + tail
  {
    var header := HeaderSpec(payloadType, |payload| % U32_SIZE);
    HeaderFields(payloadType, |payload| % U32_SIZE);
    HeaderInFront(header, payload + tail);
    assert FrameSpec(payloadType, payload) + tail == header + (payload + tail);
  }

  /** Parsing gives back exactly what was framed, whatever follows the frame, if and
      only if the payload length fits the 32-bit length field. */
  lemma FrameRoundTrip(payloadType: u16, payload: bytes, tail: bytes)
    ensures ParseSpec(FrameSpec(payloadType, payload) + tail) == Parsed(payloadType, payload) <==> |payload| < U32_SIZE
  {
    FrameHeader(payloadType, payload, tail);
    ParseFramed(FrameSpec(payloadType, payload) + tail, payload, tail);
  }

  lemma ParseFramed(raw: bytes, payload: bytes, tail: bytes)
    requires |raw| == HEADER + |payload| + |tail| && raw[HEADER..] == payload + tail
    requires DeclaredLength(raw) == |payload| % U32_SIZE
    ensures ParseSpec(raw) == Parsed(TypeOf(raw), payload) <==> |payload| < U32_SIZE
  {
  }

  /** As long as 8 + length does not wrap, parsing succeeds exactly on complete frames;
      the buffer is overrun exactly by an incomplete frame whose 8 + length wraps. */
  lemma ParseComplete(raw: bytes)
    requires |raw| >= HEADER
    ensures DeclaredLength(raw) < U32_SIZE - HEADER ==>
              (ParseSpec(raw).Parsed? <==> |raw| >= HEADER + DeclaredLength(raw)) && !ParseSpec(raw).Overrun?
    ensures ParseSpec(raw).Overrun? <==>
              |raw| < HEADER + DeclaredLength(raw) && DeclaredLength(raw) >= U32_SIZE - HEADER
  {
  }

  // ---- The link ---------------------------------------------------------

  datatype Link = Link(connected: bool, open: bool, local: u16, remote: u16, input: bytes, output: seq<bytes>)

  datatype Received = Received(link: Link, data: bytes)

  function Ack(local: u16, tester: u16): bytes {
    FrameSpec(DIAGNOSTIC_ACK, Big16(local) + Big16(tester) + [0x00])
  }

  function Activation(local: u16, payload: bytes): bytes {
    var tester: u16 := if |payload| >= 2 then Join16(payload[0], payload[1]) else 0;
    FrameSpec(ROUTING_RESPONSE, Big16(tester) + Big16(local) + [0x10] + [0, 0, 0, 0, 0, 0, 0, 0])
  }

  function DiagnosticFrame(local: u16, remote: u16, data: bytes): bytes {
    FrameSpec(DIAGNOSTIC, Big16(local) + Big16(remote) + data)
  }

  /** What a completely read payload leads to. */
  function Handle(l: Link, payloadType: u16, payload: bytes): Received {
    if payloadType == ROUTING_REQUEST then
      Received(l.(output := l.output + [Activation(l.local, payload)]), [])
    else if |payload| > 4 then
      var tester := Join16(payload[0], payload[1]);
      Received(l.(remote := tester, output := l.output + [Ack(l.local, tester)]), payload[4..])
    else Received(l, payload)
  }

  function ReceiveSpec(l: Link, ready: bool): Received {
    if !l.connected || !l.open || !ready then Received(l, [])
    else if |l.input| < HEADER then Received(l.(connected := false, input := []), [])
    else
      var payloadType, length, rest := TypeOf(l.input), DeclaredLength(l.input), l.input[HEADER..];
      if length > MAX_PAYLOAD || (payloadType != ROUTING_REQUEST && payloadType != DIAGNOSTIC) then
        Received(l.(input := rest), [])
      else if |rest| < length then Received(l.(input := []), [])
      else Handle(l.(input := rest[length..]), payloadType, rest[..length])
  }

  function SendSpec(l: Link, data: bytes): Link {
    if !l.connected || !l.open then l
    else l.(output := l.output + [DiagnosticFrame(l.local, l.remote, data)])
  }

  class DoIpAdapter {
    const localAddress: u16
    var connected: bool
    var open: bool
    var remoteAddress: u16
    var input: bytes
    var output: seq<bytes>

    constructor (localAddress: u16)
      ensures Value() == Link(false, false, localAddress, 0, [], [])
    {
      this.localAddress := localAddress;
      connected, open, remoteAddress, input, output := false, false, 0, [], [];
    }

    ghost function Value(): Link
      reads this
    {
      Link(connected, open, localAddress, remoteAddress, input, output)
    }

    /** A tester connects and its byte stream becomes readable, or nobody does. */
    method Connect(accepted: Option<bytes>) returns (ok: bool)
      modifies this
      ensures Value() == if old(connected) || accepted.None? then old(Value())
                         else old(Value()).(connected := true, open := true, input := accepted.value)
      ensures ok <==> connected
    {
      if connected {
        return true;
      }
      match accepted
      case None => ok := false;
      case Some(stream) =>
        connected, open, input := true, true, stream;
        ok := true;
    }

    method Disconnect()
      modifies this
      ensures Value() == old(Value()).(connected := false, open := false)
    {
      open := false;
      connected := false;
    }

    /** Reads up to `n` bytes, fewer only at the end of the stream. */
    method Read(n: nat) returns (chunk: bytes)
      modifies this
      ensures |old(input)| >= n ==> chunk == old(input)[..n] && Value() == old(Value()).(input := old(input)[n..])
      ensures |old(input)| < n ==> chunk == old(input) && Value() == old(Value()).(input := [])
    {
      var taken := if |input| < n then |input| else n;
      chunk := input[..taken];
      input := input[taken..];
    }

    method WriteFrame(payloadType: u16, payload: bytes)
      modifies this
      ensures Value() == old(Value()).(output := old(output) + [FrameSpec(payloadType, payload)])
    {
      var frame := BuildFrame(payloadType, payload);
      output := output + [frame[..]];
    }

    method Activate(request: bytes)
      modifies this
      ensures Value() == old(Value()).(output := old(output) + [Activation(localAddress, request)])
    {
      var tester: u16 := 0x0000;
      if |request| >= 2 {
        tester := Join16(request[0], request[1]);
      }
      WriteFrame(ROUTING_RESPONSE, Big16(tester) + Big16(localAddress) + [0x10] + [0, 0, 0, 0, 0, 0, 0, 0]);
    }

    method Acknowledge(tester: u16)
      modifies this
      ensures Value() == old(Value()).(output := old(output) + [Ack(localAddress, tester)])
    {
      WriteFrame(DIAGNOSTIC_ACK, Big16(localAddress) + Big16(tester) + [0x00]);
    }

    method Send(data: bytes, delivered: bool) returns (ok: bool)
      modifies this
      ensures Value() == SendSpec(old(Value()), data)
      ensures ok <==> old(connected) && old(open) && delivered
    {
      if !connected || !open {
        return false;
      }
      WriteFrame(DIAGNOSTIC, Big16(localAddress) + Big16(remoteAddress) + data);
      ok := delivered;
    }

    method Receive(ready: bool) returns (data: bytes)
      modifies this
      ensures var r := ReceiveSpec(old(Value()), ready); Value() == r.link && data == r.data
    {
      if !connected || !open {
        return [];
      }
      if !ready {
        return [];
      }
      var header := Read(HEADER);
      if |header| != HEADER {
        connected := false;
        return [];
      }
      var length := Join32(header[4], header[5], header[6], header[7]);
      if length > MAX_PAYLOAD {
        return [];
      }
      var payloadType := Join16(header[2], header[3]);
      if payloadType == ROUTING_REQUEST {
        var request := Read(length);
        if |request| != length {
          return [];
        }
        Activate(request);
        return [];
      }
      if payloadType != DIAGNOSTIC {
        return [];
      }
      var payload := Read(length);
      if |payload| != length {
        return [];
      }
      if |payload| > 4 {
        var tester := Join16(payload[0], payload[1]);
        remoteAddress := tester;
        Acknowledge(tester);
        return payload[4..];
      }
      data := payload;
    }

    method BuildFrame(payloadType: u16, payload: bytes) returns (frame: array<byte>)
      ensures fresh(frame) && frame[..] == FrameSpec(payloadType, payload)
    {
      frame := new byte[HEADER + |payload|](_ => 0);
      FillHeader(frame, payloadType, |payload| % U32_SIZE);
      ghost var header := frame[..HEADER];
      for i := 0 to |payload|
        invariant frame[..HEADER] == header
        invariant frame[HEADER..HEADER + i] == payload[..i]
      {
        frame[HEADER + i] := payload[i];
      }
      assert frame[..] == frame[..HEADER] + frame[HEADER..HEADER + |payload|];
    }

    method FillHeader(frame: array<byte>, payloadType: u16, length: u32)
      requires frame.Length >= HEADER
      modifies frame
      ensures frame[..HEADER] == HeaderSpec(payloadType, length)
    {
      frame[0] := 0x02;
      frame[1] := 0xFD;
      frame[2] := payloadType / 0x100;
      frame[3] := payloadType % 0x100;
      frame[4] := length / 0x100_0000;
      frame[5] := length / 0x1_0000 % 0x100;
      frame[6] := length / 0x100 % 0x100;
      frame[7] := length % 0x100;
    }

    method ParseFrame(raw: bytes) returns (result: ParseResult)
      ensures result == ParseSpec(raw)
    {
      if |raw| < HEADER {
        return Rejected;
      }
      var payloadType := Join16(raw[2], raw[3]);
      var length := Join32(raw[4], raw[5], raw[6], raw[7]);
      if |raw| < (HEADER + length) % U32_SIZE {
        return Rejected;
      }
      if |raw| < HEADER + length {
        return Overrun;
      }
      result := Parsed(payloadType, raw[HEADER..HEADER + length]);
    }
  }

  // ---- Streams of frames ------------------------------------------------

  datatype Message = Message(payloadType: u16, payload: bytes)

  /** The messages the receive loop understands. */
  predicate Receivable(m: Message) {
    (m.payloadType == ROUTING_REQUEST || m.payloadType == DIAGNOSTIC) && |m.payload| <= MAX_PAYLOAD
  }

  function Wire(ms: seq<Message>): bytes {
    if ms == [] then [] else FrameSpec(ms[0].payloadType, ms[0].payload) + Wire(ms[1..])
  }

  /** The UDS data of a message: nothing for a routing request, the payload without its
      two addresses for a diagnostic message longer than these, else the payload. */
  function UdsData(m: Message): bytes {
    if m.payloadType == ROUTING_REQUEST then []
    else if |m.payload| > 4 then m.payload[4..]
    else m.payload
  }

  /** The stream starts with the whole of a message. */
  ghost predicate Carries(raw: bytes, m: Message, tail: bytes) {
    && |raw| >= HEADER && TypeOf(raw) == m.payloadType && DeclaredLength(raw) == |m.payload|
    && raw[HEADER..] == m.payload + tail
  }

  lemma FrameCarries(m: Message, tail: bytes)
    requires |m.payload| < U32_SIZE
    ensures Carries(FrameSpec(m.payloadType, m.payload) + tail, m, tail)
  {
    SmallLength(|m.payload|);
    FrameHeader(m.payloadType, m.payload, tail);
  }

  lemma SmallLength(n: nat)
    requires n < U32_SIZE
    ensures n % U32_SIZE == n
  {
  }

  lemma HandledData(l: Link, m: Message)
    requires Receivable(m)
    ensures var r := Handle(l, m.payloadType, m.payload);
            && r.data == UdsData(m)
            && r.link.input == l.input && r.link.connected == l.connected && r.link.open == l.open
            && r.link.local == l.local
  {
  }

  /** One whole message off the front of the stream. */
  lemma ReceiveOne(l: Link, m: Message, tail: bytes)
    requires l.connected && l.open && Receivable(m) && Carries(l.input, m, tail)
    ensures ReceiveSpec(l, true) == Handle(l.(input := tail), m.payloadType, m.payload)
    ensures ReceiveSpec(l, true).data == UdsData(m)
  {
  }

  datatype Batch = Batch(link: Link, data: seq<bytes>)

  function ReceiveMany(l: Link, n: nat): Batch
    decreases n
  {
    if n == 0 then Batch(l, [])
    else
      var first := ReceiveSpec(l, true);
      var rest := ReceiveMany(first.link, n - 1);
      Batch(rest.link, [first.data] + rest.data)
  }

  function DataOf(ms: seq<Message>): seq<bytes> {
    if ms == [] then [] else [UdsData(ms[0])] + DataOf(ms[1..])
  }

  /** On any stream of receivable frames the k-th receive consumes exactly the k-th frame
      and returns its UDS data, for every k. */
  lemma {:induction false} StreamFraming(l: Link, ms: seq<Message>, tail: bytes, k: nat)
    requires l.connected && l.open && l.input == Wire(ms) + tail
    requires forall m | m in ms :: Receivable(m)
    requires k <= |ms|
    ensures ReceiveMany(l, k).link.input == Wire(ms[k..]) + tail
    ensures ReceiveMany(l, k).data == DataOf(ms[..k])
    decreases k
  {
    if k == 0 {
      assert ms[0..] == ms;
    } else {
      assert l.input == FrameSpec(ms[0].payloadType, ms[0].payload) + (Wire(ms[1..]) + tail);
      assert Receivable(ms[0]);
      FrameCarries(ms[0], Wire(ms[1..]) + tail);
      ReceiveOne(l, ms[0], Wire(ms[1..]) + tail);
      HandledData(l.(input := Wire(ms[1..]) + tail), ms[0]);
      StreamFraming(ReceiveSpec(l, true).link, ms[1..], tail, k - 1);
      assert ms[1..][k - 1..] == ms[k..];
      assert ms[..k][1..] == ms[1..][..k - 1];
    }
  }

  /** Exactly which frames are consumed as a whole: the receivable ones and those without
      a payload. Any other frame leaves its payload in the stream, to be read as a header. */
  lemma ConsumedWhole(l: Link, m: Message, tail: bytes)
    requires l.connected && l.open && |m.payload| < U32_SIZE
    requires l.input == FrameSpec(m.payloadType, m.payload) + tail
    ensures var whole := (m.payloadType == 0x0005 || m.payloadType == 0x8001) && |m.payload| <= 4096;
            && (ReceiveSpec(l, true).link.input == tail <==> whole || m.payload == [])
            && (!whole ==> ReceiveSpec(l, true) == Received(l.(input := m.payload + tail), []))
  {
    FrameCarries(m, tail);
    ConsumedFromCarried(l, m, tail);
  }

  lemma ConsumedFromCarried(l: Link, m: Message, tail: bytes)
    requires l.connected && l.open && Carries(l.input, m, tail)
    ensures ReceiveSpec(l, true).link.input == tail <==> Receivable(m) || m.payload == []
    ensures !Receivable(m) ==> ReceiveSpec(l, true) == Received(l.(input := m.payload + tail), [])
  {
  }
}
