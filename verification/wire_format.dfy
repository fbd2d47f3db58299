/** What stands on the wire, byte by byte: the frames of an exchange, and the reply to a
    polled request. */
module WireFormat {
  import opened DiagTypes
  import opened Codec
  import opened Doip
  import opened DiagServer
  import opened Conversation
  import ServiceTheorems

  /** An address, most significant byte first. */
  function Address(x: u16): bytes { [x / 256, x % 256] }

  /** A diagnostic message: version 2, its complement, type 0x8001, the length modulo 2^32,
      sender, receiver and data. It parses to that type and payload. */
  ghost predicate DiagnosticBytes(frame: bytes, sender: bytes, receiver: bytes, data: bytes) {
    && |frame| == 12 + |data| && frame[..4] == [0x02, 0xFD, 0x80, 0x01]
    && frame[8..] == sender + receiver + data
    && DeclaredLength(frame) == (4 + |data|) % U32_SIZE
    && (4 + |data| < U32_SIZE ==> ParseSpec(frame) == Parsed(0x8001, sender + receiver + data))
  }

  function AckBytes(sender: bytes, receiver: bytes): bytes {
    [0x02, 0xFD, 0x80, 0x02, 0, 0, 0, 5] + sender + receiver + [0x00]
  }

  /** The activation response: 13 bytes, of which the last 8 are reserved. */
  function ActivationBytes(tester: bytes, entity: bytes): bytes {
    [0x02, 0xFD, 0x00, 0x06, 0, 0, 0, 13] + tester + entity + [0x10, 0, 0, 0, 0, 0, 0, 0, 0]
  }

  lemma DiagnosticOnWire(local: u16, remote: u16, data: bytes)
    ensures DiagnosticBytes(DiagnosticFrame(local, remote, data), Address(local), Address(remote), data)
  {
    var payload := Big16(local) + Big16(remote) + data;
    var frame := FrameSpec(DIAGNOSTIC, payload);
    FrameRoundTrip(DIAGNOSTIC, payload, []);
    FrameHeader(DIAGNOSTIC, payload, []);
    assert frame + [] == frame && payload + [] == payload;
    assert frame[..4] == HeaderSpec(DIAGNOSTIC, |payload| % U32_SIZE)[..4];
  }

  /** A reply is written exactly on a link that is up: one diagnostic message from this server
      to the tester the link remembers. */
  lemma SendOnWire(l: Link, data: bytes) returns (frame: bytes)
    ensures SendSpec(l, data) == if l.connected && l.open then l.(output := l.output + [frame]) else l
    ensures DiagnosticBytes(frame, Address(l.local), Address(l.remote), data)
  {
    hide DiagnosticFrame, DiagnosticBytes, Address;
    frame := DiagnosticFrame(l.local, l.remote, data);
    DiagnosticOnWire(l.local, l.remote, data);
  }

  lemma AckOnWire(local: u16, tester: u16)
    ensures Ack(local, tester) == AckBytes(Address(local), Address(tester))
  {
  }

  lemma ActivationOnWire(local: u16, request: bytes)
    ensures Activation(local, request)
            == ActivationBytes(if |request| >= 2 then request[..2] else [0, 0], Address(local))
  {
    if |request| >= 2 {
      Join16RoundTrip(request[0], request[1]);
    }
  }

  lemma SenderBytes(m: Message)
    requires |m.payload| >= 2
    ensures Address(Join16(m.payload[0], m.payload[1])) == m.payload[..2]
  {
  }

  /** What is written before the request is looked at. */
  lemma PromptOnWire(m: Message, local: u16)
    requires Receivable(m)
    ensures Prompt(m, local)
            == if m.payloadType == 0x0005 then
                 [ActivationBytes(if |m.payload| >= 2 then m.payload[..2] else [0, 0], Address(local))]
               else if |m.payload| > 4 then [AckBytes(Address(local), m.payload[..2])]
               else []
  {
    hide Ack, Activation, ActivationBytes, AckBytes, Address;
    if m.payloadType == ROUTING_REQUEST {
      ActivationOnWire(local, m.payload);
    } else if |m.payload| > 4 {
      SenderBytes(m);
      AckOnWire(local, Join16(m.payload[0], m.payload[1]));
    }
  }

  /** Every exchange: a routing request is answered by the activation response alone. A
      diagnostic message with more than its addresses is acknowledged to its sender first.
      If the data decodes, one diagnostic message with a reply to that data goes from this
      server to the sender, or to the previous one if the message is too short to name one. */
  lemma ExchangeOnWire(m: Message, local: u16, remote: u16, frames: seq<bytes>) returns (reply: bytes)
    requires Receivable(m) && Exchange(m, local, remote, frames)
    ensures m.payloadType == 0x0005 ==>
              frames == [ActivationBytes(if |m.payload| >= 2 then m.payload[..2] else [0, 0], Address(local))]
    ensures m.payloadType == 0x8001 ==>
              var named := |m.payload| > 4;
              var data := if named then m.payload[4..] else m.payload;
              var acks := if named then [AckBytes(Address(local), m.payload[..2])] else [];
              if Decodable(data) then
                && |frames| == |acks| + 1 && frames[..|acks|] == acks
                && DiagnosticBytes(frames[|acks|], Address(local),
                                   if named then m.payload[..2] else Address(remote), reply)
                && (ServiceTheorems.PositiveTo(data, reply) || ServiceTheorems.NegativeTo(data, reply))
              else frames == acks
  {
    hide Ack, Activation, ActivationBytes, AckBytes, DiagnosticFrame, DiagnosticBytes, Address, Prompt;
    hide ServiceTheorems.PositiveTo, ServiceTheorems.NegativeTo;
    PromptOnWire(m, local);
    reply := [];
    if Decodable(UdsData(m)) {
      reply :| && frames == Prompt(m, local) + [DiagnosticFrame(local, TesterAfter(m, remote), reply)]
               && (ServiceTheorems.PositiveTo(UdsData(m), reply) || ServiceTheorems.NegativeTo(UdsData(m), reply));
      DiagnosticOnWire(local, TesterAfter(m, remote), reply);
      if m.payloadType == DIAGNOSTIC && |m.payload| > 4 {
        SenderBytes(m);
      }
    }
  }

  /** From the wire to the wire: a polled diagnostic message with a request is acknowledged to
      its sender, and its sender gets exactly the encoded answer of `process_request` to the
      decoded request of tester 0. */
  lemma AnswerOnWire(s: Service, m: Message, tail: bytes, accepted: Option<bytes>, env: Env) returns (frame: bytes)
    requires Listening(s) && Receivable(m) && Carries(s.transport.value.input, m, tail)
    requires m.payloadType == 0x8001 && |m.payload| > 4 && Decodable(m.payload[4..])
    ensures var l, l' := s.transport.value, PollSpec(s, true, accepted, env).service.transport;
            var direct := ProcessSpec(s, DecodeSpec(m.payload[4..], FRESH_REQUEST), env);
            && PollSpec(s, true, accepted, env).service.core == direct.service.core
            && l'.Some?
            && l'.value.output == l.output + [AckBytes(Address(l.local), m.payload[..2]), frame]
            && DiagnosticBytes(frame, Address(l.local), m.payload[..2], EncodeSpec(direct.response))
  {
    hide PollSpec, ProcessSpec, DecodeSpec, EncodeSpec, Carries;
    hide DiagnosticFrame, DiagnosticBytes, AckBytes, Address, Prompt;
    var l := s.transport.value;
    var reply := EncodeSpec(ProcessSpec(s, DecodeSpec(m.payload[4..], FRESH_REQUEST), env).response);
    PollIsRequest(s, m, tail, accepted, env);
    PromptOnWire(m, l.local);
    SenderBytes(m);
    DiagnosticOnWire(l.local, TesterAfter(m, l.remote), reply);
    frame := DiagnosticFrame(l.local, TesterAfter(m, l.remote), reply);
  }
}
