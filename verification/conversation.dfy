/** A conversation over DoIP: which frames the service writes, in which order and to
    whom, for every list of received messages; and the way of a VIN from the wire to
    the PROV service. */
module Conversation {
  import opened DiagTypes
  import opened EventTrace
  import Security
  import Dispatch
  import opened Codec
  import opened Doip
  import opened DiagServer
  import ServiceTheorems
  import Reconnect
  import Prov

  predicate Listening(s: Service) {
    s.initialized && s.transport.Some? && s.transport.value.connected && s.transport.value.open
  }

  /** The tester that replies go to after a message. */
  function TesterAfter(m: Message, remote: u16): u16 {
    if m.payloadType == DIAGNOSTIC && |m.payload| > 4 then Join16(m.payload[0], m.payload[1]) else remote
  }

  /** What is written before the request is looked at: the activation response, or the
      acknowledgement of a message that carries more than its addresses. */
  function Prompt(m: Message, local: u16): seq<bytes> {
    if m.payloadType == ROUTING_REQUEST then [Activation(local, m.payload)]
    else if |m.payload| > 4 then [Ack(local, Join16(m.payload[0], m.payload[1]))]
    else []
  }

  /** The frames written for one message: the prompt, then one diagnostic frame exactly
      when the UDS data decodes. That frame comes from the local address, goes to the
      message's sender (the previous sender if the message is too short to name one),
      and holds the reply to its data. */
  ghost predicate Exchange(m: Message, local: u16, remote: u16, frames: seq<bytes>) {
    if Decodable(UdsData(m)) then
      exists reply ::
        && frames == Prompt(m, local) + [DiagnosticFrame(local, TesterAfter(m, remote), reply)]
        && (ServiceTheorems.PositiveTo(UdsData(m), reply) || ServiceTheorems.NegativeTo(UdsData(m), reply))
    else frames == Prompt(m, local)
  }

  lemma HandlePrompts(l: Link, m: Message)
    requires Receivable(m)
    ensures Handle(l, m.payloadType, m.payload)
            == Received(l.(remote := TesterAfter(m, l.remote), output := l.output + Prompt(m, l.local)), UdsData(m))
  {
  }

  /** The state of the link after one message has been served. */
  ghost predicate Served(l: Link, m: Message, tail: bytes, l': Link, frames: seq<bytes>) {
    && l' == l.(input := tail, remote := TesterAfter(m, l.remote), output := l.output + frames)
    && Exchange(m, l.local, l.remote, frames)
  }

  lemma ServeMessage(core: Dispatch.Core, l: Link, m: Message, tail: bytes, env: Env) returns (frames: seq<bytes>)
    requires l.connected && l.open && Receivable(m) && Carries(l.input, m, tail)
    ensures Served(l, m, tail, ServeReceived(core, ReceiveSpec(l, true), env).1, frames)
  {
    hide ReceiveSpec, Carries, Handle, Dispatch.DispatchSpec, EncodeSpec, DecodeSpec, DiagnosticFrame, Ack, Activation;
    hide ServiceTheorems.PositiveTo, ServiceTheorems.NegativeTo;
    ReceiveOne(l, m, tail);
    HandlePrompts(l.(input := tail), m);
    var data := UdsData(m);
    if Decodable(data) {
      ServiceTheorems.DispatchEcho(core, data, 0, env);
      var reply := EncodeSpec(Dispatch.DispatchSpec(core, DecodeSpec(data, FRESH_REQUEST), env).response);
      assert FRESH_REQUEST.(source := 0) == FRESH_REQUEST;
      frames := Prompt(m, l.local) + [DiagnosticFrame(l.local, TesterAfter(m, l.remote), reply)];
      assert l.output + frames
             == l.output + Prompt(m, l.local) + [DiagnosticFrame(l.local, TesterAfter(m, l.remote), reply)];
    } else {
      frames := Prompt(m, l.local);
    }
  }

  lemma PollMessage(s: Service, m: Message, tail: bytes, accepted: Option<bytes>, env: Env) returns (frames: seq<bytes>)
    requires Listening(s) && Receivable(m) && Carries(s.transport.value.input, m, tail)
    ensures var s' := PollSpec(s, true, accepted, env).service;
            Listening(s') && Served(s.transport.value, m, tail, s'.transport.value, frames)
  {
    hide ReceiveSpec, Carries, Exchange, ServeReceived;
    frames := ServeMessage(AfterS3(s.core, env.s3At), s.transport.value, m, tail, env);
  }

  /** A polled message does exactly what `process_request` does with its decoded request as
      tester 0, and the reply on the wire is the encoded response of that. */
  lemma PollIsRequest(s: Service, m: Message, tail: bytes, accepted: Option<bytes>, env: Env)
    requires Listening(s) && Receivable(m) && Carries(s.transport.value.input, m, tail) && Decodable(UdsData(m))
    ensures var polled := PollSpec(s, true, accepted, env);
            var direct := ProcessSpec(s, DecodeSpec(UdsData(m), FRESH_REQUEST), env);
            var l := s.transport.value;
            && polled.service.core == direct.service.core && polled.events == direct.events
            && Listening(polled.service)
            && polled.service.transport.value.output
               == l.output + Prompt(m, l.local)
                  + [DiagnosticFrame(l.local, TesterAfter(m, l.remote), EncodeSpec(direct.response))]
  {
    hide ReceiveSpec, Carries, Handle, Dispatch.DispatchSpec, EncodeSpec, DecodeSpec, DiagnosticFrame, Ack, Activation;
    ReceiveOne(s.transport.value, m, tail);
    HandlePrompts(s.transport.value.(input := tail), m);
  }

  // ---- Any polls of any stream ------------------------------------------

  /** One poll of the service: whether the tester's data lies ready, the stream of a tester
      that connects if nobody is connected, and what the poll observes. */
  datatype Turn = Turn(ready: bool, accepted: Option<bytes>, env: Env)

  function PollTurn(s: Service, turn: Turn): Service { PollSpec(s, turn.ready, turn.accepted, turn.env).service }

  function PollAll(s: Service, turns: seq<Turn>): Service
    decreases |turns|
  {
    if turns == [] then s else PollAll(PollTurn(s, turns[0]), turns[1..])
  }

  /** The whole receivable message a stream starts with, if it starts with one. */
  function FirstMessage(raw: bytes): Option<Message> {
    if |raw| < HEADER || |raw| < HEADER + DeclaredLength(raw) then None
    else
      var m := Message(TypeOf(raw), raw[HEADER..HEADER + DeclaredLength(raw)]);
      if Receivable(m) then Some(m) else None
  }

  lemma FirstMessageExactly(raw: bytes, m: Message)
    ensures FirstMessage(raw) == Some(m) <==> Receivable(m) && exists tail :: Carries(raw, m, tail)
  {
    if FirstMessage(raw) == Some(m) {
      FirstMessageCarried(raw, m);
    }
    forall tail | Receivable(m) && Carries(raw, m, tail)
      ensures FirstMessage(raw) == Some(m)
    {
      assert raw[HEADER..HEADER + |m.payload|] == raw[HEADER..][..|m.payload|] == m.payload;
    }
  }

  lemma FirstMessageCarried(raw: bytes, m: Message)
    requires FirstMessage(raw) == Some(m)
    ensures Receivable(m) && |raw| >= HEADER + |m.payload| && Carries(raw, m, raw[HEADER + |m.payload|..])
  {
    assert raw[HEADER..] == m.payload + raw[HEADER + |m.payload|..];
  }

  /** A link after a receive that finds no whole receivable message: a broken header ends
      the connection, a payload cut off is swallowed, and of any other frame only the
      header is. */
  function Skipped(l: Link): Link {
    if |l.input| < HEADER then l.(connected := false, input := [])
    else if Receivable(Message(TypeOf(l.input), [])) && DeclaredLength(l.input) <= MAX_PAYLOAD then l.(input := [])
    else l.(input := l.input[HEADER..])
  }

  lemma NothingReceived(l: Link)
    requires l.connected && l.open && FirstMessage(l.input).None?
    ensures ReceiveSpec(l, true) == Received(Skipped(l), [])
  {
    if |l.input| >= HEADER && DeclaredLength(l.input) <= |l.input| - HEADER {
      assert |l.input[HEADER..HEADER + DeclaredLength(l.input)]| == DeclaredLength(l.input);
    }
  }

  /** What one poll of an initialized service does to its link, and the frames it writes:
      those of the exchange if it consumes a whole receivable message, else none. */
  ghost predicate TurnDone(l: Link, turn: Turn, l': Link, frames: seq<bytes>) {
    if !l.connected then
      && l' == (if turn.accepted.None? then l else l.(connected := true, open := true, input := turn.accepted.value))
      && frames == []
    else if !l.open || !turn.ready then l' == l && frames == []
    else
      match FirstMessage(l.input)
      case Some(m) => |l.input| >= HEADER + |m.payload| && Served(l, m, l.input[HEADER + |m.payload|..], l', frames)
      case None => l' == Skipped(l) && frames == []
  }

  /** A poll of an initialized service finds no request: nobody is connected, nothing lies
      ready, or there is no whole message or none that decodes. */
  predicate Quiet(s: Service, ready: bool) {
    s.initialized && (s.transport.Some? ==> !HasRequest(s.transport.value, ready))
  }

  predicate HasRequest(l: Link, ready: bool) {
    && l.connected && l.open && ready
    && FirstMessage(l.input).Some? && Decodable(UdsData(FirstMessage(l.input).value))
  }

  /** Even such a poll ends a session that has been idle for 5001 ms, and it changes nothing
      else about session and security. */
  lemma QuietPollChecks(s: Service, ready: bool, accepted: Option<bytes>, env: Env)
    requires Quiet(s, ready)
    ensures var o := PollSpec(s, ready, accepted, env);
            var session, session' := s.core.session, o.service.core.session;
            var expired := session.kind != Default && env.s3At - session.lastTesterPresent >= 5_001_000_000;
            && (if expired then session'.kind == Default && session'.owner == session.owner && session'.state.Active?
                else session' == session)
            && o.service.core.levels == s.core.levels
            && o.events == (if session.kind == Default then []
                            else if expired then [S3Expired(env.s3At)] else [S3Passed(env.s3At)])
  {
    hide ReceiveSpec, FirstMessage, Dispatch.DispatchSpec, EncodeSpec, DecodeSpec, SendSpec;
    if s.transport.Some? {
      var l := s.transport.value;
      if !l.open || !ready {
        NothingRead(l, ready);
      } else if l.connected {
        match FirstMessage(l.input)
        case Some(m) =>
          FirstMessageCarried(l.input, m);
          ReceiveOne(l, m, l.input[HEADER + |m.payload|..]);
        case None => NothingReceived(l);
      }
    }
  }

  lemma OneTurn(s: Service, turn: Turn) returns (frames: seq<bytes>)
    requires s.initialized && s.transport.Some?
    ensures var s' := PollTurn(s, turn);
            && s'.initialized && s'.transport.Some?
            && TurnDone(s.transport.value, turn, s'.transport.value, frames)
            && s'.transport.value.output == s.transport.value.output + frames
  {
    hide ReceiveSpec, Exchange, Carries, FirstMessage, Skipped, AfterS3, CheckS3;
    var l := s.transport.value;
    frames := [];
    assert l.output + [] == l.output;
    if l.connected {
      if l.open && turn.ready {
        match FirstMessage(l.input)
        case Some(m) =>
          FirstMessageCarried(l.input, m);
          hide PollSpec;
          frames := PollMessage(s, m, l.input[HEADER + |m.payload|..], turn.accepted, turn.env);
        case None =>
          NothingReceived(l);
          SkippedWritesNothing(l);
      } else {
        assert ReceiveSpec(l, turn.ready) == Received(l, []) by {
          NothingRead(l, turn.ready);
        }
      }
    }
  }

  lemma NothingRead(l: Link, ready: bool)
    requires !l.open || !ready
    ensures ReceiveSpec(l, ready) == Received(l, [])
  {
  }

  lemma SkippedWritesNothing(l: Link)
    ensures Skipped(l).output == l.output
  {
  }

  /** The links between polls and the frames of each poll; all frames come in order. */
  ghost predicate Transcript(turns: seq<Turn>, links: seq<Link>, chunks: seq<seq<bytes>>) {
    && |chunks| == |turns| && |links| == |turns| + 1
    && (forall k | 0 <= k < |turns| :: TurnDone(links[k], turns[k], links[k + 1], chunks[k]))
    && links[|turns|].output == links[0].output + Flatten(chunks)
  }

  lemma TranscriptCons(turns: seq<Turn>, l: Link, links: seq<Link>, first: seq<bytes>, rest: seq<seq<bytes>>)
    requires turns != [] && Transcript(turns[1..], links, rest)
    requires TurnDone(l, turns[0], links[0], first) && links[0].output == l.output + first
    ensures Transcript(turns, [l] + links, [first] + rest)
  {
    hide TurnDone;
    forall k | 0 <= k < |turns|
      ensures TurnDone(([l] + links)[k], turns[k], ([l] + links)[k + 1], ([first] + rest)[k])
    {
      if k > 0 {
        assert TurnDone(links[k - 1], turns[1..][k - 1], links[k], rest[k - 1]);
      }
    }
    assert ([first] + rest)[1..] == rest;
    assert l.output + first + Flatten(rest) == l.output + Flatten([first] + rest);
  }

  /** Polling an initialized service any number of times, on any stream, with any idle polls
      and reconnections: the frames written are those of the polls in order, and each poll
      writes the exchange of the whole message it consumes, or nothing. */
  lemma {:induction false} EveryConversation(s: Service, turns: seq<Turn>)
    returns (links: seq<Link>, chunks: seq<seq<bytes>>)
    requires s.initialized && s.transport.Some?
    ensures Transcript(turns, links, chunks)
    ensures forall k | 0 <= k <= |turns| :: PollAll(s, turns[..k]).transport == Some(links[k])
    decreases |turns|
  {
    var l := s.transport.value;
    if turns == [] {
      links, chunks := [l], [];
      assert l.output + [] == l.output;
    } else {
      hide PollTurn, TurnDone, Transcript;
      var first := OneTurn(s, turns[0]);
      var later, rest := EveryConversation(PollTurn(s, turns[0]), turns[1..]);
      assert turns[1..][..0] == [];
      TranscriptLength(turns[1..], later, rest);
      TranscriptCons(turns, l, later, first, rest);
      links, chunks := [l] + later, [first] + rest;
      forall k | 0 <= k <= |turns|
        ensures PollAll(s, turns[..k]).transport == Some(links[k])
      {
        if k > 0 {
          assert turns[..k][1..] == turns[1..][..k - 1];
        }
      }
    }
  }

  lemma TranscriptLength(turns: seq<Turn>, links: seq<Link>, chunks: seq<seq<bytes>>)
    requires Transcript(turns, links, chunks)
    ensures |links| == |turns| + 1 && |chunks| == |turns|
  {
  }

  // ---- A stream of receivable messages ----------------------------------

  function ReadyTurns(turns: seq<Turn>): nat
    decreases |turns|
  {
    if turns == [] then 0 else (if turns[0].ready then 1 else 0) + ReadyTurns(turns[1..])
  }

  /** A poll that finds nothing leaves the link alone. */
  lemma IdlePoll(s: Service, accepted: Option<bytes>, env: Env)
    requires Listening(s)
    ensures var s' := PollSpec(s, false, accepted, env).service; Listening(s') && s'.transport == s.transport
  {
  }

  function Flatten(chunks: seq<seq<bytes>>): seq<bytes> {
    if chunks == [] then [] else chunks[0] + Flatten(chunks[1..])
  }

  /** The tester that replies go to after some messages. */
  function TesterAfterAll(ms: seq<Message>, remote: u16): u16 {
    if ms == [] then remote else TesterAfterAll(ms[1..], TesterAfter(ms[0], remote))
  }

  predicate NamesSender(m: Message) { m.payloadType == DIAGNOSTIC && |m.payload| > 4 }

  /** That is the sender of the last diagnostic message that carries more than its
      addresses, or the tester replies went to before if there is none. */
  lemma {:induction false} LastSender(ms: seq<Message>, remote: u16)
    ensures || (TesterAfterAll(ms, remote) == remote && forall m | m in ms :: !NamesSender(m))
            || exists k | 0 <= k < |ms| ::
                 && NamesSender(ms[k])
                 && Big16(TesterAfterAll(ms, remote)) == ms[k].payload[..2]
                 && forall i | k < i < |ms| :: !NamesSender(ms[i])
  {
    if ms != [] {
      var next := TesterAfter(ms[0], remote);
      LastSender(ms[1..], next);
      if forall m | m in ms[1..] :: !NamesSender(m) {
        assert forall i | 0 < i < |ms| :: !NamesSender(ms[i]) by {
          forall i | 0 < i < |ms| ensures !NamesSender(ms[i]) {
            assert ms[i] == ms[1..][i - 1];
          }
        }
        if NamesSender(ms[0]) {
          Join16RoundTrip(ms[0].payload[0], ms[0].payload[1]);
          assert Big16(next) == ms[0].payload[..2];
        }
      } else {
        var k :| 0 <= k < |ms[1..]| && NamesSender(ms[1..][k])
                 && Big16(TesterAfterAll(ms[1..], next)) == ms[1..][k].payload[..2]
                 && forall i | k < i < |ms[1..]| :: !NamesSender(ms[1..][i]);
        assert ms[k + 1] == ms[1..][k];
        assert forall i | k + 1 < i < |ms| :: !NamesSender(ms[i]) by {
          forall i | k + 1 < i < |ms| ensures !NamesSender(ms[i]) {
            assert ms[i] == ms[1..][i - 1];
          }
        }
      }
    }
  }

  ghost predicate Exchanges(ms: seq<Message>, local: u16, remote: u16, chunks: seq<seq<bytes>>) {
    && |chunks| == |ms|
    && forall k | 0 <= k < |ms| :: Exchange(ms[k], local, TesterAfterAll(ms[..k], remote), chunks[k])
  }

  /** The link after a whole conversation: the messages are consumed and the frames of
      their exchanges are written in order. */
  ghost predicate Conversed(l: Link, ms: seq<Message>, tail: bytes, l': Link, chunks: seq<seq<bytes>>) {
    && l' == l.(input := tail, remote := TesterAfterAll(ms, l.remote), output := l.output + Flatten(chunks))
    && Exchanges(ms, l.local, l.remote, chunks)
  }

  /** Polling a stream of any receivable messages, with any idle polls in between, writes,
      in order, exactly the frames of their exchanges, one after the other, and consumes
      exactly the messages. */
  lemma {:induction false} WholeConversation(s: Service, ms: seq<Message>, tail: bytes, turns: seq<Turn>)
    returns (chunks: seq<seq<bytes>>)
    requires Listening(s) && ReadyTurns(turns) == |ms|
    requires forall m | m in ms :: Receivable(m)
    requires s.transport.value.input == Wire(ms) + tail
    ensures Listening(PollAll(s, turns))
    ensures Conversed(s.transport.value, ms, tail, PollAll(s, turns).transport.value, chunks)
    decreases |turns|
  {
    var l := s.transport.value;
    if turns == [] {
      chunks := [];
      assert [] + tail == tail && l.output + [] == l.output;
    } else {
      hide PollSpec, Exchange, FrameSpec, TesterAfter, Carries, Conversed, Served;
      var s1 := PollTurn(s, turns[0]);
      if !turns[0].ready {
        IdlePoll(s, turns[0].accepted, turns[0].env);
        chunks := WholeConversation(s1, ms, tail, turns[1..]);
      } else {
        assert l.input == FrameSpec(ms[0].payloadType, ms[0].payload) + (Wire(ms[1..]) + tail);
        assert Receivable(ms[0]);
        FrameCarries(ms[0], Wire(ms[1..]) + tail);
        var first := PollMessage(s, ms[0], Wire(ms[1..]) + tail, turns[0].accepted, turns[0].env);
        ServedInput(l, ms[0], Wire(ms[1..]) + tail, s1.transport.value, first);
        var rest := WholeConversation(s1, ms[1..], tail, turns[1..]);
        chunks := [first] + rest;
        ConversedCons(l, ms, tail, s1.transport.value, PollAll(s1, turns[1..]).transport.value, first, rest);
      }
    }
  }

  lemma ServedInput(l: Link, m: Message, tail: bytes, l': Link, frames: seq<bytes>)
    requires Served(l, m, tail, l', frames)
    ensures l'.input == tail
  {
  }

  lemma ConversedCons(l: Link, ms: seq<Message>, tail: bytes, l1: Link, l': Link,
                      first: seq<bytes>, rest: seq<seq<bytes>>)
    requires ms != [] && Served(l, ms[0], Wire(ms[1..]) + tail, l1, first)
    requires Conversed(l1, ms[1..], tail, l', rest)
    ensures Conversed(l, ms, tail, l', [first] + rest)
  {
    hide Exchange, TesterAfter, Wire;
    ExchangesCons(ms, l.local, l.remote, first, rest);
    assert ([first] + rest)[1..] == rest;
    assert l.output + first + Flatten(rest) == l.output + Flatten([first] + rest);
  }

  lemma ExchangesCons(ms: seq<Message>, local: u16, remote: u16, first: seq<bytes>, rest: seq<seq<bytes>>)
    requires ms != [] && Exchange(ms[0], local, remote, first)
    requires Exchanges(ms[1..], local, TesterAfter(ms[0], remote), rest)
    ensures Exchanges(ms, local, remote, [first] + rest)
  {
    hide Exchange, TesterAfter;
    forall k | 0 <= k < |ms|
      ensures Exchange(ms[k], local, TesterAfterAll(ms[..k], remote), ([first] + rest)[k])
    {
      if k > 0 {
        assert ms[..k][1..] == ms[1..][..k - 1];
        assert Exchange(ms[1..][k - 1], local, TesterAfterAll(ms[1..][..k - 1], TesterAfter(ms[0], remote)),
                        rest[k - 1]);
      }
    }
  }

  // ---- A VIN from the wire to PROV --------------------------------------

  function VinRequest(subFunction: byte, vin: bytes, extra: bytes): bytes {
    [ROUTINE_CONTROL, subFunction] + Big16(RID_WRITE_VIN) + vin + extra
  }

  lemma VinDecodes(subFunction: byte, vin: bytes, extra: bytes)
    requires |vin| == VIN_LENGTH
    ensures var raw := VinRequest(subFunction, vin, extra);
            && Decodable(raw)
            && var req := DecodeSpec(raw, FRESH_REQUEST);
               && req.serviceId == ROUTINE_CONTROL && req.subFunction == subFunction && req.didOrRid == RID_WRITE_VIN
               && |req.payload| >= VIN_LENGTH
               && req.payload[..VIN_LENGTH] == vin && req.payload[VIN_LENGTH..] == extra
  {
  }

  /** In an unlocked state with PROV available, a DoIP frame with a write-VIN routine leads
      to exactly one downstream call, which has exactly its 17 VIN bytes and its extra bytes. */
  lemma VinArrives(s: Service, source: u16, target: u16, subFunction: byte, vin: bytes, extra: bytes,
                   tail: bytes, env: Env)
    requires Listening(s) && Security.Unlocked(s.core.levels, LEVEL_1) && env.prov.available
    requires |vin| == VIN_LENGTH && 8 + VIN_LENGTH + |extra| <= MAX_PAYLOAD
    requires var payload := Big16(source) + Big16(target) + VinRequest(subFunction, vin, extra);
             s.transport.value.input == FrameSpec(DIAGNOSTIC, payload) + tail
    ensures var checked := CheckS3(s.core, env.s3At).events;
            PollSpec(s, true, None, env).events == checked + [Called(WriteVin(vin, extra))]
    ensures forall e | e in CheckS3(s.core, env.s3At).events :: !e.Called?
  {
    hide FrameSpec, PollSpec;
    var raw := VinRequest(subFunction, vin, extra);
    var m := Message(DIAGNOSTIC, Big16(source) + Big16(target) + raw);
    assert m.payload[4..] == raw;
    FrameCarries(m, tail);
    VinServed(s, m, raw, tail, subFunction, vin, extra, env);
  }

  lemma VinServed(s: Service, m: Message, raw: bytes, tail: bytes, subFunction: byte, vin: bytes, extra: bytes,
                  env: Env)
    requires Listening(s) && Security.Unlocked(s.core.levels, LEVEL_1) && env.prov.available
    requires |vin| == VIN_LENGTH && raw == VinRequest(subFunction, vin, extra)
    requires Receivable(m) && UdsData(m) == raw && Carries(s.transport.value.input, m, tail)
    ensures var checked := CheckS3(s.core, env.s3At).events;
            PollSpec(s, true, None, env).events == checked + [Called(WriteVin(vin, extra))]
  {
    hide ReceiveSpec, Carries, CheckS3, DecodeSpec, EncodeSpec, VinRequest, SendSpec, Handle;
    ReceiveOne(s.transport.value, m, tail);
    VinDecodes(subFunction, vin, extra);
  }

  /** From the wire to the PROV client and back, from whatever connection the adapter finds
      after the availability test of the dispatcher: if it is lost and does not come back,
      the client is not asked; else it is asked to write exactly the VIN, and the extra bytes
      as configuration only if there are any and the VIN write succeeded. The tester reads
      success exactly when everything was written. */
  lemma VinReachesProv(s: Service, source: u16, target: u16, subFunction: byte, vin: bytes, extra: bytes, tail: bytes,
                       env: Env, c: Reconnect.Connection, t: Reconnect.Try, a: Prov.WriteAnswers)
    requires Listening(s) && Security.Unlocked(s.core.levels, LEVEL_1) && env.prov.available
    requires |vin| == VIN_LENGTH && 8 + VIN_LENGTH + |extra| <= MAX_PAYLOAD
    requires var payload := Big16(source) + Big16(target) + VinRequest(subFunction, vin, extra);
             s.transport.value.input == FrameSpec(DIAGNOSTIC, payload) + tail
    requires env.prov.writeCode == Prov.WriteVinSpec(c, vin, extra, t, a).code
    ensures var l, l' := s.transport.value, PollSpec(s, true, None, env).service.transport.value;
            var reached := Reconnect.EnsureSpec(c, t).ok;
            var vinOk, all := a.vinResult == Prov.PROV_SUCCESS, extra == [] || a.configResult == Prov.PROV_SUCCESS;
            && PollSpec(s, true, None, env).events == CheckS3(s.core, env.s3At).events + [Called(WriteVin(vin, extra))]
            && Prov.WriteVinSpec(c, vin, extra, t, a).calls
               == (if !reached then []
                   else [Prov.WriteVinCall(vin)] + (if vinOk && extra != [] then [Prov.WriteConfigCall(extra)] else []))
            && l'.output == l.output + [Ack(l.local, source),
                 DiagnosticFrame(l.local, source,
                   if reached && vinOk && all then [0x71, subFunction, 0xFF, 0x00]
                   else [NEGATIVE_RESPONSE, ROUTINE_CONTROL, NRC_PROGRAMMING_FAILURE])]
  {
    hide FrameSpec, PollSpec, DiagnosticFrame, Ack;
    var raw := VinRequest(subFunction, vin, extra);
    var m := Message(DIAGNOSTIC, Big16(source) + Big16(target) + raw);
    assert m.payload[4..] == raw;
    assert Join16(m.payload[0], m.payload[1]) == source by {
      Big16RoundTrip(source);
    }
    FrameCarries(m, tail);
    VinServed(s, m, raw, tail, subFunction, vin, extra, env);
    VinAnswered(s, m, raw, tail, subFunction, vin, extra, env);
  }

  lemma VinAnswered(s: Service, m: Message, raw: bytes, tail: bytes, subFunction: byte, vin: bytes, extra: bytes,
                    env: Env)
    requires Listening(s) && Security.Unlocked(s.core.levels, LEVEL_1) && env.prov.available
    requires |vin| == VIN_LENGTH && raw == VinRequest(subFunction, vin, extra)
    requires Receivable(m) && |m.payload| > 4 && m.payloadType == DIAGNOSTIC && UdsData(m) == raw
    requires Carries(s.transport.value.input, m, tail)
    ensures var l, l' := s.transport.value, PollSpec(s, true, None, env).service.transport.value;
            var tester := Join16(m.payload[0], m.payload[1]);
            l'.output == l.output + [Ack(l.local, tester),
              DiagnosticFrame(l.local, tester,
                if env.prov.writeCode == Success then [0x71, subFunction, 0xFF, 0x00]
                else [NEGATIVE_RESPONSE, ROUTINE_CONTROL, NRC_PROGRAMMING_FAILURE])]
  {
    hide ReceiveSpec, Carries, CheckS3, DecodeSpec, VinRequest, Handle, DiagnosticFrame, Ack;
    ReceiveOne(s.transport.value, m, tail);
    HandlePrompts(s.transport.value.(input := tail), m);
    VinDecodes(subFunction, vin, extra);
    var core, req := AfterS3(s.core, env.s3At), DecodeSpec(raw, FRESH_REQUEST);
    var reply := EncodeSpec(Dispatch.DispatchSpec(core, req, env).response);
    assert reply == if env.prov.writeCode == Success then [0x71, subFunction, 0xFF, 0x00]
                    else [NEGATIVE_RESPONSE, ROUTINE_CONTROL, NRC_PROGRAMMING_FAILURE];
  }
}
