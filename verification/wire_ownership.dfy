/** Who owns a session over DoIP. A polled request never gets its sender's address: it
    asks as tester 0, whichever tester on the wire sent it. */
module WireOwnership {
  import opened DiagTypes
  import opened EventTrace
  import opened Sessions
  import opened Dispatch
  import opened Codec
  import opened Doip
  import opened DiagServer
  import ServiceRuns
  import ServiceTheorems
  import Conversation

  /** A message asking for a session type that exists. */
  predicate AsksForSession(raw: bytes) {
    |raw| >= 2 && raw[0] == SESSION_CONTROL && KindOf(raw[1] % 0x80).Some?
  }

  /** The session is free for everybody on the wire. */
  predicate FreeOnWire(session: Session) { session.kind == Default || session.owner == 0 }

  /** Exactly the default session and sessions of owner 0 are given to a tester on the wire. */
  lemma WireSwitch(core: Core, raw: bytes, env: Env)
    requires AsksForSession(raw) && (core.session.kind != Default ==> core.session.state == Active)
    ensures var h := DispatchSpec(core, DecodeSpec(raw, FRESH_REQUEST), env);
            && (h.response.positive <==> FreeOnWire(core.session))
            && (if FreeOnWire(core.session) then ServiceTheorems.Holds(h.core.session, 0, raw[1] % 0x80, env.secondAt)
                else h.core == core)
  {
    hide DispatchSpec;
    ServiceTheorems.SwitchAccepted(core, DecodeSpec(raw, FRESH_REQUEST), env);
  }

  /** The same for a message on the stream, from every reachable state: what becomes of the
      session, and what the sender reads. Nothing but the reply's address depends on the
      sender. */
  lemma PolledSwitch(w: ServiceRuns.Wiring, inputs: seq<ServiceRuns.Input>, m: Message, tail: bytes, env: Env)
    requires ServiceRuns.Timely(w, inputs) && Ordered(env, ServiceRuns.Run(w, inputs).clock)
    requires Conversation.Listening(ServiceRuns.Run(w, inputs).service)
    requires Carries(ServiceRuns.Run(w, inputs).service.transport.value.input, m, tail)
    requires Receivable(m) && AsksForSession(UdsData(m))
    ensures Switched(ServiceRuns.Run(w, inputs).service, m, env)
  {
    hide ServiceRuns.Run, ServiceRuns.Timely, Switched;
    ServiceRuns.EveryRun(w, inputs);
    ActiveInRuns(w, inputs);
    MessageSwitches(ServiceRuns.Run(w, inputs).service, m, tail, env);
  }

  ghost predicate Switched(s: Service, m: Message, env: Env)
    requires Conversation.Listening(s) && AsksForSession(UdsData(m))
  {
    var session, l := AfterS3(s.core, env.s3At).session, s.transport.value;
    var s', sessionType := PollSpec(s, true, None, env).service, UdsData(m)[1] % 0x80;
    && Conversation.Listening(s')
    && (if FreeOnWire(session) then ServiceTheorems.Holds(s'.core.session, 0, sessionType, env.secondAt)
        else s'.core.session == session)
    && s'.transport.value.output
       == l.output + Conversation.Prompt(m, l.local)
          + [DiagnosticFrame(l.local, Conversation.TesterAfter(m, l.remote),
               if FreeOnWire(session) then [0x50, sessionType, 0x13, 0x88, 0x01, 0xF4]
               else [NEGATIVE_RESPONSE, SESSION_CONTROL, NRC_CONDITIONS_NOT_CORRECT])]
  }

  lemma ActiveInRuns(w: ServiceRuns.Wiring, inputs: seq<ServiceRuns.Input>)
    requires ServiceRuns.Timely(w, inputs)
    ensures var session := ServiceRuns.Run(w, inputs).service.core.session;
            session.kind != Default ==> session.state == Active
  {
    hide ServiceRuns.Run, ServiceRuns.Timely;
    ServiceRuns.EveryRun(w, inputs);
  }

  lemma MessageSwitches(s: Service, m: Message, tail: bytes, env: Env)
    requires Conversation.Listening(s) && Carries(s.transport.value.input, m, tail)
    requires Receivable(m) && AsksForSession(UdsData(m))
    requires s.core.session.kind != Default ==> s.core.session.state == Active
    ensures Switched(s, m, env)
  {
    hide ReceiveSpec, Carries, Handle, DispatchSpec, DecodeSpec, DiagnosticFrame;
    hide Conversation.Prompt, Conversation.TesterAfter;
    var core := AfterS3(s.core, env.s3At);
    ReceiveOne(s.transport.value, m, tail);
    Conversation.HandlePrompts(s.transport.value.(input := tail), m);
    WireSwitch(core, UdsData(m), env);
    SwitchReply(core, UdsData(m), env);
  }

  lemma SwitchReply(core: Core, raw: bytes, env: Env)
    requires AsksForSession(raw)
    ensures var response := DispatchSpec(core, DecodeSpec(raw, FRESH_REQUEST), env).response;
            EncodeSpec(response) == if response.positive then [0x50, raw[1] % 0x80, 0x13, 0x88, 0x01, 0xF4]
                                    else [NEGATIVE_RESPONSE, SESSION_CONTROL, NRC_CONDITIONS_NOT_CORRECT]
  {
  }

  /** So an ongoing session of owner 0 does not keep other testers out: a framed session
      request from any source address switches it, and the reply goes to that address. */
  lemma OwnerZeroIsShared(s: Service, source: u16, target: u16, subFunction: byte, tail: bytes, env: Env)
    requires Conversation.Listening(s)
    requires s.core.session.kind != Default && s.core.session.state == Active && s.core.session.owner == 0
    requires KindOf(subFunction % 0x80).Some?
    requires s.transport.value.input
             == FrameSpec(DIAGNOSTIC, Big16(source) + Big16(target) + [SESSION_CONTROL, subFunction]) + tail
    ensures var l, s' := s.transport.value, PollSpec(s, true, None, env).service;
            && KindOf(subFunction % 0x80) == Some(s'.core.session.kind)
            && s'.core.session.lastTesterPresent == env.secondAt
            && s'.transport.value.output
               == l.output + [Ack(l.local, source),
                              DiagnosticFrame(l.local, source, [0x50, subFunction % 0x80, 0x13, 0x88, 0x01, 0xF4])]
  {
    hide FrameSpec, PollSpec, DiagnosticFrame, Ack;
    var m := Message(DIAGNOSTIC, Big16(source) + Big16(target) + [SESSION_CONTROL, subFunction]);
    assert m.payload[4..] == [SESSION_CONTROL, subFunction];
    Big16RoundTrip(source);
    FrameCarries(m, tail);
    MessageSwitches(s, m, tail, env);
  }

  // ---- What polls cannot touch ------------------------------------------

  /** A session that has not timed out and whose owner is not 0 is left exactly as it was
      by every poll, in every run. */
  lemma PollsCannotTouch(w: ServiceRuns.Wiring, inputs: seq<ServiceRuns.Input>, ready: bool, accepted: Option<bytes>,
                         env: Env)
    requires ServiceRuns.Timely(w, inputs) && Ordered(env, ServiceRuns.Run(w, inputs).clock)
    requires var session := ServiceRuns.Run(w, inputs).service.core.session;
             && session.kind != Default && session.owner != 0
             && WholeMs(env.s3At - session.lastTesterPresent) <= S3_MS
    ensures var s := ServiceRuns.Run(w, inputs).service;
            PollSpec(s, ready, accepted, env).service.core.session == s.core.session
  {
    hide ServiceRuns.Run, ServiceRuns.Timely;
    ActiveInRuns(w, inputs);
    PollIsRefused(ServiceRuns.Run(w, inputs).service, ready, accepted, env);
  }

  lemma PollIsRefused(s: Service, ready: bool, accepted: Option<bytes>, env: Env)
    requires AfterS3(s.core, env.s3At) == s.core
    requires s.core.session.kind != Default && s.core.session.state == Active && s.core.session.owner != 0
    ensures PollSpec(s, ready, accepted, env).service.core.session == s.core.session
  {
    hide DispatchSpec, ReceiveSpec, SendSpec, EncodeSpec, AfterS3;
    if s.transport.Some? {
      var raw := ReceiveSpec(s.transport.value, ready).data;
      if Decodable(raw) {
        ServiceTheorems.StrangerIsRefused(s.core, DecodeSpec(raw, FRESH_REQUEST), env);
      }
    }
  }

  // ---- Runs on the wire alone -------------------------------------------

  predicate WireOnly(inputs: seq<ServiceRuns.Input>) {
    forall input | input in inputs :: !input.ProcessRequest?
  }

  /** As long as nobody hands in requests directly, nobody but tester 0 ever owns a session. */
  lemma {:induction false} WireOwner(w: ServiceRuns.Wiring, inputs: seq<ServiceRuns.Input>)
    requires WireOnly(inputs)
    ensures ServiceRuns.Run(w, inputs).service.core.session.owner == 0
  {
    if inputs != [] {
      hide ServiceRuns.Perform;
      var input := inputs[|inputs| - 1];
      WireOwner(w, inputs[..|inputs| - 1]);
      assert input in inputs;
      WireStep(ServiceRuns.Run(w, inputs[..|inputs| - 1]).service, input);
    }
  }

  lemma WireStep(s: Service, input: ServiceRuns.Input)
    requires s.core.session.owner == 0 && !input.ProcessRequest?
    ensures ServiceRuns.Perform(s, input).service.core.session.owner == 0
  {
    hide DispatchSpec, ReceiveSpec, SendSpec, EncodeSpec;
    if input.Poll? && s.transport.Some? {
      var raw := ReceiveSpec(s.transport.value, input.ready).data;
      if Decodable(raw) {
        OwnerStaysZero(AfterS3(s.core, input.env.s3At), raw, input.env);
      }
    }
  }

  lemma OwnerStaysZero(core: Core, raw: bytes, env: Env)
    requires core.session.owner == 0 && Decodable(raw)
    ensures DispatchSpec(core, DecodeSpec(raw, FRESH_REQUEST), env).core.session.owner == 0
  {
  }

  /** In such runs there is no single-tester ownership at all: whatever session stands, every
      message from the wire that asks for a session gets it. */
  lemma WireNeverRefuses(w: ServiceRuns.Wiring, inputs: seq<ServiceRuns.Input>, m: Message, tail: bytes, env: Env)
    requires ServiceRuns.Timely(w, inputs) && Ordered(env, ServiceRuns.Run(w, inputs).clock) && WireOnly(inputs)
    requires Conversation.Listening(ServiceRuns.Run(w, inputs).service)
    requires Carries(ServiceRuns.Run(w, inputs).service.transport.value.input, m, tail)
    requires Receivable(m) && AsksForSession(UdsData(m))
    ensures var s' := PollSpec(ServiceRuns.Run(w, inputs).service, true, None, env).service;
            ServiceTheorems.Holds(s'.core.session, 0, UdsData(m)[1] % 0x80, env.secondAt)
  {
    hide ServiceRuns.Run, ServiceRuns.Timely, PollSpec, Carries;
    WireOwner(w, inputs);
    PolledSwitch(w, inputs, m, tail, env);
  }
}
