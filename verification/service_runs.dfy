/** Whole runs of the diagnostic service, from power-on, under any requests, any DoIP
    traffic, any restarts and any answers of SEC and PROV. */
module ServiceRuns {
  import opened DiagTypes
  import opened EventTrace
  import opened Security
  import opened Sessions
  import opened Dispatch
  import opened DiagServer
  import Doip

  datatype Input =
    | Initialize(configOk: bool, now: nat)
    | ProcessRequest(req: Request, env: Env)
    | Poll(ready: bool, accepted: Option<bytes>, env: Env)
    | Shutdown
    | SetSec(present: bool)
    | SetProv(present: bool)

  /** A powered-on service; `wiring` says what it is connected to. */
  datatype Wiring = Wiring(haveSec: bool, haveProv: bool, transport: Option<Doip.Link>)

  function PowerOn(w: Wiring): Service {
    Service(false, w.haveSec, w.haveProv, Core(NewSession(0), map[]), w.transport)
  }

  function Perform(s: Service, input: Input): Polled {
    match input
    case Initialize(configOk, now) => var o := InitializeSpec(s, configOk, now); Polled(o.service, o.events)
    case ProcessRequest(req, env) => var o := ProcessSpec(s, req, env); Polled(o.service, o.events)
    case Poll(ready, accepted, env) => PollSpec(s, ready, accepted, env)
    case Shutdown => ShutdownSpec(s)
    case SetSec(present) => SetSecSpec(s, present)
    case SetProv(present) => SetProvSpec(s, present)
  }

  ghost predicate OnTime(input: Input, clock: nat) {
    match input
    case Initialize(_, now) => clock <= now
    case ProcessRequest(_, env) => Ordered(env, clock)
    case Poll(_, _, env) => Ordered(env, clock)
    case _ => true
  }

  function ClockAfter(input: Input, clock: nat): nat {
    match input
    case Initialize(_, now) => now
    case ProcessRequest(_, env) => env.secondAt
    case Poll(_, _, env) => env.secondAt
    case _ => clock
  }

  datatype RunState = RunState(service: Service, trace: Trace, clock: nat)

  function Run(w: Wiring, inputs: seq<Input>): RunState {
    if inputs == [] then RunState(PowerOn(w), [], 0)
    else Then(Run(w, inputs[..|inputs| - 1]), inputs[|inputs| - 1])
  }

  function Then(r: RunState, input: Input): RunState {
    var o := Perform(r.service, input);
    RunState(o.service, r.trace + o.events, ClockAfter(input, r.clock))
  }

  ghost predicate Timely(w: Wiring, inputs: seq<Input>) {
    inputs == [] ||
    (Timely(w, inputs[..|inputs| - 1]) && OnTime(inputs[|inputs| - 1], Run(w, inputs[..|inputs| - 1]).clock))
  }

  // ---- What every step keeps --------------------------------------------

  /** State and trace tell the same story, the trace is disciplined, the session was not
      refreshed in the future, and no security level but level 1 has an entry. */
  ghost predicate Sound(core: Core, trace: Trace, clock: nat) {
    && Disciplined(trace)
    && LevelsReflect(core.levels, trace, clock)
    && SessionAgrees(core.session, trace)
    && core.session.lastTesterPresent <= clock
    && core.levels.Keys <= {LEVEL_1}
  }

  /** Session events leave the security side alone, and the other way round. */
  lemma SessionEventSound(core: Core, trace: Trace, e: Event, session: Session, clock: nat, later: nat)
    requires Sound(core, trace, clock) && clock <= later
    requires forall h: History, level: byte :: Observe(h, e, level) == h
    requires Disciplined(trace + [e]) && SessionAgrees(session, trace + [e])
    requires session.lastTesterPresent <= later
    ensures Sound(core.(session := session), trace + [e], later)
  {
    OtherEventReflects(core.levels, trace, e, clock, later);
  }

  lemma LaterSound(core: Core, trace: Trace, clock: nat, later: nat)
    requires Sound(core, trace, clock) && clock <= later
    ensures Sound(core, trace + [], later)
  {
    SilentReflects(core.levels, core.levels, trace, clock, later);
    assert trace + [] == trace;
  }

  lemma SecurityEventsSound(core: Core, trace: Trace, events: Trace, levels: Levels, clock: nat, later: nat)
    requires Sound(core, trace, clock)
    requires |events| <= 1 && forall e | e in events :: ConcernsSecurity(e)
    requires LevelsReflect(levels, trace + events, later) && Disciplined(trace + events)
    requires levels.Keys <= {LEVEL_1} && clock <= later
    ensures Sound(core.(levels := levels), trace + events, later)
  {
    hide LevelsReflect, Disciplined;
    if events == [] {
      assert trace + events == trace;
    } else {
      assert ConcernsSecurity(events[0]);
      SessionStaysInView(core.session, trace, events[0]);
      assert trace + events == trace + [events[0]];
    }
  }

  lemma SessionStaysInView(session: Session, trace: Trace, e: Event)
    requires ConcernsSecurity(e) && SessionAgrees(session, trace)
    ensures SessionAgrees(session, trace + [e])
  {
    hide Disciplined, HistoryOf, Observe, Allowed;
    Appended(trace, e);
  }

  predicate ConcernsSecurity(e: Event) {
    e.SeedGranted? || e.KeyVerified? || e.KeyFailed? || e.LevelLocked? || e.SecurityReset?
  }

  lemma CheckS3Sound(core: Core, trace: Trace, clock: nat, now: nat)
    requires Sound(core, trace, clock) && clock <= now
    ensures Sound(AfterS3(core, now), trace + CheckS3(core, now).events, now)
    ensures CheckedAt(AfterS3(core, now).session, trace + CheckS3(core, now).events, now)
  {
    hide LevelsReflect, HistoryOf, ViewOf;
    var o := CheckS3(core, now);
    CheckS3Agrees(core.session, trace, now);
    if o.events == [] {
      LaterSound(core, trace, clock, now);
    } else {
      assert trace + o.events == trace + [o.events[0]];
      SessionEventSound(core, trace, o.events[0], o.session, clock, now);
    }
  }

  /** The five services, each after the S3 check of its request. */
  lemma SessionControlSound(core: Core, trace: Trace, req: Request, env: Env)
    requires Sound(core, trace, env.s3At) && CheckedAt(core.session, trace, env.s3At) && Ordered(env, env.s3At)
    ensures var h := SessionControlSpec(core, req, env); Sound(h.core, trace + h.events, env.secondAt)
  {
    var h := SessionControlSpec(core, req, env);
    SwitchAgrees(core.session, trace, env.s3At, req.subFunction % 0x80, req.source, req.transport,
                 env.firstAt, env.secondAt);
    if h.events == [] {
      LaterSound(core, trace, env.s3At, env.secondAt);
    } else {
      assert trace + h.events == trace + [h.events[0]];
      SessionEventSound(core, trace, h.events[0], h.core.session, env.s3At, env.secondAt);
    }
  }

  lemma TesterPresentSound(core: Core, trace: Trace, req: Request, env: Env)
    requires Sound(core, trace, env.s3At) && CheckedAt(core.session, trace, env.s3At) && Ordered(env, env.s3At)
    ensures var h := HandleTesterPresentSpec(core, req, env); Sound(h.core, trace + h.events, env.secondAt)
  {
    var h := HandleTesterPresentSpec(core, req, env);
    TesterPresentAgrees(core.session, trace, env.s3At, req.source, env.firstAt);
    if h.events == [] {
      LaterSound(core, trace, env.s3At, env.secondAt);
    } else {
      assert trace + h.events == trace + [h.events[0]];
      SessionEventSound(core, trace, h.events[0], h.core.session, env.s3At, env.secondAt);
    }
  }

  lemma SecurityAccessSound(core: Core, trace: Trace, req: Request, env: Env)
    requires Sound(core, trace, env.s3At) && Ordered(env, env.s3At)
    ensures var h := SecurityAccessSpec(core, req, env); Sound(h.core, trace + h.events, env.secondAt)
  {
    hide LevelsReflect, Disciplined, SessionAgrees;
    var h := SecurityAccessSpec(core, req, env);
    var level: byte := req.subFunction % 0x80;
    if level == LEVEL_1 {
      RequestSeedReflects(core.levels, trace, env.s3At, level, env.sec, env.firstAt, env.secondAt);
      SecurityEventsSound(core, trace, h.events, h.core.levels, env.s3At, env.secondAt);
    } else if level == LEVEL_1 + 1 {
      SendKeyReflects(core.levels, trace, env.s3At, level, req.payload, env.sec, env.firstAt, env.secondAt);
      SecurityEventsSound(core, trace, h.events, h.core.levels, env.s3At, env.secondAt);
    } else {
      LaterSound(core, trace, env.s3At, env.secondAt);
    }
  }

  lemma CallSound(core: Core, trace: Trace, op: Operation, clock: nat, later: nat)
    requires Sound(core, trace, clock) && clock <= later
    requires Privileged(op) ==> Unlocked(core.levels, LEVEL_1)
    requires CertificateCall(op) ==> core.session.kind == Programming
    ensures Sound(core, trace + [Called(op)], later)
  {
    assert Reflects(At(core.levels, LEVEL_1), HistoryOf(trace, LEVEL_1), clock);
    SessionEventAgrees(core.session, core.session, trace, Called(op));
    SessionEventSound(core, trace, Called(op), core.session, clock, later);
  }

  /** Routines and reads change neither component; what they call, they may call. */
  lemma RoutineOrRead(core: Core, req: Request, env: Env)
    requires req.serviceId == ROUTINE_CONTROL || req.serviceId == READ_DATA
    ensures var h := DispatchSpec(core, req, env);
            && h.core == core
            && (h.events == [] ||
                exists op ::
                  && h.events == [Called(op)]
                  && (Privileged(op) ==> Unlocked(core.levels, LEVEL_1))
                  && (CertificateCall(op) ==> core.session.kind == Programming))
  {
  }

  lemma DispatchSound(core: Core, trace: Trace, req: Request, env: Env)
    requires Sound(core, trace, env.s3At) && CheckedAt(core.session, trace, env.s3At) && Ordered(env, env.s3At)
    ensures var h := DispatchSpec(core, req, env); Sound(h.core, trace + h.events, env.secondAt)
  {
    hide Sound, SessionControlSpec, HandleTesterPresentSpec, SecurityAccessSpec, RoutineControlSpec, ReadDataSpec;
    var h := DispatchSpec(core, req, env);
    if req.serviceId == SESSION_CONTROL {
      SessionControlSound(core, trace, req, env);
    } else if req.serviceId == TESTER_PRESENT {
      TesterPresentSound(core, trace, req, env);
    } else if req.serviceId == SECURITY_ACCESS {
      SecurityAccessSound(core, trace, req, env);
    } else if req.serviceId == ROUTINE_CONTROL || req.serviceId == READ_DATA {
      RoutineOrRead(core, req, env);
      if h.events == [] {
        LaterSound(core, trace, env.s3At, env.secondAt);
      } else {
        var op :| h.events == [Called(op)]
                  && (Privileged(op) ==> Unlocked(core.levels, LEVEL_1))
                  && (CertificateCall(op) ==> core.session.kind == Programming);
        CallSound(core, trace, op, env.s3At, env.secondAt);
      }
    } else {
      LaterSound(core, trace, env.s3At, env.secondAt);
    }
  }

  lemma ServeSound(core: Core, trace: Trace, clock: nat, req: Request, env: Env)
    requires Sound(core, trace, clock) && Ordered(env, clock)
    ensures var checked, h := CheckS3(core, env.s3At).events, DispatchSpec(AfterS3(core, env.s3At), req, env);
            Sound(h.core, trace + (checked + h.events), env.secondAt)
  {
    hide Sound, DispatchSpec, CheckS3, AfterS3, CheckedAt;
    var checked, h := CheckS3(core, env.s3At).events, DispatchSpec(AfterS3(core, env.s3At), req, env);
    CheckS3Sound(core, trace, clock, env.s3At);
    DispatchSound(AfterS3(core, env.s3At), trace + checked, req, env);
    assert trace + (checked + h.events) == trace + checked + h.events;
  }

  lemma CheckOnlySound(core: Core, trace: Trace, clock: nat, env: Env)
    requires Sound(core, trace, clock) && Ordered(env, clock)
    ensures var checked := CheckS3(core, env.s3At).events;
            && Sound(AfterS3(core, env.s3At), trace + checked, env.secondAt)
            && Sound(AfterS3(core, env.s3At), trace + (checked + []), env.secondAt)
  {
    hide Sound, CheckS3, AfterS3, CheckedAt;
    var checked := CheckS3(core, env.s3At).events;
    CheckS3Sound(core, trace, clock, env.s3At);
    LaterSound(AfterS3(core, env.s3At), trace + checked, env.s3At, env.secondAt);
    assert trace + checked + [] == trace + checked == trace + (checked + []);
  }

  lemma PollSound(s: Service, trace: Trace, clock: nat, ready: bool, accepted: Option<bytes>, env: Env)
    requires Sound(s.core, trace, clock) && Ordered(env, clock)
    ensures var o := PollSpec(s, ready, accepted, env); Sound(o.service.core, trace + o.events, env.secondAt)
  {
    hide Sound, CheckS3, AfterS3, DispatchSpec, Doip.ReceiveSpec, Doip.SendSpec;
    hide Codec.DecodeSpec, Codec.EncodeSpec, Codec.Decodable;
    CheckOnlySound(s.core, trace, clock, env);
    if !s.initialized {
      LaterSound(s.core, trace, clock, env.secondAt);
    } else if s.transport.Some? && s.transport.value.connected {
      var r := Doip.ReceiveSpec(s.transport.value, ready);
      if r.data != [] && Codec.Decodable(r.data) {
        ServeSound(s.core, trace, clock, Codec.DecodeSpec(r.data, FRESH_REQUEST), env);
      }
    }
  }

  lemma FreshSessionSound(core: Core, trace: Trace, clock: nat, now: nat)
    requires Sound(core, trace, clock) && clock <= now
    ensures Sound(core.(session := NewSession(now)), trace + [SessionCreated(now)], now)
  {
    SessionEventAgrees(core.session, NewSession(now), trace, SessionCreated(now));
    SessionEventSound(core, trace, SessionCreated(now), NewSession(now), clock, now);
  }

  lemma ReleaseSound(core: Core, trace: Trace, clock: nat)
    requires Sound(core, trace, clock)
    ensures Sound(core.(session := ReleaseSpec(core.session).session), trace + [SessionReleased], clock)
  {
    SessionEventAgrees(core.session, ReleaseSpec(core.session).session, trace, SessionReleased);
    SessionEventSound(core, trace, SessionReleased, ReleaseSpec(core.session).session, clock, clock);
  }

  lemma ClearedSound(core: Core, trace: Trace, clock: nat)
    requires Sound(core, trace, clock)
    ensures Sound(core.(levels := map[]), trace + [SecurityReset], clock)
  {
    ResetReflects(core.levels, trace, clock, clock);
    SecurityEventsSound(core, trace, [SecurityReset], map[], clock, clock);
  }

  lemma StepSound(s: Service, trace: Trace, clock: nat, input: Input)
    requires Sound(s.core, trace, clock) && OnTime(input, clock)
    ensures var o := Perform(s, input); Sound(o.service.core, trace + o.events, ClockAfter(input, clock))
  {
    hide Sound, CheckS3, AfterS3, DispatchSpec, PollSpec;
    LaterSound(s.core, trace, clock, ClockAfter(input, clock));
    match input {
      case Initialize(_, now) =>
        FreshSessionSound(s.core, trace, clock, now);
        ClearedSound(s.core.(session := NewSession(now)), trace + [SessionCreated(now)], now);
        assert trace + [SessionCreated(now)] + [SecurityReset] == trace + [SessionCreated(now), SecurityReset];
      case ProcessRequest(req, env) => ServeSound(s.core, trace, clock, req, env);
      case Poll(ready, accepted, env) => PollSound(s, trace, clock, ready, accepted, env);
      case Shutdown =>
        ReleaseSound(s.core, trace, clock);
        ClearedSound(s.core.(session := ReleaseSpec(s.core.session).session), trace + [SessionReleased], clock);
        assert trace + [SessionReleased] + [SecurityReset] == trace + [SessionReleased, SecurityReset];
      case SetSec(_) => ClearedSound(s.core, trace, clock);
      case SetProv(_) =>
    }
  }

  lemma {:induction false} EveryRun(w: Wiring, inputs: seq<Input>)
    requires Timely(w, inputs)
    ensures var r := Run(w, inputs); Sound(r.service.core, r.trace, r.clock)
  {
    if inputs == [] {
      NothingReflects(0);
    } else {
      hide Sound, Perform;
      var r, input := Run(w, inputs[..|inputs| - 1]), inputs[|inputs| - 1];
      EveryRun(w, inputs[..|inputs| - 1]);
      StepSound(r.service, r.trace, r.clock, input);
    }
  }
}
