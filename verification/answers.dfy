/** What a tester is answered, request by request: for every reachable state of the service
    and every request, which reply bytes come back, for which cause, and what is left behind.
    The causes are read off the trace and the answers of SEC and PROV. */
module Answers {
  import opened DiagTypes
  import opened EventTrace
  import opened Sessions
  import opened Dispatch
  import opened Codec
  import opened DiagServer
  import opened ServiceRuns
  import Security
  import SecurityRuns
  import ServiceTheorems
  import Reconnect
  import SecIpc

  /** The negative response: 7F, the service, the code. */
  predicate Refused(response: Response, serviceId: byte, nrc: byte) {
    !response.positive && EncodeSpec(response) == [0x7F, serviceId, nrc]
  }

  predicate Answered(response: Response, reply: bytes) { response.positive && EncodeSpec(response) == reply }

  // ---- 0x10: sessions ---------------------------------------------------

  /** The session is somebody else's: not default, not the requester's, not idle for 5001 ms. */
  predicate Occupied(session: Session, source: u16, now: nat) {
    session.kind != Default && session.owner != source && now - session.lastTesterPresent < 5_001_000_000
  }

  ghost predicate SessionAnswered(core: Core, req: Request, env: Env, core': Core, response: Response) {
    var session, session', asked := core.session, core'.session, req.subFunction % 0x80;
    && core'.levels == core.levels
    && if Occupied(session, req.source, env.s3At) then
         Refused(response, 0x10, 0x22) && session' == session
       else if asked != 1 && asked != 2 && asked != 3 then
         Refused(response, 0x10, 0x13) && core' == AfterS3(core, env.s3At)
       else
         && Answered(response, [0x50, asked, 0x13, 0x88, 0x01, 0xF4])
         && session'.owner == req.source && session'.transport == req.transport && session'.state.Active?
         && (session'.kind.Default? <==> asked == 1)
         && (session'.kind.Programming? <==> asked == 2)
         && (session'.kind.Extended? <==> asked == 3)
         && session'.lastTesterPresent == env.secondAt && session'.startedAt == env.firstAt
  }

  lemma SessionOfCore(s: Service, req: Request, env: Env)
    requires s.initialized && req.serviceId == SESSION_CONTROL
    requires s.core.session.kind != Default ==> s.core.session.state == Active
    ensures var o := ProcessSpec(s, req, env); SessionAnswered(s.core, req, env, o.service.core, o.response)
  {
  }

  lemma SessionAnswer(w: Wiring, inputs: seq<Input>, req: Request, env: Env)
    requires Timely(w, inputs) && Run(w, inputs).service.initialized && Ordered(env, Run(w, inputs).clock)
    requires req.serviceId == SESSION_CONTROL
    ensures var s := Run(w, inputs).service;
            var o := ProcessSpec(s, req, env);
            SessionAnswered(s.core, req, env, o.service.core, o.response)
  {
    hide Run, Timely, SessionAnswered;
    EveryRun(w, inputs);
    SessionOfCore(Run(w, inputs).service, req, env);
  }

  // ---- 0x3E: tester present ---------------------------------------------

  /** A refresh is accepted from the owner of an active session and from nobody else; it
      stamps the session and goes into the trace. Refused, it does nothing after the S3 check. */
  ghost predicate PresenceAnswered(core: Core, mayRefresh: bool, req: Request, env: Env,
                                   core': Core, events: Trace, response: Response) {
    var checked := AfterS3(core, env.s3At);
    && (mayRefresh <==> checked.session.state == Active && checked.session.owner == req.source)
    && if mayRefresh then
         && Answered(response, [0x7E, req.subFunction])
         && core' == checked.(session := checked.session.(lastTesterPresent := env.firstAt))
         && events == CheckS3(core, env.s3At).events + [TesterPresented(req.source, env.firstAt)]
       else
         Refused(response, 0x3E, 0x22) && core' == checked && events == CheckS3(core, env.s3At).events
  }

  lemma PresenceOfCore(s: Service, trace: Trace, req: Request, env: Env)
    requires s.initialized && req.serviceId == TESTER_PRESENT && SessionAgrees(s.core.session, trace)
    ensures var o, v := ProcessSpec(s, req, env), ViewOf(trace);
            PresenceAnswered(s.core, v.active && v.owner == req.source, req, env, o.service.core, o.events, o.response)
  {
    assert CheckS3(s.core, env.s3At).events + [] == CheckS3(s.core, env.s3At).events;
  }

  /** From every reachable state: accepted exactly from the tester that last asked for a
      session, if one did since the service was started or shut down. */
  lemma PresenceAnswer(w: Wiring, inputs: seq<Input>, req: Request, env: Env)
    requires Timely(w, inputs) && Run(w, inputs).service.initialized && Ordered(env, Run(w, inputs).clock)
    requires req.serviceId == TESTER_PRESENT
    ensures var s, v := Run(w, inputs).service, ViewOf(Run(w, inputs).trace);
            var o := ProcessSpec(s, req, env);
            PresenceAnswered(s.core, v.active && v.owner == req.source, req, env, o.service.core, o.events, o.response)
  {
    hide Run, Timely, PresenceAnswered;
    EveryRun(w, inputs);
    PresenceOfCore(Run(w, inputs).service, Run(w, inputs).trace, req, env);
  }

  /** Inputs that are not the owner's: direct requests of other testers, polls while the
      owner is not 0, another start of a running service, a new PROV or SEC. */
  predicate Foreign(input: Input, owner: u16) {
    match input
    case ProcessRequest(req, _) => req.source != owner
    case Poll(_, _, _) => owner != 0
    case Initialize(_, _) => true
    case SetSec(_) => true
    case SetProv(_) => true
    case Shutdown => false
  }

  lemma ForeignStep(s: Service, input: Input, clock: nat)
    requires s.initialized && OnTime(input, clock) && Foreign(input, s.core.session.owner)
    requires s.core.session.kind != Default && s.core.session.state == Active
    requires s.core.session.lastTesterPresent <= clock
    requires WholeMs(ClockAfter(input, clock) - s.core.session.lastTesterPresent) <= S3_MS
    ensures Perform(s, input).service.initialized && Perform(s, input).service.core.session == s.core.session
  {
    hide DispatchSpec, PollSpec, CheckS3Spec;
    match input
    case ProcessRequest(req, env) =>
      StillInTime(s.core, env);
      ServiceTheorems.StrangerIsRefused(s.core, req, env);
    case Poll(ready, accepted, env) =>
      StillInTime(s.core, env);
      PolledStranger(s, ready, accepted, env);
    case _ =>
  }

  lemma StillInTime(core: Core, env: Env)
    requires core.session.lastTesterPresent <= env.s3At <= env.secondAt
    requires WholeMs(env.secondAt - core.session.lastTesterPresent) <= S3_MS
    ensures AfterS3(core, env.s3At) == core
  {
    ServiceTheorems.WholeMsMonotone(env.s3At - core.session.lastTesterPresent,
                                    env.secondAt - core.session.lastTesterPresent);
  }

  lemma PolledStranger(s: Service, ready: bool, accepted: Option<bytes>, env: Env)
    requires AfterS3(s.core, env.s3At) == s.core
    requires s.core.session.kind != Default && s.core.session.state == Active && s.core.session.owner != 0
    ensures var o := PollSpec(s, ready, accepted, env).service;
            o.initialized == s.initialized && o.core.session == s.core.session
  {
    hide DispatchSpec, Doip.ReceiveSpec, Doip.SendSpec, EncodeSpec, AfterS3;
    if s.transport.Some? {
      var raw := Doip.ReceiveSpec(s.transport.value, ready).data;
      if Decodable(raw) {
        ServiceTheorems.StrangerIsRefused(s.core, DecodeSpec(raw, FRESH_REQUEST), env);
      }
    }
  }

  /** How a run goes on, and whether its inputs come in time. */
  function Onward(r: RunState, others: seq<Input>): RunState
    decreases |others|
  {
    if others == [] then r else Onward(Then(r, others[0]), others[1..])
  }

  ghost predicate TimelyOnward(r: RunState, others: seq<Input>)
    decreases |others|
  {
    others == [] || (OnTime(others[0], r.clock) && TimelyOnward(Then(r, others[0]), others[1..]))
  }

  lemma {:induction false} RunGoesOn(w: Wiring, inputs: seq<Input>, others: seq<Input>)
    ensures Run(w, inputs + others) == Onward(Run(w, inputs), others)
    ensures Timely(w, inputs + others) <==> Timely(w, inputs) && TimelyOnward(Run(w, inputs), others)
    decreases |others|
  {
    if others == [] {
      assert inputs + others == inputs;
    } else {
      hide Then, OnTime;
      var longer := inputs + [others[0]];
      assert longer[..|longer| - 1] == inputs;
      assert longer + others[1..] == inputs + others;
      RunGoesOn(w, longer, others[1..]);
    }
  }

  lemma {:induction false} ClockGrows(r: RunState, others: seq<Input>)
    requires TimelyOnward(r, others)
    ensures r.clock <= Onward(r, others).clock
    decreases |others|
  {
    if others != [] {
      hide Perform;
      ClockGrows(Then(r, others[0]), others[1..]);
    }
  }

  /** A session outlives any inputs of others, as long as they end within S3 of its last
      refresh. */
  lemma {:induction false} SessionOutlivesOthers(r: RunState, others: seq<Input>)
    requires TimelyOnward(r, others) && r.service.initialized
    requires var session := r.service.core.session;
             && session.kind != Default && session.state == Active && session.lastTesterPresent <= r.clock
             && (forall input | input in others :: Foreign(input, session.owner))
             && WholeMs(Onward(r, others).clock - session.lastTesterPresent) <= S3_MS
    ensures Onward(r, others).service.core.session == r.service.core.session
    decreases |others|
  {
    if others != [] {
      hide Perform, Foreign, WholeMs;
      var next, refreshed := Then(r, others[0]), r.service.core.session.lastTesterPresent;
      ClockGrows(next, others[1..]);
      StepClock(r, others[0]);
      ServiceTheorems.WholeMsMonotone(next.clock - refreshed, Onward(next, others[1..]).clock - refreshed);
      assert others[0] in others;
      ForeignStep(r.service, others[0], r.clock);
      SessionOutlivesOthers(next, others[1..]);
    }
  }

  lemma StepClock(r: RunState, input: Input)
    requires OnTime(input, r.clock)
    ensures r.clock <= Then(r, input).clock
  {
  }

  /** Hence a tester that is answered 7E at `t` in a session that is not default keeps that
      session through any later S3 check within S3 of `t`, whatever others do in between. */
  lemma RefreshKeepsSession(w: Wiring, inputs: seq<Input>, req: Request, env: Env, others: seq<Input>, now: nat)
    requires Timely(w, inputs + ([ProcessRequest(req, env)] + others))
    requires Run(w, inputs + ([ProcessRequest(req, env)] + others)).clock <= now && WholeMs(now - env.firstAt) <= S3_MS
    requires Run(w, inputs).service.initialized && req.serviceId == TESTER_PRESENT
    requires AfterS3(Run(w, inputs).service.core, env.s3At).session.kind != Default
    requires ProcessSpec(Run(w, inputs).service, req, env).response.positive
    requires forall input | input in others :: Foreign(input, req.source)
    ensures var r := Run(w, inputs + ([ProcessRequest(req, env)] + others));
            var session := AfterS3(r.service.core, now).session;
            && session.kind == AfterS3(Run(w, inputs).service.core, env.s3At).session.kind
            && session.owner == req.source && session.lastTesterPresent == env.firstAt
  {
    var more := [ProcessRequest(req, env)] + others;
    assert more[1..] == others;
    RunGoesOn(w, inputs, more);
    hide Run, Timely;
    RefreshKept(Run(w, inputs), req, env, others, now);
  }

  lemma RefreshKept(r: RunState, req: Request, env: Env, others: seq<Input>, now: nat)
    requires r.service.initialized && req.serviceId == TESTER_PRESENT && Ordered(env, r.clock)
    requires AfterS3(r.service.core, env.s3At).session.kind != Default
    requires ProcessSpec(r.service, req, env).response.positive
    requires var next := Then(r, ProcessRequest(req, env));
             TimelyOnward(next, others) && Onward(next, others).clock <= now && WholeMs(now - env.firstAt) <= S3_MS
    requires forall input | input in others :: Foreign(input, req.source)
    ensures var session := AfterS3(Onward(Then(r, ProcessRequest(req, env)), others).service.core, now).session;
            && session.kind == AfterS3(r.service.core, env.s3At).session.kind
            && session.owner == req.source && session.lastTesterPresent == env.firstAt
  {
    var next := Then(r, ProcessRequest(req, env));
    assert next.service == ProcessSpec(r.service, req, env).service && next.clock == env.secondAt;
    hide Then, Onward, TimelyOnward, AfterS3, ProcessSpec, Foreign, WholeMs;
    RefreshedSession(r.service, req, env);
    ClockGrows(next, others);
    ServiceTheorems.WholeMsMonotone(Onward(next, others).clock - env.firstAt, now - env.firstAt);
    SessionOutlivesOthers(next, others);
    NotExpired(Onward(next, others).service.core, now);
  }

  lemma RefreshedSession(s: Service, req: Request, env: Env)
    requires s.initialized && req.serviceId == TESTER_PRESENT && ProcessSpec(s, req, env).response.positive
    ensures var s' := ProcessSpec(s, req, env).service;
            && s'.initialized && s'.core.session.owner == req.source && s'.core.session.state == Active
            && s'.core.session == AfterS3(s.core, env.s3At).session.(lastTesterPresent := env.firstAt)
  {
  }

  lemma NotExpired(core: Core, now: nat)
    requires WholeMs(now - core.session.lastTesterPresent) <= S3_MS
    ensures AfterS3(core, now) == core
  {
  }

  // ---- 0x27: security access --------------------------------------------

  /** A seed request, given the history of level 1. */
  ghost predicate SeedReply(h: History, req: Request, env: Env, h': History, response: Response) {
    var locked := SecurityRuns.LockedByFailures(h.failures, env.firstAt);
    if !env.sec.available then Refused(response, 0x27, 0x22) && h' == h
    else if locked then Refused(response, 0x27, 0x33) && h' == h
    else if !env.sec.seedGranted then Refused(response, 0x27, 0x22) && h' == h
    else Answered(response, [0x67, req.subFunction] + env.sec.seed) && h' == h.(last := Seeded, seeds := h.seeds + 1)
  }

  /** A key: positive exactly if it is put to SEC and SEC accepts it. A key that SEC rejects
      is one more failure at the second clock reading. */
  ghost predicate KeyReply(h: History, req: Request, env: Env, h': History, response: Response) {
    var judged := SecurityRuns.KeyPut(h, env.sec.available, env.firstAt);
    && (if judged && env.sec.keyAccepted then Answered(response, [0x67, req.subFunction])
        else Refused(response, 0x27, if env.sec.available then 0x35 else 0x22))
    && h' == if !judged then h
             else if env.sec.keyAccepted then h.(last := Verified, failures := [], verifications := h.verifications + 1)
             else h.(last := Failed, failures := h.failures + [env.secondAt], verifications := h.verifications + 1)
  }

  ghost predicate SecurityReply(h: History, req: Request, env: Env, h': History, response: Response) {
    if req.subFunction % 0x80 == 1 then SeedReply(h, req, env, h', response)
    else if req.subFunction % 0x80 == 2 then KeyReply(h, req, env, h', response)
    else Refused(response, 0x27, 0x12) && h' == h
  }

  lemma HistoryAfter(trace: Trace, events: Trace)
    requires |events| <= 1
    ensures var h := HistoryOf(trace, LEVEL_1);
            HistoryOf(trace + events, LEVEL_1) == if events == [] then h else Observe(h, events[0], LEVEL_1)
  {
    if events == [] {
      assert trace + events == trace;
    } else {
      Appended(trace, events[0]);
      assert trace + events == trace + [events[0]];
    }
  }

  lemma SeedOfCore(core: Core, h: History, req: Request, env: Env)
    requires req.serviceId == SECURITY_ACCESS && req.subFunction % 0x80 == 1
    requires SecurityRuns.SeedAnswered(core.levels, h, LEVEL_1, env.sec, env.firstAt,
                                       Security.RequestSeedSpec(core.levels, LEVEL_1, env.sec, env.firstAt))
    ensures var o := DispatchSpec(core, req, env);
            && o.core.session == core.session && |o.events| <= 1
            && SeedReply(h, req, env, if o.events == [] then h else Observe(h, o.events[0], LEVEL_1), o.response)
  {
    hide Security.RequestSeedSpec, SecurityRuns.LockedByFailures, SecurityRuns.SeedPending;
  }

  lemma KeyOfCore(core: Core, h: History, req: Request, env: Env)
    requires req.serviceId == SECURITY_ACCESS && req.subFunction % 0x80 == 2
    requires SecurityRuns.KeyAnswered(
               core.levels, h, LEVEL_1 + 1, req.payload, env.sec, env.firstAt, env.secondAt,
               Security.SendKeySpec(core.levels, LEVEL_1 + 1, req.payload, env.sec, env.firstAt, env.secondAt))
    ensures var o := DispatchSpec(core, req, env);
            && o.core.session == core.session && |o.events| <= 1
            && KeyReply(h, req, env, if o.events == [] then h else Observe(h, o.events[0], LEVEL_1), o.response)
  {
    hide Security.SendKeySpec, SecurityRuns.KeyPut, SecurityRuns.KeyJudged;
  }

  lemma SecurityOfCore(core: Core, trace: Trace, clock: nat, req: Request, env: Env)
    requires Sound(core, trace, clock) && req.serviceId == SECURITY_ACCESS
    ensures var o := DispatchSpec(core, req, env);
            && o.core.session == core.session
            && SecurityReply(HistoryOf(trace, LEVEL_1), req, env, HistoryOf(trace + o.events, LEVEL_1), o.response)
  {
    var o, h := DispatchSpec(core, req, env), HistoryOf(trace, LEVEL_1);
    assert Security.Reflects(Security.At(core.levels, LEVEL_1), h, clock);
    hide Sound, Security.Reflects, HistoryOf, SecurityRuns.SeedAnswered, SecurityRuns.KeyAnswered, SeedReply, KeyReply;
    if req.subFunction % 0x80 == 1 {
      SecurityRuns.SeedFromEntry(core.levels, LEVEL_1, h, clock, env.sec, env.firstAt);
      SeedOfCore(core, h, req, env);
    } else if req.subFunction % 0x80 == 2 {
      SecurityRuns.KeyFromEntry(core.levels, LEVEL_1 + 1, h, clock, req.payload, env.sec, env.firstAt, env.secondAt);
      KeyOfCore(core, h, req, env);
    }
    hide DispatchSpec;
    HistoryAfter(trace, o.events);
  }

  /** From every reachable state and for every 0x27 request: the reply by its causes, and the
      history of level 1 afterwards. Level 1 is unlocked by the request exactly if it is an
      answered key. */
  lemma SecurityAnswer(w: Wiring, inputs: seq<Input>, req: Request, env: Env)
    requires Timely(w, inputs) && Run(w, inputs).service.initialized && Ordered(env, Run(w, inputs).clock)
    requires req.serviceId == SECURITY_ACCESS
    ensures var r, o := Run(w, inputs), ProcessSpec(Run(w, inputs).service, req, env);
            var h, h' := HistoryOf(r.trace, LEVEL_1), HistoryOf(r.trace + o.events, LEVEL_1);
            && SecurityReply(h, req, env, h', o.response)
            && o.service.core.session == AfterS3(r.service.core, env.s3At).session
            && (!Security.Unlocked(r.service.core.levels, LEVEL_1) && Security.Unlocked(o.service.core.levels, LEVEL_1)
                <==> req.subFunction % 0x80 == 2 && o.response.positive)
  {
    hide Run, Timely;
    EveryRun(w, inputs);
    var r := Run(w, inputs);
    SecurityOfService(r.service, r.trace, r.clock, req, env);
  }

  lemma SecurityOfService(s: Service, trace: Trace, clock: nat, req: Request, env: Env)
    requires s.initialized && Sound(s.core, trace, clock) && Ordered(env, clock) && req.serviceId == SECURITY_ACCESS
    ensures var o := ProcessSpec(s, req, env);
            var h, h' := HistoryOf(trace, LEVEL_1), HistoryOf(trace + o.events, LEVEL_1);
            && SecurityReply(h, req, env, h', o.response)
            && o.service.core.session == AfterS3(s.core, env.s3At).session
            && (!Security.Unlocked(s.core.levels, LEVEL_1) && Security.Unlocked(o.service.core.levels, LEVEL_1)
                <==> req.subFunction % 0x80 == 2 && o.response.positive)
  {
    hide Sound, DispatchSpec, CheckS3Spec, HistoryOf, SecurityReply, Security.Unlocked;
    var o, core, checked := ProcessSpec(s, req, env), AfterS3(s.core, env.s3At), CheckS3(s.core, env.s3At).events;
    CheckS3Sound(s.core, trace, clock, env.s3At);
    CheckIsNoSecurity(s.core, trace, env.s3At);
    SecurityOfCore(core, trace + checked, env.s3At, req, env);
    ServeSound(s.core, trace, clock, req, env);
    var h := DispatchSpec(core, req, env);
    assert trace + (checked + h.events) == trace + checked + h.events;
    ServiceTheorems.UnlockKeyOfLevel1(s.core, trace, clock);
    ServiceTheorems.UnlockKeyOfLevel1(h.core, trace + o.events, env.secondAt);
    UnlockingReply(HistoryOf(trace, LEVEL_1), req, env, HistoryOf(trace + o.events, LEVEL_1), o.response);
  }

  lemma CheckIsNoSecurity(core: Core, trace: Trace, now: nat)
    ensures HistoryOf(trace + CheckS3(core, now).events, LEVEL_1) == HistoryOf(trace, LEVEL_1)
  {
    hide HistoryOf;
    HistoryAfter(trace, CheckS3(core, now).events);
  }

  lemma UnlockingReply(h: History, req: Request, env: Env, h': History, response: Response)
    requires SecurityReply(h, req, env, h', response)
    ensures h.last != Verified && h'.last == Verified <==> req.subFunction % 0x80 == 2 && response.positive
  {
  }

  // ---- 0x31: routines ---------------------------------------------------

  /** The operation an identifier stands for, with its arguments: none for an unknown
      identifier, a VIN that is too short, or an empty certificate. */
  function RoutineOf(rid: u16, payload: bytes): Option<Operation> {
    match rid
    case 0xFF00 => if |payload| < 17 then None else Some(WriteVin(payload[..17], payload[17..]))
    case 0xFF01 => Some(GenerateKeyPair)
    case 0xFF02 => Some(GetCsr)
    case 0xFF03 => if payload == [] then None else Some(InjectCertificate(payload))
    case _ => None
  }

  predicate ForSec(rid: u16) { rid == 0xFF01 || rid == 0xFF02 || rid == 0xFF03 }

  /** What the service behind an operation reported. */
  predicate Reported(op: Operation, env: Env) {
    match op
    case GenerateKeyPair => env.sec.keyPairMade
    case GetCsr => env.sec.csrMade
    case InjectCertificate(_) => env.sec.certInstalled
    case WriteVin(_, _) => env.prov.writeCode == Success
    case ReadVin => env.prov.readValid
  }

  function ReportedData(op: Operation, env: Env): bytes { if op.GetCsr? then env.sec.csr else [] }

  /** The code for a call that failed: a refused certificate is told apart by its class. */
  function FailureCode(op: Operation, env: Env): byte {
    if !op.InjectCertificate? then 0x72
    else match env.sec.certFailure
      case SecGone => 0x22
      case StateNotAllowed => 0x24
      case InvalidFormat => 0x31
      case KeyMismatch => 0x31
      case CertExpired => 0x31
      case StorageFailed => 0x72
      case UnknownFailure => 0x72
      case NoFailure => 0x72
  }

  /** The refusal that comes before any call, if there is one. */
  function GateCode(kind: SessionKind, unlocked: bool, req: Request, env: Env): Option<byte> {
    if ForSec(req.didOrRid) && kind != Programming then Some(0x7F)
    else if !unlocked then Some(0x33)
    else if !(if ForSec(req.didOrRid) then env.sec.available else env.prov.available) then Some(0x22)
    else if RoutineOf(req.didOrRid, req.payload).Some? then None
    else if req.didOrRid == 0xFF00 || req.didOrRid == 0xFF03 then Some(0x13)
    else Some(0x31)
  }

  /** The reply of a routine, and the call it made. */
  ghost predicate RoutineAnswered(kind: SessionKind, unlocked: bool, req: Request, env: Env,
                                  calls: Trace, response: Response)
  {
    match GateCode(kind, unlocked, req, env)
    case Some(nrc) => calls == [] && Refused(response, 0x31, nrc)
    case None =>
      var op := RoutineOf(req.didOrRid, req.payload).value;
      && calls == [Called(op)]
      && if Reported(op, env) then
           Answered(response,
                    [0x71, req.subFunction, req.didOrRid / 0x100, req.didOrRid % 0x100] + ReportedData(op, env))
         else Refused(response, 0x31, FailureCode(op, env))
  }

  lemma RoutineBytes(req: Request, data: bytes)
    ensures forall nrc: byte :: Refused(Negative(ROUTINE_CONTROL, nrc), 0x31, nrc)
    ensures Answered(Positive(ROUTINE_CONTROL, req.subFunction, Big16(req.didOrRid) + data),
                     [0x71, req.subFunction, req.didOrRid / 0x100, req.didOrRid % 0x100] + data)
  {
  }

  lemma CertificateOfCore(core: Core, req: Request, env: Env)
    requires ForSec(req.didOrRid) && core.session.kind == Programming
    ensures var h := CertificateSpec(core, req, env.sec);
            && h.core == core
            && RoutineAnswered(Programming, Security.Unlocked(core.levels, LEVEL_1), req, env, h.events, h.response)
  {
    RoutineBytes(req, []);
    RoutineBytes(req, env.sec.csr);
    hide Security.Unlocked, Refused, Answered, Positive, Negative, EncodeSpec, Big16;
    assert Big16(req.didOrRid) + [] == Big16(req.didOrRid);
  }

  lemma ProvOfCore(core: Core, req: Request, env: Env)
    requires !ForSec(req.didOrRid)
    ensures var h := ProvRoutineSpec(core, req, env.prov);
            && h.core == core
            && RoutineAnswered(core.session.kind, Security.Unlocked(core.levels, LEVEL_1), req, env,
                               h.events, h.response)
  {
    hide Security.Unlocked;
  }

  lemma RoutineOfCore(core: Core, req: Request, env: Env)
    requires req.serviceId == ROUTINE_CONTROL
    ensures var h := DispatchSpec(core, req, env);
            && h.core == core
            && RoutineAnswered(core.session.kind, Security.Unlocked(core.levels, LEVEL_1), req, env,
                               h.events, h.response)
  {
    hide CertificateSpec, ProvRoutineSpec, Security.Unlocked;
    if ForSec(req.didOrRid) {
      if core.session.kind == Programming {
        CertificateOfCore(core, req, env);
        hide RoutineAnswered;
      }
    } else {
      ProvOfCore(core, req, env);
      hide RoutineAnswered;
    }
  }

  /** From every reachable state and for every 0x31 request: which call is made with which
      arguments, and that the tester reads what came of it. The session is the one after the
      S3 check; unlocked means that the last event of level 1 is an accepted key. */
  lemma RoutineAnswer(w: Wiring, inputs: seq<Input>, req: Request, env: Env)
    requires Timely(w, inputs) && Run(w, inputs).service.initialized && Ordered(env, Run(w, inputs).clock)
    requires req.serviceId == ROUTINE_CONTROL
    ensures var r, o := Run(w, inputs), ProcessSpec(Run(w, inputs).service, req, env);
            var checked := CheckS3(r.service.core, env.s3At).events;
            && o.service.core == AfterS3(r.service.core, env.s3At)
            && checked <= o.events
            && RoutineAnswered(o.service.core.session.kind, HistoryOf(r.trace, LEVEL_1).last == Verified, req, env,
                               o.events[|checked|..], o.response)
  {
    hide Run, Timely, Sound, RoutineAnswered, DispatchSpec, CheckS3Spec, HistoryOf;
    EveryRun(w, inputs);
    var r := Run(w, inputs);
    ServiceTheorems.UnlockKeyOfLevel1(r.service.core, r.trace, r.clock);
    RoutineOfCore(AfterS3(r.service.core, env.s3At), req, env);
  }

  // ---- 0x22: reads ------------------------------------------------------

  ghost predicate ReadAnswered(req: Request, env: Env, calls: Trace, response: Response) {
    var known := req.didOrRid == 0xF190 || req.didOrRid == 0xF191;
    && calls == (if known && env.prov.available then [Called(ReadVin)] else [])
    && if !known then Refused(response, 0x22, 0x31)
       else if !env.prov.available || !env.prov.readValid then Refused(response, 0x22, 0x22)
       else Answered(response, [0x62, 0xF1, if req.didOrRid == 0xF190 then 0x90 else 0x91]
                               + (if req.didOrRid == 0xF190 then env.prov.vin else env.prov.bindState))
  }

  lemma ReadOfCore(core: Core, req: Request, env: Env)
    requires req.serviceId == READ_DATA
    ensures var h := DispatchSpec(core, req, env); h.core == core && ReadAnswered(req, env, h.events, h.response)
  {
  }

  /** In every state: the VIN for F190, the binding state for F191, without any gate. */
  lemma ReadAnswer(s: Service, req: Request, env: Env)
    requires s.initialized && req.serviceId == READ_DATA
    ensures var o, checked := ProcessSpec(s, req, env), CheckS3(s.core, env.s3At).events;
            && o.service == s.(core := AfterS3(s.core, env.s3At))
            && checked <= o.events && ReadAnswered(req, env, o.events[|checked|..], o.response)
  {
    ReadOfCore(AfterS3(s.core, env.s3At), req, env);
    hide CheckS3Spec, DispatchSpec, ReadAnswered;
  }

  // ---- Every other service ----------------------------------------------

  lemma UnknownServiceAnswer(s: Service, req: Request, env: Env)
    requires s.initialized
    requires req.serviceId !in {0x10, 0x22, 0x27, 0x31, 0x3E}
    ensures var o := ProcessSpec(s, req, env);
            && Refused(o.response, req.serviceId, 0x11)
            && o.service == s.(core := AfterS3(s.core, env.s3At)) && o.events == CheckS3(s.core, env.s3At).events
  {
    hide CheckS3Spec;
    assert CheckS3(s.core, env.s3At).events + [] == CheckS3(s.core, env.s3At).events;
  }

  // ---- A certificate from the tester to SEC and back --------------------

  /** The reply to a certificate, by what the SEC client returns. */
  function CertificateReply(asked: bool, result: u32, req: Request): bytes {
    if asked && result == 0 then [0x71, req.subFunction, 0xFF, 0x03]
    else if !asked || result == 8002 || result == 8005 then [0x7F, 0x31, 0x22]
    else if result == 8001 || result == 1003 then [0x7F, 0x31, 0x24]
    else if result == 4001 || result == 4002 || result == 4003 then [0x7F, 0x31, 0x31]
    else [0x7F, 0x31, 0x72]
  }

  /** With the SEC adapter behind the service, an admitted certificate is put to the client
      exactly once if the connection is there or comes back, and the client's code alone
      decides what the tester reads. */
  lemma CertificateReachesSec(core: Core, req: Request, env: Env, c: Reconnect.Connection, t: Reconnect.Try,
                              a: SecIpc.Answer)
    requires req.serviceId == ROUTINE_CONTROL && req.didOrRid == 0xFF03 && req.payload != []
    requires core.session.kind == Programming && Security.Unlocked(core.levels, LEVEL_1) && env.sec.available
    requires var o := SecIpc.InjectSpec(c, req.payload, t, a);
             env.sec.certInstalled == o.ok && env.sec.certFailure == o.failure
    ensures var o, asked := SecIpc.InjectSpec(c, req.payload, t, a), Reconnect.EnsureSpec(c, t).ok;
            && o.calls == (if asked then [SecIpc.InjectCall(req.payload)] else [])
            && o.connection == (var e := Reconnect.EnsureSpec(c, t).connection;
                                if asked then e.(connected := a.staysConnected) else e)
            && EncodeSpec(DispatchSpec(core, req, env).response) == CertificateReply(asked, a.result, req)
            && DispatchSpec(core, req, env).events == [Called(InjectCertificate(req.payload))]
  {
    hide Security.Unlocked, Reconnect.EnsureSpec;
    RoutineOfCore(core, req, env);
  }

  // ---- Life cycle -------------------------------------------------------

  /** A start succeeds exactly if the service already runs, or the configuration loads and
      both services are set; the code names the first thing missing. A fresh start forgets
      session and security. */
  lemma StartAnswer(s: Service, configOk: bool, now: nat)
    ensures var o := InitializeSpec(s, configOk, now);
            && (o.service.initialized <==> s.initialized || (configOk && s.haveSec && s.haveProv))
            && (o.code == Success <==> o.service.initialized)
            && (o.code == ConfigLoadFailed <==> !s.initialized && !configOk)
            && (o.code == SecUnavailable <==> !s.initialized && configOk && !s.haveSec)
            && (o.code == ProvUnavailable <==> !s.initialized && configOk && s.haveSec && !s.haveProv)
            && (s.initialized || !configOk ==> o.service == s && o.events == [])
            && (o.service.initialized && !s.initialized ==> Fresh(o.service.core))
            && o.service.transport == s.transport
  {
  }

  /** Setting the services decides about the next start. A new SEC locks every level at once;
      neither touches the session or the link. */
  lemma ServicesSet(s: Service, haveSec: bool, haveProv: bool, configOk: bool, now: nat)
    ensures var withSec := SetSecSpec(s, haveSec).service;
            var withBoth := SetProvSpec(withSec, haveProv).service;
            && (InitializeSpec(withBoth, configOk, now).service.initialized
                <==> s.initialized || (configOk && haveSec && haveProv))
            && withSec.core.levels == map[] && withSec.core.session == s.core.session
            && withBoth.core == withSec.core && withBoth.transport == s.transport
            && withBoth.initialized == s.initialized
  {
  }

  /** Nothing is unlocked or pending, the session is default and nobody's: whoever sends
      tester present or a key is refused. */
  ghost predicate Fresh(core: Core) {
    && core.session.kind == Default && core.session.owner == 0 && core.session.state == Idle
    && forall level: byte :: Security.At(core.levels, level) == Security.FRESH_LEVEL
  }

  /** A service that has been shut down holds nothing, has let go of its tester, and
      refuses everything and reads nothing until it is started again. */
  lemma ShutdownAnswer(s: Service, req: Request, env: Env, ready: bool, accepted: Option<bytes>)
    ensures var s' := ShutdownSpec(s).service;
            && !s'.initialized && Fresh(s'.core)
            && (s'.transport.Some? <==> s.transport.Some?)
            && (s'.transport.Some? ==> !s'.transport.value.connected && !s'.transport.value.open
                                       && s'.transport.value.output == s.transport.value.output)
            && Refused(ProcessSpec(s', req, env).response, 0, 0x22) && ProcessSpec(s', req, env).service == s'
            && PollSpec(s', ready, accepted, env).service == s'
  {
  }
}
