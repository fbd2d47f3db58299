/** What a tester, an integrator or an auditor can rely on over every run of the
    diagnostic service. */
module ServiceTheorems {
  import opened DiagTypes
  import opened EventTrace
  import opened TraceTheorems
  import Security
  import SecurityRuns
  import opened Sessions
  import opened Dispatch
  import opened Codec
  import opened DiagServer
  import opened ServiceRuns

  // ---- Safety of privileged calls ---------------------------------------

  /** Every key generation, CSR, certificate injection and VIN write of every run was
      earned by a granted level-1 seed and an accepted key with nothing about level 1
      since; the certificate calls also happened in a standing programming session. */
  lemma PrivilegedCalls(w: Wiring, inputs: seq<Input>, i: nat)
    requires Timely(w, inputs)
    requires var trace := Run(w, inputs).trace; i < |trace| && trace[i].Called? && Privileged(trace[i].op)
    ensures var trace := Run(w, inputs).trace;
            && (exists granted: nat, verified: nat :: UnlockedBy(trace[..i], LEVEL_1, granted, verified))
            && (CertificateCall(trace[i].op) ==> exists s: nat :: ProgrammingSince(trace[..i], s))
  {
    hide Perform, PowerOn;
    EveryRun(w, inputs);
    PrivilegedCallIsEarned(Run(w, inputs).trace, i);
  }

  /** Level 1 is unlocked exactly when the last thing that happened to it is an accepted
      key, and no request path creates an entry for any other level. */
  lemma UnlockedMeansVerified(w: Wiring, inputs: seq<Input>)
    requires Timely(w, inputs)
    ensures var r := Run(w, inputs);
            && (Security.Unlocked(r.service.core.levels, LEVEL_1) <==> HistoryOf(r.trace, LEVEL_1).last == Verified)
            && r.service.core.levels.Keys <= {LEVEL_1}
  {
    hide Perform, PowerOn;
    EveryRun(w, inputs);
    UnlockKeyOfLevel1(Run(w, inputs).service.core, Run(w, inputs).trace, Run(w, inputs).clock);
  }

  lemma UnlockKeyOfLevel1(core: Core, trace: Trace, clock: nat)
    requires Sound(core, trace, clock)
    ensures Security.Unlocked(core.levels, LEVEL_1) <==> HistoryOf(trace, LEVEL_1).last == Verified
  {
  }

  /** The way out of a lockout, from every reachable state of the service: a seed request
      that SEC would grant is refused exactly while the failures of level 1 lock it out; once
      granted, a key that SEC accepts unlocks the level. */
  lemma SecurityIsAvailable(w: Wiring, inputs: seq<Input>, seedReq: Request, env: Env, keyReq: Request, keyEnv: Env)
    requires Timely(w, inputs) && Run(w, inputs).service.initialized
    requires Ordered(env, Run(w, inputs).clock) && Ordered(keyEnv, env.secondAt)
    requires seedReq.serviceId == keyReq.serviceId == SECURITY_ACCESS
    requires seedReq.subFunction % 0x80 == LEVEL_1 && keyReq.subFunction % 0x80 == LEVEL_1 + 1
    requires env.sec.available && env.sec.seedGranted && keyEnv.sec.available && keyEnv.sec.keyAccepted
    ensures var seed := ProcessSpec(Run(w, inputs).service, seedReq, env);
            var sent := ProcessSpec(seed.service, keyReq, keyEnv);
            var locked := SecurityRuns.LockedByFailures(HistoryOf(Run(w, inputs).trace, LEVEL_1).failures, env.firstAt);
            && (seed.response.positive <==> !locked)
            && (if locked then seed.response.nrc == NRC_SECURITY_DENIED
                else sent.response.positive && Security.Unlocked(sent.service.core.levels, LEVEL_1))
  {
    hide Perform, PowerOn;
    var r := Run(w, inputs);
    EveryRun(w, inputs);
    hide Run;
    LockoutOfLevel1(r.service.core, r.trace, r.clock, env.firstAt);
    hide SecurityRuns.LockedByFailures, HistoryOf;
    SecurityRuns.GrantThenAcceptUnlocks(r.service.core.levels, LEVEL_1, env.sec, env.firstAt,
                                        keyReq.payload, keyEnv.sec, keyEnv.firstAt, keyEnv.secondAt);
  }

  lemma LockoutOfLevel1(core: Core, trace: Trace, clock: nat, now: nat)
    requires Sound(core, trace, clock)
    ensures Security.LockedOut(core.levels, LEVEL_1, now)
            <==> SecurityRuns.LockedByFailures(HistoryOf(trace, LEVEL_1).failures, now)
  {
    SecurityRuns.LockoutReadsFailures(core.levels, LEVEL_1, HistoryOf(trace, LEVEL_1), clock, now);
  }

  /** The failure rate bound, over whole runs of the service. */
  lemma ServiceFailureRate(w: Wiring, inputs: seq<Input>, m: nat, n: nat)
    requires Timely(w, inputs) && m <= n < |HistoryOf(Run(w, inputs).trace, LEVEL_1).failures|
    ensures var f := HistoryOf(Run(w, inputs).trace, LEVEL_1).failures;
            f[n] - f[m] >= (Delayed(n + 1) - Delayed(m + 1)) * LOCKOUT
  {
    hide Perform, PowerOn, Delayed;
    EveryRun(w, inputs);
    StreakSpaced(Run(w, inputs).trace, LEVEL_1);
    StreakSpan(HistoryOf(Run(w, inputs).trace, LEVEL_1).failures, m, n);
  }

  // ---- Sessions ---------------------------------------------------------

  /** A chain of refreshes by one owner whose last link an S3 check at `now` still finds
      recent enough. */
  ghost predicate LiveChain(trace: Trace, chain: seq<nat>, owner: u16, now: nat) {
    KeepaliveChain(trace, chain, owner) && WholeMs(now - trace[chain[|chain| - 1]].at) <= S3_MS
  }

  /** A session is still not default right after the S3 check of a request at `now` exactly
      when its owner has kept it alive by a chain of refreshes: each checked against the
      one before, the last within S3 of `now`. */
  lemma KeptAlive(w: Wiring, inputs: seq<Input>, now: nat)
    requires Timely(w, inputs) && Run(w, inputs).clock <= now
    ensures var r := Run(w, inputs);
            AfterS3(r.service.core, now).session.kind != Default
            <==> exists chain :: LiveChain(r.trace, chain, r.service.core.session.owner, now)
  {
    hide Perform, PowerOn, Sound, AfterS3, LiveChain;
    var r := Run(w, inputs);
    EveryRun(w, inputs);
    if AfterS3(r.service.core, now).session.kind != Default {
      DisciplineKeepsChain(r.service.core, r.trace, r.clock);
      LastRefreshIsRecent(r.service.core, r.trace, r.clock, now);
    }
    forall chain | LiveChain(r.trace, chain, r.service.core.session.owner, now)
      ensures AfterS3(r.service.core, now).session.kind != Default
    {
      ChainKeepsSession(r.service.core, r.trace, r.clock, chain, now);
    }
  }

  lemma DisciplineKeepsChain(core: Core, trace: Trace, clock: nat)
    requires Sound(core, trace, clock)
    ensures ChainKept(trace)
  {
    ChainOf(trace);
  }

  lemma LastRefreshIsRecent(core: Core, trace: Trace, clock: nat, now: nat)
    requires Sound(core, trace, clock) && ChainKept(trace)
    requires AfterS3(core, now).session.kind != Default
    ensures exists chain :: LiveChain(trace, chain, core.session.owner, now)
  {
    assert LiveChain(trace, ViewOf(trace).chain, core.session.owner, now);
  }

  lemma ChainKeepsSession(core: Core, trace: Trace, clock: nat, chain: seq<nat>, now: nat)
    requires Sound(core, trace, clock) && clock <= now && LiveChain(trace, chain, core.session.owner, now)
    ensures AfterS3(core, now).session.kind != Default
  {
    ChainMeansSession(trace, chain, core.session.owner);
    WholeMsMonotone(now - core.session.lastTesterPresent, now - trace[chain[|chain| - 1]].at);
  }

  lemma WholeMsMonotone(a: nat, b: nat)
    requires a <= b
    ensures WholeMs(a) <= WholeMs(b)
  {
  }

  /** Between two non-default sessions of different owners the session was default. */
  lemma OwnersHandOverThroughDefault(w: Wiring, inputs: seq<Input>, i: nat, j: nat)
    requires Timely(w, inputs) && i <= j <= |Run(w, inputs).trace|
    requires var trace := Run(w, inputs).trace;
             && ViewOf(trace[..i]).kind != Default && ViewOf(trace[..j]).kind != Default
             && ViewOf(trace[..i]).owner != ViewOf(trace[..j]).owner
    ensures exists k :: i < k < j && ViewOf(Run(w, inputs).trace[..k]).kind == Default
  {
    hide Perform, PowerOn;
    EveryRun(w, inputs);
    var k := HandOver(Run(w, inputs).trace, i, j);
  }

  /** Unless the session has timed out, a request of any tester but its owner leaves a
      non-default session exactly as it was: type, owner and last refresh. */
  lemma OtherTestersCannotTouch(w: Wiring, inputs: seq<Input>, req: Request, env: Env)
    requires Timely(w, inputs) && Ordered(env, Run(w, inputs).clock)
    requires var session := Run(w, inputs).service.core.session;
             && session.kind != Default && req.source != session.owner
             && WholeMs(env.s3At - session.lastTesterPresent) <= S3_MS
    ensures var s := Run(w, inputs).service; ProcessSpec(s, req, env).service.core.session == s.core.session
  {
    hide Perform, PowerOn;
    var r := Run(w, inputs);
    EveryRun(w, inputs);
    StrangerIsRefused(r.service.core, req, env);
  }

  lemma StrangerIsRefused(core: Core, req: Request, env: Env)
    requires core.session.kind != Default && core.session.state == Active && req.source != core.session.owner
    ensures DispatchSpec(core, req, env).core.session == core.session
  {
  }

  /** The session counterpart of a lockout that ends: from every reachable state a request
      for a known session type is accepted exactly when the session is default, its owner
      asks, or it has been idle for more than 5000 whole ms; then it is the requester's. */
  lemma SessionIsAvailable(w: Wiring, inputs: seq<Input>, req: Request, env: Env)
    requires Timely(w, inputs) && Ordered(env, Run(w, inputs).clock) && Run(w, inputs).service.initialized
    requires req.serviceId == SESSION_CONTROL && KindOf(req.subFunction % 0x80).Some?
    ensures var session := Run(w, inputs).service.core.session;
            var o := ProcessSpec(Run(w, inputs).service, req, env);
            && (o.response.positive <==>
                  || session.kind == Default || req.source == session.owner
                  || WholeMs(env.s3At - session.lastTesterPresent) > S3_MS)
            && (o.response.positive ==> Holds(o.service.core.session, req.source, req.subFunction % 0x80, env.secondAt))
  {
    hide Perform, PowerOn;
    EveryRun(w, inputs);
    hide Run;
    SwitchAccepted(AfterS3(Run(w, inputs).service.core, env.s3At), req, env);
  }

  /** A tester has just been given a session. */
  ghost predicate Holds(session: Session, owner: u16, sessionType: byte, now: nat) {
    && session.owner == owner && KindOf(sessionType) == Some(session.kind)
    && session.state == Active && session.lastTesterPresent == now
  }

  lemma SwitchAccepted(core: Core, req: Request, env: Env)
    requires core.session.kind != Default ==> core.session.state == Active
    requires req.serviceId == SESSION_CONTROL && KindOf(req.subFunction % 0x80).Some?
    ensures var h := DispatchSpec(core, req, env);
            && (h.response.positive <==> core.session.kind == Default || req.source == core.session.owner)
            && (if h.response.positive then Holds(h.core.session, req.source, req.subFunction % 0x80, env.secondAt)
                else h.core == core)
  {
  }

  // ---- Replies ----------------------------------------------------------

  /** What the bytes of a reply say about the bytes of the request. */
  predicate NegativeTo(raw: bytes, reply: bytes)
    requires raw != []
  {
    |reply| == 3 && reply[0] == NEGATIVE_RESPONSE && reply[1] == raw[0] && reply[2] != 0
  }

  predicate PositiveTo(raw: bytes, reply: bytes)
    requires Decodable(raw)
  {
    if raw[0] == SESSION_CONTROL then reply == [0x50, raw[1] % 0x80, 0x13, 0x88, 0x01, 0xF4]
    else if raw[0] == TESTER_PRESENT then reply == [0x7E, raw[1]]
    else if raw[0] == SECURITY_ACCESS then [0x67, raw[1]] <= reply
    else if raw[0] == READ_DATA then [0x62, raw[1], raw[2]] <= reply
    else if raw[0] == ROUTINE_CONTROL then [0x71, raw[1], raw[2], raw[3]] <= reply
    else false
  }

  /** For every decodable message from any tester in any state, the dispatcher's reply is
      either the three-byte refusal of that service or its positive reply echoing the
      request; the first byte alone tells which. */
  lemma DispatchEcho(core: Core, raw: bytes, source: u16, env: Env)
    requires Decodable(raw)
    ensures var response := DispatchSpec(core, DecodeSpec(raw, FRESH_REQUEST.(source := source)), env).response;
            var reply := EncodeSpec(response);
            && (if response.positive then PositiveTo(raw, reply) else NegativeTo(raw, reply))
            && (reply[0] == NEGATIVE_RESPONSE <==> !response.positive)
  {
    hide RoutineControlSpec;
    var req := DecodeSpec(raw, FRESH_REQUEST.(source := source));
    if raw[0] == ROUTINE_CONTROL {
      Join16RoundTrip(raw[2], raw[3]);
      RoutineEcho(core, req, env);
    } else if raw[0] == READ_DATA {
      Join16RoundTrip(raw[1], raw[2]);
    }
  }

  /** The service answers in this way exactly when it is initialized, or when the message
      asks for service 0: before initialization it refuses service 0, whatever was asked. */
  lemma EndToEndEcho(s: Service, raw: bytes, source: u16, env: Env)
    requires Decodable(raw)
    ensures var response := ProcessSpec(s, DecodeSpec(raw, FRESH_REQUEST.(source := source)), env).response;
            var reply := EncodeSpec(response);
            && (PositiveTo(raw, reply) || NegativeTo(raw, reply) <==> s.initialized || raw[0] == 0)
            && (PositiveTo(raw, reply) <==> response.positive)
            && (reply[0] == NEGATIVE_RESPONSE <==> !response.positive)
  {
    hide DispatchSpec, DecodeSpec;
    if s.initialized {
      DispatchEcho(AfterS3(s.core, env.s3At), raw, source, env);
    }
  }

  lemma RoutineEcho(core: Core, req: Request, env: Env)
    ensures var response := RoutineControlSpec(core, req, env).response;
            if response.positive then
              && response.serviceId == 0x71 && response.subFunction == req.subFunction
              && Big16(req.didOrRid) <= response.payload
            else response.subFunction == ROUTINE_CONTROL && response.nrc != 0
  {
  }
}
