/** Security access as it is deployed: on the SEC adapter, whose connection comes and goes. */
module SecurityOverSec {
  import opened DiagTypes
  import opened EventTrace
  import opened Reconnect
  import opened Security
  import opened SecIpc
  import Runs = SecurityRuns

  /** The adapter's part in one operation: the availability test, what happens to the
      connection after it, and up to two uses of the connection with what the client would
      answer. */
  datatype Script = Script(available: Try, between: Disturbance, first: Try, a: Answer, second: Try, b: Answer)

  datatype Op =
    | RequestSeed(level: byte, now: nat, script: Script)
    | SendKey(level: byte, key: bytes, checkedAt: nat, failedAt: nat, script: Script)
    | Lock(level: byte)
    | Reset
    | Others(between: Disturbance)    // the peer closes, or others use the adapter

  datatype Stack = Stack(levels: Levels, connection: Connection, trace: Trace, clock: nat, calls: seq<ClientCall>)

  /** Where an operation ends when the client is not called. */
  function Stop(s: Stack, connection: Connection, clock: nat): Stack {
    s.(connection := connection, clock := clock)
  }

  /** The connection as `get_seed` and `verify_key` find it. */
  function Entering(s: Stack, x: Script): Connection {
    Disturbed(EnsureSpec(s.connection, x.available).connection, x.between)
  }

  function RequestSeedStep(s: Stack, level: byte, now: nat, x: Script): Stack {
    var e := EnsureSpec(s.connection, x.available);
    if !e.ok || LockedOut(s.levels, level, now) then Stop(s, e.connection, now)
    else
      var g := GetSeedSpec(Entering(s, x), level, x.first, x.a, x.second, x.b);
      var s' := Stop(s, g.connection, now).(calls := s.calls + g.calls);
      if !g.ok then s'
      else
        s'.(trace := s.trace + [SeedGranted(level)],
            levels := s.levels[level := LevelState(level, true, g.data, false,
                                                   At(s.levels, level).attemptCount, At(s.levels, level).lockedUntil)])
  }

  function SendKeyStep(s: Stack, level: byte, key: bytes, checkedAt: nat, failedAt: nat, x: Script): Stack {
    var e := EnsureSpec(s.connection, x.available);
    var l := SeedLevel(level);
    var entry := At(s.levels, l);
    if !e.ok || LockedOut(s.levels, l, checkedAt) then Stop(s, e.connection, failedAt)
    else if !entry.seedRequested then Stop(s, e.connection, failedAt).(levels := s.levels[l := entry])
    else
      var v := VerifyKeySpec(Entering(s, x), level, key, x.first, x.a);
      var s' := Stop(s, v.connection, failedAt).(calls := s.calls + v.calls);
      if v.ok then
        s'.(trace := s.trace + [KeyVerified(l, level, key)], levels := s.levels[l := AfterSuccess(entry)])
      else
        s'.(trace := s.trace + [KeyFailed(l, level, key, failedAt)],
            levels := s.levels[l := AfterFailure(entry, failedAt)])
  }

  function Step(s: Stack, op: Op): Stack {
    match op
    case RequestSeed(level, now, script) => RequestSeedStep(s, level, now, script)
    case SendKey(level, key, checkedAt, failedAt, script) => SendKeyStep(s, level, key, checkedAt, failedAt, script)
    case Lock(level) =>
      s.(levels := LockSpec(s.levels, level).levels, trace := s.trace + [LevelLocked(level)])
    case Reset => s.(levels := map[], trace := s.trace + [SecurityReset])
    case Others(between) => s.(connection := Disturbed(s.connection, between))
  }

  /** Security access calling the adapter. */
  class SecurityOnAdapter {
    const adapter: SecIpcAdapter
    const security: SecurityAccess

    constructor (adapter: SecIpcAdapter, security: SecurityAccess)
      ensures this.adapter == adapter && this.security == security
    {
      this.adapter, this.security := adapter, security;
    }

    ghost function Value(clock: nat): Stack
      reads adapter, adapter.connector, security, security.log
    {
      Stack(security.states, adapter.connector.Value(), security.log.events, clock, adapter.calls)
    }

    method RequestSeed(level: byte, now: nat, x: Script, ghost clock: nat) returns (code: ErrorCode, seed: bytes)
      modifies adapter, adapter.connector, security, security.log
      ensures Value(now) == RequestSeedStep(old(Value(clock)), level, now, x)
      ensures code == Success <==> security.log.events == old(security.log.events) + [SeedGranted(level)]
      ensures code == Success ==> level in security.states && seed == security.states[level].requestedSeed
    {
      seed := [];
      var available := adapter.connector.EnsureConnected(x.available);
      if !available {
        return SecUnavailable, seed;
      }
      if security.IsLockedOut(level, now) {
        return SecurityAccessDenied, seed;
      }
      adapter.connector.Disturb(x.between);
      var granted: bool;
      granted, seed := adapter.GetSeed(level, x.first, x.a, x.second, x.b);
      if !granted {
        return SecUnavailable, seed;
      }
      security.KeepSeed(level, seed);
      code := Success;
    }

    method SendKey(level: byte, key: bytes, checkedAt: nat, failedAt: nat, x: Script, ghost clock: nat)
      returns (code: ErrorCode)
      modifies adapter, adapter.connector, security, security.log
      ensures Value(failedAt) == SendKeyStep(old(Value(clock)), level, key, checkedAt, failedAt, x)
      ensures code == Success
              <==> security.log.events == old(security.log.events) + [KeyVerified(SeedLevel(level), level, key)]
    {
      var available := adapter.connector.EnsureConnected(x.available);
      if !available {
        return SecUnavailable;
      }
      var seedLevel: byte := if level > 0 then level - 1 else level;
      if security.IsLockedOut(seedLevel, checkedAt) {
        return SecurityAccessDenied;
      }
      var pending := security.FindPending(seedLevel);
      if !pending {
        return SecurityAccessDenied;
      }
      adapter.connector.Disturb(x.between);
      var accepted := adapter.VerifyKey(level, key, x.first, x.a);
      code := security.KeepVerdict(seedLevel, level, key, accepted, failedAt);
      assert security.log.events[|security.log.events| - 1].KeyVerified? <==> accepted;
    }

    method Lock(level: byte, ghost clock: nat)
      modifies security, security.log
      ensures Value(clock) == Step(old(Value(clock)), Op.Lock(level))
    {
      security.Lock(level);
    }

    method Reset(ghost clock: nat)
      modifies security, security.log
      ensures Value(clock) == Step(old(Value(clock)), Op.Reset)
    {
      security.Reset();
    }
  }

  // ---- Runs, and the interface they refine ------------------------------

  function Run(c: Connection, ops: seq<Op>): Stack {
    if ops == [] then Stack(map[], c, [], 0, [])
    else Step(Run(c, ops[..|ops| - 1]), ops[|ops| - 1])
  }

  function AnswersOf(available: bool, o: AdapterOutcome): SecAnswers {
    SecAnswers(available, o.ok, o.data, o.ok, false, false, [], false, NoFailure)
  }

  /** The operation of the abstract interface, with what the adapter would answer. */
  function Abstract(s: Stack, op: Op): seq<Runs.Op> {
    match op
    case RequestSeed(level, now, x) =>
      var e := EnsureSpec(s.connection, x.available);
      var g := GetSeedSpec(Entering(s, x), level, x.first, x.a, x.second, x.b);
      [Runs.RequestSeed(level, AnswersOf(e.ok, g), now)]
    case SendKey(level, key, checkedAt, failedAt, x) =>
      var e := EnsureSpec(s.connection, x.available);
      var v := VerifyKeySpec(Entering(s, x), level, key, x.first, x.a);
      [Runs.SendKey(level, key, AnswersOf(e.ok, v), checkedAt, failedAt)]
    case Lock(level) => [Runs.Lock(level)]
    case Reset => [Runs.Reset]
    case Others(_) => []
  }

  function Abstracted(c: Connection, ops: seq<Op>): seq<Runs.Op> {
    if ops == [] then []
    else Abstracted(c, ops[..|ops| - 1]) + Abstract(Run(c, ops[..|ops| - 1]), ops[|ops| - 1])
  }

  ghost predicate Matches(s: Stack, r: Runs.RunState) {
    s.levels == r.levels && s.trace == r.trace && s.clock == r.clock
  }

  lemma StepMatches(s: Stack, op: Op, r: Runs.RunState)
    requires Matches(s, r) && !op.Others?
    ensures |Abstract(s, op)| == 1 && Matches(Step(s, op), Runs.Then(r, Abstract(s, op)[0]))
  {
    assert s.trace + [] == s.trace;
  }

  /** Every run on the adapter goes through the entries and the trace of a run of the
      interface, the one with the adapter's answers. */
  lemma {:induction false} StackRefines(c: Connection, ops: seq<Op>)
    ensures Matches(Run(c, ops), Runs.Run(Abstracted(c, ops)))
  {
    if ops != [] {
      var front, op := ops[..|ops| - 1], ops[|ops| - 1];
      var s := Run(c, front);
      StackRefines(c, front);
      hide Step, Runs.Then, Abstract;
      var a := Abstracted(c, ops);
      if op.Others? {
        OthersAreSilent(s, op);
        assert a == Abstracted(c, front);
      } else {
        StepMatches(s, op, Runs.Run(Abstracted(c, front)));
        assert a[..|a| - 1] == Abstracted(c, front);
      }
    }
  }

  lemma OthersAreSilent(s: Stack, op: Op)
    requires op.Others?
    ensures Abstract(s, op) == [] && Step(s, op) == s.(connection := Step(s, op).connection)
  {
  }

  // ---- When the client is called ----------------------------------------

  function VerifyCalls(calls: seq<ClientCall>, level: byte): nat {
    if calls == [] then 0
    else
      var last := calls[|calls| - 1];
      VerifyCalls(calls[..|calls| - 1], level)
      + (if last.VerifyKeyCall? && SeedLevel(last.level) == level then 1 else 0)
  }

  function SeedCalls(calls: seq<ClientCall>, level: byte): nat {
    if calls == [] then 0
    else
      var last := calls[|calls| - 1];
      SeedCalls(calls[..|calls| - 1], level) + (if last == GetSeedCall(level) then 1 else 0)
  }

  function SeedRequests(ops: seq<Op>, level: byte): nat {
    if ops == [] then 0
    else
      var last := ops[|ops| - 1];
      SeedRequests(ops[..|ops| - 1], level) + (if last.RequestSeed? && last.level == level then 1 else 0)
  }

  lemma {:induction false} CallsAdd(a: seq<ClientCall>, b: seq<ClientCall>, level: byte)
    ensures VerifyCalls(a + b, level) == VerifyCalls(a, level) + VerifyCalls(b, level)
    ensures SeedCalls(a + b, level) == SeedCalls(a, level) + SeedCalls(b, level)
    decreases |b|
  {
    if b == [] {
      assert a + b == a;
    } else {
      CallsAdd(a, b[..|b| - 1], level);
      assert (a + b)[..|a + b| - 1] == a + b[..|b| - 1];
    }
  }

  /** A key that counts as failed although the client has not heard of it. */
  predicate Unheard(s: Stack, op: Op) {
    op.SendKey? && Step(s, op).calls == s.calls && |Step(s, op).trace| > |s.trace|
  }

  function UnheardKeys(c: Connection, ops: seq<Op>, level: byte): nat {
    if ops == [] then 0
    else
      var front, last := ops[..|ops| - 1], ops[|ops| - 1];
      UnheardKeys(c, front, level) + (if Unheard(Run(c, front), last) && SeedLevel(last.level) == level then 1 else 0)
  }

  /** What one step adds to the client calls and to the trace. */
  ghost predicate Adds(s: Stack, s': Stack, calls: seq<ClientCall>, events: Trace) {
    s'.calls == s.calls + calls && s'.trace == s.trace + events
  }

  /** A seed operation makes at most two seed calls. A key operation makes at most one
      verification; the trace gets one exactly for that call or for an unheard key. */
  ghost predicate CallsFit(op: Op, calls: seq<ClientCall>, events: Trace, unheard: bool) {
    && |calls| <= 2 && |events| <= 1
    && (forall i | 0 <= i < |calls| :: calls[i] == if op.RequestSeed? then GetSeedCall(op.level)
                                                   else if op.SendKey? then VerifyKeyCall(op.level, op.key)
                                                   else InjectCall([]))
    && (if op.SendKey? then
          && |calls| + (if unheard then 1 else 0) == |events|
          && forall e | e in events :: Verifies(e, SeedLevel(op.level))
        else
          && !unheard && (calls != [] ==> op.RequestSeed?)
          && forall e | e in events :: !e.KeyVerified? && !e.KeyFailed?)
  }

  ghost predicate Verifies(e: Event, level: byte) { (e.KeyVerified? || e.KeyFailed?) && e.level == level }

  lemma StepAdds(s: Stack, op: Op) returns (calls: seq<ClientCall>, events: Trace)
    ensures Adds(s, Step(s, op), calls, events) && CallsFit(op, calls, events, Unheard(s, op))
  {
    assert s.calls + [] == s.calls && s.trace + [] == s.trace;
    events := Step(s, op).trace[|s.trace|..];
    match op {
      case RequestSeed(level, _, x) =>
        calls := GetSeedSpec(Entering(s, x), level, x.first, x.a, x.second, x.b).calls;
      case SendKey(level, key, _, _, x) =>
        calls := VerifyKeySpec(Entering(s, x), level, key, x.first, x.a).calls;
      case _ =>
        calls := [];
    }
    calls := if Step(s, op).calls == s.calls then [] else calls;
  }

  lemma VerificationsAdd(trace: Trace, events: Trace, level: byte)
    requires |events| <= 1
    ensures HistoryOf(trace + events, level).verifications
            == HistoryOf(trace, level).verifications + (if events != [] && Verifies(events[0], level) then 1 else 0)
  {
    if events == [] {
      assert trace + events == trace;
    } else {
      Appended(trace, events[0]);
      assert trace + events == trace + [events[0]];
    }
  }

  lemma CallCounts(op: Op, calls: seq<ClientCall>, events: Trace, unheard: bool, level: byte)
    requires CallsFit(op, calls, events, unheard)
    ensures VerifyCalls(calls, level) + (if unheard && SeedLevel(op.level) == level then 1 else 0)
            == if events != [] && Verifies(events[0], level) then 1 else 0
    ensures SeedCalls(calls, level) <= (if op.RequestSeed? && op.level == level then 2 else 0)
  {
    if events != [] {
      assert events[0] in events;
    }
    if |calls| == 2 {
      CallsAdd([calls[0]], [calls[1]], level);
      assert calls == [calls[0]] + [calls[1]];
    }
  }

  /** Every verification of the trace is a key the client was asked about, or one it
      never heard of. */
  lemma {:induction false} CallsFollowTrace(c: Connection, ops: seq<Op>, level: byte)
    ensures HistoryOf(Run(c, ops).trace, level).verifications
            == VerifyCalls(Run(c, ops).calls, level) + UnheardKeys(c, ops, level)
    ensures SeedCalls(Run(c, ops).calls, level) <= 2 * SeedRequests(ops, level)
  {
    if ops != [] {
      hide Step, Unheard, HistoryOf, VerifyCalls, SeedCalls;
      var s, op := Run(c, ops[..|ops| - 1]), ops[|ops| - 1];
      CallsFollowTrace(c, ops[..|ops| - 1], level);
      var calls, events := StepAdds(s, op);
      CallCounts(op, calls, events, Unheard(s, op), level);
      CallsAdd(s.calls, calls, level);
      VerificationsAdd(s.trace, events, level);
    } else {
      assert VerifyCalls([], level) == 0 && SeedCalls([], level) == 0;
    }
  }

  /** Over every run, the keys put to the SEC client for a level, those it never heard of,
      and one if a seed is pending never exceed the seeds granted for it. */
  lemma ClientVerifiesOncePerSeed(c: Connection, ops: seq<Op>, level: byte)
    requires Runs.Timely(Abstracted(c, ops))
    ensures var s := Run(c, ops);
            VerifyCalls(s.calls, level) + UnheardKeys(c, ops, level)
            + (if At(s.levels, level).seedRequested then 1 else 0)
            <= HistoryOf(s.trace, level).seeds
  {
    hide Run, Abstracted, Runs.Run, UnheardKeys;
    StackRefines(c, ops);
    CallsFollowTrace(c, ops, level);
    Runs.OneSeedOneVerification(Abstracted(c, ops), level);
  }

  /** After every run the client hears of a seed request exactly when both connection
      tests succeed and the failures so far do not lock the level out; of a key, when in
      addition the last event of the level is a granted seed. */
  lemma ClientIsCalled(c: Connection, ops: seq<Op>, op: Op)
    requires Runs.Timely(Abstracted(c, ops)) && (op.RequestSeed? || op.SendKey?)
    ensures var s := Run(c, ops);
            var e := EnsureSpec(s.connection, op.script.available);
            var level := if op.RequestSeed? then op.level else SeedLevel(op.level);
            var h := HistoryOf(s.trace, level);
            Step(s, op).calls != s.calls <==>
              && e.ok && EnsureSpec(Entering(s, op.script), op.script.first).ok
              && !Runs.LockedByFailures(h.failures, if op.RequestSeed? then op.now else op.checkedAt)
              && (op.SendKey? ==> h.last == Seeded)
  {
    var level := if op.RequestSeed? then op.level else SeedLevel(op.level);
    var s, h := Run(c, ops), HistoryOf(Run(c, ops).trace, level);
    EntryOfRun(c, ops, level);
    hide Run, Abstracted, Runs.Timely;
    Runs.LockoutReadsFailures(s.levels, level, h, s.clock, if op.RequestSeed? then op.now else op.checkedAt);
    PendingReadsHistory(At(s.levels, level), h, s.clock);
    hide Reflects, Runs.LockedByFailures;
    StepCalls(s, op);
  }

  lemma EntryOfRun(c: Connection, ops: seq<Op>, level: byte)
    requires Runs.Timely(Abstracted(c, ops))
    ensures Reflects(At(Run(c, ops).levels, level), HistoryOf(Run(c, ops).trace, level), Run(c, ops).clock)
  {
    hide Run, Abstracted, Runs.Run, Reflects;
    StackRefines(c, ops);
    Runs.EveryEntry(Abstracted(c, ops), level);
  }

  lemma PendingReadsHistory(entry: LevelState, h: History, clock: nat)
    requires Reflects(entry, h, clock)
    ensures entry.seedRequested <==> h.last == Seeded
  {
  }

  lemma StepCalls(s: Stack, op: Op)
    requires op.RequestSeed? || op.SendKey?
    ensures var e := EnsureSpec(s.connection, op.script.available);
            Step(s, op).calls != s.calls <==>
              && e.ok && EnsureSpec(Entering(s, op.script), op.script.first).ok
              && (if op.RequestSeed? then !LockedOut(s.levels, op.level, op.now)
                  else !LockedOut(s.levels, SeedLevel(op.level), op.checkedAt)
                       && At(s.levels, SeedLevel(op.level)).seedRequested)
  {
    assert forall calls: seq<ClientCall> | calls != [] :: |s.calls + calls| > |s.calls|;
  }

  // ---- What the client's verdict leads to --------------------------------

  /** The entry of a key and its event say exactly what the client said. The key is verified
      if and only if it is put to SEC, the client can then be asked, and answers with success;
      it fails if and only if it is put to SEC and the client cannot be asked, or answers
      anything else. */
  ghost predicate VerdictTold(s: Stack, op: Op, s': Stack, h: History)
    requires op.SendKey?
  {
    var l := Runs.LevelBelow(op.level);
    var available := EnsureSpec(s.connection, op.script.available);
    var e := EnsureSpec(Entering(s, op.script), op.script.first);
    var put := Runs.KeyPut(h, available.ok, op.checkedAt);
    var asked := put && e.ok;
    var accepted := asked && op.script.a.result == 0;
    && s'.calls == s.calls + (if asked then [VerifyKeyCall(op.level, op.key)] else [])
    && s'.trace == s.trace + (if accepted then [KeyVerified(l, op.level, op.key)]
                              else if put then [KeyFailed(l, op.level, op.key, op.failedAt)] else [])
    && (!At(s.levels, l).unlocked && At(s'.levels, l).unlocked <==> accepted)
    && (put ==> Runs.KeyJudged(At(s'.levels, l), h, accepted, op.failedAt))
    && s'.connection == (if asked then e.connection.(connected := op.script.a.staysConnected)
                         else if put then e.connection else available.connection)
    && s'.clock == op.failedAt
  }

  lemma VerdictOfStep(s: Stack, op: Op, h: History)
    requires op.SendKey? && Reflects(At(s.levels, Runs.LevelBelow(op.level)), h, s.clock)
    ensures VerdictTold(s, op, Step(s, op), h)
  {
    var l := Runs.LevelBelow(op.level);
    Runs.LockoutReadsFailures(s.levels, l, h, s.clock, op.checkedAt);
    Runs.OneMore(|h.failures|);
    assert At(s.levels, l).attemptCount == |h.failures| % U32_SIZE;
    assert (At(s.levels, l).seedRequested <==> h.last == Seeded) && (At(s.levels, l).unlocked <==> h.last == Verified);
    hide EnsureSpec, Disturbed, Reflects, Runs.LockedByFailures;
    assert s.calls + [] == s.calls && s.trace + [] == s.trace;
  }

  lemma VerdictExactly(c: Connection, ops: seq<Op>, op: Op)
    requires Runs.Timely(Abstracted(c, ops)) && op.SendKey?
    ensures VerdictTold(Run(c, ops), op, Step(Run(c, ops), op),
                        HistoryOf(Run(c, ops).trace, Runs.LevelBelow(op.level)))
  {
    EntryOfRun(c, ops, Runs.LevelBelow(op.level));
    hide Run, Abstracted, Runs.Timely, VerdictTold;
    VerdictOfStep(Run(c, ops), op, HistoryOf(Run(c, ops).trace, Runs.LevelBelow(op.level)));
  }

  /** The same for a seed: the client is asked once, and a second time exactly when its first
      answer was a failed connection (code 8005) and the connection comes back. The seed is
      granted if and only if the last answer is success, and it is the one in that answer. */
  ghost predicate GrantTold(s: Stack, op: Op, s': Stack, h: History)
    requires op.RequestSeed?
  {
    var x := op.script;
    var available, e := EnsureSpec(s.connection, x.available), EnsureSpec(Entering(s, x), x.first);
    var put := available.ok && !Runs.LockedByFailures(h.failures, op.now);
    var asked := put && e.ok;
    var answered := e.connection.(connected := x.a.staysConnected);
    var e2 := EnsureSpec(answered, x.second);
    var again := asked && x.a.result == 8005 && e2.ok;
    var last := if again then x.b else x.a;
    var granted := asked && last.result == 0;
    && s'.calls == s.calls + (if again then [GetSeedCall(op.level), GetSeedCall(op.level)]
                              else if asked then [GetSeedCall(op.level)] else [])
    && s'.trace == s.trace + (if granted then [SeedGranted(op.level)] else [])
    && (if granted then Runs.SeedPending(s.levels, s'.levels, op.level, last.data) else s'.levels == s.levels)
    && s'.connection == (if again then e2.connection.(connected := x.b.staysConnected)
                         else if asked && x.a.result == 8005 then e2.connection
                         else if asked then answered
                         else if put then e.connection else available.connection)
    && s'.clock == op.now
  }

  lemma GrantOfStep(s: Stack, op: Op, h: History)
    requires op.RequestSeed? && Reflects(At(s.levels, op.level), h, s.clock)
    ensures GrantTold(s, op, Step(s, op), h)
  {
    Runs.LockoutReadsFailures(s.levels, op.level, h, s.clock, op.now);
    hide EnsureSpec, Disturbed, Reflects, Runs.LockedByFailures;
    assert s.calls + [] == s.calls && s.trace + [] == s.trace;
  }

  lemma GrantExactly(c: Connection, ops: seq<Op>, op: Op)
    requires Runs.Timely(Abstracted(c, ops)) && op.RequestSeed?
    ensures GrantTold(Run(c, ops), op, Step(Run(c, ops), op), HistoryOf(Run(c, ops).trace, op.level))
  {
    EntryOfRun(c, ops, op.level);
    hide Run, Abstracted, Runs.Timely, GrantTold;
    GrantOfStep(Run(c, ops), op, HistoryOf(Run(c, ops).trace, op.level));
  }

  // ---- Keys the client never hears of -----------------------------------

  /** After every run a key counts as failed without a client call exactly when the service
      was available, a seed is pending, the failures so far do not lock the level out, and
      the connection is lost by the time the key is put to the client. */
  lemma UnheardExactly(c: Connection, ops: seq<Op>, op: Op)
    requires Runs.Timely(Abstracted(c, ops)) && op.SendKey?
    ensures var s, s' := Run(c, ops), Step(Run(c, ops), op);
            var h := HistoryOf(s.trace, SeedLevel(op.level));
            && (Unheard(s, op) <==>
                  && EnsureSpec(s.connection, op.script.available).ok
                  && !EnsureSpec(Entering(s, op.script), op.script.first).ok
                  && !Runs.LockedByFailures(h.failures, op.checkedAt)
                  && h.last == Seeded)
            && (Unheard(s, op) ==> s'.levels == s.levels[SeedLevel(op.level) :=
                                     AfterFailure(At(s.levels, SeedLevel(op.level)), op.failedAt)])
  {
    var level := SeedLevel(op.level);
    var s, h := Run(c, ops), HistoryOf(Run(c, ops).trace, level);
    EntryOfRun(c, ops, level);
    hide Run, Abstracted, Runs.Timely;
    Runs.LockoutReadsFailures(s.levels, level, h, s.clock, op.checkedAt);
    PendingReadsHistory(At(s.levels, level), h, s.clock);
    hide Reflects, Runs.LockedByFailures;
    UnheardStep(s, op);
  }

  lemma UnheardStep(s: Stack, op: Op)
    requires op.SendKey?
    ensures var level := SeedLevel(op.level);
            && (Unheard(s, op) <==>
                  && EnsureSpec(s.connection, op.script.available).ok
                  && !EnsureSpec(Entering(s, op.script), op.script.first).ok
                  && !LockedOut(s.levels, level, op.checkedAt) && At(s.levels, level).seedRequested)
            && (Unheard(s, op) ==>
                  Step(s, op).levels == s.levels[level := AfterFailure(At(s.levels, level), op.failedAt)])
  {
  }

  lemma RunExtends(c: Connection, ops: seq<Op>, op: Op)
    ensures Run(c, ops + [op]) == Step(Run(c, ops), op)
    ensures Abstracted(c, ops + [op]) == Abstracted(c, ops) + Abstract(Run(c, ops), op)
  {
    hide Step, Abstract;
    assert (ops + [op])[..|ops + [op]| - 1] == ops;
  }

  /** Operations that begin no earlier than the run ended. */
  ghost predicate Later(op: Op, clock: nat) {
    || (op.RequestSeed? && clock <= op.now)
    || (op.SendKey? && clock <= op.checkedAt <= op.failedAt)
  }

  lemma AbstractOnTime(s: Stack, op: Op, clock: nat)
    requires Later(op, clock)
    ensures |Abstract(s, op)| == 1 && Runs.OnTime(Abstract(s, op)[0], clock)
  {
  }

  lemma TimelyExtends(ops: seq<Runs.Op>, op: Runs.Op)
    requires Runs.Timely(ops) && Runs.OnTime(op, Runs.Run(ops).clock)
    ensures Runs.Timely(ops + [op])
  {
    hide Runs.Run, Runs.OnTime;
    assert (ops + [op])[..|ops + [op]| - 1] == ops;
  }

  lemma Extend(c: Connection, ops: seq<Op>, op: Op)
    requires Runs.Timely(Abstracted(c, ops)) && Later(op, Run(c, ops).clock)
    ensures Run(c, ops + [op]) == Step(Run(c, ops), op)
    ensures Runs.Timely(Abstracted(c, ops + [op]))
  {
    hide Step, Run, Abstracted, Abstract, Later, Runs.Run, Runs.OnTime, Runs.Timely;
    StackRefines(c, ops);
    RunExtends(c, ops, op);
    AbstractOnTime(Run(c, ops), op, Run(c, ops).clock);
    var a := Abstract(Run(c, ops), op);
    assert a == [a[0]];
    TimelyExtends(Abstracted(c, ops), a[0]);
  }

  /** A seed at `at`, and a key right after it that meets a closed connection. */
  function LostRound(at: nat): seq<Op> {
    var answer, up, down := Answer(SEC_SUCCESS, [], true), Disturbance(true, None), Disturbance(false, None);
    [RequestSeed(LEVEL_1, at, Script(Try(at, true), up, Try(at, true), answer, Try(at, true), answer)),
     SendKey(LEVEL_1 + 1, [], at, at, Script(Try(at, true), down, Try(at, false), answer, Try(at, false), answer))]
  }

  predicate MayConnect(c: Connection, at: nat) {
    EnsureSpec(c, Try(at, true)).ok && (c.attempted ==> c.lastAttempt <= at)
  }

  /** The adapter can reconnect at `at`, and level 1 has failed `n` times without the client
      having heard of a key. */
  ghost predicate Lost(c: Connection, ops: seq<Op>, n: nat, at: nat) {
    var s := Run(c, ops);
    && Runs.Timely(Abstracted(c, ops)) && s.clock <= at && MayConnect(s.connection, at)
    && At(s.levels, LEVEL_1).attemptCount == n && VerifyCalls(s.calls, LEVEL_1) == 0
  }

  lemma LostAgain(c: Connection, ops: seq<Op>, n: nat, at: nat)
    requires Lost(c, ops, n, at) && n < MAX_ATTEMPTS
    ensures Lost(c, ops + LostRound(at), n + 1, at + MIN_INTERVAL)
    ensures n + 1 == MAX_ATTEMPTS ==> LockedOut(Run(c, ops + LostRound(at)).levels, LEVEL_1, at)
  {
    hide Run, Abstracted, Runs.Timely, VerifyCalls;
    var seed, key := LostRound(at)[0], LostRound(at)[1];
    LostSteps(Run(c, ops), n, at);
    hide Step;
    Extend(c, ops, seed);
    Extend(c, ops + [seed], key);
    assert ops + LostRound(at) == ops + [seed] + [key];
    CallsAdd(Run(c, ops).calls, [GetSeedCall(LEVEL_1)], LEVEL_1);
    SeedIsNoVerification();
  }

  lemma LostSteps(s: Stack, n: nat, at: nat)
    requires MayConnect(s.connection, at)
    requires At(s.levels, LEVEL_1).attemptCount == n < MAX_ATTEMPTS
    ensures var seeded := Step(s, LostRound(at)[0]);
            var s' := Step(seeded, LostRound(at)[1]);
            && seeded.clock == s'.clock == at
            && s'.calls == s.calls + [GetSeedCall(LEVEL_1)]
            && At(s'.levels, LEVEL_1).attemptCount == n + 1
            && (n + 1 == MAX_ATTEMPTS ==> LockedOut(s'.levels, LEVEL_1, at))
            && MayConnect(s'.connection, at + MIN_INTERVAL)
  {
    LostSeed(s, at);
    LostKey(Step(s, LostRound(at)[0]), at);
  }

  lemma LostSeed(s: Stack, at: nat)
    requires MayConnect(s.connection, at) && At(s.levels, LEVEL_1).attemptCount < MAX_ATTEMPTS
    ensures var s' := Step(s, LostRound(at)[0]);
            && s'.calls == s.calls + [GetSeedCall(LEVEL_1)] && s'.clock == at
            && At(s'.levels, LEVEL_1).seedRequested
            && At(s'.levels, LEVEL_1).attemptCount == At(s.levels, LEVEL_1).attemptCount
            && s'.connection.present && s'.connection.connected
            && (s'.connection.attempted ==> s'.connection.lastAttempt <= at)
  {
  }

  lemma LostKey(s: Stack, at: nat)
    requires s.connection.present && s.connection.connected
    requires s.connection.attempted ==> s.connection.lastAttempt <= at
    requires At(s.levels, LEVEL_1).attemptCount < MAX_ATTEMPTS && At(s.levels, LEVEL_1).seedRequested
    ensures var s' := Step(s, LostRound(at)[1]);
            && s'.calls == s.calls && s'.clock == at
            && s'.levels == s.levels[LEVEL_1 := AfterFailure(At(s.levels, LEVEL_1), at)]
            && MayConnect(s'.connection, at + MIN_INTERVAL)
  {
    assert s.calls + [] == s.calls;
  }

  lemma SeedIsNoVerification()
    ensures VerifyCalls([GetSeedCall(LEVEL_1)], LEVEL_1) == 0
  {
  }

  function RoundAt(n: nat): nat { if n == 0 then 0 else RoundAt(n - 1) + MIN_INTERVAL }

  function LostRounds(n: nat): seq<Op> {
    if n == 0 then [] else LostRounds(n - 1) + LostRound(RoundAt(n - 1))
  }

  lemma {:induction false} LostRoundsLost(c: Connection, n: nat)
    requires c == Connection(true, true, false, 0) && n <= MAX_ATTEMPTS
    ensures Lost(c, LostRounds(n), n, RoundAt(n))
    ensures n == MAX_ATTEMPTS ==> LockedOut(Run(c, LostRounds(n)).levels, LEVEL_1, Run(c, LostRounds(n)).clock)
  {
    if n == 0 {
      NothingLost(c);
    } else {
      hide Lost, LockedOut, Run, LostRound, Step, Abstracted, Runs.Timely;
      LostRoundsLost(c, n - 1);
      LostAgain(c, LostRounds(n - 1), n - 1, RoundAt(n - 1));
      LostClock(c, LostRounds(n - 1), RoundAt(n - 1));
    }
  }

  /** Hence the level can be locked out for ten seconds by keys none of which SEC has seen. */
  lemma LockedOutUnheard() returns (c: Connection, ops: seq<Op>)
    ensures Runs.Timely(Abstracted(c, ops)) && VerifyCalls(Run(c, ops).calls, LEVEL_1) == 0
    ensures LockedOut(Run(c, ops).levels, LEVEL_1, Run(c, ops).clock)
  {
    c, ops := Connection(true, true, false, 0), LostRounds(MAX_ATTEMPTS);
    hide *;
    LostRoundsLost(c, MAX_ATTEMPTS);
    LostMeans(c, ops, MAX_ATTEMPTS, RoundAt(MAX_ATTEMPTS));
  }

  lemma NothingLost(c: Connection)
    requires c == Connection(true, true, false, 0)
    ensures Lost(c, [], 0, 0)
  {
  }

  lemma LostMeans(c: Connection, ops: seq<Op>, n: nat, at: nat)
    requires Lost(c, ops, n, at)
    ensures Runs.Timely(Abstracted(c, ops)) && VerifyCalls(Run(c, ops).calls, LEVEL_1) == 0
  {
  }

  lemma LostClock(c: Connection, ops: seq<Op>, at: nat)
    ensures Run(c, ops + LostRound(at)).clock == at
  {
    assert ops + LostRound(at) == ops + [LostRound(at)[0]] + [LostRound(at)[1]];
  }
}
