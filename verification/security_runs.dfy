/** Arbitrary runs of the SecurityAccess interface, on any levels and in any order,
    and what holds over all of them. */
module SecurityRuns {
  import opened DiagTypes
  import opened EventTrace
  import opened Security
  import opened TraceTheorems

  datatype Op =
    | RequestSeed(level: byte, sec: SecAnswers, now: nat)
    | SendKey(level: byte, key: bytes, sec: SecAnswers, checkedAt: nat, failedAt: nat)
    | Lock(level: byte)
    | Reset

  function Perform(levels: Levels, op: Op): Outcome {
    match op
    case RequestSeed(level, sec, now) => RequestSeedSpec(levels, level, sec, now)
    case SendKey(level, key, sec, checkedAt, failedAt) => SendKeySpec(levels, level, key, sec, checkedAt, failedAt)
    case Lock(level) => LockSpec(levels, level)
    case Reset => ResetSpec()
  }

  /** The clock readings of an operation are ordered and not before `clock`. */
  predicate OnTime(op: Op, clock: nat) {
    match op
    case RequestSeed(_, _, now) => clock <= now
    case SendKey(_, _, _, checkedAt, failedAt) => clock <= checkedAt <= failedAt
    case _ => true
  }

  function ClockAfter(op: Op, clock: nat): nat {
    match op
    case RequestSeed(_, _, now) => now
    case SendKey(_, _, _, _, failedAt) => failedAt
    case _ => clock
  }

  datatype RunState = RunState(levels: Levels, trace: Trace, clock: nat)

  function Run(ops: seq<Op>): RunState {
    if ops == [] then RunState(map[], [], 0)
    else Then(Run(ops[..|ops| - 1]), ops[|ops| - 1])
  }

  function Then(r: RunState, op: Op): RunState {
    var o := Perform(r.levels, op);
    RunState(o.levels, r.trace + o.events, ClockAfter(op, r.clock))
  }

  predicate Timely(ops: seq<Op>) {
    ops == [] || (Timely(ops[..|ops| - 1]) && OnTime(ops[|ops| - 1], Run(ops[..|ops| - 1]).clock))
  }

  function Past(ops: seq<Op>, level: byte): History { HistoryOf(Run(ops).trace, level) }

  lemma {:induction false} EveryRun(ops: seq<Op>)
    requires Timely(ops)
    ensures var r := Run(ops); LevelsReflect(r.levels, r.trace, r.clock) && Disciplined(r.trace)
  {
    if ops == [] {
      NothingReflects(0);
    } else {
      var r, op := Run(ops[..|ops| - 1]), ops[|ops| - 1];
      EveryRun(ops[..|ops| - 1]);
      match op
      case RequestSeed(level, sec, now) => RequestSeedReflects(r.levels, r.trace, r.clock, level, sec, now, now);
      case SendKey(level, key, sec, checkedAt, failedAt) =>
        SendKeyReflects(r.levels, r.trace, r.clock, level, key, sec, checkedAt, failedAt);
      case Lock(level) => LockReflects(r.levels, r.trace, r.clock, level);
      case Reset => ResetReflects(r.levels, r.trace, r.clock, r.clock);
    }
  }

  lemma EveryEntry(ops: seq<Op>, level: byte)
    requires Timely(ops)
    ensures Reflects(At(Run(ops).levels, level), Past(ops, level), Run(ops).clock)
    ensures Spaced(Past(ops, level).failures)
  {
    EveryRun(ops);
    StreakSpaced(Run(ops).trace, level);
  }

  // ---- Unlocked means: the last thing that happened was an accepted key --

  lemma UnlockedEntry(entry: LevelState, h: History, clock: nat)
    requires Reflects(entry, h, clock) && entry.unlocked
    ensures !entry.seedRequested && entry.attemptCount == 0
  {
  }

  /** A sendKey level stands for the seed level below it. */
  lemma UnlockedMeansVerifiedLast(ops: seq<Op>, level: byte)
    requires Timely(ops)
    ensures var l: byte := if level % 2 == 0 && level > 0 then level - 1 else level;
            && (Unlocked(Run(ops).levels, level) <==> Past(ops, l).last == Verified)
            && (Unlocked(Run(ops).levels, level) ==>
                  !At(Run(ops).levels, l).seedRequested && At(Run(ops).levels, l).attemptCount == 0)
  {
    EveryEntry(ops, UnlockKey(level));
    if Unlocked(Run(ops).levels, level) {
      UnlockedEntry(At(Run(ops).levels, UnlockKey(level)), Past(ops, UnlockKey(level)), Run(ops).clock);
    }
  }

  /** Each granted seed pays for at most one verification. */
  lemma OneSeedOneVerification(ops: seq<Op>, level: byte)
    requires Timely(ops)
    ensures var h := Past(ops, level);
            h.verifications + (if At(Run(ops).levels, level).seedRequested then 1 else 0) <= h.seeds
  {
    EveryEntry(ops, level);
  }

  // ---- Lockout, and the way out of it -----------------------------------

  /** The lockout as a function of the failures alone: nothing but a failed verification can
      start or extend it, and it lasts 10 s from the last one. */
  predicate LockedByFailures(failures: seq<nat>, now: nat) {
    |failures| % 0x1_0000_0000 >= 3 && now < failures[|failures| - 1] + 10_000_000_000
  }

  lemma LockoutReadsFailures(levels: Levels, level: byte, h: History, clock: nat, now: nat)
    requires Reflects(At(levels, level), h, clock)
    ensures LockedOut(levels, level, now) <==> LockedByFailures(h.failures, now)
  {
  }

  lemma GrantThenAcceptUnlocks(levels: Levels, level: byte, seedSec: SecAnswers, now: nat,
                               key: bytes, keySec: SecAnswers, checkedAt: nat, failedAt: nat)
    requires now <= checkedAt && level < 0xFF
    requires seedSec.available && seedSec.seedGranted && keySec.available && keySec.keyAccepted
    ensures var seed := RequestSeedSpec(levels, level, seedSec, now);
            var sent := SendKeySpec(seed.levels, level + 1, key, keySec, checkedAt, failedAt);
            && (seed.code == Success <==> !LockedOut(levels, level, now))
            && (seed.code == Success ==> sent.code == Success && At(sent.levels, level).unlocked)
  {
  }

  /** From every reachable state, a seed that SEC would grant is refused exactly during
      that lockout; once granted, a key that SEC accepts unlocks the level. */
  lemma Recovery(ops: seq<Op>, level: byte, seedSec: SecAnswers, now: nat,
                 key: bytes, keySec: SecAnswers, checkedAt: nat, failedAt: nat)
    requires Timely(ops) && Run(ops).clock <= now <= checkedAt <= failedAt
    requires level < 0xFF
    requires seedSec.available && seedSec.seedGranted && keySec.available && keySec.keyAccepted
    ensures var seed := Perform(Run(ops).levels, RequestSeed(level, seedSec, now));
            var sent := Perform(seed.levels, SendKey(level + 1, key, keySec, checkedAt, failedAt));
            && (seed.code == Success <==> !LockedByFailures(Past(ops, level).failures, now))
            && (seed.code == Success ==> sent.code == Success && At(sent.levels, level).unlocked)
  {
    EveryEntry(ops, level);
    LockoutReadsFailures(Run(ops).levels, level, Past(ops, level), Run(ops).clock, now);
    GrantThenAcceptUnlocks(Run(ops).levels, level, seedSec, now, key, keySec, checkedAt, failedAt);
  }

  // ---- What every operation answers -------------------------------------

  /** Exactly the entry of `level` has changed, to a pending seed of a locked level. */
  ghost predicate SeedPending(levels: Levels, levels': Levels, level: byte, seed: bytes) {
    var entry := At(levels', level);
    && levels' == levels[level := entry]
    && entry.level == level && entry.seedRequested && !entry.unlocked && entry.requestedSeed == seed
    && entry.attemptCount == At(levels, level).attemptCount && entry.lockedUntil == At(levels, level).lockedUntil
  }

  /** When a seed request succeeds, is denied or finds SEC unavailable, and what it leaves
      behind, given the history of its level. */
  ghost predicate SeedAnswered(levels: Levels, h: History, level: byte, sec: SecAnswers, now: nat, o: Outcome) {
    var locked := LockedByFailures(h.failures, now);
    && (o.code == Success <==> sec.available && !locked && sec.seedGranted)
    && (o.code == SecurityAccessDenied <==> sec.available && locked)
    && (o.code == SecUnavailable <==> !sec.available || (!locked && !sec.seedGranted))
    && o.events == (if o.code == Success then [SeedGranted(level)] else [])
    && (if o.code == Success then SeedPending(levels, o.levels, level, sec.seed) && o.seed == sec.seed
        else o.levels == levels)
  }

  lemma SeedFromEntry(levels: Levels, level: byte, h: History, clock: nat, sec: SecAnswers, now: nat)
    requires Reflects(At(levels, level), h, clock)
    ensures SeedAnswered(levels, h, level, sec, now, RequestSeedSpec(levels, level, sec, now))
  {
    LockoutReadsFailures(levels, level, h, clock, now);
    hide Reflects, LockedByFailures;
  }

  lemma SeedAnswer(ops: seq<Op>, level: byte, sec: SecAnswers, now: nat)
    requires Timely(ops) && Run(ops).clock <= now
    ensures SeedAnswered(Run(ops).levels, Past(ops, level), level, sec, now,
                         Perform(Run(ops).levels, RequestSeed(level, sec, now)))
  {
    EveryEntry(ops, level);
    hide Run, Past, Timely, SeedAnswered;
    SeedFromEntry(Run(ops).levels, level, Past(ops, level), Run(ops).clock, sec, now);
  }

  /** SEC is asked about a key: it is there, the failures of the level do not lock it out,
      and a seed is pending. */
  predicate KeyPut(h: History, available: bool, checkedAt: nat) {
    available && !LockedByFailures(h.failures, checkedAt) && h.last == Seeded
  }

  /** What a judged key leaves behind: an unlocked level without failures, or one more
      failure and, at the limit, a lockout. */
  ghost predicate KeyJudged(entry: LevelState, h: History, accepted: bool, failedAt: nat) {
    && !entry.seedRequested && (entry.unlocked <==> accepted)
    && (accepted ==> entry.attemptCount == 0)
    && (!accepted ==>
          && entry.attemptCount == (|h.failures| + 1) % U32_SIZE
          && (entry.attemptCount >= MAX_ATTEMPTS ==> entry.lockedUntil == failedAt + LOCKOUT))
  }

  /** The level below, whose seed a key answers. */
  function LevelBelow(level: byte): byte { if level > 0 then level - 1 else 0 }

  /** What a key is answered, given the history of the level below: success exactly for a
      key that is put to SEC and accepted; a key that SEC rejects is denied and counted; no
      other entry changes. */
  ghost predicate KeyAnswered(levels: Levels, h: History, level: byte, key: bytes, sec: SecAnswers,
                              checkedAt: nat, failedAt: nat, o: Outcome) {
    var l, judged := LevelBelow(level), KeyPut(h, sec.available, checkedAt);
    && (o.code == Success <==> judged && sec.keyAccepted)
    && (o.code == SecUnavailable <==> !sec.available)
    && (o.code == SecurityAccessDenied <==> sec.available && !(judged && sec.keyAccepted))
    && o.events == (if !judged then []
                    else if sec.keyAccepted then [KeyVerified(l, level, key)]
                    else [KeyFailed(l, level, key, failedAt)])
    && (forall other: byte | other != l || !judged :: At(o.levels, other) == At(levels, other))
    && (judged ==> KeyJudged(At(o.levels, l), h, sec.keyAccepted, failedAt))
  }

  lemma OneMore(n: nat)
    ensures (n % U32_SIZE + 1) % U32_SIZE == (n + 1) % U32_SIZE
  {
  }

  lemma KeyFromEntry(levels: Levels, level: byte, h: History, clock: nat, key: bytes, sec: SecAnswers,
                     checkedAt: nat, failedAt: nat)
    requires Reflects(At(levels, LevelBelow(level)), h, clock)
    ensures KeyAnswered(levels, h, level, key, sec, checkedAt, failedAt,
                        SendKeySpec(levels, level, key, sec, checkedAt, failedAt))
  {
    LockoutReadsFailures(levels, LevelBelow(level), h, clock, checkedAt);
    OneMore(|h.failures|);
    assert At(levels, LevelBelow(level)).attemptCount == |h.failures| % U32_SIZE;
    assert At(levels, LevelBelow(level)).seedRequested <==> h.last == Seeded;
    hide Reflects, LockedByFailures;
  }

  lemma KeyAnswer(ops: seq<Op>, level: byte, key: bytes, sec: SecAnswers, checkedAt: nat, failedAt: nat)
    requires Timely(ops) && Run(ops).clock <= checkedAt <= failedAt
    ensures KeyAnswered(Run(ops).levels, Past(ops, LevelBelow(level)), level, key, sec, checkedAt, failedAt,
                        Perform(Run(ops).levels, SendKey(level, key, sec, checkedAt, failedAt)))
  {
    EveryEntry(ops, LevelBelow(level));
    hide Run, Past, Timely, KeyAnswered;
    KeyFromEntry(Run(ops).levels, level, Past(ops, LevelBelow(level)), Run(ops).clock, key, sec, checkedAt, failedAt);
  }

  // ---- Lockouts are bounded ---------------------------------------------

  lemma LockoutEnds(levels: Levels, level: byte, h: History, clock: nat, now: nat)
    requires Reflects(At(levels, level), h, clock) && clock + LOCKOUT <= now
    ensures !LockedOut(levels, level, now)
  {
  }

  /** A lockout is over at the latest 10 s after the clock reached its present reading. */
  lemma LockoutIsBounded(ops: seq<Op>, level: byte, now: nat)
    requires Timely(ops) && Run(ops).clock + LOCKOUT <= now
    ensures !LockedOut(Run(ops).levels, level, now)
  {
    EveryEntry(ops, level);
    LockoutEnds(Run(ops).levels, level, Past(ops, level), Run(ops).clock, now);
  }

  // ---- Failure rate -----------------------------------------------------

  /** Over any run, the time between the m-th and the n-th failure of a streak is at
      least one lockout per delayed failure. */
  lemma FailureRate(ops: seq<Op>, level: byte, m: nat, n: nat)
    requires Timely(ops) && m <= n < |Past(ops, level).failures|
    ensures var f := Past(ops, level).failures; f[n] - f[m] >= (Delayed(n + 1) - Delayed(m + 1)) * LOCKOUT
  {
    EveryEntry(ops, level);
    StreakSpan(Past(ops, level).failures, m, n);
  }

  /** From the third to the 2^32-th failure of a streak it takes (2^32 - 3) lockouts. */
  lemma LongStreakTakesTime(failures: seq<nat>)
    requires Spaced(failures) && |failures| >= U32_SIZE
    ensures failures[U32_SIZE - 1] - failures[MAX_ATTEMPTS - 1] >= (U32_SIZE - MAX_ATTEMPTS) * LOCKOUT
    ensures failures[|failures| - 1] >= (U32_SIZE - MAX_ATTEMPTS) * LOCKOUT
  {
    DelayedClosed(U32_SIZE);
    DelayedClosed(MAX_ATTEMPTS);
    StreakSpan(failures, MAX_ATTEMPTS - 1, U32_SIZE - 1);
    StreakAscends(failures, U32_SIZE - 1, |failures| - 1);
  }

  lemma {:induction false} StreakAscends(failures: seq<nat>, m: nat, n: nat)
    requires Spaced(failures) && m <= n < |failures|
    ensures failures[m] <= failures[n]
    decreases n
  {
    if m < n {
      StreakAscends(failures, m, n - 1);
    }
  }

  lemma CounterBeforeWrap(entry: LevelState, h: History, clock: nat)
    requires Reflects(entry, h, clock) && Spaced(h.failures)
    ensures var f := h.failures;
            if |f| < U32_SIZE then entry.attemptCount == |f|
            else
              && f[U32_SIZE - 1] - f[MAX_ATTEMPTS - 1] >= (U32_SIZE - MAX_ATTEMPTS) * LOCKOUT
              && clock >= (U32_SIZE - MAX_ATTEMPTS) * LOCKOUT
  {
    if |h.failures| >= U32_SIZE {
      LongStreakTakesTime(h.failures);
    }
  }

  /** The attempt counter is the length of the streak unless it has wrapped, and then
      (2^32 - 3) lockouts lie between the third failure of the streak and the wrap. */
  lemma NoEarlyWrap(ops: seq<Op>, level: byte)
    requires Timely(ops)
    ensures var f := Past(ops, level).failures;
            if |f| < U32_SIZE then At(Run(ops).levels, level).attemptCount == |f|
            else
              && f[U32_SIZE - 1] - f[MAX_ATTEMPTS - 1] >= (U32_SIZE - MAX_ATTEMPTS) * LOCKOUT
              && Run(ops).clock >= (U32_SIZE - MAX_ATTEMPTS) * LOCKOUT
  {
    EveryEntry(ops, level);
    CounterBeforeWrap(At(Run(ops).levels, level), Past(ops, level), Run(ops).clock);
  }

  // ---- The rate bound is exact ------------------------------------------

  const REFUSING_SEC: SecAnswers := SecAnswers(true, true, [], false, false, false, [], false, NoFailure)

  /** Fail as fast as the lockout permits. */
  function Hammer(n: nat): seq<Op> {
    if n == 0 then []
    else
      var at := Delayed(n) * LOCKOUT;
      Hammer(n - 1) + [RequestSeed(LEVEL_1, REFUSING_SEC, at), SendKey(LEVEL_1 + 1, [], REFUSING_SEC, at, at)]
  }

  function HammerTimes(n: nat): (times: seq<nat>)
    ensures |times| == n
    ensures n > 0 ==> times[n - 1] == Delayed(n) * LOCKOUT
  {
    if n == 0 then [] else HammerTimes(n - 1) + [Delayed(n) * LOCKOUT]
  }

  lemma {:induction false} HammerRuns(n: nat)
    ensures Timely(Hammer(n))
    ensures n > 0 ==> Run(Hammer(n)).clock == Delayed(n) * LOCKOUT
    ensures n == 0 ==> Run(Hammer(n)).clock == 0
    ensures Past(Hammer(n), LEVEL_1).failures == HammerTimes(n)
  {
    if n > 0 {
      HammerRuns(n - 1);
      var at := Delayed(n) * LOCKOUT;
      EveryEntry(Hammer(n - 1), LEVEL_1);
      HammerMayGoOn(n);
      HammerStep(Run(Hammer(n - 1)), at);
      TwoMore(Hammer(n - 1), RequestSeed(LEVEL_1, REFUSING_SEC, at), SendKey(LEVEL_1 + 1, [], REFUSING_SEC, at, at));
    }
  }

  lemma TwoMore(ops: seq<Op>, a: Op, b: Op)
    ensures Run(ops + [a, b]) == Then(Then(Run(ops), a), b)
    ensures Timely(ops + [a, b]) <==> Timely(ops) && OnTime(a, Run(ops).clock) && OnTime(b, Then(Run(ops), a).clock)
  {
    var mid, all := ops + [a], ops + [a, b];
    assert mid[..|mid| - 1] == ops;
    assert all[..|all| - 1] == mid;
  }

  lemma HammerMayGoOn(n: nat)
    requires n > 0
    ensures n > 1 ==> Delayed(n - 1) * LOCKOUT <= Delayed(n) * LOCKOUT
    ensures !LockedByFailures(HammerTimes(n - 1), Delayed(n) * LOCKOUT)
  {
    LockoutsAdd(Delayed(n - 1));
  }

  lemma HammerEvents(levels: Levels, at: nat)
    requires !LockedOut(levels, LEVEL_1, at)
    ensures var seed := RequestSeedSpec(levels, LEVEL_1, REFUSING_SEC, at);
            var sent := SendKeySpec(seed.levels, LEVEL_1 + 1, [], REFUSING_SEC, at, at);
            seed.events == [SeedGranted(LEVEL_1)] && sent.events == [KeyFailed(LEVEL_1, LEVEL_1 + 1, [], at)]
  {
  }

  lemma HammerStep(r: RunState, at: nat)
    requires Reflects(At(r.levels, LEVEL_1), HistoryOf(r.trace, LEVEL_1), r.clock)
    requires !LockedByFailures(HistoryOf(r.trace, LEVEL_1).failures, at)
    ensures var a := Then(r, RequestSeed(LEVEL_1, REFUSING_SEC, at));
            var b := Then(a, SendKey(LEVEL_1 + 1, [], REFUSING_SEC, at, at));
            HistoryOf(b.trace, LEVEL_1).failures == HistoryOf(r.trace, LEVEL_1).failures + [at]
  {
    LockoutReadsFailures(r.levels, LEVEL_1, HistoryOf(r.trace, LEVEL_1), r.clock, at);
    HammerEvents(r.levels, at);
    Appended(r.trace, SeedGranted(LEVEL_1));
    Appended(r.trace + [SeedGranted(LEVEL_1)], KeyFailed(LEVEL_1, LEVEL_1 + 1, [], at));
  }

  ghost predicate SimpleRate(n: nat) {
    forall ops: seq<Op>, level: byte :: Timely(ops) && |Past(ops, level).failures| == n >= MAX_ATTEMPTS ==>
      var f := Past(ops, level).failures; f[n - 1] - f[MAX_ATTEMPTS - 1] >= (n - MAX_ATTEMPTS) * LOCKOUT
  }

  lemma SimpleRateHolds(n: nat)
    requires MAX_ATTEMPTS <= n <= U32_SIZE
    ensures SimpleRate(n)
  {
    hide Run, Past, Delayed;
    DelayedClosed(n);
    DelayedClosed(MAX_ATTEMPTS);
    forall ops: seq<Op>, level: byte | Timely(ops) && |Past(ops, level).failures| == n
      ensures var f := Past(ops, level).failures; f[n - 1] - f[MAX_ATTEMPTS - 1] >= (n - MAX_ATTEMPTS) * LOCKOUT
    {
      FailureRate(ops, level, MAX_ATTEMPTS - 1, n - 1);
    }
  }

  lemma SimpleRateFails(n: nat)
    requires n > U32_SIZE
    ensures !SimpleRate(n)
  {
    hide Run, Past, Delayed, Timely, Hammer, HammerTimes;
    HammerRuns(n);
    HammerStart(n);
    SpanOfHammer(n);
    assert |Past(Hammer(n), LEVEL_1).failures| == n;
  }

  /** "(n - 3) lockouts between the third and the n-th failure" holds of all runs exactly
      for streaks that do not outgrow the 32-bit counter: after it wraps, three further
      failures are free. */
  lemma SimpleRateExact(n: nat)
    requires n >= MAX_ATTEMPTS
    ensures SimpleRate(n) <==> n <= U32_SIZE
  {
    hide SimpleRate;
    if n <= U32_SIZE {
      SimpleRateHolds(n);
    } else {
      SimpleRateFails(n);
    }
  }

  lemma SpanOfHammer(n: nat)
    requires n > U32_SIZE
    requires HammerTimes(n)[MAX_ATTEMPTS - 1] == 0
    ensures HammerTimes(n)[n - 1] - HammerTimes(n)[MAX_ATTEMPTS - 1] < (n - MAX_ATTEMPTS) * LOCKOUT
  {
    DelayedClosed(n);
    FewerLockouts(Delayed(n), n - MAX_ATTEMPTS);
  }

  lemma FewerLockouts(m: int, n: int)
    requires m < n
    ensures m * LOCKOUT < n * LOCKOUT
  {
  }

  lemma {:induction false} HammerStart(n: nat)
    requires n >= MAX_ATTEMPTS
    ensures HammerTimes(n)[MAX_ATTEMPTS - 1] == 0
  {
    DelayedClosed(MAX_ATTEMPTS);
    if n > MAX_ATTEMPTS {
      HammerStart(n - 1);
    }
  }
}
