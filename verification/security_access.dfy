/** Seed/key access with attempt counting and timed lockout
    (SecurityAccess, section 9.4 of ISO 14229-1:2013). */
module Security {
  import opened DiagTypes
  import opened EventTrace

  datatype LevelState = LevelState(
    level: byte,
    seedRequested: bool,
    requestedSeed: bytes,
    unlocked: bool,
    attemptCount: u32,
    lockedUntil: nat)

  const FRESH_LEVEL: LevelState := LevelState(0, false, [], false, 0, 0)

  type Levels = map<byte, LevelState>

  /** The entry of a level; a missing entry behaves like a fresh one. */
  function At(levels: Levels, level: byte): LevelState {
    if level in levels then levels[level] else FRESH_LEVEL
  }

  /** The seed level a sendKey sub-function belongs to. */
  function SeedLevel(level: byte): byte { if level > 0 then level - 1 else level }

  /** The seed level whose entry decides whether `level` is unlocked. */
  function UnlockKey(level: byte): byte {
    if level % 2 == 0 && level > 0 then level - 1 else level
  }

  predicate LockedOut(levels: Levels, level: byte, now: nat) {
    level in levels && levels[level].attemptCount >= MAX_ATTEMPTS && now < levels[level].lockedUntil
  }

  predicate Unlocked(levels: Levels, level: byte) {
    UnlockKey(level) in levels && levels[UnlockKey(level)].unlocked
  }

  datatype Outcome = Outcome(levels: Levels, code: ErrorCode, seed: bytes, events: Trace)

  function AfterGrant(entry: LevelState, level: byte, seed: bytes): LevelState {
    entry.(level := level, seedRequested := true, requestedSeed := seed, unlocked := false)
  }

  function RequestSeedSpec(levels: Levels, level: byte, sec: SecAnswers, now: nat): Outcome {
    if !sec.available then Outcome(levels, SecUnavailable, [], [])
    else if LockedOut(levels, level, now) then Outcome(levels, SecurityAccessDenied, [], [])
    else if !sec.seedGranted then Outcome(levels, SecUnavailable, [], [])
    else
      Outcome(levels[level := AfterGrant(At(levels, level), level, sec.seed)], Success, sec.seed, [SeedGranted(level)])
  }

  /** The entry after a failed verification; the attempt counter is a `uint32_t` and wraps. */
  function AfterFailure(entry: LevelState, failedAt: nat): LevelState {
    var count: u32 := (entry.attemptCount + 1) % U32_SIZE;
    entry.(attemptCount := count,
           seedRequested := false,
           lockedUntil := if count >= MAX_ATTEMPTS then failedAt + LOCKOUT else entry.lockedUntil)
  }

  function AfterSuccess(entry: LevelState): LevelState {
    entry.(unlocked := true, seedRequested := false, attemptCount := 0)
  }

  function SendKeySpec(levels: Levels, level: byte, key: bytes, sec: SecAnswers, checkedAt: nat, failedAt: nat)
    : Outcome
  {
    var l := SeedLevel(level);
    if !sec.available then Outcome(levels, SecUnavailable, [], [])
    else if LockedOut(levels, l, checkedAt) then Outcome(levels, SecurityAccessDenied, [], [])
    else
      var entry := At(levels, l);
      if !entry.seedRequested then Outcome(levels[l := entry], SecurityAccessDenied, [], [])
      else if !sec.keyAccepted then
        Outcome(levels[l := AfterFailure(entry, failedAt)], SecurityAccessDenied, [],
                [KeyFailed(l, level, key, failedAt)])
      else
        Outcome(levels[l := AfterSuccess(entry)], Success, [], [KeyVerified(l, level, key)])
  }

  function LockSpec(levels: Levels, level: byte): Outcome {
    Outcome(if level !in levels then levels
            else levels[level := levels[level].(unlocked := false, seedRequested := false)],
            Success, [], [LevelLocked(level)])
  }

  function ResetSpec(): Outcome { Outcome(map[], Success, [], [SecurityReset]) }

  class SecurityAccess {
    const log: EventLog
    var states: Levels

    constructor (log: EventLog)
      ensures this.log == log && states == map[]
    {
      this.log := log;
      states := map[];
    }

    method RequestSeed(level: byte, sec: SecAnswers, now: nat) returns (code: ErrorCode, seed: bytes)
      modifies this, log
      ensures var o := RequestSeedSpec(old(states), level, sec, now);
              && states == o.levels && code == o.code && seed == o.seed
              && log.events == old(log.events) + o.events
    {
      seed := [];
      if !sec.available {
        return SecUnavailable, seed;
      }
      if IsLockedOut(level, now) {
        return SecurityAccessDenied, seed;
      }
      if !sec.seedGranted {
        return SecUnavailable, seed;
      }
      seed := sec.seed;
      KeepSeed(level, seed);
      code := Success;
    }

    /** The last part of a seed request, once SEC has granted the seed. */
    method KeepSeed(level: byte, seed: bytes)
      modifies this, log
      ensures states == old(states)[level := AfterGrant(At(old(states), level), level, seed)]
      ensures log.events == old(log.events) + [SeedGranted(level)]
    {
      log.Record(SeedGranted(level));
      var state := if level in states then states[level] else FRESH_LEVEL;
      state := state.(level := level);
      state := state.(seedRequested := true);
      state := state.(requestedSeed := seed);
      state := state.(unlocked := false);
      states := states[level := state];
    }

    method SendKey(level: byte, key: bytes, sec: SecAnswers, checkedAt: nat, failedAt: nat) returns (code: ErrorCode)
      modifies this, log
      ensures var o := SendKeySpec(old(states), level, key, sec, checkedAt, failedAt);
              && states == o.levels && code == o.code
              && log.events == old(log.events) + o.events
    {
      if !sec.available {
        return SecUnavailable;
      }
      var seedLevel: byte := if level > 0 then level - 1 else level;
      if IsLockedOut(seedLevel, checkedAt) {
        return SecurityAccessDenied;
      }
      var pending := FindPending(seedLevel);
      if !pending {
        return SecurityAccessDenied;
      }
      code := KeepVerdict(seedLevel, level, key, sec.keyAccepted, failedAt);
    }

    /** Looks up the entry a key needs; a missing one is inserted. */
    method FindPending(seedLevel: byte) returns (pending: bool)
      modifies this
      ensures states == old(states)[seedLevel := At(old(states), seedLevel)]
      ensures pending == states[seedLevel].seedRequested
    {
      if seedLevel !in states {
        states := states[seedLevel := FRESH_LEVEL];
      }
      pending := states[seedLevel].seedRequested;
    }

    /** The last part of a key, once SEC has judged it. */
    method KeepVerdict(seedLevel: byte, level: byte, key: bytes, accepted: bool, failedAt: nat)
      returns (code: ErrorCode)
      requires seedLevel in states
      modifies this, log
      ensures code == if accepted then Success else SecurityAccessDenied
      ensures states == old(states)[seedLevel := if accepted then AfterSuccess(old(states)[seedLevel])
                                                 else AfterFailure(old(states)[seedLevel], failedAt)]
      ensures log.events == old(log.events) + [if accepted then KeyVerified(seedLevel, level, key)
                                               else KeyFailed(seedLevel, level, key, failedAt)]
    {
      var state := states[seedLevel];
      if !accepted {
        log.Record(KeyFailed(seedLevel, level, key, failedAt));
        state := state.(attemptCount := (state.attemptCount + 1) % U32_SIZE);
        state := state.(seedRequested := false);
        if state.attemptCount >= MAX_ATTEMPTS {
          state := state.(lockedUntil := failedAt + LOCKOUT);
        }
        states := states[seedLevel := state];
        return SecurityAccessDenied;
      }
      log.Record(KeyVerified(seedLevel, level, key));
      state := state.(unlocked := true);
      state := state.(seedRequested := false);
      state := state.(attemptCount := 0);
      states := states[seedLevel := state];
      code := Success;
    }

    predicate IsUnlocked(level: byte)
      reads this
      ensures IsUnlocked(level) <==> At(states, UnlockKey(level)).unlocked
    {
      var seedLevel: byte := if level % 2 == 0 && level > 0 then level - 1 else level;
      seedLevel in states && states[seedLevel].unlocked
    }

    predicate IsLockedOut(level: byte, now: nat)
      reads this
      ensures IsLockedOut(level, now) <==>
                At(states, level).attemptCount >= MAX_ATTEMPTS && now < At(states, level).lockedUntil
    {
      if level !in states then false
      else if states[level].attemptCount < MAX_ATTEMPTS then false
      else now < states[level].lockedUntil
    }

    method Lock(level: byte)
      modifies this, log
      ensures states == LockSpec(old(states), level).levels
      ensures log.events == old(log.events) + LockSpec(old(states), level).events
    {
      log.Record(LevelLocked(level));
      if level in states {
        states := states[level := states[level].(unlocked := false)];
        states := states[level := states[level].(seedRequested := false)];
      }
    }

    method Reset()
      modifies this, log
      ensures states == ResetSpec().levels
      ensures log.events == old(log.events) + ResetSpec().events
    {
      log.Record(SecurityReset);
      states := map[];
    }
  }

  // ---- What the entries mean --------------------------------------------

  /** An entry read against the history of its level: the flags are the last
      authentication event, the counter is the length of the failure streak modulo
      2^32, and at the limit the lockout ends one lockout after the last failure. */
  ghost predicate Reflects(entry: LevelState, h: History, clock: nat) {
    && (entry.unlocked <==> h.last == Verified)
    && (entry.seedRequested <==> h.last == Seeded)
    && entry.attemptCount == |h.failures| % U32_SIZE
    && (h.last == Verified ==> h.failures == [])
    && (h.failures != [] ==> h.failures[|h.failures| - 1] <= clock)
    && (entry.attemptCount >= MAX_ATTEMPTS ==> entry.lockedUntil == h.failures[|h.failures| - 1] + LOCKOUT)
    && h.verifications + (if entry.seedRequested then 1 else 0) <= h.seeds
  }

  ghost predicate LevelsReflect(levels: Levels, trace: Trace, clock: nat) {
    forall level: byte :: Reflects(At(levels, level), HistoryOf(trace, level), clock)
  }

  lemma NothingReflects(clock: nat)
    ensures LevelsReflect(map[], [], clock)
  {
  }

  lemma ReflectsLater(entry: LevelState, h: History, clock: nat, later: nat)
    requires Reflects(entry, h, clock) && clock <= later
    ensures Reflects(entry, h, later)
  {
  }

  /** Events of other components leave the reading intact. */
  lemma OtherEventReflects(levels: Levels, trace: Trace, e: Event, clock: nat, later: nat)
    requires LevelsReflect(levels, trace, clock) && clock <= later
    requires forall h: History, level: byte :: Observe(h, e, level) == h
    ensures LevelsReflect(levels, trace + [e], later)
  {
  }

  /** An event about one level, together with the matching change of its entry. */
  lemma LevelEventReflects(levels: Levels, trace: Trace, e: Event, clock: nat, later: nat, level: byte,
                           entry: LevelState)
    requires LevelsReflect(levels, trace, clock) && clock <= later
    requires forall h: History, l: byte | l != level :: Observe(h, e, l) == h
    requires Reflects(entry, Observe(HistoryOf(trace, level), e, level), later)
    ensures LevelsReflect(levels[level := entry], trace + [e], later)
  {
    hide Reflects;
    Appended(trace, e);
    forall l: byte ensures Reflects(At(levels[level := entry], l), HistoryOf(trace + [e], l), later) {
      assert Reflects(At(levels, l), HistoryOf(trace, l), clock);
      ReflectsLater(At(levels, l), HistoryOf(trace, l), clock, later);
    }
  }

  /** No event, and no entry that reads differently. */
  lemma SilentReflects(levels: Levels, levels': Levels, trace: Trace, clock: nat, later: nat)
    requires LevelsReflect(levels, trace, clock) && clock <= later
    requires forall l: byte :: At(levels', l) == At(levels, l)
    ensures LevelsReflect(levels', trace + [], later)
  {
    hide Reflects;
    assert trace + [] == trace;
    forall l: byte ensures Reflects(At(levels', l), HistoryOf(trace, l), later) {
      assert Reflects(At(levels, l), HistoryOf(trace, l), clock);
      ReflectsLater(At(levels, l), HistoryOf(trace, l), clock, later);
    }
  }

  lemma RequestSeedReflects(levels: Levels, trace: Trace, clock: nat, level: byte, sec: SecAnswers,
                            now: nat, later: nat)
    requires LevelsReflect(levels, trace, clock) && Disciplined(trace) && clock <= later
    ensures var o := RequestSeedSpec(levels, level, sec, now);
            LevelsReflect(o.levels, trace + o.events, later) && Disciplined(trace + o.events)
  {
    var o := RequestSeedSpec(levels, level, sec, now);
    assert Reflects(At(levels, level), HistoryOf(trace, level), clock);
    if o.events == [] {
      SilentReflects(levels, o.levels, trace, clock, later);
      assert trace + o.events == trace;
    } else {
      Appended(trace, SeedGranted(level));
      LevelEventReflects(levels, trace, SeedGranted(level), clock, later, level, o.levels[level]);
    }
  }

  /** One failed verification that was not locked out when it was checked. */
  lemma FailureReflects(entry: LevelState, h: History, clock: nat, level: byte, sentLevel: byte, key: bytes,
                        checkedAt: nat, failedAt: nat)
    requires Reflects(entry, h, clock) && entry.seedRequested
    requires clock <= checkedAt <= failedAt
    requires entry.attemptCount >= MAX_ATTEMPTS ==> entry.lockedUntil <= checkedAt
    ensures MayFail(h.failures, failedAt)
    ensures Reflects(AfterFailure(entry, failedAt), Observe(h, KeyFailed(level, sentLevel, key, failedAt), level),
                     failedAt)
  {
  }

  lemma SuccessReflects(entry: LevelState, h: History, clock: nat, level: byte, sentLevel: byte, key: bytes, later: nat)
    requires Reflects(entry, h, clock) && entry.seedRequested
    ensures Reflects(AfterSuccess(entry), Observe(h, KeyVerified(level, sentLevel, key), level), later)
  {
  }

  lemma SendKeyReflects(levels: Levels, trace: Trace, clock: nat, level: byte, key: bytes, sec: SecAnswers,
                        checkedAt: nat, failedAt: nat)
    requires LevelsReflect(levels, trace, clock) && Disciplined(trace)
    requires clock <= checkedAt <= failedAt
    ensures var o := SendKeySpec(levels, level, key, sec, checkedAt, failedAt);
            LevelsReflect(o.levels, trace + o.events, failedAt) && Disciplined(trace + o.events)
  {
    var o := SendKeySpec(levels, level, key, sec, checkedAt, failedAt);
    var l := SeedLevel(level);
    var entry, h := At(levels, l), HistoryOf(trace, l);
    assert Reflects(entry, h, clock);
    if o.events == [] {
      SilentReflects(levels, o.levels, trace, clock, failedAt);
      assert trace + o.events == trace;
    } else {
      Appended(trace, o.events[0]);
      if sec.keyAccepted {
        SuccessReflects(entry, h, clock, l, level, key, failedAt);
      } else {
        FailureReflects(entry, h, clock, l, level, key, checkedAt, failedAt);
      }
      LevelEventReflects(levels, trace, o.events[0], clock, failedAt, l, o.levels[l]);
    }
  }

  lemma LockReflects(levels: Levels, trace: Trace, clock: nat, level: byte)
    requires LevelsReflect(levels, trace, clock) && Disciplined(trace)
    ensures var o := LockSpec(levels, level);
            LevelsReflect(o.levels, trace + o.events, clock) && Disciplined(trace + o.events)
  {
    var o := LockSpec(levels, level);
    Appended(trace, LevelLocked(level));
    forall l: byte ensures Reflects(At(o.levels, l), HistoryOf(trace + o.events, l), clock) {
      assert Reflects(At(levels, l), HistoryOf(trace, l), clock);
    }
  }

  lemma ResetReflects(levels: Levels, trace: Trace, clock: nat, later: nat)
    requires LevelsReflect(levels, trace, clock) && Disciplined(trace)
    ensures LevelsReflect(map[], trace + [SecurityReset], later) && Disciplined(trace + [SecurityReset])
  {
    Appended(trace, SecurityReset);
    forall l: byte ensures Reflects(At(map[], l), HistoryOf(trace + [SecurityReset], l), later) {
      assert Reflects(At(levels, l), HistoryOf(trace, l), clock);
    }
  }
}
