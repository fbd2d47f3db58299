/** What every disciplined trace guarantees, whichever components produced it. */
module TraceTheorems {
  import opened DiagTypes
  import opened EventTrace

  // ---- Failure rate -----------------------------------------------------

  /** Consecutive failures are in order, and a full lockout apart whenever the 32-bit
      counter stood at the limit before the later one. */
  ghost predicate Spaced(failures: seq<nat>) {
    forall i | 0 < i < |failures| ::
      && failures[i - 1] <= failures[i]
      && (i % U32_SIZE >= MAX_ATTEMPTS ==> failures[i - 1] + LOCKOUT <= failures[i])
  }

  lemma SpacedExtends(failures: seq<nat>, at: nat)
    requires Spaced(failures) && MayFail(failures, at)
    ensures Spaced(failures + [at])
  {
  }

  lemma {:induction false} StreakSpaced(trace: Trace, level: byte)
    requires Disciplined(trace)
    ensures Spaced(HistoryOf(trace, level).failures)
  {
    if trace != [] {
      var n := |trace| - 1;
      PrefixDisciplined(trace, n);
      StreakSpaced(trace[..n], level);
      var e := trace[n];
      assert Allowed(trace[..n], e);
      if e.KeyFailed? && e.level == level {
        SpacedExtends(HistoryOf(trace[..n], level).failures, e.at);
      }
    }
  }

  /** Of the first `n` failures of a streak, how many had to wait for a lockout. */
  function Delayed(n: nat): (d: nat)
    ensures d <= n
  {
    if n == 0 then 0
    else Delayed(n - 1) + (if (n - 1) % U32_SIZE >= MAX_ATTEMPTS then 1 else 0)
  }

  lemma {:induction false} DelayedClosed(n: nat)
    ensures MAX_ATTEMPTS <= n <= U32_SIZE ==> Delayed(n) == n - MAX_ATTEMPTS
    ensures n <= MAX_ATTEMPTS ==> Delayed(n) == 0
    ensures n > U32_SIZE ==> Delayed(n) < n - MAX_ATTEMPTS
  {
    if n > 0 {
      DelayedClosed(n - 1);
    }
  }

  lemma LockoutsAdd(d: int)
    ensures (d + 1) * LOCKOUT == d * LOCKOUT + LOCKOUT
  {
  }

  /** Between any two failures of a streak there is one lockout for each delayed one. */
  lemma {:induction false} StreakSpan(failures: seq<nat>, m: nat, n: nat)
    requires Spaced(failures) && m <= n < |failures|
    ensures failures[n] - failures[m] >= (Delayed(n + 1) - Delayed(m + 1)) * LOCKOUT
    decreases n
  {
    if m < n {
      StreakSpan(failures, m, n - 1);
      LockoutsAdd(Delayed(n) - Delayed(m + 1));
    }
  }

  // ---- Authentication behind a verified level ---------------------------

  ghost predicate ConcernsLevel(e: Event, level: byte) {
    match e
    case SeedGranted(l) => l == level
    case KeyVerified(l, _, _) => l == level
    case KeyFailed(l, _, _, _) => l == level
    case LevelLocked(l) => l == level
    case SecurityReset => true
    case _ => false
  }

  /** Position of the last event that concerns a level. */
  lemma {:induction false} LastConcern(trace: Trace, level: byte) returns (j: nat)
    requires HistoryOf(trace, level).last != NoStep
    ensures j < |trace| && ConcernsLevel(trace[j], level)
    ensures HistoryOf(trace, level).last == HistoryOf(trace[..j + 1], level).last
    ensures forall m | j < m < |trace| :: !ConcernsLevel(trace[m], level)
  {
    var n := |trace| - 1;
    if ConcernsLevel(trace[n], level) {
      assert trace[..n + 1] == trace;
      return n;
    }
    j := LastConcern(trace[..n], level);
    assert trace[..n][..j + 1] == trace[..j + 1];
  }

  /** A level is verified through exactly one grant and one accepted key, and nothing
      about the level happened between them or since. */
  ghost predicate UnlockedBy(trace: Trace, level: byte, granted: nat, verified: nat) {
    && granted < verified < |trace|
    && trace[granted] == SeedGranted(level)
    && trace[verified].KeyVerified? && trace[verified].level == level
    && forall m | granted < m < |trace| && m != verified :: !ConcernsLevel(trace[m], level)
  }

  lemma VerifiedHasCause(trace: Trace, level: byte) returns (granted: nat, verified: nat)
    requires Disciplined(trace) && HistoryOf(trace, level).last == Verified
    ensures UnlockedBy(trace, level, granted, verified)
  {
    verified := LastConcern(trace, level);
    assert trace[..verified + 1][..verified] == trace[..verified];
    assert Allowed(trace[..verified], trace[verified]);
    granted := LastConcern(trace[..verified], level);
    assert trace[..verified][..granted + 1][..granted] == trace[..granted];
  }

  // ---- Sessions ---------------------------------------------------------

  predicate EndsSession(e: Event) {
    || e.S3Expired? || e.SessionReleased? || e.SessionDefaulted? || e.SessionCreated?
    || (e.SessionSwitched? && e.kind == Default)
  }

  predicate Refresh(e: Event) { (e.SessionSwitched? && e.kind != Default) || e.TesterPresented? }

  predicate RefreshBy(e: Event, owner: u16) { Refresh(e) && e.owner == owner }

  /** Right before the refresh at `b`, an S3 check found the one at `a` at most S3 old. */
  ghost predicate Linked(trace: Trace, a: nat, b: nat)
    requires a < |trace| && b < |trace| && Refresh(trace[a]) && Refresh(trace[b])
  {
    && a < b
    && trace[b - 1].S3Passed?
    && trace[b - 1].at <= trace[b].at
    && WholeMs(trace[b - 1].at - trace[a].at) <= S3_MS
  }

  /** A chain of refreshes by one owner: it starts with a switch to a non-default
      session, nothing has ended the session since, and right before every further
      refresh an S3 check found its predecessor at most S3 old. */
  ghost predicate KeepaliveChain(trace: Trace, chain: seq<nat>, owner: u16) {
    && chain != []
    && (forall k | 0 <= k < |chain| :: chain[k] < |trace| && RefreshBy(trace[chain[k]], owner))
    && trace[chain[0]].SessionSwitched?
    && (forall k | 0 < k < |chain| :: Linked(trace, chain[k - 1], chain[k]))
    && (forall i | chain[0] <= i < |trace| :: !EndsSession(trace[i]))
  }

  /** The chain as the view of a non-default session keeps it. */
  ghost predicate ChainKept(trace: Trace) {
    var v := ViewOf(trace);
    if v.kind == Default then v.chain == []
    else KeepaliveChain(trace, v.chain, v.owner) && trace[v.chain[|v.chain| - 1]].at == v.refreshedAt
  }

  /** An event that neither refreshes nor ends the session. */
  lemma ChainSurvives(trace: Trace, e: Event, chain: seq<nat>, owner: u16)
    requires KeepaliveChain(trace, chain, owner) && !EndsSession(e)
    ensures KeepaliveChain(trace + [e], chain, owner)
  {
  }

  /** One more refresh right after an S3 check. */
  lemma ChainExtends(trace: Trace, chain: seq<nat>, owner: u16, next: nat)
    requires KeepaliveChain(trace, chain, owner)
    requires next < |trace| && RefreshBy(trace[next], owner)
    requires Linked(trace, chain[|chain| - 1], next)
    ensures KeepaliveChain(trace, chain + [next], owner)
  {
  }

  /** A switch from the default session starts a chain. */
  lemma ChainStarts(trace: Trace, e: Event)
    requires e.SessionSwitched? && e.kind != Default
    ensures KeepaliveChain(trace + [e], [|trace|], e.owner)
  {
  }

  lemma RefreshLinks(trace: Trace, e: Event)
    requires ChainKept(trace) && Allowed(trace, e) && ViewOf(trace).kind != Default && Refresh(e)
    ensures var v := ViewOf(trace);
            && KeepaliveChain(trace, v.chain, v.owner) && RefreshBy(e, v.owner)
            && Linked(trace + [e], v.chain[|v.chain| - 1], |trace|)
  {
    hide HistoryOf;
  }

  lemma ChainStep(trace: Trace, e: Event)
    requires ChainKept(trace) && Allowed(trace, e)
    ensures ChainKept(trace + [e])
  {
    hide KeepaliveChain, Linked, Allowed, HistoryOf, Disciplined;
    Appended(trace, e);
    var v := ViewOf(trace);
    if v.kind == Default {
      if e.SessionSwitched? && e.kind != Default {
        ChainStarts(trace, e);
        assert v.chain + [|trace|] == [|trace|];
      }
    } else if !EndsSession(e) {
      ChainBasics(trace, v.chain, v.owner);
      ChainSurvives(trace, e, v.chain, v.owner);
      if Refresh(e) {
        RefreshLinks(trace, e);
        ChainExtends(trace + [e], v.chain, v.owner, |trace|);
      }
    }
  }

  lemma {:induction false} ChainOf(trace: Trace)
    requires Disciplined(trace)
    ensures ChainKept(trace)
  {
    if trace != [] {
      var n := |trace| - 1;
      PrefixDisciplined(trace, n);
      ChainOf(trace[..n]);
      assert Allowed(trace[..n], trace[n]);
      ChainStep(trace[..n], trace[n]);
      assert trace == trace[..n] + [trace[n]];
    }
  }

  /** A chain within a shorter trace. */
  lemma ChainBefore(trace: Trace, chain: seq<nat>, owner: u16, n: nat)
    requires KeepaliveChain(trace, chain, owner) && n <= |trace|
    requires forall k | 0 <= k < |chain| :: chain[k] < n
    ensures KeepaliveChain(trace[..n], chain, owner)
  {
    forall k | 0 < k < |chain|
      ensures Linked(trace[..n], chain[k - 1], chain[k])
    {
      assert Linked(trace, chain[k - 1], chain[k]);
    }
  }

  lemma {:induction false} ChainAscends(trace: Trace, chain: seq<nat>, owner: u16, i: nat, j: nat)
    requires KeepaliveChain(trace, chain, owner) && i < j < |chain|
    ensures chain[i] < chain[j]
    decreases j
  {
    assert Linked(trace, chain[j - 1], chain[j]);
    if i < j - 1 {
      ChainAscends(trace, chain, owner, i, j - 1);
    }
  }

  /** The converse: whoever has a chain owns a session that is not default and was last
      refreshed no earlier than the end of the chain. */
  lemma {:induction false} ChainMeansSession(trace: Trace, chain: seq<nat>, owner: u16)
    requires Disciplined(trace) && KeepaliveChain(trace, chain, owner)
    ensures var v := ViewOf(trace);
            v.kind != Default && v.owner == owner && trace[chain[|chain| - 1]].at <= v.refreshedAt
    decreases |trace|
  {
    hide KeepaliveChain, Linked;
    var n, last := |trace| - 1, |chain| - 1;
    ChainBasics(trace, chain, owner);
    PrefixDisciplined(trace, n);
    assert Allowed(trace[..n], trace[n]);
    if chain[last] < n {
      ChainBefore(trace, chain, owner, n) by {
        forall k | 0 <= k < |chain| ensures chain[k] < n {
          if k < last {
            ChainAscends(trace, chain, owner, k, last);
          }
        }
      }
      ChainMeansSession(trace[..n], chain, owner);
    } else if last > 0 {
      ChainWithoutLast(trace, chain, owner);
      ChainBefore(trace, chain[..last], owner, n) by {
        forall k | 0 <= k < last ensures chain[..last][k] < n {
          ChainAscends(trace, chain, owner, k, last);
        }
      }
      ChainMeansSession(trace[..n], chain[..last], owner);
    }
  }

  lemma ChainBasics(trace: Trace, chain: seq<nat>, owner: u16)
    requires KeepaliveChain(trace, chain, owner)
    ensures chain != [] && chain[|chain| - 1] < |trace| && trace[chain[0]].SessionSwitched?
    ensures RefreshBy(trace[chain[|chain| - 1]], owner) && !EndsSession(trace[|trace| - 1])
  {
    if |chain| > 1 {
      ChainAscends(trace, chain, owner, 0, |chain| - 1);
    }
  }

  lemma ChainWithoutLast(trace: Trace, chain: seq<nat>, owner: u16)
    requires KeepaliveChain(trace, chain, owner) && |chain| > 1
    ensures KeepaliveChain(trace, chain[..|chain| - 1], owner)
  {
    var shorter := chain[..|chain| - 1];
    forall k | 0 < k < |shorter|
      ensures Linked(trace, shorter[k - 1], shorter[k])
    {
      assert Linked(trace, chain[k - 1], chain[k]);
    }
  }

  /** Two owners of non-default sessions are separated by a default session. */
  lemma {:induction false} HandOver(trace: Trace, i: nat, j: nat) returns (k: nat)
    requires Disciplined(trace) && i <= j <= |trace|
    requires ViewOf(trace[..i]).kind != Default && ViewOf(trace[..j]).kind != Default
    requires ViewOf(trace[..i]).owner != ViewOf(trace[..j]).owner
    ensures i < k < j && ViewOf(trace[..k]).kind == Default
    decreases j
  {
    var n := j - 1;
    assert trace[..j][..n] == trace[..n];
    assert Allowed(trace[..n], trace[n]);
    if ViewOf(trace[..n]).kind == Default {
      k := n;
    } else {
      k := HandOver(trace, i, n);
    }
  }

  // ---- Privileged calls -------------------------------------------------

  /** Since position `s` the session is programming. */
  ghost predicate ProgrammingSince(trace: Trace, s: nat) {
    && s < |trace|
    && trace[s].SessionSwitched? && trace[s].kind == Programming
    && forall m | s < m < |trace| :: !EndsSession(trace[m]) && !trace[m].SessionSwitched?
  }

  lemma {:induction false} ProgrammingHasCause(trace: Trace) returns (s: nat)
    requires ViewOf(trace).kind == Programming
    ensures ProgrammingSince(trace, s)
  {
    var n := |trace| - 1;
    if trace[n].SessionSwitched? {
      s := n;
    } else {
      s := ProgrammingHasCause(trace[..n]);
    }
  }

  /** Before every privileged call at `i`: a granted level-1 seed, then an accepted
      level-1 key, and nothing about level 1 in between or since; before a certificate
      call also a switch to the programming session that still stands. */
  lemma PrivilegedCallIsEarned(trace: Trace, i: nat)
    requires Disciplined(trace) && i < |trace|
    requires trace[i].Called? && Privileged(trace[i].op)
    ensures exists granted: nat, verified: nat :: UnlockedBy(trace[..i], LEVEL_1, granted, verified)
    ensures CertificateCall(trace[i].op) ==> exists s: nat :: ProgrammingSince(trace[..i], s)
  {
    assert Allowed(trace[..i], trace[i]);
    PrefixDisciplined(trace, i);
    var granted, verified := VerifiedHasCause(trace[..i], LEVEL_1);
    if CertificateCall(trace[i].op) {
      var s := ProgrammingHasCause(trace[..i]);
    }
  }
}
