/** The observable history of a diagnostic server: what it granted, verified,
    refused, switched and asked of the services behind it, in order.

    `Disciplined` says which event may follow which history. It is a property of
    traces alone; `security_access.dfy` and `diag_service.dfy` prove that every run
    of the components produces a disciplined trace, and `trace_theorems.dfy` derives
    from it what a tester or an auditor would want to know about a run. */
module EventTrace {
  import opened DiagTypes

  datatype SessionKind = Default | Programming | Extended

  /** Calls that reach the SEC or PROV service on behalf of a routine or a read. */
  datatype Operation =
    | GenerateKeyPair
    | GetCsr
    | InjectCertificate(cert: bytes)
    | WriteVin(vin: bytes, extra: bytes)
    | ReadVin

  datatype Event =
    | SeedGranted(level: byte)
    | KeyVerified(level: byte, sentLevel: byte, key: bytes)
    | KeyFailed(level: byte, sentLevel: byte, key: bytes, at: nat)
    | LevelLocked(level: byte)
    | SecurityReset
    | SessionCreated(at: nat)
    | SessionSwitched(kind: SessionKind, owner: u16, at: nat)
    | TesterPresented(owner: u16, at: nat)
    | S3Passed(at: nat)
    | S3Expired(at: nat)
    | SessionReleased
    | SessionDefaulted(at: nat)
    | Called(op: Operation)

  type Trace = seq<Event>

  predicate Privileged(op: Operation) { !op.ReadVin? }

  predicate CertificateCall(op: Operation) {
    op.GenerateKeyPair? || op.GetCsr? || op.InjectCertificate?
  }

  /** Where the components write down what they do. */
  class EventLog {
    ghost var events: Trace

    constructor ()
      ensures events == []
    {
      events := [];
    }

    ghost method Record(e: Event)
      modifies this
      ensures events == old(events) + [e]
    {
      events := events + [e];
    }
  }

  // ---- Security history of one level ------------------------------------

  datatype AuthStep = NoStep | Seeded | Verified | Failed | LockedStep | ResetStep

  /** `last` is the most recent authentication event; `failures` holds the times of
      the failed verifications since the last success or reset; `seeds` and
      `verifications` count over the whole trace. */
  datatype History = History(last: AuthStep, failures: seq<nat>, seeds: nat, verifications: nat)

  function Observe(h: History, e: Event, level: byte): History {
    match e
    case SeedGranted(l) => if l == level then h.(last := Seeded, seeds := h.seeds + 1) else h
    case KeyVerified(l, _, _) =>
      if l == level then h.(last := Verified, failures := [], verifications := h.verifications + 1) else h
    case KeyFailed(l, _, _, at) =>
      if l == level then h.(last := Failed, failures := h.failures + [at], verifications := h.verifications + 1) else h
    case LevelLocked(l) => if l == level then h.(last := LockedStep) else h
    case SecurityReset => h.(last := ResetStep, failures := [])
    case _ => h
  }

  function HistoryOf(trace: Trace, level: byte): History {
    if trace == [] then History(NoStep, [], 0, 0)
    else Observe(HistoryOf(trace[..|trace| - 1], level), trace[|trace| - 1], level)
  }

  // ---- Session as seen from the trace -----------------------------------

  /** `active` says whether a session was asked for since the last creation or release;
      `chain` holds the positions of the refreshes since the session was last default. */
  datatype View = View(kind: SessionKind, owner: u16, active: bool, refreshedAt: nat, chain: seq<nat>)

  function Watch(v: View, e: Event, position: nat): View {
    match e
    case SessionCreated(at) => View(Default, 0, false, at, [])
    case SessionSwitched(kind, owner, at) =>
      View(kind, owner, true, at, if kind == Default then [] else v.chain + [position])
    case TesterPresented(_, at) =>
      v.(refreshedAt := at, chain := if v.kind == Default then [] else v.chain + [position])
    case S3Expired(_) => v.(kind := Default, active := true, chain := [])
    case SessionReleased => v.(kind := Default, owner := 0, active := false, chain := [])
    case SessionDefaulted(at) => v.(kind := Default, active := true, refreshedAt := at, chain := [])
    case _ => v
  }

  function ViewOf(trace: Trace): View {
    if trace == [] then View(Default, 0, false, 0, [])
    else Watch(ViewOf(trace[..|trace| - 1]), trace[|trace| - 1], |trace| - 1)
  }

  // ---- The discipline ---------------------------------------------------

  /** A failed verification at `at` may extend the streak `failures`: it is not
      earlier than the previous one and, when the 32-bit counter stood at the limit,
      it comes a full lockout later. */
  predicate MayFail(failures: seq<nat>, at: nat) {
    failures != [] ==>
      var previous := failures[|failures| - 1];
      previous <= at && (|failures| % U32_SIZE >= MAX_ATTEMPTS ==> previous + LOCKOUT <= at)
  }

  /** A refresh at `at` may extend a non-default session only right after an S3 check
      that found the previous refresh recent enough. */
  predicate MayRefresh(trace: Trace, at: nat) {
    var v := ViewOf(trace);
    v.kind != Default ==>
      && trace != []
      && trace[|trace| - 1].S3Passed?
      && var checkedAt := trace[|trace| - 1].at;
         v.refreshedAt <= checkedAt <= at && WholeMs(checkedAt - v.refreshedAt) <= S3_MS
  }

  predicate Allowed(trace: Trace, e: Event) {
    match e
    case KeyVerified(l, _, _) => HistoryOf(trace, l).last == Seeded
    case KeyFailed(l, _, _, at) =>
      HistoryOf(trace, l).last == Seeded && MayFail(HistoryOf(trace, l).failures, at)
    case SessionSwitched(_, owner, at) =>
      (ViewOf(trace).kind == Default || ViewOf(trace).owner == owner) && MayRefresh(trace, at)
    case TesterPresented(owner, at) => ViewOf(trace).owner == owner && MayRefresh(trace, at)
    case Called(op) =>
      && (Privileged(op) ==> HistoryOf(trace, LEVEL_1).last == Verified)
      && (CertificateCall(op) ==> ViewOf(trace).kind == Programming)
    case _ => true
  }

  ghost predicate Disciplined(trace: Trace) {
    forall i | 0 <= i < |trace| :: Allowed(trace[..i], trace[i])
  }

  // ---- Appending one event ----------------------------------------------

  lemma Appended(trace: Trace, e: Event)
    ensures forall level: byte :: HistoryOf(trace + [e], level) == Observe(HistoryOf(trace, level), e, level)
    ensures ViewOf(trace + [e]) == Watch(ViewOf(trace), e, |trace|)
    ensures Disciplined(trace) && Allowed(trace, e) ==> Disciplined(trace + [e])
  {
    var longer := trace + [e];
    assert longer[..|longer| - 1] == trace;
    hide HistoryOf, ViewOf, Observe, Watch, Allowed;
    assert Disciplined(trace) && Allowed(trace, e) ==> Disciplined(longer) by {
      assert forall i | 0 <= i < |trace| :: longer[..i] == trace[..i];
    }
  }

  lemma PrefixDisciplined(trace: Trace, n: nat)
    requires Disciplined(trace) && n <= |trace|
    ensures Disciplined(trace[..n])
  {
    assert forall i | 0 <= i < n :: trace[..n][..i] == trace[..i];
  }
}
