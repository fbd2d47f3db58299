/** The connection handling under concurrency: any number of threads, each somewhere in
    `ensure_connected` or `reconnect`, interleaved one step at a time, while connections
    appear and disappear and time passes. */
module ReconnectThreads {
  import opened DiagTypes
  import opened Reconnect

  type Thread = nat

  /** Where a thread is. From `Rechecking` on it holds the mutex. */
  datatype Place =
    | Outside
    | Waiting(forced: bool)
    | Rechecking
    | Reading
    | Deciding(now: nat)
    | Forcing
    | Connecting(forced: bool)

  /** One connection attempt: whether `reconnect` forced it, the clock reading that the
      throttle stamped on it, and the moment of the call to `connect` itself. */
  datatype Attempt = Attempt(forced: bool, stamp: nat, calledAt: nat)

  datatype World = World(
    connected: bool,
    holder: Option<Thread>,
    attempted: bool,
    lastAttempt: nat,
    clock: nat,
    places: map<Thread, Place>,
    log: seq<Attempt>)

  const QUIET: World := World(false, None, false, 0, 0, map[], [])

  function PlaceOf(w: World, t: Thread): Place { if t in w.places then w.places[t] else Outside }

  function Move(w: World, t: Thread, p: Place): World { w.(places := w.places[t := p]) }

  /** Leaves the mutex and returns to the caller. */
  function Leave(w: World, t: Thread): World { Move(w, t, Outside).(holder := None) }

  datatype Step =
    | Ensure(t: Thread)                       // calls ensure_connected; first look at the connection
    | Force(t: Thread)                        // calls reconnect
    | Acquire(t: Thread)                      // gets the mutex
    | Recheck(t: Thread)                      // second look, under the mutex
    | ReadClock(t: Thread)
    | Decide(t: Thread)                       // compares with the last attempt
    | Stamp(t: Thread)                        // reconnect stamps and disconnects
    | CallConnect(t: Thread, succeeds: bool)
    | Network(connected: bool)                // the peer closes, or somebody else connects
    | Tick(ns: nat)

  /** A step that is not possible where its thread is does nothing. */
  function Next(w: World, step: Step): World {
    match step
    case Ensure(t) =>
      if PlaceOf(w, t) == Outside && !w.connected then Move(w, t, Waiting(false)) else w
    case Force(t) =>
      if PlaceOf(w, t) == Outside then Move(w, t, Waiting(true)) else w
    case Acquire(t) =>
      if PlaceOf(w, t).Waiting? && w.holder == None then
        Move(w, t, if PlaceOf(w, t).forced then Forcing else Rechecking).(holder := Some(t))
      else w
    case Recheck(t) =>
      if PlaceOf(w, t) != Rechecking then w
      else if w.connected then Leave(w, t)
      else Move(w, t, Reading)
    case ReadClock(t) =>
      if PlaceOf(w, t) == Reading then Move(w, t, Deciding(w.clock)) else w
    case Decide(t) =>
      if !PlaceOf(w, t).Deciding? then w
      else if w.attempted && PlaceOf(w, t).now - w.lastAttempt < MIN_INTERVAL then Leave(w, t)
      else Move(w, t, Connecting(false)).(attempted := true, lastAttempt := PlaceOf(w, t).now)
    case Stamp(t) =>
      if PlaceOf(w, t) == Forcing then
        Move(w, t, Connecting(true)).(attempted := true, lastAttempt := w.clock, connected := false)
      else w
    case CallConnect(t, succeeds) =>
      if PlaceOf(w, t).Connecting? then
        Leave(w, t).(connected := succeeds, log := w.log + [Attempt(PlaceOf(w, t).forced, w.lastAttempt, w.clock)])
      else w
    case Network(connected) => w.(connected := connected)
    case Tick(ns) => w.(clock := w.clock + ns)
  }

  function Run(steps: seq<Step>): World {
    if steps == [] then QUIET else Next(Run(steps[..|steps| - 1]), steps[|steps| - 1])
  }

  // ---- What every step keeps --------------------------------------------

  predicate Holds(p: Place) { !p.Outside? && !p.Waiting? }

  /** The throttle rule between an attempt and the next one. */
  ghost predicate Follows(a: Attempt, b: Attempt) {
    && a.stamp <= a.calledAt <= b.stamp <= b.calledAt
    && (!b.forced ==> a.stamp + MIN_INTERVAL <= b.stamp)
  }

  ghost predicate Throttled(log: seq<Attempt>) {
    && (forall k | 0 <= k < |log| :: log[k].stamp <= log[k].calledAt)
    && (forall k | 0 < k < |log| :: Follows(log[k - 1], log[k]))
  }

  /** The place of the thread that holds the mutex. */
  function Inside(w: World): Place {
    if w.holder.None? then Outside else PlaceOf(w, w.holder.value)
  }

  ghost predicate MutexKept(w: World) {
    && (forall t: Thread :: Holds(PlaceOf(w, t)) ==> w.holder == Some(t))
    && (w.holder.Some? ==> Holds(Inside(w)))
  }

  /** The throttle fields against the log: the last attempt is stamped in the log, unless
      the holder has stamped it and is about to connect. */
  ghost predicate StampKept(w: World) {
    && Throttled(w.log)
    && (w.log != [] ==> w.log[|w.log| - 1].calledAt <= w.clock)
    && match Inside(w)
       case Connecting(forced) =>
         && w.attempted && w.lastAttempt <= w.clock
         && (w.log != [] ==> Follows(w.log[|w.log| - 1], Attempt(forced, w.lastAttempt, w.clock)))
       case _ =>
         && (w.attempted <==> w.log != [])
         && (w.log != [] ==> w.lastAttempt == w.log[|w.log| - 1].stamp)
         && (Inside(w).Deciding? ==>
               Inside(w).now <= w.clock && (w.log != [] ==> w.log[|w.log| - 1].calledAt <= Inside(w).now))
  }

  lemma MutexStep(w: World, step: Step)
    requires MutexKept(w)
    ensures MutexKept(Next(w, step))
  {
  }

  lemma LogGrows(log: seq<Attempt>, a: Attempt)
    requires Throttled(log) && a.stamp <= a.calledAt
    requires log != [] ==> Follows(log[|log| - 1], a)
    ensures Throttled(log + [a])
  {
  }

  lemma LastIsOrdered(log: seq<Attempt>)
    requires Throttled(log) && log != []
    ensures log[|log| - 1].stamp <= log[|log| - 1].calledAt
  {
  }

  lemma StampStep(w: World, step: Step)
    requires MutexKept(w) && StampKept(w)
    ensures StampKept(Next(w, step))
  {
    hide Throttled;
    MutexStep(w, step);
    if step.CallConnect? && PlaceOf(w, step.t).Connecting? {
      assert w.holder == Some(step.t);
      LogGrows(w.log, Attempt(PlaceOf(w, step.t).forced, w.lastAttempt, w.clock));
    } else {
      assert Next(w, step).log == w.log;
      if w.log != [] {
        assert w.log[|w.log| - 1].stamp <= w.log[|w.log| - 1].calledAt by {
          LastIsOrdered(w.log);
        }
      }
    }
  }

  lemma {:induction false} EveryInterleaving(steps: seq<Step>)
    ensures MutexKept(Run(steps)) && StampKept(Run(steps))
  {
    if steps != [] {
      hide MutexKept, StampKept, Next;
      EveryInterleaving(steps[..|steps| - 1]);
      MutexStep(Run(steps[..|steps| - 1]), steps[|steps| - 1]);
      StampStep(Run(steps[..|steps| - 1]), steps[|steps| - 1]);
    } else {
      assert MutexKept(QUIET) && StampKept(QUIET);
    }
  }

  // ---- The throttle -----------------------------------------------------

  /** Under every interleaving, an attempt that nobody forced is stamped at least 500 ms
      after the previous attempt of either kind. Its call comes at least 500 ms after the
      previous call, less the time that call was late on its own stamp. */
  lemma AttemptsAreThrottled(steps: seq<Step>, k: nat)
    requires 0 < k < |Run(steps).log|
    ensures var a, b := Run(steps).log[k - 1], Run(steps).log[k];
            && a.calledAt <= b.stamp
            && (!b.forced ==> b.stamp >= a.stamp + 500_000_000)
            && (!b.forced ==> b.calledAt - a.calledAt >= 500_000_000 - (a.calledAt - a.stamp))
  {
    hide Next;
    EveryInterleaving(steps);
    assert Follows(Run(steps).log[k - 1], Run(steps).log[k]);
  }

  function StampedWithin(log: seq<Attempt>, from: nat, length: nat): nat {
    if log == [] then 0
    else
      var last := log[|log| - 1];
      StampedWithin(log[..|log| - 1], from, length)
      + (if !last.forced && from <= last.stamp <= from + length then 1 else 0)
  }

  function CalledWithin(log: seq<Attempt>, from: nat, length: nat): nat {
    if log == [] then 0
    else
      var last := log[|log| - 1];
      CalledWithin(log[..|log| - 1], from, length)
      + (if !last.forced && from <= last.calledAt <= from + length then 1 else 0)
  }

  lemma ThrottledFront(log: seq<Attempt>)
    requires Throttled(log) && log != []
    ensures Throttled(log[..|log| - 1])
    ensures |log| > 1 ==> Follows(log[|log| - 2], log[|log| - 1])
  {
  }

  lemma Intervals(n: int)
    ensures (n + 1) * MIN_INTERVAL == n * MIN_INTERVAL + MIN_INTERVAL
  {
  }

  lemma {:induction false} StampsSpread(log: seq<Attempt>, from: nat, length: nat)
    requires Throttled(log)
    ensures var n := StampedWithin(log, from, length);
            n > 0 ==>
              && log != [] && from + (n - 1) * MIN_INTERVAL <= log[|log| - 1].stamp
              && (n - 1) * MIN_INTERVAL <= length
  {
    if log != [] {
      ThrottledFront(log);
      var front := log[..|log| - 1];
      StampsSpread(front, from, length);
      Intervals(StampedWithin(front, from, length) - 1);
    }
  }

  lemma {:induction false} CallsSpread(log: seq<Attempt>, from: nat, length: nat)
    requires Throttled(log)
    ensures var n := CalledWithin(log, from, length);
            && (n > 0 ==> log != [] && from <= log[|log| - 1].calledAt)
            && (n > 1 ==> from + (n - 2) * MIN_INTERVAL <= log[|log| - 1].stamp && (n - 2) * MIN_INTERVAL <= length)
  {
    if log != [] {
      ThrottledFront(log);
      var front := log[..|log| - 1];
      CallsSpread(front, from, length);
      Intervals(CalledWithin(front, from, length) - 2);
    }
  }

  lemma CountFromSpan(n: nat, length: nat)
    requires n * MIN_INTERVAL <= length
    ensures n <= length / MIN_INTERVAL
  {
  }

  /** In any window of the given length at most length / 500 ms + 1 unforced attempts are
      stamped, and at most one more is called. */
  lemma AttemptsPerWindow(steps: seq<Step>, from: nat, length: nat)
    ensures StampedWithin(Run(steps).log, from, length) <= length / MIN_INTERVAL + 1
    ensures CalledWithin(Run(steps).log, from, length) <= length / MIN_INTERVAL + 2
  {
    hide Next, StampKept, MutexKept, Throttled;
    EveryInterleaving(steps);
    ThrottledLog(Run(steps));
    var log := Run(steps).log;
    StampsSpread(log, from, length);
    CallsSpread(log, from, length);
    if StampedWithin(log, from, length) > 1 {
      CountFromSpan(StampedWithin(log, from, length) - 1, length);
    }
    if CalledWithin(log, from, length) > 2 {
      CountFromSpan(CalledWithin(log, from, length) - 2, length);
    }
  }

  lemma ThrottledLog(w: World)
    requires StampKept(w)
    ensures Throttled(w.log)
  {
  }

  // ---- The calls themselves may come closer -----------------------------

  lemma Extend(steps: seq<Step>, w: World, step: Step) returns (longer: seq<Step>, w': World)
    requires Run(steps) == w
    ensures longer == steps + [step] && w' == Next(w, step) && Run(longer) == w'
  {
    longer, w' := steps + [step], Next(w, step);
    assert longer[..|longer| - 1] == steps;
  }

  /** In some run an unforced call follows, `gap` later, a call that was `delay` late on
      its own stamp. */
  ghost predicate GapHappens(delay: nat, gap: nat) {
    exists steps, k | 0 < k < |Run(steps).log| :: GapAt(Run(steps).log, k, delay, gap)
  }

  predicate GapAt(log: seq<Attempt>, k: nat, delay: nat, gap: nat)
    requires 0 < k < |log|
  {
    && !log[k].forced
    && log[k - 1].calledAt == log[k - 1].stamp + delay
    && log[k].calledAt == log[k - 1].calledAt + gap
  }

  /** Thread 0 is held up for `delay` between stamping and connecting, and fails. */
  lemma HeldUp(delay: nat) returns (steps: seq<Step>)
    ensures Run(steps) == World(false, None, true, 0, delay, map[0 := Outside], [Attempt(false, 0, delay)])
  {
    var w := QUIET;
    steps := [];
    steps, w := Extend(steps, w, Ensure(0));
    steps, w := Extend(steps, w, Acquire(0));
    steps, w := Extend(steps, w, Recheck(0));
    steps, w := Extend(steps, w, ReadClock(0));
    steps, w := Extend(steps, w, Decide(0));
    assert w == World(false, Some(0), true, 0, 0, map[0 := Connecting(false)], []);
    steps, w := Extend(steps, w, Tick(delay));
    steps, w := Extend(steps, w, CallConnect(0, false));
    assert w == World(false, None, true, 0, delay, map[0 := Outside], [Attempt(false, 0, delay)]);
  }

  /** Thread 1 passes the throttle `gap` later. */
  lemma HeldUpThenNext(delay: nat, gap: nat) returns (steps: seq<Step>)
    requires delay + gap >= MIN_INTERVAL
    ensures Run(steps).log == [Attempt(false, 0, delay), Attempt(false, delay + gap, delay + gap)]
  {
    hide Run;
    var first := HeldUp(delay);
    var w: World;
    steps, w := Extend(first, Run(first), Tick(gap));
    steps, w := Extend(steps, w, Ensure(1));
    steps, w := Extend(steps, w, Acquire(1));
    steps, w := Extend(steps, w, Recheck(1));
    steps, w := Extend(steps, w, ReadClock(1));
    steps, w := Extend(steps, w, Decide(1));
    assert PlaceOf(w, 1) == Connecting(false) && w.clock == w.lastAttempt == delay + gap
           && w.log == [Attempt(false, 0, delay)];
    steps, w := Extend(steps, w, CallConnect(1, false));
  }

  /** 500 ms between attempts holds for the stamps, not for the calls. Exactly those gaps
      before an unforced call happen that, together with the delay of the call before, come
      to 500 ms. */
  lemma CallGaps(delay: nat, gap: nat)
    ensures GapHappens(delay, gap) <==> delay + gap >= MIN_INTERVAL
  {
    hide Run, Next;
    if GapHappens(delay, gap) {
      var steps, k :| 0 < k < |Run(steps).log| && GapAt(Run(steps).log, k, delay, gap);
      AttemptsAreThrottled(steps, k);
    }
    if delay + gap >= MIN_INTERVAL {
      var steps := HeldUpThenNext(delay, gap);
      assert GapAt(Run(steps).log, 1, delay, gap);
    }
  }

  /** After a call that was `delay` late, in every run, every unforced call keeps 500 ms distance. */
  ghost predicate CallsApart(delay: nat) {
    forall steps, k | 0 < k < |Run(steps).log| ::
      var a, b := Run(steps).log[k - 1], Run(steps).log[k];
      !b.forced && a.calledAt == a.stamp + delay ==> b.calledAt - a.calledAt >= MIN_INTERVAL
  }

  /** So calls keep their distance exactly after calls made at the moment of their stamp. */
  lemma CallsApartExact(delay: nat)
    ensures CallsApart(delay) <==> delay == 0
  {
    hide Run, Next;
    if delay == 0 {
      forall steps, k | 0 < k < |Run(steps).log|
        ensures var a, b := Run(steps).log[k - 1], Run(steps).log[k];
                !b.forced && a.calledAt == a.stamp + delay ==> b.calledAt - a.calledAt >= MIN_INTERVAL
      {
        AttemptsAreThrottled(steps, k);
      }
    } else {
      var gap := if delay < MIN_INTERVAL then MIN_INTERVAL - delay else 0;
      CallGaps(delay, gap);
      var steps, k :| 0 < k < |Run(steps).log| && GapAt(Run(steps).log, k, delay, gap);
      assert !CallsApart(delay);
    }
  }

  // ---- An undisturbed thread does what the sequential adapter does -------

  /** A thread that finds the mutex free and is not interrupted makes exactly the change
      of the sequential `ensure_connected`. */
  lemma UndisturbedEnsure(w: World, t: Thread, succeeds: bool)
    requires w.holder == None && PlaceOf(w, t) == Outside
    ensures var w' := Next(Next(Next(Next(Next(Next(w, Ensure(t)), Acquire(t)), Recheck(t)), ReadClock(t)), Decide(t)),
                           CallConnect(t, succeeds));
            var e := EnsureSpec(Connection(true, w.connected, w.attempted, w.lastAttempt), Try(w.clock, succeeds));
            && Connection(true, w'.connected, w'.attempted, w'.lastAttempt) == e.connection
            && w'.holder == None && PlaceOf(w', t) == Outside
            && w'.log == if e.tried then w.log + [Attempt(false, w.clock, w.clock)] else w.log
  {
  }

  /** A forced reconnect never waits, and it restarts the interval: while it has failed
      and 500 ms have not passed, nobody else tries. */
  lemma UndisturbedForce(w: World, t: Thread, succeeds: bool, later: Try)
    requires w.holder == None && PlaceOf(w, t) == Outside
    ensures var stamped := Next(Next(Next(w, Force(t)), Acquire(t)), Stamp(t));
            var w' := Next(stamped, CallConnect(t, succeeds));
            var c' := Connection(true, w'.connected, w'.attempted, w'.lastAttempt);
            && c' == ReconnectSpec(Connection(true, w.connected, w.attempted, w.lastAttempt), Try(w.clock, succeeds))
            && !stamped.connected && stamped.holder == Some(t)
            && w'.log == w.log + [Attempt(true, w.clock, w.clock)]
            && (!succeeds && later.now < w.clock + MIN_INTERVAL ==> !EnsureSpec(c', later).tried)
  {
  }

  /** A thread that is held up inside the mutex after reading the clock: the throttle compares
      and stamps the reading, not the time of the comparison or of the call. */
  lemma LateDecision(w: World, t: Thread, before: nat, after: nat, succeeds: bool)
    requires w.holder == Some(t) && PlaceOf(w, t) == Reading
    ensures var w' := Next(Next(Next(Next(Next(w, ReadClock(t)), Tick(before)), Decide(t)), Tick(after)),
                           CallConnect(t, succeeds));
            && w'.holder == None && PlaceOf(w', t) == Outside
            && if w.attempted && w.clock < w.lastAttempt + MIN_INTERVAL then
                 w'.log == w.log && w'.lastAttempt == w.lastAttempt && w'.connected == w.connected
               else
                 && w'.log == w.log + [Attempt(false, w.clock, w.clock + before + after)]
                 && w'.lastAttempt == w.clock && w'.connected == succeeds
  {
  }

  /** Two threads need the connection, and the first one gets it: the second, which waits for
      the mutex meanwhile, finds it under the mutex and makes no attempt of its own. */
  lemma ReconnectOnce(w: World, t: Thread, u: Thread, succeeds: bool)
    requires t != u && w.holder == Some(t) && PlaceOf(w, t).Connecting? && PlaceOf(w, u) == Waiting(false)
    ensures var first := Next(w, CallConnect(t, true));
            var w' := Next(Next(Next(Next(Next(first, Acquire(u)), Recheck(u)), ReadClock(u)), Decide(u)),
                           CallConnect(u, succeeds));
            && w'.connected && w'.holder == None && PlaceOf(w', u) == Outside
            && w'.log == first.log && |first.log| == |w.log| + 1
            && w'.lastAttempt == w.lastAttempt
  {
  }
}
