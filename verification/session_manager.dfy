/** Diagnostic sessions: the session type, the tester that owns it, and the S3 timeout
    (DiagnosticSessionControl and TesterPresent, sections 9.2 and 9.6 of
    ISO 14229-1:2013). */
module Sessions {
  import opened DiagTypes
  import opened EventTrace

  datatype SessionState = Idle | Active | SecurityUnlocked | TimedOut

  datatype Session = Session(
    owner: u16,
    kind: SessionKind,
    state: SessionState,
    securityUnlocked: bool,
    transport: Transport,
    lastTesterPresent: nat,
    startedAt: nat)

  function NewSession(now: nat): Session {
    Session(0, Default, Idle, false, DoIp, now, 0)
  }

  /** The session a type byte names, if it names one. */
  function KindOf(sessionType: byte): Option<SessionKind> {
    match sessionType
    case 0x01 => Some(Default)
    case 0x02 => Some(Programming)
    case 0x03 => Some(Extended)
    case _ => None
  }

  datatype SessionOutcome = SessionOutcome(session: Session, code: ErrorCode, events: Trace)

  function SwitchSpec(s: Session, sessionType: byte, source: u16, transport: Transport, startedAt: nat, presentAt: nat)
    : SessionOutcome
  {
    if s.state == Active && s.owner != source && s.kind != Default then
      SessionOutcome(s, SessionStateNotAllowed, [])
    else match KindOf(sessionType)
      case None => SessionOutcome(s, InvalidRequestFormat, [])
      case Some(kind) =>
        SessionOutcome(
          Session(source, kind, Active, if kind == Default then false else s.securityUnlocked, transport,
                  presentAt, startedAt),
          Success,
          [SessionSwitched(kind, source, presentAt)])
  }

  function TesterPresentSpec(s: Session, source: u16, now: nat): SessionOutcome {
    if s.state != Active || s.owner != source then SessionOutcome(s, SessionStateNotAllowed, [])
    else SessionOutcome(s.(lastTesterPresent := now), Success, [TesterPresented(source, now)])
  }

  /** The S3 check. A session that times out stays with its owner but becomes default. */
  function CheckS3Spec(s: Session, now: nat): SessionOutcome {
    if s.kind == Default then SessionOutcome(s, Success, [])
    else if WholeMs(now - s.lastTesterPresent) > S3_MS then
      SessionOutcome(s.(kind := Default, state := Active, securityUnlocked := false), Success, [S3Expired(now)])
    else SessionOutcome(s, Success, [S3Passed(now)])
  }

  function ReleaseSpec(s: Session): SessionOutcome {
    SessionOutcome(s.(kind := Default, state := Idle, securityUnlocked := false, owner := 0),
                   Success, [SessionReleased])
  }

  function DefaultSpec(s: Session, now: nat): SessionOutcome {
    SessionOutcome(s.(kind := Default, state := Active, securityUnlocked := false, lastTesterPresent := now),
                   Success, [SessionDefaulted(now)])
  }

  class SessionManager {
    const log: EventLog
    var session: Session

    constructor (log: EventLog, now: nat)
      ensures this.log == log && session == NewSession(now)
    {
      this.log := log;
      session := Session(0, Default, Idle, false, DoIp, now, 0);
    }

    method SwitchSession(sessionType: byte, source: u16, transport: Transport, startedAt: nat, presentAt: nat)
      returns (code: ErrorCode)
      modifies this, log
      ensures var o := SwitchSpec(old(session), sessionType, source, transport, startedAt, presentAt);
              session == o.session && code == o.code && log.events == old(log.events) + o.events
    {
      if session.state == Active && session.owner != source && session.kind != Default {
        return SessionStateNotAllowed;
      }
      if sessionType != 0x01 && sessionType != 0x03 && sessionType != 0x02 {
        return InvalidRequestFormat;
      }
      var kind := if sessionType == 0x01 then Default else if sessionType == 0x02 then Programming else Extended;
      session := session.(owner := source);
      session := session.(kind := kind);
      session := session.(state := Active);
      session := session.(transport := transport);
      session := session.(startedAt := startedAt);
      session := session.(lastTesterPresent := presentAt);
      if sessionType == 0x01 {
        session := session.(securityUnlocked := false);
      }
      log.Record(SessionSwitched(kind, source, presentAt));
      code := Success;
    }

    method HandleTesterPresent(source: u16, now: nat) returns (code: ErrorCode)
      modifies this, log
      ensures var o := TesterPresentSpec(old(session), source, now);
              session == o.session && code == o.code && log.events == old(log.events) + o.events
    {
      if session.state != Active {
        return SessionStateNotAllowed;
      }
      if session.owner != source {
        return SessionStateNotAllowed;
      }
      session := session.(lastTesterPresent := now);
      log.Record(TesterPresented(source, now));
      code := Success;
    }

    method CheckS3Timeout(now: nat) returns (expired: bool)
      modifies this, log
      ensures var o := CheckS3Spec(old(session), now);
              session == o.session && log.events == old(log.events) + o.events
      ensures expired <==> old(session.kind) != Default && session.kind == Default
    {
      if session.kind == Default {
        return false;
      }
      var elapsed := WholeMs(now - session.lastTesterPresent);
      if elapsed > S3_MS {
        session := session.(kind := Default);
        session := session.(state := Active);
        session := session.(securityUnlocked := false);
        log.Record(S3Expired(now));
        return true;
      }
      log.Record(S3Passed(now));
      expired := false;
    }

    method Release()
      modifies this, log
      ensures session == ReleaseSpec(old(session)).session
      ensures log.events == old(log.events) + ReleaseSpec(old(session)).events
    {
      session := session.(kind := Default);
      session := session.(state := Idle);
      session := session.(securityUnlocked := false);
      session := session.(owner := 0);
      log.Record(SessionReleased);
    }

    method ResetToDefault(now: nat)
      modifies this, log
      ensures session == DefaultSpec(old(session), now).session
      ensures log.events == old(log.events) + DefaultSpec(old(session), now).events
    {
      session := session.(kind := Default);
      session := session.(state := Active);
      session := session.(securityUnlocked := false);
      session := session.(lastTesterPresent := now);
      log.Record(SessionDefaulted(now));
    }
  }

  // ---- The session agrees with the trace --------------------------------

  /** Type, owner, activity and last refresh are those of the trace; a non-default session
      is active; the session's own `securityUnlocked` flag is never raised. */
  ghost predicate SessionAgrees(s: Session, trace: Trace) {
    var v := ViewOf(trace);
    && s.kind == v.kind && s.owner == v.owner && s.lastTesterPresent == v.refreshedAt
    && (s.state == Active <==> v.active) && (s.kind != Default ==> s.state == Active)
    && !s.securityUnlocked
  }

  lemma SessionEventAgrees(s: Session, s': Session, trace: Trace, e: Event)
    requires Disciplined(trace) && SessionAgrees(s, trace) && Allowed(trace, e)
    requires var v := Watch(ViewOf(trace), e, |trace|);
             s'.kind == v.kind && s'.owner == v.owner && s'.lastTesterPresent == v.refreshedAt
    requires (s'.state == Active <==> Watch(ViewOf(trace), e, |trace|).active)
    requires (s'.kind != Default ==> s'.state == Active) && !s'.securityUnlocked
    ensures Disciplined(trace + [e]) && SessionAgrees(s', trace + [e])
  {
    Appended(trace, e);
  }

  lemma CheckS3Agrees(s: Session, trace: Trace, now: nat)
    requires Disciplined(trace) && SessionAgrees(s, trace) && s.lastTesterPresent <= now
    ensures var o := CheckS3Spec(s, now);
            && Disciplined(trace + o.events) && SessionAgrees(o.session, trace + o.events)
            && CheckedAt(o.session, trace + o.events, now)
  {
    var o := CheckS3Spec(s, now);
    if o.events == [] {
      assert trace + o.events == trace;
    } else {
      SessionEventAgrees(s, o.session, trace, o.events[0]);
      assert trace + o.events == trace + [o.events[0]];
    }
  }

  lemma DefaultAgrees(s: Session, trace: Trace, now: nat)
    requires Disciplined(trace) && SessionAgrees(s, trace)
    ensures var o := DefaultSpec(s, now);
            Disciplined(trace + o.events) && SessionAgrees(o.session, trace + o.events)
  {
    SessionEventAgrees(s, DefaultSpec(s, now).session, trace, SessionDefaulted(now));
  }

  /** The last event of the trace is a passed S3 check at `now`, unless the session is default. */
  ghost predicate CheckedAt(s: Session, trace: Trace, now: nat) {
    s.kind != Default ==>
      && trace != [] && trace[|trace| - 1] == S3Passed(now)
      && s.lastTesterPresent <= now && WholeMs(now - s.lastTesterPresent) <= S3_MS
  }

  lemma SwitchAgrees(s: Session, trace: Trace, checkedAt: nat, sessionType: byte, source: u16, transport: Transport,
                     startedAt: nat, presentAt: nat)
    requires Disciplined(trace) && SessionAgrees(s, trace) && CheckedAt(s, trace, checkedAt)
    requires checkedAt <= presentAt
    ensures var o := SwitchSpec(s, sessionType, source, transport, startedAt, presentAt);
            Disciplined(trace + o.events) && SessionAgrees(o.session, trace + o.events)
  {
    var o := SwitchSpec(s, sessionType, source, transport, startedAt, presentAt);
    if o.events == [] {
      assert trace + o.events == trace;
    } else {
      SessionEventAgrees(s, o.session, trace, o.events[0]);
      assert trace + o.events == trace + [o.events[0]];
    }
  }

  lemma TesterPresentAgrees(s: Session, trace: Trace, checkedAt: nat, source: u16, now: nat)
    requires Disciplined(trace) && SessionAgrees(s, trace) && CheckedAt(s, trace, checkedAt)
    requires checkedAt <= now
    ensures var o := TesterPresentSpec(s, source, now);
            Disciplined(trace + o.events) && SessionAgrees(o.session, trace + o.events)
  {
    var o := TesterPresentSpec(s, source, now);
    if o.events == [] {
      assert trace + o.events == trace;
    } else {
      SessionEventAgrees(s, o.session, trace, o.events[0]);
      assert trace + o.events == trace + [o.events[0]];
    }
  }
}
