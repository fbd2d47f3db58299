/** The UDS dispatcher: it drives the session and security components, gates the calls
    to SEC and PROV, and builds the responses. */
module Dispatch {
  import opened DiagTypes
  import opened EventTrace
  import opened Security
  import opened Sessions

  // ---- Routing table ----------------------------------------------------

  datatype Downstream = PROV | SEC

  datatype RoutingEntry = RoutingEntry(serviceId: byte, didOrRid: u16, downstream: Downstream, requiresUnlock: bool)

  /** The first entry for a service and identifier. */
  function FindRoute(table: seq<RoutingEntry>, serviceId: byte, didOrRid: u16): Option<RoutingEntry> {
    if table == [] then None
    else if Names(table[0], serviceId, didOrRid) then Some(table[0])
    else FindRoute(table[1..], serviceId, didOrRid)
  }

  predicate Names(entry: RoutingEntry, serviceId: byte, didOrRid: u16) {
    entry.serviceId == serviceId && entry.didOrRid == didOrRid
  }

  lemma {:induction false} FindRouteIsFirst(table: seq<RoutingEntry>, serviceId: byte, didOrRid: u16)
    ensures match FindRoute(table, serviceId, didOrRid)
            case None => forall i | 0 <= i < |table| :: !Names(table[i], serviceId, didOrRid)
            case Some(e) =>
              exists i | 0 <= i < |table| ::
                && table[i] == e && Names(e, serviceId, didOrRid)
                && forall j | 0 <= j < i :: !Names(table[j], serviceId, didOrRid)
  {
    if table != [] && !Names(table[0], serviceId, didOrRid) {
      FindRouteIsFirst(table[1..], serviceId, didOrRid);
      var found := FindRoute(table[1..], serviceId, didOrRid);
      if found.Some? {
        var i :| 0 <= i < |table[1..]| && table[1..][i] == found.value
                 && forall j | 0 <= j < i :: !Names(table[1..][j], serviceId, didOrRid);
        assert table[i + 1] == found.value;
        assert forall j | 0 < j < i + 1 :: table[j] == table[1..][j - 1];
      }
    }
  }

  const DEFAULT_ROUTES: seq<RoutingEntry> := [
    RoutingEntry(ROUTINE_CONTROL, RID_WRITE_VIN, PROV, true),
    RoutingEntry(ROUTINE_CONTROL, RID_GENERATE_KEY_PAIR, SEC, true),
    RoutingEntry(ROUTINE_CONTROL, RID_READ_CSR, SEC, true),
    RoutingEntry(ROUTINE_CONTROL, RID_INJECT_CERTIFICATE, SEC, true),
    RoutingEntry(READ_DATA, DID_VIN, PROV, false),
    RoutingEntry(READ_DATA, DID_BINDING_STATE, PROV, false)
  ]

  // ---- Responses --------------------------------------------------------

  function Positive(serviceId: byte, subFunction: byte, data: bytes): Response {
    Response(true, data, 0, (serviceId + 0x40) % 0x100, subFunction)
  }

  function Negative(serviceId: byte, nrc: byte): Response {
    Response(false, [], nrc, NEGATIVE_RESPONSE, serviceId)
  }

  // ---- What a request does ----------------------------------------------

  /** Session and security state; every request works on both. */
  datatype Core = Core(session: Session, levels: Levels)

  datatype Handled = Handled(core: Core, response: Response, events: Trace)

  function Reply(core: Core, response: Response): Handled { Handled(core, response, []) }

  function Refuse(core: Core, serviceId: byte, nrc: byte): Handled { Reply(core, Negative(serviceId, nrc)) }

  function SessionControlSpec(core: Core, req: Request, env: Env): Handled {
    var sessionType: byte := req.subFunction % 0x80;
    var o := SwitchSpec(core.session, sessionType, req.source, req.transport, env.firstAt, env.secondAt);
    Handled(core.(session := o.session),
            if o.code == Success then Positive(SESSION_CONTROL, sessionType, Big16(P2_MS) + Big16(P2_STAR_MS / 10))
            else if o.code == SessionStateNotAllowed then Negative(SESSION_CONTROL, NRC_CONDITIONS_NOT_CORRECT)
            else Negative(SESSION_CONTROL, NRC_INCORRECT_LENGTH),
            o.events)
  }

  function HandleTesterPresentSpec(core: Core, req: Request, env: Env): Handled {
    var o := TesterPresentSpec(core.session, req.source, env.firstAt);
    Handled(core.(session := o.session),
            if o.code == Success then Positive(TESTER_PRESENT, req.subFunction, [])
            else Negative(TESTER_PRESENT, NRC_CONDITIONS_NOT_CORRECT),
            o.events)
  }

  function SecurityAccessSpec(core: Core, req: Request, env: Env): Handled {
    var level: byte := req.subFunction % 0x80;
    if level == LEVEL_1 then
      var o := RequestSeedSpec(core.levels, level, env.sec, env.firstAt);
      Handled(core.(levels := o.levels),
              if o.code == Success then Positive(SECURITY_ACCESS, req.subFunction, o.seed)
              else if o.code == SecUnavailable then Negative(SECURITY_ACCESS, NRC_CONDITIONS_NOT_CORRECT)
              else Negative(SECURITY_ACCESS, NRC_SECURITY_DENIED),
              o.events)
    else if level == LEVEL_1 + 1 then
      var o := SendKeySpec(core.levels, level, req.payload, env.sec, env.firstAt, env.secondAt);
      Handled(core.(levels := o.levels),
              if o.code == Success then Positive(SECURITY_ACCESS, req.subFunction, [])
              else if o.code == SecUnavailable then Negative(SECURITY_ACCESS, NRC_CONDITIONS_NOT_CORRECT)
              else Negative(SECURITY_ACCESS, NRC_INVALID_KEY),
              o.events)
    else Refuse(core, SECURITY_ACCESS, NRC_SUB_FUNCTION_NOT_SUPPORTED)
  }

  predicate CertificateRoutine(rid: u16) {
    rid == RID_GENERATE_KEY_PAIR || rid == RID_READ_CSR || rid == RID_INJECT_CERTIFICATE
  }

  function NrcOfCertFailure(failure: CertFailure): byte {
    match failure
    case SecGone => NRC_CONDITIONS_NOT_CORRECT
    case StateNotAllowed => NRC_SEQUENCE_ERROR
    case InvalidFormat | KeyMismatch | CertExpired => NRC_OUT_OF_RANGE
    case StorageFailed | UnknownFailure | NoFailure => NRC_PROGRAMMING_FAILURE
  }

  function RoutineDone(core: Core, req: Request, op: Operation, data: bytes): Handled {
    Handled(core, Positive(ROUTINE_CONTROL, req.subFunction, Big16(req.didOrRid) + data), [Called(op)])
  }

  function RoutineFailed(core: Core, op: Operation, nrc: byte): Handled {
    Handled(core, Negative(ROUTINE_CONTROL, nrc), [Called(op)])
  }

  /** The three certificate routines, once the session is programming. */
  function CertificateSpec(core: Core, req: Request, sec: SecAnswers): Handled {
    if !Unlocked(core.levels, LEVEL_1) then Refuse(core, ROUTINE_CONTROL, NRC_SECURITY_DENIED)
    else if !sec.available then Refuse(core, ROUTINE_CONTROL, NRC_CONDITIONS_NOT_CORRECT)
    else if req.didOrRid == RID_GENERATE_KEY_PAIR then
      if sec.keyPairMade then RoutineDone(core, req, GenerateKeyPair, [])
      else RoutineFailed(core, GenerateKeyPair, NRC_PROGRAMMING_FAILURE)
    else if req.didOrRid == RID_READ_CSR then
      if sec.csrMade then RoutineDone(core, req, GetCsr, sec.csr)
      else RoutineFailed(core, GetCsr, NRC_PROGRAMMING_FAILURE)
    else if req.payload == [] then Refuse(core, ROUTINE_CONTROL, NRC_INCORRECT_LENGTH)
    else if sec.certInstalled then RoutineDone(core, req, InjectCertificate(req.payload), [])
    else RoutineFailed(core, InjectCertificate(req.payload), NrcOfCertFailure(sec.certFailure))
  }

  /** Every other routine. */
  function ProvRoutineSpec(core: Core, req: Request, prov: ProvAnswers): Handled {
    if !Unlocked(core.levels, LEVEL_1) then Refuse(core, ROUTINE_CONTROL, NRC_SECURITY_DENIED)
    else if !prov.available then Refuse(core, ROUTINE_CONTROL, NRC_CONDITIONS_NOT_CORRECT)
    else if req.didOrRid != RID_WRITE_VIN then Refuse(core, ROUTINE_CONTROL, NRC_OUT_OF_RANGE)
    else if |req.payload| < VIN_LENGTH then Refuse(core, ROUTINE_CONTROL, NRC_INCORRECT_LENGTH)
    else
      var op := WriteVin(req.payload[..VIN_LENGTH], req.payload[VIN_LENGTH..]);
      if prov.writeCode == Success then RoutineDone(core, req, op, [])
      else RoutineFailed(core, op, NRC_PROGRAMMING_FAILURE)
  }

  function RoutineControlSpec(core: Core, req: Request, env: Env): Handled {
    if CertificateRoutine(req.didOrRid) then
      if core.session.kind != Programming then Refuse(core, ROUTINE_CONTROL, NRC_NOT_IN_SESSION)
      else CertificateSpec(core, req, env.sec)
    else ProvRoutineSpec(core, req, env.prov)
  }

  function ReadDataSpec(core: Core, req: Request, prov: ProvAnswers): Handled {
    if req.didOrRid != DID_VIN && req.didOrRid != DID_BINDING_STATE then Refuse(core, READ_DATA, NRC_OUT_OF_RANGE)
    else if !prov.available then Refuse(core, READ_DATA, NRC_CONDITIONS_NOT_CORRECT)
    else if !prov.readValid then Handled(core, Negative(READ_DATA, NRC_CONDITIONS_NOT_CORRECT), [Called(ReadVin)])
    else
      var data := if req.didOrRid == DID_VIN then prov.vin else prov.bindState;
      Handled(core, Positive(READ_DATA, 0, Big16(req.didOrRid) + data), [Called(ReadVin)])
  }

  function DispatchSpec(core: Core, req: Request, env: Env): Handled {
    if req.serviceId == SESSION_CONTROL then SessionControlSpec(core, req, env)
    else if req.serviceId == TESTER_PRESENT then HandleTesterPresentSpec(core, req, env)
    else if req.serviceId == SECURITY_ACCESS then SecurityAccessSpec(core, req, env)
    else if req.serviceId == ROUTINE_CONTROL then RoutineControlSpec(core, req, env)
    else if req.serviceId == READ_DATA then ReadDataSpec(core, req, env.prov)
    else Refuse(core, req.serviceId, NRC_SERVICE_NOT_SUPPORTED)
  }

  class ServiceDispatcher {
    const log: EventLog
    const session: SessionManager
    const security: SecurityAccess
    var routes: seq<RoutingEntry>

    constructor (log: EventLog, session: SessionManager, security: SecurityAccess)
      requires session.log == log && security.log == log
      ensures this.log == log && this.session == session && this.security == security && routes == []
      ensures Valid()
    {
      this.log, this.session, this.security := log, session, security;
      routes := [];
    }

    predicate Valid() { session.log == log && security.log == log }

    ghost function State(): Core
      reads session, security
    {
      Core(session.session, security.states)
    }

    method RegisterRoute(serviceId: byte, didOrRid: u16, downstream: Downstream, requiresUnlock: bool)
      modifies this
      ensures routes == old(routes) + [RoutingEntry(serviceId, didOrRid, downstream, requiresUnlock)]
    {
      routes := routes + [RoutingEntry(serviceId, didOrRid, downstream, requiresUnlock)];
    }

    method CheckSecurityRequired(serviceId: byte, didOrRid: u16) returns (required: bool)
      ensures var found := FindRoute(routes, serviceId, didOrRid);
              required <==> found.Some? && found.value.requiresUnlock
    {
      var i := 0;
      while i < |routes|
        invariant 0 <= i <= |routes|
        invariant FindRoute(routes, serviceId, didOrRid) == FindRoute(routes[i..], serviceId, didOrRid)
      {
        if routes[i].serviceId == serviceId && routes[i].didOrRid == didOrRid {
          return routes[i].requiresUnlock;
        }
        assert routes[i..][1..] == routes[i + 1..];
        i := i + 1;
      }
      required := false;
    }

    method Dispatch(req: Request, env: Env) returns (response: Response)
      requires Valid()
      modifies session, security, log
      ensures var h := DispatchSpec(old(State()), req, env);
              State() == h.core && response == h.response && log.events == old(log.events) + h.events
    {
      if req.serviceId == SESSION_CONTROL {
        response := HandleSessionControl(req, env);
      } else if req.serviceId == TESTER_PRESENT {
        response := HandleTesterPresent(req, env);
      } else if req.serviceId == SECURITY_ACCESS {
        response := HandleSecurityAccess(req, env);
      } else if req.serviceId == ROUTINE_CONTROL {
        response := HandleRoutineControl(req, env);
      } else if req.serviceId == READ_DATA {
        response := HandleReadData(req, env);
      } else {
        response := Negative(req.serviceId, NRC_SERVICE_NOT_SUPPORTED);
      }
    }

    method HandleSessionControl(req: Request, env: Env) returns (response: Response)
      requires Valid()
      modifies session, log
      ensures var h := SessionControlSpec(old(State()), req, env);
              State() == h.core && response == h.response && log.events == old(log.events) + h.events
    {
      var sessionType: byte := req.subFunction % 0x80;
      var code := session.SwitchSession(sessionType, req.source, req.transport, env.firstAt, env.secondAt);
      if code != Success {
        var nrc := if code == SessionStateNotAllowed then NRC_CONDITIONS_NOT_CORRECT else NRC_INCORRECT_LENGTH;
        return Negative(SESSION_CONTROL, nrc);
      }
      response := Positive(SESSION_CONTROL, sessionType, Big16(P2_MS) + Big16(P2_STAR_MS / 10));
    }

    method HandleTesterPresent(req: Request, env: Env) returns (response: Response)
      requires Valid()
      modifies session, log
      ensures var h := HandleTesterPresentSpec(old(State()), req, env);
              State() == h.core && response == h.response && log.events == old(log.events) + h.events
    {
      var code := session.HandleTesterPresent(req.source, env.firstAt);
      if code != Success {
        return Negative(TESTER_PRESENT, NRC_CONDITIONS_NOT_CORRECT);
      }
      response := Positive(TESTER_PRESENT, req.subFunction, []);
    }

    method HandleSecurityAccess(req: Request, env: Env) returns (response: Response)
      requires Valid()
      modifies security, log
      ensures var h := SecurityAccessSpec(old(State()), req, env);
              State() == h.core && response == h.response && log.events == old(log.events) + h.events
    {
      var level: byte := req.subFunction % 0x80;
      if level != LEVEL_1 && level != LEVEL_1 + 1 {
        return Negative(SECURITY_ACCESS, NRC_SUB_FUNCTION_NOT_SUPPORTED);
      }
      if level % 2 != 0 {
        var code, seed := security.RequestSeed(level, env.sec, env.firstAt);
        if code != Success {
          return Negative(SECURITY_ACCESS,
                          if code == SecUnavailable then NRC_CONDITIONS_NOT_CORRECT else NRC_SECURITY_DENIED);
        }
        response := Positive(SECURITY_ACCESS, req.subFunction, seed);
      } else {
        var code := security.SendKey(level, req.payload, env.sec, env.firstAt, env.secondAt);
        if code != Success {
          return Negative(SECURITY_ACCESS,
                          if code == SecUnavailable then NRC_CONDITIONS_NOT_CORRECT else NRC_INVALID_KEY);
        }
        response := Positive(SECURITY_ACCESS, req.subFunction, []);
      }
    }

    method HandleRoutineControl(req: Request, env: Env) returns (response: Response)
      requires Valid()
      modifies log
      ensures var h := RoutineControlSpec(State(), req, env);
              State() == h.core && response == h.response && log.events == old(log.events) + h.events
    {
      var rid := req.didOrRid;
      if rid == RID_GENERATE_KEY_PAIR || rid == RID_READ_CSR || rid == RID_INJECT_CERTIFICATE {
        if session.session.kind != Programming {
          return Negative(ROUTINE_CONTROL, NRC_NOT_IN_SESSION);
        }
      }
      if rid == RID_GENERATE_KEY_PAIR {
        response := HandleGenerateKeyPair(req, env.sec);
        return;
      }
      if rid == RID_READ_CSR {
        response := HandleReadCsr(req, env.sec);
        return;
      }
      if rid == RID_INJECT_CERTIFICATE {
        response := HandleInjectCertificate(req, env.sec);
        return;
      }
      response := HandleProvRoutine(req, env.prov);
    }

    method HandleProvRoutine(req: Request, prov: ProvAnswers) returns (response: Response)
      requires Valid()
      modifies log
      ensures var h := ProvRoutineSpec(State(), req, prov);
              State() == h.core && response == h.response && log.events == old(log.events) + h.events
    {
      if !security.IsUnlocked(LEVEL_1) {
        return Negative(ROUTINE_CONTROL, NRC_SECURITY_DENIED);
      }
      if !prov.available {
        return Negative(ROUTINE_CONTROL, NRC_CONDITIONS_NOT_CORRECT);
      }
      if req.didOrRid == RID_WRITE_VIN {
        if |req.payload| < VIN_LENGTH {
          return Negative(ROUTINE_CONTROL, NRC_INCORRECT_LENGTH);
        }
        var vin := req.payload[..VIN_LENGTH];
        var extra := req.payload[VIN_LENGTH..];
        log.Record(Called(WriteVin(vin, extra)));
        if prov.writeCode != Success {
          return Negative(ROUTINE_CONTROL, NRC_PROGRAMMING_FAILURE);
        }
        return Positive(ROUTINE_CONTROL, req.subFunction, Big16(req.didOrRid));
      }
      response := Negative(ROUTINE_CONTROL, NRC_OUT_OF_RANGE);
    }

    method HandleGenerateKeyPair(req: Request, sec: SecAnswers) returns (response: Response)
      requires Valid() && req.didOrRid == RID_GENERATE_KEY_PAIR
      modifies log
      ensures var h := CertificateSpec(State(), req, sec);
              State() == h.core && response == h.response && log.events == old(log.events) + h.events
    {
      if !security.IsUnlocked(LEVEL_1) {
        return Negative(ROUTINE_CONTROL, NRC_SECURITY_DENIED);
      }
      if !sec.available {
        return Negative(ROUTINE_CONTROL, NRC_CONDITIONS_NOT_CORRECT);
      }
      log.Record(Called(GenerateKeyPair));
      if !sec.keyPairMade {
        return Negative(ROUTINE_CONTROL, NRC_PROGRAMMING_FAILURE);
      }
      response := Positive(ROUTINE_CONTROL, req.subFunction, Big16(req.didOrRid));
    }

    method HandleReadCsr(req: Request, sec: SecAnswers) returns (response: Response)
      requires Valid() && req.didOrRid == RID_READ_CSR
      modifies log
      ensures var h := CertificateSpec(State(), req, sec);
              State() == h.core && response == h.response && log.events == old(log.events) + h.events
    {
      if !security.IsUnlocked(LEVEL_1) {
        return Negative(ROUTINE_CONTROL, NRC_SECURITY_DENIED);
      }
      if !sec.available {
        return Negative(ROUTINE_CONTROL, NRC_CONDITIONS_NOT_CORRECT);
      }
      log.Record(Called(GetCsr));
      if !sec.csrMade {
        return Negative(ROUTINE_CONTROL, NRC_PROGRAMMING_FAILURE);
      }
      var data := Big16(req.didOrRid);
      data := data + sec.csr;
      response := Positive(ROUTINE_CONTROL, req.subFunction, data);
    }

    method HandleInjectCertificate(req: Request, sec: SecAnswers) returns (response: Response)
      requires Valid() && req.didOrRid == RID_INJECT_CERTIFICATE
      modifies log
      ensures var h := CertificateSpec(State(), req, sec);
              State() == h.core && response == h.response && log.events == old(log.events) + h.events
    {
      if !security.IsUnlocked(LEVEL_1) {
        return Negative(ROUTINE_CONTROL, NRC_SECURITY_DENIED);
      }
      if !sec.available {
        return Negative(ROUTINE_CONTROL, NRC_CONDITIONS_NOT_CORRECT);
      }
      if req.payload == [] {
        return Negative(ROUTINE_CONTROL, NRC_INCORRECT_LENGTH);
      }
      log.Record(Called(InjectCertificate(req.payload)));
      if !sec.certInstalled {
        return Negative(ROUTINE_CONTROL, NrcOfCertFailure(sec.certFailure));
      }
      response := Positive(ROUTINE_CONTROL, req.subFunction, Big16(req.didOrRid));
    }

    method HandleReadData(req: Request, env: Env) returns (response: Response)
      requires Valid()
      modifies log
      ensures var h := ReadDataSpec(State(), req, env.prov);
              State() == h.core && response == h.response && log.events == old(log.events) + h.events
    {
      var did := req.didOrRid;
      if did == DID_VIN || did == DID_BINDING_STATE {
        if !env.prov.available {
          return Negative(READ_DATA, NRC_CONDITIONS_NOT_CORRECT);
        }
        log.Record(Called(ReadVin));
        if !env.prov.readValid {
          return Negative(READ_DATA, NRC_CONDITIONS_NOT_CORRECT);
        }
        var data := Big16(did);
        if did == DID_VIN {
          data := data + env.prov.vin;
        } else {
          data := data + env.prov.bindState;
        }
        return Positive(READ_DATA, 0, data);
      }
      response := Negative(READ_DATA, NRC_OUT_OF_RANGE);
    }
  }

  // ---- Gates and table agree --------------------------------------------

  function DownstreamOf(op: Operation): Downstream {
    if op.WriteVin? || op.ReadVin? then PROV else SEC
  }

  /** With the default routes, whatever a routine or read request calls is what the table
      names for it, and the table's unlock requirement is met. */
  lemma GatesRefineTable(core: Core, req: Request, env: Env, e: Event)
    requires req.serviceId == ROUTINE_CONTROL || req.serviceId == READ_DATA
    requires e in DispatchSpec(core, req, env).events
    ensures e.Called?
    ensures var route := FindRoute(DEFAULT_ROUTES, req.serviceId, req.didOrRid);
            && route.Some?
            && route.value.downstream == DownstreamOf(e.op)
            && (route.value.requiresUnlock <==> Privileged(e.op))
            && (route.value.requiresUnlock ==> Unlocked(core.levels, LEVEL_1))
  {
    DefaultRoute(req.serviceId, req.didOrRid);
  }

  /** The linear search through the six default routes, read off the identifiers. */
  lemma DefaultRoute(serviceId: byte, id: u16)
    ensures var route := FindRoute(DEFAULT_ROUTES, serviceId, id);
            if serviceId == ROUTINE_CONTROL && id == RID_WRITE_VIN then
              route == Some(RoutingEntry(serviceId, id, PROV, true))
            else if serviceId == ROUTINE_CONTROL && CertificateRoutine(id) then
              route == Some(RoutingEntry(serviceId, id, SEC, true))
            else if serviceId == READ_DATA && (id == DID_VIN || id == DID_BINDING_STATE) then
              route == Some(RoutingEntry(serviceId, id, PROV, false))
            else route == None
  {
    FindRouteIsFirst(DEFAULT_ROUTES, serviceId, id);
    assert forall e: RoutingEntry :: e in DEFAULT_ROUTES <==>
      e in [DEFAULT_ROUTES[0], DEFAULT_ROUTES[1], DEFAULT_ROUTES[2],
            DEFAULT_ROUTES[3], DEFAULT_ROUTES[4], DEFAULT_ROUTES[5]];
  }

  // ---- Rejections -------------------------------------------------------

  /** A negative response leaves the session alone, and leaves every security entry alone
      exactly when no key was put to SEC and failed. A refused sendKey may insert an
      entry, but one that reads like the missing one. */
  lemma RejectionsChangeNothing(core: Core, req: Request, env: Env)
    requires !DispatchSpec(core, req, env).response.positive
    ensures var h := DispatchSpec(core, req, env);
            && h.core.session == core.session
            && ((forall level: byte :: At(h.core.levels, level) == At(core.levels, level))
                <==> forall e | e in h.events :: !e.KeyFailed?)
  {
    var h := DispatchSpec(core, req, env);
    if req.serviceId == SECURITY_ACCESS {
      if h.events != [] {
        assert h.events[0].KeyFailed?;
        assert At(h.core.levels, LEVEL_1) != At(core.levels, LEVEL_1);
      }
    }
  }

  /** All queries on the security component are queries on its entries. */
  lemma QueriesReadEntries(a: Levels, b: Levels, level: byte, now: nat)
    requires forall l: byte :: At(a, l) == At(b, l)
    ensures Unlocked(a, level) <==> Unlocked(b, level)
    ensures LockedOut(a, level, now) <==> LockedOut(b, level, now)
  {
    assert At(a, level) == At(b, level);
    assert At(a, UnlockKey(level)) == At(b, UnlockKey(level));
  }
}
