/** The diagnostic service: it runs the S3 check before every request, serves requests
    given directly or received over DoIP, and owns the life cycle of the components. */
module DiagServer {
  import opened DiagTypes
  import opened EventTrace
  import Security
  import opened Sessions
  import opened Dispatch
  import opened Codec
  import opened Doip

  datatype Service = Service(initialized: bool, haveSec: bool, haveProv: bool, core: Core, transport: Option<Link>)

  datatype Served = Served(service: Service, response: Response, events: Trace)

  datatype Started = Started(service: Service, code: ErrorCode, events: Trace)

  function CheckS3(core: Core, now: nat): SessionOutcome { CheckS3Spec(core.session, now) }

  function AfterS3(core: Core, now: nat): Core { core.(session := CheckS3(core, now).session) }

  const NOT_INITIALIZED: Response := Response(false, [], NRC_CONDITIONS_NOT_CORRECT, NEGATIVE_RESPONSE, 0)

  function ProcessSpec(s: Service, req: Request, env: Env): Served {
    if !s.initialized then Served(s, NOT_INITIALIZED, [])
    else
      var h := DispatchSpec(AfterS3(s.core, env.s3At), req, env);
      Served(s.(core := h.core), h.response, CheckS3(s.core, env.s3At).events + h.events)
  }

  datatype Polled = Polled(service: Service, events: Trace)

  /** Serves what one receive returned. */
  function ServeReceived(core: Core, r: Received, env: Env): (Core, Link, Trace) {
    if r.data == [] || !Decodable(r.data) then (core, r.link, [])
    else
      var h := DispatchSpec(core, DecodeSpec(r.data, FRESH_REQUEST), env);
      (h.core, SendSpec(r.link, EncodeSpec(h.response)), h.events)
  }

  function PollSpec(s: Service, ready: bool, accepted: Option<bytes>, env: Env): Polled {
    if !s.initialized then Polled(s, [])
    else
      var core, checked := AfterS3(s.core, env.s3At), CheckS3(s.core, env.s3At).events;
      match s.transport
      case None => Polled(s.(core := core), checked)
      case Some(l) =>
        if !l.connected then
          var l' := if accepted.None? then l else l.(connected := true, open := true, input := accepted.value);
          Polled(s.(core := core, transport := Some(l')), checked)
        else
          var (core', l', events) := ServeReceived(core, ReceiveSpec(l, ready), env);
          Polled(s.(core := core', transport := Some(l')), checked + events)
  }

  function InitializeSpec(s: Service, configOk: bool, now: nat): Started {
    if s.initialized then Started(s, Success, [])
    else if !configOk then Started(s, ConfigLoadFailed, [])
    else if !s.haveSec then
      Started(s.(core := s.core.(session := NewSession(now))), SecUnavailable, [SessionCreated(now)])
    else
      var s' := s.(core := Core(NewSession(now), map[]), initialized := s.haveProv);
      Started(s', if s.haveProv then Success else ProvUnavailable, [SessionCreated(now), SecurityReset])
  }

  function ShutdownSpec(s: Service): Polled {
    var link := match s.transport case None => None case Some(l) => Some(l.(connected := false, open := false));
    Polled(s.(initialized := false, transport := link, core := Core(ReleaseSpec(s.core.session).session, map[])),
           [SessionReleased, SecurityReset])
  }

  /** A new SEC interface comes with a new, locked security component. */
  function SetSecSpec(s: Service, present: bool): Polled {
    Polled(s.(haveSec := present, core := s.core.(levels := map[])), [SecurityReset])
  }

  function SetProvSpec(s: Service, present: bool): Polled { Polled(s.(haveProv := present), []) }

  class DiagService {
    const log: EventLog
    var initialized: bool
    var haveSec: bool
    var haveProv: bool
    var session: SessionManager
    var security: Security.SecurityAccess
    var dispatcher: ServiceDispatcher
    var transport: DoIpAdapter?

    constructor (haveSec: bool, haveProv: bool, transport: DoIpAdapter?)
      ensures Valid() && fresh(log) && log.events == []
      ensures !initialized && this.haveSec == haveSec && this.haveProv == haveProv && this.transport == transport
      ensures State() == Core(NewSession(0), map[])
    {
      var l := new EventLog();
      var se := new SessionManager(l, 0);
      var sa := new Security.SecurityAccess(l);
      log, session, security := l, se, sa;
      dispatcher := new ServiceDispatcher(l, se, sa);
      initialized := false;
      this.haveSec, this.haveProv, this.transport := haveSec, haveProv, transport;
    }

    /** Before it is initialized, the service may hold a dispatcher on earlier components. */
    ghost predicate Valid()
      reads this, dispatcher
    {
      && session.log == log && security.log == log
      && (initialized ==>
            && dispatcher.log == log && dispatcher.session == session && dispatcher.security == security
            && dispatcher.Valid()
            && dispatcher.routes == DEFAULT_ROUTES)
    }

    ghost function State(): Core
      reads this, session, security
    {
      Core(session.session, security.states)
    }

    ghost function Value(): Service
      reads this, session, security, transport
    {
      Service(initialized, haveSec, haveProv, State(), if transport == null then None else Some(transport.Value()))
    }

    method Initialize(configOk: bool, now: nat) returns (code: ErrorCode)
      requires Valid()
      modifies this, log
      ensures Valid()
      ensures var o := InitializeSpec(old(Value()), configOk, now);
              Value() == o.service && code == o.code && log.events == old(log.events) + o.events
    {
      if initialized {
        return Success;
      }
      if !configOk {
        return ConfigLoadFailed;
      }
      log.Record(SessionCreated(now));
      session := new SessionManager(log, now);
      assert State() == old(State()).(session := NewSession(now));
      if !haveSec {
        return SecUnavailable;
      }
      log.Record(SecurityReset);
      security := new Security.SecurityAccess(log);
      assert State() == Core(NewSession(now), map[]);
      assert log.events == old(log.events) + [SessionCreated(now), SecurityReset];
      if !haveProv {
        return ProvUnavailable;
      }
      dispatcher := new ServiceDispatcher(log, session, security);
      RegisterDefaultRoutes(dispatcher);
      initialized := true;
      code := Success;
    }

    static method RegisterDefaultRoutes(dispatcher: ServiceDispatcher)
      modifies dispatcher
      ensures dispatcher.routes == old(dispatcher.routes) + DEFAULT_ROUTES
      ensures old(dispatcher.routes) == [] ==> dispatcher.routes == DEFAULT_ROUTES
    {
      dispatcher.RegisterRoute(ROUTINE_CONTROL, RID_WRITE_VIN, PROV, true);
      dispatcher.RegisterRoute(ROUTINE_CONTROL, RID_GENERATE_KEY_PAIR, SEC, true);
      dispatcher.RegisterRoute(ROUTINE_CONTROL, RID_READ_CSR, SEC, true);
      dispatcher.RegisterRoute(ROUTINE_CONTROL, RID_INJECT_CERTIFICATE, SEC, true);
      dispatcher.RegisterRoute(READ_DATA, DID_VIN, PROV, false);
      dispatcher.RegisterRoute(READ_DATA, DID_BINDING_STATE, PROV, false);
    }

    method ProcessRequest(req: Request, env: Env) returns (response: Response)
      requires Valid()
      modifies session, security, log
      ensures Valid()
      ensures var o := ProcessSpec(old(Value()), req, env);
              Value() == o.service && response == o.response && log.events == old(log.events) + o.events
    {
      hide DispatchSpec, CheckS3Spec;
      if !initialized {
        return NOT_INITIALIZED;
      }
      var _ := session.CheckS3Timeout(env.s3At);
      response := dispatcher.Dispatch(req, env);
    }

    method ProcessPendingRequests(ready: bool, accepted: Option<bytes>, delivered: bool, env: Env)
      requires Valid()
      modifies session, security, log, transport
      ensures Valid()
      ensures var o := PollSpec(old(Value()), ready, accepted, env);
              Value() == o.service && log.events == old(log.events) + o.events
    {
      hide DispatchSpec, CheckS3Spec, DecodeSpec, EncodeSpec, ReceiveSpec, SendSpec;
      if !initialized {
        return;
      }
      var _ := session.CheckS3Timeout(env.s3At);
      if transport == null {
        return;
      }
      if !transport.connected {
        var _ := transport.Connect(accepted);
        return;
      }
      var raw := transport.Receive(ready);
      if raw == [] {
        return;
      }
      var ok, request := Decode(raw, FRESH_REQUEST.(transport := DoIp));
      if !ok {
        return;
      }
      var response := dispatcher.Dispatch(request, env);
      var reply := Encode(response);
      var _ := transport.Send(reply, delivered);
    }

    method Shutdown()
      requires Valid()
      modifies this, session, security, log, transport
      ensures Valid()
      ensures var o := ShutdownSpec(old(Value()));
              Value() == o.service && log.events == old(log.events) + o.events
    {
      if transport != null {
        transport.Disconnect();
      }
      session.Release();
      security.Reset();
      initialized := false;
    }

    method SetSec(present: bool)
      requires Valid()
      modifies this, log
      ensures Valid()
      ensures var o := SetSecSpec(old(Value()), present);
              Value() == o.service && log.events == old(log.events) + o.events
    {
      haveSec := present;
      log.Record(SecurityReset);
      security := new Security.SecurityAccess(log);
      dispatcher := new ServiceDispatcher(log, session, security);
      RegisterDefaultRoutes(dispatcher);
    }

    method SetProv(present: bool)
      requires Valid()
      modifies this
      ensures Valid()
      ensures Value() == SetProvSpec(old(Value()), present).service
    {
      haveProv := present;
    }
  }
}
