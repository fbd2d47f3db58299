/** The adapter to the PROV service: a VIN write in two ordered steps. */
module Prov {
  import opened DiagTypes
  import opened Reconnect

  const PROV_SUCCESS: u32 := 0

  datatype ClientCall = WriteVinCall(vin: bytes) | WriteConfigCall(config: bytes)

  /** Results of the two client calls and the connection after each. */
  datatype WriteAnswers = WriteAnswers(vinResult: u32, afterVin: bool, configResult: u32, afterConfig: bool)

  function MapProvError(code: u32): (e: ErrorCode)
    ensures e in {SecurityAccessDenied, InvalidRequestFormat, DownstreamExecutionFailed, InternalError}
    ensures e == SecurityAccessDenied <==> code == 1001
    ensures e == InvalidRequestFormat <==> code == 1002
    ensures e == DownstreamExecutionFailed <==> 1003 <= code <= 1010
  {
    if code == 1001 then SecurityAccessDenied
    else if code == 1002 then InvalidRequestFormat
    else if 1003 <= code <= 1010 then DownstreamExecutionFailed
    else InternalError
  }

  datatype Written = Written(connection: Connection, code: ErrorCode, calls: seq<ClientCall>)

  function WriteVinSpec(c: Connection, vin: bytes, extra: bytes, t: Try, a: WriteAnswers): Written {
    var e := EnsureSpec(c, t);
    if !e.ok then Written(e.connection, ProvIpcDisconnected, [])
    else if a.vinResult != PROV_SUCCESS then
      Written(e.connection.(connected := a.afterVin), MapProvError(a.vinResult), [WriteVinCall(vin)])
    else if extra == [] then
      Written(e.connection.(connected := a.afterVin), Success, [WriteVinCall(vin)])
    else
      Written(e.connection.(connected := a.afterConfig),
              if a.configResult == PROV_SUCCESS then Success else MapProvError(a.configResult),
              [WriteVinCall(vin), WriteConfigCall(extra)])
  }

  class RealProvAdapter {
    const connector: Connector
    var calls: seq<ClientCall>

    constructor (connector: Connector)
      ensures this.connector == connector && calls == []
    {
      this.connector := connector;
      calls := [];
    }

    method WriteVin(vin: bytes, extra: bytes, t: Try, a: WriteAnswers) returns (code: ErrorCode)
      modifies this, connector
      ensures var o := WriteVinSpec(old(connector.Value()), vin, extra, t, a);
              connector.Value() == o.connection && code == o.code && calls == old(calls) + o.calls
    {
      var available := connector.EnsureConnected(t);
      if !available {
        return ProvIpcDisconnected;
      }
      calls := calls + [WriteVinCall(vin)];
      connector.connected := a.afterVin;
      if a.vinResult != PROV_SUCCESS {
        return MapProvError(a.vinResult);
      }
      if extra != [] {
        calls := calls + [WriteConfigCall(extra)];
        connector.connected := a.afterConfig;
        if a.configResult != PROV_SUCCESS {
          return MapProvError(a.configResult);
        }
      }
      code := Success;
    }
  }

  /** The configuration is written only after a VIN write that succeeded and only if there
      is one; success is reported exactly when everything there was to write was written. */
  lemma TwoStepWrite(c: Connection, vin: bytes, extra: bytes, t: Try, a: WriteAnswers)
    ensures var o := WriteVinSpec(c, vin, extra, t, a);
            && (forall i | 0 <= i < |o.calls| && o.calls[i].WriteConfigCall? ::
                  && extra != [] && o.calls[i].config == extra && a.vinResult == PROV_SUCCESS
                  && o.calls[..i] == [WriteVinCall(vin)])
            && (o.code == Success <==>
                  && a.vinResult == PROV_SUCCESS && (extra != [] ==> a.configResult == PROV_SUCCESS)
                  && o.calls == [WriteVinCall(vin)] + (if extra == [] then [] else [WriteConfigCall(extra)]))
            && (o.code == ProvIpcDisconnected <==> o.calls == [])
            && (o.calls == [] <==> !EnsureSpec(c, t).ok)
            && (o.calls != [] ==>
                  var last := if |o.calls| == 1 then a.vinResult else a.configResult;
                  && (last != PROV_SUCCESS ==> o.code == MapProvError(last)))
            && o.connection == (var e := EnsureSpec(c, t).connection;
                                if o.calls == [] then e
                                else e.(connected := if |o.calls| == 1 then a.afterVin else a.afterConfig))
  {
  }
}
