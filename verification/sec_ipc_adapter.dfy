/** The adapter to the SEC service. */
module SecIpc {
  import opened DiagTypes
  import opened Reconnect

  const SEC_SUCCESS: u32 := 0
  const SEC_CONNECTION_FAILED: u32 := 8005

  datatype ClientCall = GetSeedCall(level: byte) | VerifyKeyCall(level: byte, key: bytes) | InjectCall(cert: bytes)

  /** What a client call returns, and whether the connection is still up afterwards. */
  datatype Answer = Answer(result: u32, data: bytes, staysConnected: bool)

  datatype AdapterOutcome = AdapterOutcome(connection: Connection, ok: bool, data: bytes, calls: seq<ClientCall>)

  function After(c: Connection, a: Answer): Connection { c.(connected := a.staysConnected) }

  /** A seed request that meets a stale connection is repeated once after reconnecting. */
  function GetSeedSpec(c: Connection, level: byte, first: Try, a: Answer, second: Try, b: Answer): AdapterOutcome {
    var e := EnsureSpec(c, first);
    if !e.ok then AdapterOutcome(e.connection, false, [], [])
    else
      var c1 := After(e.connection, a);
      if a.result == SEC_CONNECTION_FAILED then
        var e2 := EnsureSpec(c1, second);
        if e2.ok then
          AdapterOutcome(After(e2.connection, b), b.result == SEC_SUCCESS, b.data,
                         [GetSeedCall(level), GetSeedCall(level)])
        else AdapterOutcome(e2.connection, false, a.data, [GetSeedCall(level)])
      else AdapterOutcome(c1, a.result == SEC_SUCCESS, a.data, [GetSeedCall(level)])
  }

  /** A key is put to SEC at most once. */
  function VerifyKeySpec(c: Connection, level: byte, key: bytes, first: Try, a: Answer): AdapterOutcome {
    var e := EnsureSpec(c, first);
    if !e.ok then AdapterOutcome(e.connection, false, [], [])
    else AdapterOutcome(After(e.connection, a), a.result == SEC_SUCCESS, [], [VerifyKeyCall(level, key)])
  }

  function MapSecError(code: u32): CertFailure {
    match code
    case 8001 => StateNotAllowed
    case 8002 => SecGone
    case 8005 => SecGone
    case 1003 => StateNotAllowed
    case 4001 => InvalidFormat
    case 4002 => KeyMismatch
    case 4003 => CertExpired
    case 4004 => StorageFailed
    case _ => UnknownFailure
  }

  datatype InjectOutcome = InjectOutcome(connection: Connection, ok: bool, failure: CertFailure, calls: seq<ClientCall>)

  /** A certificate is put to SEC at most once; the failure tells an unreachable service, a
      wrong order, a bad certificate and a storage problem apart. */
  function InjectSpec(c: Connection, cert: bytes, first: Try, a: Answer): InjectOutcome {
    var e := EnsureSpec(c, first);
    if !e.ok then InjectOutcome(e.connection, false, SecGone, [])
    else
      var ok := a.result == SEC_SUCCESS;
      InjectOutcome(After(e.connection, a), ok, if ok then NoFailure else MapSecError(a.result), [InjectCall(cert)])
  }

  class SecIpcAdapter {
    const connector: Connector
    var calls: seq<ClientCall>

    constructor (connector: Connector)
      ensures this.connector == connector && calls == []
    {
      this.connector := connector;
      calls := [];
    }

    method GetSeed(level: byte, first: Try, a: Answer, second: Try, b: Answer) returns (ok: bool, seed: bytes)
      modifies this, connector
      ensures var o := GetSeedSpec(old(connector.Value()), level, first, a, second, b);
              && connector.Value() == o.connection && ok == o.ok && calls == old(calls) + o.calls
              && (ok ==> seed == o.data)
    {
      seed := [];
      var available := connector.EnsureConnected(first);
      if !available {
        return false, seed;
      }
      calls := calls + [GetSeedCall(level)];
      connector.connected := a.staysConnected;
      var result := a.result;
      seed := a.data;
      if result == SEC_CONNECTION_FAILED {
        var again := connector.EnsureConnected(second);
        if again {
          calls := calls + [GetSeedCall(level)];
          connector.connected := b.staysConnected;
          result := b.result;
          seed := b.data;
        }
      }
      ok := result == SEC_SUCCESS;
    }

    method VerifyKey(level: byte, key: bytes, first: Try, a: Answer) returns (ok: bool)
      modifies this, connector
      ensures var o := VerifyKeySpec(old(connector.Value()), level, key, first, a);
              connector.Value() == o.connection && ok == o.ok && calls == old(calls) + o.calls
    {
      var available := connector.EnsureConnected(first);
      if !available {
        return false;
      }
      calls := calls + [VerifyKeyCall(level, key)];
      connector.connected := a.staysConnected;
      ok := a.result == SEC_SUCCESS;
    }

    method InjectCertificate(cert: bytes, first: Try, a: Answer) returns (ok: bool, failure: CertFailure)
      modifies this, connector
      ensures var o := InjectSpec(old(connector.Value()), cert, first, a);
              && connector.Value() == o.connection && ok == o.ok && failure == o.failure
              && calls == old(calls) + o.calls
    {
      var available := connector.EnsureConnected(first);
      if !available {
        return false, SecGone;
      }
      calls := calls + [InjectCall(cert)];
      connector.connected := a.staysConnected;
      if a.result != SEC_SUCCESS {
        return false, MapSecError(a.result);
      }
      ok, failure := true, NoFailure;
    }
  }
}
