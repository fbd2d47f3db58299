/** Reconnecting to a downstream service on demand, but not too often. Both downstream
    adapters use this connection handling. */
module Reconnect {
  import opened DiagTypes

  const MIN_INTERVAL: nat := 500 * NS_PER_MS

  /** `present` says whether there is a client at all. */
  datatype Connection = Connection(present: bool, connected: bool, attempted: bool, lastAttempt: nat)

  /** One use of the connection: the clock reading and what `connect` would return. */
  datatype Try = Try(now: nat, connects: bool)

  datatype Ensured = Ensured(connection: Connection, ok: bool, tried: bool)

  function EnsureSpec(c: Connection, t: Try): Ensured {
    if !c.present then Ensured(c, false, false)
    else if c.connected then Ensured(c, true, false)
    else if c.attempted && t.now - c.lastAttempt < MIN_INTERVAL then Ensured(c, false, false)
    else Ensured(c.(connected := t.connects, attempted := true, lastAttempt := t.now), t.connects, true)
  }

  function ReconnectSpec(c: Connection, t: Try): Connection {
    if !c.present then c else c.(connected := t.connects, attempted := true, lastAttempt := t.now)
  }

  /** What happens to the connection between two uses of it: it is found up or down, and
      others may have tried to connect. */
  datatype Disturbance = Disturbance(connected: bool, attempt: Option<nat>)

  function Disturbed(c: Connection, d: Disturbance): Connection {
    var c' := c.(connected := d.connected);
    if d.attempt.None? then c' else c'.(attempted := true, lastAttempt := d.attempt.value)
  }

  class Connector {
    const present: bool
    var connected: bool
    var attempted: bool
    var lastAttempt: nat

    constructor (present: bool, connected: bool)
      ensures Value() == Connection(present, connected, false, 0)
    {
      this.present, this.connected := present, connected;
      attempted, lastAttempt := false, 0;
    }

    ghost function Value(): Connection
      reads this
    {
      Connection(present, connected, attempted, lastAttempt)
    }

    /** The environment's part between two calls. */
    method Disturb(d: Disturbance)
      modifies this
      ensures Value() == Disturbed(old(Value()), d)
    {
      connected := d.connected;
      if d.attempt.Some? {
        attempted, lastAttempt := true, d.attempt.value;
      }
    }

    method EnsureConnected(t: Try) returns (ok: bool)
      modifies this
      ensures var e := EnsureSpec(old(Value()), t); Value() == e.connection && ok == e.ok
    {
      if !present {
        return false;
      }
      if connected {
        return true;
      }
      if attempted && t.now - lastAttempt < MIN_INTERVAL {
        return false;
      }
      attempted := true;
      lastAttempt := t.now;
      connected := t.connects;
      ok := connected;
    }

    /** Drops the connection and connects again, whatever the interval. */
    method ForceReconnect(t: Try) returns (ok: bool)
      modifies this
      ensures Value() == ReconnectSpec(old(Value()), t)
      ensures ok <==> present && t.connects
    {
      if !present {
        return false;
      }
      attempted := true;
      lastAttempt := t.now;
      connected := false;
      connected := t.connects;
      ok := connected;
    }
  }
}
