/** The feeder behind Modbus TCP: a client created by `connect`, a light switch in holding
    register 10 and its brightness, in tenths of a percent, in register 11. */
module Feeder {
  import opened Plant
  import opened Numbers

  /** The light switch register (P0.10). */
  const LightRegister := 10
  /** The brightness register (P0.11). */
  const BrightnessRegister := 11

  /** The value `set_light` writes to the brightness register: `int(brightness * 10)`. */
  function BrightnessValue(brightness: real): int {
    Trunc(brightness * 10.0)
  }

  /** `connect()`: a client is created whatever happens next and the answer is the client's own
      `connect()`. */
  function AfterConnect(e: Env): (r: (bool, Env, bool))
    ensures r.0
    ensures r.1.trace == e.trace + [ModbusConnect]
    ensures r.2 == Next(e.modbusDials, false)
  {
    var (e1, ok) := ModbusDial(e);
    (true, e1, ok)
  }

  /** `set_light(on, brightness)`: false without a client, writing nothing. Otherwise register 10
      gets 1 or 0; when switching on, register 11 then gets the brightness. A write that raises
      ends the call with false. */
  function AfterSetLight(hasClient: bool, e: Env, on: bool, brightness: real): (r: (Env, bool))
    ensures !hasClient ==> r == (e, false)
  {
    if !hasClient then (e, false)
    else
      var (e1, ok1) := ModbusWrite(e, LightRegister, if on then 1 else 0);
      if !ok1 then (e1, false)
      else if !on then (e1, true)
      else
        var (e2, ok2) := ModbusWrite(e1, BrightnessRegister, BrightnessValue(brightness));
        (e2, ok2)
  }

  /** `disconnect()`: the client, if any, is closed; it stays assigned. */
  function AfterDisconnect(hasClient: bool, e: Env): (r: Env)
    ensures r.trace == e.trace + (if hasClient then [ModbusClose] else [])
  {
    if hasClient then ModbusHangUp(e) else e
  }

  /** The registers `set_light` writes, in order, when every write goes through. */
  function LightWrites(on: bool, brightness: real): seq<Event> {
    if on then [RegisterWrite(LightRegister, 1), RegisterWrite(BrightnessRegister, BrightnessValue(brightness))]
    else [RegisterWrite(LightRegister, 0)]
  }

  /** With a client, `set_light` answers true exactly when every write it attempts goes through,
      and then the trace gains register 10 first and, only when switching on, register 11. A
      failed write records nothing, so a false answer adds at most the switch write. */
  lemma SetLightWrites(e: Env, on: bool, brightness: real)
    ensures var (e1, ok) := AfterSetLight(true, e, on, brightness);
            && (ok <==> Next(e.modbusWrites, false) && (!on || Next(Rest(e.modbusWrites), false)))
            && (ok ==> e1.trace == e.trace + LightWrites(on, brightness))
            && (!ok ==> e1.trace == e.trace || e1.trace == e.trace + [RegisterWrite(LightRegister, 1)])
  {
  }

  /** Switching off never touches the brightness register. */
  lemma OffWritesSwitchOnly(e: Env, brightness: real)
    ensures var (e1, _) := AfterSetLight(true, e, false, brightness);
            e1.trace == e.trace || e1.trace == e.trace + [RegisterWrite(LightRegister, 0)]
  {
  }

  /** A whole percentage 0..100 becomes 0..1000 tenths, exactly ten times the percentage. */
  lemma BrightnessScale(percent: int)
    requires 0 <= percent <= 100
    ensures BrightnessValue(percent as real) == 10 * percent
    ensures 0 <= BrightnessValue(percent as real) <= 1000
  {
    TruncWhole(10 * percent);
  }

  /** Once `connect` has been called the client exists even if connecting failed, so
      `set_light` goes on to attempt its writes rather than answering false at once. */
  lemma FailedConnectStillWrites(e: Env, on: bool, brightness: real)
    requires !Next(e.modbusDials, false) && e.modbusWrites != [] && e.modbusWrites[0]
    ensures var (c, e1, ok) := AfterConnect(e);
            !ok && AfterSetLight(c, e1, on, brightness).0.trace[|e1.trace|] == RegisterWrite(LightRegister, if on then 1 else 0)
  {
  }

  /** The feeder controller; `client` is represented by whether it is set. */
  class FeederController {
    const world: World
    var hasClient: bool

    constructor (w: World)
      ensures world == w && !hasClient
    {
      world := w;
      hasClient := false;
    }

    method Connect() returns (ok: bool)
      modifies this, world
      ensures (hasClient, world.env, ok) == AfterConnect(old(world.env))
    {
      hasClient := true;
      ok := world.ModbusConnect();
    }

    method SetLight(on: bool, brightness: real) returns (ok: bool)
      modifies world
      ensures (world.env, ok) == AfterSetLight(hasClient, old(world.env), on, brightness)
    {
      if !hasClient {
        return false;
      }
      ok := world.WriteRegister(LightRegister, if on then 1 else 0);
      if !ok {
        return false;
      }
      if on {
        ok := world.WriteRegister(BrightnessRegister, BrightnessValue(brightness));
      }
    }

    method Disconnect()
      modifies world
      ensures world.env == AfterDisconnect(hasClient, old(world.env))
    {
      if hasClient {
        world.ModbusClose();
      }
    }
  }
}
