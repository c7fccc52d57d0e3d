/** The LPCI-7230 board driven through comedi: the program keeps its own copy of the 16 output
    channels, `subdev0_state`, updates one bit of it per `control_channel` call and then writes
    that bit to subdevice 0 with `comedi_dio_bitfield2`. Reading back an output consults the
    copy; reading an input asks the board. */
module Lpci7230 {
  import opened Options
  import opened Plant
  import opened Bits

  /** The `state` argument of `control_channel`: Python compares it against strings and
      integers, and `True`/`False` compare equal to 1 and 0. */
  datatype StateArg = Text(s: string) | Int(n: int) | Bool(b: bool)

  /** Whether the argument is in the "on" list `['on', 'ON', 1, '1']` (true), in the "off" list
      `['off', 'OFF', 0, '0']` (false), or in neither. */
  function Level(state: StateArg): Option<bool> {
    match state
    case Text(s) =>
      if s == "on" || s == "ON" || s == "1" then Some(true)
      else if s == "off" || s == "OFF" || s == "0" then Some(false)
      else None
    case Int(n) => if n == 1 then Some(true) else if n == 0 then Some(false) else None
    case Bool(b) => Some(b)
  }

  predicate ValidChannel(channel: int) {
    0 <= channel <= 15
  }

  /** `control_channel(ch, state)` on the stored word `w`: an out-of-range channel or an
      unrecognised state answers false and changes nothing. Otherwise bit `ch` of the copy is
      updated first, then the board is asked to write that one bit (mask `1 << ch`, bits = the
      whole copy); the answer is whether that call returned a non-negative code. */
  function AfterControl(w: bv32, e: Env, channel: int, state: StateArg): (r: (bv32, Env, bool))
    ensures !ValidChannel(channel) || Level(state).None? ==> r == (w, e, false)
    ensures ValidChannel(channel) && Level(state).Some? ==>
      && r.0 == Switch(w, Channel(channel), Level(state).value)
      && r.1.trace == e.trace + [Bitfield(Mask(Channel(channel)), r.0)]
      && (r.2 <==> Next(e.codes, -1) >= 0)
  {
    if channel < 0 || channel > 15 then (w, e, false)
    else
      match Level(state)
      case None => (w, e, false)
      case Some(on) =>
        var w1 := Switch(w, Channel(channel), on);
        var (e1, ret) := VendorCall(e, Bitfield(Mask(Channel(channel)), w1));
        (w1, e1, ret >= 0)
  }

  /** `check_output(ch)`: bit `ch` of the stored copy, or `None` outside 0..15. */
  function CheckOutput(w: bv32, channel: int): (r: Option<int>)
    ensures r.Some? <==> ValidChannel(channel)
    ensures r.Some? ==> (r.value == 1 <==> Bit(w, Channel(channel))) && (r.value == 0 || r.value == 1)
  {
    if channel < 0 || channel > 15 then None else Some(BitValue(w, Channel(channel)))
  }

  /** `check_channel(ch)`: `None` outside 0..15 without asking the board; otherwise a read-only
      bitfield call (mask 0), `None` when it failed and bit `ch` of the word read when not. */
  function AfterCheckChannel(e: Env, channel: int): (r: (Env, Option<int>))
    ensures !ValidChannel(channel) ==> r == (e, None)
    ensures ValidChannel(channel) ==>
      && r.0.trace == e.trace + [Bitfield(0, 0)]
      && (r.1.Some? <==> Next(e.codes, -1) >= 0)
      && (r.1.Some? ==> r.1.value == BitValue(Next(e.inputs, 0), Channel(channel)))
  {
    if channel < 0 || channel > 15 then (e, None)
    else
      var (e1, ret, bits) := VendorRead(e, Bitfield(0, 0));
      if ret < 0 then (e1, None) else (e1, Some(BitValue(bits, Channel(channel))))
  }

  /** The copy changes before the board is written, so it records the request even when the
      write fails and false is returned: the copy and the board can disagree afterwards. */
  lemma FailedWriteStillRecorded(w: bv32, e: Env, channel: int, state: StateArg)
    requires ValidChannel(channel) && Level(state).Some? && Next(e.codes, -1) < 0
    ensures var (w1, _, ok) := AfterControl(w, e, channel, state);
            !ok && CheckOutput(w1, channel) == Some(if Level(state).value then 1 else 0)
  {
    SwitchEffect(w, Channel(channel), Level(state).value);
  }

  /** After an accepted `control_channel(ch, s)`, `check_output(ch)` reports the requested level,
      whatever the board answered ... */
  lemma ControlThenCheck(w: bv32, e: Env, channel: int, state: StateArg)
    requires ValidChannel(channel) && Level(state).Some?
    ensures CheckOutput(AfterControl(w, e, channel, state).0, channel) == Some(if Level(state).value then 1 else 0)
  {
    SwitchEffect(w, Channel(channel), Level(state).value);
  }

  /** ... and `check_output` of every other channel is unchanged. */
  lemma ControlLeavesOthers(w: bv32, e: Env, channel: int, state: StateArg, other: int)
    requires other != channel
    ensures CheckOutput(AfterControl(w, e, channel, state).0, other) == CheckOutput(w, other)
  {
    if ValidChannel(channel) && Level(state).Some? && ValidChannel(other) {
      ChannelInjective(channel, other);
      SwitchOther(w, Channel(channel), Channel(other), Level(state).value);
    }
  }

  /** The copy never uses more than the board's 16 channels. */
  lemma ControlKeeps16(w: bv32, e: Env, channel: int, state: StateArg)
    requires Within16(w)
    ensures Within16(AfterControl(w, e, channel, state).0)
  {
    if ValidChannel(channel) && Level(state).Some? {
      ChannelBelow16(channel);
      SwitchWithin16(w, Channel(channel), Level(state).value);
    }
  }

  /** The board object: comedi device handle (the world) and the output copy. */
  class Board {
    const world: World
    var subdev0State: bv32

    /** Opening the device (failures to load comedi or open it are not modelled). */
    constructor (w: World)
      ensures world == w && subdev0State == 0 && Valid()
    {
      world := w;
      subdev0State := 0;
    }

    predicate Valid()
      reads this
    {
      Within16(subdev0State)
    }

    method ControlChannel(channel: int, state: StateArg) returns (ok: bool)
      requires Valid()
      modifies this, world
      ensures (subdev0State, world.env, ok) == AfterControl(old(subdev0State), old(world.env), channel, state)
      ensures Valid()
    {
      ControlKeeps16(subdev0State, world.env, channel, state);
      if channel < 0 || channel > 15 {
        return false;
      }
      match Level(state) {
        case None =>
          return false;
        case Some(on) =>
          subdev0State := Switch(subdev0State, Channel(channel), on);
      }
      var ret := world.Vendor(Bitfield(Mask(Channel(channel)), subdev0State));
      ok := ret >= 0;
    }

    function CheckOutputOf(channel: int): (r: Option<int>)
      reads this
      ensures r.Some? <==> ValidChannel(channel)
      ensures r.Some? ==> (r.value == 1 <==> Bit(subdev0State, Channel(channel))) && (r.value == 0 || r.value == 1)
    {
      CheckOutput(subdev0State, channel)
    }

    method CheckChannel(channel: int) returns (value: Option<int>)
      modifies world
      ensures (world.env, value) == AfterCheckChannel(old(world.env), channel)
    {
      if channel < 0 || channel > 15 {
        return None;
      }
      var ret, bits := world.VendorInput(Bitfield(0, 0));
      if ret < 0 {
        return None;
      }
      value := Some(BitValue(bits, Channel(channel)));
    }
  }
}
