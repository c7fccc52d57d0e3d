/** The C wrapper around the PCI-7230 vendor library: two globals, the card handle and the last
    output word written, and six exported calls. Every call that needs the card first checks
    that a card is registered; the channel calls also check the channel lies in 0..15. */
module Pci7230Wrapper {
  import opened Options
  import opened Plant
  import opened Bits

  /** A C `int` argument. */
  type Int32 = x: int | -0x8000_0000 <= x < 0x8000_0000

  /** The DLL's globals: `g_card` and `g_output_state`. */
  datatype Globals = Globals(card: I16, output: bv32)

  /** The globals as the DLL is loaded: no card, all outputs off. */
  const Loaded: Globals := Globals(-1, 0)

  /** A channel argument the channel calls accept. */
  predicate ValidChannel(channel: Int32) {
    0 <= channel <= 15
  }

  /** `PCI7230_Init(n)`: the handle `Register_Card` answers becomes the card (negative when
      registration failed) and the output word is reset to all-off; the handle is returned. */
  function AfterInit(g: Globals, e: Env, cardNumber: Int32): (r: (Globals, Env, I16))
    ensures r.0 == Globals(r.2, 0)
    ensures r.2 == Next(e.codes, -1)
    ensures r.1.trace == e.trace + [CardRegister(cardNumber)]
  {
    var (e1, code) := VendorCall(e, CardRegister(cardNumber));
    (Globals(code, 0), e1, code)
  }

  /** `PCI7230_Release()`: without a card, -1 and nothing else; with one, the card is released,
      forgotten, and the library's answer returned. The output word is kept. */
  function AfterRelease(g: Globals, e: Env): (r: (Globals, Env, I16))
    ensures g.card < 0 ==> r == (g, e, -1)
    ensures g.card >= 0 ==> r.0 == g.(card := -1) && r.1.trace == e.trace + [CardRelease(g.card)]
                            && r.2 == Next(e.codes, -1)
  {
    if g.card >= 0 then
      var (e1, code) := VendorCall(e, CardRelease(g.card));
      (g.(card := -1), e1, code)
    else (g, e, -1)
  }

  /** `PCI7230_SetChannel(ch, state)`: rejected with -1, changing nothing, without a card or
      outside channels 0..15; otherwise channel `ch` of the output word is switched on
      (`state != 0`) or off, every other channel is kept, and the whole word is written. */
  function AfterSetChannel(g: Globals, e: Env, channel: Int32, state: Int32): (r: (Globals, Env, I16))
    ensures g.card < 0 || !ValidChannel(channel) ==> r == (g, e, -1)
    ensures g.card >= 0 && ValidChannel(channel) ==>
      && r.0 == g.(output := Switch(g.output, Channel(channel), state != 0))
      && r.1.trace == e.trace + [PortWrite(g.card, r.0.output)]
      && r.2 == Next(e.codes, -1)
  {
    if g.card < 0 || !ValidChannel(channel) then (g, e, -1)
    else
      var w := Switch(g.output, Channel(channel), state != 0);
      var r := VendorCall(e, PortWrite(g.card, w));
      (g.(output := w), r.0, r.1)
  }

  /** A `SetChannel` that passes both guards drives the requested channel as asked ... */
  lemma SetChannelDrives(g: Globals, e: Env, channel: Int32, state: Int32)
    requires g.card >= 0 && ValidChannel(channel)
    ensures Bit(AfterSetChannel(g, e, channel, state).0.output, Channel(channel)) == (state != 0)
  {
    SwitchEffect(g.output, Channel(channel), state != 0);
  }

  /** ... and leaves every other channel of the word as it was. */
  lemma SetChannelKeepsOthers(g: Globals, e: Env, channel: Int32, state: Int32, other: int)
    requires g.card >= 0 && ValidChannel(channel) && 0 <= other < 32 && other != channel
    ensures Bit(AfterSetChannel(g, e, channel, state).0.output, Channel(other)) == Bit(g.output, Channel(other))
  {
    ChannelInjective(channel, other);
    SwitchOther(g.output, Channel(channel), Channel(other), state != 0);
  }

  /** `PCI7230_ReadChannel(ch, &state)`: the same two rejections; otherwise the input port is
      read and, only when that read succeeded, `state` receives bit `ch` of the word read.
      The globals never change. */
  function AfterReadChannel(g: Globals, e: Env, channel: Int32): (r: (Env, I16, Option<int>))
    ensures g.card < 0 || !ValidChannel(channel) ==> r == (e, -1, None)
    ensures g.card >= 0 && ValidChannel(channel) ==>
      && r.0.trace == e.trace + [PortRead(g.card)]
      && r.1 == Next(e.codes, -1)
      && (r.2.Some? <==> r.1 >= 0)
      && (r.2.Some? ==> r.2.value == BitValue(Next(e.inputs, 0), Channel(channel)))
  {
    if g.card < 0 then (e, -1, None)
    else if channel < 0 || channel > 15 then (e, -1, None)
    else
      var (e1, code, word) := VendorRead(e, PortRead(g.card));
      (e1, code, if code >= 0 then Some(BitValue(word, Channel(channel))) else None)
  }

  /** `PCI7230_WritePort(v)`: with a card, the output word becomes `v` and is written. */
  function AfterWritePort(g: Globals, e: Env, value: bv32): (r: (Globals, Env, I16))
    ensures g.card < 0 ==> r == (g, e, -1)
    ensures g.card >= 0 ==> r.0 == g.(output := value) && r.1.trace == e.trace + [PortWrite(g.card, value)]
                            && r.2 == Next(e.codes, -1)
  {
    if g.card < 0 then (g, e, -1)
    else
      var (e1, code) := VendorCall(e, PortWrite(g.card, value));
      (g.(output := value), e1, code)
  }

  /** `PCI7230_ReadPort(&v)`: with a card, the input port is read into `v`; without one `v` is
      not written at all. */
  function AfterReadPort(g: Globals, e: Env): (r: (Env, I16, Option<bv32>))
    ensures g.card < 0 ==> r == (e, -1, None)
    ensures g.card >= 0 ==> r.0.trace == e.trace + [PortRead(g.card)] && r.1 == Next(e.codes, -1)
                            && r.2 == Some(Next(e.inputs, 0))
  {
    if g.card < 0 then (e, -1, None)
    else
      var (e1, code, word) := VendorRead(e, PortRead(g.card));
      (e1, code, Some(word))
  }

  /** Only `WritePort` can put anything above channel 15 into the output word: the channel calls,
      `Init` and `Release` keep a 16-channel word within 16 bits. */
  lemma ChannelCallsKeep16(g: Globals, e: Env, channel: Int32, state: Int32, n: Int32)
    requires Within16(g.output)
    ensures Within16(AfterSetChannel(g, e, channel, state).0.output)
    ensures Within16(AfterInit(g, e, n).0.output)
    ensures Within16(AfterRelease(g, e).0.output)
  {
    if g.card >= 0 && ValidChannel(channel) {
      ChannelBelow16(channel);
      SwitchWithin16(g.output, Channel(channel), state != 0);
    }
  }

  /** `Init` forgets what was driven before: the first channel call after a successful
      registration writes a word holding that one channel and nothing else. */
  lemma InitForgetsOutputs(g: Globals, e: Env, n: Int32, channel: Int32, state: Int32)
    requires AfterInit(g, e, n).2 >= 0 && ValidChannel(channel)
    ensures var (g1, e1, _) := AfterInit(g, e, n);
            AfterSetChannel(g1, e1, channel, state).0.output == (if state != 0 then Mask(Channel(channel)) else 0)
  {
    var (g1, e1, _) := AfterInit(g, e, n);
    var ch := Channel(channel);
    if state != 0 {
      assert SetBit(0, ch) == Mask(ch);
    } else {
      assert ClearBit(0, ch) == 0;
    }
  }

  /** Switching a channel on and then off again, with the card registered and the channel off,
      writes the word with that channel set and then restores the original word. */
  lemma OnOffRestores(g: Globals, e: Env, channel: Int32)
    requires g.card >= 0 && ValidChannel(channel) && !Bit(g.output, Channel(channel))
    ensures var (g1, e1, _) := AfterSetChannel(g, e, channel, 1);
            var (g2, e2, _) := AfterSetChannel(g1, e1, channel, 0);
            && g2 == g
            && e2.trace == e.trace + [PortWrite(g.card, SetBit(g.output, Channel(channel))), PortWrite(g.card, g.output)]
  {
    PulseRestores(g.output, Channel(channel));
  }

  /** A second `Release` answers -1 and does nothing: the card is released at most once. */
  lemma ReleaseOnce(g: Globals, e: Env)
    ensures var (g1, e1, _) := AfterRelease(g, e);
            AfterRelease(g1, e1) == (g1, e1, -1)
  {
  }

  /** The DLL instance: its two globals and the world its vendor calls go to. */
  class Dll {
    const world: World
    var card: I16
    var outputState: bv32

    constructor (w: World)
      ensures world == w && State() == Loaded
    {
      world := w;
      card, outputState := -1, 0;
    }

    function State(): Globals
      reads this
    {
      Globals(card, outputState)
    }

    method Init(cardNumber: Int32) returns (code: I16)
      modifies this, world
      ensures (State(), world.env, code) == AfterInit(old(State()), old(world.env), cardNumber)
    {
      card := world.Vendor(CardRegister(cardNumber));
      outputState := 0;
      code := card;
    }

    method Release() returns (code: I16)
      modifies this, world
      ensures (State(), world.env, code) == AfterRelease(old(State()), old(world.env))
    {
      if card >= 0 {
        code := world.Vendor(CardRelease(card));
        card := -1;
        return;
      }
      code := -1;
    }

    method SetChannel(channel: Int32, state: Int32) returns (code: I16)
      modifies this, world
      ensures (State(), world.env, code) == AfterSetChannel(old(State()), old(world.env), channel, state)
    {
      if card < 0 {
        return -1;
      }
      if channel < 0 || channel > 15 {
        return -1;
      }
      if state != 0 {
        outputState := SetBit(outputState, Channel(channel));
      } else {
        outputState := ClearBit(outputState, Channel(channel));
      }
      code := world.Vendor(PortWrite(card, outputState));
    }

    method ReadChannel(channel: Int32) returns (code: I16, state: Option<int>)
      modifies world
      ensures (world.env, code, state) == AfterReadChannel(State(), old(world.env), channel)
    {
      if card < 0 {
        return -1, None;
      }
      if channel < 0 || channel > 15 {
        return -1, None;
      }
      var value;
      code, value := world.VendorInput(PortRead(card));
      state := None;
      if code >= 0 {
        state := Some(BitValue(value, Channel(channel)));
      }
    }

    method WritePort(value: bv32) returns (code: I16)
      modifies this, world
      ensures (State(), world.env, code) == AfterWritePort(old(State()), old(world.env), value)
    {
      if card < 0 {
        return -1;
      }
      outputState := value;
      code := world.Vendor(PortWrite(card, value));
    }

    method ReadPort() returns (code: I16, value: Option<bv32>)
      modifies world
      ensures (world.env, code, value) == AfterReadPort(State(), old(world.env))
    {
      if card < 0 {
        return -1, None;
      }
      var word;
      code, word := world.VendorInput(PortRead(card));
      value := Some(word);
    }
  }
}
