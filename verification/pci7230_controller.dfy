/** The Python controller over the PCI-7230 wrapper DLL: a `connected` flag that gates every
    call, `connect` succeeding exactly when the card registers, and each call failing (`False`
    or `None`) on a negative return code. Arguments cross into C through ctypes, which converts
    Python integers to C `int` and `uint32_t` by keeping their low 32 bits. */
module Pci7230Controller {
  import opened Options
  import opened Plant
  import opened Bits
  import W = Pci7230Wrapper

  /** ctypes' conversion of a Python integer to a C `int`: the low 32 bits, read as signed. */
  function CInt(x: int): (r: W.Int32)
    ensures -0x8000_0000 <= x < 0x8000_0000 ==> r == x
    ensures (x - r) % 0x1_0000_0000 == 0
  {
    if -0x8000_0000 <= x < 0x8000_0000 then x
    else (x + 0x8000_0000) % 0x1_0000_0000 - 0x8000_0000
  }

  /** ctypes' conversion of a Python integer to a C `uint32_t`: the low 32 bits. */
  function CUInt32(x: int): bv32 {
    (x % 0x1_0000_0000) as bv32
  }

  /** The controller's flag together with the globals of the DLL it drives. */
  datatype Board = Board(connected: bool, dll: W.Globals)

  /** The flag says whether the DLL holds a card. */
  predicate Coherent(b: Board) {
    b.connected == (b.dll.card >= 0)
  }

  /** `connect(n)`: `PCI7230_Init(n)`; a non-negative handle sets `connected` and answers true.
      A negative one answers false and leaves the flag as it was. */
  function AfterConnect(b: Board, e: Env, cardNumber: int): (r: (Board, Env, bool))
    ensures r.2 <==> Next(e.codes, -1) >= 0
    ensures r.2 <==> r.0.dll.card >= 0
    ensures r.0.connected == (r.2 || b.connected)
    ensures r.0.dll.output == 0
    ensures r.1.trace == e.trace + [CardRegister(CInt(cardNumber))]
  {
    var (g, e1, result) := W.AfterInit(b.dll, e, CInt(cardNumber));
    if result < 0 then (b.(dll := g), e1, false)
    else (Board(true, g), e1, true)
  }

  /** `disconnect()`: a connected controller releases the card (ignoring the answer) and clears
      the flag; otherwise nothing happens. */
  function AfterDisconnect(b: Board, e: Env): (r: (Board, Env))
    ensures !r.0.connected
    ensures !b.connected ==> r == (b, e)
    ensures b.connected && b.dll.card >= 0 ==> r.0.dll.card == -1 && r.1.trace == e.trace + [CardRelease(b.dll.card)]
  {
    if b.connected then
      var (g, e1, _) := W.AfterRelease(b.dll, e);
      (Board(false, g), e1)
    else (b, e)
  }

  /** `set_channel(ch, on)`: false without a call when not connected; otherwise
      `PCI7230_SetChannel(ch, 1 if on else 0)`, and true exactly when that answered a
      non-negative code. */
  function AfterSetChannel(b: Board, e: Env, channel: int, on: bool): (r: (Board, Env, bool))
    ensures !b.connected ==> r == (b, e, false)
    ensures r.0.connected == b.connected
    ensures r.2 <==> b.connected && b.dll.card >= 0 && W.ValidChannel(CInt(channel)) && Next(e.codes, -1) >= 0
    ensures r.2 ==> r.0.dll.output == Switch(b.dll.output, Channel(CInt(channel)), on)
                    && r.1.trace == e.trace + [PortWrite(b.dll.card, r.0.dll.output)]
  {
    if !b.connected then (b, e, false)
    else
      var (g, e1, result) := W.AfterSetChannel(b.dll, e, CInt(channel), if on then 1 else 0);
      (b.(dll := g), e1, result >= 0)
  }

  /** `read_channel(ch)`: `None` when not connected or when the DLL answered a negative code,
      otherwise the bit it read (0 or 1). */
  function AfterReadChannel(b: Board, e: Env, channel: int): (r: (Env, Option<int>))
    ensures !b.connected ==> r == (e, None)
    ensures r.1.Some? <==> b.connected && b.dll.card >= 0 && W.ValidChannel(CInt(channel)) && Next(e.codes, -1) >= 0
    ensures r.1.Some? ==> r.1.value == BitValue(Next(e.inputs, 0), Channel(CInt(channel)))
  {
    if !b.connected then (e, None)
    else
      var (e1, result, state) := W.AfterReadChannel(b.dll, e, CInt(channel));
      if result < 0 then (e1, None) else (e1, state)
  }

  /** `write_port(v)`: gated the same way; the DLL's output word becomes the low 32 bits of `v`. */
  function AfterWritePort(b: Board, e: Env, value: int): (r: (Board, Env, bool))
    ensures !b.connected ==> r == (b, e, false)
    ensures r.2 <==> b.connected && b.dll.card >= 0 && Next(e.codes, -1) >= 0
    ensures r.2 ==> r.0.dll.output == CUInt32(value) && r.1.trace == e.trace + [PortWrite(b.dll.card, CUInt32(value))]
  {
    if !b.connected then (b, e, false)
    else
      var (g, e1, result) := W.AfterWritePort(b.dll, e, CUInt32(value));
      (b.(dll := g), e1, result >= 0)
  }

  /** `read_port()`: `None` when not connected or on a negative code, otherwise the word read. */
  function AfterReadPort(b: Board, e: Env): (r: (Env, Option<bv32>))
    ensures !b.connected ==> r == (e, None)
    ensures r.1.Some? <==> b.connected && b.dll.card >= 0 && Next(e.codes, -1) >= 0
    ensures r.1.Some? ==> r.1.value == Next(e.inputs, 0)
  {
    if !b.connected then (e, None)
    else
      var (e1, result, value) := W.AfterReadPort(b.dll, e);
      if result < 0 then (e1, None) else (e1, value)
  }

  /** A freshly loaded DLL under a fresh controller is coherent, and every call keeps it so,
      except `connect` on an already connected controller. */
  lemma CoherentKept(b: Board, e: Env, n: int, channel: int, on: bool, value: int)
    requires Coherent(b)
    ensures Coherent(Board(false, W.Loaded))
    ensures !b.connected ==> Coherent(AfterConnect(b, e, n).0)
    ensures Coherent(AfterDisconnect(b, e).0)
    ensures Coherent(AfterSetChannel(b, e, channel, on).0)
    ensures Coherent(AfterWritePort(b, e, value).0)
  {
  }

  /** The exception: a failed re-`connect` on a connected controller re-initialises the DLL to
      "no card" but leaves `connected` set, so later calls pass the flag and are refused by the
      DLL instead. */
  lemma FailedReconnectKeepsFlag(b: Board, e: Env, n: int)
    requires b.connected && Next(e.codes, -1) < 0
    ensures var r := AfterConnect(b, e, n).0; r.connected && r.dll.card < 0 && !Coherent(r)
  {
  }

  /** On a coherent connected controller the flag and the DLL agree, so a set-channel call on a
      channel in 0..15 always reaches the card: it is written, and succeeds with the code. */
  lemma ConnectedSetReachesCard(b: Board, e: Env, channel: int, on: bool)
    requires Coherent(b) && b.connected && 0 <= channel <= 15
    ensures var r := AfterSetChannel(b, e, channel, on);
            r.1.trace == e.trace + [PortWrite(b.dll.card, Switch(b.dll.output, Channel(channel), on))]
            && r.2 == (Next(e.codes, -1) >= 0)
  {
  }

  /** The controller object. */
  class Controller {
    const dll: W.Dll
    var connected: bool

    constructor (d: W.Dll)
      ensures dll == d && !connected
    {
      dll := d;
      connected := false;
    }

    function State(): Board
      reads this, dll
    {
      Board(connected, dll.State())
    }

    method Connect(cardNumber: int) returns (ok: bool)
      modifies this, dll, dll.world
      ensures (State(), dll.world.env, ok) == AfterConnect(old(State()), old(dll.world.env), cardNumber)
    {
      var result := dll.Init(CInt(cardNumber));
      if result < 0 {
        return false;
      }
      connected := true;
      return true;
    }

    method Disconnect()
      modifies this, dll, dll.world
      ensures (State(), dll.world.env) == AfterDisconnect(old(State()), old(dll.world.env))
    {
      if connected {
        var _ := dll.Release();
        connected := false;
      }
    }

    method SetChannel(channel: int, on: bool) returns (ok: bool)
      modifies dll, dll.world
      ensures (State(), dll.world.env, ok) == AfterSetChannel(old(State()), old(dll.world.env), channel, on)
    {
      if !connected {
        return false;
      }
      var result := dll.SetChannel(CInt(channel), if on then 1 else 0);
      ok := result >= 0;
    }

    method ReadChannel(channel: int) returns (state: Option<int>)
      modifies dll.world
      ensures (dll.world.env, state) == AfterReadChannel(State(), old(dll.world.env), channel)
    {
      if !connected {
        return None;
      }
      var result;
      result, state := dll.ReadChannel(CInt(channel));
      if result < 0 {
        return None;
      }
    }

    method WritePort(value: int) returns (ok: bool)
      modifies dll, dll.world
      ensures (State(), dll.world.env, ok) == AfterWritePort(old(State()), old(dll.world.env), value)
    {
      if !connected {
        return false;
      }
      var result := dll.WritePort(CUInt32(value));
      ok := result >= 0;
    }

    method ReadPort() returns (value: Option<bv32>)
      modifies dll.world
      ensures (dll.world.env, value) == AfterReadPort(State(), old(dll.world.env))
    {
      if !connected {
        return None;
      }
      var result;
      result, value := dll.ReadPort();
      if result < 0 {
        return None;
      }
    }
  }
}
