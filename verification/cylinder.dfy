/** The four pneumatic cylinders: cylinder N is digital output channel N of the PCI-7230 card.
    Every switch is refused while the cylinder controller is not connected; a pulse is on, a
    wait, off, a wait. */
module Cylinders {
  import opened Plant
  import opened Bits
  import P = Pci7230Controller

  /** The cylinders that have `cylinder_N_on/off/pulse` methods. */
  type CylinderNumber = n: int | 0 <= n < 4

  /** The controller's own `connected` flag and the board controller beneath it. */
  datatype Cyl = Cyl(connected: bool, board: P.Board)

  /** Both flags agree and the board controller agrees with its DLL. */
  predicate Coherent(c: Cyl) {
    c.connected == c.board.connected && P.Coherent(c.board)
  }

  /** `connect(n)`: `connected` becomes whatever the board controller's `connect` answered. */
  function AfterConnect(c: Cyl, e: Env, cardNumber: int): (r: (Cyl, Env, bool))
    ensures r.0.connected == r.2
    ensures r.2 <==> Next(e.codes, -1) >= 0
    ensures r.2 ==> r.0.board.connected && r.0.board.dll.card >= 0 && r.0.board.dll.output == 0
  {
    var (b, e1, ok) := P.AfterConnect(c.board, e, cardNumber);
    (Cyl(ok, b), e1, ok)
  }

  /** `disconnect()` (also what leaving a `with` block does): only a connected controller
      disconnects the board; afterwards `connected` is false either way. */
  function AfterDisconnect(c: Cyl, e: Env): (r: (Cyl, Env))
    ensures !r.0.connected
    ensures !c.connected ==> r == (c, e)
    ensures c.connected ==> !r.0.board.connected
  {
    if c.connected then
      var (b, e1) := P.AfterDisconnect(c.board, e);
      (Cyl(false, b), e1)
    else (c, e)
  }

  /** `cylinder_N_on()` / `cylinder_N_off()`: false without any call when not connected,
      otherwise `set_channel(N, on)` and its answer. */
  function AfterSwitch(c: Cyl, e: Env, n: CylinderNumber, on: bool): (r: (Cyl, Env, bool))
    ensures !c.connected ==> r == (c, e, false)
    ensures r.0.connected == c.connected && r.0.board.connected == c.board.connected
    ensures r.2 <==> c.connected && c.board.connected && c.board.dll.card >= 0 && Next(e.codes, -1) >= 0
    ensures r.2 ==> r.0.board.dll.output == Switch(c.board.dll.output, Channel(n), on)
                    && r.1.trace == e.trace + [PortWrite(c.board.dll.card, r.0.board.dll.output)]
  {
    if !c.connected then (c, e, false)
    else
      var (b, e1, ok) := P.AfterSetChannel(c.board, e, n, on);
      (c.(board := b), e1, ok)
  }

  /** `cylinder_N_pulse()`: on, wait, off, wait; the two switch answers are not looked at. */
  function AfterPulse(c: Cyl, e: Env, n: CylinderNumber): (r: (Cyl, Env))
    ensures r.0.connected == c.connected && r.0.board.connected == c.board.connected
  {
    var (c1, e1, _) := AfterSwitch(c, e, n, true);
    var (c2, e2, _) := AfterSwitch(c1, Sleep(e1), n, false);
    (c2, Sleep(e2))
  }

  /** Switching a cylinder writes at most one card word and nothing to the robot. */
  lemma SwitchSendsNothing(c: Cyl, e: Env, n: CylinderNumber, on: bool)
    ensures RobotMessages(AfterSwitch(c, e, n, on).1.trace) == RobotMessages(e.trace)
  {
    if c.connected && c.board.connected && c.board.dll.card >= 0 {
      var w := Switch(c.board.dll.output, Channel(n), on);
      assert AfterSwitch(c, e, n, on).1.trace == Emit(e, PortWrite(c.board.dll.card, w)).trace;
      EmitQuiet(e, PortWrite(c.board.dll.card, w));
    }
  }

  /** Nor does a pulse: two switches and two waits. */
  lemma PulseSendsNothing(c: Cyl, e: Env, n: CylinderNumber)
    ensures RobotMessages(AfterPulse(c, e, n).1.trace) == RobotMessages(e.trace)
  {
    var (c1, e1, _) := AfterSwitch(c, e, n, true);
    SwitchSendsNothing(c, e, n, true);
    EmitQuiet(e1, Wait);
    var (c2, e2, _) := AfterSwitch(c1, Sleep(e1), n, false);
    SwitchSendsNothing(c1, Sleep(e1), n, false);
    EmitQuiet(e2, Wait);
  }

  /** The flags stay coherent from a fresh controller on, through every operation; `connect` is
      only issued on a disconnected controller. */
  lemma CoherentKept(c: Cyl, e: Env, k: int, n: CylinderNumber, on: bool)
    requires Coherent(c)
    ensures !c.connected ==> Coherent(AfterConnect(c, e, k).0)
    ensures Coherent(AfterDisconnect(c, e).0)
    ensures Coherent(AfterSwitch(c, e, n, on).0)
    ensures Coherent(AfterPulse(c, e, n).0)
  {
    P.CoherentKept(c.board, e, k, n, on, 0);
    var (c1, e1, _) := AfterSwitch(c, e, n, true);
    P.CoherentKept(c1.board, Sleep(e1), k, n, false, 0);
  }

  /** On a coherent connected controller, switching cylinder N always reaches the card as one
      whole-word write in which channel N is as requested and the other channels are as they were;
      it reports success exactly when the write succeeded. */
  lemma SwitchDrivesChannel(c: Cyl, e: Env, n: CylinderNumber, on: bool)
    requires Coherent(c) && c.connected
    ensures var (c1, e1, ok) := AfterSwitch(c, e, n, on);
            && e1.trace == e.trace + [PortWrite(c.board.dll.card, c1.board.dll.output)]
            && c1.board.dll.output == Switch(c.board.dll.output, Channel(n), on)
            && (ok <==> Next(e.codes, -1) >= 0)
  {
    P.ConnectedSetReachesCard(c.board, e, n, on);
  }

  /** A pulse on a coherent connected controller writes the word with channel N on and then the
      word with it off again, each followed by a wait. */
  lemma PulseOnThenOff(c: Cyl, e: Env, n: CylinderNumber)
    requires Coherent(c) && c.connected
    ensures var on := Switch(c.board.dll.output, Channel(n), true);
            AfterPulse(c, e, n).1.trace
              == e.trace + [PortWrite(c.board.dll.card, on), Wait, PortWrite(c.board.dll.card, Switch(on, Channel(n), false)), Wait]
  {
    var (c1, e1, _) := AfterSwitch(c, e, n, true);
    SwitchDrivesChannel(c, e, n, true);
    CoherentKept(c, e, 0, n, true);
    SwitchDrivesChannel(c1, Sleep(e1), n, false);
  }

  /** If channel N was off, a pulse on a coherent connected controller leaves every output as it
      started. */
  lemma PulseRestoresOutputs(c: Cyl, e: Env, n: CylinderNumber)
    requires Coherent(c) && c.connected && !Bit(c.board.dll.output, Channel(n))
    ensures AfterPulse(c, e, n).0.board.dll.output == c.board.dll.output
  {
    var w := c.board.dll.output;
    var (c1, e1, _) := AfterSwitch(c, e, n, true);
    SwitchDrivesChannel(c, e, n, true);
    CoherentKept(c, e, 0, n, true);
    SwitchDrivesChannel(c1, Sleep(e1), n, false);
    assert AfterPulse(c, e, n).0.board.dll.output == Switch(Switch(w, Channel(n), true), Channel(n), false);
    PulseRestores(w, Channel(n));
  }

  /** A pulse on a disconnected controller only waits. */
  lemma PulseDisconnected(c: Cyl, e: Env, n: CylinderNumber)
    requires !c.connected
    ensures AfterPulse(c, e, n) == (c, Sleep(Sleep(e)))
  {
  }

  /** The cylinder controller object. */
  class CylinderController {
    const board: P.Controller
    var connected: bool

    constructor (b: P.Controller)
      ensures board == b && !connected
    {
      board := b;
      connected := false;
    }

    function State(): Cyl
      reads this, board, board.dll
    {
      Cyl(connected, board.State())
    }

    method Connect(cardNumber: int) returns (ok: bool)
      modifies this, board, board.dll, board.dll.world
      ensures (State(), board.dll.world.env, ok) == AfterConnect(old(State()), old(board.dll.world.env), cardNumber)
    {
      connected := board.Connect(cardNumber);
      ok := connected;
    }

    method Disconnect()
      modifies this, board, board.dll, board.dll.world
      ensures (State(), board.dll.world.env) == AfterDisconnect(old(State()), old(board.dll.world.env))
    {
      if connected {
        board.Disconnect();
        connected := false;
      }
    }

    method On(n: CylinderNumber) returns (ok: bool)
      modifies board.dll, board.dll.world
      ensures (State(), board.dll.world.env, ok) == AfterSwitch(old(State()), old(board.dll.world.env), n, true)
    {
      if !connected {
        return false;
      }
      ok := board.SetChannel(n, true);
    }

    method Off(n: CylinderNumber) returns (ok: bool)
      modifies board.dll, board.dll.world
      ensures (State(), board.dll.world.env, ok) == AfterSwitch(old(State()), old(board.dll.world.env), n, false)
    {
      if !connected {
        return false;
      }
      ok := board.SetChannel(n, false);
    }

    method Pulse(n: CylinderNumber)
      modifies board.dll, board.dll.world
      ensures (State(), board.dll.world.env) == AfterPulse(old(State()), old(board.dll.world.env), n)
    {
      var _ := On(n);
      board.dll.world.Pause();
      var _ := Off(n);
      board.dll.world.Pause();
    }

    /** Leaving a `with` block. */
    method Exit()
      modifies this, board, board.dll, board.dll.world
      ensures (State(), board.dll.world.env) == AfterDisconnect(old(State()), old(board.dll.world.env))
    {
      Disconnect();
    }
  }
}
