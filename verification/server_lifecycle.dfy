/** The integrated server's start-up and shut-down routines, as functions from the state they
    can change and the shared world to the new state and world. */
module ServerLifecycle {
  import opened Options
  import opened Text
  import opened Plant
  import opened Bits
  import opened RobotProtocol
  import RL = RobotLink
  import F = Feeder
  import Cam = Camera
  import Cy = Cylinders
  import opened CylinderSweep

  /** What the server's routines can change: the robot link, whether the feeder has a client,
      and the cylinder controller with the board beneath it. */
  datatype Sys = Sys(link: RL.Link, hasClient: bool, cyl: Cy.Cyl)

  // ---------------------------------------------------------------- start-up and shut-down

  /** Start-up, feeder part: connect, and only when that succeeded switch the light on at 10%. */
  function FeederStart(e: Env): (r: (bool, Env)) {
    var (h, e1, ok) := F.AfterConnect(e);
    if ok then (h, F.AfterSetLight(h, e1, true, 10.0).0) else (h, e1)
  }

  /** Start-up, cylinder part: connect card 0 and, only when that succeeded, switch cylinders
      0..3 off. */
  function CylindersStart(c: Cy.Cyl, e: Env): (r: (Cy.Cyl, Env)) {
    var (c1, e1, ok) := Cy.AfterConnect(c, e, 0);
    if ok then OffFrom(c1, e1, 0) else (c1, e1)
  }

  /** Start-up, robot part: connect; when connected send task 0, and only when that got a
      non-empty reply send task 1. The commands sent are listed in order. */
  function RobotStart(e: Env): (r: (RL.Link, Env, seq<Command>)) {
    var (l, e1, ok) := RL.AfterConnect(e);
    if !ok then (l, e1, [])
    else
      var (e2, reply) := RL.AfterRun(l, e1, RobotInit);
      if !RL.Answered(reply) then (l, e2, [RobotInit])
      else (l, RL.AfterRun(l, e2, ToolPlateInit).0, [RobotInit, ToolPlateInit])
  }

  /** `initialize()`: feeder, then cylinders, then robot; no failure stops the next part. */
  function AfterInitialize(s: Sys, e: Env): (r: (Sys, Env)) {
    var (h, e1) := FeederStart(e);
    var (c, e2) := CylindersStart(s.cyl, e1);
    var (l, e3, _) := RobotStart(e2);
    (Sys(l, h, c), e3)
  }

  /** Shut-down, first part: the light off if there is a client, then cylinders 0..3 off if the
      cylinder controller is connected. */
  function StopOutputs(s: Sys, e: Env): (r: (Cy.Cyl, Env)) {
    var e1 := if s.hasClient then F.AfterSetLight(true, e, false, 0.0).0 else e;
    if s.cyl.connected then OffFrom(s.cyl, e1, 0) else (s.cyl, e1)
  }

  /** Shut-down, second part: feeder, cylinders and robot disconnected, in that order. */
  function Disconnects(s: Sys, e: Env): (r: (Sys, Env)) {
    var e1 := F.AfterDisconnect(s.hasClient, e);
    var (c, e2) := Cy.AfterDisconnect(s.cyl, e1);
    var (l, e3) := RL.AfterDisconnect(s.link, e2);
    (Sys(l, s.hasClient, c), e3)
  }

  /** `shutdown()`. */
  function AfterShutdown(s: Sys, e: Env): (r: (Sys, Env)) {
    var (c, e1) := StopOutputs(s, e);
    Disconnects(s.(cyl := c), e1)
  }

  /** The feeder light is switched on, at brightness value 100, only when the feeder connected;
      a client exists afterwards either way. */
  lemma FeederStartLight(e: Env)
    ensures var (h, e1) := FeederStart(e);
            && h
            && (!Next(e.modbusDials, false) ==> e1.trace == e.trace + [ModbusConnect])
            && (Next(e.modbusDials, false) && Next(e.modbusWrites, false) && Next(Rest(e.modbusWrites), false) ==>
                  e1.trace == e.trace + [ModbusConnect, RegisterWrite(F.LightRegister, 1), RegisterWrite(F.BrightnessRegister, 100)])
  {
    var (h, e1, ok) := F.AfterConnect(e);
    F.BrightnessScale(10);
    if ok {
      F.SetLightWrites(e1, true, 10.0);
    }
  }

  /** Start-up from a disconnected controller: card 0 is registered; when that succeeds the card
      is written four times, cylinder 0 first, and the controller is connected. */
  lemma CylindersStartOff(c: Cy.Cyl, e: Env)
    requires Cy.Coherent(c) && !c.connected
    ensures var (c1, e1) := CylindersStart(c, e);
            var k := Next(e.codes, -1);
            && Cy.Coherent(c1)
            && (c1.connected <==> k >= 0)
            && (k < 0 ==> e1.trace == e.trace + [CardRegister(0)])
            && (k >= 0 ==> e1.trace == e.trace + [CardRegister(0)] + OffWrites(k, 0, 0))
  {
    var (c1, e1, ok) := Cy.AfterConnect(c, e, 0);
    Cy.CoherentKept(c, e, 0, 0, false);
    if ok {
      OffFromState(c1, e1, 0);
      OffFromWrites(c1, e1, 0);
    }
  }

  /** Start-up, robot part: the commands listed are none when the connection failed, task 0
      otherwise, and task 1 only after a non-empty reply to task 0. */
  lemma RobotStartLog(e: Env)
    ensures var (l, e1, log) := RobotStart(e);
            var e0 := RL.AfterConnect(e).1;
            && RL.Coherent(l)
            && (log == [] <==> !l.connected)
            && (ToolPlateInit in log <==> l.connected && RL.Answered(RL.AfterRun(l, e0, RobotInit).1))
            && log <= [RobotInit, ToolPlateInit]
  {
  }

  /** Start-up, robot part: the frames handed to `sendall` are exactly the listed commands, in order. */
  lemma RobotStartMessages(e: Env)
    ensures var (_, e1, log) := RobotStart(e);
            RobotMessages(e1.trace) == RobotMessages(e.trace) + RL.Frames(log)
  {
    var (l, e0, ok) := RL.AfterConnect(e);
    RL.ConnectSendsNothing(e);
    if ok {
      RL.RunSendsItsTask(l, e0, RobotInit);
      RL.FramesOne(RobotInit);
      RL.RunTwiceSendsBoth(l, e0, RobotInit, ToolPlateInit);
    }
  }

  /** Shut-down leaves the cylinders and the robot disconnected ... */
  lemma ShutdownDisconnects(s: Sys, e: Env)
    requires RL.Coherent(s.link)
    ensures var s1 := AfterShutdown(s, e).0;
            !s1.cyl.connected && !s1.link.connected
  {
  }

  /** Stopping the outputs of a connected coherent controller clears channels 0..3 of its
      word one after the other. */
  lemma StopOutputsClears(s: Sys, e: Env)
    requires Cy.Coherent(s.cyl) && s.cyl.connected
    ensures StopOutputs(s, e).0.board.dll.output == Cleared(s.cyl.board.dll.output, 0)
  {
    var e1 := if s.hasClient then F.AfterSetLight(true, e, false, 0.0).0 else e;
    OffFromState(s.cyl, e1, 0);
  }

  /** Disconnecting releases the card but leaves the last word written in the DLL. */
  lemma DisconnectsKeepOutput(s: Sys, e: Env)
    ensures Disconnects(s, e).0.cyl.board.dll.output == s.cyl.board.dll.output
  {
  }

  /** ... and, when the cylinders were connected, channels 0..3 of the card's word are off
      while every other channel is kept. */
  lemma ShutdownOutputsOff(s: Sys, e: Env)
    requires Cy.Coherent(s.cyl) && s.cyl.connected
    ensures var s1 := AfterShutdown(s, e).0;
            forall j :: 0 <= j < 32 ==>
              Bit(s1.cyl.board.dll.output, Channel(j)) == (j >= 4 && Bit(s.cyl.board.dll.output, Channel(j)))
  {
    var w := s.cyl.board.dll.output;
    var (c, e1) := StopOutputs(s, e);
    StopOutputsClears(s, e);
    DisconnectsKeepOutput(s.(cyl := c), e1);
    forall j | 0 <= j < 32
      ensures Bit(Cleared(w, 0), Channel(j)) == (j >= 4 && Bit(w, Channel(j)))
    {
      ClearedBits(w, 0, j);
    }
  }
}
