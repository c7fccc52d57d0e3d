/** The integrated server: one object owning the camera, feeder, cylinder and robot controllers,
    its start-up and shut-down routines, the robot-task and cylinder-control requests, and the
    step-by-step execution of a named sequence. Every device call goes to the shared world. */
module Server {
  import opened Options
  import opened Text
  import opened Plant
  import opened Bits
  import opened RobotProtocol
  import RL = RobotLink
  import F = Feeder
  import Cam = Camera
  import Cy = Cylinders
  import opened CylinderSweep
  import opened ServerLifecycle
  import opened ServerRequests

  // ---------------------------------------------------------------- the server object

  /** The server object: the four controllers and the `is_initialized` flag. */
  class IntegratedSystem {
    const camera: Cam.CameraController
    const feeder: F.FeederController
    const cylinder: Cy.CylinderController
    const robot: RL.RobotController
    var isInitialized: bool

    constructor (cam: Cam.CameraController, f: F.FeederController, cy: Cy.CylinderController, r: RL.RobotController)
      ensures camera == cam && feeder == f && cylinder == cy && robot == r && !isInitialized
    {
      camera, feeder, cylinder, robot := cam, f, cy, r;
      isInitialized := false;
    }

    /** All controllers talk to the same world. */
    predicate Wired() {
      feeder.world == robot.world && camera.world == robot.world && cylinder.board.dll.world == robot.world
    }

    function State(): Sys
      reads robot, feeder, cylinder, cylinder.board, cylinder.board.dll
    {
      Sys(robot.State(), feeder.hasClient, cylinder.State())
    }

    /** Cylinders 0..3 off, in order. */
    method AllOff()
      modifies cylinder.board.dll, cylinder.board.dll.world
      ensures (cylinder.State(), cylinder.board.dll.world.env)
           == OffFrom(old(cylinder.State()), old(cylinder.board.dll.world.env), 0)
    {
      ghost var final := OffFrom(cylinder.State(), cylinder.board.dll.world.env, 0);
      for i := 0 to 4
        invariant OffFrom(cylinder.State(), cylinder.board.dll.world.env, i) == final
      {
        var _ := cylinder.Off(i);
      }
    }

    /** Start-up, feeder part. */
    method StartFeeder()
      requires Wired()
      modifies feeder, robot.world
      ensures (feeder.hasClient, robot.world.env) == FeederStart(old(robot.world.env))
    {
      var fed := feeder.Connect();
      if fed {
        var _ := feeder.SetLight(true, 10.0);
      }
    }

    /** Start-up, cylinder part. */
    method StartCylinders()
      requires Wired()
      modifies cylinder, cylinder.board, cylinder.board.dll, robot.world
      ensures (cylinder.State(), robot.world.env) == CylindersStart(old(cylinder.State()), old(robot.world.env))
    {
      var board := cylinder.Connect(0);
      if board {
        AllOff();
      }
    }

    /** Start-up, robot part. */
    method StartRobot()
      requires Wired()
      modifies robot, robot.world
      ensures (robot.State(), robot.world.env) == (RobotStart(old(robot.world.env)).0, RobotStart(old(robot.world.env)).1)
    {
      var linked := robot.Connect();
      if linked {
        var reply := robot.Run(RobotInit);
        if reply.Some? && reply.value != "" {
          var _ := robot.Run(ToolPlateInit);
        }
      }
    }

    /** `initialize()`. The camera part only decides whether frames are captured and is not
        part of this model. */
    method Initialize()
      requires Wired()
      modifies this, robot, robot.world, feeder, cylinder, cylinder.board, cylinder.board.dll
      ensures (State(), robot.world.env) == AfterInitialize(old(State()), old(robot.world.env))
      ensures isInitialized
    {
      StartFeeder();
      StartCylinders();
      StartRobot();
      isInitialized := true;
    }

    /** `shutdown()`. Stopping the camera's capture thread is not part of this model. */
    method Shutdown()
      requires Wired()
      modifies robot, robot.world, cylinder, cylinder.board, cylinder.board.dll
      ensures (State(), robot.world.env) == AfterShutdown(old(State()), old(robot.world.env))
    {
      ghost var s0 := State();
      if feeder.hasClient {
        var _ := feeder.SetLight(false, 0.0);
      }
      if cylinder.connected {
        AllOff();
      }
      assert (cylinder.State(), robot.world.env) == StopOutputs(s0, old(robot.world.env));
      feeder.Disconnect();
      cylinder.Disconnect();
      robot.Disconnect();
    }

    /** `POST /api/robot_task`. */
    method RobotTask(t: Task) returns (reply: Reply)
      modifies robot.world
      ensures (robot.world.env, reply) == AfterRobotTask(robot.State(), old(robot.world.env), t)
    {
      if !robot.connected {
        return HttpError(503);
      }
      var response := robot.SendTask(t);
      if response.Some? && response.value != "" {
        reply := TaskDone(t.num, response.value);
      } else {
        reply := HttpError(500);
      }
    }

    /** `cylinder_n_pulse(on_time, off_time)`; the answer says whether a sleep raised. */
    method Pulse(n: Cy.CylinderNumber, onTime: Param, offTime: Param) returns (raised: bool)
      requires Wired()
      modifies cylinder.board.dll, robot.world
      ensures (cylinder.State(), robot.world.env, raised) == TimedPulse(old(cylinder.State()), old(robot.world.env), n, onTime, offTime)
    {
      var _ := cylinder.On(n);
      if !SleepArg(onTime) {
        return true;
      }
      robot.world.Pause();
      var _ := cylinder.Off(n);
      if !SleepArg(offTime) {
        return true;
      }
      robot.world.Pause();
      raised := false;
    }

    /** `POST /api/cylinder_control`. */
    method CylinderControl(num: int, action: string, onTime: Option<real>, offTime: Option<real>) returns (reply: Reply)
      requires Wired()
      modifies cylinder.board.dll, robot.world
      ensures (cylinder.State(), robot.world.env, reply)
           == AfterCylinderControl(old(cylinder.State()), old(robot.world.env), num, action, onTime, offTime)
    {
      if !cylinder.connected {
        return HttpError(503);
      }
      if !KnownAction(action) || !(0 <= num < 4) {
        return HttpError(500);
      }
      if action == "pulse" {
        var raised := Pulse(num, Duration(onTime), Duration(offTime));
        reply := if raised then HttpError(500) else CylinderDone(num, action);
      } else if action == "on" {
        var _ := cylinder.On(num);
        reply := CylinderDone(num, action);
      } else {
        var _ := cylinder.Off(num);
        reply := CylinderDone(num, action);
      }
    }

    /** One cylinder step. */
    method CylinderStepRun(step: Step, n: int) returns (entry: Entry)
      requires Wired() && step.CylinderStep?
      modifies cylinder.board.dll, robot.world
      ensures (cylinder.State(), robot.world.env, entry) == CylinderEffect(old(cylinder.State()), old(robot.world.env), step, n)
    {
      if step.cylinder.None? || step.action.None? {
        return Failed(n, "cylinder");
      }
      var action := step.action.value;
      if action != TextP("on") && action != TextP("off") && action != TextP("pulse") {
        return Done(n, "cylinder");
      }
      var index := CylinderIndex(step.cylinder.value);
      if index.None? {
        return Failed(n, "cylinder");
      }
      if action == TextP("pulse") {
        var onTime := if step.onTime.Some? then step.onTime.value else RealP(1.0);
        var offTime := if step.offTime.Some? then step.offTime.value else RealP(1.0);
        var raised := Pulse(index.value, onTime, offTime);
        entry := if raised then Failed(n, "cylinder") else Done(n, "cylinder");
      } else if action == TextP("on") {
        var _ := cylinder.On(index.value);
        entry := Done(n, "cylinder");
      } else {
        var _ := cylinder.Off(index.value);
        entry := Done(n, "cylinder");
      }
    }

    /** Step number `n`, inside the `try` of the loop. */
    method RunStep(step: Step, n: int) returns (entries: seq<Entry>)
      requires Wired()
      modifies cylinder.board.dll, robot.world
      ensures (State(), robot.world.env, entries) == StepEffect(old(State()), old(robot.world.env), step, n)
    {
      match step {
        case CylinderStep(_, _, _, _) =>
          var entry := CylinderStepRun(step, n);
          entries := [entry];
        case RobotStep(task, x, y, angle, plate) =>
          if task.None? {
            return [Failed(n, "robot")];
          }
          var reply := robot.SendTask(Task(task.value, OrZero(x), OrZero(y), OrZero(angle), OrZero(plate)));
          entries := [RobotResult(n, reply)];
        case LightStep(on, brightness) =>
          if on.None? {
            return [Failed(n, "light")];
          }
          var _ := feeder.SetLight(on.value, if brightness.Some? then brightness.value else 0.0);
          entries := [Done(n, "light")];
        case WaitStep(duration) =>
          if duration.None? || !AwaitArg(duration.value) {
            return [Failed(n, "wait")];
          }
          robot.world.Pause();
          entries := [Done(n, "wait")];
        case CameraStep(action) =>
          entries := [];
          if action == Some(TextP("capture")) {
            var centroids := camera.GetFrontCentroids();
            entries := [Detected(n, centroids)];
          }
        case OtherStep(_) =>
          entries := [];
      }
    }

    /** `POST /api/execute_sequence`. */
    method ExecuteSequence(name: string, steps: seq<Step>) returns (result: SequenceResult)
      requires Wired()
      modifies cylinder.board.dll, robot.world
      ensures var r := RunFrom(old(State()), old(robot.world.env), steps, 0);
              State() == r.0 && robot.world.env == r.1 && result == Completed(name, r.2)
    {
      ghost var final := RunFrom(State(), robot.world.env, steps, 0);
      var results := [];
      for i := 0 to |steps|
        invariant var r := RunFrom(State(), robot.world.env, steps, i);
                  r.0 == final.0 && r.1 == final.1 && results + r.2 == final.2
      {
        var entries := RunStep(steps[i], i + 1);
        results := results + entries;
      }
      result := Completed(name, results);
    }
  }
}
