/** The integrated server's single requests (a robot task, a cylinder control) and the
    step-by-step execution of a named sequence, as functions of the state and the shared world. */
module ServerRequests {
  import opened Options
  import opened Text
  import opened Plant
  import opened Bits
  import opened RobotProtocol
  import RL = RobotLink
  import F = Feeder
  import Cam = Camera
  import Cy = Cylinders
  import opened ServerLifecycle

  // ---------------------------------------------------------------- single requests

  /** A request's answer: a task reply, a cylinder acknowledgement, or an HTTP error status. */
  datatype Reply = TaskDone(task: int, response: string) | CylinderDone(cylinder: int, action: string) | HttpError(status: int)

  /** `POST /api/robot_task`: 503 without sending while the robot is not connected; otherwise the
      task is sent and an empty or missing reply is a 500. */
  function AfterRobotTask(l: RL.Link, e: Env, t: Task): (r: (Env, Reply)) {
    if !l.connected then (e, HttpError(503))
    else
      var (e1, reply) := RL.AfterSend(l, e, t);
      if RL.Answered(reply) then (e1, TaskDone(t.num, reply.value)) else (e1, HttpError(500))
  }

  /** The request succeeds exactly when the robot is connected and its reply, stripped, is not
      empty; that reply is returned with the task number. A request on a disconnected robot
      sends nothing and changes nothing; otherwise exactly the task's frame is sent. */
  lemma RobotTaskReplies(l: RL.Link, e: Env, t: Task)
    ensures var (e1, reply) := AfterRobotTask(l, e, t);
            var x := Next(e.robotExchanges, TimedOut);
            && (!l.connected ==> e1 == e && reply == HttpError(503))
            && (reply.TaskDone? <==> l.connected && x.Replied? && Strip(x.text) != [])
            && (reply.TaskDone? ==> reply == TaskDone(t.num, Strip(x.text)))
            && (l.connected && !reply.TaskDone? ==> reply == HttpError(500))
            && (l.connected ==> RobotMessages(e1.trace) == RobotMessages(e.trace) + [ServerFrame(t)])
  {
    RL.SendMessages(l, e, t);
  }

  /** A JSON value as it arrives in a request. */
  datatype Param = IntP(i: int) | RealP(r: real) | BoolP(b: bool) | TextP(s: string) | NullP

  /** What `time.sleep` accepts: a non-negative number (a boolean counts as 0 or 1). */
  predicate SleepArg(p: Param) {
    match p
    case IntP(i) => i >= 0
    case RealP(r) => r >= 0.0
    case BoolP(_) => true
    case _ => false
  }

  /** `cylinder_n_pulse(on_time, off_time)`: on, sleep, off, sleep, with the caller's durations;
      the answer says whether a sleep raised, which ends the pulse at that point. */
  function TimedPulse(c: Cy.Cyl, e: Env, n: Cy.CylinderNumber, onTime: Param, offTime: Param): (r: (Cy.Cyl, Env, bool)) {
    var (c1, e1, _) := Cy.AfterSwitch(c, e, n, true);
    if !SleepArg(onTime) then (c1, e1, true)
    else
      var (c2, e2, _) := Cy.AfterSwitch(c1, Sleep(e1), n, false);
      if !SleepArg(offTime) then (c2, e2, true) else (c2, Sleep(e2), false)
  }

  /** With durations `time.sleep` accepts, the timed pulse is the ordinary pulse. */
  lemma TimedPulseIsPulse(c: Cy.Cyl, e: Env, n: Cy.CylinderNumber, onTime: Param, offTime: Param)
    requires SleepArg(onTime) && SleepArg(offTime)
    ensures TimedPulse(c, e, n, onTime, offTime) == (Cy.AfterPulse(c, e, n).0, Cy.AfterPulse(c, e, n).1, false)
  {
  }

  /** An on-time `time.sleep` refuses raises after the cylinder was switched on, so on a
      connected coherent controller the cylinder is left on. */
  lemma BadOnTimeLeavesCylinderOn(c: Cy.Cyl, e: Env, n: Cy.CylinderNumber, onTime: Param, offTime: Param)
    requires Cy.Coherent(c) && c.connected && !SleepArg(onTime)
    ensures var (c1, e1, raised) := TimedPulse(c, e, n, onTime, offTime);
            raised && Bit(c1.board.dll.output, Channel(n))
            && e1.trace == e.trace + [PortWrite(c.board.dll.card, c1.board.dll.output)]
  {
    Cy.SwitchDrivesChannel(c, e, n, true);
    SwitchEffect(c.board.dll.output, Channel(n), true);
  }

  /** The action names `cylinder_control` dispatches on. */
  predicate KnownAction(action: string) {
    action == "on" || action == "off" || action == "pulse"
  }

  /** The duration field of a cylinder request: a number, or JSON `null`. */
  function Duration(t: Option<real>): Param {
    if t.Some? then RealP(t.value) else NullP
  }

  /** `POST /api/cylinder_control`: 503 while not connected; an unknown action, or a cylinder
      number with no `cylinder_N_...` method, is a 500 before any call. A known action is
      acknowledged whatever the board answered; only a pulse whose sleep raised is a 500. */
  function AfterCylinderControl(c: Cy.Cyl, e: Env, num: int, action: string, onTime: Option<real>, offTime: Option<real>)
    : (r: (Cy.Cyl, Env, Reply))
  {
    if !c.connected then (c, e, HttpError(503))
    else if !KnownAction(action) || !(0 <= num < 4) then (c, e, HttpError(500))
    else if action == "pulse" then
      var (c1, e1, raised) := TimedPulse(c, e, num, Duration(onTime), Duration(offTime));
      (c1, e1, if raised then HttpError(500) else CylinderDone(num, action))
    else
      var (c1, e1, _) := Cy.AfterSwitch(c, e, num, action == "on");
      (c1, e1, CylinderDone(num, action))
  }

  /** The request is acknowledged exactly when the controller is connected, the action is known,
      the cylinder is 0..3 and, for a pulse, both durations are given and not negative. A
      rejected `on`/`off`, and any request refused before its call, leaves everything as it was.
      On a connected coherent controller an acknowledged `on`/`off` always wrote the card. */
  lemma CylinderControlReplies(c: Cy.Cyl, e: Env, num: int, action: string, onTime: Option<real>, offTime: Option<real>)
    ensures var (c1, e1, reply) := AfterCylinderControl(c, e, num, action, onTime, offTime);
            && (reply.CylinderDone? <==>
                  c.connected && KnownAction(action) && 0 <= num < 4
                  && (action == "pulse" ==> onTime.Some? && onTime.value >= 0.0 && offTime.Some? && offTime.value >= 0.0))
            && (reply.CylinderDone? ==> reply == CylinderDone(num, action))
            && (!reply.CylinderDone? ==> reply == HttpError(if c.connected then 500 else 503))
            && (!c.connected || !KnownAction(action) || !(0 <= num < 4) ==> c1 == c && e1 == e)
            && (Cy.Coherent(c) && reply.CylinderDone? && action != "pulse" ==>
                  e1.trace == e.trace + [PortWrite(c.board.dll.card, Switch(c.board.dll.output, Channel(num), action == "on"))])
  {
    if c.connected && KnownAction(action) && 0 <= num < 4 && action != "pulse" && Cy.Coherent(c) {
      Cy.SwitchDrivesChannel(c, e, num, action == "on");
    }
  }

  // ---------------------------------------------------------------- sequences

  /** One step of a sequence, with the parameters each step type reads; `None` is a missing key.
      A robot step's parameters are integers here; the cylinder number, the actions and the
      durations keep their JSON type, because the code formats or compares them as they come.
      A step whose type is `cylinder`, `robot`, `light`, `wait` or `camera` is always decoded to
      the matching constructor; `OtherStep` stands only for a step of any other type, which the
      loop skips. */
  datatype Step =
    | CylinderStep(cylinder: Option<Param>, action: Option<Param>, onTime: Option<Param>, offTime: Option<Param>)
    | RobotStep(task: Option<int>, x: Option<int>, y: Option<int>, angle: Option<int>, plate: Option<int>)
    | LightStep(on: Option<bool>, brightness: Option<real>)
    | WaitStep(duration: Option<Param>)
    | CameraStep(action: Option<Param>)
    | OtherStep(kind: string)

  /** One entry of the results list, numbered from 1: a step that went through (with the robot's
      reply, or the centroids the camera found), or one that raised. */
  datatype Entry =
    | Done(step: int, kind: string)
    | RobotResult(step: int, response: Option<string>)
    | Detected(step: int, centroids: seq<(int, int)>)
    | Failed(step: int, kind: string)

  /** The answer of `execute_sequence`: always `completed`, with the name and the entries. */
  datatype SequenceResult = Completed(sequence: string, results: seq<Entry>)

  /** The cylinder whose method `getattr(system.cylinder, f'cylinder_{v}_...')` finds: the
      formatted value must be one of the digits 0..3. */
  function CylinderIndex(v: Param): (r: Option<Cy.CylinderNumber>)
    ensures r.Some? <==> v in {IntP(0), IntP(1), IntP(2), IntP(3), TextP("0"), TextP("1"), TextP("2"), TextP("3")}
  {
    match v
    case IntP(i) => if 0 <= i < 4 then Some(i) else None
    case TextP(s) =>
      if s == "0" then Some(0) else if s == "1" then Some(1) else if s == "2" then Some(2)
      else if s == "3" then Some(3) else None
    case _ => None
  }

  /** What `asyncio.sleep` accepts: any number (a negative one returns at once). */
  predicate AwaitArg(p: Param) {
    p.IntP? || p.RealP? || p.BoolP?
  }

  function OrZero(v: Option<int>): int {
    if v.Some? then v.value else 0
  }

  /** The type name a step is reported under. */
  function KindName(step: Step): string {
    match step
    case CylinderStep(_, _, _, _) => "cylinder"
    case RobotStep(_, _, _, _, _) => "robot"
    case LightStep(_, _) => "light"
    case WaitStep(_) => "wait"
    case CameraStep(_) => "camera"
    case OtherStep(k) => k
  }

  /** The cylinder step: both keys are read first; `on`/`off`/`pulse` call the cylinder's method
      (a number without one raises), any other action calls nothing but is still reported. */
  function CylinderEffect(c: Cy.Cyl, e: Env, step: Step, n: int): (r: (Cy.Cyl, Env, Entry))
    requires step.CylinderStep?
  {
    if step.cylinder.None? || step.action.None? then (c, e, Failed(n, "cylinder"))
    else
      var action := step.action.value;
      if action != TextP("on") && action != TextP("off") && action != TextP("pulse") then (c, e, Done(n, "cylinder"))
      else
        var index := CylinderIndex(step.cylinder.value);
        if index.None? then (c, e, Failed(n, "cylinder"))
        else if action == TextP("pulse") then
          var onTime := if step.onTime.Some? then step.onTime.value else RealP(1.0);
          var offTime := if step.offTime.Some? then step.offTime.value else RealP(1.0);
          var (c1, e1, raised) := TimedPulse(c, e, index.value, onTime, offTime);
          (c1, e1, if raised then Failed(n, "cylinder") else Done(n, "cylinder"))
        else
          var (c1, e1, _) := Cy.AfterSwitch(c, e, index.value, action == TextP("on"));
          (c1, e1, Done(n, "cylinder"))
  }

  /** Step number `n` of a sequence: its effect on the devices and world, and the entries it adds
      (none for a camera step other than `capture` and for an unknown type). */
  function StepEffect(s: Sys, e: Env, step: Step, n: int): (r: (Sys, Env, seq<Entry>)) {
    match step
    case CylinderStep(_, _, _, _) =>
      var (c1, e1, entry) := CylinderEffect(s.cyl, e, step, n);
      (s.(cyl := c1), e1, [entry])
    case RobotStep(task, x, y, angle, plate) =>
      if task.None? then (s, e, [Failed(n, "robot")])
      else
        var (e1, reply) := RL.AfterSend(s.link, e, Task(task.value, OrZero(x), OrZero(y), OrZero(angle), OrZero(plate)));
        (s, e1, [RobotResult(n, reply)])
    case LightStep(on, brightness) =>
      if on.None? then (s, e, [Failed(n, "light")])
      else
        var (e1, _) := F.AfterSetLight(s.hasClient, e, on.value, if brightness.Some? then brightness.value else 0.0);
        (s, e1, [Done(n, "light")])
    case WaitStep(duration) =>
      if duration.None? || !AwaitArg(duration.value) then (s, e, [Failed(n, "wait")])
      else (s, Sleep(e), [Done(n, "wait")])
    case CameraStep(action) =>
      if action == Some(TextP("capture")) then
        var (e1, centroids) := Cam.AfterFrontCentroids(e);
        (s, e1, [Detected(n, centroids)])
      else (s, e, [])
    case OtherStep(_) => (s, e, [])
  }

  /** The loop of `execute_sequence` from step index `i` on: every step runs, in order, whatever
      the previous one did. */
  function RunFrom(s: Sys, e: Env, steps: seq<Step>, i: nat): (r: (Sys, Env, seq<Entry>))
    decreases |steps| - i
  {
    if i >= |steps| then (s, e, [])
    else
      var (s1, e1, entries) := StepEffect(s, e, steps[i], i + 1);
      var r := RunFrom(s1, e1, steps, i + 1);
      (r.0, r.1, entries + r.2)
  }

  /** Whether a step adds an entry. */
  predicate Reports(step: Step) {
    !step.OtherStep? && !(step.CameraStep? && step.action != Some(TextP("capture")))
  }

  /** How many of the steps add an entry. */
  function Reporting(steps: seq<Step>): nat {
    if steps == [] then 0 else (if Reports(steps[0]) then 1 else 0) + Reporting(steps[1..])
  }

  /** The number of the step an entry reports on. */
  function StepOf(entry: Entry): int {
    match entry
    case Done(n, _) => n
    case RobotResult(n, _) => n
    case Detected(n, _) => n
    case Failed(n, _) => n
  }

  /** A step adds one entry exactly when it reports, numbered with its own number, and a step
      that raised is reported under its own type. */
  lemma StepEntry(s: Sys, e: Env, step: Step, n: int)
    ensures var entries := StepEffect(s, e, step, n).2;
            && |entries| == (if Reports(step) then 1 else 0)
            && (forall k :: 0 <= k < |entries| ==> StepOf(entries[k]) == n)
            && (forall k :: 0 <= k < |entries| && entries[k].Failed? ==> entries[k].kind == KindName(step))
  {
  }

  /** A `capture` step reports, under its number, exactly the front centroids the camera
      holds at that moment (their count is the number of objects detected); the devices are
      untouched and the world only advances past the camera lookup. */
  lemma CaptureReportsCentroids(s: Sys, e: Env, n: int)
    ensures var r := StepEffect(s, e, CameraStep(Some(TextP("capture"))), n);
            var (e1, centroids) := Cam.AfterFrontCentroids(e);
            r.0 == s && r.1 == e1 && r.2 == [Detected(n, centroids)]
  {
  }

  /** A step missing a key it reads with `[...]` raises before any device call: the world and
      the devices are unchanged and the entry is an error. */
  lemma MissingKeyFails(s: Sys, e: Env, step: Step, n: int)
    requires || (step.CylinderStep? && (step.cylinder.None? || step.action.None?))
             || (step.RobotStep? && step.task.None?)
             || (step.LightStep? && step.on.None?)
             || (step.WaitStep? && step.duration.None?)
    ensures StepEffect(s, e, step, n) == (s, e, [Failed(n, KindName(step))])
  {
  }

  /** The results list holds one entry per reporting step, in step order: numbers strictly
      increase and lie between `i + 1` and the number of steps. */
  lemma {:induction false} EntriesInOrder(s: Sys, e: Env, steps: seq<Step>, i: nat)
    requires i <= |steps|
    ensures var entries := RunFrom(s, e, steps, i).2;
            && |entries| == Reporting(steps[i..])
            && (forall k :: 0 <= k < |entries| ==> i < StepOf(entries[k]) <= |steps|)
            && (forall k, m :: 0 <= k < m < |entries| ==> StepOf(entries[k]) < StepOf(entries[m]))
    decreases |steps| - i
  {
    if i < |steps| {
      var (s1, e1, first) := StepEffect(s, e, steps[i], i + 1);
      StepEntry(s, e, steps[i], i + 1);
      EntriesInOrder(s1, e1, steps, i + 1);
      var rest := RunFrom(s1, e1, steps, i + 1).2;
      var entries := first + rest;
      assert RunFrom(s, e, steps, i).2 == entries;
      assert steps[i..][1..] == steps[i + 1..];
      forall k | 0 <= k < |entries|
        ensures i < StepOf(entries[k]) <= |steps|
      {
        if k >= |first| {
          assert entries[k] == rest[k - |first|];
        }
      }
      forall k, m | 0 <= k < m < |entries|
        ensures StepOf(entries[k]) < StepOf(entries[m])
      {
        if k >= |first| {
          assert entries[k] == rest[k - |first|];
        }
        assert entries[m] == rest[m - |first|];
      }
    } else {
      assert steps[i..] == [];
    }
  }

}
