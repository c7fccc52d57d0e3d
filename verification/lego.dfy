/** The Lego drawing job: attach the suction tool, look up the shape's list of plate numbers,
    then for each plate take the oldest remaining detected brick, move its centroid from ROI to
    camera to robot coordinates and send one pick-and-place task. When no bricks are left the
    feeder is shaken and the camera asked again; if it still sees none the job stops early. The
    job always ends with the same four finishing steps and reports every plate as done. */
module LegoDrawing {
  import opened Options
  import opened Text
  import opened Plant
  import opened Numbers
  import opened RobotProtocol
  import opened RobotLink
  import Feeder
  import Camera
  import Cylinders
  import Bits

  /** `camera_to_robot(x, y)`: the fixed affine calibration from camera pixels to robot
      millimetres. */
  function CameraToRobot(cx: int, cy: int): (real, real) {
    (0.0001736920 * cx as real + -0.1155149323 * cy as real + 101.5115976961,
     -0.1155644249 * cx as real + -0.0000938678 * cy as real + 490.8506301772)
  }

  /** The map is affine: a shift of the camera point shifts the robot point by the linear part
      alone, whatever the starting point. */
  lemma CameraToRobotAffine(cx: int, cy: int, dx: int, dy: int)
    ensures var (x0, y0) := CameraToRobot(cx, cy);
            var (x1, y1) := CameraToRobot(cx + dx, cy + dy);
            && x1 - x0 == 0.0001736920 * dx as real + -0.1155149323 * dy as real
            && y1 - y0 == -0.1155644249 * dx as real + -0.0000938678 * dy as real
  {
  }

  /** The devices as the job sees them: the robot link, whether the feeder has a client, and
      the ROI's top-left corner. None of them changes during the job. */
  datatype Devices = Devices(link: Link, hasClient: bool, roiX: int, roiY: int)

  /** The pick-and-place command for one plate and one ROI-local centroid: the centroid is moved
      to camera coordinates by the ROI corner, mapped to the robot, and truncated. */
  function PickCommand(d: Devices, plate: int, p: (int, int)): (c: Command)
    ensures c.LegoPickPlace? && c.angle == 0 && c.plate == plate
    ensures ToTask(c).num == 7
  {
    var (rx, ry) := CameraToRobot(d.roiX + p.0, d.roiY + p.1);
    LegoPickPlace(Trunc(rx), Trunc(ry), 0, plate)
  }

  /** One step of the feeder routine: a register write straight on the feeder's client, or a
      pause. */
  datatype Action = Write(address: int, value: int) | Pause

  /** Bounce (mode 10113, start, 0.5 s, stop), gather (mode 10114, start, 3 s, stop), then 1 s. */
  const Recovery: seq<Action> := [Write(1, 10113), Write(0, 1), Pause, Write(0, 0), Write(1, 10114), Write(0, 1), Pause, Write(0, 0), Pause]

  /** One action: a write without a client raises (`None` has no `write_register`), and so does
      a write the client raises on. The flag says whether it raised. */
  function RunAction(hasClient: bool, e: Env, a: Action): (r: (Env, bool))
    ensures a.Pause? ==> r == (Sleep(e), false)
    ensures a.Write? && !hasClient ==> r == (e, true)
  {
    match a
    case Pause => (Sleep(e), false)
    case Write(address, value) =>
      if !hasClient then (e, true)
      else
        var (e1, ok) := ModbusWrite(e, address, value);
        (e1, !ok)
  }

  /** The actions in order, stopping at the first that raises. */
  function RunActions(hasClient: bool, e: Env, acts: seq<Action>): (Env, bool)
    decreases |acts|
  {
    if acts == [] then (e, false)
    else
      var (e1, raised) := RunAction(hasClient, e, acts[0]);
      if raised then (e1, true) else RunActions(hasClient, e1, acts[1..])
  }

  /** What the actions leave in the trace when every write goes through. */
  function Events(acts: seq<Action>): (r: seq<Event>)
    ensures |r| == |acts|
  {
    if acts == [] then []
    else [if acts[0].Pause? then Wait else RegisterWrite(acts[0].address, acts[0].value)] + Events(acts[1..])
  }

  /** How many writes the actions contain. */
  function Writes(acts: seq<Action>): nat {
    if acts == [] then 0 else (if acts[0].Write? then 1 else 0) + Writes(acts[1..])
  }

  /** The next `n` write attempts on the feeder all go through. */
  predicate WritesSucceed(e: Env, n: nat) {
    n <= |e.modbusWrites| && forall i :: 0 <= i < n ==> e.modbusWrites[i]
  }

  /** With a client, and every write going through, the actions run to the end and leave exactly
      their events, in order. */
  lemma {:induction false} ActionsInOrder(e: Env, acts: seq<Action>)
    requires WritesSucceed(e, Writes(acts))
    ensures RunActions(true, e, acts) == (e.(trace := e.trace + Events(acts), modbusWrites := e.modbusWrites[Writes(acts)..]), false)
    decreases |acts|
  {
    if acts == [] {
      assert e.modbusWrites[0..] == e.modbusWrites;
      assert e.trace + [] == e.trace;
    } else {
      var (e1, raised) := RunAction(true, e, acts[0]);
      if acts[0].Write? {
        assert e.modbusWrites[0];
        assert e1 == e.(trace := e.trace + [RegisterWrite(acts[0].address, acts[0].value)], modbusWrites := e.modbusWrites[1..]);
        assert WritesSucceed(e1, Writes(acts[1..])) by {
          forall i | 0 <= i < Writes(acts[1..])
            ensures e1.modbusWrites[i]
          {
            assert e1.modbusWrites[i] == e.modbusWrites[i + 1];
          }
        }
        ActionsInOrder(e1, acts[1..]);
        assert e1.modbusWrites[Writes(acts[1..])..] == e.modbusWrites[Writes(acts)..];
      } else {
        ActionsInOrder(e1, acts[1..]);
      }
      assert e.trace + Events(acts) == e1.trace + Events(acts[1..]);
    }
  }

  /** The feeder routine writes (1, 10113), (0, 1), (0, 0), (1, 10114), (0, 1), (0, 0) in that
      order, with its three pauses in between, when the client has every write go through. */
  lemma RecoveryWrites(e: Env)
    requires WritesSucceed(e, 6)
    ensures var (e1, raised) := RunActions(true, e, Recovery);
            && !raised
            && e1.trace == e.trace + [RegisterWrite(1, 10113), RegisterWrite(0, 1), Wait, RegisterWrite(0, 0),
                                      RegisterWrite(1, 10114), RegisterWrite(0, 1), Wait, RegisterWrite(0, 0), Wait]
  {
    RecoveryShape();
    ActionsInOrder(e, Recovery);
  }

  /** The routine holds six writes, and its events are the listed ones. */
  lemma RecoveryShape()
    ensures Writes(Recovery) == 6
    ensures Events(Recovery) == [RegisterWrite(1, 10113), RegisterWrite(0, 1), Wait, RegisterWrite(0, 0),
                                 RegisterWrite(1, 10114), RegisterWrite(0, 1), Wait, RegisterWrite(0, 0), Wait]
  {
  }

  /** Without a client the routine raises at its first write, having done nothing. */
  lemma RecoveryWithoutClient(e: Env)
    ensures RunActions(false, e, Recovery) == (e, true)
  {
  }

  /** Feeder actions send nothing to the robot. */
  lemma {:induction false} ActionsSendNothing(hasClient: bool, e: Env, acts: seq<Action>)
    ensures RobotMessages(RunActions(hasClient, e, acts).0.trace) == RobotMessages(e.trace)
    decreases |acts|
  {
    if acts != [] {
      var (e1, raised) := RunAction(hasClient, e, acts[0]);
      var added := if e1.trace == e.trace then [] else [e1.trace[|e1.trace| - 1]];
      assert e1.trace == e.trace + added;
      RobotMessagesAppend(e.trace, added);
      if added != [] {
        assert RobotMessages(added) == [] by {
          assert added[..0] == [];
        }
      }
      if !raised {
        ActionsSendNothing(hasClient, e1, acts[1..]);
      }
    }
  }

  /** The feeder routine: `robot_init()` (its reply ignored), the actions, then a new query. The
      answer is whether it raised, and the fresh centroids. */
  function AfterRefill(d: Devices, e: Env): (r: (Env, bool, seq<(int, int)>))
  {
    var e1 := Sent(d.link, e, ToTask(RobotInit));
    var (e2, raised) := RunActions(d.hasClient, e1, Recovery);
    if raised then (e2, true, [])
    else
      var (e3, cs) := Camera.AfterFrontCentroids(e2);
      (e3, false, cs)
  }

  /** The loop from plate `idx` on with centroid list `coords`: the final world, whether a feeder
      write raised out of the job, and the robot commands sent, in order. An empty list first
      runs the feeder routine; if that finds nothing the loop ends. */
  function Plates(d: Devices, plates: seq<int>, idx: nat, coords: seq<(int, int)>, e: Env): (r: (Env, bool, seq<Command>))
    decreases |plates| - idx, 1
  {
    if idx >= |plates| then (e, false, [])
    else if coords == [] then
      var (e1, raised, cs) := AfterRefill(d, e);
      if raised || cs == [] then (e1, raised, [RobotInit])
      else
        var r := Place(d, plates, idx, cs, e1);
        (r.0, r.1, [RobotInit] + r.2)
    else Place(d, plates, idx, coords, e)
  }

  /** One iteration with a brick at hand: plate `idx` is placed with the oldest centroid, which
      is removed, and the loop goes on with the next plate whatever the robot answered. */
  function Place(d: Devices, plates: seq<int>, idx: nat, coords: seq<(int, int)>, e: Env): (r: (Env, bool, seq<Command>))
    requires idx < |plates| && coords != []
    decreases |plates| - idx, 0
  {
    var c := PickCommand(d, plates[idx], coords[0]);
    var e1 := Sent(d.link, e, ToTask(c));
    var r := Plates(d, plates, idx + 1, coords[1..], e1);
    (r.0, r.1, [c] + r.2)
  }

  /** Where the loop leaves the world, and whether it raised. */
  function Ends(d: Devices, plates: seq<int>, idx: nat, coords: seq<(int, int)>, e: Env): (Env, bool) {
    var r := Plates(d, plates, idx, coords, e);
    (r.0, r.1)
  }

  /** With a centroid at hand the loop places plate `idx` and goes on from `idx + 1`. */
  lemma EndsPlace(d: Devices, plates: seq<int>, idx: nat, coords: seq<(int, int)>, e: Env)
    requires idx < |plates| && coords != []
    ensures Ends(d, plates, idx, coords, e)
         == Ends(d, plates, idx + 1, coords[1..], Sent(d.link, e, ToTask(PickCommand(d, plates[idx], coords[0]))))
  {
    assert Plates(d, plates, idx, coords, e) == Place(d, plates, idx, coords, e);
  }

  /** Without one it refills first, and stops when that raised or found nothing. */
  lemma EndsRefill(d: Devices, plates: seq<int>, idx: nat, e: Env)
    requires idx < |plates|
    ensures var (e1, raised, cs) := AfterRefill(d, e);
            && (raised || cs == [] ==> Ends(d, plates, idx, [], e) == (e1, raised))
            && (!raised && cs != [] ==> Ends(d, plates, idx, [], e) == Ends(d, plates, idx, cs, e1))
  {
  }

  /** The plate numbers of the pick-and-place commands among `log`, in order. */
  function Picks(log: seq<Command>): seq<int> {
    if log == [] then []
    else (if log[0].LegoPickPlace? then [log[0].plate] else []) + Picks(log[1..])
  }

  lemma {:induction false} PicksAppend(a: seq<Command>, b: seq<Command>)
    ensures Picks(a + b) == Picks(a) + Picks(b)
  {
    if a != [] {
      assert (a + b)[1..] == a[1..] + b;
      PicksAppend(a[1..], b);
    } else {
      assert a + b == b;
    }
  }

  /** Plates are sent strictly in list order, each at most once, starting at `idx`: the picks
      are a prefix of the plates from `idx` on, whether or not the robot answered. */
  lemma {:induction false} PicksInOrder(d: Devices, plates: seq<int>, idx: nat, coords: seq<(int, int)>, e: Env)
    requires idx <= |plates|
    ensures Picks(Plates(d, plates, idx, coords, e).2) <= plates[idx..]
    decreases |plates| - idx, 1
  {
    if idx < |plates| {
      if coords == [] {
        var (e1, raised, cs) := AfterRefill(d, e);
        assert Picks([RobotInit]) == [] by {
          assert [RobotInit][1..] == [];
        }
        if !raised && cs != [] {
          PlacePicksInOrder(d, plates, idx, cs, e1);
          PicksAppend([RobotInit], Place(d, plates, idx, cs, e1).2);
        }
      } else {
        PlacePicksInOrder(d, plates, idx, coords, e);
      }
    }
  }

  lemma {:induction false} PlacePicksInOrder(d: Devices, plates: seq<int>, idx: nat, coords: seq<(int, int)>, e: Env)
    requires idx < |plates| && coords != []
    ensures Picks(Place(d, plates, idx, coords, e).2) <= plates[idx..]
    decreases |plates| - idx, 0
  {
    var c := PickCommand(d, plates[idx], coords[0]);
    var e1 := Sent(d.link, e, ToTask(c));
    PicksInOrder(d, plates, idx + 1, coords[1..], e1);
    PicksAppend([c], Plates(d, plates, idx + 1, coords[1..], e1).2);
    assert Picks([c]) == [plates[idx]] by {
      assert [c][1..] == [];
    }
    assert plates[idx..] == [plates[idx]] + plates[idx + 1..];
  }

  /** When enough bricks were seen for every remaining plate, no recovery happens: plate
      `idx + j` is placed with the `j`-th centroid, oldest first, and nothing else is sent. */
  lemma {:induction false} EnoughBricksFifo(d: Devices, plates: seq<int>, idx: nat, coords: seq<(int, int)>, e: Env)
    requires idx <= |plates| && |coords| >= |plates| - idx
    ensures var (_, raised, log) := Plates(d, plates, idx, coords, e);
            && !raised
            && |log| == |plates| - idx
            && forall j :: 0 <= j < |log| ==> log[j] == PickCommand(d, plates[idx + j], coords[j])
    decreases |plates| - idx
  {
    if idx < |plates| {
      var c := PickCommand(d, plates[idx], coords[0]);
      var e1 := Sent(d.link, e, ToTask(c));
      EnoughBricksFifo(d, plates, idx + 1, coords[1..], e1);
      var log := Place(d, plates, idx, coords, e).2;
      var rest := Plates(d, plates, idx + 1, coords[1..], e1).2;
      assert log == [c] + rest;
      forall j | 0 <= j < |log|
        ensures log[j] == PickCommand(d, plates[idx + j], coords[j])
      {
        if j > 0 {
          assert log[j] == rest[j - 1];
        }
      }
    }
  }

  /** Recovery runs every time the list is empty on entry to an iteration: `robot_init` is the
      first command, and if the new query finds nothing either, it is the only one. */
  lemma RecoveryWhenDry(d: Devices, plates: seq<int>, idx: nat, e: Env)
    requires idx < |plates|
    ensures var log := Plates(d, plates, idx, [], e).2;
            log != [] && log[0] == RobotInit
    ensures AfterRefill(d, e).2 == [] ==> Plates(d, plates, idx, [], e).2 == [RobotInit]
  {
  }

  /** The feeder routine sends only its `robot_init`. */
  lemma RefillMessages(d: Devices, e: Env)
    requires d.link.connected
    ensures RobotMessages(AfterRefill(d, e).0.trace) == RobotMessages(e.trace) + [ServerFrame(ToTask(RobotInit))]
  {
    var e1 := Sent(d.link, e, ToTask(RobotInit));
    SentMessages(d.link, e, RobotInit);
    ActionsSendNothing(d.hasClient, e1, Recovery);
  }

  /** With the robot connected, the log is exactly the frames handed to `sendall`, in order. */
  lemma {:induction false} PlatesMessages(d: Devices, plates: seq<int>, idx: nat, coords: seq<(int, int)>, e: Env)
    requires d.link.connected
    ensures var (e1, _, log) := Plates(d, plates, idx, coords, e);
            RobotMessages(e1.trace) == RobotMessages(e.trace) + Frames(log)
    decreases |plates| - idx, 3
  {
    if idx >= |plates| {
      assert RobotMessages(e.trace) + Frames([]) == RobotMessages(e.trace);
    } else if coords == [] {
      DryMessages(d, plates, idx, e);
    } else {
      PlaceMessages(d, plates, idx, coords, e);
    }
  }

  lemma {:induction false} DryMessages(d: Devices, plates: seq<int>, idx: nat, e: Env)
    requires d.link.connected && idx < |plates|
    ensures var (e1, _, log) := Plates(d, plates, idx, [], e);
            RobotMessages(e1.trace) == RobotMessages(e.trace) + Frames(log)
    decreases |plates| - idx, 2
  {
    if AfterRefill(d, e).1 || AfterRefill(d, e).2 == [] {
      DryStopMessages(d, plates, idx, e);
    } else {
      RefilledMessages(d, plates, idx, e);
    }
  }

  /** A refill that found bricks sends its `robot_init` and then what placing them sends. */
  lemma {:induction false} RefilledMessages(d: Devices, plates: seq<int>, idx: nat, e: Env)
    requires d.link.connected && idx < |plates|
    requires !AfterRefill(d, e).1 && AfterRefill(d, e).2 != []
    ensures var (e1, _, log) := Plates(d, plates, idx, [], e);
            RobotMessages(e1.trace) == RobotMessages(e.trace) + Frames(log)
    decreases |plates| - idx, 1
  {
    var (e1, _, cs) := AfterRefill(d, e);
    var r := Place(d, plates, idx, cs, e1);
    assert Plates(d, plates, idx, [], e) == (r.0, r.1, [RobotInit] + r.2);
    RefillMessages(d, e);
    PlaceMessages(d, plates, idx, cs, e1);
    FramesCons(RobotInit, r.2);
  }

  /** A refill that raised or found nothing sends only its `robot_init`. */
  lemma DryStopMessages(d: Devices, plates: seq<int>, idx: nat, e: Env)
    requires d.link.connected && idx < |plates|
    requires AfterRefill(d, e).1 || AfterRefill(d, e).2 == []
    ensures var (e1, _, log) := Plates(d, plates, idx, [], e);
            RobotMessages(e1.trace) == RobotMessages(e.trace) + Frames(log)
  {
    RefillMessages(d, e);
    FramesCons(RobotInit, []);
    assert [RobotInit] + [] == [RobotInit];
  }

  lemma {:induction false} PlaceMessages(d: Devices, plates: seq<int>, idx: nat, coords: seq<(int, int)>, e: Env)
    requires d.link.connected && idx < |plates| && coords != []
    ensures var (e1, _, log) := Place(d, plates, idx, coords, e);
            RobotMessages(e1.trace) == RobotMessages(e.trace) + Frames(log)
    decreases |plates| - idx, 0
  {
    var c := PickCommand(d, plates[idx], coords[0]);
    var e1 := Sent(d.link, e, ToTask(c));
    var r := Plates(d, plates, idx + 1, coords[1..], e1);
    assert Place(d, plates, idx, coords, e) == (r.0, r.1, [c] + r.2);
    PlatesMessages(d, plates, idx + 1, coords[1..], e1);
    SentBefore(d.link, e, c, r.0, r.2);
  }

  /** What the job returns: `completed` with the shape and the plate count, `error` with its
      message, or an exception raised out of the job by a feeder write. */
  datatype Outcome = Completed(shape: string, totalPlates: nat) | Error(message: string) | Raised

  const SuctionFailed: string := "석션 장착 실패"

  function NoData(shape: string): string {
    "'" + shape + "' 데이터 없음"
  }

  /** `coordination.get(shape.lower())`, with a missing key read as the empty list. */
  function PlateList(coordination: map<string, seq<int>>, shape: string): seq<int> {
    var key := Lower(shape);
    if key in coordination then coordination[key] else []
  }

  /** The shape name is looked up without regard to ASCII case: two spellings that differ only
      in the case of their letters find the same plate list. */
  lemma PlateListIgnoresCase(coordination: map<string, seq<int>>, shape: string, other: string)
    requires |shape| == |other| && forall i :: 0 <= i < |shape| ==> SameUpToCase(shape[i], other[i])
    ensures PlateList(coordination, other) == PlateList(coordination, shape)
  {
    LowerCaseInsensitive(shape, other);
  }

  /** The four finishing steps: `robot_init`, a pulse of cylinder 1, `detach_suction`,
      `robot_init`; every reply is ignored. */
  function Finish(d: Devices, cyl: Cylinders.Cyl, e: Env): (r: (Cylinders.Cyl, Env))
    ensures r.0 == Cylinders.AfterPulse(cyl, Sent(d.link, e, ToTask(RobotInit)), 1).0
  {
    var e1 := Sent(d.link, e, ToTask(RobotInit));
    var (c2, e2) := Cylinders.AfterPulse(cyl, e1, 1);
    var e3 := Sent(d.link, e2, ToTask(DetachSuction));
    var e4 := Sent(d.link, e3, ToTask(RobotInit));
    (c2, e4)
  }

  const FinishLog: seq<Command> := [RobotInit, DetachSuction, RobotInit]

  /** `execute_lego_drawing(shape)`: the cylinders' new state, the world, the outcome and the
      robot commands sent. */
  function Drawing(d: Devices, cyl: Cylinders.Cyl, coordination: map<string, seq<int>>, shape: string, e: Env)
    : (r: (Cylinders.Cyl, Env, Outcome, seq<Command>))
  {
    var (e1, response) := AfterRun(d.link, e, AttachSuction);
    if !Answered(response) then (cyl, e1, Error(SuctionFailed), [AttachSuction])
    else
      var plates := PlateList(coordination, shape);
      if plates == [] then (cyl, e1, Error(NoData(shape)), [AttachSuction])
      else
        var (e2, coords) := Camera.AfterFrontCentroids(e1);
        var (e3, raised, log) := Plates(d, plates, 0, coords, e2);
        if raised then (cyl, e3, Raised, [AttachSuction] + log)
        else
          var (c4, e4) := Finish(d, cyl, e3);
          (c4, e4, Completed(shape, |plates|), [AttachSuction] + log + FinishLog)
  }

  /** No reply to `attach_suction` ends the job at once with an error: nothing else is sent to
      the robot, the feeder or the cylinders. */
  lemma SuctionFailure(d: Devices, cyl: Cylinders.Cyl, coordination: map<string, seq<int>>, shape: string, e: Env)
    requires !Answered(AfterRun(d.link, e, AttachSuction).1)
    ensures var (c1, e1, outcome, log) := Drawing(d, cyl, coordination, shape, e);
            && outcome == Error(SuctionFailed) && log == [AttachSuction] && c1 == cyl
            && e1 == AfterRun(d.link, e, AttachSuction).0
  {
  }

  /** An unknown shape, or one with no plates, is noticed only after the suction tool was
      attached; the job then stops with an error before any pick or finishing step. */
  lemma UnknownShape(d: Devices, cyl: Cylinders.Cyl, coordination: map<string, seq<int>>, shape: string, e: Env)
    requires Answered(AfterRun(d.link, e, AttachSuction).1)
    requires Lower(shape) !in coordination || coordination[Lower(shape)] == []
    ensures var (c1, e1, outcome, log) := Drawing(d, cyl, coordination, shape, e);
            && outcome == Error(NoData(shape)) && log == [AttachSuction] && c1 == cyl
            && e1 == AfterRun(d.link, e, AttachSuction).0
  {
  }

  /** Unless a feeder write raised, a job that got past both checks reports `completed` with the
      full plate count, even when it stopped early, and ends with the finishing commands. */
  lemma CompletedReportsAllPlates(d: Devices, cyl: Cylinders.Cyl, coordination: map<string, seq<int>>, shape: string, e: Env)
    requires Answered(AfterRun(d.link, e, AttachSuction).1) && PlateList(coordination, shape) != []
    ensures var (_, _, outcome, log) := Drawing(d, cyl, coordination, shape, e);
            outcome != Raised ==>
              && outcome == Completed(shape, |PlateList(coordination, shape)|)
              && |log| >= 4 && log[|log| - 3..] == FinishLog
  {
  }

  /** Over the whole job the plates picked are a prefix of the shape's list: in order, none
      twice, never more than the list holds. */
  lemma JobPicksInOrder(d: Devices, cyl: Cylinders.Cyl, coordination: map<string, seq<int>>, shape: string, e: Env)
    ensures Picks(Drawing(d, cyl, coordination, shape, e).3) <= PlateList(coordination, shape)
  {
    var plates := PlateList(coordination, shape);
    var (e1, response) := AfterRun(d.link, e, AttachSuction);
    assert Picks([AttachSuction]) == [] by {
      assert [AttachSuction][1..] == [];
    }
    if Answered(response) && plates != [] {
      var (e2, coords) := Camera.AfterFrontCentroids(e1);
      var (e3, raised, log) := Plates(d, plates, 0, coords, e2);
      PicksInOrder(d, plates, 0, coords, e2);
      assert plates[0..] == plates;
      PicksAppend([AttachSuction], log);
      if !raised {
        PicksAppend([AttachSuction] + log, FinishLog);
        assert Picks(FinishLog) == [] by {
          assert FinishLog[1..] == [DetachSuction, RobotInit];
          assert FinishLog[1..][1..] == [RobotInit];
          assert FinishLog[1..][1..][1..] == [];
        }
      }
    }
  }

  /** With the robot connected and the cylinder board coherent and connected, the finishing
      steps reach the devices in this order: `robot_init`, cylinder 1 on, a wait, cylinder 1 off,
      a wait, `detach_suction`, `robot_init`. */
  lemma FinishOrder(d: Devices, cyl: Cylinders.Cyl, e: Env)
    requires d.link.connected && Cylinders.Coherent(cyl) && cyl.connected
    ensures var card := cyl.board.dll.card;
            var on := Bits.Switch(cyl.board.dll.output, Bits.Channel(1), true);
            Finish(d, cyl, e).1.trace
              == e.trace + [RobotSend(ServerFrame(ToTask(RobotInit)))]
                 + [PortWrite(card, on), Wait, PortWrite(card, Bits.Switch(on, Bits.Channel(1), false)), Wait]
                 + [RobotSend(ServerFrame(ToTask(DetachSuction)))] + [RobotSend(ServerFrame(ToTask(RobotInit)))]
  {
    var card := cyl.board.dll.card;
    var on := Bits.Switch(cyl.board.dll.output, Bits.Channel(1), true);
    var e1 := Sent(d.link, e, ToTask(RobotInit));
    SentTrace(d.link, e, ToTask(RobotInit));
    var (_, e2) := Cylinders.AfterPulse(cyl, e1, 1);
    Cylinders.PulseOnThenOff(cyl, e1, 1);
    var e3 := Sent(d.link, e2, ToTask(DetachSuction));
    SentTrace(d.link, e2, ToTask(DetachSuction));
    var e4 := Sent(d.link, e3, ToTask(RobotInit));
    SentTrace(d.link, e3, ToTask(RobotInit));
    assert Finish(d, cyl, e).1 == e4;
  }

  /** The frames of the finishing commands. */
  lemma FinishFrames()
    ensures Frames(FinishLog) == [ServerFrame(ToTask(RobotInit)), ServerFrame(ToTask(DetachSuction)), ServerFrame(ToTask(RobotInit))]
  {
    assert FinishLog[1..] == [DetachSuction, RobotInit];
    assert FinishLog[1..][1..] == [RobotInit];
    assert FinishLog[1..][1..][1..] == [];
  }

  /** Three single appends make one append of three. */
  lemma AppendThree<T>(a: seq<T>, m1: seq<T>, m2: seq<T>, m3: seq<T>, x: T, y: T, z: T)
    requires m1 == a + [x] && m2 == m1 + [y] && m3 == m2 + [z]
    ensures m3 == a + [x, y, z]
  {
  }

  /** With the robot connected, the finishing steps send exactly the frames of `FinishLog`. */
  lemma FinishMessages(d: Devices, cyl: Cylinders.Cyl, e: Env)
    requires d.link.connected
    ensures RobotMessages(Finish(d, cyl, e).1.trace) == RobotMessages(e.trace) + Frames(FinishLog)
  {
    var e1 := Sent(d.link, e, ToTask(RobotInit));
    var e2 := Cylinders.AfterPulse(cyl, e1, 1).1;
    var e3 := Sent(d.link, e2, ToTask(DetachSuction));
    var e4 := Sent(d.link, e3, ToTask(RobotInit));
    assert Finish(d, cyl, e).1 == e4;
    SentMessages(d.link, e, RobotInit);
    Cylinders.PulseSendsNothing(cyl, e1, 1);
    SentMessages(d.link, e2, DetachSuction);
    SentMessages(d.link, e3, RobotInit);
    AppendThree(RobotMessages(e.trace), RobotMessages(e2.trace), RobotMessages(e3.trace), RobotMessages(e4.trace),
                ServerFrame(ToTask(RobotInit)), ServerFrame(ToTask(DetachSuction)), ServerFrame(ToTask(RobotInit)));
    FinishFrames();
  }

  /** With the robot connected, the command log the job returns is exactly the frames handed to
      `sendall` over the whole job, in order, whichever way the job ended. */
  lemma DrawingMessages(d: Devices, cyl: Cylinders.Cyl, coordination: map<string, seq<int>>, shape: string, e: Env)
    requires d.link.connected
    ensures var (_, e1, _, log) := Drawing(d, cyl, coordination, shape, e);
            RobotMessages(e1.trace) == RobotMessages(e.trace) + Frames(log)
  {
    var (e1, response) := AfterRun(d.link, e, AttachSuction);
    SentBySend(d.link, e, ToTask(AttachSuction));
    var plates := PlateList(coordination, shape);
    if !Answered(response) || plates == [] {
      RunSendsItsTask(d.link, e, AttachSuction);
      FramesCons(AttachSuction, []);
    } else {
      var (e2, coords) := Camera.AfterFrontCentroids(e1);
      var (e3, raised, log) := Plates(d, plates, 0, coords, e2);
      PlatesMessages(d, plates, 0, coords, e2);
      SentBefore(d.link, e, AttachSuction, e3, log);
      if !raised {
        var (_, e4) := Finish(d, cyl, e3);
        FinishMessages(d, cyl, e3);
        FramesAppend([AttachSuction] + log, FinishLog);
        Regroup(RobotMessages(e.trace), Frames([AttachSuction] + log), Frames(FinishLog),
                RobotMessages(e3.trace), RobotMessages(e4.trace));
      }
    }
  }

  /** The job object: the four device controllers it drives and the shape table. */
  class LegoProcess {
    const robot: RobotController
    const feeder: Feeder.FeederController
    const camera: Camera.CameraController
    const cylinder: Cylinders.CylinderController
    const coordination: map<string, seq<int>>

    constructor (r: RobotController, f: Feeder.FeederController, c: Camera.CameraController,
                 cy: Cylinders.CylinderController, table: map<string, seq<int>>)
      ensures robot == r && feeder == f && camera == c && cylinder == cy && coordination == table
    {
      robot, feeder, camera, cylinder := r, f, c, cy;
      coordination := table;
    }

    /** All controllers talk to the same world, and the ROI has its four entries. */
    predicate Wired() {
      && feeder.world == robot.world && camera.world == robot.world && cylinder.board.dll.world == robot.world
      && camera.roi.Length == 4
    }

    /** The devices as the job sees them. */
    function Devs(): Devices
      requires camera.roi.Length == 4
      reads robot, feeder, camera.roi
    {
      Devices(robot.State(), feeder.hasClient, camera.roi[0], camera.roi[1])
    }

    /** A robot helper whose reply is not looked at. */
    method Send(c: Command)
      modifies robot.world
      ensures robot.world.env == Sent(robot.State(), old(robot.world.env), ToTask(c))
    {
      ghost var e0 := robot.world.env;
      var _ := robot.Run(c);
      SentBySend(robot.State(), e0, ToTask(c));
    }

    /** `self.system.feeder.client.write_register(address, value)`. */
    method FeederWrite(address: int, value: int) returns (raised: bool)
      requires Wired()
      modifies robot.world
      ensures (robot.world.env, raised) == RunAction(feeder.hasClient, old(robot.world.env), Write(address, value))
    {
      if !feeder.hasClient {
        return true;
      }
      var ok := feeder.world.WriteRegister(address, value);
      raised := !ok;
    }

    /** The feeder routine with its `robot_init` and the new query. */
    method Refill() returns (raised: bool, coords: seq<(int, int)>)
      requires Wired()
      modifies robot.world
      ensures (robot.world.env, raised, coords) == AfterRefill(Devs(), old(robot.world.env))
    {
      Send(RobotInit);
      ghost var e1 := robot.world.env;
      ghost var h := feeder.hasClient;
      coords := [];
      raised := FeederWrite(1, 10113);
      if raised {
        return;
      }
      raised := FeederWrite(0, 1);
      if raised {
        return;
      }
      robot.world.Pause();
      raised := FeederWrite(0, 0);
      if raised {
        return;
      }
      raised := FeederWrite(1, 10114);
      if raised {
        return;
      }
      raised := FeederWrite(0, 1);
      if raised {
        return;
      }
      robot.world.Pause();
      raised := FeederWrite(0, 0);
      if raised {
        return;
      }
      robot.world.Pause();
      coords := camera.GetFrontCentroids();
    }

    /** One placement: the centroid, offset by the ROI origin, is mapped to robot coordinates
        and sent with the plate number. */
    method PlaceOne(plate: int, p: (int, int))
      requires Wired()
      modifies robot.world
      ensures robot.world.env == Sent(Devs().link, old(robot.world.env), ToTask(PickCommand(Devs(), plate, p)))
    {
      var (rx, ry) := CameraToRobot(camera.roi[0] + p.0, camera.roi[1] + p.1);
      Send(LegoPickPlace(Trunc(rx), Trunc(ry), 0, plate));
    }

    /** One iteration of the plate loop at plate `idx`: a refill first when no centroid is at
        hand (`stop` when it raised or found nothing), then one placement. */
    method Step(plates: seq<int>, idx: nat, coords: seq<(int, int)>) returns (stop: bool, raised: bool, rest: seq<(int, int)>)
      requires Wired() && idx < |plates|
      modifies robot.world
      ensures stop ==> (robot.world.env, raised) == Ends(Devs(), plates, idx, coords, old(robot.world.env))
      ensures !stop ==> Ends(Devs(), plates, idx + 1, rest, robot.world.env) == Ends(Devs(), plates, idx, coords, old(robot.world.env))
    {
      ghost var d := Devs();
      ghost var e0 := robot.world.env;
      stop, raised, rest := false, false, coords;
      if coords == [] {
        EndsRefill(d, plates, idx, e0);
        raised, rest := Refill();
        if raised || rest == [] {
          return true, raised, [];
        }
      }
      ghost var e1 := robot.world.env;
      EndsPlace(d, plates, idx, rest, e1);
      PlaceOne(plates[idx], rest[0]);
      rest := rest[1..];
    }

    /** The plate loop: plate `idx` is placed with the oldest centroid, refilling first when
        there is none; the answer is whether a feeder write raised. */
    method PlaceAll(plates: seq<int>, coords0: seq<(int, int)>) returns (raised: bool)
      requires Wired()
      modifies robot.world
      ensures (robot.world.env, raised) == Ends(Devs(), plates, 0, coords0, old(robot.world.env))
    {
      ghost var final := Ends(Devs(), plates, 0, coords0, robot.world.env);
      var idx := 0;
      var coords := coords0;
      while idx < |plates|
        invariant 0 <= idx <= |plates|
        invariant Ends(Devs(), plates, idx, coords, robot.world.env) == final
        decreases |plates| - idx
      {
        var stop;
        stop, raised, coords := Step(plates, idx, coords);
        if stop {
          return;
        }
        idx := idx + 1;
      }
      raised := false;
    }

    /** The finishing steps after the last plate. */
    method FinishSteps()
      requires Wired()
      modifies robot.world, cylinder.board.dll
      ensures (cylinder.State(), robot.world.env) == Finish(Devs(), old(cylinder.State()), old(robot.world.env))
    {
      Send(RobotInit);
      cylinder.Pulse(1);
      Send(DetachSuction);
      Send(RobotInit);
    }

    /** `execute_lego_drawing(shape)`. */
    method ExecuteLegoDrawing(shape: string) returns (outcome: Outcome)
      requires Wired()
      modifies robot.world, cylinder.board.dll
      ensures var r := Drawing(Devs(), old(cylinder.State()), coordination, shape, old(robot.world.env));
              cylinder.State() == r.0 && robot.world.env == r.1 && outcome == r.2
    {
      var response := robot.Run(AttachSuction);
      if response.None? || response.value == "" {
        return Error(SuctionFailed);
      }
      var key := Lower(shape);
      var plates := if key in coordination then coordination[key] else [];
      if plates == [] {
        return Error(NoData(shape));
      }
      var coords := camera.GetFrontCentroids();
      var raised := PlaceAll(plates, coords);
      if raised {
        return Raised;
      }
      FinishSteps();
      outcome := Completed(shape, |plates|);
    }
  }
}
