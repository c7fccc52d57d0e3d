/** The robot's text protocol: the five integers of a task and the two framings used on the wire,
    `(t,x,y,a,p)\n` by the server's robot controller and `,t,x,y,a,p,\n` by the test client. */
module RobotProtocol {
  import opened Options
  import opened Text

  /** One task request: task number, pick coordinates, rotation angle and plate number. */
  datatype Task = Task(num: int, x: int, y: int, angle: int, plate: int)

  /** The task helpers of the robot controller, one per task the robot program knows. */
  datatype Command =
    | RobotInit                                               // task 0
    | ToolPlateInit                                           // task 1
    | AttachGripper                                           // task 2
    | DetachGripper                                           // task 3
    | AttachSuction                                           // task 4
    | DetachSuction                                           // task 5
    | BlockPickPlace(x: int, y: int, angle: int, plate: int)  // task 6
    | LegoPickPlace(x: int, y: int, angle: int, plate: int)   // task 7
    | WastePickPlace(x: int, y: int, angle: int, plate: int)  // task 8

  /** The task a helper sends: tasks 0..5 carry zeros, tasks 6..8 carry their arguments. */
  function ToTask(c: Command): (t: Task)
    ensures 0 <= t.num <= 8
    ensures t.num <= 5 <==> !(c.BlockPickPlace? || c.LegoPickPlace? || c.WastePickPlace?)
    ensures t.num <= 5 ==> t.x == 0 && t.y == 0 && t.angle == 0 && t.plate == 0
    ensures t.num > 5 ==> t.x == c.x && t.y == c.y && t.angle == c.angle && t.plate == c.plate
  {
    match c
    case RobotInit => Task(0, 0, 0, 0, 0)
    case ToolPlateInit => Task(1, 0, 0, 0, 0)
    case AttachGripper => Task(2, 0, 0, 0, 0)
    case DetachGripper => Task(3, 0, 0, 0, 0)
    case AttachSuction => Task(4, 0, 0, 0, 0)
    case DetachSuction => Task(5, 0, 0, 0, 0)
    case BlockPickPlace(x, y, a, p) => Task(6, x, y, a, p)
    case LegoPickPlace(x, y, a, p) => Task(7, x, y, a, p)
    case WastePickPlace(x, y, a, p) => Task(8, x, y, a, p)
  }

  /** Which helper a task stands for, as the robot program reads task numbers: the inverse of
      `ToTask` on the tasks the helpers produce. */
  function FromTask(t: Task): Option<Command> {
    if t.num == 6 then Some(BlockPickPlace(t.x, t.y, t.angle, t.plate))
    else if t.num == 7 then Some(LegoPickPlace(t.x, t.y, t.angle, t.plate))
    else if t.num == 8 then Some(WastePickPlace(t.x, t.y, t.angle, t.plate))
    else if t.x != 0 || t.y != 0 || t.angle != 0 || t.plate != 0 then None
    else if t.num == 0 then Some(RobotInit)
    else if t.num == 1 then Some(ToolPlateInit)
    else if t.num == 2 then Some(AttachGripper)
    else if t.num == 3 then Some(DetachGripper)
    else if t.num == 4 then Some(AttachSuction)
    else if t.num == 5 then Some(DetachSuction)
    else None
  }

  /** Every helper is identified by the task it sends: distinct helpers send distinct tasks. */
  lemma CommandTaskRoundTrip(c: Command)
    ensures FromTask(ToTask(c)) == Some(c)
  {
  }

  lemma ToTaskInjective(c: Command, d: Command)
    requires ToTask(c) == ToTask(d)
    ensures c == d
  {
    CommandTaskRoundTrip(c);
    CommandTaskRoundTrip(d);
  }

  /** The five integers in wire order. */
  function Values(t: Task): seq<int> {
    [t.num, t.x, t.y, t.angle, t.plate]
  }

  /** `str` of each integer. */
  function Strings(ns: seq<int>): (r: seq<string>)
    ensures |r| == |ns|
  {
    seq(|ns|, i requires 0 <= i < |ns| => IntToString(ns[i]))
  }

  /** The five fields in order, each in Python's `str(int)` form. */
  function Fields(t: Task): seq<string> {
    Strings(Values(t))
  }

  /** `f"({task_num},{x},{y},{angle},{plate_seq})\n"`: the five fields between parentheses. */
  function ServerFrame(t: Task): string {
    "(" + Join(Fields(t), ',') + ")\n"
  }

  /** `f",{task_num},{x},{y},{angle},{plate_seq},\n"`: the five fields between commas. */
  function ClientFrame(t: Task): string {
    "," + Join(Fields(t), ',') + ",\n"
  }
}
