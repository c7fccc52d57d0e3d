/** The world outside the program: the robot controller behind its TCP socket, the feeder behind
    Modbus TCP, the PCI-7230 digital I/O card behind its vendor library, and what the camera's
    capture thread has published. The program's effects on these devices are recorded, in order,
    in a trace; what the devices answer is read from oracle tapes, one entry per call, so every
    reply, timeout and return code is an input of the model rather than something it decides. */
module Plant {
  import opened Options

  /** A C `short` (`I16` in the vendor headers, `c_short` on the Python side). */
  type I16 = x: int | -0x8000 <= x < 0x8000

  /** One box reported by the detector: corners `x1, y1, x2, y2` in ROI pixels, the class
      value and the confidence, as the floats the detector produces. */
  datatype Detection = Detection(x1: real, y1: real, x2: real, y2: real, cls: real, conf: real)

  /** One inference result, `results[0]`; its `boxes` may be absent. */
  datatype Inference = Inference(boxes: Option<seq<Detection>>)

  /** How one request/response round on the robot socket ended: a reply (possibly empty once
      decoded and stripped), a timeout, or any other socket error, raised by `sendall` or by
      `recv`. */
  datatype Exchange = Replied(text: string) | TimedOut | Broken

  /** What the program does to a device. */
  datatype Event =
    | RobotConnect                            // a TCP connect attempt to the robot controller
    | RobotClose                              // closing the robot socket
    | RobotSend(msg: string)                  // one task message handed to `sendall`
    | ModbusConnect                           // the Modbus client's connect
    | ModbusClose
    | RegisterWrite(address: int, value: int) // a completed `write_register`
    | CardRegister(cardNumber: int)           // `Register_Card(PCI_7230, n)`
    | CardRelease(card: int)                  // `Release_Card(card)`
    | PortWrite(card: int, word: bv32)        // `DO_WritePort(card, 0, word)`
    | PortRead(card: int)                     // `DI_ReadPort(card, 0, &value)`
    | Bitfield(mask: bv32, bits: bv32)        // `comedi_dio_bitfield2(dev, 0, mask, &bits, 0)`
    | Wait                                    // a `time.sleep` / `asyncio.sleep`

  /** The trace so far and the answers still to come. */
  datatype Env = Env(
    trace: seq<Event>,
    robotDials: seq<bool>,                    // outcome of each robot connect attempt
    robotExchanges: seq<Exchange>,            // outcome of each robot send/receive
    modbusDials: seq<bool>,                   // result of each Modbus `connect()`
    modbusWrites: seq<bool>,                  // false: that `write_register` raised
    codes: seq<I16>,                          // return code of each vendor call
    inputs: seq<bv32>,                        // word delivered by each vendor port read
    captures: seq<Option<Inference>>)         // `latest_results` as seen by each camera query

  /** The next answer on a tape, or `exhausted` once the tape has run out. */
  function Next<T>(tape: seq<T>, exhausted: T): T {
    if tape == [] then exhausted else tape[0]
  }

  function Rest<T>(tape: seq<T>): seq<T> {
    if tape == [] then [] else tape[1..]
  }

  function Emit(e: Env, ev: Event): Env {
    e.(trace := e.trace + [ev])
  }

  /** A connect attempt to the robot; a refused or unreachable peer answers false. */
  function RobotDial(e: Env): (Env, bool) {
    (Emit(e, RobotConnect).(robotDials := Rest(e.robotDials)), Next(e.robotDials, false))
  }

  function RobotHangUp(e: Env): Env {
    Emit(e, RobotClose)
  }

  /** `sendall(msg)` followed by one `recv`; a silent peer times out. The message is recorded as
      handed to `sendall` whatever the round's outcome, including a `sendall` that raised. */
  function RobotTalk(e: Env, msg: string): (Env, Exchange) {
    (Emit(e, RobotSend(msg)).(robotExchanges := Rest(e.robotExchanges)), Next(e.robotExchanges, TimedOut))
  }

  function ModbusDial(e: Env): (Env, bool) {
    (Emit(e, ModbusConnect).(modbusDials := Rest(e.modbusDials)), Next(e.modbusDials, false))
  }

  function ModbusHangUp(e: Env): Env {
    Emit(e, ModbusClose)
  }

  /** `write_register(address, value)`: recorded when it completes; false when it raised. */
  function ModbusWrite(e: Env, address: int, value: int): (Env, bool) {
    var ok := Next(e.modbusWrites, false);
    var e1 := e.(modbusWrites := Rest(e.modbusWrites));
    (if ok then Emit(e1, RegisterWrite(address, value)) else e1, ok)
  }

  /** A vendor library call; an exhausted tape answers the generic failure code -1. */
  function VendorCall(e: Env, ev: Event): (Env, I16) {
    (Emit(e, ev).(codes := Rest(e.codes)), Next(e.codes, -1))
  }

  /** A vendor port read: a return code and the word read. */
  function VendorRead(e: Env, ev: Event): (Env, I16, bv32) {
    (Emit(e, ev).(codes := Rest(e.codes), inputs := Rest(e.inputs)), Next(e.codes, -1), Next(e.inputs, 0))
  }

  function Sleep(e: Env): Env {
    Emit(e, Wait)
  }

  /** What a camera query finds stored by the capture thread (nothing, once the tape is out). */
  function Observe(e: Env): (Env, Option<Inference>) {
    (e.(captures := Rest(e.captures)), Next(e.captures, None))
  }

  /** The kind of an event, for counting. */
  datatype Kind = Dials | Closes | Sends | ModbusDials | ModbusCloses | RegisterWrites
                | CardRegisters | CardReleases | PortWrites | PortReads | Bitfields | Waits

  function KindOf(ev: Event): Kind {
    match ev
    case RobotConnect => Dials
    case RobotClose => Closes
    case RobotSend(_) => Sends
    case ModbusConnect => ModbusDials
    case ModbusClose => ModbusCloses
    case RegisterWrite(_, _) => RegisterWrites
    case CardRegister(_) => CardRegisters
    case CardRelease(_) => CardReleases
    case PortWrite(_, _) => PortWrites
    case PortRead(_) => PortReads
    case Bitfield(_, _) => Bitfields
    case Wait => Waits
  }

  /** How many events of the trace are of kind `k`. */
  function Count(trace: seq<Event>, k: Kind): nat {
    if trace == [] then 0
    else Count(trace[..|trace| - 1], k) + (if KindOf(trace[|trace| - 1]) == k then 1 else 0)
  }

  lemma {:induction false} CountAppend(a: seq<Event>, b: seq<Event>, k: Kind)
    ensures Count(a + b, k) == Count(a, k) + Count(b, k)
    decreases |b|
  {
    if b != [] {
      assert (a + b)[..|a + b| - 1] == a + b[..|b| - 1];
      CountAppend(a, b[..|b| - 1], k);
    } else {
      assert a + b == a;
    }
  }

  /** One more event adds one to the count of its kind and nothing to the others. */
  lemma CountEmit(e: Env, ev: Event, k: Kind)
    ensures Count(Emit(e, ev).trace, k) == Count(e.trace, k) + (if KindOf(ev) == k then 1 else 0)
  {
    var t := Emit(e, ev).trace;
    assert t[..|t| - 1] == e.trace;
  }

  /** The messages handed to `sendall` on the robot socket, in order. */
  function RobotMessages(trace: seq<Event>): seq<string> {
    if trace == [] then []
    else
      var last := trace[|trace| - 1];
      RobotMessages(trace[..|trace| - 1]) + (if last.RobotSend? then [last.msg] else [])
  }

  /** An event other than a robot send adds no robot message. */
  lemma EmitQuiet(e: Env, ev: Event)
    requires !ev.RobotSend?
    ensures RobotMessages(Emit(e, ev).trace) == RobotMessages(e.trace)
  {
    var t := Emit(e, ev).trace;
    assert t[..|t| - 1] == e.trace;
  }

  lemma {:induction false} RobotMessagesAppend(a: seq<Event>, b: seq<Event>)
    ensures RobotMessages(a + b) == RobotMessages(a) + RobotMessages(b)
    decreases |b|
  {
    if b != [] {
      assert (a + b)[..|a + b| - 1] == a + b[..|b| - 1];
      RobotMessagesAppend(a, b[..|b| - 1]);
    } else {
      assert a + b == a;
    }
  }

  /** The shared world every device object talks to. Each method is one device call: it appends
      its event to the trace and takes its answer from the matching tape. */
  class World {
    var env: Env

    constructor (initial: Env)
      ensures env == initial
    {
      env := initial;
    }

    method Dial() returns (ok: bool)
      modifies this
      ensures (env, ok) == RobotDial(old(env))
    {
      var r := RobotDial(env);
      env, ok := r.0, r.1;
    }

    method HangUp()
      modifies this
      ensures env == RobotHangUp(old(env))
    {
      env := RobotHangUp(env);
    }

    method Talk(msg: string) returns (x: Exchange)
      modifies this
      ensures (env, x) == RobotTalk(old(env), msg)
    {
      var r := RobotTalk(env, msg);
      env, x := r.0, r.1;
    }

    method ModbusConnect() returns (ok: bool)
      modifies this
      ensures (env, ok) == ModbusDial(old(env))
    {
      var r := ModbusDial(env);
      env, ok := r.0, r.1;
    }

    method ModbusClose()
      modifies this
      ensures env == ModbusHangUp(old(env))
    {
      env := ModbusHangUp(env);
    }

    method WriteRegister(address: int, value: int) returns (ok: bool)
      modifies this
      ensures (env, ok) == ModbusWrite(old(env), address, value)
    {
      var r := ModbusWrite(env, address, value);
      env, ok := r.0, r.1;
    }

    method Vendor(ev: Event) returns (code: I16)
      modifies this
      ensures (env, code) == VendorCall(old(env), ev)
    {
      var r := VendorCall(env, ev);
      env, code := r.0, r.1;
    }

    method VendorInput(ev: Event) returns (code: I16, word: bv32)
      modifies this
      ensures (env, code, word) == VendorRead(old(env), ev)
    {
      var r := VendorRead(env, ev);
      env, code, word := r.0, r.1, r.2;
    }

    method Pause()
      modifies this
      ensures env == Sleep(old(env))
    {
      env := Sleep(env);
    }

    method Look() returns (latest: Option<Inference>)
      modifies this
      ensures (env, latest) == Observe(old(env))
    {
      var r := Observe(env);
      env, latest := r.0, r.1;
    }
  }
}
