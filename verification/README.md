# flexibot-kes2025 — a Dafny model of the pick-and-place cell

This project models the control software of a robot cell that builds Lego pictures. The cell has:

- a Basler camera whose frames are cropped to a region of interest (ROI) and run through a detector;
- a vibrating feeder with a light, driven over Modbus TCP;
- four pneumatic cylinders on the digital outputs of a PCI-7230 card, reached through a C wrapper DLL;
- an industrial robot that takes one text task at a time over TCP.

A FastAPI server owns one controller per device, and a Lego job drives all of them. The test
tools add a robot simulator, a retrying robot client and an LPCI-7230 (comedi) board class.

## How the model is built

- **The world outside the program** (`plant.dfy`):
  - one `World` object holds an `Env`;
  - the `Env` is the trace of everything the program did to a device, in order;
  - it also holds oracle tapes for everything a device answers: robot connect outcomes, robot replies or timeouts, Modbus connect and write outcomes, vendor return codes, input words, and the camera's latest inference result;
  - every socket, Modbus, DASK or comedi call is one `World` method, specified by a pure function on `Env`.
- **Each controller is a `class`:**
  - it has the fields the source mutates (`connected`, `sock`, `client`, `g_card`, `g_output_state`, `subdev0_state`, the ROI list);
  - each operation has a pure specification function, and the method's `ensures` ties its new state, world and answer to that function;
  - the loops (the connect and retry loops, the plate loop, the sequence loop, the centroid filter, the cylinder sweep, the simulator's receive loop) are `while`/`for` loops, with invariants stating the remaining work.
- **Bits** (`bits.dfy`): the output word is a `bv32`, and `|= 1 << ch` and `&= ~(1 << ch)` are modelled as bit operations.
- **C/ctypes integer widths:**
  - ctypes keeps the low 32 bits of the integers it passes to `c_int` and `c_uint32` (`Pci7230Controller.CInt`, `CUInt32`);
  - return codes are C `short`s (`Plant.I16`).
- **Python text operations** are written out in `text.dfy`: `strip()`, `strip('()')`, `split(',')`, `','.join`, `str(int)`, `int(str)` and `lower()`.
- **Floats are modelled as reals.** Python's `int()` on a float, which truncates toward zero, is `Numbers.Trunc`.

## Behaviour worth knowing before reading the model

Each item is what the code does, stated against what a reader of the cell might expect.

- **Calibration:** the calibration tool fits a least-squares transform over measured points (`TEST/camera_robot_callibration.py:20-35`). The server does not run that fit: it uses fixed coefficients (`SERVER/lego_process.py:6-10`), so the model has a fixed affine map and no fit.
- **Finishing steps:** they do not always run.
  - They run after an early stop (no bricks after a feeder refill).
  - An exception from a feeder register write leaves the job before them (`LegoDrawing.Drawing` answers `Raised`).
  - A failed suction attach and an unknown shape return before them.
- **Order of lookup and motion:** the suction tool is attached before the shape is looked up, so an unknown shape is reported after the robot has already moved (`LegoDrawing.UnknownShape`).
- **Early stop:** a job that stopped early still reports `completed` with the full plate count (`LegoDrawing.CompletedReportsAllPlates`).
- **Retries:** only the test client retries empty replies and timeouts. The server's robot controller sends once and answers `None` (`RobotLink.AfterSend`).

## Model

| member | source | states |
|---|---|---|
| Bits.SetBit | TEST/cylinder/pci7230_wrapper.cpp:31-32 | OR-ing in `1 << ch` turns channel `ch` on and leaves every other bit of the word as it was |
| Bits.ClearBit | TEST/cylinder/pci7230_wrapper.cpp:33-34 | AND-ing with `~(1 << ch)` turns channel `ch` off and leaves every other bit as it was |
| Bits.BitValue | TEST/cylinder/pci7230_wrapper.cpp:49 | `(w >> ch) & 1` is 0 or 1, and 1 exactly when channel `ch` is on |
| Bits.SwitchEffect | TEST/cylinder/pci7230_wrapper.cpp:31-35 | after the on/off update the channel reads as requested |
| Bits.SwitchKeeps | TEST/cylinder/pci7230_wrapper.cpp:31-35 | the update leaves all bits outside the channel's mask unchanged |
| Bits.SwitchOther | TEST/cylinder/pci7230_wrapper.cpp:31-35 | switching one channel never changes how another channel reads |
| Bits.SwitchWithin16 | TEST/lpci7230.py:85-88 | switching one of channels 0..15 keeps a 16-channel word within 16 bits |
| Bits.PulseRestores | SERVER/cylinder_controller.py:99-101 | on then off restores a word whose channel was off |
| Pci7230Wrapper.AfterInit | TEST/cylinder/pci7230_wrapper.cpp:10-14 | the handle `Register_Card` answers becomes `g_card` and is returned; the output word is reset to 0 |
| Pci7230Wrapper.AfterRelease | TEST/cylinder/pci7230_wrapper.cpp:17-24 | without a card: -1 and no change; with one: the card is released once, forgotten, the library's code returned, and the output word kept |
| Pci7230Wrapper.AfterSetChannel | TEST/cylinder/pci7230_wrapper.cpp:27-38 | -1 with nothing changed without a card or outside 0..15; otherwise only channel `ch` is switched (`state != 0`) and the whole word is written to the card, answering the write's code |
| Pci7230Wrapper.SetChannelDrives | TEST/cylinder/pci7230_wrapper.cpp:31-37 | a call past both guards leaves the requested channel on exactly when `state != 0` |
| Pci7230Wrapper.SetChannelKeepsOthers | TEST/cylinder/pci7230_wrapper.cpp:31-35 | a call past both guards keeps each of the other 31 channels as it was |
| Pci7230Wrapper.AfterReadChannel | TEST/cylinder/pci7230_wrapper.cpp:41-53 | the same two rejections; otherwise one port read, and `*state` is set, to bit `ch` of the word read, only when the read succeeded |
| Pci7230Wrapper.AfterWritePort | TEST/cylinder/pci7230_wrapper.cpp:56-60 | with a card the output word becomes `value` and is written; without one -1 and no change |
| Pci7230Wrapper.AfterReadPort | TEST/cylinder/pci7230_wrapper.cpp:63-66 | with a card one port read whose word is delivered; without one -1 and nothing written to `*value` |
| Pci7230Wrapper.ChannelCallsKeep16 | TEST/cylinder/pci7230_wrapper.cpp:10-38 | Init, Release and SetChannel keep a 16-channel output word within 16 bits; only WritePort can set higher bits |
| Pci7230Wrapper.InitForgetsOutputs | TEST/cylinder/pci7230_wrapper.cpp:10-38 | after a successful Init the first SetChannel writes a word holding that one channel and nothing else |
| Pci7230Wrapper.OnOffRestores | TEST/cylinder/pci7230_wrapper.cpp:27-38 | on then off of an off channel writes the word with it set and then the original word, and restores the globals |
| Pci7230Wrapper.ReleaseOnce | TEST/cylinder/pci7230_wrapper.cpp:17-24 | a second Release answers -1 and changes nothing |
| Pci7230Wrapper.Dll.constructor | TEST/cylinder/pci7230_wrapper.cpp:5-6 | a loaded DLL has no card and all outputs off |
| Pci7230Wrapper.Dll.Init | TEST/cylinder/pci7230_wrapper.cpp:10-14 | updates `g_card`, `g_output_state` and the world as `AfterInit` |
| Pci7230Wrapper.Dll.Release | TEST/cylinder/pci7230_wrapper.cpp:17-24 | as `AfterRelease` |
| Pci7230Wrapper.Dll.SetChannel | TEST/cylinder/pci7230_wrapper.cpp:27-38 | as `AfterSetChannel` |
| Pci7230Wrapper.Dll.ReadChannel | TEST/cylinder/pci7230_wrapper.cpp:41-53 | as `AfterReadChannel`, globals unchanged |
| Pci7230Wrapper.Dll.WritePort | TEST/cylinder/pci7230_wrapper.cpp:56-60 | as `AfterWritePort` |
| Pci7230Wrapper.Dll.ReadPort | TEST/cylinder/pci7230_wrapper.cpp:63-66 | as `AfterReadPort`, globals unchanged |
| Pci7230Controller.CInt | SERVER/lib/pci7230_controller.py:12-17 | the `c_int` conversion keeps in-range values and otherwise agrees with the argument modulo 2^32 |
| Pci7230Controller.AfterConnect | SERVER/lib/pci7230_controller.py:31-38 | `PCI7230_Init` is called with the card number; true, and `connected` set, exactly when the handle is non-negative; a failure leaves the flag as it was |
| Pci7230Controller.AfterDisconnect | SERVER/lib/pci7230_controller.py:40-44 | only a connected controller releases the card; `connected` is false afterwards |
| Pci7230Controller.AfterSetChannel | SERVER/lib/pci7230_controller.py:46-57 | false without a call when not connected; otherwise true exactly when the DLL accepted the channel and the write succeeded, which switched that channel |
| Pci7230Controller.AfterReadChannel | SERVER/lib/pci7230_controller.py:59-67 | `None` when not connected or on a negative code; otherwise bit `ch` of the word read |
| Pci7230Controller.AfterWritePort | SERVER/lib/pci7230_controller.py:69-77 | gated by `connected`; the DLL's word becomes the low 32 bits of `value` and is written; true exactly on success |
| Pci7230Controller.AfterReadPort | SERVER/lib/pci7230_controller.py:79-87 | `None` when not connected or on a negative code, otherwise the word read |
| Pci7230Controller.CoherentKept | SERVER/lib/pci7230_controller.py:29-57 | starting fresh, `connected` agrees with the DLL holding a card, and every call except a re-connect keeps that agreement |
| Pci7230Controller.FailedReconnectKeepsFlag | SERVER/lib/pci7230_controller.py:31-38 | a failed re-connect on a connected controller leaves `connected` set while the DLL holds no card |
| Pci7230Controller.ConnectedSetReachesCard | SERVER/lib/pci7230_controller.py:46-57 | on a coherent connected controller, setting channel 0..15 always writes the card and succeeds exactly with the write |
| Pci7230Controller.Controller.constructor | SERVER/lib/pci7230_controller.py:29 | a new controller is not connected |
| Pci7230Controller.Controller.Connect | SERVER/lib/pci7230_controller.py:31-38 | as `AfterConnect` |
| Pci7230Controller.Controller.Disconnect | SERVER/lib/pci7230_controller.py:40-44 | as `AfterDisconnect` |
| Pci7230Controller.Controller.SetChannel | SERVER/lib/pci7230_controller.py:46-57 | as `AfterSetChannel` |
| Pci7230Controller.Controller.ReadChannel | SERVER/lib/pci7230_controller.py:59-67 | as `AfterReadChannel` |
| Pci7230Controller.Controller.WritePort | SERVER/lib/pci7230_controller.py:69-77 | as `AfterWritePort` |
| Pci7230Controller.Controller.ReadPort | SERVER/lib/pci7230_controller.py:79-87 | as `AfterReadPort` |
| Cylinders.AfterConnect | SERVER/cylinder_controller.py:21-24 | `connected` becomes the board controller's answer; on success the card is registered with all outputs off |
| Cylinders.AfterDisconnect | SERVER/cylinder_controller.py:26-30 | only a connected controller disconnects the board; `connected` is false afterwards |
| Cylinders.AfterSwitch | SERVER/cylinder_controller.py:33-87 | false with no call when not connected; otherwise true exactly when `set_channel(N, on)` reached the card and succeeded, having switched channel N in one whole-word write |
| Cylinders.AfterPulse | SERVER/cylinder_controller.py:90-144 | on, wait, off, wait; the flags are not changed |
| Cylinders.CoherentKept | SERVER/cylinder_controller.py:12-30 | the controller's flag, the board's flag and the DLL agree from a fresh controller on, through connect, disconnect, switch and pulse |
| Cylinders.SwitchDrivesChannel | SERVER/cylinder_controller.py:33-87 | on a coherent connected controller, switching N is one card write with channel N as requested and the rest kept; success equals the write's success |
| Cylinders.PulseOnThenOff | SERVER/cylinder_controller.py:90-102 | a pulse writes the word with N on, waits, writes it with N off, waits |
| Cylinders.PulseRestoresOutputs | SERVER/cylinder_controller.py:90-102 | a pulse of a cylinder that was off leaves every output as it started |
| Cylinders.PulseDisconnected | SERVER/cylinder_controller.py:90-102 | on a disconnected controller a pulse only waits twice |
| Cylinders.SwitchSendsNothing | SERVER/cylinder_controller.py:33-87 | switching a cylinder sends nothing to the robot |
| Cylinders.PulseSendsNothing | SERVER/cylinder_controller.py:90-102 | a pulse sends nothing to the robot |
| Cylinders.CylinderController.constructor | SERVER/cylinder_controller.py:12-19 | a new controller is not connected |
| Cylinders.CylinderController.Connect | SERVER/cylinder_controller.py:21-24 | as `AfterConnect` |
| Cylinders.CylinderController.Disconnect | SERVER/cylinder_controller.py:26-30 | as `AfterDisconnect` |
| Cylinders.CylinderController.On | SERVER/cylinder_controller.py:33-87 | `cylinder_N_on`, as `AfterSwitch(…, true)` |
| Cylinders.CylinderController.Off | SERVER/cylinder_controller.py:33-87 | `cylinder_N_off`, as `AfterSwitch(…, false)` |
| Cylinders.CylinderController.Pulse | SERVER/cylinder_controller.py:90-144 | `cylinder_N_pulse` with its default times, as `AfterPulse` |
| Cylinders.CylinderController.Exit | SERVER/cylinder_controller.py:150-152 | leaving a `with` block disconnects |
| CylinderSweep.OffStep | SERVER/server.py:84-85 | one switch-off on a connected coherent controller writes the card once and keeps it coherent and connected |
| CylinderSweep.OffFromState | SERVER/server.py:84-85 | switching cylinders i..3 off leaves the controller connected and coherent and clears exactly those channels |
| CylinderSweep.OffFromWrites | SERVER/server.py:84-85 | the sweep writes the card once per cylinder, channel 0 first, each time the whole word with one more channel cleared |
| CylinderSweep.ClearedBits | SERVER/server.py:126-128 | after the sweep, channels i..3 are off and every other channel is unchanged |
| Feeder.AfterConnect | SERVER/feeder_controller.py:12-19 | a client is created whatever happens; the answer is the client's `connect()` |
| Feeder.AfterSetLight | SERVER/feeder_controller.py:21-38 | false, writing nothing, without a client |
| Feeder.SetLightWrites | SERVER/feeder_controller.py:26-38 | with a client: true exactly when every write it attempts goes through; register 10 first, and register 11 only when switching on; a raised write ends the call with false |
| Feeder.OffWritesSwitchOnly | SERVER/feeder_controller.py:28-33 | switching off never writes the brightness register |
| Feeder.BrightnessScale | SERVER/feeder_controller.py:31-33 | a percentage 0..100 is written as exactly ten times itself, within 0..1000 |
| Feeder.FailedConnectStillWrites | SERVER/feeder_controller.py:12-28 | after a failed connect the client exists, so `set_light` still attempts its first write |
| Feeder.AfterDisconnect | SERVER/feeder_controller.py:40-43 | the client, if any, is closed |
| Feeder.FeederController.constructor | SERVER/feeder_controller.py:7-10 | a new controller has no client |
| Feeder.FeederController.Connect | SERVER/feeder_controller.py:12-19 | as `AfterConnect` |
| Feeder.FeederController.SetLight | SERVER/feeder_controller.py:21-38 | as `AfterSetLight` |
| Feeder.FeederController.Disconnect | SERVER/feeder_controller.py:40-43 | as `AfterDisconnect` |
| Camera.Centroid | SERVER/camera_controller.py:77-80 | the centroid is the floor of the midpoint of the truncated corners, on each axis |
| Camera.Front | SERVER/camera_controller.py:72-76 | the filter's test: confidence not below 0.8 and `int(cls) == 1`; `FrontCentroidsMembers` and `DroppedDetection` state what it keeps and drops |
| Camera.FrontCentroids | SERVER/camera_controller.py:71-80 | the centroid of every front detection, in box order; `FrontCentroidsMembers`, `FrontCentroidsAppend` and `FrontCentroidsBound` specify it |
| Camera.Centroids | SERVER/camera_controller.py:57-82 | no result yet, or a result without boxes, gives the empty list |
| Camera.AfterFrontCentroids | SERVER/camera_controller.py:57-82 | a query reads the stored result and changes nothing else |
| Camera.FrontCentroidsAppend | SERVER/camera_controller.py:71-80 | the filter works box by box: it distributes over concatenation |
| Camera.FrontCentroidsBound | SERVER/camera_controller.py:64-82 | at most one centroid per detection |
| Camera.FrontCentroidsMembers | SERVER/camera_controller.py:71-80 | a point is reported exactly when some detection with confidence at least 0.8 and class 1 has it as its centroid |
| Camera.DroppedDetection | SERVER/camera_controller.py:72-76 | a low-confidence or non-front detection changes nothing |
| Camera.CameraController.constructor | SERVER/camera_controller.py:17 | the ROI starts as [684, 421, 1256, 978] |
| Camera.CameraController.SetRoi | SERVER/camera_controller.py:50-55 | moves the ROI's corner in place and keeps its size |
| Camera.CameraController.GetFrontCentroids | SERVER/camera_controller.py:57-82 | the append loop returns exactly the filtered centroids of the stored result, in box order |
| Camera.GetFrame | SERVER/camera_controller.py:154-160 | nothing until a frame is stored, then that frame |
| Lpci7230.AfterControl | TEST/lpci7230.py:54-105 | false with nothing changed for a channel outside 0..15 or an unrecognised state; otherwise bit `ch` of the copy is switched and one bitfield write of that bit is issued; true exactly when it returned a non-negative code |
| Lpci7230.Level | TEST/lpci7230.py:73-81 | the `in ['on', 'ON', 1, '1']` and `in ['off', 'OFF', 0, '0']` tests, with `True`/`False` equal to 1 and 0; any other string, integer or boolean is refused (floats are not represented), and `ControlThenCheck` shows an accepted level read back |
| Lpci7230.CheckOutput | TEST/lpci7230.py:107-132 | `None` exactly outside 0..15; otherwise 1 or 0 as the copy's bit |
| Lpci7230.AfterCheckChannel | TEST/lpci7230.py:134-171 | `None` without a call outside 0..15; otherwise one read-only bitfield call, `None` on failure, else bit `ch` of the word read |
| Lpci7230.FailedWriteStillRecorded | TEST/lpci7230.py:84-98 | the copy records the request even when the board write fails and false is returned |
| Lpci7230.ControlThenCheck | TEST/lpci7230.py:84-128 | after an accepted `control_channel(ch, s)`, `check_output(ch)` reports the requested level |
| Lpci7230.ControlLeavesOthers | TEST/lpci7230.py:85-128 | `check_output` of every other channel is unchanged |
| Lpci7230.ControlKeeps16 | TEST/lpci7230.py:84-88 | the copy never uses more than the 16 channels |
| Lpci7230.Board.constructor | TEST/lpci7230.py:7-26 | the copy starts at 0 |
| Lpci7230.Board.ControlChannel | TEST/lpci7230.py:54-105 | as `AfterControl`, keeping the copy within 16 bits |
| Lpci7230.Board.CheckOutputOf | TEST/lpci7230.py:107-132 | `None` exactly outside channels 0..15; otherwise 0 or 1, and 1 exactly when the stored copy has the channel on |
| Lpci7230.Board.CheckChannel | TEST/lpci7230.py:134-171 | as `AfterCheckChannel` |
| RobotProtocol.ToTask | SERVER/robot_controller.py:83-159 | helpers send task numbers 0..8; tasks 0..5 carry zeros and tasks 6..8 carry their arguments |
| RobotProtocol.CommandTaskRoundTrip | SERVER/robot_controller.py:83-159 | the task a helper sends identifies the helper |
| RobotProtocol.ToTaskInjective | SERVER/robot_controller.py:83-159 | distinct helpers send distinct tasks |
| RobotProtocol.ServerFrame | SERVER/robot_controller.py:62 | `(t,x,y,a,p)` plus newline; `MockRobot.ServerFrameParses` proves the simulator parses it back to the same task |
| RobotProtocol.ClientFrame | TEST/tcp-ip-client.py:88 | `,t,x,y,a,p,` plus newline; `MockRobot.ClientFrameRejected` proves the simulator refuses it |
| RobotLink.AfterConnect | SERVER/robot_controller.py:20-32 | a fresh socket and one dial; `connected` is the outcome |
| RobotLink.ConnectSendsNothing | SERVER/robot_controller.py:20-32 | connecting sends no message |
| RobotLink.AfterDisconnect | SERVER/robot_controller.py:34-39 | only a link with a socket closes it and clears `connected` |
| RobotLink.AfterSend | SERVER/robot_controller.py:41-81 | `None` with no send when not connected; otherwise one message, and the stripped reply, or `None` on timeout or error |
| RobotLink.SentTrace | SERVER/robot_controller.py:60-67 | on a connected link a send hands exactly one `(t,x,y,a,p)\n` message to `sendall` |
| RobotLink.SendMessages | SERVER/robot_controller.py:56-74 | exactly one message is handed to `sendall` per call when connected, none otherwise |
| RobotLink.SendToSimulator | SERVER/robot_controller.py:62-74 | against the simulator the controller reads back `OK,<task number>` |
| RobotLink.RunSendsItsTask | SERVER/robot_controller.py:83-159 | each helper sends its own task's frame once |
| RobotLink.RobotController.constructor | SERVER/robot_controller.py:15-18 | no socket and not connected |
| RobotLink.RobotController.Connect | SERVER/robot_controller.py:20-32 | as `AfterConnect` |
| RobotLink.RobotController.Disconnect | SERVER/robot_controller.py:34-39 | as `AfterDisconnect` |
| RobotLink.RobotController.SendTask | SERVER/robot_controller.py:41-81 | as `AfterSend` |
| RobotLink.RobotController.Run | SERVER/robot_controller.py:83-159 | a helper sends its command's task |
| MockRobot.TaskName | TEST/tcp-ip-server.py:14-24 | a task number has a name exactly when it is 0..8; otherwise the unknown-task name |
| MockRobot.ParseInts | TEST/tcp-ip-server.py:76-80 | succeeds exactly when every field reads as an integer, and then holds each field's integer in order |
| MockRobot.ParseFields | TEST/tcp-ip-server.py:76-80 | succeeds exactly when there are at least five fields and each of fields 0..4 reads as an integer; the task then holds those five integers in order |
| MockRobot.ParseMessage | TEST/tcp-ip-server.py:75-80 | `strip('()')`, `split(',')`, then `ParseFields`; `ServerFrameParses` and `ClientFrameRejected` specify it on the two framings |
| MockRobot.Wire | TEST/tcp-ip-server.py:96-104 | `OK,<n>` or `ERROR,INVALID_FORMAT` plus newline; `AckStripped` and `ErrorStripped` give what the peer reads after `strip()` |
| MockRobot.Respond | TEST/tcp-ip-server.py:75-105 | the acknowledgement of a parsed task, the format error otherwise; `ServerFrameAcknowledged` and `ShortMessageRejected` specify it |
| MockRobot.ParseIntsStrings | TEST/tcp-ip-server.py:76-80 | `int(str(n))` of each field gives the integers back |
| MockRobot.ParsesFirstFive | TEST/tcp-ip-server.py:75-80 | fields 0..4 decide the task; later fields are ignored |
| MockRobot.ShortMessageRejected | TEST/tcp-ip-server.py:75-105 | fewer than five fields is always `ERROR,INVALID_FORMAT` |
| MockRobot.RespondRejectsIff | TEST/tcp-ip-server.py:75-105 | the reply is `ERROR,INVALID_FORMAT` exactly when there are fewer than five fields or one of fields 0..4 is not an integer; otherwise it acknowledges field 0's integer |
| MockRobot.NonIntegerRejected | TEST/tcp-ip-server.py:75-104 | any non-integer among fields 0..4 makes the reply a format error |
| MockRobot.AckStripped | TEST/tcp-ip-server.py:96 | the acknowledgement reads `OK,<n>` once stripped |
| MockRobot.ErrorStripped | TEST/tcp-ip-server.py:104 | the error reply reads `ERROR,INVALID_FORMAT` once stripped |
| MockRobot.StripParensJoin | TEST/tcp-ip-server.py:75 | `strip('()')` removes exactly the enclosing parentheses of the joined fields |
| MockRobot.FramedBody | TEST/tcp-ip-server.py:64-75 | `strip()` then `strip('()')` of a framed message leaves the comma-joined fields |
| MockRobot.SplitFields | TEST/tcp-ip-server.py:75 | splitting at commas gives the five fields back |
| MockRobot.ServerFrameParses | TEST/tcp-ip-server.py:64-80 | round trip: the simulator parses exactly the task the server's controller framed |
| MockRobot.ServerFrameAcknowledged | TEST/tcp-ip-server.py:64-97 | every framed task, in 0..8 or not, is answered `OK,<number>\n` |
| MockRobot.ClientFrameRejected | TEST/tcp-ip-server.py:73-105 | the test client's `,t,x,y,a,p,` framing is always rejected: its first field is empty |
| MockRobot.HandleClient | TEST/tcp-ip-server.py:59-112 | the loop answers each non-empty stripped chunk in order and stops at the first empty one |
| Numbers.Trunc | SERVER/lego_process.py:107-108 | `int()` of a float truncates toward zero |
| Numbers.TruncWhole | SERVER/feeder_controller.py:32 | `int()` of a whole number is that number |
| Text.StripLine | SERVER/robot_controller.py:70 | `strip()` of a line with no removable ends removes just the newline |
| Text.Strip | SERVER/robot_controller.py:70 | `str.strip()` over Python's whitespace set; `StripKeeps` and `StripLine` state what it removes |
| Text.StripParens | TEST/tcp-ip-server.py:75 | `str.strip('()')`; `MockRobot.StripParensJoin` proves it removes exactly the enclosing parentheses of a frame |
| Text.Join | SERVER/robot_controller.py:62 | the comma-separated fields of a frame; `SplitJoin` proves `split` gives the pieces back |
| Text.ParseInt | TEST/tcp-ip-server.py:76 | `int(str)`: optional whitespace and sign around ASCII digits, otherwise `None`; `ParseIntToString` and `ParseIntEmpty` specify it |
| Text.Split | TEST/tcp-ip-server.py:75 | `split` never answers an empty list, its pieces hold no separator, and joining them gives the string back |
| Text.SplitJoin | TEST/tcp-ip-server.py:75 | splitting a join of separator-free pieces gives the pieces back |
| Text.IntToString | SERVER/robot_controller.py:62 | `str(n)` is non-empty, ends in a digit, and holds no comma or parenthesis |
| Text.NatToString | SERVER/robot_controller.py:62 | the digits of a natural number denote it, with no leading zero |
| Text.Digits | TEST/tcp-ip-server.py:76-80 | a digit string is read exactly when it is non-empty and all digits |
| Text.ParseIntToString | TEST/tcp-ip-server.py:76-80 | `int(str(n)) == n` |
| Text.ParseIntEmpty | TEST/tcp-ip-server.py:76 | `int('')` fails |
| Text.Lower | SERVER/lego_process.py:46 | the key has the input's length and no ASCII capital; each capital becomes its small letter and every other character is kept |
| Text.LowerIdempotent | SERVER/lego_process.py:46 | lowering twice is lowering once |
| Text.LowerCaseInsensitive | SERVER/lego_process.py:46 | two strings have the same lower-case key exactly when they differ only in the case of ASCII letters |
| RobotClient.ConnectFrom | TEST/tcp-ip-client.py:24-44 | the attempts from `attempt` on: true exactly in a connected client with a socket; out of attempts, false with nothing done |
| RobotClient.FailedAttemptCounts | TEST/tcp-ip-client.py:35-41 | a failed attempt is one dial, one close, and a wait unless it was the last attempt |
| RobotClient.ConnectCounts | TEST/tcp-ip-client.py:26-44 | the connect loop sends nothing, waits one time fewer than it dials, and closes every socket except a successful one |
| RobotClient.ConnectDials | TEST/tcp-ip-client.py:26-44 | the loop dials at least once and at most once per attempt left |
| RobotClient.ConnectSucceedsIff | TEST/tcp-ip-client.py:26-44 | `connect()` succeeds exactly when one of its remaining attempts does |
| RobotClient.AfterDisconnect | TEST/tcp-ip-client.py:46-51 | closes and clears `connected` only when a socket is set |
| RobotClient.Reconnect | TEST/tcp-ip-client.py:72-78 | disconnect, wait, connect: success leaves the client connected |
| RobotClient.Prepare | TEST/tcp-ip-client.py:70-84 | a first pass does nothing; a pass may send only when connected |
| RobotClient.Exchange | TEST/tcp-ip-client.py:86-113 | one send; the pass answers exactly when the stripped reply is non-empty, and then with that reply |
| RobotClient.Iteration | TEST/tcp-ip-client.py:70-113 | a pass answers only with a non-empty reply and uses at most one reply from the robot |
| RobotClient.RetryFrom | TEST/tcp-ip-client.py:68-116 | the retry loop never returns an empty reply, and with no retries left it returns `None` with nothing done |
| RobotClient.FirstIteration | TEST/tcp-ip-client.py:72-93 | the first pass never reconnects: not connected is a failed pass, and connected sends the message once |
| RobotClient.ReconnectCounts | TEST/tcp-ip-client.py:72-78 | a reconnect sends nothing and dials at most `max_connect_retries` times |
| RobotClient.PrepareCounts | TEST/tcp-ip-client.py:72-84 | the start of a pass sends nothing, and dials only on a retry |
| RobotClient.ExchangeCounts | TEST/tcp-ip-client.py:86-113 | an exchange is exactly one send |
| RobotClient.IterationCounts | TEST/tcp-ip-client.py:70-113 | a pass sends at most once and dials at most `max_connect_retries` times, only on a retry |
| RobotClient.RetrySends | TEST/tcp-ip-client.py:68-116 | from `retry` failures on, at most `max_retries - retry` sends |
| RobotClient.RetryDials | TEST/tcp-ip-client.py:68-116 | every retry pass dials at most `max_connect_retries` times |
| RobotClient.SendTaskBudget | TEST/tcp-ip-client.py:68-116 | a whole `send_task` sends at most `max_retries` times and dials at most `(max_retries - 1) * max_connect_retries` times |
| RobotClient.QuietRobotExhausts | TEST/tcp-ip-client.py:68-116 | a robot that never answers with text makes `send_task` return `None` |
| RobotClient.SimulatorRejectsClient | TEST/tcp-ip-client.py:88-104 | against the simulator the client's framing gets `ERROR,INVALID_FORMAT`, which the client returns as its answer |
| RobotClient.RobotClient.constructor | TEST/tcp-ip-client.py:17-22 | the budgets are stored; no socket, not connected |
| RobotClient.RobotClient.Connect | TEST/tcp-ip-client.py:24-44 | the `for attempt` loop, as `ConnectFrom(…, 1, max_connect_retries)` |
| RobotClient.RobotClient.Disconnect | TEST/tcp-ip-client.py:46-51 | as `AfterDisconnect` |
| RobotClient.RobotClient.SendTask | TEST/tcp-ip-client.py:53-116 | the `while retry_count < max_retries` loop, as `RetryFrom(…, 0, …)` |
| RobotClient.RobotClient.Run | TEST/tcp-ip-client.py:118-194 | a helper's task framed and sent through `send_task` |
| ServerLifecycle.FeederStartLight | SERVER/server.py:70-76 | a client exists afterwards; the light is switched on at brightness value 100 only when the feeder connected |
| ServerLifecycle.CylindersStartOff | SERVER/server.py:81-86 | card 0 is registered; on success the controller is connected and the card written four times, cylinder 0 first |
| ServerLifecycle.RobotStartLog | SERVER/server.py:91-107 | no task when the connection failed, task 0 otherwise, and task 1 exactly after a non-empty reply to task 0 |
| ServerLifecycle.RobotStartMessages | SERVER/server.py:91-107 | the frames handed to `sendall` at start-up are exactly those tasks, in order |
| ServerLifecycle.ShutdownDisconnects | SERVER/server.py:116-135 | shut-down leaves the cylinders and the robot disconnected |
| ServerLifecycle.StopOutputsClears | SERVER/server.py:120-129 | with the cylinders connected, channels 0..3 are cleared one after the other |
| ServerLifecycle.DisconnectsKeepOutput | SERVER/server.py:131-134 | disconnecting releases the card but keeps the DLL's last word |
| ServerLifecycle.ShutdownOutputsOff | SERVER/server.py:116-135 | after shut-down of connected cylinders, channels 0..3 are off and all others kept |
| ServerRequests.RobotTaskReplies | SERVER/server.py:229-250 | 503 with nothing sent when not connected; otherwise exactly the task's frame is sent, and the answer is the task and reply exactly when the stripped reply is non-empty, else 500 |
| ServerRequests.SleepArg | SERVER/cylinder_controller.py:100-102 | what `time.sleep` accepts: a non-negative number or a boolean; `TimedPulseIsPulse` and `BadOnTimeLeavesCylinderOn` state both outcomes |
| ServerRequests.KnownAction | SERVER/server.py:209-218 | the three actions `on`, `off` and `pulse`; `CylinderControlReplies` shows any other is a 500 before any call |
| ServerRequests.TimedPulseIsPulse | SERVER/cylinder_controller.py:90-144 | with durations `time.sleep` accepts, the pulse with the caller's times is the ordinary pulse |
| ServerRequests.BadOnTimeLeavesCylinderOn | SERVER/server.py:213-216 | an on-time that `time.sleep` refuses raises after the switch-on, leaving that cylinder on |
| ServerRequests.CylinderControlReplies | SERVER/server.py:202-226 | acknowledged exactly when connected, the action known, the cylinder 0..3 and, for a pulse, both times present and non-negative; otherwise 503 or 500; a refused request changes nothing; an acknowledged on/off wrote the card |
| ServerRequests.CylinderIndex | SERVER/server.py:279-287 | `getattr` finds a cylinder method exactly for 0..3, given as an integer or as a digit string |
| ServerRequests.StepEntry | SERVER/server.py:270-347 | a step adds one entry, under its own number, exactly when it reports; an error entry carries the step's type |
| ServerRequests.MissingKeyFails | SERVER/server.py:340-347 | a step missing a key read with `[...]` raises before any device call and adds an error entry |
| ServerRequests.AwaitArg | SERVER/server.py:322 | what `asyncio.sleep` accepts: any number or boolean; anything else makes the wait step an error entry |
| ServerRequests.CaptureReportsCentroids | SERVER/server.py:331-338 | a capture step reports, under its number, exactly the front centroids the camera holds, whose count is the number detected |
| ServerRequests.EntriesInOrder | SERVER/server.py:262-356 | the results hold one entry per reporting step, numbers strictly increasing within 1..number of steps |
| Server.IntegratedSystem.constructor | SERVER/server.py:50-54 | the four controllers, not initialised |
| Server.IntegratedSystem.AllOff | SERVER/server.py:84-85 | `cylinder_i_off()` for i = 0..3, as `OffFrom(…, 0)` |
| Server.IntegratedSystem.StartFeeder | SERVER/server.py:70-78 | as `FeederStart` |
| Server.IntegratedSystem.StartCylinders | SERVER/server.py:81-88 | as `CylindersStart` |
| Server.IntegratedSystem.StartRobot | SERVER/server.py:91-109 | as `RobotStart` |
| Server.IntegratedSystem.Initialize | SERVER/server.py:56-114 | feeder, cylinders, robot, as `AfterInitialize`; the system is initialised afterwards whatever failed |
| Server.IntegratedSystem.Shutdown | SERVER/server.py:116-135 | as `AfterShutdown` |
| Server.IntegratedSystem.RobotTask | SERVER/server.py:229-250 | as `AfterRobotTask` |
| Server.IntegratedSystem.Pulse | SERVER/cylinder_controller.py:90-144 | a pulse with the caller's durations, as `TimedPulse` |
| Server.IntegratedSystem.CylinderControl | SERVER/server.py:202-226 | as `AfterCylinderControl` |
| Server.IntegratedSystem.CylinderStepRun | SERVER/server.py:274-293 | a cylinder step, as `CylinderEffect` |
| Server.IntegratedSystem.RunStep | SERVER/server.py:273-347 | one step inside the `try`, as `StepEffect` |
| Server.IntegratedSystem.ExecuteSequence | SERVER/server.py:262-356 | the step loop, as `RunFrom(…, 0)`, answering `completed` with the entries |
| LegoDrawing.CameraToRobot | SERVER/lego_process.py:6-10 | the fixed calibration coefficients; `CameraToRobotAffine` states that the map is affine |
| LegoDrawing.CameraToRobotAffine | SERVER/lego_process.py:6-10 | the calibration is affine: a camera shift moves the robot point by the linear part alone |
| LegoDrawing.PickCommand | SERVER/lego_process.py:94-111 | each placement is a task-7 lego pick-and-place with angle 0 and the plate's number |
| LegoDrawing.PlateList | SERVER/lego_process.py:46 | `coordination.get(shape.lower())`, a missing key read as an empty list; `PlateListIgnoresCase` states its case insensitivity |
| LegoDrawing.PlateListIgnoresCase | SERVER/lego_process.py:46 | spellings of a shape that differ only in ASCII case find the same plate list |
| LegoDrawing.RunAction | SERVER/lego_process.py:70-80 | a pause only waits; a register write without a client raises with nothing done |
| LegoDrawing.ActionsInOrder | SERVER/lego_process.py:68-80 | with a client and every write going through, the feeder actions run to the end and leave exactly their events, in order |
| LegoDrawing.RecoveryWrites | SERVER/lego_process.py:68-80 | the refill writes (1,10113), (0,1), (0,0), (1,10114), (0,1), (0,0) in that order, with the waits between |
| LegoDrawing.RecoveryShape | SERVER/lego_process.py:68-83 | the refill holds six writes and three waits, in the listed order |
| LegoDrawing.RecoveryWithoutClient | SERVER/lego_process.py:70 | without a client the refill raises at its first write, having done nothing |
| LegoDrawing.ActionsSendNothing | SERVER/lego_process.py:68-80 | feeder actions send nothing to the robot |
| LegoDrawing.RefillMessages | SERVER/lego_process.py:62-84 | a refill sends only its `robot_init` |
| LegoDrawing.PicksInOrder | SERVER/lego_process.py:60-116 | the plates picked by the loop are a prefix of the remaining plate list: in order, none twice |
| LegoDrawing.PlacePicksInOrder | SERVER/lego_process.py:90-116 | the same for a loop pass that places a brick |
| LegoDrawing.EnoughBricksFifo | SERVER/lego_process.py:60-116 | with enough bricks seen, no refill happens and plate `idx + j` is placed with the `j`-th centroid, oldest first |
| LegoDrawing.RecoveryWhenDry | SERVER/lego_process.py:62-88 | an empty list triggers a refill (`robot_init` first); when it finds nothing, that is the last command |
| LegoDrawing.PlatesMessages | SERVER/lego_process.py:60-116 | with the robot connected, the loop's commands are exactly the frames handed to `sendall`, in order |
| LegoDrawing.DryMessages | SERVER/lego_process.py:62-116 | the same when a pass starts with no centroid |
| LegoDrawing.DryStopMessages | SERVER/lego_process.py:62-88 | a refill that raised or found nothing sends only its `robot_init` |
| LegoDrawing.PlaceMessages | SERVER/lego_process.py:90-116 | the same when a pass places a brick |
| LegoDrawing.Finish | SERVER/lego_process.py:125-139 | the finishing steps leave the cylinders as a pulse of cylinder 1 does |
| LegoDrawing.FinishOrder | SERVER/lego_process.py:125-139 | the devices see `robot_init`, cylinder 1 on, wait, off, wait, `detach_suction`, `robot_init`, in that order |
| LegoDrawing.FinishMessages | SERVER/lego_process.py:125-139 | with the robot connected, the finishing steps send exactly `robot_init`, `detach_suction`, `robot_init`, and the cylinder pulse between them sends nothing to the robot |
| LegoDrawing.SuctionFailure | SERVER/lego_process.py:38-43 | no reply to `attach_suction` ends the job with an error, and nothing else is sent to any device |
| LegoDrawing.UnknownShape | SERVER/lego_process.py:45-49 | an unknown or empty shape ends the job with an error after the suction attach, before any pick |
| LegoDrawing.CompletedReportsAllPlates | SERVER/lego_process.py:60-148 | unless a feeder write raised, the job reports `completed` with the full plate count and ends with the finishing commands |
| LegoDrawing.JobPicksInOrder | SERVER/lego_process.py:32-148 | over the whole job, the plates picked are a prefix of the shape's plate list; `DrawingMessages` ties the log they are read from to the frames handed to `sendall` |
| LegoDrawing.DrawingMessages | SERVER/lego_process.py:38-148 | with the robot connected, the job's command log is exactly the sequence of frames handed to `sendall`, however the job ended |
| LegoDrawing.LegoProcess.constructor | SERVER/lego_process.py:13-18 | the controllers and the shape table |
| LegoDrawing.LegoProcess.FeederWrite | SERVER/lego_process.py:70 | a write straight on the feeder's client, as `RunAction` |
| LegoDrawing.LegoProcess.Refill | SERVER/lego_process.py:62-88 | the refill with its `robot_init` and new query, as `AfterRefill` |
| LegoDrawing.LegoProcess.PlaceOne | SERVER/lego_process.py:91-111 | the centroid offset by the ROI corner, mapped and truncated, is sent, as `PickCommand` |
| LegoDrawing.LegoProcess.Step | SERVER/lego_process.py:60-116 | one loop pass; the remaining loop ends where the whole loop would |
| LegoDrawing.LegoProcess.PlaceAll | SERVER/lego_process.py:56-116 | the plate loop, as `Plates` from plate 0 |
| LegoDrawing.LegoProcess.FinishSteps | SERVER/lego_process.py:125-139 | as `Finish` |
| LegoDrawing.LegoProcess.ExecuteLegoDrawing | SERVER/lego_process.py:32-148 | the whole job, as `Drawing` |

## Left out

- Camera acquisition: `connect_camera`, `start_capture`, the capture and inference thread, `stop` and the lock. Each centroid query sees the inference result stored last, taken from a tape, and `get_frame` is modelled on an optional frame.
- The detector (YOLO) and JPEG encoding: detections are inputs, and so are frames.
- Device libraries: sockets, pymodbus, the DASK library, comedi and pypylon are oracle tapes in `Plant.Env`, and their calls are trace events.
- Sleep durations: `time.sleep` and `asyncio.sleep` durations are abstract. Each sleep is one `Wait` event; only whether a duration is accepted is modelled.
- Floating point: floats are reals, so rounding in the calibration and in `brightness * 10` is not modelled.
  - LegoDrawing.PickCommand: the robot coordinates are the exact real values of the calibration, truncated, so a double rounding across an integer is not captured.
  - Feeder.BrightnessValue: `int(brightness * 10)` on reals, for the same reason.
- `lower()` covers ASCII letters only; `int(str)` covers ASCII digits with an optional sign and surrounding whitespace, without underscores.
- Delivery to the robot: a `RobotSend` event records a frame handed to `sendall`. The model does not tell apart a `sendall` that raised from a `recv` that failed (both are the exchange `Broken`), so a frame whose send raised is still recorded as sent, and whether any of its bytes reached the robot is not modelled.
  - RobotLink.SendMessages: states the frame handed to `sendall`, not the frames the robot received.
  - ServerLifecycle.RobotStartMessages: states the start-up frames handed to `sendall`, not the frames the robot received.
  - LegoDrawing.PlatesMessages: equates the loop's log with the frames handed to `sendall`, not the frames the robot received.
  - LegoDrawing.DrawingMessages: equates the job's log with the frames handed to `sendall`, not the frames the robot received.
- A reply longer than the 1024-byte `recv` buffer, and a reply that fails to decode as UTF-8, are not modelled. Each exchange on the tape is the whole reply, a timeout, or an error.
- `coordination.json` loading and `get_green_centroids`' printing: the shape table is a constructor argument.
- FastAPI routing and the endpoints that only forward one call: `/api/robot_init`, `/api/set_roi`, `/api/get_centroids`, `/api/light_control`, the status endpoint, the pages and the video stream.
- HTTP `detail` strings, the result texts of sequence entries, and exception messages: errors are status codes or `Failed` entries.
- Integer-only robot parameters:
  - ServerRequests.AfterRobotTask: `/api/robot_task` takes an all-integer `Task`. The request model's `Optional[int]` fields also accept JSON `null`, which the server would frame as `None` and the robot would refuse; that case is not modelled.
  - robot steps of a sequence take integer parameters only.
- Sequence step parameters:
  - a light step's `on` is a boolean and its brightness a real;
  - lists and dictionaries as parameter values are not modelled.
- The lego job's cylinder 1 pulse uses the fixed times 1.0 and 1.0, so it is the default pulse.
- An exception from a feeder write in the lego job is the outcome `Raised`, not a propagating exception.
- TEST/cylinder/pci7230_controller.py is a copy of the server's controller and is not modelled separately.
- Lpci7230.Level: the state argument is a string, an integer or a boolean. Python's `in` test also matches the floats `1.0` and `0.0`, which the model does not represent.
- LPCI-7230: a failure to load libcomedi or open the device in the constructor, and `close()`, are not modelled.
- Feeder: construction of `ModbusTcpClient` never raises in the model (`Feeder.AfterConnect` always creates the client), and a Modbus error response that does not raise counts as a completed write.
- Robot simulator: the accept loop, its threads, the one-second task delay and the printing are not modelled; `handle_client` is modelled for one connection.
- The test client's menu and `main`, and the other test, viewer, calibration and training scripts, are not modelled.
