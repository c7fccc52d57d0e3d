/** The server's robot controller: one TCP connection to the robot program, a `connected` flag,
    and `send_task`, which writes one `(t,x,y,a,p)\n` message and returns the stripped reply, or
    nothing when not connected or when the exchange fails. There is no retry. */
module RobotLink {
  import opened Options
  import opened Text
  import opened Plant
  import opened RobotProtocol
  import MockRobot

  /** A reply Python treats as true in `if response:`: present and not the empty string. */
  predicate Answered(response: Option<string>) {
    response.Some? && response.value != ""
  }

  /** The controller's fields: the `connected` flag and whether `sock` is set. */
  datatype Link = Link(connected: bool, hasSock: bool)

  /** A socket is created before every connect attempt, so a connected link always has one. */
  predicate Coherent(l: Link) {
    l.connected ==> l.hasSock
  }

  /** `connect()`: a fresh socket, then `connected` is the outcome of the attempt, which is also
      the result. */
  function AfterConnect(e: Env): (r: (Link, Env, bool))
    ensures r.0 == Link(r.2, true) && Coherent(r.0)
    ensures Count(r.1.trace, Dials) == Count(e.trace, Dials) + 1
  {
    var (e1, ok) := RobotDial(e);
    CountEmit(e, RobotConnect, Dials);
    (Link(ok, true), e1, ok)
  }

  /** Connecting sends no message to the robot. */
  lemma ConnectSendsNothing(e: Env)
    ensures RobotMessages(AfterConnect(e).1.trace) == RobotMessages(e.trace)
  {
    RobotMessagesAppend(e.trace, [RobotConnect]);
    assert RobotMessages([RobotConnect]) == [] by {
      assert [RobotConnect][..0] == [];
    }
  }

  /** `disconnect()`: only a link that has a socket closes it and clears `connected`; the socket
      field itself is kept. */
  function AfterDisconnect(l: Link, e: Env): (r: (Link, Env))
    ensures l.hasSock ==> !r.0.connected
    ensures r.0.hasSock == l.hasSock
    ensures !l.hasSock ==> r == (l, e)
    ensures Coherent(l) ==> Coherent(r.0)
  {
    if l.hasSock then (l.(connected := false), RobotHangUp(e)) else (l, e)
  }

  /** `send_task(t)`: nothing is sent while not connected; otherwise exactly one framed message
      is sent and the reply, stripped, is returned whatever it is (even empty). A timeout or any
      other socket error gives `None`. */
  function AfterSend(l: Link, e: Env, t: Task): (r: (Env, Option<string>))
    ensures !l.connected ==> r == (e, None)
    ensures r.1.Some? <==> l.connected && Next(e.robotExchanges, TimedOut).Replied?
    ensures r.1.Some? ==> r.1.value == Strip(Next(e.robotExchanges, TimedOut).text)
  {
    if !l.connected then (e, None)
    else
      var (e1, x) := RobotTalk(e, ServerFrame(t));
      (e1, if x.Replied? then Some(Strip(x.text)) else None)
  }

  /** What a send leaves in the world when its reply is not looked at. */
  function Sent(l: Link, e: Env, t: Task): Env {
    if l.connected then RobotTalk(e, ServerFrame(t)).0 else e
  }

  /** That is the world `send_task` leaves. */
  lemma SentBySend(l: Link, e: Env, t: Task)
    ensures AfterSend(l, e, t).0 == Sent(l, e, t)
  {
  }

  /** On a connected link the send is one message on the wire. */
  lemma SentTrace(l: Link, e: Env, t: Task)
    requires l.connected
    ensures Sent(l, e, t).trace == e.trace + [RobotSend(ServerFrame(t))]
  {
  }

  /** A send whose reply is ignored still writes exactly its one message when connected. */
  lemma SentMessages(l: Link, e: Env, c: Command)
    requires l.connected
    ensures RobotMessages(Sent(l, e, ToTask(c)).trace) == RobotMessages(e.trace) + [ServerFrame(ToTask(c))]
  {
    SentBySend(l, e, ToTask(c));
    SendMessages(l, e, ToTask(c));
  }

  /** The robot frames of a command log. */
  function Frames(log: seq<Command>): seq<string> {
    if log == [] then [] else [ServerFrame(ToTask(log[0]))] + Frames(log[1..])
  }

  lemma {:induction false} FramesAppend(a: seq<Command>, b: seq<Command>)
    ensures Frames(a + b) == Frames(a) + Frames(b)
  {
    if a != [] {
      assert (a + b)[1..] == a[1..] + b;
      FramesAppend(a[1..], b);
    } else {
      assert a + b == b;
    }
  }

  /** Putting one command in front of a log puts its frame in front of the frames. */
  lemma FramesCons(c: Command, log: seq<Command>)
    ensures Frames([c] + log) == [ServerFrame(ToTask(c))] + Frames(log)
  {
    assert ([c] + log)[1..] == log;
  }

  /** A command sent before a log is handed to `sendall` as the frames of the longer log. */
  lemma SentBefore(l: Link, e: Env, c: Command, later: Env, log: seq<Command>)
    requires l.connected
    requires RobotMessages(later.trace) == RobotMessages(Sent(l, e, ToTask(c)).trace) + Frames(log)
    ensures RobotMessages(later.trace) == RobotMessages(e.trace) + Frames([c] + log)
  {
    SentMessages(l, e, c);
    FramesCons(c, log);
    Regroup(RobotMessages(e.trace), [ServerFrame(ToTask(c))], Frames(log),
            RobotMessages(Sent(l, e, ToTask(c)).trace), RobotMessages(later.trace));
  }

  /** Appending `f` and then `g` appends `f + g`. */
  lemma Regroup<T>(a: seq<T>, f: seq<T>, g: seq<T>, m1: seq<T>, m2: seq<T>)
    requires m1 == a + f && m2 == m1 + g
    ensures m2 == a + (f + g)
  {
  }

  /** The frames of a log of one command ... */
  lemma FramesOne(a: Command)
    ensures Frames([a]) == [ServerFrame(ToTask(a))]
  {
    assert [a][1..] == [];
  }

  /** ... and of two. */
  lemma FramesTwo(a: Command, b: Command)
    ensures Frames([a, b]) == [ServerFrame(ToTask(a)), ServerFrame(ToTask(b))]
  {
    FramesOne(b);
    assert [a, b][1..] == [b];
  }

  /** One helper (`robot_init`, …, `waste_pick_place`): the task of its number, sent once. */
  function AfterRun(l: Link, e: Env, c: Command): (Env, Option<string>) {
    AfterSend(l, e, ToTask(c))
  }

  /** Exactly one message is handed to `sendall` per call on a connected link, and it is the
      task's frame; none is handed over otherwise. */
  lemma SendMessages(l: Link, e: Env, t: Task)
    ensures RobotMessages(AfterSend(l, e, t).0.trace) == RobotMessages(e.trace) + (if l.connected then [ServerFrame(t)] else [])
  {
    if l.connected {
      RobotMessagesAppend(e.trace, [RobotSend(ServerFrame(t))]);
      assert RobotMessages([RobotSend(ServerFrame(t))]) == [ServerFrame(t)] by {
        assert [RobotSend(ServerFrame(t))][..0] == [];
      }
    }
  }

  /** Against the robot simulator, a connected controller reads back `OK,<task number>` for every
      task it sends. */
  lemma SendToSimulator(l: Link, e: Env, t: Task)
    requires l.connected
    requires e.robotExchanges != [] && e.robotExchanges[0] == Replied(MockRobot.Wire(MockRobot.Respond(Strip(ServerFrame(t)))))
    ensures AfterSend(l, e, t).1 == Some("OK," + IntToString(t.num))
  {
    MockRobot.ServerFrameAcknowledged(t);
    MockRobot.AckStripped(t.num);
  }

  /** The helpers send their fixed task numbers: 0..5 with zero coordinates, 6..8 with theirs. */
  lemma RunSendsItsTask(l: Link, e: Env, c: Command)
    requires l.connected
    ensures RobotMessages(AfterRun(l, e, c).0.trace) == RobotMessages(e.trace) + [ServerFrame(ToTask(c))]
    ensures FromTask(ToTask(c)) == Some(c)
  {
    SendMessages(l, e, ToTask(c));
    CommandTaskRoundTrip(c);
  }

  /** Two helpers in a row on a connected link send their two tasks, in order. */
  lemma RunTwiceSendsBoth(l: Link, e: Env, a: Command, b: Command)
    requires l.connected
    ensures var e1 := AfterRun(l, e, a).0;
            RobotMessages(AfterRun(l, e1, b).0.trace) == RobotMessages(e.trace) + Frames([a, b])
  {
    var e1 := AfterRun(l, e, a).0;
    RunSendsItsTask(l, e, a);
    RunSendsItsTask(l, e1, b);
    FramesTwo(a, b);
  }

  /** The controller object. `sock` is represented by `hasSock`; the socket itself is the robot
      end of the shared world. */
  class RobotController {
    const world: World
    var connected: bool
    var hasSock: bool

    constructor (w: World)
      ensures world == w && !connected && !hasSock
    {
      world := w;
      connected, hasSock := false, false;
    }

    function State(): Link
      reads this
    {
      Link(connected, hasSock)
    }

    method Connect() returns (ok: bool)
      modifies this, world
      ensures (State(), world.env, ok) == AfterConnect(old(world.env))
    {
      hasSock := true;
      ok := world.Dial();
      connected := ok;
    }

    method Disconnect()
      modifies this, world
      ensures (State(), world.env) == AfterDisconnect(old(State()), old(world.env))
    {
      if hasSock {
        world.HangUp();
        connected := false;
      }
    }

    method SendTask(t: Task) returns (response: Option<string>)
      modifies world
      ensures (world.env, response) == AfterSend(State(), old(world.env), t)
    {
      if !connected {
        return None;
      }
      var x := world.Talk(ServerFrame(t));
      response := if x.Replied? then Some(Strip(x.text)) else None;
    }

    method Run(c: Command) returns (response: Option<string>)
      modifies world
      ensures (world.env, response) == AfterRun(State(), old(world.env), c)
    {
      response := SendTask(ToTask(c));
    }
  }
}
