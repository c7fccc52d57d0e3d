/** The test client for the robot: a connect loop of at most `max_connect_retries` attempts, and
    a `send_task` that tries up to `max_retries` times, reconnecting before every retry, treating
    an empty reply as a failure and framing tasks as `,t,x,y,a,p,\n`. */
module RobotClient {
  import opened Options
  import opened Text
  import opened Plant
  import opened RobotProtocol
  import MockRobot

  /** The client's fields: the `connected` flag and whether `sock` is set. */
  datatype Client = Client(connected: bool, hasSock: bool)

  /** How far the trace has grown in events of kind `k` from `e` to `r`. */
  function Added(e: Env, r: Env, k: Kind): int {
    Count(r.trace, k) - Count(e.trace, k)
  }

  /** The `for attempt in range(1, max + 1)` loop of `connect()`, from `attempt` on: a fresh
      socket and a dial per attempt; a failure closes that socket and, unless it was the last
      attempt, waits before the next one. With no attempt left nothing changes and the answer is
      false. */
  function ConnectFrom(c: Client, e: Env, attempt: int, max: int): (r: (Client, Env, bool))
    requires 1 <= attempt
    ensures r.2 ==> r.0.connected
    ensures attempt <= max ==> r.0 == Client(r.2, true)
    ensures attempt > max ==> r == (c, e, false)
    ensures r.1.robotExchanges == e.robotExchanges
    decreases max + 1 - attempt
  {
    if attempt > max then (c, e, false)
    else
      var (e1, ok) := RobotDial(e);
      if ok then (Client(true, true), e1, true)
      else
        var e2 := RobotHangUp(e1);
        var e3 := if attempt < max then Sleep(e2) else e2;
        ConnectFrom(Client(false, true), e3, attempt + 1, max)
  }

  /** One dial: one more dial, nothing else. */
  lemma DialCounts(e: Env, k: Kind)
    ensures Added(e, RobotDial(e).0, k) == (if k == Dials then 1 else 0)
  {
    CountEmit(e, RobotConnect, k);
  }

  /** A failed attempt: one dial, one close, and a wait unless it was the last attempt. */
  lemma FailedAttemptCounts(e: Env, last: bool, k: Kind)
    ensures var e2 := RobotHangUp(RobotDial(e).0);
      var e3 := if last then e2 else Sleep(e2);
      Added(e, e3, k) == (if k == Dials || k == Closes then 1 else if k == Waits && !last then 1 else 0)
  {
    var e1 := RobotDial(e).0;
    DialCounts(e, k);
    CountEmit(e1, RobotClose, k);
    var e2 := RobotHangUp(e1);
    CountEmit(e2, Wait, k);
  }

  lemma {:induction false} ConnectCounts(c: Client, e: Env, attempt: int, max: int, k: Kind)
    requires 1 <= attempt <= max
    ensures var r := ConnectFrom(c, e, attempt, max);
      var d := Added(e, r.1, Dials);
      Added(e, r.1, k) == (if k == Dials then d else if k == Waits then d - 1 else if k == Closes then d - (if r.2 then 1 else 0) else 0)
    decreases max + 1 - attempt
  {
    var (e1, ok) := RobotDial(e);
    if ok {
      assert ConnectFrom(c, e, attempt, max) == (Client(true, true), e1, true);
      DialCounts(e, k);
      DialCounts(e, Dials);
    } else {
      var e2 := RobotHangUp(e1);
      var e3 := if attempt < max then Sleep(e2) else e2;
      var r := ConnectFrom(Client(false, true), e3, attempt + 1, max);
      assert ConnectFrom(c, e, attempt, max) == r;
      FailedAttemptCounts(e, attempt == max, k);
      FailedAttemptCounts(e, attempt == max, Dials);
      if attempt < max {
        ConnectCounts(Client(false, true), e3, attempt + 1, max, k);
        ConnectCounts(Client(false, true), e3, attempt + 1, max, Dials);
        assert Added(e, r.1, k) == Added(e, e3, k) + Added(e3, r.1, k);
        assert Added(e, r.1, Dials) == Added(e, e3, Dials) + Added(e3, r.1, Dials);
      } else {
        assert r == (Client(false, true), e3, false);
      }
    }
  }

  /** The loop dials at least once and at most once per attempt left. */
  lemma {:induction false} ConnectDials(c: Client, e: Env, attempt: int, max: int)
    requires 1 <= attempt <= max
    ensures var d := Added(e, ConnectFrom(c, e, attempt, max).1, Dials);
      1 <= d <= max + 1 - attempt
    decreases max + 1 - attempt
  {
    var (e1, ok) := RobotDial(e);
    if ok {
      DialCounts(e, Dials);
    } else {
      var e2 := RobotHangUp(e1);
      var e3 := if attempt < max then Sleep(e2) else e2;
      FailedAttemptCounts(e, attempt == max, Dials);
      if attempt < max {
        assert ConnectFrom(c, e, attempt, max) == ConnectFrom(Client(false, true), e3, attempt + 1, max);
        ConnectDials(Client(false, true), e3, attempt + 1, max);
      }
    }
  }

  /** `connect()` succeeds exactly when one of the attempts it has left succeeds. */
  lemma {:induction false} ConnectSucceedsIff(c: Client, e: Env, attempt: int, max: int)
    requires 1 <= attempt <= max
    ensures var n := max + 1 - attempt;
      var k := if n < |e.robotDials| then n else |e.robotDials|;
      ConnectFrom(c, e, attempt, max).2 <==> true in e.robotDials[..k]
    decreases max + 1 - attempt
  {
    var d := e.robotDials;
    var n := max + 1 - attempt;
    var k := if n < |d| then n else |d|;
    if d != [] && d[0] {
      assert d[..k][0] in d[..k];
    } else {
      var (e1, ok) := RobotDial(e);
      var e2 := RobotHangUp(e1);
      var e3 := if attempt < max then Sleep(e2) else e2;
      assert e3.robotDials == Rest(d);
      if d != [] {
        assert d[..k] == [d[0]] + d[1..][..k - 1];
      }
      if attempt < max {
        ConnectSucceedsIff(Client(false, true), e3, attempt + 1, max);
      }
    }
  }

  /** `disconnect()`: closes and clears `connected` only when a socket is set. */
  function AfterDisconnect(c: Client, e: Env): (r: (Client, Env))
    ensures c.hasSock ==> !r.0.connected
    ensures !c.hasSock ==> r == (c, e)
    ensures r.1.robotExchanges == e.robotExchanges
  {
    if c.hasSock then (c.(connected := false), RobotHangUp(e)) else (c, e)
  }

  /** The reconnect before a retry: disconnect, wait, then a full `connect()`. */
  function Reconnect(c: Client, e: Env, maxConnect: int): (r: (Client, Env, bool))
    ensures r.2 ==> r.0.connected
    ensures r.1.robotExchanges == e.robotExchanges
  {
    var (c1, e1) := AfterDisconnect(c, e);
    ConnectFrom(c1, Sleep(e1), 1, maxConnect)
  }

  /** A reply counts only if it arrived and is not empty once stripped. */
  predicate Answers(x: Exchange) {
    x.Replied? && Strip(x.text) != ""
  }

  /** How one pass of the retry loop ended: go round again, or return the reply. */
  datatype Step = Again(c: Client, e: Env) | Answered(c: Client, e: Env, reply: string)

  /** The start of a pass: reconnect when it is a retry; the pass may send only if that
      reconnect succeeded (a retry) or the client is connected (the first pass). */
  function Prepare(c: Client, e: Env, retry: int, maxConnect: int): (r: (Client, Env, bool))
    ensures r.2 ==> r.0.connected
    ensures retry <= 0 ==> r == (c, e, c.connected)
    ensures r.1.robotExchanges == e.robotExchanges
  {
    if retry > 0 then
      var r := Reconnect(c, e, maxConnect);
      (r.0, r.1, r.2 && r.0.connected)
    else (c, e, c.connected)
  }

  /** The rest of a pass: send the message once and keep the reply if it is not empty. */
  function Exchange(c: Client, e: Env, msg: string): (s: Step)
    ensures s.Answered? <==> Answers(Next(e.robotExchanges, TimedOut))
    ensures s.Answered? ==> s.reply == Strip(Next(e.robotExchanges, TimedOut).text) && s.reply != ""
    ensures s.e.robotExchanges == Rest(e.robotExchanges)
  {
    var (e2, x) := RobotTalk(e, msg);
    if Answers(x) then Answered(c, e2, Strip(x.text)) else Again(c, e2)
  }

  /** One pass of `while retry_count < max_retries`: a failure without sending when the
      reconnect fails or the client is not connected, otherwise one exchange. */
  function Iteration(c: Client, e: Env, msg: string, retry: int, maxConnect: int): (s: Step)
    ensures s.Answered? ==> s.reply != ""
    ensures s.e.robotExchanges == e.robotExchanges || s.e.robotExchanges == Rest(e.robotExchanges)
  {
    var p := Prepare(c, e, retry, maxConnect);
    if !p.2 then Again(p.0, p.1) else Exchange(p.0, p.1, msg)
  }

  /** The retry loop from `retry` failures on. */
  function RetryFrom(c: Client, e: Env, msg: string, retry: int, maxRetries: int, maxConnect: int): (r: (Client, Env, Option<string>))
    ensures r.2.Some? ==> r.2.value != ""
    ensures retry >= maxRetries ==> r == (c, e, None)
    decreases maxRetries - retry
  {
    if retry >= maxRetries then (c, e, None)
    else
      match Iteration(c, e, msg, retry, maxConnect)
      case Answered(c1, e1, reply) => (c1, e1, Some(reply))
      case Again(c1, e1) => RetryFrom(c1, e1, msg, retry + 1, maxRetries, maxConnect)
  }

  /** The first pass never disconnects or reconnects: a client that is not connected fails it
      without sending, a connected one sends the frame once. */
  lemma FirstIteration(c: Client, e: Env, msg: string, maxConnect: int)
    ensures !c.connected ==> Iteration(c, e, msg, 0, maxConnect) == Again(c, e)
    ensures c.connected ==> Iteration(c, e, msg, 0, maxConnect).e.trace == e.trace + [RobotSend(msg)]
  {
  }

  /** A reconnect sends nothing and dials at most `maxConnect` times. */
  lemma ReconnectCounts(c: Client, e: Env, maxConnect: int)
    requires 0 <= maxConnect
    ensures var r := Reconnect(c, e, maxConnect);
      Added(e, r.1, Sends) == 0 && Added(e, r.1, Dials) <= maxConnect
  {
    var (cd, ed) := AfterDisconnect(c, e);
    if c.hasSock {
      CountEmit(e, RobotClose, Dials);
      CountEmit(e, RobotClose, Sends);
    }
    var es := Sleep(ed);
    CountEmit(ed, Wait, Dials);
    CountEmit(ed, Wait, Sends);
    if 1 <= maxConnect {
      ConnectCounts(cd, es, 1, maxConnect, Sends);
      ConnectDials(cd, es, 1, maxConnect);
    }
  }

  /** The start of a pass sends nothing, and dials only when it is a retry. */
  lemma PrepareCounts(c: Client, e: Env, retry: int, maxConnect: int)
    requires 0 <= maxConnect
    ensures var p := Prepare(c, e, retry, maxConnect);
      Added(e, p.1, Sends) == 0 && Added(e, p.1, Dials) <= (if retry > 0 then maxConnect else 0)
  {
    if retry > 0 {
      ReconnectCounts(c, e, maxConnect);
    }
  }

  /** An exchange is exactly one send. */
  lemma ExchangeCounts(c: Client, e: Env, msg: string, k: Kind)
    ensures Added(e, Exchange(c, e, msg).e, k) == (if k == Sends then 1 else 0)
  {
    CountEmit(e, RobotSend(msg), k);
  }

  /** A pass sends at most once, and dials only when it is a retry, at most `maxConnect` times. */
  lemma IterationCounts(c: Client, e: Env, msg: string, retry: int, maxConnect: int)
    requires 0 <= maxConnect
    ensures var s := Iteration(c, e, msg, retry, maxConnect);
      Added(e, s.e, Sends) <= 1 &&
      Added(e, s.e, Dials) <= (if retry > 0 then maxConnect else 0)
  {
    var p := Prepare(c, e, retry, maxConnect);
    PrepareCounts(c, e, retry, maxConnect);
    if p.2 {
      ExchangeCounts(p.0, p.1, msg, Sends);
      ExchangeCounts(p.0, p.1, msg, Dials);
    }
  }

  /** The send budget: from `retry` failures on, at most `maxRetries - retry` sends. */
  lemma {:induction false} RetrySends(c: Client, e: Env, msg: string, retry: int, maxRetries: int, maxConnect: int)
    requires 0 <= maxConnect
    ensures var r := RetryFrom(c, e, msg, retry, maxRetries, maxConnect);
      Added(e, r.1, Sends) <= (if retry < maxRetries then maxRetries - retry else 0)
    decreases maxRetries - retry
  {
    if retry < maxRetries {
      IterationCounts(c, e, msg, retry, maxConnect);
      var s := Iteration(c, e, msg, retry, maxConnect);
      if s.Again? {
        RetrySends(s.c, s.e, msg, retry + 1, maxRetries, maxConnect);
      }
    }
  }

  /** `n` passes of at most `perPass` each. */
  function Budget(n: int, perPass: int): (b: int)
    ensures 0 <= perPass ==> 0 <= b
    decreases n
  {
    if n <= 0 then 0 else perPass + Budget(n - 1, perPass)
  }

  lemma {:induction false} BudgetIsProduct(n: int, perPass: int)
    requires 0 <= n
    ensures Budget(n, perPass) == n * perPass
    decreases n
  {
    if n > 0 {
      BudgetIsProduct(n - 1, perPass);
    }
  }

  /** The dial budget: every pass that is a retry reconnects with at most `maxConnect` dials. */
  lemma {:induction false} RetryDials(c: Client, e: Env, msg: string, retry: int, maxRetries: int, maxConnect: int)
    requires 1 <= retry && 0 <= maxConnect
    ensures var r := RetryFrom(c, e, msg, retry, maxRetries, maxConnect);
      Added(e, r.1, Dials) <= Budget(maxRetries - retry, maxConnect)
    decreases maxRetries - retry
  {
    if retry < maxRetries {
      IterationCounts(c, e, msg, retry, maxConnect);
      var s := Iteration(c, e, msg, retry, maxConnect);
      assert Budget(maxRetries - retry, maxConnect) == maxConnect + Budget(maxRetries - (retry + 1), maxConnect);
      if s.Again? {
        RetryDials(s.c, s.e, msg, retry + 1, maxRetries, maxConnect);
      }
    }
  }

  /** A whole `send_task` sends at most `maxRetries` times and dials at most `maxConnect` times
      per retry, `(maxRetries - 1) * maxConnect` in all; the first pass never dials. */
  lemma SendTaskBudget(c: Client, e: Env, msg: string, maxRetries: int, maxConnect: int)
    requires 1 <= maxRetries && 0 <= maxConnect
    ensures var r := RetryFrom(c, e, msg, 0, maxRetries, maxConnect);
      Added(e, r.1, Sends) <= maxRetries &&
      Added(e, r.1, Dials) <= (maxRetries - 1) * maxConnect
  {
    RetrySends(c, e, msg, 0, maxRetries, maxConnect);
    IterationCounts(c, e, msg, 0, maxConnect);
    BudgetIsProduct(maxRetries - 1, maxConnect);
    var s := Iteration(c, e, msg, 0, maxConnect);
    if s.Again? {
      RetryDials(s.c, s.e, msg, 1, maxRetries, maxConnect);
    }
  }

  /** No reply on the tape is a non-empty one. */
  predicate Quiet(tape: seq<Exchange>) {
    forall i :: 0 <= i < |tape| ==> !Answers(tape[i])
  }

  /** A robot that never answers with text (timeouts, errors, empty replies) exhausts the budget:
      `send_task` returns `None`. */
  lemma {:induction false} QuietRobotExhausts(c: Client, e: Env, msg: string, retry: int, maxRetries: int, maxConnect: int)
    requires Quiet(e.robotExchanges)
    ensures RetryFrom(c, e, msg, retry, maxRetries, maxConnect).2 == None
    decreases maxRetries - retry
  {
    if retry < maxRetries {
      var s := Iteration(c, e, msg, retry, maxConnect);
      if e.robotExchanges != [] {
        assert !Answers(e.robotExchanges[0]);
      }
      var tape := s.e.robotExchanges;
      assert Quiet(tape) by {
        if tape != e.robotExchanges {
          assert forall i :: 0 <= i < |tape| ==> tape[i] == e.robotExchanges[i + 1];
        }
      }
      QuietRobotExhausts(s.c, s.e, msg, retry + 1, maxRetries, maxConnect);
    }
  }

  /** Against the robot simulator, whose parser expects `(…)` framing, the client's comma framing
      is answered on the first pass with the format error, which the client returns as its reply. */
  lemma SimulatorRejectsClient(c: Client, e: Env, t: Task, maxRetries: int, maxConnect: int)
    requires c.connected && 0 < maxRetries
    requires e.robotExchanges != [] && e.robotExchanges[0] == Replied(MockRobot.Wire(MockRobot.Respond(Strip(ClientFrame(t)))))
    ensures RetryFrom(c, e, ClientFrame(t), 0, maxRetries, maxConnect).2 == Some("ERROR,INVALID_FORMAT")
  {
    MockRobot.ClientFrameRejected(t);
    MockRobot.ErrorStripped();
  }

  /** The test client object. */
  class RobotClient {
    const world: World
    const maxRetries: int
    const maxConnectRetries: int
    var connected: bool
    var hasSock: bool

    constructor (w: World, retries: int, connectRetries: int)
      ensures world == w && maxRetries == retries && maxConnectRetries == connectRetries
      ensures !connected && !hasSock
    {
      world, maxRetries, maxConnectRetries := w, retries, connectRetries;
      connected, hasSock := false, false;
    }

    function State(): Client
      reads this
    {
      Client(connected, hasSock)
    }

    method Connect() returns (ok: bool)
      modifies this, world
      ensures (State(), world.env, ok) == ConnectFrom(old(State()), old(world.env), 1, maxConnectRetries)
    {
      var attempt := 1;
      while attempt <= maxConnectRetries
        invariant 1 <= attempt
        invariant ConnectFrom(State(), world.env, attempt, maxConnectRetries) == ConnectFrom(old(State()), old(world.env), 1, maxConnectRetries)
        decreases maxConnectRetries + 1 - attempt
      {
        hasSock := true;
        var dialled := world.Dial();
        if dialled {
          connected := true;
          return true;
        }
        connected := false;
        world.HangUp();
        if attempt < maxConnectRetries {
          world.Pause();
        }
        attempt := attempt + 1;
      }
      return false;
    }

    method Disconnect()
      modifies this, world
      ensures (State(), world.env) == AfterDisconnect(old(State()), old(world.env))
    {
      if hasSock {
        world.HangUp();
        connected := false;
      }
    }

    method SendTask(t: Task) returns (response: Option<string>)
      modifies this, world
      ensures (State(), world.env, response) == RetryFrom(old(State()), old(world.env), ClientFrame(t), 0, maxRetries, maxConnectRetries)
    {
      var retry := 0;
      while retry < maxRetries
        invariant 0 <= retry
        invariant RetryFrom(State(), world.env, ClientFrame(t), retry, maxRetries, maxConnectRetries) == RetryFrom(old(State()), old(world.env), ClientFrame(t), 0, maxRetries, maxConnectRetries)
        decreases maxRetries - retry
      {
        if retry > 0 {
          Disconnect();
          world.Pause();
          var ok := Connect();
          if !ok {
            retry := retry + 1;
            continue;
          }
        }
        if !connected {
          retry := retry + 1;
          continue;
        }
        var x := world.Talk(ClientFrame(t));
        if Answers(x) {
          return Some(Strip(x.text));
        }
        retry := retry + 1;
      }
      return None;
    }

    method Run(c: Command) returns (response: Option<string>)
      modifies this, world
      ensures (State(), world.env, response) == RetryFrom(old(State()), old(world.env), ClientFrame(ToTask(c)), 0, maxRetries, maxConnectRetries)
    {
      response := SendTask(ToTask(c));
    }
  }
}
