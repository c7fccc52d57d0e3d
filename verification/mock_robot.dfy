/** The robot simulator's side of the protocol: parse one received message, answer it, and the
    per-connection loop that does so until the peer sends nothing. */
module MockRobot {
  import opened Options
  import opened Text
  import opened RobotProtocol

  const UnknownTask: string := "알 수 없는 Task"

  /** The display name the simulator prints for a task number. */
  function TaskName(num: int): (name: string)
    ensures 0 <= num <= 8 <==> name != UnknownTask
  {
    if num == 0 then "로봇 초기화"
    else if num == 1 then "툴 플레이트 초기화"
    else if num == 2 then "그리퍼 장착"
    else if num == 3 then "그리퍼 탈착"
    else if num == 4 then "석션 장착"
    else if num == 5 then "석션 탈착"
    else if num == 6 then "블럭 P&P"
    else if num == 7 then "레고 P&P"
    else if num == 8 then "잔량배출 P&P"
    else UnknownTask
  }

  /** `int` of each field in turn; the first one that is not an integer fails them all. */
  function ParseInts(fields: seq<string>): (r: Option<seq<int>>)
    ensures r.Some? <==> forall i :: 0 <= i < |fields| ==> ParseInt(fields[i]).Some?
    ensures r.Some? ==> |r.value| == |fields| && forall i :: 0 <= i < |fields| ==> ParseInt(fields[i]) == Some(r.value[i])
  {
    if fields == [] then Some([])
    else
      match (ParseInt(fields[0]), ParseInts(fields[1..]))
      case (Some(n), Some(ns)) => Some([n] + ns)
      case _ => None
  }

  /** `int` of fields 0..4 of the split message; fewer than five fields is the IndexError. */
  function ParseFields(values: seq<string>): (r: Option<Task>)
    ensures r.Some? <==> |values| >= 5 && forall i :: 0 <= i < 5 ==> ParseInt(values[i]).Some?
    ensures r.Some? ==> Values(r.value) == [ParseInt(values[0]).value, ParseInt(values[1]).value,
                          ParseInt(values[2]).value, ParseInt(values[3]).value, ParseInt(values[4]).value]
  {
    if |values| < 5 then None
    else
      match ParseInts(values[..5])
      case Some(ns) => Some(Task(ns[0], ns[1], ns[2], ns[3], ns[4]))
      case None => None
  }

  /** `data.strip('()').split(',')`, then the five fields; either failure is the parse error
      (`None`). Fields after the fifth are not read. */
  function ParseMessage(data: string): Option<Task> {
    ParseFields(Split(StripParens(data), ','))
  }

  /** The simulator's two answers. */
  datatype Reply = Ack(task: int) | InvalidFormat

  /** The reply as sent: `f"OK,{task_num}\n"` or `"ERROR,INVALID_FORMAT\n"`. */
  function Wire(r: Reply): string {
    match r
    case Ack(task) => "OK," + IntToString(task) + "\n"
    case InvalidFormat => "ERROR,INVALID_FORMAT\n"
  }

  /** What the peer reads back after its own `strip()`: the reply without its newline. */
  lemma AckStripped(n: int)
    ensures Strip(Wire(Ack(n))) == "OK," + IntToString(n)
  {
    var d := IntToString(n);
    var s := "OK," + d;
    assert s[|s| - 1] == d[|d| - 1];
    assert Wire(Ack(n)) == s + "\n";
    StripLine(s);
  }

  lemma ErrorStripped()
    ensures Strip(Wire(InvalidFormat)) == "ERROR,INVALID_FORMAT"
  {
    assert Wire(InvalidFormat) == "ERROR,INVALID_FORMAT" + "\n";
    StripLine("ERROR,INVALID_FORMAT");
  }

  /** The reply to one stripped, non-empty message. */
  function Respond(data: string): Reply {
    match ParseMessage(data)
    case Some(t) => Ack(t.num)
    case None => InvalidFormat
  }

  /** Fields that all read as integers read as the list of those integers. */
  lemma {:induction false} ParseIntsAll(fields: seq<string>, ns: seq<int>)
    requires |ns| == |fields|
    requires forall i :: 0 <= i < |fields| ==> ParseInt(fields[i]) == Some(ns[i])
    ensures ParseInts(fields) == Some(ns)
    decreases |fields|
  {
    if fields != [] {
      ParseIntsAll(fields[1..], ns[1..]);
      assert ns == [ns[0]] + ns[1..];
    }
  }

  /** Each `str(n)` reads back as `n`. */
  lemma StringsRead(ns: seq<int>)
    ensures forall i :: 0 <= i < |ns| ==> ParseInt(Strings(ns)[i]) == Some(ns[i])
  {
    forall i | 0 <= i < |ns|
      ensures ParseInt(Strings(ns)[i]) == Some(ns[i])
    {
      ParseIntToString(ns[i]);
    }
  }

  /** Reading back `str` of each integer gives the integers. */
  lemma ParseIntsStrings(ns: seq<int>)
    ensures ParseInts(Strings(ns)) == Some(ns)
  {
    StringsRead(ns);
    ParseIntsAll(Strings(ns), ns);
  }

  /** Fields 0..4 decide the task; whatever follows them is ignored. */
  lemma ParsesFirstFive(t: Task, rest: seq<string>)
    ensures ParseFields(Fields(t) + rest) == Some(t)
  {
    assert (Fields(t) + rest)[..5] == Fields(t);
    ParseIntsStrings(Values(t));
  }

  /** Fewer than five fields is always a format error. */
  lemma ShortMessageRejected(data: string)
    requires |Split(StripParens(data), ',')| < 5
    ensures Respond(data) == InvalidFormat
  {
  }

  /** A message is refused exactly when it splits into fewer than five fields or one of the
      first five is not an integer; otherwise it is acknowledged with its first field. */
  lemma RespondRejectsIff(data: string)
    ensures var values := Split(StripParens(data), ',');
            && (Respond(data) == InvalidFormat
                <==> |values| < 5 || exists k :: 0 <= k < 5 && ParseInt(values[k]).None?)
            && (Respond(data).Ack? ==> Respond(data).task == ParseInt(values[0]).value)
  {
  }

  /** In particular, any non-integer among the first five fields is a format error. */
  lemma NonIntegerRejected(data: string, k: nat)
    requires k < 5 && k < |Split(StripParens(data), ',')| && ParseInt(Split(StripParens(data), ',')[k]).None?
    ensures Respond(data) == InvalidFormat
  {
    RespondRejectsIff(data);
  }

  /** `strip()` removes the trailing newline of a framed message and nothing else. */
  lemma StripFrame(open: char, body: string, close: char)
    requires open !in Whitespace && close !in Whitespace
    ensures Strip([open] + body + [close] + "\n") == [open] + body + [close]
  {
    var inner := [open] + body + [close];
    assert inner[|inner| - 1] == close;
    StripLine(inner);
  }

  /** Non-empty fields free of commas and parentheses, as `str(int)` produces. */
  predicate Plain(f: seq<string>) {
    |f| >= 1 && forall i :: 0 <= i < |f| ==> f[i] != [] && ',' !in f[i] && '(' !in f[i] && ')' !in f[i]
  }

  lemma FieldsPlain(t: Task)
    ensures |Fields(t)| == 5 && Plain(Fields(t))
  {
  }

  /** `strip('()')` removes exactly the enclosing parentheses around plain joined fields. */
  lemma StripParensJoin(f: seq<string>)
    requires Plain(f)
    ensures StripParens("(" + Join(f, ',') + ")") == Join(f, ',')
  {
    var j := Join(f, ',');
    JoinStart(f, ',');
    JoinEnd(f, ',');
    assert j[0] == f[0][0] && j[0] in f[0];
    var l := f[|f| - 1];
    assert j[|j| - 1] == l[|l| - 1] && j[|j| - 1] in l;
    var s := "(" + j + ")";
    assert TrimLeft(s, Parens) == TrimLeft(j + ")", Parens) by { assert s[1..] == j + ")"; }
    assert TrimLeft(j + ")", Parens) == j + ")" by { assert (j + ")")[0] == j[0]; }
    assert TrimRight(j + ")", Parens) == TrimRight(j, Parens) by { assert (j + ")")[..|j|] == j; }
    assert TrimRight(j, Parens) == j;
  }

  /** `strip()` then `strip('()')` of plain fields framed as `(f0,…,fn)\n` leaves the
      comma-joined fields. */
  lemma FramedBody(f: seq<string>)
    requires Plain(f)
    ensures StripParens(Strip("(" + Join(f, ',') + ")\n")) == Join(f, ',')
  {
    var j := Join(f, ',');
    assert "(" + j + ")\n" == ['('] + j + [')'] + "\n";
    StripFrame('(', j, ')');
    StripParensJoin(f);
  }

  /** Splitting the comma-joined fields at commas gives the fields back. */
  lemma SplitFields(t: Task)
    ensures Split(Join(Fields(t), ','), ',') == Fields(t)
  {
    FieldsPlain(t);
    SplitJoin(Fields(t), ',');
  }

  /** Round trip: the simulator reads back exactly the task the server's controller framed. */
  lemma ServerFrameParses(t: Task)
    ensures ParseMessage(Strip(ServerFrame(t))) == Some(t)
  {
    FieldsPlain(t);
    FramedBody(Fields(t));
    SplitFields(t);
    assert Fields(t) + [] == Fields(t);
    ParsesFirstFive(t, []);
  }

  /** Any task number, in 0..8 or not, is acknowledged with `OK,<number>`. */
  lemma ServerFrameAcknowledged(t: Task)
    ensures Respond(Strip(ServerFrame(t))) == Ack(t.num)
    ensures Wire(Respond(Strip(ServerFrame(t)))) == "OK," + IntToString(t.num) + "\n"
  {
    ServerFrameParses(t);
  }

  /** The test client's framing starts with a comma, so the first field is empty and the
      simulator answers every such message with a format error. */
  lemma ClientFrameRejected(t: Task)
    ensures Respond(Strip(ClientFrame(t))) == InvalidFormat
  {
    var j := Join(Fields(t), ',');
    var inner := [','] + j + [','];
    assert ClientFrame(t) == inner + "\n";
    StripFrame(',', j, ',');
    TrimKeeps(inner, Parens);
    var values := Split(inner, ',');
    assert values == [""] + Split(inner[1..], ',');
    ParseIntEmpty();
    if |values| >= 5 {
      assert values[..5][0] == "";
    }
    assert ParseFields(values) == None;
  }

  /** One connection: each received chunk (decoded and stripped) is answered in order, until the
      first empty one, which is how a closed peer shows up. `handled` is how many were answered. */
  method HandleClient(received: seq<string>) returns (replies: seq<Reply>, handled: nat)
    ensures handled <= |received| && |replies| == handled
    ensures forall j :: 0 <= j < handled ==> Strip(received[j]) != "" && replies[j] == Respond(Strip(received[j]))
    ensures handled < |received| ==> Strip(received[handled]) == ""
  {
    replies, handled := [], 0;
    while handled < |received|
      invariant handled <= |received| && |replies| == handled
      invariant forall j :: 0 <= j < handled ==> Strip(received[j]) != "" && replies[j] == Respond(Strip(received[j]))
    {
      var data := Strip(received[handled]);
      if data == "" {
        return;
      }
      replies := replies + [Respond(data)];
      handled := handled + 1;
    }
  }
}
