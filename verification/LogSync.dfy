/** Log replication: one log from the client that writes it over the server to a subscriber. */
module LogSync {
  import opened Wrappers

  /** The last `n` of the lines; a negative number keeps all of them. */
  function Last<L>(n: int, lines: seq<L>): seq<L> {
    if n < 0 || |lines| <= n then lines else lines[|lines| - n..]
  }

  /** A subscriber that keeps `c` lines is served by a server that keeps `k`. */
  predicate KeepsEnough(k: int, c: int) {
    k < 0 || 0 <= c <= k
  }

  lemma LastOfLast<L>(k: int, c: int, lines: seq<L>)
    requires KeepsEnough(k, c)
    ensures Last(c, Last(k, lines)) == Last(c, lines)
  {
  }

  lemma LastOfAppend<L>(c: int, a: seq<L>, b: seq<L>)
    ensures Last(c, Last(c, a) + b) == Last(c, a + b)
  {
    if 0 <= c < |a| {
      var t := a[|a| - c..];
      assert a + b == a[..|a| - c] + (t + b);
    }
  }

  lemma SuffixIsLast<L>(n: int, lines: seq<L>, r: seq<L>)
    requires |r| <= |lines| && r == lines[|lines| - |r|..]
    requires r == lines || (n >= 0 && |r| >= n)
    requires n >= 0 ==> |r| <= n
    ensures r == Last(n, lines)
  {
  }

  // ------------------------------------------------------------------
  // The three places that keep lines.

  /** The log of the client that writes it. */
  class LogData<L> {
    var data: seq<L>
    var sentLines: nat

    ghost predicate Valid()
      reads this
    {
      sentLines <= |data|
    }

    constructor ()
      ensures Valid() && data == [] && sentLines == 0
    {
      data, sentLines := [], 0;
    }

    /** writeLog. */
    method Append(line: L)
      requires Valid()
      modifies this`data
      ensures Valid() && data == old(data) + [line]
    {
      data := data + [line];
    }

    /** What getDiff returns is what was appended since the last call of either. */
    method GetDiff() returns (lines: seq<L>)
      requires Valid()
      modifies this`sentLines
      ensures Valid() && sentLines == |data|
      ensures data == data[..old(sentLines)] + lines
    {
      lines := data[sentLines..];
      sentLines := |data|;
    }

    method GetAll() returns (lines: seq<L>)
      requires Valid()
      modifies this`sentLines
      ensures Valid() && sentLines == |data| && lines == data
    {
      lines := data;
      sentLines := |data|;
    }
  }

  /** The server's copy. */
  class ServerLog<L> {
    const keepLog: int
    var log: Option<seq<L>>

    constructor (keepLog: int)
      ensures this.keepLog == keepLog && log == None
    {
      this.keepLog, log := keepLog, None;
    }

    /** The log branch of MemberData::onRecv. Only the first message is itself cut down. */
    method OnRecv(message: seq<L>) returns (forward: seq<L>)
      modifies this
      ensures (log, forward) == Received(keepLog, old(log), message)
    {
      if log.None? {
        var data := message;
        while keepLog >= 0 && |data| > keepLog
          invariant |data| <= |message| && data == message[|message| - |data|..]
          invariant data == message || (keepLog >= 0 && |data| >= keepLog)
        {
          data := data[1..];
        }
        SuffixIsLast(keepLog, message, data);
        log := Some(data);
        forward := data;
      } else {
        var thisLog := log.value;
        for i := 0 to |message|
          invariant thisLog == log.value + message[..i]
        {
          thisLog := thisLog + [message[i]];
        }
        assert message[..|message|] == message;
        ghost var all := thisLog;
        while keepLog >= 0 && |thisLog| > keepLog
          invariant |thisLog| <= |all| && thisLog == all[|all| - |thisLog|..]
          invariant thisLog == all || (keepLog >= 0 && |thisLog| >= keepLog)
        {
          thisLog := thisLog[1..];
        }
        SuffixIsLast(keepLog, all, thisLog);
        log := Some(thisLog);
        forward := message;
      }
    }
  }

  function Received<L>(k: int, log: Option<seq<L>>, message: seq<L>): (Option<seq<L>>, seq<L>) {
    if log.None? then (Some(Last(k, message)), Last(k, message))
    else (Some(Last(k, log.value + message)), message)
  }

  /** A subscriber's copy. */
  class ClientLog<L> {
    var data: seq<L>

    constructor ()
      ensures data == []
    {
      data := [];
    }

    /** The log reply branch of ClientData::onRecv. */
    method OnRecv(lines: seq<L>, keepLines: int)
      modifies this
      ensures data == Last(keepLines, old(data) + lines)
    {
      var begin := 0;
      ghost var was := data;
      if keepLines >= 0 {
        if |lines| > keepLines {
          begin := |lines| - keepLines;
        }
        while |data| + (|lines| - begin) > keepLines
          invariant |data| <= |was| && data == was[|was| - |data|..]
          invariant data == was || |data| + (|lines| - begin) >= keepLines
        {
          data := data[1..];
        }
      }
      Clipped(keepLines, was, lines, data, begin);
      AppendFrom(lines, begin);
    }

    /** The loop that appends the lines from `begin` on. */
    method AppendFrom(lines: seq<L>, begin: nat)
      requires begin <= |lines|
      modifies this
      ensures data == old(data) + lines[begin..]
    {
      var i := begin;
      while i < |lines|
        invariant begin <= i <= |lines| && data == old(data) + lines[begin..i]
      {
        data := data + [lines[i]];
        i := i + 1;
      }
      assert lines[begin..i] == lines[begin..];
    }
  }

  lemma Clipped<L>(n: int, was: seq<L>, lines: seq<L>, kept: seq<L>, begin: nat)
    requires begin == if 0 <= n < |lines| then |lines| - n else 0
    requires |kept| <= |was| && kept == was[|was| - |kept|..]
    requires kept == was || (n >= 0 && |kept| + (|lines| - begin) >= n)
    requires n >= 0 ==> |kept| + (|lines| - begin) <= n
    ensures kept + lines[begin..] == Last(n, was + lines)
  {
    SuffixIsLast(n, was + lines, kept + lines[begin..]);
  }

  // ------------------------------------------------------------------
  // A session. A packet for the subscriber is tagged with how much of the writer's log
  // had reached the server when it was packed.

  datatype Packet<L> = Packet(lines: seq<L>, upTo: nat)

  datatype State<L> = State(
    log: seq<L>, sentLines: nat, up: seq<seq<L>>,
    server: Option<seq<L>>, arrived: nat,
    requested: bool, down: seq<Packet<L>>, seen: Option<seq<L>>, seenUpTo: nat)

  datatype Action<L> = Append(line: L) | Sync | Receive | Request | Deliver

  ghost predicate Next<L>(k: int, c: int, s: State<L>, a: Action<L>, t: State<L>) {
    match a
    case Append(line) =>
      t == s.(log := s.log + [line])
    case Sync =>
      // Only a log written since the last transfer is part of the next one.
      && s.sentLines < |s.log|
      && t == s.(up := s.up + [s.log[s.sentLines..]], sentLines := |s.log|)
    case Receive =>
      && s.up != []
      && var (server, forward) := Received(k, s.server, s.up[0]);
      var arrived := s.arrived + |s.up[0]|;
      t == s.(
        up := s.up[1..], server := server, arrived := arrived,
        down := if s.requested then s.down + [Packet(forward, arrived)] else s.down)
    case Request =>
      // The same request can arrive again: `Subscriptions.OneRequestSentTwice`.
      t == s.(
        requested := true,
        down := if s.server.Some? then s.down + [Packet(s.server.value, s.arrived)] else s.down)
    case Deliver =>
      && s.down != []
      && var before := if s.seen.Some? then s.seen.value else [];
      t == s.(
        down := s.down[1..], seen := Some(Last(c, before + s.down[0].lines)), seenUpTo := s.down[0].upTo)
  }

  /** A session starts with everything the client has, if it has anything. */
  ghost predicate Init<L>(s: State<L>) {
    && s.sentLines == |s.log| && s.up == (if s.log == [] then [] else [s.log])
    && s.server.None? && s.arrived == 0
    && !s.requested && s.down == [] && s.seen.None? && s.seenUpTo == 0
  }

  ghost predicate IsRun<L>(k: int, c: int, states: seq<State<L>>, actions: seq<Action<L>>) {
    && |states| == |actions| + 1 && Init(states[0])
    && forall i :: 0 <= i < |actions| ==> Next(k, c, states[i], actions[i], states[i + 1])
  }

  function Concat<L>(messages: seq<seq<L>>): seq<L> {
    if messages == [] then [] else messages[0] + Concat(messages[1..])
  }

  /** Where the subscriber stands: nothing yet, or a number of lines of the writer's log. */
  function Position<L>(seen: Option<seq<L>>, upTo: nat): Option<nat> {
    if seen.Some? then Some(upTo) else None
  }

  /** The waiting packets continue each other from the given position; a packet that ends where the
      one before it did is the whole log once more, the answer to a repeated request. */
  ghost predicate Continues<L>(k: int, log: seq<L>, at: Option<nat>, down: seq<Packet<L>>)
    decreases |down|
  {
    down != [] ==>
      && 0 < down[0].upTo <= |log|
      && (if at.None? || at.value == down[0].upTo then down[0].lines == Last(k, log[..down[0].upTo])
          else at.value < down[0].upTo && down[0].lines == log[at.value..down[0].upTo])
      && Continues(k, log, Some(down[0].upTo), down[1..])
  }

  function EndOf<L>(at: Option<nat>, down: seq<Packet<L>>): Option<nat> {
    if down == [] then at else Some(down[|down| - 1].upTo)
  }

  /** The way up: what is waiting is what has not arrived, and the server has the last lines. */
  ghost predicate ServerInv<L>(k: int, s: State<L>) {
    && s.arrived <= s.sentLines <= |s.log|
    && Concat(s.up) == s.log[s.arrived..s.sentLines]
    && [] !in s.up
    && (if s.server.None? then s.arrived == 0 else s.arrived > 0 && s.server.value == Last(k, s.log[..s.arrived]))
  }

  /** The way down: what is waiting continues what the subscriber got to where the server is. */
  ghost predicate SubscriberInv<L>(k: int, s: State<L>) {
    && (s.seen.Some? ==> 0 < s.seenUpTo <= |s.log|)
    && Continues(k, s.log, Position(s.seen, s.seenUpTo), s.down)
    && (!s.requested ==> s.seen.None? && s.down == [])
    && (s.requested ==>
          EndOf(Position(s.seen, s.seenUpTo), s.down) == if s.server.Some? then Some(s.arrived) else None)
  }

  ghost predicate Inv<L>(k: int, s: State<L>) {
    ServerInv(k, s) && SubscriberInv(k, s)
  }

  /** The subscriber has the last `c` lines of the log up to the message it got last. */
  ghost predicate SeenRight<L>(c: int, s: State<L>) {
    s.seen.Some? ==> s.seenUpTo <= |s.log| && s.seen.value == Last(c, s.log[..s.seenUpTo])
  }

  /** A request that reaches the server again when it has something of the log, but fewer lines than
      the subscriber keeps. */
  predicate HarmsReplica<L>(c: int, s: State<L>, a: Action<L>) {
    a.Request? && s.requested && s.server.Some? && !(0 <= c <= s.arrived)
  }

  /** One of the waiting packets is the answer to such a request. */
  predicate HarmWaits<L>(c: int, at: Option<nat>, down: seq<Packet<L>>)
    decreases |down|
  {
    down != []
    && ((at == Some(down[0].upTo) && !(0 <= c <= down[0].upTo))
        || HarmWaits(c, Some(down[0].upTo), down[1..]))
  }

  lemma {:induction false} ContinuesInLongerLog<L>(
    k: int, log: seq<L>, line: L, at: Option<nat>, down: seq<Packet<L>>)
    requires Continues(k, log, at, down)
    ensures Continues(k, log + [line], at, down)
    decreases |down|
  {
    if down != [] {
      assert (log + [line])[..down[0].upTo] == log[..down[0].upTo];
      if at.Some? {
        assert (log + [line])[at.value..down[0].upTo] == log[at.value..down[0].upTo];
      }
      ContinuesInLongerLog(k, log, line, Some(down[0].upTo), down[1..]);
    }
  }

  lemma {:induction false} ContinuesWithOneMore<L>(
    k: int, log: seq<L>, at: Option<nat>, down: seq<Packet<L>>, p: Packet<L>)
    requires Continues(k, log, at, down) && Continues(k, log, EndOf(at, down), [p])
    ensures Continues(k, log, at, down + [p]) && EndOf(at, down + [p]) == Some(p.upTo)
    decreases |down|
  {
    if down == [] {
      assert down + [p] == [p];
    } else {
      assert (down + [p])[1..] == down[1..] + [p];
      assert EndOf(Some(down[0].upTo), down[1..]) == EndOf(at, down);
      ContinuesWithOneMore(k, log, Some(down[0].upTo), down[1..], p);
    }
  }

  lemma {:induction false} ConcatOfAppend<L>(a: seq<seq<L>>, m: seq<L>)
    ensures Concat(a + [m]) == Concat(a) + m
  {
    if a == [] {
      assert a + [m] == [m];
      assert Concat([m]) == m;
    } else {
      assert (a + [m])[1..] == a[1..] + [m];
      ConcatOfAppend(a[1..], m);
    }
  }

  lemma AppendKeepsInv<L>(k: int, s: State<L>, line: L)
    requires Inv(k, s)
    ensures Inv(k, s.(log := s.log + [line]))
  {
    var log := s.log + [line];
    ContinuesInLongerLog(k, s.log, line, Position(s.seen, s.seenUpTo), s.down);
    assert log[s.arrived..s.sentLines] == s.log[s.arrived..s.sentLines];
    assert log[..s.arrived] == s.log[..s.arrived];
  }

  lemma SyncKeepsInv<L>(k: int, c: int, s: State<L>, t: State<L>)
    requires Inv(k, s) && Next(k, c, s, Sync, t)
    ensures Inv(k, t)
  {
    ConcatOfAppend(s.up, s.log[s.sentLines..]);
    assert s.log[s.arrived..] == s.log[s.arrived..s.sentLines] + s.log[s.sentLines..];
  }

  /** The first waiting message and the rest, as parts of the log. */
  lemma FirstMessage<L>(log: seq<L>, from: nat, to: nat, m: seq<L>, rest: seq<L>)
    requires from <= to <= |log| && log[from..to] == m + rest
    ensures from + |m| <= to && m == log[from..from + |m|] && rest == log[from + |m|..to]
    ensures log[..from + |m|] == log[..from] + m
  {
    assert |m + rest| == to - from;
    assert m == log[from..to][..|m|];
    assert rest == log[from..to][|m|..];
  }

  /** What the server has afterwards, and what it forwards. */
  lemma ServerKeepsLast<L>(k: int, log: seq<L>, arrived: nat, server: Option<seq<L>>, m: seq<L>)
    requires arrived + |m| <= |log| && m == log[arrived..arrived + |m|] && log[..arrived + |m|] == log[..arrived] + m
    requires if server.None? then arrived == 0 else server.value == Last(k, log[..arrived])
    ensures Received(k, server, m).0 == Some(Last(k, log[..arrived + |m|]))
    ensures Received(k, server, m).1 == if server.None? then Last(k, log[..arrived + |m|]) else m
  {
    if server.Some? {
      LastOfAppend(k, log[..arrived], m);
    } else {
      assert log[..arrived + |m|] == m;
    }
  }

  lemma ForwardContinues<L>(k: int, s: State<L>, p: Packet<L>)
    requires Inv(k, s) && s.requested && s.arrived <= p.upTo <= |s.log| && 0 < p.upTo
    requires p.lines ==
             if s.server.None? || p.upTo == s.arrived then Last(k, s.log[..p.upTo])
             else s.log[s.arrived..p.upTo]
    ensures
      var at := Position(s.seen, s.seenUpTo);
      Continues(k, s.log, at, s.down + [p]) && EndOf(at, s.down + [p]) == Some(p.upTo)
  {
    assert [p][1..] == [];
    assert Continues(k, s.log, EndOf(Position(s.seen, s.seenUpTo), s.down), [p]);
    ContinuesWithOneMore(k, s.log, Position(s.seen, s.seenUpTo), s.down, p);
  }

  lemma ReceiveForwards<L>(k: int, c: int, s: State<L>, t: State<L>)
    requires ServerInv(k, s) && Next(k, c, s, Receive, t)
    ensures t.arrived <= |s.log| && s.arrived < t.arrived
    ensures Received(k, s.server, s.up[0]).1
         == if s.server.None? then Last(k, s.log[..t.arrived]) else s.log[s.arrived..t.arrived]
  {
    FirstMessage(s.log, s.arrived, s.sentLines, s.up[0], Concat(s.up[1..]));
    ServerKeepsLast(k, s.log, s.arrived, s.server, s.up[0]);
  }

  lemma ReceiveKeepsServer<L>(k: int, c: int, s: State<L>, t: State<L>)
    requires ServerInv(k, s) && Next(k, c, s, Receive, t)
    ensures ServerInv(k, t)
  {
    var m, rest := s.up[0], s.up[1..];
    assert m in s.up && [] !in rest;
    assert Concat(s.up) == m + Concat(rest);
    FirstMessage(s.log, s.arrived, s.sentLines, m, Concat(rest));
    ServerKeepsLast(k, s.log, s.arrived, s.server, m);
  }

  lemma ReceiveKeepsInv<L>(k: int, c: int, s: State<L>, t: State<L>)
    requires Inv(k, s) && Next(k, c, s, Receive, t)
    ensures Inv(k, t)
  {
    ReceiveKeepsServer(k, c, s, t);
    if s.requested {
      ReceiveForwards(k, c, s, t);
      ForwardContinues(k, s, Packet(Received(k, s.server, s.up[0]).1, t.arrived));
    }
  }

  lemma RequestKeepsInv<L>(k: int, c: int, s: State<L>, t: State<L>)
    requires Inv(k, s) && Next(k, c, s, Request, t)
    ensures Inv(k, t)
  {
    if s.server.Some? {
      var p := Packet(s.server.value, s.arrived);
      if s.requested {
        ForwardContinues(k, s, p);
      } else {
        assert s.down + [p] == [p];
        assert [p][1..] == [];
      }
    }
  }

  lemma DeliverKeepsInv<L>(k: int, c: int, s: State<L>, t: State<L>)
    requires Inv(k, s) && Next(k, c, s, Deliver, t)
    ensures Inv(k, t)
  {
    assert EndOf(Some(s.down[0].upTo), s.down[1..]) == EndOf(Position(s.seen, s.seenUpTo), s.down);
  }

  lemma StepKeepsInv<L>(k: int, c: int, s: State<L>, a: Action<L>, t: State<L>)
    requires Inv(k, s) && Next(k, c, s, a, t)
    ensures Inv(k, t)
  {
    match a
    case Append(line) => AppendKeepsInv(k, s, line);
    case Sync => SyncKeepsInv(k, c, s, t);
    case Receive => ReceiveKeepsInv(k, c, s, t);
    case Request => RequestKeepsInv(k, c, s, t);
    case Deliver => DeliverKeepsInv(k, c, s, t);
  }

  lemma {:induction false} RunKeepsInv<L>(k: int, c: int, states: seq<State<L>>, actions: seq<Action<L>>, n: nat)
    requires IsRun(k, c, states, actions) && n <= |actions|
    ensures Inv(k, states[n])
  {
    if n == 0 {
      var s := states[0];
      assert Concat([s.log]) == s.log;
      assert s.log[0..|s.log|] == s.log;
    } else {
      RunKeepsInv(k, c, states, actions, n - 1);
      StepKeepsInv(k, c, states[n - 1], actions[n - 1], states[n]);
    }
  }

  // ------------------------------------------------------------------
  // What a repeated request does.

  /** Appending the whole log once more leaves the last `c` lines as they were exactly when there was
      nothing, or already `c` lines of it. */
  lemma WholeLogAgain<L>(k: int, c: int, log: seq<L>)
    requires KeepsEnough(k, c)
    ensures Last(c, Last(c, log) + Last(k, log)) == Last(c, log) <==> (log == [] || 0 <= c <= |log|)
  {
    var all := Last(c, log) + Last(k, log);
    if 0 <= c <= |log| {
      var kept := Last(k, log);
      assert all[|all| - c..] == kept[|kept| - c..] == log[|log| - c..];
    } else if log == [] {
      assert all == [];
    } else {
      assert all == log + log;
    }
  }

  /** A packet that goes on from where the subscriber is keeps it right. */
  lemma NextPacketIsRight<L>(k: int, c: int, s: State<L>, t: State<L>)
    requires Inv(k, s) && Next(k, c, s, Deliver, t) && KeepsEnough(k, c) && SeenRight(c, s)
    requires s.seen.None? || s.seenUpTo != s.down[0].upTo
    ensures SeenRight(c, t)
  {
    var p := s.down[0];
    if s.seen.Some? {
      assert s.log[..p.upTo] == s.log[..s.seenUpTo] + p.lines;
      LastOfAppend(c, s.log[..s.seenUpTo], p.lines);
    } else {
      assert [] + p.lines == p.lines;
      LastOfLast(k, c, s.log[..p.upTo]);
    }
  }

  /** The whole log once more keeps it right exactly when that is harmless. */
  lemma RepeatedPacket<L>(k: int, c: int, s: State<L>, t: State<L>)
    requires Inv(k, s) && Next(k, c, s, Deliver, t) && KeepsEnough(k, c) && SeenRight(c, s)
    requires s.seen.Some? && s.seenUpTo == s.down[0].upTo
    ensures SeenRight(c, t) <==> 0 <= c <= s.seenUpTo
  {
    WholeLogAgain(k, c, s.log[..s.seenUpTo]);
  }

  lemma {:induction false} HarmWithOneMore<L>(c: int, at: Option<nat>, down: seq<Packet<L>>, p: Packet<L>)
    ensures HarmWaits(c, at, down + [p]) <==>
              HarmWaits(c, at, down) || (EndOf(at, down) == Some(p.upTo) && !(0 <= c <= p.upTo))
    decreases |down|
  {
    if down == [] {
      assert down + [p] == [p];
    } else {
      assert (down + [p])[1..] == down[1..] + [p];
      assert EndOf(Some(down[0].upTo), down[1..]) == EndOf(at, down);
      HarmWithOneMore(c, Some(down[0].upTo), down[1..], p);
    }
  }

  predicate Harm<L>(c: int, s: State<L>) {
    HarmWaits(c, Position(s.seen, s.seenUpTo), s.down)
  }

  /** Harm comes onto the way down with a harmful request and with nothing else. */
  lemma HarmComesFromRequests<L>(k: int, c: int, s: State<L>, a: Action<L>, t: State<L>)
    requires Inv(k, s) && Next(k, c, s, a, t) && !a.Deliver?
    ensures Harm(c, t) <==> Harm(c, s) || HarmsReplica(c, s, a)
    ensures SeenRight(c, t) <==> SeenRight(c, s)
  {
    var at := Position(s.seen, s.seenUpTo);
    match a
    case Append(line) =>
      if s.seen.Some? {
        assert t.log[..s.seenUpTo] == s.log[..s.seenUpTo];
      }
    case Sync =>
    case Receive =>
      if s.requested {
        assert s.up[0] != [];
        HarmWithOneMore(c, at, s.down, Packet(Received(k, s.server, s.up[0]).1, t.arrived));
      }
    case Request =>
      if s.server.Some? {
        HarmWithOneMore(c, at, s.down, Packet(s.server.value, s.arrived));
      }
  }

  /** And it makes the subscriber wrong when it is delivered. */
  lemma HarmIsDone<L>(k: int, c: int, s: State<L>, t: State<L>)
    requires Inv(k, s) && Next(k, c, s, Deliver, t) && KeepsEnough(k, c) && SeenRight(c, s)
    ensures (SeenRight(c, t) && !Harm(c, t)) <==> !Harm(c, s)
  {
    if s.seen.None? || s.seenUpTo != s.down[0].upTo {
      NextPacketIsRight(k, c, s, t);
    } else {
      RepeatedPacket(k, c, s, t);
    }
  }

  ghost predicate RightSoFar<L>(c: int, states: seq<State<L>>, n: nat)
    requires n < |states|
  {
    forall i :: 0 <= i <= n ==> SeenRight(c, states[i])
  }

  ghost predicate HarmlessSoFar<L>(c: int, states: seq<State<L>>, actions: seq<Action<L>>, n: nat)
    requires |states| == |actions| + 1 && n <= |actions|
  {
    forall i :: 0 <= i < n ==> !HarmsReplica(c, states[i], actions[i])
  }

  /** One step: right and free of harm afterwards exactly when it was before and does none itself. */
  lemma StepIsExact<L>(k: int, c: int, s: State<L>, a: Action<L>, t: State<L>)
    requires Inv(k, s) && Next(k, c, s, a, t) && KeepsEnough(k, c) && SeenRight(c, s)
    ensures (SeenRight(c, t) && !Harm(c, t)) <==> (!Harm(c, s) && !HarmsReplica(c, s, a))
  {
    if a.Deliver? {
      HarmIsDone(k, c, s, t);
    } else {
      HarmComesFromRequests(k, c, s, a, t);
    }
  }

  lemma OneMoreState<L>(c: int, states: seq<State<L>>, actions: seq<Action<L>>, n: nat)
    requires |states| == |actions| + 1 && 0 < n <= |actions|
    ensures RightSoFar(c, states, n) <==> RightSoFar(c, states, n - 1) && SeenRight(c, states[n])
    ensures HarmlessSoFar(c, states, actions, n) <==>
              HarmlessSoFar(c, states, actions, n - 1) && !HarmsReplica(c, states[n - 1], actions[n - 1])
    ensures RightSoFar(c, states, n) ==> SeenRight(c, states[n - 1])
  {
  }

  lemma RightOneMore<L>(k: int, c: int, states: seq<State<L>>, actions: seq<Action<L>>, n: nat)
    requires IsRun(k, c, states, actions) && n < |actions| && KeepsEnough(k, c)
    requires HarmlessSoFar(c, states, actions, n) <==> (RightSoFar(c, states, n) && !Harm(c, states[n]))
    ensures HarmlessSoFar(c, states, actions, n + 1) <==> (RightSoFar(c, states, n + 1) && !Harm(c, states[n + 1]))
  {
    RunKeepsInv(k, c, states, actions, n);
    OneMoreState(c, states, actions, n + 1);
    assert RightSoFar(c, states, n) ==> SeenRight(c, states[n]);
    if SeenRight(c, states[n]) {
      StepIsExact(k, c, states[n], actions[n], states[n + 1]);
    }
  }

  lemma {:induction false} RightWhileHarmless<L>(
    k: int, c: int, states: seq<State<L>>, actions: seq<Action<L>>, n: nat)
    requires IsRun(k, c, states, actions) && n <= |actions| && KeepsEnough(k, c)
    ensures HarmlessSoFar(c, states, actions, n) <==> (RightSoFar(c, states, n) && !Harm(c, states[n]))
  {
    if n > 0 {
      RightWhileHarmless(k, c, states, actions, n - 1);
      RightOneMore(k, c, states, actions, n - 1);
    }
  }

  /** What the server has at every point of every run: the last `k` lines of what reached it, and the
      rest of what was synced is on its way. */
  lemma ServerHasLast<L>(k: int, c: int, states: seq<State<L>>, actions: seq<Action<L>>, n: nat)
    requires IsRun(k, c, states, actions) && n <= |actions|
    ensures
      var s := states[n];
      && s.arrived <= s.sentLines <= |s.log| && s.log[..s.sentLines] == s.log[..s.arrived] + Concat(s.up)
      && (s.server.Some? ==> s.server.value == Last(k, s.log[..s.arrived]))
  {
    RunKeepsInv(k, c, states, actions, n);
    var s := states[n];
    assert s.log[..s.sentLines] == s.log[..s.arrived] + s.log[s.arrived..s.sentLines];
  }

  /** Bounded replication: a subscriber that asked at any time holds, at every point of the run, the last
      `c` lines of the log up to the message it got last, and everything synced once the channels are
      empty, as long as no request reached the server again while it had something of the log but
      fewer than `c` lines. Once everything sent to the subscriber has been delivered, that is exact. */
  lemma LogReplicated<L>(k: int, c: int, states: seq<State<L>>, actions: seq<Action<L>>, n: nat)
    requires IsRun(k, c, states, actions) && n <= |actions| && KeepsEnough(k, c)
    ensures HarmlessSoFar(c, states, actions, n) ==> RightSoFar(c, states, n)
    ensures states[n].down == [] ==> (RightSoFar(c, states, n) <==> HarmlessSoFar(c, states, actions, n))
    ensures
      var s := states[n];
      HarmlessSoFar(c, states, actions, n) && s.requested && s.up == [] && s.down == []
        && s.sentLines <= |s.log| && s.log[..s.sentLines] != [] ==>
        s.seen == Some(Last(c, s.log[..s.sentLines]))
  {
    RunKeepsInv(k, c, states, actions, n);
    RightWhileHarmless(k, c, states, actions, n);
    assert RightSoFar(c, states, n) ==> SeenRight(c, states[n]);
  }

  /** One line reaches the server, then a request twice, then the subscriber gets both answers. */
  function DoubledRun<L>(line: L): seq<State<L>> {
    var p := Packet([line], 1);
    var start := State([line], 1, [[line]], None, 0, false, [], None, 0);
    var held := start.(up := [], server := Some([line]), arrived := 1);
    var asked := held.(requested := true);
    [start, held, asked.(down := [p]), asked.(down := [p, p]),
     asked.(down := [p], seen := Some([line]), seenUpTo := 1),
     asked.(down := [], seen := Some([line, line]), seenUpTo := 1)]
  }

  lemma DoubledIsSent<L>(k: int, c: int, line: L)
    requires KeepsEnough(k, c) && !(0 <= c <= 1)
    ensures Next(k, c, DoubledRun(line)[0], Receive, DoubledRun(line)[1])
    ensures Next(k, c, DoubledRun(line)[1], Request, DoubledRun(line)[2])
    ensures Next(k, c, DoubledRun(line)[2], Request, DoubledRun(line)[3])
  {
  }

  lemma DoubledIsDelivered<L>(k: int, c: int, line: L)
    requires KeepsEnough(k, c) && !(0 <= c <= 1)
    ensures Next(k, c, DoubledRun(line)[3], Deliver, DoubledRun(line)[4])
    ensures Next(k, c, DoubledRun(line)[4], Deliver, DoubledRun(line)[5])
  {
    assert [] + [line] == [line] && [line] + [line] == [line, line];
  }

  /** A request that arrives twice breaks it for every limit but zero and one: some run leaves the
      subscriber, with all channels empty, with its first line doubled. */
  lemma RepeatedRequestFalls<L>(k: int, c: int, line: L) returns (states: seq<State<L>>, actions: seq<Action<L>>)
    requires KeepsEnough(k, c) && !(0 <= c <= 1)
    ensures IsRun(k, c, states, actions)
    ensures
      var s := states[|actions|];
      && s.requested && s.up == [] && s.down == [] && s.log == [line] && s.sentLines == 1
      && s.seen == Some([line, line])
  {
    DoubledIsSent(k, c, line);
    DoubledIsDelivered(k, c, line);
    states, actions := DoubledRun(line), [Receive, Request, Request, Deliver, Deliver];
  }

  /** A subscriber that keeps more than the server can be short of lines: then some run leaves it,
      with all channels empty, with something else than its last lines. */
  lemma KeepingMoreFalls<L>(k: int, c: int, line: L) returns (states: seq<State<L>>, actions: seq<Action<L>>)
    requires !KeepsEnough(k, c)
    ensures IsRun(k, c, states, actions)
    ensures
      var s := states[|actions|];
      && s.requested && s.up == [] && s.down == [] && s.sentLines <= |s.log|
      && s.seen.Some? && s.seen.value != Last(c, s.log[..s.sentLines])
  {
    var log := seq(k + 1, _ => line);
    var s0 := State(log, k + 1, [log], None, 0, false, [], None, 0);
    var s1 := s0.(requested := true);
    var s2 := s1.(up := [], server := Some(Last(k, log)), arrived := k + 1, down := [Packet(Last(k, log), k + 1)]);
    var s3 := s2.(down := [], seen := Some(Last(c, [] + Last(k, log))), seenUpTo := k + 1);
    states, actions := [s0, s1, s2, s3], [Request, Receive, Deliver];
    assert Next(k, c, s0, Request, s1);
    assert Next(k, c, s1, Receive, s2);
    assert Next(k, c, s2, Deliver, s3);
    assert |Last(c, [] + Last(k, log))| <= k;
    assert Last(c, log[..k + 1]) == log;
  }

  // ------------------------------------------------------------------
  // What the log is.

  function Appended<L>(actions: seq<Action<L>>): seq<L> {
    if actions == [] then []
    else
      var last := actions[|actions| - 1];
      Appended(actions[..|actions| - 1]) + (if last.Append? then [last.line] else [])
  }

  /** Over every run the log is what there was at the start and then every line appended, in order; what
      counts as sent is the whole log as it was at the last sync. */
  lemma {:induction false} LogIsAppended<L>(
    k: int, c: int, states: seq<State<L>>, actions: seq<Action<L>>, n: nat)
    requires IsRun(k, c, states, actions) && n <= |actions|
    ensures states[n].log == states[0].log + Appended(actions[..n])
    ensures n > 0 && actions[n - 1].Sync? ==> states[n].sentLines == |states[n].log|
  {
    if n > 0 {
      LogIsAppended(k, c, states, actions, n - 1);
      assert actions[..n][..n - 1] == actions[..n - 1];
      assert Next(k, c, states[n - 1], actions[n - 1], states[n]);
    }
  }
}
