/** Requests, the thread that owns the connection, and the snapshot it starts each session with. */
module Subscriptions {
  import opened Wrappers

  /** A request as the store holds it: the member, the field and the id. */
  type Request = nat

  /** A queued message: a request, or anything else. */
  datatype Item = Req(request: Request) | Other

  /** Where the connection thread is between two points at which other threads can run. */
  datatype Pc =
    | Disconnected
      /** WebSocket::init has succeeded, the snapshot is not taken yet. */
    | Opened
      /** The snapshot is taken and about to be sent. */
    | HaveFirst(first: set<Request>)
    | Connected
      /** Sending what was in the queue. */
    | Sending(items: seq<Item>)
      /** A lost connection was noticed, `sync_first` is about to be emptied. */
    | Resetting

  datatype World = World(
    pc: Pc,
    /** ws_data.connected */
    connected: bool,
    /** sync_data.sync_first: the requests it holds, none after it was moved from. */
    syncFirst: Option<set<Request>>,
    syncQueue: seq<Item>,
    /** The requests of the stores. */
    live: set<Request>,
    /** Added, but messagePushReq not called yet; and past its check, but not queued yet. */
    toCheck: multiset<Request>,
    toPush: multiset<Request>,
    /** What the server got in this session, as often as it got it. */
    delivered: multiset<Request>,
    /** What was sent in this session after the first message, in order. */
    sent: seq<Item>)

  const START := World(Disconnected, false, None, [], {}, multiset{}, multiset{}, multiset{}, [])

  datatype Action =
    | AddReq(request: Request)
    | UnsetReq(request: Request)
    | CheckFirst(request: Request)
    | Push(request: Request)
    | PushOther
      /** The part of sync() under the lock of sync_data, with the connection as read before. */
    | SyncFirst(wasConnected: bool)
    | Init(ok: bool)
    | TakeFirst
    | SendFirst(ok: bool)
      /** recv, and the swap of the queue. */
    | Receive(stillConnected: bool)
    | Send(ok: bool)
    | Reset

  /** Step by step; an action that is not possible does nothing. */
  function Step(s: World, a: Action): World {
    match a
    case AddReq(r) =>
      if r in s.live then s else s.(live := s.live + {r}, toCheck := s.toCheck + multiset{r})
    case UnsetReq(r) =>
      s.(live := s.live - {r})
    case CheckFirst(r) =>
      if r !in s.toCheck then s
      else s.(toCheck := s.toCheck - multiset{r},
              toPush := if s.syncFirst.Some? then s.toPush + multiset{r} else s.toPush)
    case Push(r) =>
      if r !in s.toPush then s
      else s.(toPush := s.toPush - multiset{r}, syncQueue := s.syncQueue + [Req(r)])
    case PushOther =>
      s.(syncQueue := s.syncQueue + [Other])
    case SyncFirst(wasConnected) =>
      if !wasConnected && s.syncFirst.None? then s.(syncFirst := Some(s.live))
      else s.(syncQueue := s.syncQueue + [Other])
    case Init(ok) =>
      if s.pc == Disconnected && ok then s.(pc := Opened, connected := true, delivered := multiset{}, sent := []) else s
    case TakeFirst =>
      if s.pc != Opened then s
      else
        var first := if s.syncFirst.Some? then s.syncFirst.value else s.live;
        s.(pc := HaveFirst(first), syncFirst := Some({}))
    case SendFirst(ok) =>
      if !s.pc.HaveFirst? then s
      else if ok then s.(pc := Connected, delivered := s.delivered + multiset(s.pc.first))
      else s.(pc := Disconnected, connected := false)
    case Receive(stillConnected) =>
      if s.pc != Connected then s
      else s.(pc := if stillConnected then Sending(s.syncQueue) else Resetting,
              connected := stillConnected, syncQueue := [])
    case Send(ok) =>
      if !s.pc.Sending? then s
      else if s.pc.items == [] then s.(pc := Connected)
      else if !ok then s.(pc := Resetting, connected := false)
      else
        s.(pc := Sending(s.pc.items[1..]), delivered := s.delivered + multiset(RequestsIn(s.pc.items[..1])),
           sent := s.sent + s.pc.items[..1])
    case Reset =>
      if s.pc == Resetting then s.(pc := Disconnected, syncFirst := None) else s
  }

  function RequestsIn(items: seq<Item>): set<Request> {
    set i | i in items && i.Req? :: i.request
  }

  function RunFrom(s: World, actions: seq<Action>): World
    decreases |actions|
  {
    if actions == [] then s else RunFrom(Step(s, actions[0]), actions[1..])
  }

  // ------------------------------------------------------------------

  /** A request that is still to be queued, or queued. */
  ghost predicate OnItsWay(s: World, r: Request) {
    r in s.toCheck || r in s.toPush || r in RequestsIn(s.syncQueue)
  }

  /** Where a live request is when it is not lost. */
  ghost predicate Safe(s: World, r: Request) {
    || OnItsWay(s, r)
    || (match s.pc
        case Disconnected => s.syncFirst.None? || r in s.syncFirst.value
        case Opened => s.syncFirst.None? || r in s.syncFirst.value
        case HaveFirst(first) => r in first
        case Connected => r in s.delivered
        case Sending(items) => r in s.delivered || r in RequestsIn(items)
        case Resetting => true)
  }

  ghost predicate Inv(s: World) {
    && (s.pc != Disconnected && s.pc != Opened ==> s.syncFirst == Some({}))
    && (forall r :: r in s.live ==> Safe(s, r))
  }

  lemma RequestsInAppend(a: seq<Item>, b: seq<Item>)
    ensures RequestsIn(a + b) == RequestsIn(a) + RequestsIn(b)
  {
  }

  lemma SendKeepsInv(s: World, ok: bool)
    requires Inv(s)
    ensures Inv(Step(s, Send(ok)))
  {
    if s.pc.Sending? && s.pc.items != [] && ok {
      assert s.pc.items == s.pc.items[..1] + s.pc.items[1..];
      RequestsInAppend(s.pc.items[..1], s.pc.items[1..]);
    }
  }

  lemma QueueGrows(s: World, item: Item, toPush: multiset<Request>)
    requires Inv(s)
    requires forall r :: r in s.toPush && r !in toPush ==> item == Req(r)
    ensures Inv(s.(toPush := toPush, syncQueue := s.syncQueue + [item]))
  {
    RequestsInAppend(s.syncQueue, [item]);
    assert item in [item];
  }

  /** The steps of the threads that ask. */
  lemma AskingKeepsInv(s: World, a: Action)
    requires Inv(s) && (a.AddReq? || a.UnsetReq? || a.CheckFirst?)
    ensures Inv(Step(s, a))
  {
    var t := Step(s, a);
    forall r | r in t.live
      ensures Safe(t, r)
    {
      if r in s.live {
        assert Safe(s, r);
      }
    }
  }

  /** The steps of the connection thread outside its sending loop. */
  lemma ThreadKeepsInv(s: World, a: Action)
    requires Inv(s) && a != SendFirst(false) && (a.Init? || a.TakeFirst? || a.SendFirst? || a.Receive? || a.Reset?)
    ensures Inv(Step(s, a))
  {
    var t := Step(s, a);
    forall r | r in t.live
      ensures Safe(t, r)
    {
      assert Safe(s, r);
    }
  }

  lemma StepKeepsInv(s: World, a: Action)
    requires Inv(s) && a != SendFirst(false)
    ensures Inv(Step(s, a))
  {
    match a
    case Send(ok) => SendKeepsInv(s, ok);
    case Push(r) => QueueGrows(s, Req(r), s.toPush - multiset{r});
    case PushOther => QueueGrows(s, Other, s.toPush);
    case SyncFirst(_) => QueueGrows(s, Other, s.toPush);
    case AddReq(_) => AskingKeepsInv(s, a);
    case UnsetReq(_) => AskingKeepsInv(s, a);
    case CheckFirst(_) => AskingKeepsInv(s, a);
    case _ => ThreadKeepsInv(s, a);
  }

  lemma {:induction false} RunKeepsInv(s: World, actions: seq<Action>)
    requires Inv(s) && SendFirst(false) !in actions
    ensures Inv(RunFrom(s, actions))
    decreases |actions|
  {
    if actions != [] {
      StepKeepsInv(s, actions[0]);
      RunKeepsInv(Step(s, actions[0]), actions[1..]);
    }
  }

  ghost predicate Settled(s: World) {
    s.pc == Connected && s.syncQueue == [] && s.toCheck == multiset{} && s.toPush == multiset{}
  }

  /** No subscription is lost: under every interleaving in which the snapshots themselves get sent, a
      live request is on its way or delivered, and once the queue is empty, delivered. */
  lemma NoneIsLost(actions: seq<Action>, r: Request)
    requires SendFirst(false) !in actions && r in RunFrom(START, actions).live
    ensures Safe(RunFrom(START, actions), r)
    ensures Settled(RunFrom(START, actions)) ==> r in RunFrom(START, actions).delivered
  {
    RunKeepsInv(START, actions);
  }

  lemma RunOfCons(s: World, a: Action, rest: seq<Action>)
    ensures RunFrom(s, [a] + rest) == RunFrom(Step(s, a), rest)
  {
    assert ([a] + rest)[1..] == rest;
  }

  lemma RunOfTwo(s: World, a: Action, b: Action)
    ensures RunFrom(s, [a, b]) == Step(Step(s, a), b)
  {
    assert [a, b] == [a] + [b] && [b] == [b] + [];
    RunOfCons(s, a, [b]);
    RunOfCons(Step(s, a), b, []);
  }

  lemma {:induction false} RunInSteps(s: World, a: seq<Action>, b: seq<Action>)
    ensures RunFrom(s, a + b) == RunFrom(RunFrom(s, a), b)
    decreases |a|
  {
    if a == [] {
      assert a + b == b;
    } else {
      assert (a + b)[1..] == a[1..] + b;
      RunInSteps(Step(s, a[0]), a[1..], b);
    }
  }

  lemma RunOfFour(s: World, a: Action, b: Action, c: Action, d: Action)
    ensures RunFrom(s, [a, b] + [c, d]) == Step(Step(Step(Step(s, a), b), c), d)
  {
    RunInSteps(s, [a, b], [c, d]);
    RunOfTwo(s, a, b);
    RunOfTwo(Step(Step(s, a), b), c, d);
  }

  lemma OneMore(s: World, actions: seq<Action>, a: Action)
    ensures RunFrom(s, actions + [a]) == Step(RunFrom(s, actions), a)
  {
    RunInSteps(s, actions, [a]);
    RunOfCons(RunFrom(s, actions), a, []);
    assert [a] + [] == [a];
  }

  lemma RunOfTurn(s: World, first: Action, rest: seq<Action>, last: Action)
    ensures RunFrom(s, [first] + rest + [last]) == Step(RunFrom(Step(s, first), rest), last)
  {
    OneMore(s, [first] + rest, last);
    RunOfCons(s, first, rest);
  }

  lemma RunOfThree(s: World, a: Action, b: Action, c: Action)
    ensures RunFrom(s, [a] + [b] + [c]) == Step(Step(Step(s, a), b), c)
  {
    RunOfTurn(s, a, [b], c);
    assert [b] == [b] + [];
    RunOfCons(Step(s, a), b, []);
  }

  // ------------------------------------------------------------------
  // Snapshots whose own send fails.

  function StateAt(actions: seq<Action>, n: nat): World
    requires n <= |actions|
  {
    RunFrom(START, actions[..n])
  }

  lemma NextState(actions: seq<Action>, n: nat)
    requires n < |actions|
    ensures StateAt(actions, n + 1) == Step(StateAt(actions, n), actions[n])
  {
    assert actions[..n + 1] == actions[..n] + [actions[n]];
    OneMore(START, actions[..n], actions[n]);
  }

  /** If this is the failing send of a snapshot, every live request is also queued or about to be. */
  ghost predicate FailsHarmlessly(s: World, a: Action) {
    a == SendFirst(false) && s.pc.HaveFirst? ==> forall r :: r in s.live ==> OnItsWay(s, r)
  }

  lemma FailedSend(s: World)
    requires Inv(s) && s.pc.HaveFirst?
    ensures Inv(Step(s, SendFirst(false))) <==> forall r :: r in s.live ==> OnItsWay(s, r)
  {
    var t := Step(s, SendFirst(false));
    assert t.pc == Disconnected && t.syncFirst == Some({});
    assert forall r :: OnItsWay(t, r) <==> OnItsWay(s, r);
    if Inv(t) {
      forall r | r in s.live
        ensures OnItsWay(s, r)
      {
        assert Safe(t, r);
      }
    }
  }

  /** Exactly when nothing is lost, over every interleaving: at no point up to `n` is a live request
      lost if and only if every snapshot that failed to be sent held only live requests that were
      also queued or about to be. The snapshot sent in its place is the moved-from one, which is empty. */
  lemma {:induction false} LostOnlyByFailures(actions: seq<Action>, n: nat)
    requires n <= |actions|
    ensures (forall i :: 0 <= i <= n ==> Inv(StateAt(actions, i)))
       <==> (forall i :: 0 <= i < n ==> FailsHarmlessly(StateAt(actions, i), actions[i]))
  {
    if n == 0 {
      assert actions[..0] == [];
    } else {
      var s, a := StateAt(actions, n - 1), actions[n - 1];
      LostOnlyByFailures(actions, n - 1);
      NextState(actions, n - 1);
      if Inv(s) {
        if a == SendFirst(false) && s.pc.HaveFirst? {
          FailedSend(s);
        } else if a == SendFirst(false) {
          assert Step(s, a) == s;
        } else {
          StepKeepsInv(s, a);
        }
      }
    }
  }

  /** Live, but neither delivered in this session nor anywhere it could still be sent from. */
  ghost predicate Lost(s: World, r: Request) {
    && r in s.live && !OnItsWay(s, r) && r !in s.delivered
    && s.syncFirst.Some? && r !in s.syncFirst.value
    && (s.pc.HaveFirst? ==> r !in s.pc.first)
    && (s.pc.Sending? ==> r !in RequestsIn(s.pc.items))
  }

  lemma QueueKeepsLost(s: World, r: Request, item: Item, toPush: multiset<Request>)
    requires Lost(s, r) && item != Req(r) && r !in toPush
    ensures Lost(s.(toPush := toPush, syncQueue := s.syncQueue + [item]), r)
  {
    RequestsInAppend(s.syncQueue, [item]);
  }

  lemma SendKeepsLost(s: World, r: Request, ok: bool)
    requires Lost(s, r)
    ensures Lost(Step(s, Send(ok)), r)
  {
    if s.pc.Sending? && s.pc.items != [] {
      assert s.pc.items == s.pc.items[..1] + s.pc.items[1..];
      RequestsInAppend(s.pc.items[..1], s.pc.items[1..]);
    }
  }

  lemma OthersKeepLost(s: World, a: Action, r: Request)
    requires Lost(s, r) && a != Reset && a != UnsetReq(r)
    requires !a.Push? && !a.PushOther? && !a.SyncFirst? && !a.Send?
    ensures Lost(Step(s, a), r)
  {
  }

  /** Only noticing a lost connection, or unsubscribing, ends that; asking again does not. */
  lemma LostStays(s: World, a: Action, r: Request)
    requires Lost(s, r) && a != Reset && a != UnsetReq(r)
    ensures Lost(Step(s, a), r)
    ensures Step(s, AddReq(r)) == s
  {
    match a
    case Push(q) =>
      if q in s.toPush {
        QueueKeepsLost(s, r, Req(q), s.toPush - multiset{q});
      }
    case PushOther => QueueKeepsLost(s, r, Other, s.toPush);
    case SyncFirst(_) => QueueKeepsLost(s, r, Other, s.toPush);
    case Send(ok) => SendKeepsLost(s, r, ok);
    case _ => OthersKeepLost(s, a, r);
  }

  lemma {:induction false} LostUntilReset(s: World, actions: seq<Action>, r: Request)
    requires Lost(s, r) && Reset !in actions && UnsetReq(r) !in actions
    ensures Lost(RunFrom(s, actions), r)
    decreases |actions|
  {
    if actions != [] {
      LostStays(s, actions[0], r);
      LostUntilReset(Step(s, actions[0]), actions[1..], r);
    }
  }

  /** Whatever was lost before, emptying `sync_first` after a lost connection was noticed brings it back:
      from then on nothing is lost while the snapshots get sent, and once settled all is delivered. */
  lemma ResetRecoversAll(s: World, actions: seq<Action>, r: Request)
    requires s.pc == Resetting && SendFirst(false) !in actions
    requires r in RunFrom(Step(s, Reset), actions).live
    ensures Safe(RunFrom(Step(s, Reset), actions), r)
    ensures Settled(RunFrom(Step(s, Reset), actions)) ==> r in RunFrom(Step(s, Reset), actions).delivered
  {
    RunKeepsInv(Step(s, Reset), actions);
  }

  /** Unsubscribing and asking again queues the request. */
  lemma AskingAnewRecovers(s: World, r: Request)
    requires Lost(s, r)
    ensures
      var t := RunFrom(s, [UnsetReq(r), AddReq(r)] + [CheckFirst(r), Push(r)]);
      r in t.live && r in RequestsIn(t.syncQueue)
  {
    RunOfFour(s, UnsetReq(r), AddReq(r), CheckFirst(r), Push(r));
    var t := Step(Step(Step(Step(s, UnsetReq(r)), AddReq(r)), CheckFirst(r)), Push(r));
    assert t.syncQueue[|s.syncQueue|] == Req(r);
  }

  /** A request can be lost: the client reconnects, everything is sent, and the server never got it. */
  lemma FailedFirstLoses(r: Request) returns (actions: seq<Action>)
    ensures
      var s := RunFrom(START, actions);
      Settled(s) && Lost(s, r)
  {
    var before, after := [AddReq(r), CheckFirst(r)] + [Init(true), TakeFirst],
      [SendFirst(false), Init(true)] + [TakeFirst, SendFirst(true)];
    actions := before + after;
    RunInSteps(START, before, after);
    RunOfFour(START, AddReq(r), CheckFirst(r), Init(true), TakeFirst);
    RunOfFour(RunFrom(START, before), SendFirst(false), Init(true), TakeFirst, SendFirst(true));
  }

  // ------------------------------------------------------------------
  // Everything that is queued is sent, in order.

  /** What is to be sent in this session: the items of the sending loop, then the queue. */
  function Waiting(s: World): seq<Item> {
    (if s.pc.Sending? then s.pc.items else []) + s.syncQueue
  }

  /** What an action queues: a request whose push is due, any other message, and a sync when there is a
      connection or a snapshot already. */
  function QueuedBy(s: World, a: Action): seq<Item> {
    match a
    case Push(r) => if r in s.toPush then [Req(r)] else []
    case PushOther => [Other]
    case SyncFirst(wasConnected) => if wasConnected || s.syncFirst.Some? then [Other] else []
    case _ => []
  }

  function AllQueued(s: World, actions: seq<Action>): seq<Item>
    decreases |actions|
  {
    if actions == [] then [] else QueuedBy(s, actions[0]) + AllQueued(Step(s, actions[0]), actions[1..])
  }

  /** The connection is found lost. */
  predicate LosesConnection(a: Action) {
    a == Receive(false) || a == Send(false)
  }

  lemma FirstMoves(sent: seq<Item>, items: seq<Item>, rest: seq<Item>)
    requires items != []
    ensures (sent + items[..1]) + (items[1..] + rest) == sent + (items + rest)
  {
    assert items == items[..1] + items[1..];
  }

  lemma SendSendsInOrder(s: World)
    requires s.pc.Connected? || s.pc.Sending?
    ensures
      var t := Step(s, Send(true));
      (t.pc.Connected? || t.pc.Sending?) && s.sent <= t.sent && t.sent + Waiting(t) == s.sent + Waiting(s)
  {
    if s.pc.Sending? && s.pc.items != [] {
      FirstMoves(s.sent, s.pc.items, s.syncQueue);
    }
  }

  lemma ReceiveSendsInOrder(s: World)
    requires s.pc.Connected? || s.pc.Sending?
    ensures
      var t := Step(s, Receive(true));
      (t.pc.Connected? || t.pc.Sending?) && s.sent == t.sent && Waiting(t) == Waiting(s)
  {
  }

  lemma QueueingSendsInOrder(s: World, a: Action)
    requires (s.pc.Connected? || s.pc.Sending?) && (a.Push? || a.PushOther? || a.SyncFirst?)
    ensures
      var t := Step(s, a);
      t.pc == s.pc && t.sent == s.sent && t.syncQueue == s.syncQueue + QueuedBy(s, a)
  {
  }

  lemma OthersSendNothing(s: World, a: Action)
    requires s.pc.Connected? || s.pc.Sending?
    requires !a.Push? && !a.PushOther? && !a.SyncFirst? && !a.Send? && !a.Receive?
    ensures Step(s, a).pc == s.pc && Step(s, a).sent == s.sent && Step(s, a).syncQueue == s.syncQueue
  {
  }

  lemma StepSendsInOrder(s: World, a: Action)
    requires (s.pc.Connected? || s.pc.Sending?) && !LosesConnection(a)
    ensures
      var t := Step(s, a);
      && (t.pc.Connected? || t.pc.Sending?) && s.sent <= t.sent
      && t.sent + Waiting(t) == s.sent + Waiting(s) + QueuedBy(s, a)
  {
    match a
    case Send(_) => SendSendsInOrder(s);
    case Receive(_) => ReceiveSendsInOrder(s);
    case Push(_) => QueueingSendsInOrder(s, a);
    case PushOther => QueueingSendsInOrder(s, a);
    case SyncFirst(_) => QueueingSendsInOrder(s, a);
    case _ => OthersSendNothing(s, a);
  }

  /** From any moment of a session to any later one at which the connection has not been found lost: what
      was sent and what still waits is what was sent and waited then, and after it everything queued since,
      in the order in which it was queued. */
  lemma {:induction false} SentInOrder(s: World, actions: seq<Action>)
    requires s.pc.Connected? || s.pc.Sending?
    requires Receive(false) !in actions && Send(false) !in actions
    ensures
      var t := RunFrom(s, actions);
      && (t.pc.Connected? || t.pc.Sending?) && s.sent <= t.sent
      && t.sent + Waiting(t) == s.sent + Waiting(s) + AllQueued(s, actions)
    decreases |actions|
  {
    if actions == [] {
      assert s.sent + Waiting(s) + [] == s.sent + Waiting(s);
    } else {
      var t := Step(s, actions[0]);
      assert actions[0] in actions;
      StepSendsInOrder(s, actions[0]);
      SentInOrder(t, actions[1..]);
      Associates(s.sent + Waiting(s), QueuedBy(s, actions[0]), AllQueued(t, actions[1..]));
    }
  }

  lemma Associates(a: seq<Item>, b: seq<Item>, c: seq<Item>)
    ensures a + (b + c) == (a + b) + c
  {
  }

  /** So whatever is queued while connected has been sent once nothing waits. */
  lemma QueuedIsSent(s: World, actions: seq<Action>)
    requires s.pc.Connected? || s.pc.Sending?
    requires Receive(false) !in actions && Send(false) !in actions && Waiting(RunFrom(s, actions)) == []
    ensures RunFrom(s, actions).sent == s.sent + Waiting(s) + AllQueued(s, actions)
  {
    SentInOrder(s, actions);
    assert RunFrom(s, actions).sent + [] == RunFrom(s, actions).sent;
  }

  /** Across all steps, also those that lose, find or reset a connection, the queue only grows, until the
      connection thread takes all of it. */
  lemma QueueIsKept(s: World, a: Action)
    ensures
      if a.Receive? && s.pc.Connected? then Step(s, a).syncQueue == []
      else Step(s, a).syncQueue == s.syncQueue + QueuedBy(s, a)
  {
  }

  /** Unsubscribing takes a request out of the store only: what was about to be pushed is still pushed. */
  lemma RemovedIsStillPushed(s: World, r: Request)
    ensures
      var t := Step(s, UnsetReq(r));
      && r !in t.live && t.toCheck == s.toCheck && t.toPush == s.toPush && t.pc == s.pc
      && t.syncFirst == s.syncFirst && t.delivered == s.delivered && t.sent == s.sent
      && (r in s.toPush ==> Step(t, Push(r)).syncQueue == s.syncQueue + [Req(r)])
  {
  }

  // ------------------------------------------------------------------
  // How often a request is sent.

  /** How many times a request is still to be queued, or queued. */
  function Copies(s: World, r: Request): nat {
    s.toCheck[r] + s.toPush[r] + multiset(s.syncQueue)[Req(r)]
      + if s.pc.Sending? then multiset(s.pc.items)[Req(r)] else 0
  }

  /** How often a request was added up to `n` while it was not there. */
  function TimesAsked(actions: seq<Action>, n: nat, r: Request): nat
    requires n <= |actions|
  {
    if n == 0 then 0
    else
      TimesAsked(actions, n - 1, r)
        + if actions[n - 1] == AddReq(r) && r !in StateAt(actions, n - 1).live then 1 else 0
  }

  ghost predicate FewCopies(s: World, r: Request, asked: nat) {
    && Copies(s, r) <= asked && s.delivered[r] + Copies(s, r) <= asked + 1
    && (s.pc == Opened || s.pc.HaveFirst? ==> s.delivered[r] == 0)
  }

  lemma CountAppend(items: seq<Item>, item: Item, r: Request)
    ensures multiset(items + [item])[Req(r)] == multiset(items)[Req(r)] + if item == Req(r) then 1 else 0
  {
  }

  lemma CountFirst(items: seq<Item>, r: Request)
    requires items != []
    ensures multiset(items)[Req(r)] == multiset(items[1..])[Req(r)] + if items[0] == Req(r) then 1 else 0
    ensures multiset(RequestsIn(items[..1]))[r] == if items[0] == Req(r) then 1 else 0
  {
    assert items == [items[0]] + items[1..] && items[..1] == [items[0]];
  }

  lemma SendKeepsFew(s: World, ok: bool, r: Request, asked: nat)
    requires FewCopies(s, r, asked)
    ensures FewCopies(Step(s, Send(ok)), r, asked)
  {
    if s.pc.Sending? && s.pc.items != [] {
      CountFirst(s.pc.items, r);
    }
  }

  lemma PushKeepsFew(s: World, q: Request, r: Request, asked: nat)
    requires FewCopies(s, r, asked)
    ensures FewCopies(Step(s, Push(q)), r, asked)
  {
    CountAppend(s.syncQueue, Req(q), r);
  }

  /** The other steps that queue something. */
  lemma QueueKeepsFew(s: World, a: Action, r: Request, asked: nat)
    requires FewCopies(s, r, asked) && (a.PushOther? || a.SyncFirst?)
    ensures FewCopies(Step(s, a), r, asked)
  {
    CountAppend(s.syncQueue, Other, r);
  }

  lemma ReceiveKeepsFew(s: World, stillConnected: bool, r: Request, asked: nat)
    requires FewCopies(s, r, asked)
    ensures FewCopies(Step(s, Receive(stillConnected)), r, asked)
  {
  }

  lemma AskingKeepsFew(s: World, a: Action, r: Request, asked: nat)
    requires FewCopies(s, r, asked) && (a.AddReq? || a.UnsetReq? || a.CheckFirst?)
    ensures FewCopies(Step(s, a), r, asked + if a == AddReq(r) && r !in s.live then 1 else 0)
  {
  }

  lemma SessionKeepsFew(s: World, a: Action, r: Request, asked: nat)
    requires FewCopies(s, r, asked) && (a.Init? || a.TakeFirst? || a.SendFirst? || a.Reset?)
    ensures FewCopies(Step(s, a), r, asked)
  {
  }

  lemma FewStayFew(s: World, a: Action, r: Request, asked: nat)
    requires FewCopies(s, r, asked)
    ensures FewCopies(Step(s, a), r, asked + if a == AddReq(r) && r !in s.live then 1 else 0)
  {
    match a
    case Send(ok) => SendKeepsFew(s, ok, r, asked);
    case Receive(stillConnected) => ReceiveKeepsFew(s, stillConnected, r, asked);
    case Push(q) => PushKeepsFew(s, q, r, asked);
    case PushOther => QueueKeepsFew(s, a, r, asked);
    case SyncFirst(_) => QueueKeepsFew(s, a, r, asked);
    case AddReq(_) => AskingKeepsFew(s, a, r, asked);
    case UnsetReq(_) => AskingKeepsFew(s, a, r, asked);
    case CheckFirst(_) => AskingKeepsFew(s, a, r, asked);
    case _ => SessionKeepsFew(s, a, r, asked);
  }

  /** Over every interleaving, the server gets a request in a session at most once more than it was
      asked for so far. */
  lemma {:induction false} SentAtMostOnceMore(actions: seq<Action>, n: nat, r: Request)
    requires n <= |actions|
    ensures FewCopies(StateAt(actions, n), r, TimesAsked(actions, n, r))
    ensures StateAt(actions, n).delivered[r] <= TimesAsked(actions, n, r) + 1
  {
    if n == 0 {
      assert actions[..0] == [];
    } else {
      SentAtMostOnceMore(actions, n - 1, r);
      NextState(actions, n - 1);
      FewStayFew(StateAt(actions, n - 1), actions[n - 1], r, TimesAsked(actions, n - 1, r));
    }
  }

  lemma AskedWhileConnecting(r: Request)
    ensures
      var s := RunFrom(START, [AddReq(r), Init(true)] + [TakeFirst, CheckFirst(r)]);
      s.pc == HaveFirst({r}) && s.syncQueue == [] && s.delivered == multiset{} && r in s.toPush
  {
    RunOfFour(START, AddReq(r), Init(true), TakeFirst, CheckFirst(r));
  }

  /** The snapshot has the request, and the queue has it again. */
  lemma SentTwice(s: World, r: Request)
    requires s.pc == HaveFirst({r}) && s.syncQueue == [Req(r)] && s.delivered == multiset{}
    ensures Step(Step(Step(s, SendFirst(true)), Receive(true)), Send(true)).delivered[r] == 2
  {
    CountFirst([Req(r)], r);
  }

  lemma AskedWhileSending(s: World, r: Request)
    requires s.pc == HaveFirst({r}) && s.syncQueue == [] && s.delivered == multiset{} && r in s.toPush
    ensures RunFrom(s, [Push(r), SendFirst(true)] + [Receive(true), Send(true)]).delivered[r] == 2
  {
    assert [] + [Req(r)] == [Req(r)];
    SentTwice(Step(s, Push(r)), r);
    RunOfFour(s, Push(r), SendFirst(true), Receive(true), Send(true));
  }

  /** And it can get it twice from asking once: a snapshot taken between addReq and messagePushReq has
      the request, and messagePushReq queues it again. */
  lemma OneRequestSentTwice(r: Request) returns (actions: seq<Action>)
    ensures multiset(actions)[AddReq(r)] == 1
    ensures RunFrom(START, actions).delivered[r] == 2
  {
    var asking, sending := [AddReq(r), Init(true)] + [TakeFirst, CheckFirst(r)],
      [Push(r), SendFirst(true)] + [Receive(true), Send(true)];
    AskedWhileConnecting(r);
    AskedWhileSending(RunFrom(START, asking), r);
    RunInSteps(START, asking, sending);
    actions := asking + sending;
  }

  // ------------------------------------------------------------------
  // The same as the client's methods, each run without interruption.

  class Client {
    var connected: bool
    var syncFirst: Option<set<Request>>
    var syncQueue: seq<Item>
    var live: set<Request>
    ghost var delivered: multiset<Request>
    ghost var sent: seq<Item>

    ghost function State(): World
      reads this
    {
      World(
        if connected then Connected else Disconnected, connected, syncFirst, syncQueue, live,
        multiset{}, multiset{}, delivered, sent)
    }

    constructor ()
      ensures State() == START
    {
      connected, syncFirst, syncQueue, live, delivered, sent := false, None, [], {}, multiset{}, [];
    }

    /** messagePushReq. */
    method MessagePushReq(r: Request) returns (pushed: bool)
      modifies this`syncQueue
      ensures pushed == syncFirst.Some?
      ensures syncQueue == old(syncQueue) + if pushed then [Req(r)] else []
    {
      pushed := syncFirst.Some?;
      if pushed {
        syncQueue := syncQueue + [Req(r)];
      }
    }

    /** addReq, and messagePushReq when it was new. */
    method Ask(r: Request)
      modifies this`live, this`syncQueue
      ensures State() == RunFrom(old(State()), [AddReq(r)] + (if r in old(live) then [] else [CheckFirst(r), Push(r)]))
    {
      ghost var s := State();
      if r !in live {
        live := live + {r};
        var _ := MessagePushReq(r);
        RunOfTwo(Step(s, AddReq(r)), CheckFirst(r), Push(r));
        RunOfCons(s, AddReq(r), [CheckFirst(r), Push(r)]);
      } else {
        RunOfCons(s, AddReq(r), []);
      }
    }

    /** The sending half of syncImpl. */
    method Sync()
      modifies this`syncFirst, this`syncQueue
      ensures State() == Step(old(State()), SyncFirst(old(connected)))
      ensures old(connected) || old(syncFirst).Some? ==>
                syncQueue == old(syncQueue) + [Other] && syncFirst == old(syncFirst)
      ensures !old(connected) && old(syncFirst).None? ==> syncQueue == old(syncQueue) && syncFirst == Some(live)
    {
      if !connected && syncFirst.None? {
        syncFirst := Some(live);
      } else {
        syncQueue := syncQueue + [Other];
      }
    }

    /** The branch of wsThreadMain for a client that is not connected. */
    method ConnectBranch(initOk: bool, sendOk: bool)
      requires !connected
      modifies this
      ensures State() == RunFrom(old(State()), [Init(initOk)] + [TakeFirst] + [SendFirst(sendOk)])
    {
      ghost var s := State();
      if initOk {
        connected := true;
        delivered, sent := multiset{}, [];
        var first;
        if syncFirst.None? {
          first := live;
        } else {
          first := syncFirst.value;
        }
        syncFirst := Some({});
        if sendOk {
          delivered := delivered + multiset(first);
        } else {
          connected := false;
        }
      }
      RunOfThree(s, Init(initOk), TakeFirst, SendFirst(sendOk));
    }

    /** Its sending loop; the send number `failing` fails. */
    method SendQueued(queue: seq<Item>, failing: nat) returns (ghost actions: seq<Action>)
      requires connected
      modifies this`connected, this`delivered, this`sent
      ensures RunFrom(old(State()).(pc := Sending(queue)), actions) ==
              State().(pc := if connected then Sending([]) else Resetting)
      ensures SendFirst(false) !in actions
      ensures connected ==> sent == old(sent) + queue
    {
      ghost var s := State().(pc := Sending(queue));
      actions := [];
      var items, n := queue, 0;
      while items != [] && connected
        invariant RunFrom(s, actions) == State().(pc := if connected then Sending(items) else Resetting)
        invariant SendFirst(false) !in actions
        invariant connected ==> sent + (items + []) == old(sent) + queue
        decreases |items|
      {
        FirstMoves(sent, items, []);
        if n == failing {
          connected := false;
        } else {
          delivered := delivered + multiset(RequestsIn(items[..1]));
          sent := sent + items[..1];
        }
        OneMore(s, actions, Send(connected));
        actions := actions + [Send(connected)];
        items, n := items[1..], n + 1;
      }
    }

    /** The branch of wsThreadMain for a connected client. */
    method ConnectedBranch(stillConnected: bool, failing: nat) returns (ghost sends: seq<Action>, ghost last: Action)
      requires connected
      modifies this
      ensures State() == RunFrom(old(State()), [Receive(stillConnected)] + sends + [last])
      ensures SendFirst(false) !in sends && last != SendFirst(false)
      ensures connected ==> sent == old(sent) + old(syncQueue) && syncQueue == []
    {
      ghost var s := State();
      connected := stillConnected;
      var items := syncQueue;
      syncQueue := [];
      sends := [];
      if connected {
        sends := SendQueued(items, failing);
      }
      last := if connected then Send(true) else Reset;
      if !connected {
        syncFirst := None;
      }
      RunOfTurn(s, Receive(stillConnected), sends, last);
    }
  }
}
