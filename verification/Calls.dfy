/** Remote calls: one caller, the server, and any number of targets. */
module Calls {
  import opened Wrappers
  import opened Promises

  type CallId = nat
  type MemberId = nat

  datatype Call = Call(id: CallId, target: MemberId)

  datatype Reply =
    | CallResponse(id: CallId, started: bool)
    | CallResult(id: CallId, outcome: Outcome)

  /** The error of a call whose target has closed; the real text also names the target. */
  const DISCONNECTED: Outcome := Reject("disconnected")

  /** The replies to one call among others, in order. */
  function Select(replies: seq<Reply>, id: CallId): seq<Reply> {
    if replies == [] then []
    else
      var init, last := Select(replies[..|replies| - 1], id), replies[|replies| - 1];
      if last.id == id then init + [last] else init
  }

  function SelectCalls(calls: seq<Call>, id: CallId): seq<Call> {
    if calls == [] then []
    else
      var init, last := SelectCalls(calls[..|calls| - 1], id), calls[|calls| - 1];
      if last.id == id then init + [last] else init
  }

  // ------------------------------------------------------------------
  // The caller's promises. A promise stays with the user after it has left the store.

  datatype Store = Store(promises: map<CallId, Data>, active: set<CallId>)

  /** The call response branch of ClientData::onRecv; what throws there changes nothing. */
  function OnResponse(s: Store, id: CallId, started: bool): Store {
    if id !in s.active || id !in s.promises || s.promises[id].reached then s
    else Store(s.promises[id := WholeReach(s.promises[id], started)], if started then s.active else s.active - {id})
  }

  /** The call result branch: a promise that is already finished throws before it is removed. */
  function OnResult(s: Store, id: CallId, outcome: Outcome): Store {
    if id !in s.active || id !in s.promises || s.promises[id].finished then s
    else Store(s.promises[id := WholeEnd(s.promises[id], outcome)], s.active - {id})
  }

  function OnReply(s: Store, r: Reply): Store {
    match r
    case CallResponse(id, started) => OnResponse(s, id, started)
    case CallResult(id, outcome) => OnResult(s, id, outcome)
  }

  /** Func::runAsync on a remote function; with no connection the promise fails at once and stays. */
  function OnRunAsync(s: Store, id: CallId, online: bool): Store {
    Store(s.promises[id := if online then FRESH else WholeReach(FRESH, false)], s.active + {id})
  }

  /** FuncResultStore with the members that use it. `created` keeps every promise it ever gave out. */
  class FuncResultStore {
    var promises: map<CallId, PromiseData>
    var nextCallerId: nat
    ghost var created: map<CallId, PromiseData>

    ghost predicate Valid()
      reads this
    {
      && (forall id :: id in promises ==> id in created && promises[id] == created[id])
      && (forall id: CallId :: id in created <==> id < nextCallerId)
      && (forall i, j :: i in created && j in created && created[i] == created[j] ==> i == j)
    }

    ghost function State(): Store
      reads this, created.Values
    {
      Store(map id | id in created :: created[id].State(), promises.Keys)
    }

    constructor ()
      ensures Valid() && State() == Store(map[], {}) && nextCallerId == 0
    {
      promises, nextCallerId, created := map[], 0, map[];
    }

    /** One promise added or changed, and nothing else. */
    twostate lemma OneChanged(id: CallId)
      requires id in created && created == old(created)[id := created[id]]
      requires forall i :: i in old(created) && i != id ==> unchanged(old(created[i]))
      ensures State().promises == old(State().promises)[id := created[id].State()]
    {
      forall i | i in created && i != id
        ensures created[i].State() == old(created[i].State())
      {
      }
    }

    method AddResult() returns (id: CallId, promise: PromiseData)
      requires Valid()
      modifies this
      ensures Valid() && fresh(promise) && id == old(nextCallerId) && nextCallerId == id + 1
      ensures created == old(created)[id := promise] && id !in old(created) && promises == old(promises)[id := promise]
      ensures promise.State() == FRESH && State() == OnRunAsync(old(State()), id, true)
    {
      id := nextCallerId;
      nextCallerId := nextCallerId + 1;
      promise := new PromiseData();
      promises := promises[id := promise];
      created := created[id := promise];
      OneChanged(id);
    }

    /** The remote branch of Func::runAsync; `online` is what messagePushOnline returns. */
    method RunRemote(online: bool) returns (id: CallId, promise: PromiseData)
      requires Valid()
      modifies this
      ensures Valid() && fresh(promise) && id == old(nextCallerId) && nextCallerId == id + 1
      ensures created == old(created)[id := promise]
      ensures State() == OnRunAsync(old(State()), id, online)
    {
      id, promise := AddResult();
      if !online {
        var _ := promise.Reach(false);
        assert promise.State() == WholeReach(FRESH, false);
      }
      OneChanged(id);
    }

    /** Together with reach and removeResult; the exceptions are caught and only logged. */
    method OnCallResponse(id: CallId, started: bool)
      requires Valid()
      modifies this`promises, promises.Values
      ensures Valid() && State() == OnResponse(old(State()), id, started)
    {
      if id in promises {
        var promise := promises[id];
        var ok := promise.Reach(started);
        if ok && !started {
          promises := promises - {id};
        }
        assert ok ==> promise.State() == WholeReach(old(promise.State()), started);
        OneChanged(id);
      }
    }

    method OnCallResult(id: CallId, outcome: Outcome)
      requires Valid()
      modifies this`promises, promises.Values
      ensures Valid() && State() == OnResult(old(State()), id, outcome)
    {
      if id in promises {
        var promise := promises[id];
        var ok := promise.End(outcome);
        if ok {
          promises := promises - {id};
        }
        assert ok ==> promise.State() == WholeEnd(old(promise.State()), outcome);
        OneChanged(id);
      }
    }
  }

  // ------------------------------------------------------------------
  // Where a function runs.

  /** The callback that sends the result of a call back. */
  const SEND_RESULT: Callback := 0

  /** What that callback sends of a promise that has ended. */
  function ResultOf(d: Data, id: CallId): Reply {
    CallResult(id, if d.isError then Reject(d.rejection) else Respond(d.response))
  }

  /** FuncInfo::run(Call): the result is sent exactly once, by the callback set after the function was
      started: at once if it has ended by then, and otherwise whenever it ends. */
  method RunCall(endsAtOnce: Option<Outcome>) returns (promise: PromiseData)
    ensures fresh(promise) && promise.reached && promise.found
    ensures endsAtOnce.Some? ==> promise.finished && promise.ran == [OnFinish(SEND_RESULT)]
    ensures endsAtOnce.Some? ==> forall id :: ResultOf(promise.State(), id) == CallResult(id, endsAtOnce.value)
    ensures endsAtOnce.None? ==> !promise.finished && promise.ran == [] && promise.finishEvent == Some(SEND_RESULT)
  {
    promise := new PromiseData();
    var _ := promise.Reach(true);
    if endsAtOnce.Some? {
      var _ := promise.End(endsAtOnce.value);
    }
    promise.SetOnFinish(SEND_RESULT);
  }

  /** The end of a function that ran on: `RunCall` has left the callback that is due now. */
  method EndLater(promise: PromiseData, outcome: Outcome)
    requires !promise.finished && !promise.finishEventDone && promise.finishEvent == Some(SEND_RESULT)
    modifies promise
    ensures promise.finished && promise.ran == old(promise.ran) + [OnFinish(SEND_RESULT)]
    ensures forall id :: ResultOf(promise.State(), id) == CallResult(id, outcome)
  {
    var _ := promise.End(outcome);
  }

  /** Func::runAsync on a function of the client itself. */
  method RunSelf(isDefined: bool, endsAtOnce: Option<Outcome>) returns (promise: PromiseData)
    ensures fresh(promise) && promise.reached && promise.found == isDefined
    ensures !isDefined ==> promise.finished && promise.isError && promise.rejection == NOT_FOUND
    ensures !isDefined || endsAtOnce.None? ==> promise.State() == WholeReach(FRESH, isDefined)
    ensures promise.ran == []
    ensures isDefined ==> promise.finished == endsAtOnce.Some?
    ensures isDefined && endsAtOnce.Some? ==> promise.State() == WholeEnd(WholeReach(FRESH, true), endsAtOnce.value)
    ensures isDefined && endsAtOnce.Some? ==>
              match endsAtOnce.value
              case Respond(value) => !promise.isError && promise.response == value && promise.rejection == ""
              case Reject(message) => promise.isError && promise.rejection == message && promise.response == ""
  {
    promise := new PromiseData();
    if isDefined {
      var _ := promise.Reach(true);
      if endsAtOnce.Some? {
        var _ := promise.End(endsAtOnce.value);
      }
    } else {
      var _ := promise.Reach(false);
    }
  }

  // ------------------------------------------------------------------
  // The server's record of one connection of a target, with the calls it still owes replies for:
  // 2 neither reply, 1 the result, 0 none.

  type Pending = map<CallId, int>

  datatype Link = Link(connected: bool, pending: Pending)

  const NEW_LINK := Link(true, map[])

  /** The call branch at the server: noted and forwarded, or refused on behalf of the target. */
  function Forwarded(l: Link, id: CallId): Link {
    if l.connected then l.(pending := l.pending[id := 2]) else l
  }

  /** The two reply branches. */
  function Replied(l: Link, r: Reply): Link {
    l.(pending := l.pending[r.id := if r.CallResponse? then 1 else 0])
  }

  /** What a closing target's call gets. */
  function Abort(pending: Pending, id: CallId): seq<Reply> {
    if id !in pending then []
    else if pending[id] == 2 then [CallResponse(id, false)]
    else if pending[id] == 1 then [CallResult(id, DISCONNECTED)]
    else []
  }

  ghost predicate AreAborts(pending: Pending, aborts: seq<Reply>) {
    forall id :: Select(aborts, id) == Abort(pending, id)
  }

  lemma {:induction false} SelectOfAppend(a: seq<Reply>, b: seq<Reply>, id: CallId)
    ensures Select(a + b, id) == Select(a, id) + Select(b, id)
  {
    if b == [] {
      assert a + b == a;
    } else {
      assert (a + b)[..|a + b| - 1] == a + b[..|b| - 1];
      SelectOfAppend(a, b[..|b| - 1], id);
    }
  }

  lemma SelectOfOne(r: Reply, id: CallId)
    ensures Select([r], id) == if r.id == id then [r] else []
  {
    assert [r][..0] == [];
  }

  lemma SelectOfFirst(q: seq<Reply>, id: CallId)
    requires q != []
    ensures Select(q, id) == (if q[0].id == id then [q[0]] else []) + Select(q[1..], id)
  {
    assert q == [q[0]] + q[1..];
    SelectOfAppend([q[0]], q[1..], id);
    SelectOfOne(q[0], id);
  }

  lemma {:induction false} SelectCallsOfAppend(a: seq<Call>, b: seq<Call>, id: CallId)
    ensures SelectCalls(a + b, id) == SelectCalls(a, id) + SelectCalls(b, id)
  {
    if b == [] {
      assert a + b == a;
    } else {
      assert (a + b)[..|a + b| - 1] == a + b[..|b| - 1];
      SelectCallsOfAppend(a, b[..|b| - 1], id);
    }
  }

  lemma SelectCallsOfOne(c: Call, id: CallId)
    ensures SelectCalls([c], id) == if c.id == id then [c] else []
  {
    assert [c][..0] == [];
  }

  lemma SelectCallsOfFirst(q: seq<Call>, id: CallId)
    requires q != []
    ensures SelectCalls(q, id) == (if q[0].id == id then [q[0]] else []) + SelectCalls(q[1..], id)
  {
    assert q == [q[0]] + q[1..];
    SelectCallsOfAppend([q[0]], q[1..], id);
    SelectCallsOfOne(q[0], id);
  }

  /** The server's side of one connection of a target, for the calls of one caller. */
  class MemberCalls {
    var connected: bool
    var pendingCalls: Pending

    function State(): Link
      reads this
    {
      Link(connected, pendingCalls)
    }

    constructor ()
      ensures State() == NEW_LINK
    {
      connected, pendingCalls := true, map[];
    }

    method OnCall(id: CallId) returns (forward: bool, refusal: seq<Reply>)
      modifies this
      ensures State() == Forwarded(old(State()), id)
      ensures forward == connected && refusal == if forward then [] else [CallResponse(id, false)]
    {
      if connected {
        pendingCalls := pendingCalls[id := 2];
        return true, [];
      } else {
        return false, [CallResponse(id, false)];
      }
    }

    method OnReply(r: Reply)
      modifies this
      ensures State() == Replied(old(State()), r)
    {
      match r {
        case CallResponse(id, _) => pendingCalls := pendingCalls[id := 1];
        case CallResult(id, _) => pendingCalls := pendingCalls[id := 0];
      }
    }

    /** MemberData::onClose. */
    method OnClose() returns (aborts: seq<Reply>)
      modifies this
      ensures State() == old(State()).(connected := false)
      ensures !old(connected) ==> aborts == []
      ensures old(connected) ==> AreAborts(pendingCalls, aborts)
    {
      aborts := [];
      if !connected {
        return;
      }
      connected := false;
      var ids := pendingCalls.Keys;
      while ids != {}
        invariant ids <= pendingCalls.Keys && pendingCalls == old(pendingCalls) && !connected
        invariant forall id :: Select(aborts, id) == if id in ids then [] else Abort(pendingCalls, id)
      {
        var i :| i in ids;
        ghost var before := aborts;
        var next: seq<Reply> := [];
        if pendingCalls[i] == 2 {
          next := [CallResponse(i, false)];
        } else if pendingCalls[i] == 1 {
          next := [CallResult(i, DISCONNECTED)];
        }
        aborts := aborts + next;
        ids := ids - {i};
        forall id
          ensures Select(aborts, id) == if id in ids then [] else Abort(pendingCalls, id)
        {
          SelectOfAppend(before, next, id);
          if next != [] {
            SelectOfOne(next[0], id);
          }
        }
      }
    }
  }

  // ------------------------------------------------------------------
  // The protocol. `up` and `down` are channels that keep their order.

  /** An earlier connection of a target that the server still holds open, and the replies on their way
      over it. */
  datatype Old = Old(link: Link, up: seq<Reply>)

  /** A target: the server's record of its newest connection, what is on the way to and from it, the
      functions that run there, the calls that depend on the newest connection (they were forwarded over
      it, or their response came over it before the caller was sent anything), and earlier connections. */
  datatype Target =
    Target(link: Link, down: seq<Call>, up: seq<Reply>, running: set<CallId>, calls: set<CallId>, olds: seq<Old>)

  const NEW_TARGET := Target(NEW_LINK, [], [], {}, {}, [])

  datatype Net = Net(
    online: bool, nextCallerId: nat, store: Store, sent: map<CallId, MemberId>,
    up: seq<Call>, down: seq<Reply>, targets: map<MemberId, Target>,
    /** The calls of which the server has sent the caller anything. */
    answered: set<CallId>)

  const START := Net(false, 0, Store(map[], {}), map[], [], [], map[], {})

  datatype Action =
    | Connect
    | RunAsync(target: MemberId)
    | AskReach(id: CallId, callback: Callback)
    | AskFinish(id: CallId, callback: Callback)
      /** For the first time, or again, whether or not the server has noticed that the old connection is
          gone. Only the first `received` calls had arrived over that, and the first `gone` replies were
          sent into it. */
    | TargetConnects(target: MemberId, received: nat, gone: nat)
    | ServerGetsCall
    | TargetGetsCall(target: MemberId, found: bool)
    | TargetFinishes(target: MemberId, id: CallId, outcome: Outcome)
    | ServerGetsReply(target: MemberId)
      /** The server notices; only the first `received` calls had arrived. */
    | TargetCloses(target: MemberId, received: nat, aborts: seq<Reply>)
      /** The same for an earlier connection. */
    | ServerGetsOldReply(target: MemberId, i: nat)
    | OldCloses(target: MemberId, i: nat, aborts: seq<Reply>)
    | CallerGetsReply

  function RunAsyncStep(s: Net, target: MemberId): Net {
    var id := s.nextCallerId;
    var t := s.(nextCallerId := id + 1, store := OnRunAsync(s.store, id, s.online));
    if s.online then t.(sent := s.sent[id := target], up := s.up + [Call(id, target)]) else t
  }

  function GetCall(s: Net): Net
    requires s.up != []
  {
    var Call(id, target) := s.up[0];
    if target in s.targets && s.targets[target].link.connected then
      var t := s.targets[target];
      s.(up := s.up[1..],
         targets := s.targets[target :=
           t.(down := t.down + [s.up[0]], link := Forwarded(t.link, id), calls := t.calls + {id})])
    else
      s.(up := s.up[1..], down := s.down + [CallResponse(id, false)], answered := s.answered + {id})
  }

  /** The target goes on with what it has received whether or not it is still connected. */
  function Answer(t: Target, found: bool): Target
    requires t.down != []
  {
    var id := t.down[0].id;
    t.(down := t.down[1..], up := t.up + [CallResponse(id, found)],
       running := if found then t.running + {id} else t.running)
  }

  function Finish(t: Target, id: CallId, outcome: Outcome): Target {
    t.(running := t.running - {id}, up := t.up + [CallResult(id, outcome)])
  }

  /** The server passes a reply on. */
  function HandOver(t: Target, answered: bool): Target
    requires t.up != []
  {
    var r := t.up[0];
    t.(up := t.up[1..], link := Replied(t.link, r),
       calls := if r.CallResponse? && r.started && !answered then t.calls + {r.id} else t.calls)
  }

  function HandOverOld(t: Target, i: nat): Target
    requires i < |t.olds| && t.olds[i].up != []
  {
    var o := t.olds[i];
    t.(olds := t.olds[i := Old(Replied(o.link, o.up[0]), o.up[1..])])
  }

  function Close(t: Target, received: nat): Target
    requires received <= |t.down|
  {
    t.(link := t.link.(connected := false), down := t.down[..received], calls := {})
  }

  function CloseOld(t: Target, i: nat): Target
    requires i < |t.olds|
  {
    t.(olds := t.olds[..i] + t.olds[i + 1..])
  }

  /** What was received, what is still queued and what still runs goes on under the new connection. */
  function Reopen(t: Target, received: nat, gone: nat): Target
    requires received <= |t.down| && gone <= |t.up|
  {
    t.(link := NEW_LINK, down := t.down[..received], up := t.up[gone..], calls := {},
       olds := if t.link.connected then t.olds + [Old(t.link, t.up[..gone])] else t.olds)
  }

  function IdsOf(replies: seq<Reply>): set<CallId> {
    set r | r in replies :: r.id
  }

  /** The server sends the caller something on behalf of a target. */
  function Forth(s: Net, target: MemberId, u: Target, replies: seq<Reply>): Net {
    s.(down := s.down + replies, answered := s.answered + IdsOf(replies), targets := s.targets[target := u])
  }

  ghost predicate Next(s: Net, a: Action, s': Net) {
    match a
    case Connect => s' == s.(online := true)
    case RunAsync(target) => s' == RunAsyncStep(s, target)
    case AskReach(id, callback) =>
      && id in s.store.promises
      && s' == s.(store := s.store.(promises :=
           s.store.promises[id := TakeReachEvent(WithReachEvent(s.store.promises[id], callback)).0]))
    case AskFinish(id, callback) =>
      && id in s.store.promises
      && s' == s.(store := s.store.(promises :=
           s.store.promises[id := TakeFinishEvent(WithFinishEvent(s.store.promises[id], callback)).0]))
    case TargetConnects(target, received, gone) =>
      if target !in s.targets then s' == s.(targets := s.targets[target := NEW_TARGET])
      else
        var t := s.targets[target];
        && received <= |t.down| && gone <= |t.up|
        && s' == s.(targets := s.targets[target := Reopen(t, received, gone)])
    case ServerGetsCall => s.up != [] && s' == GetCall(s)
    case TargetGetsCall(target, found) =>
      && target in s.targets && s.targets[target].down != []
      && s' == s.(targets := s.targets[target := Answer(s.targets[target], found)])
    case TargetFinishes(target, id, outcome) =>
      && target in s.targets && id in s.targets[target].running
      && s' == s.(targets := s.targets[target := Finish(s.targets[target], id, outcome)])
    case ServerGetsReply(target) =>
      && target in s.targets && s.targets[target].link.connected && s.targets[target].up != []
      && var t := s.targets[target];
      s' == Forth(s, target, HandOver(t, t.up[0].id in s.answered), [t.up[0]])
    case TargetCloses(target, received, aborts) =>
      && target in s.targets && s.targets[target].link.connected && received <= |s.targets[target].down|
      && AreAborts(s.targets[target].link.pending, aborts)
      && s' == Forth(s, target, Close(s.targets[target], received), aborts)
    case ServerGetsOldReply(target, i) =>
      && target in s.targets && i < |s.targets[target].olds| && s.targets[target].olds[i].up != []
      && var t := s.targets[target];
      s' == Forth(s, target, HandOverOld(t, i), [t.olds[i].up[0]])
    case OldCloses(target, i, aborts) =>
      && target in s.targets && i < |s.targets[target].olds|
      && AreAborts(s.targets[target].olds[i].link.pending, aborts)
      && s' == Forth(s, target, CloseOld(s.targets[target], i), aborts)
    case CallerGetsReply =>
      s.down != [] && s' == s.(down := s.down[1..], store := OnReply(s.store, s.down[0]))
  }

  ghost predicate IsRun(states: seq<Net>, actions: seq<Action>) {
    && |states| == |actions| + 1 && states[0] == START
    && forall i :: 0 <= i < |actions| ==> Next(states[i], actions[i], states[i + 1])
  }
}
