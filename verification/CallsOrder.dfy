/** Whether the caller learns that a function has started before it learns the result. */
module CallsOrder {
  import opened Promises
  import opened Calls
  import opened CallsSafety

  ghost predicate Unfounded(d: Data) {
    d.finished && !d.isError && !(d.reached && d.found)
  }

  ghost predicate Founded(s: Net) {
    forall id: CallId :: Known(s, id) ==> !Unfounded(s.store.promises[id])
  }

  predicate IsSuccess(r: Reply) {
    r.CallResult? && r.outcome.Respond?
  }

  /** The first thing the caller will get about a call is its successful end. */
  ghost predicate Early(s: Net, id: CallId) {
    Fresh(s.store, id) && Select(s.down, id) != [] && IsSuccess(Select(s.down, id)[0])
  }

  ghost predicate EarlyWaits(s: Net) {
    exists id: CallId :: Early(s, id)
  }

  /** The server passes on a successful result before it has sent the caller anything about the call. Both
      are seen at the server when it gets the result. */
  ghost predicate Overtakes(s: Net, a: Action) {
    match a
    case ServerGetsReply(target) =>
      && target in s.targets && s.targets[target].up != []
      && IsSuccess(s.targets[target].up[0]) && s.targets[target].up[0].id !in s.answered
    case ServerGetsOldReply(target, i) =>
      && target in s.targets && i < |s.targets[target].olds| && s.targets[target].olds[i].up != []
      && IsSuccess(s.targets[target].olds[i].up[0]) && s.targets[target].olds[i].up[0].id !in s.answered
    case _ => false
  }

  lemma EarlyAfter(s: Net, t: Net, replies: seq<Reply>, id: CallId)
    requires t.store == s.store && t.down == s.down + replies
    ensures Early(t, id) <==>
              Early(s, id)
              || (Fresh(s.store, id) && Select(s.down, id) == [] && Select(replies, id) != []
                  && IsSuccess(Select(replies, id)[0]))
  {
    SelectOfAppend(s.down, replies, id);
  }

  /** Refusals and aborts are no successes. */
  lemma FailuresAreNotEarly(s: Net, t: Net, replies: seq<Reply>)
    requires t.store == s.store && t.down == s.down + replies
    requires forall id: CallId :: Select(replies, id) != [] ==> !IsSuccess(Select(replies, id)[0])
    ensures Founded(t) <==> Founded(s)
    ensures EarlyWaits(t) <==> EarlyWaits(s)
  {
    forall id: CallId
      ensures Early(t, id) <==> Early(s, id)
    {
      EarlyAfter(s, t, replies, id);
    }
    if EarlyWaits(t) {
      var id: CallId :| Early(t, id);
      assert Early(s, id);
    }
    if EarlyWaits(s) {
      var id: CallId :| Early(s, id);
      assert Early(t, id);
    }
  }

  lemma PassedOnIsEarly(s: Net, t: Net, r: Reply)
    requires t.store == s.store && t.down == s.down + [r]
    requires CallOk(s, r.id) && r.id in s.sent
    ensures Founded(t) <==> Founded(s)
    ensures EarlyWaits(t) <==> EarlyWaits(s) || (IsSuccess(r) && r.id !in s.answered)
  {
    forall id: CallId
      ensures Early(t, id) <==> Early(s, id) || (id == r.id && IsSuccess(r) && r.id !in s.answered)
    {
      EarlyAfter(s, t, [r], id);
      SelectOfOne(r, id);
    }
    if EarlyWaits(s) {
      var id: CallId :| Early(s, id);
      assert Early(t, id);
    }
    if IsSuccess(r) && r.id !in s.answered {
      assert Early(t, r.id);
    }
  }

  lemma SameStoreSameWaits(s: Net, t: Net)
    requires t.store == s.store && t.down == s.down
    ensures (Founded(t) <==> Founded(s)) && (EarlyWaits(t) <==> EarlyWaits(s))
  {
    assert s.down + [] == s.down;
    FailuresAreNotEarly(s, t, []);
  }

  /** Delivering a reply: an early success makes its promise unfounded, nothing else does. */
  lemma DeliveryFounds(s: Net, t: Net, reply: Reply, id: CallId)
    requires InOrder(s, id) && s.down != [] && reply == s.down[0]
    requires t == s.(down := s.down[1..], store := OnReply(s.store, reply))
    requires Known(s, id) ==> !Unfounded(s.store.promises[id])
    ensures Known(t, id) <==> Known(s, id)
    ensures Known(t, id) && Unfounded(t.store.promises[id]) <==> Early(s, id) && reply.id == id
    ensures Early(t, id) <==> Early(s, id) && reply.id != id
  {
    SelectOfFirst(s.down, id);
    if reply.id == id && Known(s, id) && id in s.sent {
      PhaseStays(s.store, id, Select(s.down, id));
    }
  }

  lemma DeliveryIsExact(s: Net, t: Net)
    requires CallsSafety.Inv(s) && Next(s, CallerGetsReply, t) && Founded(s)
    ensures (Founded(t) && !EarlyWaits(t)) <==> !EarlyWaits(s)
  {
    forall id: CallId
      ensures Known(t, id) <==> Known(s, id)
      ensures Known(t, id) && Unfounded(t.store.promises[id]) <==> Early(s, id) && s.down[0].id == id
      ensures Early(t, id) <==> Early(s, id) && s.down[0].id != id
    {
      assert InOrder(s, id);
      DeliveryFounds(s, t, s.down[0], id);
    }
    if EarlyWaits(s) {
      var id: CallId :| Early(s, id);
      assert Early(t, id) || (Known(t, id) && Unfounded(t.store.promises[id]));
    }
  }

  lemma NewCallIsFounded(s: Net, target: MemberId, t: Net)
    requires CallsSafety.Inv(s) && Next(s, RunAsync(target), t) && Founded(s)
    ensures Founded(t) && (EarlyWaits(t) <==> EarlyWaits(s))
  {
    var n := s.nextCallerId;
    assert InOrder(s, n);
    forall id: CallId
      ensures Early(t, id) <==> Early(s, id)
    {
    }
    if EarlyWaits(t) {
      var id: CallId :| Early(t, id);
      assert Early(s, id);
    }
    if EarlyWaits(s) {
      var id: CallId :| Early(s, id);
      assert Early(t, id);
    }
  }

  lemma CallbacksKeepFounded(s: Net, t: Net, id: CallId, d: Data)
    requires id in s.store.promises && Founded(s)
    requires t == s.(store := s.store.(promises := s.store.promises[id := d]))
    requires d.reached == s.store.promises[id].reached && d.found == s.store.promises[id].found
    requires d.finished == s.store.promises[id].finished && d.isError == s.store.promises[id].isError
    ensures Founded(t) && (EarlyWaits(t) <==> EarlyWaits(s))
  {
    forall i: CallId
      ensures Early(t, i) <==> Early(s, i)
    {
    }
    forall i: CallId | Known(t, i)
      ensures !Unfounded(t.store.promises[i])
    {
      assert Known(s, i);
    }
    if EarlyWaits(t) {
      var i: CallId :| Early(t, i);
      assert Early(s, i);
    }
    if EarlyWaits(s) {
      var i: CallId :| Early(s, i);
      assert Early(t, i);
    }
  }

  lemma RefusalIsNotEarly(s: Net, t: Net)
    requires Next(s, ServerGetsCall, t)
    ensures (Founded(t) <==> Founded(s)) && (EarlyWaits(t) <==> EarlyWaits(s))
  {
    var call := s.up[0];
    if call.target in s.targets && s.targets[call.target].link.connected {
      SameStoreSameWaits(s, t);
    } else {
      var refusal := CallResponse(call.id, false);
      forall id: CallId
        ensures Select([refusal], id) != [] ==> !IsSuccess(Select([refusal], id)[0])
      {
        SelectOfOne(refusal, id);
      }
      FailuresAreNotEarly(s, t, [refusal]);
    }
  }

  lemma AbortsAreNotEarly(s: Net, t: Net, pending: Pending, aborts: seq<Reply>)
    requires t.store == s.store && t.down == s.down + aborts && AreAborts(pending, aborts)
    ensures (Founded(t) <==> Founded(s)) && (EarlyWaits(t) <==> EarlyWaits(s))
  {
    forall id: CallId
      ensures Select(aborts, id) != [] ==> !IsSuccess(Select(aborts, id)[0])
    {
      assert Select(aborts, id) == Abort(pending, id);
    }
    FailuresAreNotEarly(s, t, aborts);
  }

  lemma PassingOnIsExact(s: Net, target: MemberId, t: Net)
    requires CallsSafety.Inv(s) && Next(s, ServerGetsReply(target), t)
    ensures Founded(t) <==> Founded(s)
    ensures EarlyWaits(t) <==> EarlyWaits(s) || Overtakes(s, ServerGetsReply(target))
  {
    var r := s.targets[target].up[0];
    SelectOfFirst(s.targets[target].up, r.id);
    TouchedCall(s, target, r.id);
    PassedOnIsEarly(s, t, r);
  }

  lemma OldPassingOnIsExact(s: Net, target: MemberId, i: nat, t: Net)
    requires CallsSafety.Inv(s) && Next(s, ServerGetsOldReply(target, i), t)
    ensures Founded(t) <==> Founded(s)
    ensures EarlyWaits(t) <==> EarlyWaits(s) || Overtakes(s, ServerGetsOldReply(target, i))
  {
    var r := s.targets[target].olds[i].up[0];
    SelectOfFirst(s.targets[target].olds[i].up, r.id);
    assert !OldQuiet(s.targets[target].olds, r.id);
    TouchedCall(s, target, r.id);
    PassedOnIsEarly(s, t, r);
  }

  lemma StepIsExact(s: Net, a: Action, t: Net)
    requires CallsSafety.Inv(s) && Next(s, a, t) && Founded(s)
    ensures (Founded(t) && !EarlyWaits(t)) <==> (!EarlyWaits(s) && !Overtakes(s, a))
  {
    match a
    case RunAsync(target) => NewCallIsFounded(s, target, t);
    case AskReach(id, callback) =>
      CallbacksKeepFounded(s, t, id, TakeReachEvent(WithReachEvent(s.store.promises[id], callback)).0);
    case AskFinish(id, callback) =>
      CallbacksKeepFounded(s, t, id, TakeFinishEvent(WithFinishEvent(s.store.promises[id], callback)).0);
    case ServerGetsCall => RefusalIsNotEarly(s, t);
    case ServerGetsReply(target) => PassingOnIsExact(s, target, t);
    case ServerGetsOldReply(target, i) => OldPassingOnIsExact(s, target, i, t);
    case TargetCloses(target, _, aborts) => AbortsAreNotEarly(s, t, s.targets[target].link.pending, aborts);
    case OldCloses(target, i, aborts) => AbortsAreNotEarly(s, t, s.targets[target].olds[i].link.pending, aborts);
    case CallerGetsReply => DeliveryIsExact(s, t);
    case _ => SameStoreSameWaits(s, t);
  }

  ghost predicate FoundedSoFar(states: seq<Net>, n: nat)
    requires n < |states|
  {
    forall i :: 0 <= i <= n ==> Founded(states[i])
  }

  ghost predicate NoneOvertakes(states: seq<Net>, actions: seq<Action>, n: nat)
    requires |states| == |actions| + 1 && n <= |actions|
  {
    forall i :: 0 <= i < n ==> !Overtakes(states[i], actions[i])
  }

  lemma OneMoreState(states: seq<Net>, actions: seq<Action>, n: nat)
    requires |states| == |actions| + 1 && n < |actions|
    ensures FoundedSoFar(states, n + 1) <==> FoundedSoFar(states, n) && Founded(states[n + 1])
    ensures NoneOvertakes(states, actions, n + 1) <==>
              NoneOvertakes(states, actions, n) && !Overtakes(states[n], actions[n])
    ensures FoundedSoFar(states, n) ==> Founded(states[n])
  {
  }

  lemma OneMoreStep(states: seq<Net>, actions: seq<Action>, n: nat)
    requires IsRun(states, actions) && n < |actions|
    requires NoneOvertakes(states, actions, n) <==> FoundedSoFar(states, n) && !EarlyWaits(states[n])
    ensures NoneOvertakes(states, actions, n + 1) <==> FoundedSoFar(states, n + 1) && !EarlyWaits(states[n + 1])
  {
    OneMoreState(states, actions, n);
    if FoundedSoFar(states, n) {
      CallsSafety.RunKeepsInv(states, actions, n);
      StepIsExact(states[n], actions[n], states[n + 1]);
    }
  }

  /** Exactly when no result has overtaken its response: every success so far was reached and found, and no
      early success is on its way. */
  lemma {:induction false} FoundedWhileNoneOvertakes(states: seq<Net>, actions: seq<Action>, n: nat)
    requires IsRun(states, actions) && n <= |actions|
    ensures NoneOvertakes(states, actions, n) <==> FoundedSoFar(states, n) && !EarlyWaits(states[n])
  {
    if n > 0 {
      FoundedWhileNoneOvertakes(states, actions, n - 1);
      OneMoreStep(states, actions, n - 1);
    }
  }

  /** A promise that finished without an error was reached, and its function was found, over every run in
      which no result overtakes its response; and, once everything sent to the caller is delivered, over no
      others. */
  lemma SuccessMeansFound(states: seq<Net>, actions: seq<Action>, n: nat)
    requires IsRun(states, actions) && n <= |actions|
    ensures NoneOvertakes(states, actions, n) ==> FoundedSoFar(states, n)
    ensures states[n].down == [] ==> (FoundedSoFar(states, n) <==> NoneOvertakes(states, actions, n))
  {
    FoundedWhileNoneOvertakes(states, actions, n);
  }

  // ------------------------------------------------------------------
  // Only a target that connects again too soon brings that about.

  /** No target ever has an earlier connection open. */
  ghost predicate NoOverlap(s: Net) {
    forall m :: m in s.targets ==> s.targets[m].olds == []
  }

  /** With one connection at a time, a result comes after its response. */
  lemma OverlapIsNeeded(states: seq<Net>, actions: seq<Action>, n: nat)
    requires IsRun(states, actions) && n < |actions| && Overtakes(states[n], actions[n])
    ensures !NoOverlap(states[n])
  {
    CallsSafety.RunKeepsInv(states, actions, n);
    var s := states[n];
    if actions[n].ServerGetsReply? && NoOverlap(s) {
      var t := s.targets[actions[n].target];
      var id := t.up[0].id;
      SelectOfFirst(t.up, id);
      TouchedCall(s, actions[n].target, id);
      assert PhaseOf(s.store, id, Select(s.down, id)) == Nothing;
      assert id in t.calls && InProgress(Nothing, id, t);
      WordOfTail(Select(t.up, id));
      assert false;
    }
  }

  /** The target answers over a connection that is gone, connects again before the server has noticed, and
      sends the result over the new one. */
  function OvertakingRun(target: MemberId, value: Value): seq<Net> {
    var joined := Calls.START.(online := true, targets := map[target := NEW_TARGET]);
    var called := RunAsyncStep(joined, target);
    var got := GetCall(called);
    var t := got.targets[target];
    var answered := got.(targets := got.targets[target := Answer(t, true)]);
    var again := Reopen(Answer(t, true), 0, 1);
    var back := answered.(targets := answered.targets[target := again]);
    var finished := Finish(again, 0, Respond(value));
    var done := back.(targets := back.targets[target := finished]);
    var passed := Forth(done, target, HandOver(finished, false), [CallResult(0, Respond(value))]);
    [Calls.START, Calls.START.(online := true), joined, called, got, answered, back, done, passed,
     passed.(down := [], store := OnReply(passed.store, CallResult(0, Respond(value))))]
  }

  function OvertakingActions(target: MemberId, value: Value): seq<Action> {
    [Connect, TargetConnects(target, 0, 0), RunAsync(target), ServerGetsCall, TargetGetsCall(target, true),
     TargetConnects(target, 0, 1), TargetFinishes(target, 0, Respond(value)), ServerGetsReply(target), CallerGetsReply]
  }

  lemma CalledSteps(target: MemberId, value: Value)
    ensures
      var r, a := OvertakingRun(target, value), OvertakingActions(target, value);
      Next(r[0], a[0], r[1]) && Next(r[1], a[1], r[2]) && Next(r[2], a[2], r[3])
  {
  }

  lemma AnsweredSteps(target: MemberId, value: Value)
    ensures
      var r, a := OvertakingRun(target, value), OvertakingActions(target, value);
      Next(r[3], a[3], r[4]) && Next(r[4], a[4], r[5])
  {
  }

  lemma ReturnedSteps(target: MemberId, value: Value)
    ensures
      var r, a := OvertakingRun(target, value), OvertakingActions(target, value);
      Next(r[5], a[5], r[6]) && Next(r[6], a[6], r[7])
  {
  }

  lemma OvertakingSteps(target: MemberId, value: Value)
    ensures
      var r, a := OvertakingRun(target, value), OvertakingActions(target, value);
      Next(r[7], a[7], r[8]) && Next(r[8], a[8], r[9]) && Overtakes(r[7], a[7])
  {
  }

  lemma NineSteps(r: seq<Net>, a: seq<Action>)
    requires |r| == 10 && |a| == 9 && r[0] == Calls.START
    requires Next(r[0], a[0], r[1]) && Next(r[1], a[1], r[2]) && Next(r[2], a[2], r[3])
    requires Next(r[3], a[3], r[4]) && Next(r[4], a[4], r[5]) && Next(r[5], a[5], r[6])
    requires Next(r[6], a[6], r[7]) && Next(r[7], a[7], r[8]) && Next(r[8], a[8], r[9])
    ensures IsRun(r, a)
  {
  }

  /** Then the promise ends with a value although it was never reached. */
  lemma OvertakenIsUnfounded(target: MemberId, value: Value) returns (states: seq<Net>, actions: seq<Action>)
    ensures IsRun(states, actions) && !NoneOvertakes(states, actions, |actions|)
    ensures
      var promises := states[|actions|].store.promises;
      && 0 in promises && promises[0].finished && !promises[0].isError && promises[0].response == value
      && !promises[0].reached
  {
    states, actions := OvertakingRun(target, value), OvertakingActions(target, value);
    CalledSteps(target, value);
    AnsweredSteps(target, value);
    ReturnedSteps(target, value);
    OvertakingSteps(target, value);
    NineSteps(states, actions);
  }
}
