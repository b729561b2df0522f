/** What a promise holds when its call has ended. */
module CallsOutcome {
  import opened Promises
  import opened Calls
  import opened CallsSafety

  // ------------------------------------------------------------------
  // One reply.

  /** A result ends an open promise with what it says: its value or its error, and the other one stays. */
  lemma ResultIsKept(s: Store, id: CallId, outcome: Outcome)
    requires id in s.active && id in s.promises && !s.promises[id].finished
    ensures
      var d, t := s.promises[id], OnResult(s, id, outcome);
      && t.promises.Keys == s.promises.Keys && t.active == s.active - {id}
      && (forall i :: i in s.promises && i != id ==> t.promises[i] == s.promises[i])
      && t.promises[id].finished && t.promises[id].reached == d.reached && t.promises[id].found == d.found
      && (match outcome
          case Respond(value) =>
            !t.promises[id].isError && t.promises[id].response == value && t.promises[id].rejection == d.rejection
          case Reject(message) =>
            t.promises[id].isError && t.promises[id].rejection == message && t.promises[id].response == d.response)
  {
    EndSays(s.promises[id], outcome);
  }

  /** A response reaches a promise, and ends it when the function was not found. */
  lemma ResponseIsKept(s: Store, id: CallId, started: bool)
    requires id in s.active && id in s.promises && !s.promises[id].reached
    ensures
      var d, t := s.promises[id], OnResponse(s, id, started);
      && t.promises.Keys == s.promises.Keys && t.active == (if started then s.active else s.active - {id})
      && (forall i :: i in s.promises && i != id ==> t.promises[i] == s.promises[i])
      && t.promises[id].reached && t.promises[id].found == started && t.promises[id].response == d.response
      && (if started then
            && t.promises[id].finished == d.finished && t.promises[id].isError == d.isError
            && t.promises[id].rejection == d.rejection
          else t.promises[id].finished && t.promises[id].isError && t.promises[id].rejection == NOT_FOUND)
  {
    ReachSays(s.promises[id], started);
  }

  // ------------------------------------------------------------------
  // Over every run.

  /** The end of a function at a target. */
  datatype Made = Made(target: MemberId, id: CallId, outcome: Outcome)

  function MadeIn(actions: seq<Action>): set<Made> {
    set a | a in actions && a.TargetFinishes? :: Made(a.target, a.id, a.outcome)
  }

  /** The promise holds this outcome and nothing else. */
  predicate Holds(d: Data, outcome: Outcome) {
    match outcome
    case Respond(value) => d.finished && !d.isError && d.response == value && d.rejection == ""
    case Reject(message) => d.finished && d.isError && d.rejection == message && d.response == ""
  }

  ghost predicate AllMade(up: seq<Reply>, m: MemberId, made: set<Made>) {
    forall r :: r in up && r.CallResult? ==> Made(m, r.id, r.outcome) in made
  }

  ghost predicate TargetMade(t: Target, m: MemberId, made: set<Made>) {
    AllMade(t.up, m, made) && forall i :: 0 <= i < |t.olds| ==> AllMade(t.olds[i].up, m, made)
  }

  predicate IsKnownOutcome(sent: map<CallId, MemberId>, made: set<Made>, id: CallId, outcome: Outcome) {
    outcome == DISCONNECTED || (id in sent && Made(sent[id], id, outcome) in made)
  }

  ghost predicate DownMade(down: seq<Reply>, sent: map<CallId, MemberId>, made: set<Made>) {
    forall r :: r in down && r.CallResult? ==> IsKnownOutcome(sent, made, r.id, r.outcome)
  }

  /** An open promise holds nothing; one that was reached and not found, or never got out, says so; any
      other holds the outcome of a known result. */
  ghost predicate PromiseOk(d: Data, sent: map<CallId, MemberId>, made: set<Made>, id: CallId) {
    if !d.finished then d.response == "" && d.rejection == ""
    else if d.reached && !d.found then d.isError && d.rejection == NOT_FOUND && d.response == ""
    else exists outcome :: IsKnownOutcome(sent, made, id, outcome) && Holds(d, outcome)
  }

  ghost predicate StoreMade(s: Store, sent: map<CallId, MemberId>, made: set<Made>) {
    forall id: CallId :: id in s.promises ==> PromiseOk(s.promises[id], sent, made, id)
  }

  ghost predicate TargetsMade(s: Net, made: set<Made>) {
    forall m :: m in s.targets ==> TargetMade(s.targets[m], m, made)
  }

  ghost predicate ResultsMade(s: Net, made: set<Made>) {
    TargetsMade(s, made) && DownMade(s.down, s.sent, made) && StoreMade(s.store, s.sent, made)
  }

  lemma MoreMade(s: Net, made: set<Made>, more: set<Made>)
    requires ResultsMade(s, made) && made <= more
    ensures ResultsMade(s, more)
  {
    forall id: CallId | id in s.store.promises
      ensures PromiseOk(s.store.promises[id], s.sent, more, id)
    {
      var d := s.store.promises[id];
      assert PromiseOk(d, s.sent, made, id);
      if d.finished && !(d.reached && !d.found) {
        var outcome :| IsKnownOutcome(s.sent, made, id, outcome) && Holds(d, outcome);
        assert IsKnownOutcome(s.sent, more, id, outcome);
      }
    }
  }

  lemma OneTargetMade(s: Net, target: MemberId, u: Target, replies: seq<Reply>, made: set<Made>)
    requires ResultsMade(s, made) && TargetMade(u, target, made) && DownMade(replies, s.sent, made)
    ensures ResultsMade(Forth(s, target, u, replies), made)
  {
  }

  /** A reply over a connection is passed on to the call's own caller. */
  lemma PassedOnMade(s: Net, target: MemberId, r: Reply, made: set<Made>)
    requires CallsSafety.Inv(s) && target in s.targets && !Untouched(s.targets[target], r.id)
    requires AllMade([r], target, made)
    ensures DownMade([r], s.sent, made)
  {
    TouchedCall(s, target, r.id);
    assert r in [r];
  }

  lemma HandOverMade(s: Net, target: MemberId, t: Net, made: set<Made>)
    requires CallsSafety.Inv(s) && ResultsMade(s, made) && Next(s, ServerGetsReply(target), t)
    ensures ResultsMade(t, made)
  {
    var tg := s.targets[target];
    var r := tg.up[0];
    SelectOfFirst(tg.up, r.id);
    PassedOnMade(s, target, r, made);
    OneTargetMade(s, target, HandOver(tg, r.id in s.answered), [r], made);
  }

  lemma OldHandOverMade(s: Net, target: MemberId, i: nat, t: Net, made: set<Made>)
    requires CallsSafety.Inv(s) && ResultsMade(s, made) && Next(s, ServerGetsOldReply(target, i), t)
    ensures ResultsMade(t, made)
  {
    var tg := s.targets[target];
    var r := tg.olds[i].up[0];
    SelectOfFirst(tg.olds[i].up, r.id);
    assert !OldQuiet(tg.olds, r.id);
    assert AllMade(tg.olds[i].up, target, made);
    PassedOnMade(s, target, r, made);
    assert TargetMade(HandOverOld(tg, i), target, made);
    OneTargetMade(s, target, HandOverOld(tg, i), [r], made);
  }

  lemma {:induction false} AllAreSelected(replies: seq<Reply>, r: Reply)
    requires r in replies
    ensures r in Select(replies, r.id)
  {
    var init, last := replies[..|replies| - 1], replies[|replies| - 1];
    assert replies == init + [last];
    if r in init {
      AllAreSelected(init, r);
    }
  }

  lemma AbortsMade(pending: Pending, aborts: seq<Reply>, sent: map<CallId, MemberId>, made: set<Made>)
    requires AreAborts(pending, aborts)
    ensures DownMade(aborts, sent, made)
  {
    forall r | r in aborts && r.CallResult?
      ensures r.outcome == DISCONNECTED
    {
      AllAreSelected(aborts, r);
      assert Select(aborts, r.id) == Abort(pending, r.id);
    }
  }

  lemma CloseMade(s: Net, target: MemberId, received: nat, aborts: seq<Reply>, t: Net, made: set<Made>)
    requires ResultsMade(s, made) && Next(s, TargetCloses(target, received, aborts), t)
    ensures ResultsMade(t, made)
  {
    AbortsMade(s.targets[target].link.pending, aborts, s.sent, made);
    OneTargetMade(s, target, Close(s.targets[target], received), aborts, made);
  }

  lemma OldCloseMade(s: Net, target: MemberId, i: nat, aborts: seq<Reply>, t: Net, made: set<Made>)
    requires ResultsMade(s, made) && Next(s, OldCloses(target, i, aborts), t)
    ensures ResultsMade(t, made)
  {
    var tg := s.targets[target];
    AbortsMade(tg.olds[i].link.pending, aborts, s.sent, made);
    forall j | 0 <= j < |CloseOld(tg, i).olds|
      ensures AllMade(CloseOld(tg, i).olds[j].up, target, made)
    {
      assert CloseOld(tg, i).olds[j] == tg.olds[if j < i then j else j + 1];
    }
    OneTargetMade(s, target, CloseOld(tg, i), aborts, made);
  }

  lemma ConnectMade(s: Net, target: MemberId, received: nat, gone: nat, t: Net, made: set<Made>)
    requires ResultsMade(s, made) && Next(s, TargetConnects(target, received, gone), t)
    ensures ResultsMade(t, made)
  {
    if target in s.targets {
      var tg := s.targets[target];
      assert AllMade(tg.up[..gone], target, made) && AllMade(tg.up[gone..], target, made);
      QuietForth(s, target, Reopen(tg, received, gone));
      OneTargetMade(s, target, Reopen(tg, received, gone), [], made);
    }
  }

  lemma AnswerMade(s: Net, target: MemberId, found: bool, t: Net, made: set<Made>)
    requires ResultsMade(s, made) && Next(s, TargetGetsCall(target, found), t)
    ensures ResultsMade(t, made)
  {
    QuietForth(s, target, Answer(s.targets[target], found));
    OneTargetMade(s, target, Answer(s.targets[target], found), [], made);
  }

  lemma FinishMade(s: Net, target: MemberId, id: CallId, outcome: Outcome, t: Net, made: set<Made>)
    requires ResultsMade(s, made) && Next(s, TargetFinishes(target, id, outcome), t)
    requires Made(target, id, outcome) in made
    ensures ResultsMade(t, made)
  {
    QuietForth(s, target, Finish(s.targets[target], id, outcome));
    OneTargetMade(s, target, Finish(s.targets[target], id, outcome), [], made);
  }

  lemma CallMade(s: Net, t: Net, made: set<Made>)
    requires ResultsMade(s, made) && Next(s, ServerGetsCall, t)
    ensures ResultsMade(t, made)
  {
  }

  lemma RunAsyncMade(s: Net, target: MemberId, t: Net, made: set<Made>)
    requires CallsSafety.Inv(s) && ResultsMade(s, made) && Next(s, RunAsync(target), t)
    ensures ResultsMade(t, made)
  {
    var n := s.nextCallerId;
    assert InOrder(s, n);
    ReachSays(FRESH, false);
    forall r | r in s.down && r.CallResult?
      ensures IsKnownOutcome(t.sent, made, r.id, r.outcome)
    {
      AllAreSelected(s.down, r);
      assert InOrder(s, r.id);
    }
    forall id: CallId | id in t.store.promises
      ensures PromiseOk(t.store.promises[id], t.sent, made, id)
    {
      if id != n {
        assert PromiseOk(s.store.promises[id], s.sent, made, id);
        KnownStays(s, target, t, made, id);
      }
    }
  }

  lemma KnownStays(s: Net, target: MemberId, t: Net, made: set<Made>, id: CallId)
    requires t == RunAsyncStep(s, target) && id != s.nextCallerId
    ensures forall outcome :: IsKnownOutcome(s.sent, made, id, outcome) <==> IsKnownOutcome(t.sent, made, id, outcome)
  {
  }

  lemma SamePromise(d: Data, e: Data, sent: map<CallId, MemberId>, made: set<Made>, id: CallId)
    requires SameResult(d, e) && PromiseOk(d, sent, made, id)
    ensures PromiseOk(e, sent, made, id)
  {
    if d.finished && !(d.reached && !d.found) {
      var outcome :| IsKnownOutcome(sent, made, id, outcome) && Holds(d, outcome);
      assert Holds(e, outcome);
    }
  }

  lemma CallbackMade(s: Net, a: Action, t: Net, made: set<Made>)
    requires ResultsMade(s, made) && Next(s, a, t) && (a.AskReach? || a.AskFinish?)
    ensures ResultsMade(t, made)
  {
    AskReachSays(s.store.promises[a.id], a.callback);
    AskFinishSays(s.store.promises[a.id], a.callback);
    forall id: CallId | id in t.store.promises
      ensures PromiseOk(t.store.promises[id], t.sent, made, id)
    {
      SamePromise(s.store.promises[id], t.store.promises[id], s.sent, made, id);
    }
  }

  /** The delivery of a result to an open promise. */
  lemma ResultMade(s: Store, r: Reply, sent: map<CallId, MemberId>, made: set<Made>)
    requires StoreMade(s, sent, made) && r.CallResult? && IsKnownOutcome(sent, made, r.id, r.outcome)
    requires r.id in s.active && r.id in s.promises && !s.promises[r.id].finished
    requires s.promises[r.id].reached ==> s.promises[r.id].found
    ensures StoreMade(OnReply(s, r), sent, made)
  {
    ResultIsKept(s, r.id, r.outcome);
    assert PromiseOk(s.promises[r.id], sent, made, r.id);
    assert Holds(OnReply(s, r).promises[r.id], r.outcome);
  }

  lemma ResponseMade(s: Store, r: Reply, sent: map<CallId, MemberId>, made: set<Made>)
    requires StoreMade(s, sent, made) && r.CallResponse?
    requires r.id in s.active && r.id in s.promises && !s.promises[r.id].reached && !s.promises[r.id].finished
    ensures StoreMade(OnReply(s, r), sent, made)
  {
    ResponseIsKept(s, r.id, r.started);
    assert PromiseOk(s.promises[r.id], sent, made, r.id);
  }

  lemma DeliveryMade(s: Net, t: Net, made: set<Made>)
    requires CallsSafety.Inv(s) && ResultsMade(s, made) && Next(s, CallerGetsReply, t)
    ensures ResultsMade(t, made)
  {
    var r := s.down[0];
    assert s.down == [r] + t.down;
    assert r in s.down;
    assert InOrder(s, r.id);
    if OnReply(s.store, r) == s.store {
    } else if r.CallResult? {
      ResultMade(s.store, r, s.sent, made);
    } else {
      ResponseMade(s.store, r, s.sent, made);
    }
  }

  lemma StepMade(s: Net, a: Action, t: Net, made: set<Made>)
    requires CallsSafety.Inv(s) && ResultsMade(s, made) && Next(s, a, t)
    requires a.TargetFinishes? ==> Made(a.target, a.id, a.outcome) in made
    ensures ResultsMade(t, made)
  {
    match a
    case Connect =>
    case RunAsync(target) => RunAsyncMade(s, target, t, made);
    case AskReach(_, _) => CallbackMade(s, a, t, made);
    case AskFinish(_, _) => CallbackMade(s, a, t, made);
    case TargetConnects(target, received, gone) => ConnectMade(s, target, received, gone, t, made);
    case ServerGetsCall => CallMade(s, t, made);
    case TargetGetsCall(target, found) => AnswerMade(s, target, found, t, made);
    case TargetFinishes(target, id, outcome) => FinishMade(s, target, id, outcome, t, made);
    case ServerGetsReply(target) => HandOverMade(s, target, t, made);
    case TargetCloses(target, received, aborts) => CloseMade(s, target, received, aborts, t, made);
    case ServerGetsOldReply(target, i) => OldHandOverMade(s, target, i, t, made);
    case OldCloses(target, i, aborts) => OldCloseMade(s, target, i, aborts, t, made);
    case CallerGetsReply => DeliveryMade(s, t, made);
  }

  lemma {:induction false} RunMade(states: seq<Net>, actions: seq<Action>, n: nat)
    requires IsRun(states, actions) && n <= |actions|
    ensures ResultsMade(states[n], MadeIn(actions[..n]))
  {
    if n > 0 {
      RunMade(states, actions, n - 1);
      CallsSafety.RunKeepsInv(states, actions, n - 1);
      assert actions[..n] == actions[..n - 1] + [actions[n - 1]];
      MoreMade(states[n - 1], MadeIn(actions[..n - 1]), MadeIn(actions[..n]));
      StepMade(states[n - 1], actions[n - 1], states[n], MadeIn(actions[..n]));
    }
  }

  /** Over every run, a promise that has ended was not found, and says so, or holds exactly the outcome with
      which the function ended at the target that was called, or that of an abort; an open one holds
      nothing. */
  lemma EndedAsMade(states: seq<Net>, actions: seq<Action>, n: nat, id: CallId)
    requires IsRun(states, actions) && n <= |actions| && id in states[n].store.promises
    ensures
      var s := states[n];
      var d := s.store.promises[id];
      && (!d.finished ==> d.response == "" && d.rejection == "")
      && (d.finished && d.reached && !d.found ==> d.isError && d.rejection == NOT_FOUND && d.response == "")
      && (d.finished && !(d.reached && !d.found) ==>
            || Holds(d, DISCONNECTED)
            || (id in s.sent
                && exists i :: 0 <= i < n && actions[i].TargetFinishes? && actions[i].target == s.sent[id]
                     && actions[i].id == id && Holds(d, actions[i].outcome)))
  {
    RunMade(states, actions, n);
    var s := states[n];
    var d := s.store.promises[id];
    assert PromiseOk(d, s.sent, MadeIn(actions[..n]), id);
    if d.finished && !(d.reached && !d.found) {
      var outcome :| IsKnownOutcome(s.sent, MadeIn(actions[..n]), id, outcome) && Holds(d, outcome);
      if outcome != DISCONNECTED {
        var a :| && a in actions[..n] && a.TargetFinishes?
                 && Made(a.target, a.id, a.outcome) == Made(s.sent[id], id, outcome);
        var i :| 0 <= i < n && actions[..n][i] == a;
        assert actions[i] == a;
      }
    }
  }
}
