/** Remote calls end exactly once, over every interleaving. */
module CallsSafety {
  import opened Promises
  import opened Calls

  // ------------------------------------------------------------------
  // A finished promise is final, whatever messages come.

  /** A promise that finished without leaving the store has been reached: it failed offline. */
  ghost predicate StoreOk(s: Store) {
    forall id :: id in s.active ==> id in s.promises && (s.promises[id].finished ==> s.promises[id].reached)
  }

  /** No reply, in or out of order, expected or not, changes a finished promise. */
  lemma FinishedIsFinal(s: Store, r: Reply, id: CallId)
    requires StoreOk(s) && id in s.promises && s.promises[id].finished
    ensures StoreOk(OnReply(s, r)) && id in OnReply(s, r).promises && OnReply(s, r).promises[id] == s.promises[id]
  {
  }

  // ------------------------------------------------------------------
  // The caller's side of one call.

  ghost predicate Fresh(s: Store, id: CallId) {
    id in s.promises && id in s.active && !s.promises[id].reached && !s.promises[id].finished
  }

  ghost predicate Going(s: Store, id: CallId) {
    && id in s.promises && id in s.active
    && s.promises[id].reached && s.promises[id].found && !s.promises[id].finished
  }

  ghost predicate Gone(s: Store, id: CallId) {
    id in s.promises && id !in s.active && s.promises[id].finished
  }

  /** Called while not connected: finished at once, and never removed from the store. */
  ghost predicate Offline(s: Store, id: CallId) {
    && id in s.promises && id in s.active
    && s.promises[id].reached && !s.promises[id].found && s.promises[id].finished && s.promises[id].isError
  }

  ghost predicate HasResult(d: seq<Reply>) {
    exists r :: r in d && r.CallResult?
  }

  /** What the caller will have got once the replies `d` are delivered: nothing yet, the news that the
      function has started, or the end. */
  datatype Phase = Nothing | Started | Ended

  ghost function PhaseOf(s: Store, id: CallId, d: seq<Reply>): Phase {
    if Fresh(s, id) then
      if d == [] then Nothing
      else if d[0].CallResponse? && d[0].started && !HasResult(d) then Started
      else Ended
    else if Going(s, id) && !HasResult(d) then Started
    else Ended
  }

  function After(p: Phase, r: Reply): Phase {
    match p
    case Nothing => if r.CallResponse? && r.started then Started else Ended
    case Started => if r.CallResult? then Ended else Started
    case Ended => Ended
  }

  lemma PhaseGrows(s: Store, id: CallId, d: seq<Reply>, r: Reply)
    ensures PhaseOf(s, id, d + [r]) == After(PhaseOf(s, id, d), r)
  {
    assert r in d + [r];
    assert HasResult(d + [r]) <==> HasResult(d) || r.CallResult?;
  }

  ghost predicate OpenOrGone(s: Store, id: CallId) {
    Fresh(s, id) || Going(s, id) || Gone(s, id)
  }

  /** Delivering a reply changes nothing about that. */
  lemma PhaseStays(s: Store, id: CallId, d: seq<Reply>)
    requires OpenOrGone(s, id) && d != [] && d[0].id == id
    ensures OpenOrGone(OnReply(s, d[0]), id)
    ensures PhaseOf(OnReply(s, d[0]), id, d[1..]) == PhaseOf(s, id, d)
    ensures !Fresh(OnReply(s, d[0]), id)
  {
    assert d == [d[0]] + d[1..];
    assert HasResult(d) <==> d[0].CallResult? || HasResult(d[1..]);
  }

  // ------------------------------------------------------------------
  // The target's side of one call.

  /** Replies to one call: T and F a response, R a result. */
  datatype Word = Empty | T | F | R | TR | Other

  function WordOf(q: seq<Reply>): Word {
    if |q| == 0 then Empty
    else if |q| == 1 then
      if q[0].CallResult? then R else if q[0].started then T else F
    else if |q| == 2 && q[0].CallResponse? && q[0].started && q[1].CallResult? then TR
    else Other
  }

  /** The word of one more reply. */
  function Longer(w: Word, r: Reply): Word {
    match w
    case Empty => if r.CallResult? then R else if r.started then T else F
    case T => if r.CallResult? then TR else Other
    case _ => Other
  }

  lemma WordOfAppend(q: seq<Reply>, r: Reply)
    ensures WordOf(q + [r]) == Longer(WordOf(q), r)
  {
  }

  lemma WordOfTail(q: seq<Reply>)
    requires q != [] && WordOf(q) != Other
    ensures WordOf(q[1..]) == if WordOf(q) == TR then R else Empty
    ensures WordOf(q).TR? || WordOf(q).T? ==> q[0].CallResponse? && q[0].started
    ensures WordOf(q).F? ==> q[0].CallResponse? && !q[0].started
    ensures WordOf(q).R? ==> q[0].CallResult?
  {
  }

  predicate OwesAt(p: Pending, id: CallId, v: int) {
    id in p && p[id] == v
  }

  /** An earlier connection owes `v` replies. */
  ghost predicate OldOwes(olds: seq<Old>, id: CallId, v: int) {
    exists i :: 0 <= i < |olds| && OwesAt(olds[i].link.pending, id, v)
  }

  ghost predicate OldQuiet(olds: seq<Old>, id: CallId) {
    forall i :: 0 <= i < |olds| ==> Select(olds[i].up, id) == []
  }

  ghost predicate OldUnknown(olds: seq<Old>, id: CallId) {
    forall i :: 0 <= i < |olds| ==> id !in olds[i].link.pending
  }

  /** No earlier connection has passed on anything. */
  ghost predicate OldSilent(olds: seq<Old>, id: CallId) {
    forall i :: 0 <= i < |olds| ==> (id in olds[i].link.pending ==> olds[i].link.pending[id] == 2)
  }

  ghost predicate Untouched(t: Target, id: CallId) {
    && SelectCalls(t.down, id) == [] && Select(t.up, id) == []
    && id !in t.running && id !in t.link.pending && id !in t.calls
    && OldQuiet(t.olds, id) && OldUnknown(t.olds, id)
  }

  /** What the target has received, runs and has queued, whatever has become of the rest. */
  ghost predicate Local(t: Target, id: CallId) {
    var b, u, run := SelectCalls(t.down, id), WordOf(Select(t.up, id)), id in t.running;
    && u != Other
    && (b != [] ==> |b| == 1 && !run && u == Empty && OldQuiet(t.olds, id))
    && (run ==> u == Empty || u == T) && (u == T ==> run)
    && (u == T || u == TR || u == F ==> OldQuiet(t.olds, id))
  }

  /** The newest connection still owes a reply that the caller waits for. */
  ghost predicate InProgress(p: Phase, id: CallId, t: Target)
    requires id in t.link.pending
  {
    var b, u, run, v := SelectCalls(t.down, id), WordOf(Select(t.up, id)), id in t.running, t.link.pending[id];
    && OldQuiet(t.olds, id)
    && (if v == 2 then p == Nothing && OldUnknown(t.olds, id) && (b != [] || u == T || u == TR || u == F)
        else v == 1 && p == Started && !OldOwes(t.olds, id, 1) && b == [] && (if run then u == Empty else u == R))
  }

  /** A call to this target that the server has dealt with. */
  ghost predicate TargetOk(p: Phase, id: CallId, t: Target) {
    && Local(t, id)
    && (p == Nothing ==>
          && OldSilent(t.olds, id)
          && (t.link.connected && id in t.link.pending ==> t.link.pending[id] == 2))
    && if id in t.calls then
         && t.link.connected && id in t.link.pending
         && (InProgress(p, id, t) || (p == Ended && SelectCalls(t.down, id) == [] && id !in t.running))
       else
         p == Ended || OldOwes(t.olds, id, if p == Nothing then 2 else 1)
  }

  ghost predicate CallOk(s: Net, id: CallId) {
    var q, d := SelectCalls(s.up, id), Select(s.down, id);
    if id !in s.sent then
      && q == [] && d == [] && Offline(s.store, id) && id !in s.answered
      && forall m :: m in s.targets ==> Untouched(s.targets[m], id)
    else
      var target, p := s.sent[id], PhaseOf(s.store, id, d);
      && OpenOrGone(s.store, id) && (id in s.answered <==> p != Nothing)
      && (forall m :: m in s.targets && m != target ==> Untouched(s.targets[m], id))
      && (if q != [] then
            && q == [Call(id, target)] && p == Nothing
            && (target in s.targets ==> Untouched(s.targets[target], id))
          else if target in s.targets then TargetOk(p, id, s.targets[target])
          else p == Ended)
  }

  /** Nobody has heard of a call that was not made yet. */
  ghost predicate Unknown(s: Net, id: CallId) {
    && id !in s.sent && id !in s.store.active && id !in s.answered
    && SelectCalls(s.up, id) == [] && Select(s.down, id) == []
    && forall m :: m in s.targets ==> Untouched(s.targets[m], id)
  }

  ghost predicate Known(s: Net, id: CallId) {
    id in s.store.promises
  }

  ghost predicate InOrder(s: Net, id: CallId) {
    && (Known(s, id) <==> id < s.nextCallerId)
    && if Known(s, id) then CallOk(s, id) else Unknown(s, id)
  }

  ghost predicate Inv(s: Net) {
    forall id: CallId :: InOrder(s, id)
  }

  // ------------------------------------------------------------------
  // A step that does not concern a call leaves it as it is.

  ghost predicate SamePending(p: Pending, q: Pending, id: CallId) {
    (id in p <==> id in q) && (id in p ==> p[id] == q[id])
  }

  ghost predicate SameOlds(a: seq<Old>, b: seq<Old>, id: CallId) {
    && |a| == |b|
    && forall i :: 0 <= i < |a| ==>
         Select(a[i].up, id) == Select(b[i].up, id) && SamePending(a[i].link.pending, b[i].link.pending, id)
  }

  ghost predicate SameTarget(t: Target, u: Target, id: CallId) {
    && t.link.connected == u.link.connected && SamePending(t.link.pending, u.link.pending, id)
    && SelectCalls(t.down, id) == SelectCalls(u.down, id) && Select(t.up, id) == Select(u.up, id)
    && (id in t.running <==> id in u.running) && (id in t.calls <==> id in u.calls)
    && SameOlds(t.olds, u.olds, id)
  }

  lemma SameOldsSay(a: seq<Old>, b: seq<Old>, id: CallId)
    requires SameOlds(a, b, id)
    ensures OldQuiet(a, id) <==> OldQuiet(b, id)
    ensures OldUnknown(a, id) <==> OldUnknown(b, id)
    ensures OldSilent(a, id) <==> OldSilent(b, id)
    ensures forall v :: OldOwes(a, id, v) <==> OldOwes(b, id, v)
  {
    forall i | 0 <= i < |a|
      ensures forall v :: OwesAt(a[i].link.pending, id, v) <==> OwesAt(b[i].link.pending, id, v)
    {
      assert SamePending(a[i].link.pending, b[i].link.pending, id);
    }
  }

  lemma SameTargetSays(t: Target, u: Target, id: CallId)
    requires SameTarget(t, u, id)
    ensures Untouched(t, id) ==> Untouched(u, id)
    ensures forall p :: TargetOk(p, id, t) ==> TargetOk(p, id, u)
  {
    SameOldsSay(t.olds, u.olds, id);
  }

  ghost predicate SameFlags(s: Store, t: Store, id: CallId) {
    && (id in s.promises <==> id in t.promises) && (id in s.active <==> id in t.active)
    && (id in s.promises ==>
          && s.promises[id].reached == t.promises[id].reached && s.promises[id].found == t.promises[id].found
          && s.promises[id].finished == t.promises[id].finished && s.promises[id].isError == t.promises[id].isError)
  }

  ghost predicate SameCaller(s: Net, t: Net, id: CallId) {
    && SameFlags(s.store, t.store, id) && t.nextCallerId == s.nextCallerId
    && (id in s.sent <==> id in t.sent) && (id in s.sent ==> s.sent[id] == t.sent[id])
    && (id in s.answered <==> id in t.answered)
    && SelectCalls(s.up, id) == SelectCalls(t.up, id) && Select(s.down, id) == Select(t.down, id)
  }

  ghost predicate SameTargets(s: Net, t: Net, id: CallId) {
    && s.targets.Keys == t.targets.Keys
    && forall m :: m in s.targets ==> SameTarget(s.targets[m], t.targets[m], id)
  }

  lemma SamePhase(s: Store, t: Store, id: CallId, d: seq<Reply>)
    requires SameFlags(s, t, id)
    ensures PhaseOf(s, id, d) == PhaseOf(t, id, d)
    ensures OpenOrGone(s, id) <==> OpenOrGone(t, id)
  {
  }

  lemma SameKeepsOk(s: Net, t: Net, id: CallId)
    requires SameCaller(s, t, id) && SameTargets(s, t, id)
    ensures InOrder(s, id) ==> InOrder(t, id)
  {
    SamePhase(s.store, t.store, id, Select(s.down, id));
    forall m | m in s.targets
      ensures Untouched(s.targets[m], id) ==> Untouched(t.targets[m], id)
      ensures forall p :: TargetOk(p, id, s.targets[m]) ==> TargetOk(p, id, t.targets[m])
    {
      SameTargetSays(s.targets[m], t.targets[m], id);
    }
  }

  // ------------------------------------------------------------------
  // One target changes.

  lemma TouchedCall(s: Net, target: MemberId, id: CallId)
    requires Inv(s) && target in s.targets && !Untouched(s.targets[target], id)
    ensures Known(s, id) && CallOk(s, id) && id in s.sent && s.sent[id] == target && SelectCalls(s.up, id) == []
    ensures TargetOk(PhaseOf(s.store, id, Select(s.down, id)), id, s.targets[target])
  {
    assert InOrder(s, id);
  }

  /** What a step of one target with the given replies to the caller does to one call. */
  ghost predicate MovesOn(s: Net, target: MemberId, u: Target, replies: seq<Reply>, id: CallId)
    requires target in s.targets
  {
    var d := Select(s.down, id);
    if Untouched(s.targets[target], id) then Untouched(u, id) && Select(replies, id) == []
    else
      TargetOk(PhaseOf(s.store, id, d), id, s.targets[target]) ==>
        TargetOk(PhaseOf(s.store, id, d + Select(replies, id)), id, u)
  }

  lemma {:induction false} SelectedIsThere(replies: seq<Reply>, id: CallId)
    ensures id in IdsOf(replies) <==> Select(replies, id) != []
  {
    if replies != [] {
      var init, last := replies[..|replies| - 1], replies[|replies| - 1];
      SelectedIsThere(init, id);
      assert replies == init + [last];
      assert IdsOf(replies) == IdsOf(init) + {last.id};
    }
  }

  lemma MoreMeansSomething(s: Store, id: CallId, d: seq<Reply>, more: seq<Reply>)
    ensures PhaseOf(s, id, d + more) == Nothing <==> PhaseOf(s, id, d) == Nothing && more == []
  {
  }

  lemma UntouchedStays(s: Net, target: MemberId, u: Target, replies: seq<Reply>, t: Net, id: CallId)
    requires target in s.targets && t == Forth(s, target, u, replies) && InOrder(s, id)
    requires Untouched(s.targets[target], id) && Untouched(u, id) && Select(replies, id) == []
    ensures InOrder(t, id)
  {
    SelectOfAppend(s.down, replies, id);
    SelectedIsThere(replies, id);
    assert Select(t.down, id) == Select(s.down, id);
    forall m | m in t.targets && Untouched(s.targets[m], id)
      ensures Untouched(t.targets[m], id)
    {
    }
    forall p | TargetOk(p, id, s.targets[target])
      ensures TargetOk(p, id, u)
    {
      UntouchedIsEnded(p, id, s.targets[target], u);
    }
  }

  lemma UntouchedIsEnded(p: Phase, id: CallId, t: Target, u: Target)
    requires Untouched(t, id) && Untouched(u, id) && TargetOk(p, id, t)
    ensures p == Ended && TargetOk(p, id, u)
  {
  }

  lemma TouchedMoves(s: Net, target: MemberId, u: Target, replies: seq<Reply>, t: Net, id: CallId)
    requires Inv(s) && target in s.targets && t == Forth(s, target, u, replies)
    requires !Untouched(s.targets[target], id) && MovesOn(s, target, u, replies, id)
    ensures InOrder(t, id)
  {
    TouchedCall(s, target, id);
    assert InOrder(s, id);
    SelectOfAppend(s.down, replies, id);
    SelectedIsThere(replies, id);
    MoreMeansSomething(s.store, id, Select(s.down, id), Select(replies, id));
  }

  lemma TargetKeepsInv(s: Net, target: MemberId, u: Target, replies: seq<Reply>, t: Net)
    requires Inv(s) && target in s.targets && t == Forth(s, target, u, replies)
    requires forall id: CallId :: MovesOn(s, target, u, replies, id)
    ensures Inv(t)
  {
    forall id: CallId
      ensures InOrder(t, id)
    {
      assert InOrder(s, id) && MovesOn(s, target, u, replies, id);
      if Untouched(s.targets[target], id) {
        UntouchedStays(s, target, u, replies, t, id);
      } else {
        TouchedMoves(s, target, u, replies, t, id);
      }
    }
  }

  lemma SameMovesOn(s: Net, target: MemberId, u: Target, replies: seq<Reply>, id: CallId)
    requires target in s.targets && SameTarget(s.targets[target], u, id) && Select(replies, id) == []
    ensures MovesOn(s, target, u, replies, id)
  {
    SameTargetSays(s.targets[target], u, id);
    assert Select(s.down, id) + [] == Select(s.down, id);
  }

  /** Nothing sent is the special case of the target's own steps. */
  lemma QuietForth(s: Net, target: MemberId, u: Target)
    ensures Forth(s, target, u, []) == s.(targets := s.targets[target := u])
  {
    assert s.down + [] == s.down;
  }

  // ------------------------------------------------------------------
  // The target's own steps.

  lemma AnswerMovesOn(s: Net, target: MemberId, found: bool, id: CallId)
    requires target in s.targets && s.targets[target].down != []
    ensures MovesOn(s, target, Answer(s.targets[target], found), [], id)
  {
    var t := s.targets[target];
    var reply := CallResponse(t.down[0].id, found);
    SelectCallsOfFirst(t.down, id);
    SelectOfAppend(t.up, [reply], id);
    SelectOfOne(reply, id);
    if t.down[0].id != id {
      SameMovesOn(s, target, Answer(t, found), [], id);
    } else {
      AnswerIsOk(PhaseOf(s.store, id, Select(s.down, id)), id, t, found);
      assert Select(s.down, id) + [] == Select(s.down, id);
    }
  }

  lemma AnswerIsOk(p: Phase, id: CallId, t: Target, found: bool)
    requires t.down != [] && t.down[0].id == id
    ensures TargetOk(p, id, t) ==> TargetOk(p, id, Answer(t, found))
  {
    SelectCallsOfFirst(t.down, id);
    SelectOfAppend(t.up, [CallResponse(id, found)], id);
    SelectOfOne(CallResponse(id, found), id);
    WordOfAppend(Select(t.up, id), CallResponse(id, found));
  }

  lemma FinishMovesOn(s: Net, target: MemberId, call: CallId, outcome: Outcome, id: CallId)
    requires target in s.targets && call in s.targets[target].running
    ensures MovesOn(s, target, Finish(s.targets[target], call, outcome), [], id)
  {
    var t := s.targets[target];
    SelectOfAppend(t.up, [CallResult(call, outcome)], id);
    SelectOfOne(CallResult(call, outcome), id);
    if call != id {
      SameMovesOn(s, target, Finish(t, call, outcome), [], id);
    } else {
      FinishIsOk(PhaseOf(s.store, id, Select(s.down, id)), id, t, outcome);
      assert Select(s.down, id) + [] == Select(s.down, id);
    }
  }

  /** What is queued then. */
  lemma FinishedLocal(t: Target, id: CallId, outcome: Outcome)
    requires id in t.running && Local(t, id)
    ensures Local(Finish(t, id, outcome), id)
    ensures WordOf(Select(Finish(t, id, outcome).up, id)) == if WordOf(Select(t.up, id)) == T then TR else R
  {
    SelectOfAppend(t.up, [CallResult(id, outcome)], id);
    SelectOfOne(CallResult(id, outcome), id);
    WordOfAppend(Select(t.up, id), CallResult(id, outcome));
  }

  lemma FinishedInProgress(p: Phase, id: CallId, t: Target, outcome: Outcome)
    requires id in t.running && Local(t, id) && id in t.link.pending && InProgress(p, id, t)
    ensures InProgress(p, id, Finish(t, id, outcome))
  {
    FinishedLocal(t, id, outcome);
  }

  lemma FinishIsOk(p: Phase, id: CallId, t: Target, outcome: Outcome)
    requires id in t.running
    ensures TargetOk(p, id, t) ==> TargetOk(p, id, Finish(t, id, outcome))
  {
    if TargetOk(p, id, t) {
      FinishedLocal(t, id, outcome);
      if id in t.calls {
        FinishedInProgress(p, id, t, outcome);
      }
    }
  }

  lemma TargetGetsCallKeepsInv(s: Net, target: MemberId, found: bool, t: Net)
    requires Inv(s) && Next(s, TargetGetsCall(target, found), t)
    ensures Inv(t)
  {
    var u := Answer(s.targets[target], found);
    QuietForth(s, target, u);
    forall id: CallId
      ensures MovesOn(s, target, u, [], id)
    {
      AnswerMovesOn(s, target, found, id);
    }
    TargetKeepsInv(s, target, u, [], t);
  }

  lemma TargetFinishesKeepsInv(s: Net, target: MemberId, call: CallId, outcome: Outcome, t: Net)
    requires Inv(s) && Next(s, TargetFinishes(target, call, outcome), t)
    ensures Inv(t)
  {
    var u := Finish(s.targets[target], call, outcome);
    QuietForth(s, target, u);
    forall id: CallId
      ensures MovesOn(s, target, u, [], id)
    {
      FinishMovesOn(s, target, call, outcome, id);
    }
    TargetKeepsInv(s, target, u, [], t);
  }

  // ------------------------------------------------------------------
  // The server passes a reply on.

  /** What is left of the queued replies. */
  lemma HandedOver(t: Target, answered: bool, id: CallId)
    requires t.up != [] && t.up[0].id == id && Local(t, id)
    ensures
      var u, rest := WordOf(Select(t.up, id)), WordOf(Select(HandOver(t, answered).up, id));
      && Local(HandOver(t, answered), id) && SelectCalls(t.down, id) == []
      && (u == T || u == TR || u == R || u == F) && rest == (if u == TR then R else Empty)
      && ((u == T || u == TR) <==> t.up[0].CallResponse? && t.up[0].started)
      && (u == R <==> t.up[0].CallResult?)
  {
    var u := Select(t.up, id);
    SelectOfFirst(t.up, id);
    assert u[0] == t.up[0] && u[1..] == Select(t.up[1..], id);
    WordOfTail(u);
  }

  lemma ResponseIsOk(p: Phase, id: CallId, t: Target)
    requires t.up != [] && t.up[0] == CallResponse(id, true) && t.link.connected
    requires TargetOk(p, id, t)
    ensures TargetOk(After(p, t.up[0]), id, HandOver(t, p != Nothing))
  {
    HandedOver(t, p != Nothing, id);
  }

  lemma LastReplyIsOk(p: Phase, id: CallId, t: Target)
    requires t.up != [] && t.up[0].id == id && t.up[0] != CallResponse(id, true) && t.link.connected
    requires TargetOk(p, id, t)
    ensures TargetOk(After(p, t.up[0]), id, HandOver(t, p != Nothing))
  {
    HandedOver(t, p != Nothing, id);
  }

  lemma HandOverIsOk(p: Phase, id: CallId, t: Target, answered: bool)
    requires t.up != [] && t.up[0].id == id && t.link.connected && (answered <==> p != Nothing)
    requires TargetOk(p, id, t)
    ensures TargetOk(After(p, t.up[0]), id, HandOver(t, answered))
  {
    if t.up[0] == CallResponse(id, true) {
      ResponseIsOk(p, id, t);
    } else {
      LastReplyIsOk(p, id, t);
    }
  }

  lemma HandOverMovesOn(s: Net, target: MemberId, id: CallId)
    requires Inv(s) && target in s.targets && s.targets[target].up != [] && s.targets[target].link.connected
    ensures
      var t := s.targets[target];
      MovesOn(s, target, HandOver(t, t.up[0].id in s.answered), [t.up[0]], id)
  {
    var t := s.targets[target];
    var u := HandOver(t, t.up[0].id in s.answered);
    SelectOfFirst(t.up, id);
    SelectOfOne(t.up[0], id);
    if t.up[0].id != id {
      SameMovesOn(s, target, u, [t.up[0]], id);
    } else {
      TouchedCall(s, target, id);
      HandOverIsOk(PhaseOf(s.store, id, Select(s.down, id)), id, t, id in s.answered);
      PhaseGrows(s.store, id, Select(s.down, id), t.up[0]);
    }
  }

  lemma ServerGetsReplyKeepsInv(s: Net, target: MemberId, t: Net)
    requires Inv(s) && Next(s, ServerGetsReply(target), t)
    ensures Inv(t)
  {
    var tg := s.targets[target];
    var u := HandOver(tg, tg.up[0].id in s.answered);
    forall id: CallId
      ensures MovesOn(s, target, u, [tg.up[0]], id)
    {
      HandOverMovesOn(s, target, id);
    }
    TargetKeepsInv(s, target, u, [tg.up[0]], t);
  }

  lemma OldHandOverIsOk(p: Phase, id: CallId, t: Target, i: nat)
    requires i < |t.olds| && t.olds[i].up != [] && t.olds[i].up[0].id == id
    requires TargetOk(p, id, t)
    ensures TargetOk(After(p, t.olds[i].up[0]), id, HandOverOld(t, i))
  {
    var u := HandOverOld(t, i);
    SelectOfFirst(t.olds[i].up, id);
    assert !OldQuiet(t.olds, id);
    assert SelectCalls(t.down, id) == [];
    if After(p, t.olds[i].up[0]) == Started && id !in t.calls {
      if p == Started {
        var j :| 0 <= j < |t.olds| && OwesAt(t.olds[j].link.pending, id, 1);
        assert OwesAt(u.olds[j].link.pending, id, 1);
      } else {
        assert OwesAt(u.olds[i].link.pending, id, 1);
      }
    }
  }

  lemma OldHandOverMovesOn(s: Net, target: MemberId, i: nat, id: CallId)
    requires Inv(s) && target in s.targets && i < |s.targets[target].olds| && s.targets[target].olds[i].up != []
    ensures MovesOn(s, target, HandOverOld(s.targets[target], i), [s.targets[target].olds[i].up[0]], id)
  {
    var t := s.targets[target];
    var r := t.olds[i].up[0];
    var u := HandOverOld(t, i);
    SelectOfFirst(t.olds[i].up, id);
    SelectOfOne(r, id);
    if r.id != id {
      SameMovesOn(s, target, u, [r], id);
    } else {
      assert !OldQuiet(t.olds, id);
      TouchedCall(s, target, id);
      OldHandOverIsOk(PhaseOf(s.store, id, Select(s.down, id)), id, t, i);
      PhaseGrows(s.store, id, Select(s.down, id), r);
    }
  }

  lemma ServerGetsOldReplyKeepsInv(s: Net, target: MemberId, i: nat, t: Net)
    requires Inv(s) && Next(s, ServerGetsOldReply(target, i), t)
    ensures Inv(t)
  {
    var tg := s.targets[target];
    forall id: CallId
      ensures MovesOn(s, target, HandOverOld(tg, i), [tg.olds[i].up[0]], id)
    {
      OldHandOverMovesOn(s, target, i, id);
    }
    TargetKeepsInv(s, target, HandOverOld(tg, i), [tg.olds[i].up[0]], t);
  }

  // ------------------------------------------------------------------
  // A connection closes, or is given up for another one.

  /** The phase after the abort that a closing connection owes. */
  function Aborted(p: Phase, pending: Pending, id: CallId): Phase {
    if OwesAt(pending, id, 2) then After(p, CallResponse(id, false))
    else if OwesAt(pending, id, 1) then After(p, CallResult(id, DISCONNECTED))
    else p
  }

  lemma PhaseAfterAbort(s: Store, id: CallId, d: seq<Reply>, pending: Pending)
    ensures PhaseOf(s, id, d + Abort(pending, id)) == Aborted(PhaseOf(s, id, d), pending, id)
  {
    if Abort(pending, id) == [] {
      assert d + [] == d;
    } else {
      PhaseGrows(s, id, d, Abort(pending, id)[0]);
    }
  }

  lemma SelectCallsOfPrefix(q: seq<Call>, n: nat, id: CallId)
    requires n <= |q|
    ensures |SelectCalls(q[..n], id)| <= |SelectCalls(q, id)|
  {
    assert q == q[..n] + q[n..];
    SelectCallsOfAppend(q[..n], q[n..], id);
  }

  lemma CloseIsOk(p: Phase, id: CallId, t: Target, received: nat)
    requires received <= |t.down| && t.link.connected && TargetOk(p, id, t)
    ensures TargetOk(Aborted(p, t.link.pending, id), id, Close(t, received))
  {
    SelectCallsOfPrefix(t.down, received, id);
  }

  lemma CloseMovesOn(s: Net, target: MemberId, received: nat, aborts: seq<Reply>, id: CallId)
    requires target in s.targets && received <= |s.targets[target].down| && s.targets[target].link.connected
    requires AreAborts(s.targets[target].link.pending, aborts)
    ensures MovesOn(s, target, Close(s.targets[target], received), aborts, id)
  {
    var t := s.targets[target];
    var d := Select(s.down, id);
    assert Select(aborts, id) == Abort(t.link.pending, id);
    SelectCallsOfPrefix(t.down, received, id);
    PhaseAfterAbort(s.store, id, d, t.link.pending);
    if !Untouched(t, id) && TargetOk(PhaseOf(s.store, id, d), id, t) {
      CloseIsOk(PhaseOf(s.store, id, d), id, t, received);
    }
  }

  lemma TargetClosesKeepsInv(s: Net, target: MemberId, received: nat, aborts: seq<Reply>, t: Net)
    requires Inv(s) && Next(s, TargetCloses(target, received, aborts), t)
    ensures Inv(t)
  {
    forall id: CallId
      ensures MovesOn(s, target, Close(s.targets[target], received), aborts, id)
    {
      CloseMovesOn(s, target, received, aborts, id);
    }
    TargetKeepsInv(s, target, Close(s.targets[target], received), aborts, t);
  }

  lemma WithoutOne(olds: seq<Old>, i: nat, id: CallId)
    requires i < |olds|
    ensures
      var rest := olds[..i] + olds[i + 1..];
      && (OldQuiet(olds, id) ==> OldQuiet(rest, id)) && (OldUnknown(olds, id) ==> OldUnknown(rest, id))
      && (OldSilent(olds, id) ==> OldSilent(rest, id))
      && (forall v :: OldOwes(olds, id, v) <==> OldOwes(rest, id, v) || OwesAt(olds[i].link.pending, id, v))
  {
    var rest := olds[..i] + olds[i + 1..];
    forall v
      ensures OldOwes(olds, id, v) <==> OldOwes(rest, id, v) || OwesAt(olds[i].link.pending, id, v)
    {
      if OldOwes(olds, id, v) && !OwesAt(olds[i].link.pending, id, v) {
        var j :| 0 <= j < |olds| && OwesAt(olds[j].link.pending, id, v);
        assert rest[if j < i then j else j - 1] == olds[j];
      }
    }
  }

  lemma OldCloseIsOk(p: Phase, id: CallId, t: Target, i: nat)
    requires i < |t.olds| && TargetOk(p, id, t)
    ensures TargetOk(Aborted(p, t.olds[i].link.pending, id), id, CloseOld(t, i))
  {
    WithoutOne(t.olds, i, id);
    if id in t.calls && InProgress(p, id, t) && p == Started {
      assert !OwesAt(t.olds[i].link.pending, id, 1);
    }
  }

  lemma OldCloseMovesOn(s: Net, target: MemberId, i: nat, aborts: seq<Reply>, id: CallId)
    requires target in s.targets && i < |s.targets[target].olds|
    requires AreAborts(s.targets[target].olds[i].link.pending, aborts)
    ensures MovesOn(s, target, CloseOld(s.targets[target], i), aborts, id)
  {
    var t := s.targets[target];
    var d := Select(s.down, id);
    assert Select(aborts, id) == Abort(t.olds[i].link.pending, id);
    PhaseAfterAbort(s.store, id, d, t.olds[i].link.pending);
    if Untouched(t, id) {
      WithoutOne(t.olds, i, id);
    } else if TargetOk(PhaseOf(s.store, id, d), id, t) {
      OldCloseIsOk(PhaseOf(s.store, id, d), id, t, i);
    }
  }

  lemma OldClosesKeepsInv(s: Net, target: MemberId, i: nat, aborts: seq<Reply>, t: Net)
    requires Inv(s) && Next(s, OldCloses(target, i, aborts), t)
    ensures Inv(t)
  {
    forall id: CallId
      ensures MovesOn(s, target, CloseOld(s.targets[target], i), aborts, id)
    {
      OldCloseMovesOn(s, target, i, aborts, id);
    }
    TargetKeepsInv(s, target, CloseOld(s.targets[target], i), aborts, t);
  }

  lemma WithOneMore(olds: seq<Old>, o: Old, id: CallId)
    ensures OldQuiet(olds + [o], id) <==> OldQuiet(olds, id) && Select(o.up, id) == []
    ensures OldUnknown(olds + [o], id) <==> OldUnknown(olds, id) && id !in o.link.pending
    ensures OldSilent(olds + [o], id) <==> OldSilent(olds, id) && (id in o.link.pending ==> o.link.pending[id] == 2)
    ensures forall v :: OldOwes(olds + [o], id, v) <==> OldOwes(olds, id, v) || OwesAt(o.link.pending, id, v)
  {
    assert (olds + [o])[|olds|] == o;
    assert forall i :: 0 <= i < |olds| ==> (olds + [o])[i] == olds[i];
  }

  /** Cutting what is queued in two. */
  lemma WordOfSuffix(q: seq<Reply>, n: nat)
    requires n <= |q| && WordOf(q) != Other
    ensures WordOf(q[n..]) in {Empty, R, WordOf(q)}
    ensures WordOf(q[n..]) == R ==> WordOf(q) == R || WordOf(q) == TR
    ensures WordOf(q[n..]) == T || WordOf(q[n..]) == TR || WordOf(q[n..]) == F ==> n == 0
  {
  }

  lemma WordOfRest(a: seq<Reply>, b: seq<Reply>)
    requires WordOf(a + b) != Other
    ensures WordOf(b) in {Empty, R, WordOf(a + b)}
    ensures WordOf(b) == R ==> WordOf(a + b) == R || WordOf(a + b) == TR
    ensures WordOf(b) == T || WordOf(b) == TR || WordOf(b) == F ==> a == []
    ensures WordOf(a + b) == Empty ==> a == []
  {
    assert b == (a + b)[|a|..];
    WordOfSuffix(a + b, |a|);
  }

  lemma ReopenedLocal(t: Target, received: nat, gone: nat, id: CallId)
    requires received <= |t.down| && gone <= |t.up| && Local(t, id)
    ensures Local(Reopen(t, received, gone), id)
  {
    assert t.up == t.up[..gone] + t.up[gone..];
    SelectOfAppend(t.up[..gone], t.up[gone..], id);
    WordOfRest(Select(t.up[..gone], id), Select(t.up[gone..], id));
    SelectCallsOfPrefix(t.down, received, id);
    WithOneMore(t.olds, Old(t.link, t.up[..gone]), id);
  }

  lemma ReopenIsOk(p: Phase, id: CallId, t: Target, received: nat, gone: nat)
    requires received <= |t.down| && gone <= |t.up| && TargetOk(p, id, t)
    ensures TargetOk(p, id, Reopen(t, received, gone))
  {
    ReopenedLocal(t, received, gone, id);
    WithOneMore(t.olds, Old(t.link, t.up[..gone]), id);
  }

  lemma ReopenMovesOn(s: Net, target: MemberId, received: nat, gone: nat, id: CallId)
    requires target in s.targets && received <= |s.targets[target].down| && gone <= |s.targets[target].up|
    ensures MovesOn(s, target, Reopen(s.targets[target], received, gone), [], id)
  {
    var t := s.targets[target];
    var p := PhaseOf(s.store, id, Select(s.down, id));
    assert Select(s.down, id) + [] == Select(s.down, id);
    if Untouched(t, id) {
      assert t.up == t.up[..gone] + t.up[gone..];
      SelectOfAppend(t.up[..gone], t.up[gone..], id);
      SelectCallsOfPrefix(t.down, received, id);
      WithOneMore(t.olds, Old(t.link, t.up[..gone]), id);
    } else if TargetOk(p, id, t) {
      ReopenIsOk(p, id, t, received, gone);
    }
  }

  lemma TargetReopensKeepsInv(s: Net, target: MemberId, received: nat, gone: nat, t: Net)
    requires Inv(s) && Next(s, TargetConnects(target, received, gone), t) && target in s.targets
    ensures Inv(t)
  {
    var u := Reopen(s.targets[target], received, gone);
    QuietForth(s, target, u);
    forall id: CallId
      ensures MovesOn(s, target, u, [], id)
    {
      ReopenMovesOn(s, target, received, gone, id);
    }
    TargetKeepsInv(s, target, u, [], t);
  }

  lemma NewTargetKeepsOk(s: Net, target: MemberId, t: Net, id: CallId)
    requires target !in s.targets && t == s.(targets := s.targets[target := NEW_TARGET]) && InOrder(s, id)
    ensures InOrder(t, id)
  {
    assert Untouched(NEW_TARGET, id);
    assert TargetOk(Ended, id, NEW_TARGET);
  }

  lemma TargetConnectsKeepsInv(s: Net, target: MemberId, received: nat, gone: nat, t: Net)
    requires Inv(s) && Next(s, TargetConnects(target, received, gone), t)
    ensures Inv(t)
  {
    if target in s.targets {
      TargetReopensKeepsInv(s, target, received, gone, t);
    } else {
      forall id: CallId
        ensures InOrder(t, id)
      {
        assert InOrder(s, id);
        NewTargetKeepsOk(s, target, t, id);
      }
    }
  }

  // ------------------------------------------------------------------
  // The server's and the caller's steps on one call.

  /** A step that concerns one call only keeps the invariant when that call stays in order. */
  lemma OneCall(s: Net, t: Net, id: CallId)
    requires Inv(s) && InOrder(t, id)
    requires forall i: CallId :: i != id ==> SameCaller(s, t, i) && SameTargets(s, t, i)
    ensures Inv(t)
  {
    forall i: CallId
      ensures InOrder(t, i)
    {
      assert InOrder(s, i);
      if i != id {
        SameKeepsOk(s, t, i);
      }
    }
  }

  lemma WaitingCall(s: Net, call: Call)
    requires Inv(s) && s.up != [] && call == s.up[0]
    ensures Known(s, call.id) && call.id < s.nextCallerId && CallOk(s, call.id)
    ensures call.id in s.sent && s.sent[call.id] == call.target && SelectCalls(s.up[1..], call.id) == []
    ensures PhaseOf(s.store, call.id, Select(s.down, call.id)) == Nothing
    ensures forall m :: m in s.targets ==> Untouched(s.targets[m], call.id)
  {
    SelectCallsOfFirst(s.up, call.id);
    assert InOrder(s, call.id);
    assert SelectCalls(s.up, call.id) == [call];
  }

  lemma ForwardedTarget(t: Target, call: Call)
    requires Untouched(t, call.id) && t.link.connected
    ensures TargetOk(Nothing, call.id,
              t.(down := t.down + [call], link := Forwarded(t.link, call.id), calls := t.calls + {call.id}))
  {
    SelectCallsOfAppend(t.down, [call], call.id);
    SelectCallsOfOne(call, call.id);
  }

  lemma ForwardedCallIsOk(s: Net, t: Net, call: Call)
    requires Inv(s) && s.up != [] && call == s.up[0] && t == GetCall(s)
    requires call.target in s.targets && s.targets[call.target].link.connected
    ensures InOrder(t, call.id)
  {
    WaitingCall(s, call);
    ForwardedTarget(s.targets[call.target], call);
  }

  lemma RefusedCallIsOk(s: Net, t: Net, call: Call)
    requires Inv(s) && s.up != [] && call == s.up[0] && t == GetCall(s)
    requires call.target in s.targets ==> !s.targets[call.target].link.connected
    ensures InOrder(t, call.id)
  {
    var refusal := CallResponse(call.id, false);
    WaitingCall(s, call);
    SelectOfAppend(s.down, [refusal], call.id);
    SelectOfOne(refusal, call.id);
    PhaseGrows(s.store, call.id, Select(s.down, call.id), refusal);
    if call.target in s.targets {
      assert TargetOk(Ended, call.id, s.targets[call.target]);
    }
  }

  lemma SameOldsOfItself(olds: seq<Old>, id: CallId)
    ensures SameOlds(olds, olds, id)
  {
  }

  lemma ForwardedCallIsLocal(s: Net, t: Net, call: Call, i: CallId)
    requires s.up != [] && call == s.up[0] && t == GetCall(s) && i != call.id
    requires call.target in s.targets && s.targets[call.target].link.connected
    ensures SameCaller(s, t, i) && SameTargets(s, t, i)
  {
    SelectCallsOfFirst(s.up, i);
    SelectCallsOfAppend(s.targets[call.target].down, [call], i);
    SelectCallsOfOne(call, i);
  }

  lemma RefusedCallIsLocal(s: Net, t: Net, call: Call, i: CallId)
    requires s.up != [] && call == s.up[0] && t == GetCall(s) && i != call.id
    requires call.target in s.targets ==> !s.targets[call.target].link.connected
    ensures SameCaller(s, t, i) && SameTargets(s, t, i)
  {
    SelectCallsOfFirst(s.up, i);
    SelectOfAppend(s.down, [CallResponse(call.id, false)], i);
    SelectOfOne(CallResponse(call.id, false), i);
  }

  lemma ServerGetsCallKeepsInv(s: Net, t: Net)
    requires Inv(s) && Next(s, ServerGetsCall, t)
    ensures Inv(t)
  {
    var call := s.up[0];
    if call.target in s.targets && s.targets[call.target].link.connected {
      ForwardedCallIsOk(s, t, call);
      forall i: CallId | i != call.id
        ensures SameCaller(s, t, i) && SameTargets(s, t, i)
      {
        ForwardedCallIsLocal(s, t, call, i);
      }
    } else {
      RefusedCallIsOk(s, t, call);
      forall i: CallId | i != call.id
        ensures SameCaller(s, t, i) && SameTargets(s, t, i)
      {
        RefusedCallIsLocal(s, t, call, i);
      }
    }
    OneCall(s, t, call.id);
  }

  lemma DeliveredReplyIsOk(s: Net, t: Net, reply: Reply)
    requires InOrder(s, reply.id) && s.down != [] && reply == s.down[0]
    requires t == s.(down := s.down[1..], store := OnReply(s.store, reply))
    ensures InOrder(t, reply.id)
  {
    var id := reply.id;
    var d := Select(s.down, id);
    SelectOfFirst(s.down, id);
    assert d[0] == reply && d[1..] == Select(t.down, id);
    PhaseStays(s.store, id, d);
  }

  lemma CallerGetsReplyKeepsInv(s: Net, t: Net)
    requires Inv(s) && Next(s, CallerGetsReply, t)
    ensures Inv(t)
  {
    var reply := s.down[0];
    assert InOrder(s, reply.id);
    DeliveredReplyIsOk(s, t, reply);
    forall i: CallId | i != reply.id
      ensures SameCaller(s, t, i) && SameTargets(s, t, i)
    {
      SelectOfFirst(s.down, i);
    }
    OneCall(s, t, reply.id);
  }

  lemma NewCallIsOk(s: Net, target: MemberId, t: Net)
    requires InOrder(s, s.nextCallerId) && t == RunAsyncStep(s, target)
    ensures InOrder(t, s.nextCallerId)
  {
    var id := s.nextCallerId;
    SelectCallsOfAppend(s.up, [Call(id, target)], id);
    SelectCallsOfOne(Call(id, target), id);
  }

  lemma NewCallKeepsOthers(s: Net, target: MemberId, t: Net, i: CallId)
    requires t == RunAsyncStep(s, target) && i != s.nextCallerId && InOrder(s, i)
    ensures InOrder(t, i)
  {
    SelectCallsOfAppend(s.up, [Call(s.nextCallerId, target)], i);
    SelectCallsOfOne(Call(s.nextCallerId, target), i);
    assert SelectCalls(t.up, i) == SelectCalls(s.up, i);
    SamePhase(s.store, t.store, i, Select(s.down, i));
  }

  lemma RunAsyncKeepsInv(s: Net, target: MemberId, t: Net)
    requires Inv(s) && Next(s, RunAsync(target), t)
    ensures Inv(t)
  {
    assert InOrder(s, s.nextCallerId);
    NewCallIsOk(s, target, t);
    forall i: CallId
      ensures InOrder(t, i)
    {
      assert InOrder(s, i);
      if i != s.nextCallerId {
        NewCallKeepsOthers(s, target, t, i);
      }
    }
  }

  lemma CallbacksKeepInv(s: Net, t: Net, id: CallId, d: Data)
    requires Inv(s) && id in s.store.promises
    requires t == s.(store := s.store.(promises := s.store.promises[id := d]))
    requires d.reached == s.store.promises[id].reached && d.found == s.store.promises[id].found
    requires d.finished == s.store.promises[id].finished && d.isError == s.store.promises[id].isError
    ensures Inv(t)
  {
    forall i: CallId
      ensures InOrder(t, i)
    {
      assert InOrder(s, i);
      SameKeepsOk(s, t, i);
    }
  }

  lemma StepKeepsInv(s: Net, a: Action, t: Net)
    requires Inv(s) && Next(s, a, t)
    ensures Inv(t)
  {
    match a
    case Connect =>
      forall i: CallId
        ensures InOrder(t, i)
      {
        assert InOrder(s, i);
        SameKeepsOk(s, t, i);
      }
    case RunAsync(target) => RunAsyncKeepsInv(s, target, t);
    case AskReach(id, callback) =>
      CallbacksKeepInv(s, t, id, TakeReachEvent(WithReachEvent(s.store.promises[id], callback)).0);
    case AskFinish(id, callback) =>
      CallbacksKeepInv(s, t, id, TakeFinishEvent(WithFinishEvent(s.store.promises[id], callback)).0);
    case TargetConnects(target, received, gone) => TargetConnectsKeepsInv(s, target, received, gone, t);
    case ServerGetsCall => ServerGetsCallKeepsInv(s, t);
    case TargetGetsCall(target, found) => TargetGetsCallKeepsInv(s, target, found, t);
    case TargetFinishes(target, id, outcome) => TargetFinishesKeepsInv(s, target, id, outcome, t);
    case ServerGetsReply(target) => ServerGetsReplyKeepsInv(s, target, t);
    case TargetCloses(target, received, aborts) => TargetClosesKeepsInv(s, target, received, aborts, t);
    case ServerGetsOldReply(target, i) => ServerGetsOldReplyKeepsInv(s, target, i, t);
    case OldCloses(target, i, aborts) => OldClosesKeepsInv(s, target, i, aborts, t);
    case CallerGetsReply => CallerGetsReplyKeepsInv(s, t);
  }

  lemma {:induction false} RunKeepsInv(states: seq<Net>, actions: seq<Action>, n: nat)
    requires IsRun(states, actions) && n <= |actions|
    ensures Inv(states[n])
  {
    if n > 0 {
      RunKeepsInv(states, actions, n - 1);
      StepKeepsInv(states[n - 1], actions[n - 1], states[n]);
    }
  }

  // ------------------------------------------------------------------
  // When a call ends.

  /** The server holds a connection of the target that owes a reply: the response, or else the result. */
  ghost predicate Owed(t: Target, id: CallId, v: int) {
    (t.link.connected && OwesAt(t.link.pending, id, v)) || OldOwes(t.olds, id, v)
  }

  /** With nothing on the way to and from the caller, a promise is open only as long as the server holds
      some connection of its target that owes the reply, and will abort the call when that closes. */
  lemma OpenIsOwed(states: seq<Net>, actions: seq<Action>, n: nat, id: CallId)
    requires IsRun(states, actions) && n <= |actions| && id in states[n].store.promises
    requires states[n].up == [] && states[n].down == [] && !states[n].store.promises[id].finished
    ensures
      var s := states[n];
      && id in s.sent && s.sent[id] in s.targets
      && Owed(s.targets[s.sent[id]], id, if s.store.promises[id].reached then 1 else 2)
  {
    RunKeepsInv(states, actions, n);
    assert InOrder(states[n], id);
  }

  /** With the channels of the newest connections empty too, a promise is open if it depends on its target's
      newest connection and the function is still running there; and only if, unless an earlier connection
      that the server still holds owes the reply: every call whose target replied, refused, never existed
      or closed has ended. */
  lemma DrainedMeansFinished(states: seq<Net>, actions: seq<Action>, n: nat, id: CallId)
    requires IsRun(states, actions) && n <= |actions| && id in states[n].store.promises
    requires states[n].up == [] && states[n].down == []
    requires forall m :: m in states[n].targets && states[n].targets[m].link.connected ==>
               states[n].targets[m].down == [] && states[n].targets[m].up == []
    ensures
      var s := states[n];
      var depends := id in s.sent && s.sent[id] in s.targets
                     && id in s.targets[s.sent[id]].calls && id in s.targets[s.sent[id]].running;
      && (depends ==>
            && !s.store.promises[id].finished && s.store.promises[id].reached && s.store.promises[id].found
            && s.targets[s.sent[id]].link.connected)
      && (!s.store.promises[id].finished ==>
            || depends
            || (id in s.sent && s.sent[id] in s.targets
                && OldOwes(s.targets[s.sent[id]].olds, id, if s.store.promises[id].reached then 1 else 2)))
  {
    RunKeepsInv(states, actions, n);
    assert InOrder(states[n], id);
  }

  // ------------------------------------------------------------------
  // Once finished, a promise never changes again.

  lemma {:induction false} NeverChangesAgain(states: seq<Net>, actions: seq<Action>, n: nat, m: nat, id: CallId)
    requires IsRun(states, actions) && n <= m <= |actions|
    requires id in states[n].store.promises && states[n].store.promises[id].finished
    ensures id in states[m].store.promises
    ensures SameResult(states[n].store.promises[id], states[m].store.promises[id])
    decreases m
  {
    if n < m {
      NeverChangesAgain(states, actions, n, m - 1, id);
      RunKeepsInv(states, actions, m - 1);
      FinalInStep(states[m - 1], actions[m - 1], states[m], id);
    }
  }

  lemma FinalInDelivery(s: Net, t: Net, id: CallId)
    requires Inv(s) && Next(s, CallerGetsReply, t) && id in s.store.promises && s.store.promises[id].finished
    ensures id in t.store.promises && SameResult(s.store.promises[id], t.store.promises[id])
  {
    InvStoreOk(s);
    FinishedIsFinal(s.store, s.down[0], id);
  }

  lemma FinalInCallbacks(s: Net, a: Action, t: Net, id: CallId)
    requires Next(s, a, t) && (a.AskReach? || a.AskFinish?) && id in s.store.promises
    ensures id in t.store.promises && SameResult(s.store.promises[id], t.store.promises[id])
  {
    EventsKeepResult(s.store.promises[a.id], a.callback);
  }

  lemma FinalInStep(s: Net, a: Action, t: Net, id: CallId)
    requires Inv(s) && Next(s, a, t) && id in s.store.promises && s.store.promises[id].finished
    ensures id in t.store.promises && SameResult(s.store.promises[id], t.store.promises[id])
  {
    if a.CallerGetsReply? {
      FinalInDelivery(s, t, id);
    } else if a.RunAsync? {
      assert InOrder(s, id);
    } else if a.AskReach? || a.AskFinish? {
      FinalInCallbacks(s, a, t, id);
    } else {
      StoreIsNotTouched(s, a, t);
    }
  }

  lemma StoreIsNotTouched(s: Net, a: Action, t: Net)
    requires Next(s, a, t) && !a.CallerGetsReply? && !a.RunAsync? && !a.AskReach? && !a.AskFinish?
    ensures t.store == s.store
  {
  }

  lemma EventsKeepResult(d: Data, callback: Callback)
    ensures SameResult(d, TakeReachEvent(WithReachEvent(d, callback)).0)
    ensures SameResult(d, TakeFinishEvent(WithFinishEvent(d, callback)).0)
  {
  }

  lemma InvStoreOk(s: Net)
    requires Inv(s)
    ensures StoreOk(s.store)
  {
    forall id | id in s.store.active
      ensures id in s.store.promises && (s.store.promises[id].finished ==> s.store.promises[id].reached)
    {
      assert InOrder(s, id);
    }
  }

  /** Connecting again keeps the functions that run, the calls that had arrived and every queued reply: those
      that were sent into the old connection are still on their way over that while the server holds it, and
      the others are the next ones to be sent. */
  lemma ReopenSays(t: Target, received: nat, gone: nat)
    requires received <= |t.down| && gone <= |t.up|
    ensures
      var u := Reopen(t, received, gone);
      && u.link == NEW_LINK && u.running == t.running && u.calls == {} && u.down == t.down[..received]
      && |u.up| == |t.up| - gone && (forall i :: 0 <= i < |u.up| ==> u.up[i] == t.up[gone + i])
      && (if t.link.connected then
            && |u.olds| == |t.olds| + 1 && u.olds[..|t.olds|] == t.olds
            && u.olds[|t.olds|].link == t.link && u.olds[|t.olds|].up + u.up == t.up
          else u.olds == t.olds)
  {
  }

  /** A close leaves a closed connection, the calls that had arrived, and all that runs or is queued. */
  lemma CloseSays(t: Target, received: nat)
    requires received <= |t.down|
    ensures
      var u := Close(t, received);
      && !u.link.connected && u.link.pending == t.link.pending && u.calls == {}
      && |u.down| == received && (forall i :: 0 <= i < received ==> u.down[i] == t.down[i])
      && u.up == t.up && u.running == t.running && u.olds == t.olds
  {
  }

  /** The last thing a target's newest connection did was to open. */
  function IsUp(actions: seq<Action>, m: MemberId): bool {
    if actions == [] then false
    else
      var init, last := actions[..|actions| - 1], actions[|actions| - 1];
      if last.TargetConnects? && last.target == m then true
      else if last.TargetCloses? && last.target == m then false
      else IsUp(init, m)
  }

  /** Over every run, the server has a target as connected exactly since it connected last, until that
      connection closed. */
  lemma {:induction false} ConnectedIsUp(states: seq<Net>, actions: seq<Action>, n: nat, m: MemberId)
    requires IsRun(states, actions) && n <= |actions|
    ensures (m in states[n].targets && states[n].targets[m].link.connected) <==> IsUp(actions[..n], m)
  {
    if n > 0 {
      ConnectedIsUp(states, actions, n - 1, m);
      assert actions[..n][..n - 1] == actions[..n - 1];
      StepConnects(states[n - 1], actions[n - 1], states[n], m);
    }
  }

  lemma StepConnects(s: Net, a: Action, t: Net, m: MemberId)
    requires Next(s, a, t)
    ensures
      (m in t.targets && t.targets[m].link.connected) <==>
        if a.TargetConnects? && a.target == m then true
        else if a.TargetCloses? && a.target == m then false
        else m in s.targets && s.targets[m].link.connected
  {
  }

  /** A call that reaches the server goes on to its target over the newest connection if that is open, and is
      refused to the caller, and nothing else, if it is closed or the target was never there. */
  lemma CallGoesOrIsRefused(s: Net)
    requires s.up != []
    ensures
      var (call, t) := (s.up[0], GetCall(s));
      && t.up == s.up[1..] && t.store == s.store && t.targets.Keys == s.targets.Keys
      && (forall m :: m in s.targets && m != call.target ==> t.targets[m] == s.targets[m])
      && (if call.target in s.targets && s.targets[call.target].link.connected then
            && t.down == s.down && t.targets[call.target].down == s.targets[call.target].down + [call]
          else t.down == s.down + [CallResponse(call.id, false)] && t.targets == s.targets)
  {
  }
}
