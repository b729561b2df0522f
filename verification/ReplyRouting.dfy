/** Which field a reply is stored under, over runs of a client that makes and removes requests, connects and
    loses its connection. The server is never told of a removal. */
module ReplyRouting {
  import opened Names
  import opened SyncStore
  import opened Wrappers

  /** A field with the id that its request has or had. */
  datatype Entry = Entry(id: ReqId, member: Name, field: Name)

  datatype State = State(
    /** The client's requests, and the first message it has prepared. */
    req: Requests, first: Option<Requests>,
    /** Requests that messagePushReq was not called for yet, and those in `sync_queue`. */
    adding: multiset<Entry>, queue: seq<Entry>,
    connected: bool,
    /** Requests on the way, and what the server holds for this connection. */
    up: seq<Entry>, told: Requests,
    /** Replies on the way or received: to which request each one is. */
    down: seq<Entry>,
    /** The request whose reply is stored under a name. */
    seen: map<(Name, Name), Entry>,
    /** All ids ever given, and to which field. */
    given: seq<Entry>)

  const START := State(map[], None, multiset{}, [], false, [], map[], [], map[], [])

  datatype Op =
      /** addReq where it gives an id: there was no request, or its parameter has changed. */
    | Ask(member: Name, field: Name)
      /** unsetRecv. */
    | Free(member: Name, field: Name)
      /** messagePushReq; its test and its push are apart, so the outcome is open. */
    | Push(entry: Entry, queued: bool)
      /** sync() takes the first message before there is a connection. */
    | Snapshot
      /** The connection opens; the first message is moved from, whether or not it gets sent. */
    | Connect(sent: bool)
    | Send
      /** The server gets a request, and answers it with as many values as it has at the moment. */
    | ServerGets(answers: nat)
      /** A value of a requested field has changed. */
    | Forward(member: Name, field: Name)
    | Deliver(member: Name, field: Name)
      /** What was received stays to be processed, what was not sent yet stays queued. */
    | Close(received: nat, lost: nat)
      /** The client notices. */
    | Reset

  /** The entries of a request map in its order, zero entries included. */
  ghost predicate IsListing(req: Requests, entries: seq<Entry>) {
    && (forall e :: e in entries <==> Has(req, e.id, e.member, e.field))
    && (forall i, j :: 0 <= i < j < |entries| ==>
          Before(entries[i].member, entries[i].field, entries[j].member, entries[j].field))
  }

  /** Where a reply with this id is stored: getReq's field, or the empty names when it finds none. */
  ghost predicate Lands(req: Requests, id: ReqId, member: Name, field: Name) {
    IsFirst(req, id, member, field) || (member == [] && field == [] && forall m, f :: !Has(req, id, m, f))
  }

  ghost predicate Steps(s: State, op: Op, t: State) {
    match op
    case Ask(member, field) =>
      exists id ::
        && IsNewRequest(s.req, t.req, member, field, id)
        && t == Asked(s, t.req, Entry(id, member, field))
    case Free(member, field) =>
      t == s.(req := Freed(s.req, member, field))
    case Push(e, queued) =>
      e in s.adding && t == s.(adding := s.adding - multiset{e}, queue := if queued then s.queue + [e] else s.queue)
    case Snapshot =>
      !s.connected && s.first.None? && t == s.(first := Some(s.req))
    case Connect(sent) =>
      && !s.connected
      && if sent then
           && IsListing(if s.first.Some? then s.first.value else s.req, t.up)
           && t == s.(first := Some(map[]), connected := true, up := t.up, told := map[])
         else t == s.(first := Some(map[]))
    case Send =>
      s.connected && s.queue != [] && t == s.(queue := s.queue[1..], up := s.up + [s.queue[0]])
    case ServerGets(answers) =>
      s.connected && s.up != [] && t == Arrived(s, s.up[0], answers)
    case Forward(member, field) =>
      && s.connected && IdOf(s.told, member, field) != 0
      && t == s.(down := s.down + [Entry(IdOf(s.told, member, field), member, field)])
    case Deliver(member, field) =>
      && s.down != [] && Lands(s.req, s.down[0].id, member, field)
      && t == s.(down := s.down[1..], seen := s.seen[(member, field) := s.down[0]])
    case Close(received, lost) =>
      && s.connected && received <= |s.down| && lost <= |s.queue|
      && t == s.(connected := false, up := [], told := map[], down := s.down[..received], queue := s.queue[lost..])
    case Reset =>
      !s.connected && t == s.(first := None)
  }

  /** A new id is also to be sent; with id 0 nothing is. */
  function Asked(s: State, req: Requests, e: Entry): State {
    if e.id == 0 then s.(req := req)
    else s.(req := req, adding := s.adding + multiset{e}, given := s.given + [e])
  }

  function Arrived(s: State, e: Entry, answers: nat): State
    requires s.up != []
  {
    s.(up := s.up[1..], told := WithId(s.told, e.member, e.field, e.id), down := s.down + seq(answers, _ => e))
  }

  /** A stretch of a run. */
  ghost predicate IsPath(states: seq<State>, ops: seq<Op>) {
    |states| == |ops| + 1 && forall i :: 0 <= i < |ops| ==> Steps(states[i], ops[i], states[i + 1])
  }

  ghost predicate IsHistory(states: seq<State>, ops: seq<Op>) {
    IsPath(states, ops) && states[0] == START
  }

  // ------------------------------------------------------------------
  // The ids given so far.

  ghost predicate Live(req: Requests, id: ReqId) {
    id != 0 && exists m, f :: IdOf(req, m, f) == id
  }

  function LastGiven(given: seq<Entry>, id: ReqId): Option<Entry> {
    if given == [] then None
    else if given[|given| - 1].id == id then Some(given[|given| - 1])
    else LastGiven(given[..|given| - 1], id)
  }

  /** The largest id ever given. */
  function Largest(given: seq<Entry>): ReqId {
    if given == [] then 0
    else
      var before, last := Largest(given[..|given| - 1]), given[|given| - 1].id;
      if last > before then last else before
  }

  ghost predicate IdsOk(req: Requests, given: seq<Entry>) {
    && DistinctIds(req)
    && (forall m, f :: IdOf(req, m, f) != 0 ==>
          LastGiven(given, IdOf(req, m, f)) == Some(Entry(IdOf(req, m, f), m, f)))
    && (forall id: ReqId :: LastGiven(given, id).Some? <==> 0 < id <= Largest(given))
  }

  ghost predicate EntryGiven(e: Entry, given: seq<Entry>) {
    e.id == 0 || e in given
  }

  ghost predicate TableGiven(req: Requests, given: seq<Entry>) {
    forall m, f :: EntryGiven(Entry(IdOf(req, m, f), m, f), given)
  }

  ghost predicate AllGiven(entries: seq<Entry>, given: seq<Entry>) {
    forall e :: e in entries ==> EntryGiven(e, given)
  }

  /** Nothing is on the way anywhere that was not given as it is. */
  ghost predicate Inv(s: State) {
    && IdsOk(s.req, s.given)
    && TableGiven(s.req, s.given) && TableGiven(s.told, s.given)
    && (s.first.Some? ==> TableGiven(s.first.value, s.given))
    && (forall e :: e in s.adding ==> EntryGiven(e, s.given))
    && AllGiven(s.queue, s.given) && AllGiven(s.up, s.given) && AllGiven(s.down, s.given)
  }

  lemma OneMoreGiven(given: seq<Entry>, e: Entry)
    ensures forall id :: LastGiven(given + [e], id) == if id == e.id then Some(e) else LastGiven(given, id)
    ensures Largest(given + [e]) == if e.id > Largest(given) then e.id else Largest(given)
  {
    assert (given + [e])[..|given|] == given;
  }

  ghost predicate WasGiven(given: seq<Entry>, id: ReqId) {
    exists e :: e in given && e.id == id
  }

  lemma {:induction false} LastGivenWasGiven(given: seq<Entry>, id: ReqId)
    ensures LastGiven(given, id).Some? <==> WasGiven(given, id)
  {
    if given != [] {
      var init, last := given[..|given| - 1], given[|given| - 1];
      LastGivenWasGiven(init, id);
      assert given == init + [last];
      if last.id != id && WasGiven(given, id) {
        var e :| e in given && e.id == id;
        assert e in init;
      }
    }
  }

  /** The largest id in use is at most the largest ever given, and less exactly when that is in use no more. */
  lemma LargestInUse(req: Requests, given: seq<Entry>, max: ReqId)
    requires IdsOk(req, given) && IsMaxId(req, max)
    ensures max <= Largest(given)
    ensures max < Largest(given) <==> Largest(given) != 0 && !Live(req, Largest(given))
  {
    if max != 0 {
      var m, f :| IdOf(req, m, f) == max;
      assert LastGiven(given, max).Some?;
      assert Live(req, max);
    }
    if Live(req, Largest(given)) {
      var m, f :| IdOf(req, m, f) == Largest(given);
    }
  }

  lemma GivenKeepsIds(req: Requests, given: seq<Entry>, e: Entry)
    requires IdsOk(req, given) && 0 < e.id <= Largest(given) + 1
    requires DistinctIds(WithId(req, e.member, e.field, e.id))
    requires forall m, f :: IdOf(req, m, f) != 0 ==> IdOf(req, m, f) != e.id
    ensures IdsOk(WithId(req, e.member, e.field, e.id), given + [e])
  {
    OneMoreGiven(given, e);
  }

  lemma AskKeepsIds(req: Requests, given: seq<Entry>, e: Entry, after: Requests)
    requires IdsOk(req, given) && IsNewRequest(req, after, e.member, e.field, e.id)
    ensures IdsOk(after, if e.id == 0 then given else given + [e])
  {
    var max :| IsMaxId(req, max) && e.id == NextId(max);
    NewIdIsDistinct(req, e.member, e.field, max);
    LargestInUse(req, given, max);
    if e.id != 0 {
      GivenKeepsIds(req, given, e);
    }
  }

  lemma MoreGiven(s: State, e: Entry)
    requires Inv(s)
    ensures TableGiven(s.req, s.given + [e]) && TableGiven(s.told, s.given + [e])
    ensures s.first.Some? ==> TableGiven(s.first.value, s.given + [e])
    ensures forall d :: d in s.adding ==> EntryGiven(d, s.given + [e])
    ensures AllGiven(s.queue, s.given + [e]) && AllGiven(s.up, s.given + [e]) && AllGiven(s.down, s.given + [e])
  {
    forall d | EntryGiven(d, s.given)
      ensures EntryGiven(d, s.given + [e])
    {
    }
  }

  lemma AskKeepsTable(req: Requests, e: Entry, given: seq<Entry>)
    requires TableGiven(req, given)
    ensures e.id != 0 ==> TableGiven(WithId(req, e.member, e.field, e.id), given + [e])
    ensures e.id == 0 ==> TableGiven(WithId(req, e.member, e.field, e.id), given)
  {
    var after := WithId(req, e.member, e.field, e.id);
    forall m, f
      ensures EntryGiven(Entry(IdOf(after, m, f), m, f), if e.id == 0 then given else given + [e])
    {
      assert EntryGiven(Entry(IdOf(req, m, f), m, f), given);
    }
  }

  lemma AskKeepsInv(s: State, e: Entry, t: State)
    requires Inv(s) && IsNewRequest(s.req, t.req, e.member, e.field, e.id) && t == Asked(s, t.req, e)
    ensures Inv(t)
  {
    AskKeepsIds(s.req, s.given, e, t.req);
    AskKeepsTable(s.req, e, s.given);
    MoreGiven(s, e);
  }

  lemma ArrivalKeepsInv(s: State, answers: nat)
    requires Inv(s) && s.up != []
    ensures Inv(Arrived(s, s.up[0], answers))
  {
    assert EntryGiven(s.up[0], s.given);
  }

  lemma ConnectKeepsInv(s: State, sent: bool, t: State)
    requires Inv(s) && Steps(s, Connect(sent), t)
    ensures Inv(t)
  {
    if sent {
      var first := if s.first.Some? then s.first.value else s.req;
      forall e | e in t.up
        ensures EntryGiven(e, t.given)
      {
        assert EntryGiven(Entry(IdOf(first, e.member, e.field), e.member, e.field), s.given);
      }
    }
  }

  lemma ForwardKeepsInv(s: State, member: Name, field: Name)
    requires Inv(s)
    ensures AllGiven(s.down + [Entry(IdOf(s.told, member, field), member, field)], s.given)
  {
    assert EntryGiven(Entry(IdOf(s.told, member, field), member, field), s.given);
  }

  lemma StepKeepsInv(s: State, op: Op, t: State)
    requires Inv(s) && Steps(s, op, t)
    ensures Inv(t)
  {
    match op
    case Ask(member, field) =>
      var id :| IsNewRequest(s.req, t.req, member, field, id) && t == Asked(s, t.req, Entry(id, member, field));
      AskKeepsInv(s, Entry(id, member, field), t);
    case Free(member, field) =>
      assert TableGiven(t.req, t.given) by {
        forall m, f
          ensures EntryGiven(Entry(IdOf(t.req, m, f), m, f), t.given)
        {
          assert EntryGiven(Entry(IdOf(s.req, m, f), m, f), s.given);
        }
      }
    case Connect(sent) => ConnectKeepsInv(s, sent, t);
    case ServerGets(answers) => ArrivalKeepsInv(s, answers);
    case Forward(member, field) => ForwardKeepsInv(s, member, field);
    case _ =>
  }

  lemma {:induction false} HistoryKeepsInv(states: seq<State>, ops: seq<Op>, n: nat)
    requires IsHistory(states, ops) && n <= |ops|
    ensures Inv(states[n])
  {
    if n > 0 {
      HistoryKeepsInv(states, ops, n - 1);
      StepKeepsInv(states[n - 1], ops[n - 1], states[n]);
    }
  }

  // ------------------------------------------------------------------
  // Where replies go.

  /** A reply that the client can still get: it is on its way, or the server holds its request and sends
      it with the next value. Requests with id 0 are only answered when they arrive. */
  ghost predicate Due(s: State, e: Entry) {
    e in s.down || (s.connected && e.id != 0 && IdOf(s.told, e.member, e.field) == e.id)
  }

  /** It goes to the field that was asked for if and only if: with an id other than 0, the id is in use and
      was given to that field last; with id 0, the field's is the first zero entry. And such a request was
      made for that field with that id. */
  lemma RepliesGoToLastGiven(states: seq<State>, ops: seq<Op>, n: nat, e: Entry, member: Name, field: Name)
    requires IsHistory(states, ops) && n <= |ops| && Due(states[n], e)
    ensures e.id == 0 || e in states[n].given
    ensures IsFirst(states[n].req, e.id, member, field)
       <==> if e.id == 0 then IsFirst(states[n].req, 0, member, field)
            else Live(states[n].req, e.id) && LastGiven(states[n].given, e.id) == Some(Entry(e.id, member, field))
  {
    HistoryKeepsInv(states, ops, n);
    if e.id != 0 {
      LiveIsFirst(states[n].req, e.id, member, field);
    }
    assert EntryGiven(Entry(IdOf(states[n].told, e.member, e.field), e.member, e.field), states[n].given);
  }

  /** The id stands for another field than the one it was sent for. */
  ghost predicate Strays(req: Requests, e: Entry) {
    exists m, f :: IsFirst(req, e.id, m, f) && (m, f) != (e.member, e.field)
  }

  ghost predicate Misrouted(s: State) {
    exists e :: Due(s, e) && Strays(s.req, e)
  }

  /** A field gets an id that the server still holds for another one, or has sent a reply with. */
  ghost predicate GivesAway(s: State, op: Op, t: State) {
    && op.Ask? && IdOf(t.req, op.member, op.field) != 0
    && exists e :: Due(s, e) && e.id == IdOf(t.req, op.member, op.field) && (op.member, op.field) != (e.member, e.field)
  }

  /** Another zero entry comes first while an answer with id 0 is on its way to some other field. */
  ghost predicate MovesZero(s: State, t: State) {
    exists e, m, f ::
      && e in s.down && e.id == 0 && (m, f) != (e.member, e.field)
      && IsFirst(t.req, 0, m, f) && !IsFirst(s.req, 0, m, f)
  }

  /** A request comes to the server after its id was given to another field, or it has id 0, is answered
      and is not the first zero entry. */
  ghost predicate ArrivesLate(s: State, op: Op) {
    op.ServerGets? && s.up != [] && (s.up[0].id != 0 || op.answers > 0) && Strays(s.req, s.up[0])
  }

  ghost predicate Harms(s: State, op: Op, t: State) {
    GivesAway(s, op, t) || MovesZero(s, t) || ArrivesLate(s, op)
  }

  lemma StraysByOwner(req: Requests, e: Entry, member: Name, field: Name)
    requires IsFirst(req, e.id, member, field)
    ensures Strays(req, e) <==> (member, field) != (e.member, e.field)
  {
    if Strays(req, e) {
      var m, f :| IsFirst(req, e.id, m, f) && (m, f) != (e.member, e.field);
      FirstIsUnique(req, e.id, member, field, m, f);
    }
  }

  /** A new id strays exactly for requests of other fields; other live ids stay where they are. */
  lemma AskStrays(s: State, n: Entry, t: State, e: Entry)
    requires Inv(s) && Inv(t) && IsNewRequest(s.req, t.req, n.member, n.field, n.id)
    requires e.id != 0 && !Strays(s.req, e)
    ensures Strays(t.req, e) <==> (e.id == n.id && (n.member, n.field) != (e.member, e.field))
  {
    if e.id == n.id {
      LiveIsFirst(t.req, e.id, n.member, n.field);
      StraysByOwner(t.req, e, n.member, n.field);
    } else if Strays(t.req, e) {
      var m, f :| IsFirst(t.req, e.id, m, f) && (m, f) != (e.member, e.field);
      LiveIsFirst(t.req, e.id, m, f);
      LiveIsFirst(s.req, e.id, m, f);
      assert false;
    }
  }

  lemma FreeDoesNotStray(s: State, member: Name, field: Name, e: Entry)
    requires DistinctIds(s.req) && e.id != 0 && !Strays(s.req, e)
    ensures !Strays(Freed(s.req, member, field), e)
  {
    var req := Freed(s.req, member, field);
    if Strays(req, e) {
      var m, f :| IsFirst(req, e.id, m, f) && (m, f) != (e.member, e.field);
      LiveIsFirst(s.req, e.id, m, f);
      assert false;
    }
  }

  /** An answer with id 0 strays after a step exactly when the step has moved the first zero entry. */
  lemma ZeroStrays(s: State, t: State, e: Entry)
    requires e.id == 0 && !Strays(s.req, e)
    ensures Strays(t.req, e) <==>
              exists m, f :: (m, f) != (e.member, e.field) && IsFirst(t.req, 0, m, f) && !IsFirst(s.req, 0, m, f)
  {
    if Strays(t.req, e) {
      var m, f :| IsFirst(t.req, 0, m, f) && (m, f) != (e.member, e.field);
    }
  }

  lemma AskRoutes(s: State, n: Entry, t: State)
    requires Inv(s) && Inv(t) && !Misrouted(s)
    requires IsNewRequest(s.req, t.req, n.member, n.field, n.id) && t == Asked(s, t.req, n)
    ensures Misrouted(t) <==> GivesAway(s, Ask(n.member, n.field), t) || MovesZero(s, t)
  {
    assert forall e :: Due(s, e) <==> Due(t, e);
    if Misrouted(t) {
      var e :| Due(t, e) && Strays(t.req, e);
      if e.id != 0 {
        AskStrays(s, n, t, e);
        assert GivesAway(s, Ask(n.member, n.field), t);
      } else {
        ZeroStrays(s, t, e);
        assert MovesZero(s, t);
      }
    }
    if GivesAway(s, Ask(n.member, n.field), t) {
      var e :| Due(s, e) && e.id == n.id && (n.member, n.field) != (e.member, e.field);
      AskStrays(s, n, t, e);
      assert Due(t, e) && Strays(t.req, e);
    }
    if MovesZero(s, t) {
      MovedZeroStrays(s, t);
    }
  }

  lemma MovedZeroStrays(s: State, t: State)
    requires MovesZero(s, t) && t.down == s.down
    ensures Misrouted(t)
  {
    var e, m, f :| && e in s.down && e.id == 0 && (m, f) != (e.member, e.field)
                   && IsFirst(t.req, 0, m, f) && !IsFirst(s.req, 0, m, f);
    assert Due(t, e) && Strays(t.req, e);
  }

  lemma FreeRoutes(s: State, member: Name, field: Name)
    requires Inv(s) && !Misrouted(s)
    ensures var t := s.(req := Freed(s.req, member, field)); Misrouted(t) <==> MovesZero(s, t)
  {
    var t := s.(req := Freed(s.req, member, field));
    assert forall e :: Due(s, e) <==> Due(t, e);
    if Misrouted(t) {
      var e :| Due(t, e) && Strays(t.req, e);
      if e.id != 0 {
        FreeDoesNotStray(s, member, field, e);
      } else {
        ZeroStrays(s, t, e);
        assert MovesZero(s, t);
      }
    }
    if MovesZero(s, t) {
      MovedZeroStrays(s, t);
    }
  }

  lemma ArrivalRoutes(s: State, answers: nat)
    requires s.connected && s.up != [] && !Misrouted(s)
    ensures Misrouted(Arrived(s, s.up[0], answers)) <==> ArrivesLate(s, ServerGets(answers))
  {
    var a := s.up[0];
    var t := Arrived(s, a, answers);
    forall e | Due(t, e)
      ensures Due(s, e) || (e == a && (a.id != 0 || answers > 0))
    {
    }
    if ArrivesLate(s, ServerGets(answers)) {
      assert answers > 0 ==> t.down[|s.down|] == a;
      assert Due(t, a) && Strays(t.req, a);
    }
    if Misrouted(t) {
      var e :| Due(t, e) && Strays(t.req, e);
      assert !Due(s, e);
    }
  }

  /** The other steps make nothing due that was not. */
  lemma OthersRoute(s: State, op: Op, t: State)
    requires Steps(s, op, t) && !Misrouted(s) && !op.Ask? && !op.Free? && !op.ServerGets?
    ensures !Misrouted(t) && t.req == s.req
  {
    forall e | Due(t, e)
      ensures Due(s, e)
    {
    }
  }

  lemma StepRoutes(s: State, op: Op, t: State)
    requires Inv(s) && Inv(t) && !Misrouted(s) && Steps(s, op, t)
    ensures Misrouted(t) <==> Harms(s, op, t)
  {
    match op
    case Ask(member, field) =>
      var id :| IsNewRequest(s.req, t.req, member, field, id) && t == Asked(s, t.req, Entry(id, member, field));
      AskRoutes(s, Entry(id, member, field), t);
    case Free(member, field) => FreeRoutes(s, member, field);
    case ServerGets(answers) => ArrivalRoutes(s, answers);
    case _ => OthersRoute(s, op, t);
  }

  ghost predicate RoutedSoFar(states: seq<State>, n: nat)
    requires n < |states|
  {
    forall i :: 0 <= i <= n ==> !Misrouted(states[i])
  }

  ghost predicate HarmlessSoFar(states: seq<State>, ops: seq<Op>, n: nat)
    requires |states| == |ops| + 1 && n <= |ops|
  {
    forall i :: 0 <= i < n ==> !Harms(states[i], ops[i], states[i + 1])
  }

  lemma OneMoreState(states: seq<State>, ops: seq<Op>, n: nat)
    requires |states| == |ops| + 1 && 0 < n <= |ops|
    ensures RoutedSoFar(states, n) <==> RoutedSoFar(states, n - 1) && !Misrouted(states[n])
    ensures HarmlessSoFar(states, ops, n) <==>
              HarmlessSoFar(states, ops, n - 1) && !Harms(states[n - 1], ops[n - 1], states[n])
  {
  }

  lemma NothingDueAtStart()
    ensures !Misrouted(START)
  {
    assert forall e :: !Due(START, e);
  }

  lemma HistoryRoutes(states: seq<State>, ops: seq<Op>, n: nat)
    requires IsHistory(states, ops) && n < |ops| && !Misrouted(states[n])
    ensures Misrouted(states[n + 1]) <==> Harms(states[n], ops[n], states[n + 1])
  {
    HistoryKeepsInv(states, ops, n);
    HistoryKeepsInv(states, ops, n + 1);
    StepRoutes(states[n], ops[n], states[n + 1]);
  }

  lemma RoutedOneMore(states: seq<State>, ops: seq<Op>, n: nat)
    requires IsHistory(states, ops) && n < |ops|
    requires RoutedSoFar(states, n) <==> HarmlessSoFar(states, ops, n)
    ensures RoutedSoFar(states, n + 1) <==> HarmlessSoFar(states, ops, n + 1)
  {
    OneMoreState(states, ops, n + 1);
    if RoutedSoFar(states, n) {
      HistoryRoutes(states, ops, n);
    }
  }

  /** Exactly when no reply is due that would go to another field, at every point of a run. */
  lemma {:induction false} RoutedWhileHarmless(states: seq<State>, ops: seq<Op>, n: nat)
    requires IsHistory(states, ops) && n <= |ops|
    ensures RoutedSoFar(states, n) <==> HarmlessSoFar(states, ops, n)
  {
    if n == 0 {
      NothingDueAtStart();
    } else {
      RoutedWhileHarmless(states, ops, n - 1);
      RoutedOneMore(states, ops, n - 1);
    }
  }

  // ------------------------------------------------------------------
  // What is stored.

  /** Everything stored is a reply to a request for the field it is stored under, but for what is under
      the empty names: there is what nobody asked for any more. */
  ghost predicate StoredRight(s: State) {
    forall k :: k in s.seen && k != ([], []) ==> k == (s.seen[k].member, s.seen[k].field)
  }

  lemma StepStoresRight(s: State, op: Op, t: State)
    requires Steps(s, op, t) && !Misrouted(s) && StoredRight(s)
    ensures StoredRight(t)
  {
    if op.Deliver? {
      assert Due(s, s.down[0]);
    } else if op.Ask? {
      var id :| && IsNewRequest(s.req, t.req, op.member, op.field, id)
                && t == Asked(s, t.req, Entry(id, op.member, op.field));
    } else {
      assert t.seen == s.seen;
    }
  }

  lemma {:induction false} StoredRightWhileRouted(states: seq<State>, ops: seq<Op>, n: nat)
    requires IsHistory(states, ops) && n <= |ops| && RoutedSoFar(states, n)
    ensures StoredRight(states[n])
  {
    if n > 0 {
      StoredRightWhileRouted(states, ops, n - 1);
      StepStoresRight(states[n - 1], ops[n - 1], states[n]);
    }
  }

  /** As long as no step does harm, nothing is stored under a field it was not asked for. */
  lemma StoredRightWhileHarmless(states: seq<State>, ops: seq<Op>, n: nat)
    requires IsHistory(states, ops) && n <= |ops| && HarmlessSoFar(states, ops, n)
    ensures StoredRight(states[n])
  {
    RoutedWhileHarmless(states, ops, n);
    StoredRightWhileRouted(states, ops, n);
  }

  lemma LandingExists(req: Requests, id: ReqId) returns (m: Name, f: Name)
    ensures Lands(req, id, m, f)
  {
    if member, field :| Has(req, id, member, field) {
      m, f := FirstExists(req, id, member, field);
    } else {
      m, f := [], [];
    }
  }

  lemma PathOfOne(s: State, op: Op, t: State, states: seq<State>, ops: seq<Op>)
    requires Steps(s, op, t) && IsPath(states, ops) && states[0] == t
    ensures IsPath([s] + states, [op] + ops) && ([s] + states)[|ops| + 1] == states[|ops|]
  {
  }

  /** Delivering what is on the way up to a reply that strays stores it under another field. */
  lemma {:induction false} DeliverUpTo(s: State, j: nat) returns (states: seq<State>, ops: seq<Op>, k: (Name, Name))
    requires j < |s.down| && Strays(s.req, s.down[j])
    ensures IsPath(states, ops) && states[0] == s && forall op :: op in ops ==> op.Deliver?
    ensures k in states[|ops|].seen && states[|ops|].seen[k] == s.down[j] && k != (s.down[j].member, s.down[j].field)
    decreases j
  {
    if j == 0 {
      var m, f :| IsFirst(s.req, s.down[0].id, m, f) && (m, f) != (s.down[0].member, s.down[0].field);
      var t := s.(down := s.down[1..], seen := s.seen[(m, f) := s.down[0]]);
      assert Steps(s, Deliver(m, f), t);
      states, ops, k := [s, t], [Deliver(m, f)], (m, f);
    } else {
      var m, f := LandingExists(s.req, s.down[0].id);
      var t := s.(down := s.down[1..], seen := s.seen[(m, f) := s.down[0]]);
      states, ops, k := DeliverUpTo(t, j - 1);
      PathOfOne(s, Deliver(m, f), t, states, ops);
      states, ops := [s] + states, [Deliver(m, f)] + ops;
    }
  }

  /** The condition is not stricter than it need be: whenever a reply is due that would go to another field,
      the server and the deliveries alone can get it stored there. */
  lemma MisroutedGetsStored(s: State) returns (states: seq<State>, ops: seq<Op>, k: (Name, Name))
    requires Misrouted(s)
    ensures IsPath(states, ops) && states[0] == s
    ensures forall op :: op in ops ==> op.Deliver? || op.Forward?
    ensures
      var last := states[|ops|];
      k in last.seen && k != (last.seen[k].member, last.seen[k].field)
  {
    var e :| Due(s, e) && Strays(s.req, e);
    if e in s.down {
      var j :| 0 <= j < |s.down| && s.down[j] == e;
      states, ops, k := DeliverUpTo(s, j);
    } else {
      var t := s.(down := s.down + [e]);
      assert t.down[|s.down|] == e;
      states, ops, k := DeliverUpTo(t, |s.down|);
      PathOfOne(s, Forward(e.member, e.field), t, states, ops);
      states, ops := [s] + states, [Forward(e.member, e.field)] + ops;
    }
  }

  // ------------------------------------------------------------------
  // When an id is given again.

  lemma NewIdWasGiven(req: Requests, given: seq<Entry>, max: ReqId)
    requires IdsOk(req, given) && IsMaxId(req, max) && NextId(max) != 0
    ensures WasGiven(given, NextId(max)) <==> Largest(given) != 0 && !Live(req, Largest(given))
  {
    LargestInUse(req, given, max);
    LastGivenWasGiven(given, NextId(max));
    assert LastGiven(given, NextId(max)).Some? <==> NextId(max) <= Largest(given);
  }

  lemma LargestOfSome(req: Requests, given: seq<Entry>)
    requires IdsOk(req, given)
    ensures given != [] <==> Largest(given) != 0
  {
    if given != [] {
      LastGivenWasGiven(given, given[0].id);
      assert LastGiven(given, given[0].id).Some?;
    }
  }

  /** An id is given again exactly when, at that moment, the largest id ever given is in use no more: its
      request was removed. */
  lemma ReissuedWhenLargestIsFree(states: seq<State>, ops: seq<Op>, n: nat, id: ReqId)
    requires IsHistory(states, ops) && n < |ops| && ops[n].Ask? && id != 0
    requires IsNewRequest(states[n].req, states[n + 1].req, ops[n].member, ops[n].field, id)
    ensures
      var s := states[n];
      WasGiven(s.given, id) <==> (s.given != [] && !Live(s.req, Largest(s.given)))
  {
    HistoryKeepsInv(states, ops, n);
    var max :| IsMaxId(states[n].req, max) && id == NextId(max);
    NewIdWasGiven(states[n].req, states[n].given, max);
    LargestOfSome(states[n].req, states[n].given);
  }

  // ------------------------------------------------------------------
  // Both ways of going wrong happen.

  /** One field is asked for, told to the server and freed, and the next one asked for gets its id. */
  function ReusedRun(member: Name, a: Name, b: Name): seq<State> {
    var earlier, later := Entry(1, member, a), Entry(1, member, b);
    var asked := Asked(START, map[member := map[a := 1]], earlier);
    var pushed := asked.(adding := multiset{});
    var joined := pushed.(first := Some(map[]), connected := true, up := [earlier]);
    var held := joined.(up := [], told := map[member := map[a := 1]]);
    var freed := held.(req := map[member := map[]]);
    var reused := Asked(freed, map[member := map[b := 1]], later);
    var forwarded := reused.(down := [earlier]);
    [START, asked, pushed, joined, held, freed, reused, forwarded,
     forwarded.(down := [], seen := map[(member, b) := earlier])]
  }

  function ReusedOps(member: Name, a: Name, b: Name): seq<Op> {
    [Ask(member, a), Push(Entry(1, member, a), false), Connect(true), ServerGets(0), Free(member, a), Ask(member, b),
     Forward(member, a), Deliver(member, b)]
  }

  lemma FirstAsk(req: Requests, member: Name, field: Name)
    requires forall m, f :: IdOf(req, m, f) == 0
    ensures IsNewRequest(req, WithId(req, member, field, 1), member, field, 1)
  {
    assert IsMaxId(req, 0);
  }

  lemma ReusedUntilPushed(member: Name, a: Name, b: Name)
    ensures
      var r, o := ReusedRun(member, a, b), ReusedOps(member, a, b);
      Steps(r[0], o[0], r[1]) && Steps(r[1], o[1], r[2])
  {
    FirstAsk(map[], member, a);
    assert ReusedRun(member, a, b)[1].adding == multiset{Entry(1, member, a)};
  }

  lemma ListingOfOne(e: Entry)
    ensures IsListing(map[e.member := map[e.field := e.id]], [e])
  {
  }

  lemma ReusedUntilJoined(member: Name, a: Name, b: Name)
    ensures
      var r, o := ReusedRun(member, a, b), ReusedOps(member, a, b);
      Steps(r[2], o[2], r[3])
  {
    ListingOfOne(Entry(1, member, a));
  }

  lemma ReusedUntilHeld(member: Name, a: Name, b: Name)
    ensures
      var r, o := ReusedRun(member, a, b), ReusedOps(member, a, b);
      Steps(r[3], o[3], r[4])
  {
  }

  lemma ReusedUntilAsked(member: Name, a: Name, b: Name)
    ensures
      var r, o := ReusedRun(member, a, b), ReusedOps(member, a, b);
      Steps(r[4], o[4], r[5]) && Steps(r[5], o[5], r[6])
  {
    var r := ReusedRun(member, a, b);
    FirstAsk(r[5].req, member, b);
    assert r[4].req[member] - {a} == map[];
  }

  lemma ReusedUntilStored(member: Name, a: Name, b: Name)
    requires a != b
    ensures
      var r, o := ReusedRun(member, a, b), ReusedOps(member, a, b);
      Steps(r[6], o[6], r[7]) && Steps(r[7], o[7], r[8]) && GivesAway(r[5], o[5], r[6])
  {
    var r := ReusedRun(member, a, b);
    assert IsFirst(r[7].req, 1, member, b);
    assert Due(r[5], Entry(1, member, a));
  }

  lemma EightSteps(r: seq<State>, o: seq<Op>)
    requires |r| == 9 && |o| == 8
    requires Steps(r[0], o[0], r[1]) && Steps(r[1], o[1], r[2]) && Steps(r[2], o[2], r[3]) && Steps(r[3], o[3], r[4])
    requires Steps(r[4], o[4], r[5]) && Steps(r[5], o[5], r[6]) && Steps(r[6], o[6], r[7]) && Steps(r[7], o[7], r[8])
    ensures IsPath(r, o)
  {
  }

  lemma ReusedIsPath(member: Name, a: Name, b: Name)
    requires a != b
    ensures IsPath(ReusedRun(member, a, b), ReusedOps(member, a, b))
  {
    ReusedUntilPushed(member, a, b);
    ReusedUntilJoined(member, a, b);
    ReusedUntilHeld(member, a, b);
    ReusedUntilAsked(member, a, b);
    ReusedUntilStored(member, a, b);
    EightSteps(ReusedRun(member, a, b), ReusedOps(member, a, b));
  }

  lemma HarmIsSeen(states: seq<State>, ops: seq<Op>, n: nat)
    requires |states| == |ops| + 1 && n < |ops| && Harms(states[n], ops[n], states[n + 1])
    ensures !HarmlessSoFar(states, ops, |ops|)
  {
  }

  /** Then a value of the freed field is stored under the other one. */
  lemma FreedReplyIsMisrouted(member: Name, a: Name, b: Name) returns (states: seq<State>, ops: seq<Op>)
    requires a != b
    ensures IsHistory(states, ops) && !HarmlessSoFar(states, ops, |ops|)
    ensures states[|ops|].seen == map[(member, b) := Entry(1, member, a)]
  {
    states, ops := ReusedRun(member, a, b), ReusedOps(member, a, b);
    ReusedIsPath(member, a, b);
    ReusedUntilStored(member, a, b);
    HarmIsSeen(states, ops, 5);
  }

  /** Two fields that were never asked for are freed before connecting. */
  function ZeroRun(member: Name, a: Name, b: Name): seq<State> {
    var x, y := Entry(0, member, a), Entry(0, member, b);
    var one := START.(req := map[member := map[a := 0]]);
    var two := one.(req := map[member := map[a := 0, b := 0]]);
    var joined := two.(first := Some(map[]), connected := true, up := [x, y]);
    var half := joined.(up := [y], told := map[member := map[a := 0]], down := [x]);
    var both := half.(up := [], told := map[member := map[a := 0, b := 0]], down := [x, y]);
    var right := both.(down := [y], seen := map[(member, a) := x]);
    [START, one, two, joined, half, both, right, right.(down := [], seen := map[(member, a) := y])]
  }

  function ZeroOps(member: Name, a: Name, b: Name): seq<Op> {
    [Free(member, a), Free(member, b), Connect(true), ServerGets(1), ServerGets(1), Deliver(member, a),
     Deliver(member, a)]
  }

  lemma ZeroUntilFreed(member: Name, a: Name, b: Name)
    requires a != b
    ensures
      var r, o := ZeroRun(member, a, b), ZeroOps(member, a, b);
      Steps(r[0], o[0], r[1]) && Steps(r[1], o[1], r[2])
  {
  }

  lemma ListingOfTwo(member: Name, a: Name, b: Name)
    requires Less(a, b) && a != b
    ensures
      var req := map[member := map[a := 0, b := 0]];
      IsListing(req, [Entry(0, member, a), Entry(0, member, b)]) && IsFirst(req, 0, member, a)
  {
  }

  lemma ZeroUntilJoined(member: Name, a: Name, b: Name)
    requires Less(a, b) && a != b
    ensures
      var r, o := ZeroRun(member, a, b), ZeroOps(member, a, b);
      Steps(r[2], o[2], r[3]) && IsFirst(r[4].req, 0, member, a)
  {
    ListingOfTwo(member, a, b);
  }

  lemma ZeroUntilAnswered(member: Name, a: Name, b: Name)
    ensures
      var r, o := ZeroRun(member, a, b), ZeroOps(member, a, b);
      Steps(r[3], o[3], r[4]) && Steps(r[4], o[4], r[5])
  {
    var x, y := Entry(0, member, a), Entry(0, member, b);
    assert seq(1, _ => x) == [x] && seq(1, _ => y) == [y];
  }

  lemma ZeroUntilStored(member: Name, a: Name, b: Name)
    requires a != b && IsFirst(ZeroRun(member, a, b)[4].req, 0, member, a)
    ensures
      var r, o := ZeroRun(member, a, b), ZeroOps(member, a, b);
      Steps(r[5], o[5], r[6]) && Steps(r[6], o[6], r[7]) && ArrivesLate(r[4], o[4])
  {
    var r := ZeroRun(member, a, b);
    StraysByOwner(r[4].req, Entry(0, member, b), member, a);
  }

  /** Then the answer for the second is stored under the first, and no id was ever given. */
  lemma ZeroReplyIsMisrouted(member: Name, a: Name, b: Name) returns (states: seq<State>, ops: seq<Op>)
    requires Less(a, b)
    ensures IsHistory(states, ops) && !HarmlessSoFar(states, ops, |ops|)
    ensures states[|ops|].seen == map[(member, a) := Entry(0, member, b)] && states[|ops|].given == []
  {
    states, ops := ZeroRun(member, a, b), ZeroOps(member, a, b);
    LessIsIrreflexive(a);
    ZeroUntilFreed(member, a, b);
    ZeroUntilJoined(member, a, b);
    ZeroUntilAnswered(member, a, b);
    ZeroUntilStored(member, a, b);
    HarmIsSeen(states, ops, 4);
  }

  // ------------------------------------------------------------------
  // What reaches the server.

  /** The server's table after it has got these requests in order. */
  function Told(told: Requests, entries: seq<Entry>): Requests
    decreases |entries|
  {
    if entries == [] then told
    else Told(WithId(told, entries[0].member, entries[0].field, entries[0].id), entries[1..])
  }

  lemma {:induction false} GetAll(s: State) returns (states: seq<State>, ops: seq<Op>)
    requires s.connected
    ensures IsPath(states, ops) && states[0] == s && forall op :: op in ops ==> op == ServerGets(0)
    ensures states[|ops|] == s.(up := [], told := Told(s.told, s.up))
    decreases |s.up|
  {
    if s.up == [] {
      states, ops := [s], [];
    } else {
      var t := Arrived(s, s.up[0], 0);
      assert t.down == s.down;
      assert Steps(s, ServerGets(0), t);
      states, ops := GetAll(t);
      PathOfOne(s, ServerGets(0), t, states, ops);
      states, ops := [s] + states, [ServerGets(0)] + ops;
    }
  }

  /** Sending what is queued, and then the server getting all of it. */
  lemma {:induction false} SendAll(s: State) returns (states: seq<State>, ops: seq<Op>)
    requires s.connected
    ensures IsPath(states, ops) && states[0] == s && forall op :: op in ops ==> op == Send || op == ServerGets(0)
    ensures states[|ops|] == s.(queue := [], up := [], told := Told(s.told, s.up + s.queue))
    decreases |s.queue|
  {
    if s.queue == [] {
      states, ops := GetAll(s);
      assert s.up + [] == s.up;
    } else {
      var t := s.(queue := s.queue[1..], up := s.up + [s.queue[0]]);
      assert Steps(s, Send, t);
      states, ops := SendAll(t);
      PathOfOne(s, Send, t, states, ops);
      states, ops := [s] + states, [Send] + ops;
      assert t.up + t.queue == s.up + s.queue;
    }
  }

  lemma {:induction false} LastIsTold(told: Requests, entries: seq<Entry>, e: Entry)
    ensures IdOf(Told(told, entries + [e]), e.member, e.field) == e.id
    decreases |entries|
  {
    if entries == [] {
      assert [] + [e] == [e] && [e][1..] == [];
    } else {
      assert (entries + [e])[1..] == entries[1..] + [e];
      LastIsTold(WithId(told, entries[0].member, entries[0].field, entries[0].id), entries[1..], e);
    }
  }

  /** A request that was pushed while connected gets to the server: with the queue sent and received, the
      server holds its id for its field. */
  lemma PushedIsTold(s: State, e: Entry) returns (states: seq<State>, ops: seq<Op>)
    requires s.connected && e in s.adding
    ensures IsPath(states, ops) && states[0] == s && ops != [] && ops[0] == Push(e, true)
    ensures forall op :: op in ops[1..] ==> op == Send || op == ServerGets(0)
    ensures IdOf(states[|ops|].told, e.member, e.field) == e.id
  {
    var t := s.(adding := s.adding - multiset{e}, queue := s.queue + [e]);
    states, ops := SendAll(t);
    PathOfOne(s, Push(e, true), t, states, ops);
    states, ops := [s] + states, [Push(e, true)] + ops;
    assert t.up + t.queue == (s.up + s.queue) + [e];
    LastIsTold(s.told, s.up + s.queue, e);
  }

  /** The first message of a connection carries the requests as they were when a sync took it before there
      was a connection, whatever was added or removed since; after a lost connection was noticed it carries
      them as they are. */
  lemma FirstMessageSays(s: State, op: Op, t: State, v: State, u: State)
    requires (op == Snapshot || op == Reset) && Steps(s, op, t) && v.first == t.first && Steps(v, Connect(true), u)
    ensures forall e ::
              e in u.up <==> Has(if op == Snapshot then s.req else v.req, e.id, e.member, e.field)
    ensures u.told == map[] && u.first == Some(map[]) && u.queue == v.queue && u.down == v.down && u.req == v.req
  {
  }

  /** A lost connection takes what was on the way, and nothing that was received or is still queued. */
  lemma CloseSays(s: State, received: nat, lost: nat, t: State)
    requires Steps(s, Close(received, lost), t)
    ensures !t.connected && t.req == s.req && t.adding == s.adding && t.first == s.first && t.told == map[]
    ensures |t.down| == received && (forall i :: 0 <= i < received ==> t.down[i] == s.down[i])
    ensures |t.queue| == |s.queue| - lost && (forall i :: 0 <= i < |t.queue| ==> t.queue[i] == s.queue[lost + i])
  {
  }

  /** When the first message fails to be sent, the one after it carries nothing, unless the loss was noticed. */
  lemma FailedFirstSays(s: State, t: State, v: State, u: State)
    requires Steps(s, Connect(false), t) && v.first == t.first && Steps(v, Connect(true), u)
    ensures forall e :: e !in u.up
  {
  }
}
