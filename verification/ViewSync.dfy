/** View replication: one member's views from its client over the server to any number of subscribers. */
module ViewSync {
  import opened Names
  import opened Wrappers
  import opened SyncStore
  import opened Views

  datatype Packet<C> = Packet(field: Name, diff: Diff<C>)

  /** The view store of the sending client. */
  datatype Sender<C> = Sender(pending: Writes<View<C>>, prev: Table<View<C>>, own: Table<View<C>>)

  datatype Subscriber<C> = Subscriber(requested: set<Name>, seen: Table<View<C>>, down: seq<Packet<C>>)

  /** A subscriber of the old format: positional differences and a length. */
  datatype OldPacket<C> = OldPacket(field: Name, diff: map<nat, C>, length: nat)

  datatype OldSubscriber<C> =
    OldSubscriber(requested: set<Name>, seen: Table<seq<Option<C>>>, down: seq<OldPacket<C>>)

  /** One session. `up` and each `down` are channels that keep their order. */
  datatype State<C> = State(
    sender: Sender<C>, up: seq<Packet<C>>, server: Table<View<C>>,
    subs: map<Name, Subscriber<C>>, oldSubs: map<Name, OldSubscriber<C>>)

  function At<C>(table: Table<View<C>>, field: Name): View<C> {
    if field in table then table[field] else EmptyView()
  }

  function Apply<C>(table: Table<View<C>>, p: Packet<C>): Table<View<C>> {
    table[p.field := Merge(At(table, p.field), p.diff)]
  }

  function ApplyAll<C>(table: Table<View<C>>, packets: seq<Packet<C>>): Table<View<C>> {
    if packets == [] then table
    else Apply(ApplyAll(table, packets[..|packets| - 1]), packets[|packets| - 1])
  }

  function ApplyOld<C>(table: Table<seq<Option<C>>>, p: OldPacket<C>): Table<seq<Option<C>>> {
    table[p.field := Patch(if p.field in table then table[p.field] else [], p.diff, p.length)]
  }

  function ApplyAllOld<C>(table: Table<seq<Option<C>>>, packets: seq<OldPacket<C>>): Table<seq<Option<C>>> {
    if packets == [] then table
    else ApplyOld(ApplyAllOld(table, packets[..|packets| - 1]), packets[|packets| - 1])
  }

  // ------------------------------------------------------------------
  // Steps.

  ghost function Fields<C>(packets: seq<Packet<C>>): set<Name> {
    set p | p in packets :: p.field
  }

  /** The messages packSyncData makes of one transfer, in any order of the fields. */
  ghost predicate IsBatch<C>(prev: Table<View<C>>, data: Table<View<C>>, batch: seq<Packet<C>>) {
    && (forall f :: f in data ==> Complete(data[f]))
    && (forall i :: 0 <= i < |batch| ==>
          && batch[i].field in data
          && batch[i].diff == DiffOf(Lookup(prev, batch[i].field), data[batch[i].field]))
    && (forall i, j :: 0 <= i < j < |batch| ==> batch[i].field != batch[j].field)
    && (forall f :: f in data && !IsNothing(DiffOf(Lookup(prev, f), data[f])) ==> f in Fields(batch))
  }

  function FullReply<C>(server: Table<View<C>>, field: Name): seq<Packet<C>> {
    if field in server then [Packet(field, Diff(server[field].components, Some(server[field].ids)))] else []
  }

  function Forwarded<C>(sub: Subscriber<C>, p: Packet<C>): Subscriber<C> {
    if p.field in sub.requested then sub.(down := sub.down + [p]) else sub
  }

  /** The positional form of the whole view: old_components of the initial reply. */
  function FullOldReply<C>(server: Table<View<C>>, field: Name): seq<OldPacket<C>>
    requires field in server ==> Complete(server[field])
  {
    if field !in server then []
    else
      var list := Listed(server[field]);
      [OldPacket(field, map i: nat | i < |list| :: list[i], |list|)]
  }

  /** The server turns an incoming message into its positional form while merging it. */
  function ForwardedOld<C>(sub: OldSubscriber<C>, server: Table<View<C>>, p: Packet<C>): OldSubscriber<C> {
    var before := At(server, p.field);
    if p.field in sub.requested
    then sub.(down := sub.down + [OldPacket(p.field, OldDiff(before, p.diff), |Merge(before, p.diff).ids|)])
    else sub
  }

  datatype Action<C> =
    | Write(field: Name, view: View<C>)
    | Sync(batch: seq<Packet<C>>)
    | Receive
    | Subscribe(sub: Name, wanted: Name)
    | Deliver(to: Name)
    | SubscribeOld(oldSub: Name, wanted: Name)
    | DeliverOld(to: Name)

  ghost predicate Next<C(!new)>(s: State<C>, a: Action<C>, t: State<C>) {
    match a
    case Write(field, view) =>
      && WellFormed(view)
      && t == s.(sender := s.sender.(pending := s.sender.pending + [(field, view)]))
    case Sync(batch) =>
      && IsChange(true, s.sender.own, s.sender.pending, t.sender.prev)
      && IsBatch(s.sender.prev, t.sender.prev, batch)
      && t == s.(
           sender := Sender([], t.sender.prev, Overlay(s.sender.own, s.sender.pending)),
           up := s.up + batch)
    case Receive =>
      && s.up != []
      && t == s.(
           up := s.up[1..],
           server := Apply(s.server, s.up[0]),
           subs := map n | n in s.subs :: Forwarded(s.subs[n], s.up[0]),
           oldSubs := map n | n in s.oldSubs :: ForwardedOld(s.oldSubs[n], s.server, s.up[0]))
    case Subscribe(n, field) =>
      && n in s.subs
      && t == s.(subs := s.subs[n := s.subs[n].(
           requested := s.subs[n].requested + {field},
           down := s.subs[n].down + FullReply(s.server, field))])
    case Deliver(n) =>
      && n in s.subs && s.subs[n].down != []
      && t == s.(subs := s.subs[n := s.subs[n].(
           seen := Apply(s.subs[n].seen, s.subs[n].down[0]),
           down := s.subs[n].down[1..])])
    case SubscribeOld(n, field) =>
      // The server looks every listed component up; `ServerIsComplete` says that it always can.
      && n in s.oldSubs && (field in s.server ==> Complete(s.server[field]))
      && t == s.(oldSubs := s.oldSubs[n := s.oldSubs[n].(
           requested := s.oldSubs[n].requested + {field},
           down := s.oldSubs[n].down + FullOldReply(s.server, field))])
    case DeliverOld(n) =>
      && n in s.oldSubs && s.oldSubs[n].down != []
      && t == s.(oldSubs := s.oldSubs[n := s.oldSubs[n].(
           seen := ApplyOld(s.oldSubs[n].seen, s.oldSubs[n].down[0]),
           down := s.oldSubs[n].down[1..])])
  }

  /** A session starts with everything the client has, sent to a server that knows nothing of it. */
  ghost predicate Init<C(!new)>(s: State<C>) {
    && s.sender.pending == [] && s.sender.prev == s.sender.own && s.server == map[]
    && (forall f :: f in s.sender.own ==> WellFormed(s.sender.own[f]))
    && IsBatch(map[], s.sender.own, s.up)
    && (forall n :: n in s.subs ==> s.subs[n] == Subscriber({}, map[], []))
    && (forall n :: n in s.oldSubs ==> s.oldSubs[n] == OldSubscriber({}, map[], []))
  }

  ghost predicate IsRun<C(!new)>(states: seq<State<C>>, actions: seq<Action<C>>) {
    && |states| == |actions| + 1 && Init(states[0])
    && forall i :: 0 <= i < |actions| ==> Next(states[i], actions[i], states[i + 1])
  }

  // ------------------------------------------------------------------
  // Invariants.

  ghost predicate AllComplete<C>(table: Table<View<C>>) {
    forall f :: f in table ==> Complete(table[f])
  }

  /** After any number of the waiting packets every view is complete. */
  ghost predicate CompleteThroughout<C>(table: Table<View<C>>, packets: seq<Packet<C>>) {
    forall k :: 0 <= k <= |packets| ==> AllComplete(ApplyAll(table, packets[..k]))
  }

  /** What was sent last is what the store has, so a difference against it is a difference
      against what the other side will have. */
  ghost predicate SenderOk<C>(sender: Sender<C>) {
    && (forall i :: 0 <= i < |sender.pending| ==> WellFormed(sender.pending[i].1))
    && (forall f :: f in sender.own ==> WellFormed(sender.own[f]))
    && (forall f :: f in sender.prev ==> f in sender.own && sender.prev[f] == sender.own[f])
  }

  ghost predicate ShowsAll<C>(replica: Table<View<C>>, own: Table<View<C>>) {
    forall f :: (f in replica <==> f in own) && (f in own ==> Shows(replica[f], own[f]))
  }

  ghost predicate SubOk<C>(sub: Subscriber<C>, server: Table<View<C>>) {
    var final := ApplyAll(sub.seen, sub.down);
    && (forall f :: f in final ==> f in server)
    && (forall f :: f in sub.requested && f in server ==> f in final && Covers(final[f], server[f]))
    && CompleteThroughout(sub.seen, sub.down)
  }

  ghost predicate OldSubOk<C>(sub: OldSubscriber<C>, server: Table<View<C>>) {
    var final := ApplyAllOld(sub.seen, sub.down);
    && (forall f :: f in final ==> f in server)
    && (forall f :: f in sub.requested && f in server ==>
          f in final && Complete(server[f]) && final[f] == Filled(Listed(server[f])))
  }

  ghost predicate Inv<C>(s: State<C>) {
    && SenderOk(s.sender)
    && ShowsAll(ApplyAll(s.server, s.up), s.sender.own)
    && CompleteThroughout(s.server, s.up)
    && (forall n :: n in s.subs ==> SubOk(s.subs[n], s.server))
    && (forall n :: n in s.oldSubs ==> OldSubOk(s.oldSubs[n], s.server))
  }

  // ------------------------------------------------------------------
  // Packets.

  lemma {:induction false} ApplyAllInSteps<C>(table: Table<View<C>>, a: seq<Packet<C>>, b: seq<Packet<C>>)
    ensures ApplyAll(table, a + b) == ApplyAll(ApplyAll(table, a), b)
  {
    if b == [] {
      assert a + b == a;
    } else {
      assert (a + b)[..|a + b| - 1] == a + b[..|b| - 1];
      ApplyAllInSteps(table, a, b[..|b| - 1]);
    }
  }

  lemma ApplyFirst<C>(table: Table<View<C>>, packets: seq<Packet<C>>)
    requires packets != []
    ensures ApplyAll(Apply(table, packets[0]), packets[1..]) == ApplyAll(table, packets)
  {
    assert packets == packets[..1] + packets[1..];
    assert packets[..1][..0] == [] && ApplyAll(table, packets[..1]) == Apply(table, packets[0]);
    ApplyAllInSteps(table, packets[..1], packets[1..]);
  }

  lemma CompleteAfterFirst<C>(table: Table<View<C>>, packets: seq<Packet<C>>)
    requires packets != [] && CompleteThroughout(table, packets)
    ensures CompleteThroughout(Apply(table, packets[0]), packets[1..])
    ensures AllComplete(Apply(table, packets[0])) && AllComplete(table)
  {
    forall k | 0 <= k <= |packets| - 1
      ensures AllComplete(ApplyAll(Apply(table, packets[0]), packets[1..][..k]))
    {
      assert packets[1..][..k] == packets[..k + 1][1..];
      ApplyFirst(table, packets[..k + 1]);
    }
    assert packets[1..][..0] == [];
    assert packets[..0] == [];
  }

  lemma CompleteWithOneMore<C>(table: Table<View<C>>, packets: seq<Packet<C>>, p: Packet<C>)
    requires CompleteThroughout(table, packets) && AllComplete(ApplyAll(table, packets + [p]))
    ensures CompleteThroughout(table, packets + [p])
  {
    forall k | 0 <= k <= |packets| + 1
      ensures AllComplete(ApplyAll(table, (packets + [p])[..k]))
    {
      if k <= |packets| {
        assert (packets + [p])[..k] == packets[..k];
      } else {
        assert (packets + [p])[..k] == packets + [p];
      }
    }
  }

  // ------------------------------------------------------------------
  // The sender's batch.

  /** A field of the batch shows the new view, any other is untouched. */
  ghost predicate FieldDone<C>(
    table: Table<View<C>>, after: Table<View<C>>, data: Table<View<C>>, sent: set<Name>, f: Name)
  {
    if f in sent then f in data && f in after && Shows(after[f], data[f]) else Lookup(after, f) == Lookup(table, f)
  }

  ghost predicate BatchDone<C>(
    table: Table<View<C>>, after: Table<View<C>>, data: Table<View<C>>, sent: set<Name>)
  {
    forall f :: FieldDone(table, after, data, sent, f)
  }

  ghost predicate Knows<C>(table: Table<View<C>>, prev: Table<View<C>>) {
    forall f :: f in prev ==> WellFormed(prev[f]) && f in table && Shows(table[f], prev[f])
  }

  lemma BatchStep<C>(
    table: Table<View<C>>, before: Table<View<C>>, prev: Table<View<C>>, data: Table<View<C>>, batch: seq<Packet<C>>,
    n: nat)
    requires IsBatch(prev, data, batch) && Knows(table, prev) && n < |batch|
    requires BatchDone(table, before, data, Fields(batch[..n]))
    ensures BatchDone(table, Apply(before, batch[n]), data, Fields(batch[..n + 1]))
  {
    var f := batch[n].field;
    assert f !in Fields(batch[..n]);
    assert FieldDone(table, before, data, Fields(batch[..n]), f);
    DiffBringsUpToDate(At(before, f), Lookup(prev, f), data[f]);
    BatchGrows(table, before, data, batch, n);
  }

  lemma {:induction false} BatchBringsUpToDate<C>(
    table: Table<View<C>>, prev: Table<View<C>>, data: Table<View<C>>, batch: seq<Packet<C>>, n: nat)
    requires IsBatch(prev, data, batch) && Knows(table, prev) && n <= |batch|
    ensures BatchDone(table, ApplyAll(table, batch[..n]), data, Fields(batch[..n]))
  {
    if n > 0 {
      BatchBringsUpToDate(table, prev, data, batch, n - 1);
      assert batch[..n][..n - 1] == batch[..n - 1];
      BatchStep(table, ApplyAll(table, batch[..n - 1]), prev, data, batch, n - 1);
    }
  }

  lemma BatchGrows<C>(
    table: Table<View<C>>, before: Table<View<C>>, data: Table<View<C>>, batch: seq<Packet<C>>, n: nat)
    requires n < |batch| && BatchDone(table, before, data, Fields(batch[..n]))
    requires batch[n].field in data && Shows(Merge(At(before, batch[n].field), batch[n].diff), data[batch[n].field])
    ensures BatchDone(table, Apply(before, batch[n]), data, Fields(batch[..n + 1]))
  {
    var after := Apply(before, batch[n]);
    assert batch[..n + 1] == batch[..n] + [batch[n]];
    var sent := Fields(batch[..n]) + {batch[n].field};
    assert Fields(batch[..n + 1]) == sent;
    forall f
      ensures FieldDone(table, after, data, sent, f)
    {
      assert FieldDone(table, before, data, Fields(batch[..n]), f);
    }
  }

  /** A whole batch: every field of the transfer is up to date, even those with nothing to send. */
  lemma BatchShows<C>(table: Table<View<C>>, prev: Table<View<C>>, data: Table<View<C>>, batch: seq<Packet<C>>)
    requires IsBatch(prev, data, batch) && Knows(table, prev)
    ensures BatchDone(table, ApplyAll(table, batch), data, data.Keys)
  {
    BatchBringsUpToDate(table, prev, data, batch, |batch|);
    assert batch[..|batch|] == batch;
    var after := ApplyAll(table, batch);
    var all := data.Keys;
    forall f
      ensures FieldDone(table, after, data, all, f)
    {
      assert FieldDone(table, after, data, Fields(batch), f);
      if f in data && f !in Fields(batch) {
        assert IsNothing(DiffOf(Lookup(prev, f), data[f]));
        DiffBringsUpToDate(At(table, f), Lookup(prev, f), data[f]);
        NothingToMerge(At(table, f), DiffOf(Lookup(prev, f), data[f]));
      }
    }
  }

  lemma BatchStaysComplete<C>(
    table: Table<View<C>>, packets: seq<Packet<C>>, prev: Table<View<C>>, data: Table<View<C>>, batch: seq<Packet<C>>)
    requires IsBatch(prev, data, batch) && Knows(ApplyAll(table, packets), prev)
    requires CompleteThroughout(table, packets)
    ensures CompleteThroughout(table, packets + batch)
  {
    var middle := ApplyAll(table, packets);
    assert packets[..|packets|] == packets;
    forall k | 0 <= k <= |packets| + |batch|
      ensures AllComplete(ApplyAll(table, (packets + batch)[..k]))
    {
      if k <= |packets| {
        assert (packets + batch)[..k] == packets[..k];
      } else {
        var n := k - |packets|;
        assert (packets + batch)[..k] == packets + batch[..n];
        ApplyAllInSteps(table, packets, batch[..n]);
        BatchBringsUpToDate(middle, prev, data, batch, n);
        var after := ApplyAll(middle, batch[..n]);
        forall f | f in after
          ensures Complete(after[f])
        {
          assert FieldDone(middle, after, data, Fields(batch[..n]), f);
        }
      }
    }
  }

  // ------------------------------------------------------------------
  // Every step keeps the invariants.

  lemma {:induction false} OverlayWellFormed<C>(own: Table<View<C>>, writes: Writes<View<C>>)
    requires forall f :: f in own ==> WellFormed(own[f])
    requires forall i :: 0 <= i < |writes| ==> WellFormed(writes[i].1)
    ensures forall f :: f in Overlay(own, writes) ==> WellFormed(Overlay(own, writes)[f])
  {
    if writes != [] {
      OverlayWellFormed(own, writes[..|writes| - 1]);
    }
  }

  lemma SyncKeepsSender<C>(s: Sender<C>, t: Sender<C>)
    requires SenderOk(s) && IsChange(true, s.own, s.pending, t.prev)
    requires t == Sender([], t.prev, Overlay(s.own, s.pending))
    ensures SenderOk(t)
    ensures forall f :: f in t.own ==> f in t.prev || (f in s.own && t.own[f] == s.own[f])
    ensures forall f :: f in s.own ==> f in t.own
  {
    OverlayWellFormed(s.own, s.pending);
    forall f | f in t.prev
      ensures f in t.own && t.prev[f] == t.own[f]
    {
      assert (s.own + t.prev)[f] == t.prev[f];
    }
    forall f | f in t.own && f !in t.prev
      ensures f in s.own && t.own[f] == s.own[f]
    {
      assert f in s.own + t.prev;
    }
    forall f | f in s.own
      ensures f in t.own
    {
      assert f in s.own + t.prev;
    }
  }

  lemma SyncKeepsUp<C(!new)>(s: State<C>, batch: seq<Packet<C>>, t: State<C>)
    requires Inv(s) && Next(s, Sync(batch), t)
    ensures ShowsAll(ApplyAll(t.server, t.up), t.sender.own)
    ensures CompleteThroughout(t.server, t.up)
  {
    var middle := ApplyAll(s.server, s.up);
    SyncKeepsSender(s.sender, t.sender);
    assert Knows(middle, s.sender.prev);
    ApplyAllInSteps(s.server, s.up, batch);
    BatchShows(middle, s.sender.prev, t.sender.prev, batch);
    BatchStaysComplete(s.server, s.up, s.sender.prev, t.sender.prev, batch);
    var after := ApplyAll(t.server, t.up);
    forall f
      ensures (f in after <==> f in t.sender.own) && (f in t.sender.own ==> Shows(after[f], t.sender.own[f]))
    {
      assert FieldDone(middle, after, t.sender.prev, t.sender.prev.Keys, f);
    }
  }

  lemma CoversComplete<C>(replica: View<C>, source: View<C>)
    requires Covers(replica, source) && Complete(source)
    ensures Complete(replica)
  {
  }

  lemma ForwardKeepsSub<C>(sub: Subscriber<C>, server: Table<View<C>>, p: Packet<C>)
    requires SubOk(sub, server) && AllComplete(Apply(server, p))
    ensures SubOk(Forwarded(sub, p), Apply(server, p))
  {
    var final := ApplyAll(sub.seen, sub.down);
    assert sub.down[..|sub.down|] == sub.down;
    if p.field in sub.requested {
      assert (sub.down + [p])[..|sub.down|] == sub.down;
      assert Covers(At(final, p.field), At(server, p.field));
      MergeKeepsCovers(At(final, p.field), At(server, p.field), p.diff);
      assert Complete(Apply(server, p)[p.field]);
      CoversComplete(Merge(At(final, p.field), p.diff), Merge(At(server, p.field), p.diff));
      CompleteWithOneMore(sub.seen, sub.down, p);
    }
  }

  lemma SubscribeKeepsSub<C>(sub: Subscriber<C>, server: Table<View<C>>, field: Name)
    requires SubOk(sub, server) && AllComplete(server)
    ensures SubOk(
      sub.(requested := sub.requested + {field}, down := sub.down + FullReply(server, field)), server)
  {
    var final := ApplyAll(sub.seen, sub.down);
    assert sub.down[..|sub.down|] == sub.down;
    if field in server {
      var p := FullReply(server, field)[0];
      assert (sub.down + [p])[..|sub.down|] == sub.down;
      FullReplyCovers(At(final, field), server[field]);
      CoversComplete(Merge(At(final, field), p.diff), server[field]);
      CompleteWithOneMore(sub.seen, sub.down, p);
    } else {
      assert sub.down + FullReply(server, field) == sub.down;
    }
  }

  lemma DeliverKeepsSub<C>(sub: Subscriber<C>, server: Table<View<C>>)
    requires SubOk(sub, server) && sub.down != []
    ensures SubOk(sub.(seen := Apply(sub.seen, sub.down[0]), down := sub.down[1..]), server)
  {
    ApplyFirst(sub.seen, sub.down);
    CompleteAfterFirst(sub.seen, sub.down);
  }

  /** The forwarded positional difference takes the old list to the new one. */
  lemma ForwardedOldFills<C>(list: seq<Option<C>>, server: Table<View<C>>, p: Packet<C>)
    requires Complete(At(server, p.field)) && Complete(Merge(At(server, p.field), p.diff))
    requires list == Filled(Listed(At(server, p.field)))
    ensures
      var before, after := At(server, p.field), Apply(server, p)[p.field];
      Complete(after) && Patch(list, OldDiff(before, p.diff), |after.ids|) == Filled(Listed(after))
  {
    PatchFollows(At(server, p.field), p.diff);
  }

  lemma ApplyOneMoreOld<C>(table: Table<seq<Option<C>>>, packets: seq<OldPacket<C>>, p: OldPacket<C>)
    ensures ApplyAllOld(table, packets + [p]) == ApplyOld(ApplyAllOld(table, packets), p)
  {
    assert (packets + [p])[..|packets|] == packets;
  }

  lemma ForwardKeepsOldSub<C>(sub: OldSubscriber<C>, server: Table<View<C>>, p: Packet<C>)
    requires OldSubOk(sub, server) && AllComplete(Apply(server, p))
    ensures OldSubOk(ForwardedOld(sub, server, p), Apply(server, p))
  {
    if p.field in sub.requested {
      var final := ApplyAllOld(sub.seen, sub.down);
      var after := Apply(server, p)[p.field];
      var list := if p.field in final then final[p.field] else [];
      assert Complete(after);
      if p.field !in server {
        assert Filled(Listed(At(server, p.field))) == [];
      }
      ForwardedOldFills(list, server, p);
      ApplyOneMoreOld(sub.seen, sub.down, OldPacket(p.field, OldDiff(At(server, p.field), p.diff), |after.ids|));
    }
  }

  lemma FullOldReplyFills<C>(list: seq<Option<C>>, v: View<C>)
    requires Complete(v)
    ensures
      var all := Listed(v);
      Patch(list, map i: nat | i < |all| :: all[i], |all|) == Filled(all)
  {
  }

  lemma SubscribeKeepsOldSub<C>(sub: OldSubscriber<C>, server: Table<View<C>>, field: Name)
    requires OldSubOk(sub, server) && (field in server ==> Complete(server[field]))
    ensures OldSubOk(
      sub.(requested := sub.requested + {field}, down := sub.down + FullOldReply(server, field)), server)
  {
    var final := ApplyAllOld(sub.seen, sub.down);
    if field in server {
      var p := FullOldReply(server, field)[0];
      assert sub.down + FullOldReply(server, field) == sub.down + [p];
      ApplyOneMoreOld(sub.seen, sub.down, p);
      FullOldReplyFills(if field in final then final[field] else [], server[field]);
    } else {
      assert sub.down + FullOldReply(server, field) == sub.down;
    }
  }

  lemma {:induction false} ApplyAllOldInSteps<C>(
    table: Table<seq<Option<C>>>, a: seq<OldPacket<C>>, b: seq<OldPacket<C>>)
    ensures ApplyAllOld(table, a + b) == ApplyAllOld(ApplyAllOld(table, a), b)
  {
    if b == [] {
      assert a + b == a;
    } else {
      assert (a + b)[..|a + b| - 1] == a + b[..|b| - 1];
      ApplyAllOldInSteps(table, a, b[..|b| - 1]);
    }
  }

  lemma DeliverKeepsOldSub<C>(sub: OldSubscriber<C>, server: Table<View<C>>)
    requires OldSubOk(sub, server) && sub.down != []
    ensures OldSubOk(sub.(seen := ApplyOld(sub.seen, sub.down[0]), down := sub.down[1..]), server)
  {
    assert sub.down == sub.down[..1] + sub.down[1..];
    assert sub.down[..1][..0] == [] && ApplyAllOld(sub.seen, sub.down[..1]) == ApplyOld(sub.seen, sub.down[0]);
    ApplyAllOldInSteps(sub.seen, sub.down[..1], sub.down[1..]);
  }

  lemma ReceiveKeepsInv<C(!new)>(s: State<C>, t: State<C>)
    requires Inv(s) && Next(s, Receive, t)
    ensures Inv(t)
  {
    var p := s.up[0];
    ApplyFirst(s.server, s.up);
    CompleteAfterFirst(s.server, s.up);
    forall n | n in t.subs
      ensures SubOk(t.subs[n], t.server)
    {
      ForwardKeepsSub(s.subs[n], s.server, p);
    }
    forall n | n in t.oldSubs
      ensures OldSubOk(t.oldSubs[n], t.server)
    {
      ForwardKeepsOldSub(s.oldSubs[n], s.server, p);
    }
  }

  lemma SubsKeepInv<C(!new)>(s: State<C>, t: State<C>, n: Name)
    requires Inv(s) && n in s.subs && n in t.subs && t == s.(subs := s.subs[n := t.subs[n]])
    requires SubOk(t.subs[n], s.server)
    ensures Inv(t)
  {
  }

  lemma OldSubsKeepInv<C(!new)>(s: State<C>, t: State<C>, n: Name)
    requires Inv(s) && n in s.oldSubs && n in t.oldSubs && t == s.(oldSubs := s.oldSubs[n := t.oldSubs[n]])
    requires OldSubOk(t.oldSubs[n], s.server)
    ensures Inv(t)
  {
  }

  lemma ServerNow<C>(s: State<C>)
    requires CompleteThroughout(s.server, s.up)
    ensures AllComplete(s.server)
  {
    assert s.up[..0] == [] && ApplyAll(s.server, s.up[..0]) == s.server;
  }

  lemma StepKeepsInv<C(!new)>(s: State<C>, a: Action<C>, t: State<C>)
    requires Inv(s) && Next(s, a, t)
    ensures Inv(t)
  {
    match a
    case Write(field, view) =>
    case Sync(batch) =>
      SyncKeepsSender(s.sender, t.sender);
      SyncKeepsUp(s, batch, t);
    case Receive =>
      ReceiveKeepsInv(s, t);
    case Subscribe(n, field) =>
      ServerNow(s);
      SubscribeKeepsSub(s.subs[n], s.server, field);
      SubsKeepInv(s, t, n);
    case Deliver(n) =>
      DeliverKeepsSub(s.subs[n], s.server);
      SubsKeepInv(s, t, n);
    case SubscribeOld(n, field) =>
      SubscribeKeepsOldSub(s.oldSubs[n], s.server, field);
      OldSubsKeepInv(s, t, n);
    case DeliverOld(n) =>
      DeliverKeepsOldSub(s.oldSubs[n], s.server);
      OldSubsKeepInv(s, t, n);
  }

  lemma InitShows<C>(own: Table<View<C>>, up: seq<Packet<C>>)
    requires IsBatch(map[], own, up)
    ensures ShowsAll(ApplyAll(map[], up), own) && CompleteThroughout(map[], up)
  {
    BatchShows(map[], map[], own, up);
    BatchStaysComplete(map[], [], map[], own, up);
    assert [] + up == up;
    var after := ApplyAll(map[], up);
    forall f
      ensures (f in after <==> f in own) && (f in own ==> Shows(after[f], own[f]))
    {
      assert FieldDone(map[], after, own, own.Keys, f);
    }
  }

  lemma FreshSubscribers<C>(server: Table<View<C>>)
    ensures SubOk<C>(Subscriber({}, map[], []), server)
    ensures OldSubOk<C>(OldSubscriber({}, map[], []), server)
  {
  }

  lemma FreshSenderOk<C>(own: Table<View<C>>)
    requires forall f :: f in own ==> WellFormed(own[f])
    ensures SenderOk(Sender([], own, own))
  {
  }

  lemma InitEstablishesInv<C(!new)>(s: State<C>)
    requires Init(s)
    ensures Inv(s)
  {
    InitShows(s.sender.own, s.up);
    FreshSenderOk(s.sender.own);
    FreshSubscribers(s.server);
    assert s.sender == Sender([], s.sender.own, s.sender.own);
  }

  lemma {:induction false} RunKeepsInv<C(!new)>(states: seq<State<C>>, actions: seq<Action<C>>, n: nat)
    requires IsRun(states, actions) && n <= |actions|
    ensures Inv(states[n])
  {
    if n == 0 {
      InitEstablishesInv(states[0]);
    } else {
      RunKeepsInv(states, actions, n - 1);
      StepKeepsInv(states[n - 1], actions[n - 1], states[n]);
    }
  }

  /** View replication: at any point of any run, once the two channels to a subscriber are empty it has
      exactly the sender's synced fields among those it asked for, whenever it asked: the same id
      list, and the sender's component for each listed id. */
  lemma Replicated<C(!new)>(states: seq<State<C>>, actions: seq<Action<C>>, n: nat, sub: Name, f: Name)
    requires IsRun(states, actions) && n <= |actions|
    requires sub in states[n].subs && f in states[n].subs[sub].requested
    requires states[n].up == [] && states[n].subs[sub].down == []
    ensures
      var seen, own := states[n].subs[sub].seen, states[n].sender.own;
      (f in seen <==> f in own) && (f in own ==> Shows(seen[f], own[f]))
  {
    RunKeepsInv(states, actions, n);
    var s := states[n];
    assert SubOk(s.subs[sub], s.server);
    if f in s.server {
      CoversShows(s.subs[sub].seen[f], s.server[f], s.sender.own[f]);
    }
  }

  /** The lookup of View::tryGet succeeds at every point of every run, drained or not. */
  lemma LookupsSucceed<C(!new)>(states: seq<State<C>>, actions: seq<Action<C>>, n: nat, sub: Name, f: Name, id: Name)
    requires IsRun(states, actions) && n <= |actions|
    requires sub in states[n].subs && f in states[n].subs[sub].seen
    requires id in states[n].subs[sub].seen[f].ids
    ensures id in states[n].subs[sub].seen[f].components
  {
    RunKeepsInv(states, actions, n);
    var r := states[n].subs[sub];
    assert SubOk(r, states[n].server);
    assert r.down[..0] == [] && ApplyAll(r.seen, r.down[..0]) == r.seen;
  }

  /** The server itself can always answer a request of the old format. */
  lemma ServerIsComplete<C(!new)>(states: seq<State<C>>, actions: seq<Action<C>>, n: nat, f: Name)
    requires IsRun(states, actions) && n <= |actions| && f in states[n].server
    ensures Complete(states[n].server[f])
  {
    RunKeepsInv(states, actions, n);
    ServerNow(states[n]);
  }

  lemma OldDrained<C>(s: State<C>, sub: Name, f: Name)
    requires Inv(s) && sub in s.oldSubs && f in s.oldSubs[sub].requested
    requires s.up == [] && s.oldSubs[sub].down == []
    ensures
      var seen, own := s.oldSubs[sub].seen, s.sender.own;
      && (f in seen <==> f in own)
      && (f in own ==> Complete(own[f]) && seen[f] == Filled(Listed(own[f])))
  {
    assert OldSubOk(s.oldSubs[sub], s.server);
    if f in s.server {
      assert Shows(s.server[f], s.sender.own[f]);
      assert Listed(s.server[f]) == Listed(s.sender.own[f]);
    }
  }

  /** A subscriber of the old format, patching by position, ends up with the sender's components
      in the sender's order, over every run and whenever it asked. */
  lemma OldReceiverFollows<C(!new)>(states: seq<State<C>>, actions: seq<Action<C>>, n: nat, sub: Name, f: Name)
    requires IsRun(states, actions) && n <= |actions|
    requires sub in states[n].oldSubs && f in states[n].oldSubs[sub].requested
    requires states[n].up == [] && states[n].oldSubs[sub].down == []
    ensures
      var seen, own := states[n].oldSubs[sub].seen, states[n].sender.own;
      && (f in seen <==> f in own)
      && (f in own ==> Complete(own[f]) && seen[f] == Filled(Listed(own[f])))
  {
    RunKeepsInv(states, actions, n);
    OldDrained(states[n], sub, f);
  }

  // ------------------------------------------------------------------

  /** The view loop of packSyncData. */
  method PackViews<C(==)>(prev: Table<View<C>>, data: Table<View<C>>) returns (batch: seq<Packet<C>>)
    requires AllComplete(data)
    ensures IsBatch(prev, data, batch) && forall i :: 0 <= i < |batch| ==> !IsNothing(batch[i].diff)
  {
    batch := [];
    var fields := data.Keys;
    while fields != {}
      invariant fields <= data.Keys
      invariant forall i :: 0 <= i < |batch| ==>
                  && batch[i].field in data && batch[i].field !in fields && !IsNothing(batch[i].diff)
                  && batch[i].diff == DiffOf(Lookup(prev, batch[i].field), data[batch[i].field])
      invariant forall i, j :: 0 <= i < j < |batch| ==> batch[i].field != batch[j].field
      invariant forall f :: f in data && f !in fields && !IsNothing(DiffOf(Lookup(prev, f), data[f])) ==>
                  f in Fields(batch)
    {
      var f :| f in fields;
      var d := PackView(Lookup(prev, f), data[f]);
      if d.components.Keys != {} || d.ids.Some? {
        batch := AddPacket(batch, Packet(f, d));
      }
      fields := fields - {f};
    }
  }

  method AddPacket<C>(batch: seq<Packet<C>>, p: Packet<C>) returns (r: seq<Packet<C>>)
    ensures r == batch + [p] && Fields(r) == Fields(batch) + {p.field}
  {
    r := batch + [p];
  }

  // ------------------------------------------------------------------
  // What the sender's views are.

  function Written<C>(actions: seq<Action<C>>): Writes<View<C>> {
    if actions == [] then []
    else
      var last := actions[|actions| - 1];
      Written(actions[..|actions| - 1]) + (if last.Write? then [(last.field, last.view)] else [])
  }

  /** Over every run, what was synced with the unsent writes laid over it is everything written so far laid
      over what there was at the start; and right after a sync nothing is unsent. */
  lemma {:induction false} OwnIsWritten<C(!new)>(states: seq<State<C>>, actions: seq<Action<C>>, n: nat)
    requires IsRun(states, actions) && n <= |actions|
    ensures
      var sender := states[n].sender;
      Overlay(sender.own, sender.pending) == Overlay(states[0].sender.own, Written(actions[..n]))
    ensures n > 0 && actions[n - 1].Sync? ==>
              states[n].sender.own == Overlay(states[0].sender.own, Written(actions[..n]))
  {
    if n > 0 {
      var a := actions[n - 1];
      OwnIsWritten(states, actions, n - 1);
      assert actions[..n][..n - 1] == actions[..n - 1];
      StepWrites(states[n - 1], a, states[n]);
      if a.Write? {
        WrittenOneMore(states[0].sender.own, Written(actions[..n - 1]), (a.field, a.view));
      } else {
        assert Written(actions[..n - 1]) + [] == Written(actions[..n - 1]);
      }
    }
  }

  lemma WrittenOneMore<C>(own: Table<View<C>>, writes: Writes<View<C>>, w: (Name, View<C>))
    ensures Overlay(own, writes + [w]) == Overlay(own, writes)[w.0 := w.1]
  {
    assert (writes + [w])[..|writes|] == writes;
  }

  lemma StepWrites<C(!new)>(s: State<C>, a: Action<C>, t: State<C>)
    requires Next(s, a, t)
    ensures
      var before := Overlay(s.sender.own, s.sender.pending);
      Overlay(t.sender.own, t.sender.pending) == if a.Write? then before[a.field := a.view] else before
    ensures a.Sync? ==> t.sender.own == Overlay(t.sender.own, t.sender.pending)
  {
    if a.Write? {
      WrittenOneMore(s.sender.own, s.sender.pending, (a.field, a.view));
    }
  }

  // ------------------------------------------------------------------
  // What was asked for.

  /** Over every run, a subscriber has asked for exactly the fields that it subscribed to, in either format. */
  lemma {:induction false} RequestedIsSubscribed<C(!new)>(
    states: seq<State<C>>, actions: seq<Action<C>>, n: nat, sub: Name, f: Name)
    requires IsRun(states, actions) && n <= |actions|
    ensures sub in states[n].subs <==> sub in states[0].subs
    ensures sub in states[n].oldSubs <==> sub in states[0].oldSubs
    ensures sub in states[n].subs ==>
              (f in states[n].subs[sub].requested <==> Action<C>.Subscribe(sub, f) in actions[..n])
    ensures sub in states[n].oldSubs ==>
              (f in states[n].oldSubs[sub].requested <==> Action<C>.SubscribeOld(sub, f) in actions[..n])
  {
    if n > 0 {
      RequestedIsSubscribed(states, actions, n - 1, sub, f);
      assert actions[..n] == actions[..n - 1] + [actions[n - 1]];
      assert Next(states[n - 1], actions[n - 1], states[n]);
    }
  }
}
