/** View data: components by id, the list of ids, and the differences sent between them. */
module Views {
  import opened Names
  import opened Wrappers

  datatype View<C> = View(components: map<Name, C>, ids: seq<Name>)

  /** What a view message carries; the id list only when it changed. */
  datatype Diff<C> = Diff(components: map<Name, C>, ids: Option<seq<Name>>)

  function EmptyView<C>(): View<C> {
    View(map[], [])
  }

  /** Every listed id has its component. */
  ghost predicate Complete<C>(v: View<C>) {
    forall id :: id in v.ids ==> id in v.components
  }

  /** The components are those of the listed ids, and no others. */
  ghost predicate WellFormed<C>(v: View<C>) {
    forall id :: id in v.ids <==> id in v.components
  }

  predicate IsChanged<C(==)>(prev: Option<View<C>>, cur: View<C>, id: Name)
    requires id in cur.components
  {
    prev.None? || id !in prev.value.components || prev.value.components[id] != cur.components[id]
  }

  /** The message from `prev`, what was sent last, to `cur`. */
  function DiffOf<C(==)>(prev: Option<View<C>>, cur: View<C>): Diff<C>
    requires Complete(cur)
  {
    Diff(
      map id | id in cur.ids && IsChanged(prev, cur, id) :: cur.components[id],
      if prev.None? || prev.value.ids != cur.ids then Some(cur.ids) else None)
  }

  /** Nothing is sent for such a message. */
  predicate IsNothing<C>(d: Diff<C>) {
    d.components.Keys == {} && d.ids.None?
  }

  function Merge<C>(v: View<C>, d: Diff<C>): View<C> {
    View(v.components + d.components, if d.ids.Some? then d.ids.value else v.ids)
  }

  /** The first component given for an id. */
  function FirstOf<C>(components: seq<(Name, C)>): map<Name, C> {
    if components == [] then map[]
    else
      var init, last := FirstOf(components[..|components| - 1]), components[|components| - 1];
      if last.0 in init then init else init[last.0 := last.1]
  }

  function IdsOf<C>(components: seq<(Name, C)>): (ids: seq<Name>)
    ensures |ids| == |components| && forall i :: 0 <= i < |ids| ==> ids[i] == components[i].0
  {
    if components == [] then [] else IdsOf(components[..|components| - 1]) + [components[|components| - 1].0]
  }

  lemma {:induction false} BuiltIsWellFormed<C>(components: seq<(Name, C)>)
    ensures WellFormed(View(FirstOf(components), IdsOf(components)))
  {
    if components != [] {
      var init, last := components[..|components| - 1], components[|components| - 1];
      BuiltIsWellFormed(init);
      assert IdsOf(components) == IdsOf(init) + [last.0];
    }
  }

  /** No component before has this one's id. */
  predicate IsNew<C>(components: seq<(Name, C)>, i: nat)
    requires i < |components|
  {
    forall j :: 0 <= j < i ==> components[j].0 != components[i].0
  }

  /** The first component given for an id is the one that is kept. */
  lemma {:induction false} FirstIsKept<C>(components: seq<(Name, C)>, i: nat)
    requires i < |components| && IsNew(components, i)
    ensures components[i].0 in FirstOf(components) && FirstOf(components)[components[i].0] == components[i].1
  {
    var init := components[..|components| - 1];
    if i < |init| {
      FirstIsKept(init, i);
    } else {
      BuiltIsWellFormed(init);
    }
  }

  /** DataSetBuffer<TemporalViewComponent>::onSync. */
  method Build<C>(components: seq<(Name, C)>) returns (v: View<C>)
    ensures WellFormed(v)
    ensures v.ids == IdsOf(components)
    ensures v.components == FirstOf(components)
    ensures forall i :: 0 <= i < |components| && IsNew(components, i) ==>
              components[i].0 in v.components && v.components[components[i].0] == components[i].1
  {
    v := EmptyView();
    for i := 0 to |components|
      invariant v == View(FirstOf(components[..i]), IdsOf(components[..i]))
    {
      assert components[..i + 1][..i] == components[..i];
      var (id, component) := components[i];
      if id !in v.components {
        v := v.(components := v.components[id := component]);
      }
      v := v.(ids := v.ids + [id]);
    }
    assert components[..|components|] == components;
    BuiltIsWellFormed(components);
    forall i | 0 <= i < |components| && IsNew(components, i)
      ensures components[i].0 in v.components && v.components[components[i].0] == components[i].1
    {
      FirstIsKept(components, i);
    }
  }

  /** The part of packSyncData for one view. */
  method PackView<C(==)>(prev: Option<View<C>>, cur: View<C>) returns (d: Diff<C>)
    requires Complete(cur)
    ensures d == DiffOf(prev, cur)
  {
    var changed: map<Name, C> := map[];
    for i := 0 to |cur.ids|
      invariant forall id :: id in changed <==> id in cur.ids[..i] && IsChanged(prev, cur, id)
      invariant forall id :: id in changed ==> changed[id] == cur.components[id]
    {
      var id := cur.ids[i];
      assert cur.ids[..i + 1] == cur.ids[..i] + [id];
      if IsChanged(prev, cur, id) && id !in changed {
        changed := changed[id := cur.components[id]];
      }
    }
    assert cur.ids[..|cur.ids|] == cur.ids;
    var ids := None;
    if prev.None? || prev.value.ids != cur.ids {
      ids := Some(cur.ids);
    }
    d := Diff(changed, ids);
  }

  // ------------------------------------------------------------------
  // Replicas.

  /** The replica shows the source: its list, and the source's component for each listed id.
      It may still hold components that are no longer listed. */
  ghost predicate Shows<C>(replica: View<C>, source: View<C>) {
    && replica.ids == source.ids
    && forall id :: id in source.ids ==>
         id in source.components && id in replica.components && replica.components[id] == source.components[id]
  }

  /** Also every unlisted component of the source. */
  ghost predicate Covers<C>(replica: View<C>, source: View<C>) {
    && replica.ids == source.ids
    && forall id :: id in source.components ==>
         id in replica.components && replica.components[id] == source.components[id]
  }

  /** Whoever shows the view that was sent last shows the new one after merging the difference,
      and whoever merges a full message shows the new one whatever it held. */
  lemma DiffBringsUpToDate<C>(replica: View<C>, prev: Option<View<C>>, cur: View<C>)
    requires Complete(cur)
    requires prev.Some? ==> WellFormed(prev.value) && Shows(replica, prev.value)
    ensures Shows(Merge(replica, DiffOf(prev, cur)), cur)
  {
  }

  /** Nothing is sent exactly when the view sent last already shows the new one. */
  lemma NothingMeansUnchanged<C>(prev: View<C>, cur: View<C>)
    requires WellFormed(prev) && Complete(cur)
    ensures IsNothing(DiffOf(Some(prev), cur)) <==> Shows(prev, cur)
  {
    var d := DiffOf(Some(prev), cur);
    if IsNothing(d) {
      forall id | id in cur.ids
        ensures id in prev.components && prev.components[id] == cur.components[id]
      {
        assert id !in d.components.Keys;
      }
    }
  }

  /** Only listed components that are new or different are sent. */
  lemma OnlyNewsIsSent<C>(prev: View<C>, cur: View<C>, id: Name)
    requires Complete(cur) && id in prev.components && id in DiffOf(Some(prev), cur).components
    ensures id in cur.ids && prev.components[id] != DiffOf(Some(prev), cur).components[id]
  {
  }

  lemma NothingToMerge<C>(replica: View<C>, d: Diff<C>)
    requires IsNothing(d)
    ensures Merge(replica, d) == replica
  {
    assert replica.components + d.components == replica.components;
  }

  lemma MergeKeepsCovers<C>(replica: View<C>, source: View<C>, d: Diff<C>)
    requires Covers(replica, source)
    ensures Covers(Merge(replica, d), Merge(source, d))
  {
  }

  lemma FullReplyCovers<C>(replica: View<C>, source: View<C>)
    ensures Covers(Merge(replica, Diff(source.components, Some(source.ids))), source)
  {
  }

  lemma CoversShows<C>(replica: View<C>, middle: View<C>, source: View<C>)
    requires Covers(replica, middle) && Shows(middle, source)
    ensures Shows(replica, source)
  {
  }

  // ------------------------------------------------------------------
  // Receivers of the old format: a list of components, patched by position.

  /** The components in listed order. */
  function Listed<C>(v: View<C>): seq<C>
    requires Complete(v)
  {
    seq(|v.ids|, i requires 0 <= i < |v.ids| => v.components[v.ids[i]])
  }

  predicate IsRelisted<C>(before: View<C>, d: Diff<C>, after: View<C>, i: nat)
    requires i < |after.ids|
  {
    && (after.ids[i] in d.components || (d.ids.Some? && (|before.ids| <= i || before.ids[i] != after.ids[i])))
    && after.ids[i] in after.components
  }

  /** The positional difference the server computes while it merges `d`. */
  function OldDiff<C>(before: View<C>, d: Diff<C>): map<nat, C> {
    var after := Merge(before, d);
    map i: nat | i < |after.ids| && IsRelisted(before, d, after, i) :: after.components[after.ids[i]]
  }

  /** It has exactly the positions whose component came with the message or that hold another id than
      before, with the new components. */
  lemma OldDiffSays<C>(before: View<C>, d: Diff<C>, i: nat)
    requires Complete(Merge(before, d))
    ensures
      var ids := Merge(before, d).ids;
      && (i in OldDiff(before, d) <==>
            i < |ids| && (ids[i] in d.components || i >= |before.ids| || before.ids[i] != ids[i]))
      && (i in OldDiff(before, d) ==>
            OldDiff(before, d)[i] ==
            if ids[i] in d.components then d.components[ids[i]] else before.components[ids[i]])
  {
  }

  /** An old receiver: patch the given positions, then take the given length. Positions that
      were never filled are `None`. */
  function Patch<C>(list: seq<Option<C>>, diff: map<nat, C>, length: nat): seq<Option<C>> {
    seq(length, i requires 0 <= i < length =>
      if i in diff then Some(diff[i]) else if i < |list| then list[i] else None)
  }

  function Filled<C>(list: seq<C>): seq<Option<C>> {
    seq(|list|, i requires 0 <= i < |list| => Some(list[i]))
  }

  /** One message: the patched list is the new list. */
  lemma PatchFollows<C>(before: View<C>, d: Diff<C>)
    requires Complete(before) && Complete(Merge(before, d))
    ensures
      var after := Merge(before, d);
      Patch(Filled(Listed(before)), OldDiff(before, d), |after.ids|) == Filled(Listed(after))
  {
    var after := Merge(before, d);
    var patched := Patch(Filled(Listed(before)), OldDiff(before, d), |after.ids|);
    forall i | 0 <= i < |after.ids|
      ensures patched[i] == Some(after.components[after.ids[i]])
    {
      if !IsRelisted(before, d, after, i) {
        assert i < |before.ids| && before.ids[i] == after.ids[i];
        assert Filled(Listed(before))[i] == Some(before.components[before.ids[i]]);
      }
    }
    assert patched == Filled(Listed(after));
  }

  function MergeAll<C>(v: View<C>, diffs: seq<Diff<C>>): View<C> {
    if diffs == [] then v else Merge(MergeAll(v, diffs[..|diffs| - 1]), diffs[|diffs| - 1])
  }

  ghost predicate AlwaysComplete<C>(v: View<C>, diffs: seq<Diff<C>>) {
    forall n :: 0 <= n <= |diffs| ==> Complete(MergeAll(v, diffs[..n]))
  }

  /** The old receiver's list after the initial reply and the positional form of each message. */
  function PatchAll<C>(v: View<C>, diffs: seq<Diff<C>>): seq<Option<C>>
    requires Complete(v)
  {
    if diffs == [] then Filled(Listed(v))
    else
      var init, last := diffs[..|diffs| - 1], diffs[|diffs| - 1];
      var before := MergeAll(v, init);
      Patch(PatchAll(v, init), OldDiff(before, last), |Merge(before, last).ids|)
  }

  /** Positional and id-based messages agree over every sequence of messages. */
  lemma {:induction false} PatchesFollow<C>(v: View<C>, diffs: seq<Diff<C>>)
    requires Complete(v) && AlwaysComplete(v, diffs)
    ensures Complete(MergeAll(v, diffs)) && PatchAll(v, diffs) == Filled(Listed(MergeAll(v, diffs)))
  {
    assert diffs[..|diffs|] == diffs;
    if diffs != [] {
      var init, last := diffs[..|diffs| - 1], diffs[|diffs| - 1];
      assert forall n :: 0 <= n <= |init| ==> init[..n] == diffs[..n];
      PatchesFollow(v, init);
      PatchFollows(MergeAll(v, init), last);
    }
  }

  // ------------------------------------------------------------------
  // The receivers' view tables.

  /** The views of one member, as the server and the clients keep them. */
  class ViewTable<C> {
    var view: map<Name, View<C>>

    constructor ()
      ensures view == map[]
    {
      view := map[];
    }

    function At(field: Name): View<C>
      reads this
    {
      if field in view then view[field] else EmptyView()
    }

    /** The view branch of MemberData::onRecv. */
    method OnRecvAtServer(field: Name, d: Diff<C>) returns (forward: Diff<C>, oldDiff: map<nat, C>, length: nat)
      modifies this
      ensures view == old(view)[field := Merge(old(At(field)), d)]
      ensures forward == d
      ensures oldDiff == OldDiff(old(At(field)), d) && length == |At(field).ids|
    {
      var thisView := At(field);
      thisView := MergeComponents(thisView, d);
      var idsChanged := false;
      var prevIds := [];
      if d.ids.Some? {
        idsChanged := true;
        prevIds := thisView.ids;
        thisView := thisView.(ids := d.ids.value);
      }
      view := view[field := thisView];
      oldDiff := map[];
      for i := 0 to |thisView.ids|
        invariant view == old(view)[field := thisView]
        invariant forall k: nat :: k in oldDiff <==> k < i && IsRelisted(old(At(field)), d, thisView, k)
        invariant forall k :: k in oldDiff ==> oldDiff[k] == thisView.components[thisView.ids[k]]
      {
        var id := thisView.ids[i];
        if (id in d.components || (idsChanged && (|prevIds| <= i || prevIds[i] != id))) && id in thisView.components {
          oldDiff := oldDiff[i := thisView.components[id]];
        }
      }
      forward := Diff(d.components, if idsChanged then Some(thisView.ids) else None);
      length := |thisView.ids|;
    }

    /** The view reply branch of ClientData::onRecv. */
    method OnRecvAtClient(field: Name, d: Diff<C>)
      modifies this
      ensures view == old(view)[field := Merge(old(At(field)), d)]
    {
      var thisView := At(field);
      if d.ids.Some? {
        thisView := thisView.(ids := d.ids.value);
      }
      thisView := MergeComponents(thisView, d);
      view := view[field := thisView];
    }
  }

  method MergeComponents<C>(v: View<C>, d: Diff<C>) returns (merged: View<C>)
    ensures merged == v.(components := v.components + d.components)
  {
    var components := v.components;
    var keys := d.components.Keys;
    while keys != {}
      invariant keys <= d.components.Keys
      invariant components == v.components + (map id | id in d.components && id !in keys :: d.components[id])
    {
      var id :| id in keys;
      components := components[id := d.components[id]];
      keys := keys - {id};
    }
    assert (map id | id in d.components && id !in keys :: d.components[id]) == d.components;
    merged := v.(components := components);
  }
}
