/** Which fields lie under a field: the early-exit scans of a sorted key set. */
module FieldScan {
  import opened Names
  import opened Wrappers

  /** The field itself is not under itself; every field is under the empty one. */
  predicate Under(field: Name, f: Name) {
    field == [] || field + [SEPARATOR] <= f || field + [SEPARATOR_ALT] <= f
  }

  /** The key goes on after the field with '.' or '/'; every key does so after the empty field. */
  predicate IsBelow(field: Name, f: Name) {
    field == [] || (|field| < |f| && f[..|field|] == field && (f[|field|] == 46 || f[|field|] == 47))
  }

  lemma UnderIsBelow(field: Name, f: Name)
    ensures Under(field, f) <==> IsBelow(field, f)
  {
    if field <= f && |field| < |f| {
      assert f[..|field| + 1] == field + [f[|field|]];
    }
  }

  /** All keys under `field`, in their order. */
  function Filter(keys: seq<Name>, field: Name): seq<Name> {
    if keys == [] then []
    else
      var init := Filter(keys[..|keys| - 1], field);
      if Under(field, keys[|keys| - 1]) then init + [keys[|keys| - 1]] else init
  }

  lemma {:induction false} FilterIsUnder(keys: seq<Name>, field: Name, f: Name)
    ensures f in Filter(keys, field) <==> f in keys && Under(field, f)
  {
    if keys != [] {
      FilterIsUnder(keys[..|keys| - 1], field, f);
      assert keys == keys[..|keys| - 1] + [keys[|keys| - 1]];
    }
  }

  /** std::string::find of one character. */
  function Find(f: Name, b: byte, from: nat): (r: Option<nat>)
    requires from <= |f|
    ensures r.Some? ==> from <= r.value < |f| && f[r.value] == b && b !in f[from..r.value]
    ensures r.None? ==> b !in f[from..]
    decreases |f| - from
  {
    if from == |f| then None
    else if f[from] == b then Some(from)
    else
      var r := Find(f, b, from + 1);
      assert f[from..] == [f[from]] + f[from + 1..];
      assert r.Some? ==> f[from..r.value] == [f[from]] + f[from + 1..r.value];
      r
  }

  function PrefixLength(field: Name): nat {
    if field == [] then 0 else |field| + 1
  }

  /** The entry a key under the field contributes: the key, or its part up to the next separator.
      A key shorter than the prefix is not under the field. */
  function Entry(field: Name, f: Name, recurse: bool): Name {
    if recurse || |f| < PrefixLength(field) then f
    else
      var dot := Find(f, SEPARATOR, PrefixLength(field));
      var slash := Find(f, SEPARATOR_ALT, PrefixLength(field));
      var end := if slash.Some? && (dot.None? || slash.value < dot.value) then slash else dot;
      if end.Some? then f[..end.value] else f
  }

  function Entries(keys: seq<Name>, field: Name, recurse: bool): seq<Name> {
    if keys == [] then []
    else Entries(keys[..|keys| - 1], field, recurse) + [Entry(field, keys[|keys| - 1], recurse)]
  }

  lemma {:induction false} EntriesAt(keys: seq<Name>, field: Name, recurse: bool)
    ensures |Entries(keys, field, recurse)| == |keys|
    ensures forall i :: 0 <= i < |keys| ==> Entries(keys, field, recurse)[i] == Entry(field, keys[i], recurse)
  {
    if keys != [] {
      EntriesAt(keys[..|keys| - 1], field, recurse);
    }
  }

  /** Appends each name that is not there yet. */
  function Collect(ret: seq<Name>, names: seq<Name>): seq<Name> {
    if names == [] then ret
    else
      var init := Collect(ret, names[..|names| - 1]);
      var last := names[|names| - 1];
      if last in init then init else init + [last]
  }

  lemma {:induction false} FilterOfAppend(a: seq<Name>, b: seq<Name>, field: Name)
    requires forall f :: f in b ==> !Under(field, f)
    ensures Filter(a + b, field) == Filter(a, field)
  {
    if b == [] {
      assert a + b == a;
    } else {
      assert (a + b)[..|a + b| - 1] == a + b[..|b| - 1];
      FilterOfAppend(a, b[..|b| - 1], field);
    }
  }

  /** Once a key is neither under the field nor below the second separator's prefix, no later key is. */
  lemma NothingLater(keys: seq<Name>, field: Name, i: nat, j: nat)
    requires Sorted(keys) && i < j < |keys|
    requires !Under(field, keys[i]) && !Less(keys[i], field + [SEPARATOR_ALT])
    ensures !Under(field, keys[j])
  {
    var f, g := keys[i], keys[j];
    if field + [SEPARATOR] <= g {
      LowerByteIsLess(field, SEPARATOR, SEPARATOR_ALT, g);
      LessIsTransitive(f, g, field + [SEPARATOR_ALT]);
    }
    if field + [SEPARATOR_ALT] <= g {
      PrefixesAreIntervals(field + [SEPARATOR_ALT], f, g);
    }
  }

  lemma StopHere(keys: seq<Name>, field: Name, i: nat)
    requires Sorted(keys) && i < |keys|
    requires !Under(field, keys[i]) && !Less(keys[i], field + [SEPARATOR_ALT])
    ensures Filter(keys, field) == Filter(keys[..i], field)
  {
    forall f | f in keys[i..]
      ensures !Under(field, f)
    {
      var j :| i <= j < |keys| && keys[j] == f;
      if i < j {
        NothingLater(keys, field, i, j);
      }
    }
    assert keys == keys[..i] + keys[i..];
    FilterOfAppend(keys[..i], keys[i..], field);
  }

  /** What the keys contribute to a list that already holds `ret`: a scan of all of them. */
  function Collected(ret: seq<Name>, keys: seq<Name>, field: Name, recurse: bool): seq<Name> {
    if keys == [] then ret
    else
      var before, key := Collected(ret, keys[..|keys| - 1], field, recurse), keys[|keys| - 1];
      if !Under(field, key) || Entry(field, key, recurse) in before then before
      else before + [Entry(field, key, recurse)]
  }

  /** That scan filters, takes the entries and collects them. */
  lemma {:induction false} CollectedFilters(ret: seq<Name>, keys: seq<Name>, field: Name, recurse: bool)
    ensures Collected(ret, keys, field, recurse) == Collect(ret, Entries(Filter(keys, field), field, recurse))
  {
    if keys != [] {
      var init, key := keys[..|keys| - 1], keys[|keys| - 1];
      CollectedFilters(ret, init, field, recurse);
      if Under(field, key) {
        CollectOneMore(ret, Filter(init, field), field, recurse, key);
      }
    }
  }

  lemma CollectOneMore(ret: seq<Name>, found: seq<Name>, field: Name, recurse: bool, key: Name)
    ensures
      var before, entry := Collect(ret, Entries(found, field, recurse)), Entry(field, key, recurse);
      Collect(ret, Entries(found + [key], field, recurse)) == if entry in before then before else before + [entry]
  {
    var names := Entries(found, field, recurse);
    assert (found + [key])[..|found|] == found;
    assert (names + [Entry(field, key, recurse)])[..|names|] == names;
  }

  lemma OneMoreKey(ret: seq<Name>, keys: seq<Name>, field: Name, recurse: bool, i: nat)
    requires i < |keys|
    ensures
      var before, entry := Collected(ret, keys[..i], field, recurse), Entry(field, keys[i], recurse);
      Collected(ret, keys[..i + 1], field, recurse)
        == if !Under(field, keys[i]) || entry in before then before else before + [entry]
  {
    assert keys[..i + 1][..i] == keys[..i];
  }

  lemma StopCollecting(ret: seq<Name>, keys: seq<Name>, field: Name, recurse: bool, i: nat)
    requires Sorted(keys) && i < |keys|
    requires !Under(field, keys[i]) && !Less(keys[i], field + [SEPARATOR_ALT])
    ensures Collected(ret, keys, field, recurse) == Collected(ret, keys[..i], field, recurse)
  {
    StopHere(keys, field, i);
    CollectedFilters(ret, keys, field, recurse);
    CollectedFilters(ret, keys[..i], field, recurse);
  }

  /** The part of a key that becomes an entry. */
  method EntryOf(field: Name, key: Name, prefixLength: nat, recurse: bool) returns (f: Name)
    requires Under(field, key) && prefixLength == PrefixLength(field)
    ensures f == Entry(field, key, recurse)
  {
    f := key;
    if !recurse {
      var ind := Find(f, SEPARATOR, prefixLength);
      var indAlt := Find(f, SEPARATOR_ALT, prefixLength);
      if indAlt.Some? && (ind.None? || indAlt.value < ind.value) {
        ind := indAlt;
      }
      f := if ind.Some? then f[..ind.value] else f;
    }
  }

  /** Recursively an entry is the whole key. */
  lemma EntryIsWhole(field: Name, f: Name)
    ensures Entry(field, f, true) == f
  {
  }

  /** The template `entries`: on any sorted key set the early exit misses nothing. */
  method AppendEntries(ret: seq<Name>, field: Name, keys: seq<Name>, recurse: bool) returns (out: seq<Name>)
    requires Sorted(keys)
    ensures out == Collected(ret, keys, field, recurse)
    ensures out == Collect(ret, Entries(Filter(keys, field), field, recurse))
    ensures forall c :: c in out <==>
              c in ret
              || exists f :: f in keys && Entry(field, f, recurse) == c && IsBelow(field, f)
  {
    CollectedFilters(ret, keys, field, recurse);
    EntriesBelow(ret, keys, field, recurse);
    out := ret;
    var prefixLength := PrefixLength(field);
    for i := 0 to |keys|
      invariant out == Collected(ret, keys[..i], field, recurse)
    {
      OneMoreKey(ret, keys, field, recurse, i);
      if Under(field, keys[i]) {
        var f := EntryOf(field, keys[i], prefixLength, recurse);
        if f !in out {
          out := out + [f];
        }
      } else if Less(keys[i], field + [SEPARATOR_ALT]) {
        continue;
      } else {
        StopCollecting(ret, keys, field, recurse, i);
        return;
      }
    }
    assert keys[..|keys|] == keys;
  }

  lemma EntriesBelow(ret: seq<Name>, keys: seq<Name>, field: Name, recurse: bool)
    ensures forall c :: c in Collected(ret, keys, field, recurse) <==>
              c in ret
              || exists f :: f in keys && Entry(field, f, recurse) == c && IsBelow(field, f)
  {
    CollectedIsUnion(ret, keys, field, recurse);
    forall f
      ensures Under(field, f) <==> IsBelow(field, f)
    {
      UnderIsBelow(field, f);
    }
  }

  lemma NoneUnder(keys: seq<Name>, field: Name, i: nat)
    requires Sorted(keys) && i < |keys| && forall f :: f in keys[..i] ==> !Under(field, f)
    requires !Under(field, keys[i]) && !Less(keys[i], field + [SEPARATOR_ALT])
    ensures forall f :: f in keys ==> !Under(field, f)
  {
    forall f | f in keys
      ensures !Under(field, f)
    {
      var j :| 0 <= j < |keys| && keys[j] == f;
      if j < i {
        assert keys[..i][j] == f;
      } else if i < j {
        NothingLater(keys, field, i, j);
      }
    }
  }

  /** hasChildrenT: true exactly when some key is under the field. */
  method HasChildren(field: Name, keys: seq<Name>) returns (found: bool)
    requires Sorted(keys)
    ensures found <==> exists f :: f in keys && Under(field, f)
    ensures found <==> exists f :: f in keys && IsBelow(field, f)
  {
    forall f
      ensures Under(field, f) <==> IsBelow(field, f)
    {
      UnderIsBelow(field, f);
    }
    for i := 0 to |keys|
      invariant forall f :: f in keys[..i] ==> !Under(field, f)
    {
      if Under(field, keys[i]) {
        return true;
      } else if Less(keys[i], field + [SEPARATOR_ALT]) {
        continue;
      } else {
        NoneUnder(keys, field, i);
        return false;
      }
    }
    return false;
  }

  // ------------------------------------------------------------------
  // What the collected list is.

  ghost predicate Distinct(names: seq<Name>) {
    forall i, j :: 0 <= i < j < |names| ==> names[i] != names[j]
  }

  lemma {:induction false} CollectIsUnion(ret: seq<Name>, names: seq<Name>)
    ensures forall f :: f in Collect(ret, names) <==> f in ret || f in names
    ensures Distinct(ret) ==> Distinct(Collect(ret, names))
    ensures ret <= Collect(ret, names)
  {
    if names != [] {
      CollectIsUnion(ret, names[..|names| - 1]);
      assert names == names[..|names| - 1] + [names[|names| - 1]];
    }
  }

  /** Some key under the field contributes `c`. */
  ghost predicate IsEntryOf(keys: seq<Name>, field: Name, recurse: bool, c: Name) {
    exists f :: f in keys && Under(field, f) && Entry(field, f, recurse) == c
  }

  lemma EntriesOfFilter(keys: seq<Name>, field: Name, recurse: bool, c: Name)
    ensures c in Entries(Filter(keys, field), field, recurse) <==> IsEntryOf(keys, field, recurse, c)
  {
    var found := Filter(keys, field);
    var entries := Entries(found, field, recurse);
    EntriesAt(found, field, recurse);
    if c in entries {
      var i :| 0 <= i < |entries| && entries[i] == c;
      FilterIsUnder(keys, field, found[i]);
      assert found[i] in keys && Entry(field, found[i], recurse) == c;
    }
    if IsEntryOf(keys, field, recurse, c) {
      var f :| f in keys && Under(field, f) && Entry(field, f, recurse) == c;
      FilterIsUnder(keys, field, f);
      var i :| 0 <= i < |found| && found[i] == f;
      assert entries[i] == c;
    }
  }

  /** A direct child: the key up to the first separator after the field's own prefix. */
  lemma EntryIsChild(field: Name, f: Name)
    requires Under(field, f)
    ensures
      var c := Entry(field, f, false);
      var own := if field == [] then 0 else |field| + 1;
      && own <= |c| && c == f[..|c|] && NoSeparators(c[own..])
      && (c == f || IsSeparator(f[|c|]))
  {
    var k := PrefixLength(field);
    var c := Entry(field, f, false);
    var dot, slash := Find(f, SEPARATOR, k), Find(f, SEPARATOR_ALT, k);
    assert c[k..] == f[k..|c|];
    forall b | b in c[k..]
      ensures !IsSeparator(b)
    {
      var i :| k <= i < |c| && f[i] == b;
      if dot.Some? {
        assert i < dot.value;
        assert f[k..dot.value][i - k] == b;
      } else {
        assert f[k..][i - k] == b;
      }
      if slash.Some? {
        assert i < slash.value;
        assert f[k..slash.value][i - k] == b;
      } else {
        assert f[k..][i - k] == b;
      }
    }
  }

  lemma CollectedIsUnion(ret: seq<Name>, keys: seq<Name>, field: Name, recurse: bool)
    ensures forall c :: c in Collected(ret, keys, field, recurse) <==> c in ret || IsEntryOf(keys, field, recurse, c)
    ensures Distinct(ret) ==> Distinct(Collected(ret, keys, field, recurse))
    ensures ret <= Collected(ret, keys, field, recurse)
  {
    var entries := Entries(Filter(keys, field), field, recurse);
    CollectedFilters(ret, keys, field, recurse);
    CollectIsUnion(ret, entries);
    forall c
      ensures c in entries <==> IsEntryOf(keys, field, recurse, c)
    {
      EntriesOfFilter(keys, field, recurse, c);
    }
  }

  /** children and childrenRecurse: the stores' keys in turn. */
  function ChildrenOf(field: Name, stores: seq<seq<Name>>, recurse: bool): seq<Name> {
    if stores == [] then []
    else Collected(ChildrenOf(field, stores[..|stores| - 1], recurse), stores[|stores| - 1], field, recurse)
  }

  /** Over any number of stores: without repetition, exactly the entries of the keys under the field in
      any store, and those of the earlier stores first. */
  lemma {:induction false} ChildrenOfStores(field: Name, stores: seq<seq<Name>>, recurse: bool, n: nat)
    requires n <= |stores|
    ensures Distinct(ChildrenOf(field, stores, recurse))
    ensures forall c :: c in ChildrenOf(field, stores, recurse) <==>
              exists keys :: keys in stores && IsEntryOf(keys, field, recurse, c)
    ensures ChildrenOf(field, stores[..n], recurse) <= ChildrenOf(field, stores, recurse)
  {
    if stores != [] {
      var init, keys := stores[..|stores| - 1], stores[|stores| - 1];
      ChildrenOfStores(field, init, recurse, if n < |stores| then n else 0);
      CollectedIsUnion(ChildrenOf(field, init, recurse), keys, field, recurse);
      assert stores == init + [keys];
      assert n < |stores| ==> init[..n] == stores[..n];
      assert n == |stores| ==> stores[..n] == stores;
    }
  }
}
