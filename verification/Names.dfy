/** Field names as byte strings, their order, and their dotted structure. */
module Names {
  newtype byte = b: int | 0 <= b < 256

  type Name = seq<byte>

  const SEPARATOR: byte := 46
  const SEPARATOR_ALT: byte := 47

  predicate IsSeparator(b: byte) {
    b == SEPARATOR || b == SEPARATOR_ALT
  }

  /** The order of the names in a std::set: byte by byte, a prefix before its extensions. */
  predicate Less(a: Name, b: Name) {
    if b == [] then false
    else if a == [] then true
    else if a[0] != b[0] then a[0] < b[0]
    else Less(a[1..], b[1..])
  }

  ghost predicate Sorted(keys: seq<Name>) {
    forall i, j :: 0 <= i < j < |keys| ==> Less(keys[i], keys[j])
  }

  lemma {:induction false} LessIsIrreflexive(a: Name)
    ensures !Less(a, a)
  {
    if a != [] {
      LessIsIrreflexive(a[1..]);
    }
  }

  lemma {:induction false} LessIsTransitive(a: Name, b: Name, c: Name)
    requires Less(a, b) && Less(b, c)
    ensures Less(a, c)
  {
    if a != [] && a[0] == b[0] && b[0] == c[0] {
      LessIsTransitive(a[1..], b[1..], c[1..]);
    }
  }

  lemma {:induction false} LessIsAsymmetric(a: Name, b: Name)
    ensures !(Less(a, b) && Less(b, a))
  {
    if a != [] && b != [] {
      LessIsAsymmetric(a[1..], b[1..]);
    }
  }

  lemma {:induction false} LessIsTotal(a: Name, b: Name)
    ensures Less(a, b) || Less(b, a) || a == b
  {
    if a != [] && b != [] && a[0] == b[0] {
      LessIsTotal(a[1..], b[1..]);
      assert a == [a[0]] + a[1..] && b == [b[0]] + b[1..];
    }
  }

  /** What starts with `p` starts just after everything below `p`, without gaps. */
  lemma {:induction false} PrefixesAreIntervals(p: Name, f: Name, g: Name)
    requires !Less(f, p) && Less(f, g) && p <= g
    ensures p <= f
  {
    if p != [] {
      assert f != [] && g[0] == p[0];
      assert p[1..] <= g[1..];
      PrefixesAreIntervals(p[1..], f[1..], g[1..]);
      assert f == [p[0]] + f[1..] && p == [p[0]] + p[1..];
    }
  }

  /** Names under `p` and a lower byte come before `p` and a higher one. */
  lemma {:induction false} LowerByteIsLess(p: Name, lower: byte, higher: byte, g: Name)
    requires lower < higher && p + [lower] <= g
    ensures Less(g, p + [higher])
  {
    assert g[|p|] == (p + [lower])[|p|];
    if p != [] {
      assert (p + [lower])[0] == p[0] == g[0];
      assert (p + [lower])[1..] == p[1..] + [lower];
      assert (p + [higher])[1..] == p[1..] + [higher];
      LowerByteIsLess(p[1..], lower, higher, g[1..]);
    }
  }

  /** A name sorts before its own extensions. */
  lemma {:induction false} PrefixIsLess(p: Name, g: Name)
    requires p < g
    ensures Less(p, g)
  {
    if p != [] {
      PrefixIsLess(p[1..], g[1..]);
    }
  }

  // ------------------------------------------------------------------
  // Last component, parent and child.

  /** The position of the last separator at or before `i`, or -1. */
  function LastSeparator(f: Name, i: int): (k: int)
    requires -1 <= i < |f|
    ensures -1 <= k <= i && (k >= 0 ==> IsSeparator(f[k]))
    ensures forall j :: k < j <= i ==> !IsSeparator(f[j])
    decreases i + 1
  {
    if i < 0 || IsSeparator(f[i]) then i else LastSeparator(f, i - 1)
  }

  ghost predicate OnlySeparators(f: Name) {
    forall b :: b in f ==> IsSeparator(b)
  }

  ghost predicate NoSeparators(f: Name) {
    forall b :: b in f ==> !IsSeparator(b)
  }

  /** What follows the last separator, unless only separators come before it. */
  ghost function LastNameOf(f: Name): Name {
    var i := LastSeparator(f, |f| - 1);
    if i < 0 || OnlySeparators(f[..i]) then f else f[i + 1..]
  }

  /** What comes before that separator. */
  ghost function ParentOf(f: Name): Name {
    var i := LastSeparator(f, |f| - 1);
    if i < 0 || OnlySeparators(f[..i]) then [] else f[..i]
  }

  /** Field::lastName8. */
  method LastName(f: Name) returns (r: Name)
    ensures r == LastNameOf(f)
  {
    var i := |f| - 1;
    while i >= 0
      invariant -1 <= i < |f|
      invariant LastSeparator(f, |f| - 1) == LastSeparator(f, i)
    {
      if IsSeparator(f[i]) {
        var j := i - 1;
        while j >= 0
          invariant -1 <= j < i
          invariant forall k :: j < k < i ==> IsSeparator(f[k])
        {
          if !IsSeparator(f[j]) {
            assert f[..i][j] == f[j];
            return f[i + 1..];
          }
          j := j - 1;
        }
        return f;
      }
      i := i - 1;
    }
    return f;
  }

  /** Field::parent. */
  method Parent(f: Name) returns (r: Name)
    ensures r == ParentOf(f)
  {
    var last := LastName(f);
    var l := |f| - |last| - 1;
    if l < 0 {
      l := 0;
    }
    r := f[..l];
  }

  /** Field::child. */
  function Child(f: Name, child: Name): Name {
    if f == [] then child
    else if child == [] then f
    else f + [SEPARATOR] + child
  }

  /** An empty part adds nothing and no separator. */
  lemma ChildSays(f: Name, child: Name)
    ensures Child(f, []) == f && Child([], child) == child
    ensures f != [] && child != [] ==> Child(f, child) == f + [46] + child
  {
  }

  lemma ChildSplits(f: Name, child: Name)
    requires f != [] && child != [] && NoSeparators(child)
    ensures
      var g := Child(f, child);
      var i := LastSeparator(g, |g| - 1);
      i == |f| && g[..i] == f && g[i + 1..] == child
  {
    var g := Child(f, child);
    assert g[|f|] == SEPARATOR;
    forall j | |f| < j < |g|
      ensures !IsSeparator(g[j])
    {
      assert g[j] == child[j - |f| - 1] && g[j] in child;
    }
  }

  /** Parent and last name take apart what child put together from a single component,
      exactly unless the parent consists of separators only. */
  lemma ChildTakenApart(f: Name, child: Name)
    requires child != [] && NoSeparators(child)
    ensures (ParentOf(Child(f, child)) == f && LastNameOf(Child(f, child)) == child)
       <==> (f == [] || !OnlySeparators(f))
  {
    if f == [] {
      assert forall j :: 0 <= j < |child| ==> child[j] in child;
    } else {
      ChildSplits(f, child);
    }
  }
}
