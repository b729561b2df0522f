/** The client's store of data to send, data received and requests. */
module SyncStore {
  import opened Names
  import opened Wrappers

  type Table<T> = map<Name, T>

  // ------------------------------------------------------------------
  // Writes and their transfer.

  type Writes<T> = seq<(Name, T)>

  /** The writes applied to a table one after the other. */
  function Overlay<T>(own: Table<T>, writes: Writes<T>): Table<T> {
    if writes == [] then own
    else
      var last := writes[|writes| - 1];
      Overlay(own, writes[..|writes| - 1])[last.0 := last.1]
  }

  /** The value of the last write to `name`. */
  function Latest<T>(writes: Writes<T>, name: Name): Option<T> {
    if writes == [] then None
    else
      var last := writes[|writes| - 1];
      if last.0 == name then Some(last.1) else Latest(writes[..|writes| - 1], name)
  }

  function Lookup<T>(table: Table<T>, name: Name): Option<T> {
    if name in table then Some(table[name]) else None
  }

  /** shouldSend, for the types compared by value and for the types sent every time. */
  predicate ShouldSend<T(==)>(always: bool, own: Table<T>, write: (Name, T)) {
    write.0 !in own || always || own[write.0] != write.1
  }

  /** Some write of the batch makes `name` worth sending. */
  ghost predicate IsNews<T>(always: bool, own: Table<T>, writes: Writes<T>, name: Name) {
    exists i :: 0 <= i < |writes| && writes[i].0 == name && ShouldSend(always, own, writes[i])
  }

  /** What a transfer returns: the news of the batch, with the last written values. */
  ghost predicate IsChange<T>(always: bool, own: Table<T>, writes: Writes<T>, changed: Table<T>) {
    && own + changed == Overlay(own, writes)
    && forall name :: name in changed <==> IsNews(always, own, writes, name)
  }

  /** The value a name has just before write number `i`: that of the latest earlier write of the batch, or
      else the stored one. */
  function JustBefore<T>(own: Table<T>, writes: Writes<T>, i: nat): Option<T>
    requires i < |writes|
  {
    var latest := Latest(writes[..i], writes[i].0);
    if latest.Some? then latest else if writes[i].0 in own then Some(own[writes[i].0]) else None
  }

  ghost predicate ChangesItsName<T>(own: Table<T>, writes: Writes<T>, i: nat) {
    i < |writes| && JustBefore(own, writes, i) != Some(writes[i].1)
  }

  lemma {:induction false} LatestIsWritten<T>(writes: Writes<T>, name: Name) returns (j: nat)
    requires Latest(writes, name).Some?
    ensures j < |writes| && writes[j] == (name, Latest(writes, name).value)
  {
    var last := writes[|writes| - 1];
    j := |writes| - 1;
    if last.0 != name {
      j := LatestIsWritten(writes[..|writes| - 1], name);
    }
  }

  lemma {:induction false} FirstNewsChanges<T>(own: Table<T>, writes: Writes<T>, name: Name, i: nat) returns (j: nat)
    requires i < |writes| && writes[i].0 == name && (name !in own || own[name] != writes[i].1)
    ensures j < |writes| && writes[j].0 == name && ChangesItsName(own, writes, j)
    decreases i
  {
    var latest := Latest(writes[..i], name);
    j := i;
    if latest == Some(writes[i].1) {
      var k := LatestIsWritten(writes[..i], name);
      j := FirstNewsChanges(own, writes, name, k);
    }
  }

  /** What a transfer returns of a type that is sent on every write: all that was written. */
  lemma AlwaysSent<T>(own: Table<T>, writes: Writes<T>, changed: Table<T>, name: Name)
    requires IsChange(true, own, writes, changed)
    ensures name in changed <==> exists i :: 0 <= i < |writes| && writes[i].0 == name
  {
  }

  /** And of a type that is compared: what some write gave another value than it had just before. */
  lemma SentWhenChanged<T>(own: Table<T>, writes: Writes<T>, changed: Table<T>, name: Name)
    requires IsChange(false, own, writes, changed)
    ensures name in changed <==> exists i :: 0 <= i < |writes| && writes[i].0 == name && ChangesItsName(own, writes, i)
  {
    if name in changed {
      var i :| 0 <= i < |writes| && writes[i].0 == name && ShouldSend(false, own, writes[i]);
      var j := FirstNewsChanges(own, writes, name, i);
      assert ChangesItsName(own, writes, j);
    }
    if i :| 0 <= i < |writes| && writes[i].0 == name && ChangesItsName(own, writes, i) {
      if !ShouldSend(false, own, writes[i]) {
        var k := LatestIsWritten(writes[..i], name);
        assert ShouldSend(false, own, writes[k]);
      }
    }
  }

  /** Whatever is returned has the last value written. */
  lemma SentIsLatest<T>(always: bool, own: Table<T>, writes: Writes<T>, changed: Table<T>, name: Name)
    requires IsChange(always, own, writes, changed) && name in changed
    ensures Latest(writes, name) == Some(changed[name])
  {
    OverlayHasLatest(own, writes, name);
    var i :| 0 <= i < |writes| && writes[i].0 == name && ShouldSend(always, own, writes[i]);
    WrittenHasLatest(writes, i);
    assert (own + changed)[name] == changed[name];
  }

  lemma {:induction false} WrittenHasLatest<T>(writes: Writes<T>, i: nat)
    requires i < |writes|
    ensures Latest(writes, writes[i].0).Some?
  {
    if i < |writes| - 1 {
      WrittenHasLatest(writes[..|writes| - 1], i);
    }
  }

  lemma {:induction false} OverlayHasLatest<T>(own: Table<T>, writes: Writes<T>, name: Name)
    ensures Lookup(Overlay(own, writes), name)
         == (var latest := Latest(writes, name); if latest.Some? then latest else Lookup(own, name))
  {
    if writes != [] {
      OverlayHasLatest(own, writes[..|writes| - 1], name);
    }
  }

  lemma {:induction false} OverlayInSteps<T>(own: Table<T>, a: Writes<T>, b: Writes<T>)
    ensures Overlay(own, a + b) == Overlay(Overlay(own, a), b)
  {
    if b == [] {
      assert a + b == a;
    } else {
      assert (a + b)[..|a + b| - 1] == a + b[..|b| - 1];
      OverlayInSteps(own, a, b[..|b| - 1]);
    }
  }

  lemma ChangeIsUnique<T>(always: bool, own: Table<T>, writes: Writes<T>, c: Table<T>, d: Table<T>)
    requires IsChange(always, own, writes, c) && IsChange(always, own, writes, d)
    ensures c == d
  {
    forall name | name in c
      ensures name in d && c[name] == d[name]
    {
      assert IsNews(always, own, writes, name);
      assert (own + c)[name] == (own + d)[name];
    }
    forall name | name in d
      ensures name in c
    {
      assert IsNews(always, own, writes, name);
    }
  }

  // ------------------------------------------------------------------
  // Request ids.

  const ID_RANGE := 0x1_0000_0000

  type ReqId = id: int | 0 <= id < ID_RANGE

  type Requests = map<Name, map<Name, ReqId>>

  /** The id of a request, 0 when there is none. */
  function IdOf(req: Requests, member: Name, field: Name): ReqId {
    if member in req && field in req[member] then req[member][field] else 0
  }

  function WithId(req: Requests, member: Name, field: Name, id: ReqId): (r: Requests)
    ensures forall m, f :: IdOf(r, m, f) == if m == member && f == field then id else IdOf(req, m, f)
  {
    var inner := if member in req then req[member] else map[];
    req[member := inner[field := id]]
  }

  function Without(req: Requests, member: Name, field: Name): (r: Requests)
    requires member in req
    ensures forall m, f :: IdOf(r, m, f) == if m == member && f == field then 0 else IdOf(req, m, f)
  {
    req[member := req[member] - {field}]
  }

  /** What unsetRecv leaves; reading the id of a field that is not there creates a zero entry. */
  function Freed(req: Requests, member: Name, field: Name): (r: Requests)
    ensures forall m, f :: IdOf(r, m, f) == if m == member && f == field then 0 else IdOf(req, m, f)
  {
    if IdOf(req, member, field) != 0 then Without(req, member, field) else WithId(req, member, field, 0)
  }

  ghost predicate DistinctIds(req: Requests) {
    forall m, f, m2, f2 ::
      IdOf(req, m, f) != 0 && IdOf(req, m, f) == IdOf(req, m2, f2) ==> m == m2 && f == f2
  }

  ghost predicate IsMaxId(req: Requests, max: ReqId) {
    && (forall m, f :: IdOf(req, m, f) <= max)
    && (max == 0 || exists m, f :: IdOf(req, m, f) == max)
  }

  /** An unsigned 32-bit sum. */
  function NextId(max: ReqId): ReqId {
    (max + 1) % ID_RANGE
  }

  /** The counter is one of 32 bits. */
  lemma NextIdSays(max: ReqId)
    ensures max < 0xFFFF_FFFF ==> NextId(max) == max + 1
    ensures max == 0xFFFF_FFFF ==> NextId(max) == 0
    ensures max <= 0xFFFF_FFFF
  {
  }

  /** A new id never collides, not even when the counter wraps: then it is 0, which is no request. */
  lemma NewIdIsDistinct(req: Requests, member: Name, field: Name, max: ReqId)
    requires DistinctIds(req) && IsMaxId(req, max)
    ensures DistinctIds(WithId(req, member, field, NextId(max)))
    ensures NextId(max) != 0 <==> max < ID_RANGE - 1
    ensures forall m, f :: IdOf(req, m, f) != 0 ==> IdOf(req, m, f) != NextId(max)
  {
    assert forall m, f :: IdOf(req, m, f) != 0 ==> NextId(max) == 0 || IdOf(req, m, f) < NextId(max);
  }

  /** What addReq does when it gives an id: one more than the largest, which no other request has; 0 is
      given only when the counter wraps. */
  ghost predicate IsNewRequest(before: Requests, after: Requests, member: Name, field: Name, id: ReqId) {
    && after == WithId(before, member, field, id)
    && (exists max :: IsMaxId(before, max) && id == NextId(max))
    && (forall m, f :: IdOf(before, m, f) != 0 ==> IdOf(before, m, f) != id)
    && (id != 0 <==> forall m, f :: IdOf(before, m, f) < ID_RANGE - 1)
  }

  // ------------------------------------------------------------------
  // The request an id stands for: the first entry that has it. Entries with id 0 can be many.

  predicate Has(req: Requests, id: ReqId, member: Name, field: Name) {
    member in req && field in req[member] && req[member][field] == id
  }

  /** The order of the entries in a map of maps. */
  predicate Before(member: Name, field: Name, member2: Name, field2: Name) {
    Less(member, member2) || (member == member2 && Less(field, field2))
  }

  ghost predicate IsFirst(req: Requests, id: ReqId, member: Name, field: Name) {
    && Has(req, id, member, field)
    && forall m, f :: Has(req, id, m, f) ==> (m == member && f == field) || Before(member, field, m, f)
  }

  lemma FirstIsUnique(req: Requests, id: ReqId, m: Name, f: Name, m2: Name, f2: Name)
    requires IsFirst(req, id, m, f) && IsFirst(req, id, m2, f2)
    ensures m == m2 && f == f2
  {
    LessIsAsymmetric(m, m2);
    LessIsAsymmetric(f, f2);
    LessIsIrreflexive(m);
  }

  /** Among live ids there is no choice. */
  lemma LiveIsFirst(req: Requests, id: ReqId, member: Name, field: Name)
    requires DistinctIds(req) && id != 0
    ensures IsFirst(req, id, member, field) <==> IdOf(req, member, field) == id
  {
    if IdOf(req, member, field) == id {
      forall m, f | Has(req, id, m, f)
        ensures m == member && f == field
      {
        assert IdOf(req, m, f) == id;
      }
    }
  }

  lemma {:induction false} LeastName(names: set<Name>) returns (least: Name)
    requires names != {}
    ensures least in names && forall n :: n in names ==> n == least || Less(least, n)
    decreases |names|
  {
    least :| least in names;
    var others := names - {least};
    if others != {} {
      var l := LeastName(others);
      LessIsTotal(least, l);
      if Less(l, least) {
        least := l;
      } else {
        forall n | n in others && n != l
          ensures Less(least, n)
        {
          LessIsTransitive(least, l, n);
        }
      }
    }
  }

  lemma FirstExists(req: Requests, id: ReqId, member: Name, field: Name) returns (m: Name, f: Name)
    requires Has(req, id, member, field)
    ensures IsFirst(req, id, m, f)
  {
    var members := set m | m in req && exists f :: Has(req, id, m, f);
    assert member in members;
    m := LeastName(members);
    var fields := set f | f in req[m] && Has(req, id, m, f);
    var some :| Has(req, id, m, some);
    assert some in fields;
    f := LeastName(fields);
  }

  // ------------------------------------------------------------------
  // The field a reply belongs to.

  /** The field name that getReq builds from the requested one and the reply's sub field. */
  function Resolve(field: Name, sub: Name): Name {
    if sub != [] && sub[0] != SEPARATOR then field + [SEPARATOR] + sub else field + sub
  }

  /** The server answers a request for `field` with everything stored at it or below it. */
  /** The same reply for another field is stored under another name. */
  lemma ResolveIsInjective(field: Name, field2: Name, sub: Name)
    requires Resolve(field, sub) == Resolve(field2, sub)
    ensures field == field2
  {
    var name, name2 := Resolve(field, sub), Resolve(field2, sub);
    var k := |name| - |field|;
    assert |name2| - |field2| == k;
    assert field == name[..|name| - k] && field2 == name2[..|name2| - k];
  }

  predicate Answers(field: Name, stored: Name) {
    stored == field || field + [SEPARATOR] <= stored
  }

  function SubField(field: Name, stored: Name): Name
    requires Answers(field, stored)
  {
    if stored == field then [] else stored[|field| + 1..]
  }

  /** A reply resolves back to the stored name exactly when the part below the requested field
      is neither empty nor led by a separator. */
  lemma ReplyResolves(field: Name, stored: Name)
    requires Answers(field, stored)
    ensures Resolve(field, SubField(field, stored)) == stored
       <==> (stored == field || (|stored| > |field| + 1 && stored[|field| + 1] != SEPARATOR))
  {
    if stored != field {
      var sub := SubField(field, stored);
      assert stored == field + [SEPARATOR] + sub;
      if sub != [] {
        assert stored[|field| + 1] == sub[0];
        if sub[0] == SEPARATOR {
          assert |field + sub| < |stored|;
        }
      }
    }
  }

  // ------------------------------------------------------------------

  /** The part of the received data that is the store's own. */
  function OwnPart<T>(self: Name, recv: map<Name, Table<T>>): Table<T> {
    if self in recv then recv[self] else map[]
  }

  /** What a reader sees: an unsent write first, then the stored value. */
  function See<T>(self: Name, writes: Writes<T>, recv: map<Name, Table<T>>, from: Name, name: Name): Option<T> {
    var latest := if from == self then Latest(writes, name) else None;
    if latest.Some? then latest
    else if from in recv then Lookup(recv[from], name)
    else None
  }

  lemma TransferIsInvisible<T>(self: Name, writes: Writes<T>, recv: map<Name, Table<T>>)
    ensures forall from, name ::
      See(self, [], recv[self := Overlay(OwnPart(self, recv), writes)], from, name)
        == See(self, writes, recv, from, name)
  {
    forall from, name
      ensures See(self, [], recv[self := Overlay(OwnPart(self, recv), writes)], from, name)
           == See(self, writes, recv, from, name)
    {
      OverlayHasLatest(OwnPart(self, recv), writes, name);
    }
  }

  class SyncDataStore2<T(==), R(==)> {
    const selfName: Name
    /** Whether this type is sent on every write, or only when its value changed. */
    const always: bool
    /** The value of a default-constructed request parameter. */
    const noInfo: R

    var dataSend: Writes<T>
    var dataSendPrev: Table<T>
    var dataRecv: map<Name, Table<T>>
    var req: Requests
    var reqInfo: map<Name, map<Name, R>>

    ghost predicate Valid()
      reads this
    {
      DistinctIds(req)
    }

    /** The sent data, as the store itself keeps it. */
    function Own(): Table<T>
      reads this
    {
      OwnPart(selfName, dataRecv)
    }

    function Visible(from: Name, name: Name): Option<T>
      reads this
    {
      See(selfName, dataSend, dataRecv, from, name)
    }

    constructor (name: Name, always: bool, noInfo: R)
      ensures Valid() && selfName == name && this.always == always
      ensures dataSend == [] && Own() == map[] && req == map[]
    {
      this.selfName, this.always, this.noInfo := name, always, noInfo;
      dataSend, dataSendPrev, dataRecv, req, reqInfo := [], map[], map[], map[], map[];
    }

    method SetSend(name: Name, data: T)
      modifies this`dataSend
      ensures dataSend == old(dataSend) + [(name, data)]
      ensures forall f, n :: Visible(f, n) == if f == selfName && n == name then Some(data) else old(Visible(f, n))
    {
      dataSend := dataSend + [(name, data)];
    }

    method SetRecv(from: Name, name: Name, data: T)
      modifies this`dataRecv
      ensures forall f, n :: Visible(f, n) ==
                if f != from || n != name then old(Visible(f, n))
                else if from == selfName && Latest(dataSend, name).Some? then Latest(dataSend, name)
                else Some(data)
    {
      var inner := if from in dataRecv then dataRecv[from] else map[];
      dataRecv := dataRecv[from := inner[name := data]];
    }

    method GetRecv(from: Name, name: Name) returns (r: Option<T>)
      ensures r == Visible(from, name)
    {
      if from == selfName {
        var i := |dataSend| - 1;
        assert dataSend[..|dataSend|] == dataSend;
        while i >= 0
          invariant -1 <= i < |dataSend|
          invariant Latest(dataSend, name) == Latest(dataSend[..i + 1], name)
        {
          if dataSend[i].0 == name {
            return Some(dataSend[i].1);
          }
          assert dataSend[..i + 1][..i] == dataSend[..i];
          i := i - 1;
        }
        assert dataSend[..0] == [];
      }
      if from in dataRecv && name in dataRecv[from] {
        return Some(dataRecv[from][name]);
      }
      return None;
    }

    /** The loop of transferSend. */
    method Merge() returns (own: Table<T>, changed: Table<T>)
      ensures own == Overlay(Own(), dataSend) && IsChange(always, Own(), dataSend, changed)
    {
      own, changed := Own(), map[];
      ghost var was := own;
      for i := 0 to |dataSend|
        invariant own == Overlay(was, dataSend[..i]) && IsChange(always, was, dataSend[..i], changed)
      {
        var write := dataSend[i];
        if ShouldSend(always, own, write) {
          MergeWrite(always, was, own, changed, dataSend, i);
          changed := changed[write.0 := write.1];
          own := own[write.0 := write.1];
        } else {
          MergeSkips(always, was, own, changed, dataSend, i);
        }
      }
      assert dataSend[..|dataSend|] == dataSend;
    }

    /** transferSend: nothing written is lost, and no reader sees a difference. */
    method TransferSend(isFirst: bool) returns (sent: Table<T>)
      modifies this`dataSend, this`dataSendPrev, this`dataRecv
      ensures dataSend == [] && dataSendPrev == sent
      ensures Own() == Overlay(old(Own()), old(dataSend)) && dataRecv == old(dataRecv)[selfName := Own()]
      ensures isFirst ==> sent == Own()
      ensures !isFirst ==> IsChange(always, old(Own()), old(dataSend), sent)
      ensures forall from, name :: Visible(from, name) == old(Visible(from, name))
    {
      var own, changed := Merge();
      TransferIsInvisible(selfName, dataSend, dataRecv);
      dataRecv := dataRecv[selfName := own];
      dataSend := [];
      sent := if isFirst then own else changed;
      dataSendPrev := sent;
    }

    method GetSendPrev(isFirst: bool) returns (prev: Table<T>)
      ensures prev == if isFirst then map[] else dataSendPrev
    {
      prev := if isFirst then map[] else dataSendPrev;
    }

    /** The search for the largest id in use. */
    method MaxReq() returns (max: ReqId)
      ensures IsMaxId(req, max)
    {
      max := 0;
      var members := req.Keys;
      while members != {}
        invariant members <= req.Keys
        invariant forall m, f :: m !in members ==> IdOf(req, m, f) <= max
        invariant max == 0 || exists m, f :: IdOf(req, m, f) == max
      {
        var m :| m in members;
        var fields := req[m].Keys;
        while fields != {}
          invariant fields <= req[m].Keys
          invariant forall m2, f :: m2 !in members ==> IdOf(req, m2, f) <= max
          invariant forall f :: f !in fields ==> IdOf(req, m, f) <= max
          invariant max == 0 || exists m, f :: IdOf(req, m, f) == max
        {
          var f :| f in fields;
          if req[m][f] > max {
            max := req[m][f];
            assert IdOf(req, m, f) == max;
          }
          fields := fields - {f};
        }
        members := members - {m};
      }
    }

    /** addReq: a new id when there is none yet, and 0 otherwise. */
    method AddReq(member: Name, field: Name) returns (id: ReqId)
      requires Valid()
      modifies this`req
      ensures Valid()
      ensures member == selfName || old(IdOf(req, member, field)) != 0 ==> id == 0 && req == old(req)
      ensures member != selfName && old(IdOf(req, member, field)) == 0 ==>
                IsNewRequest(old(req), req, member, field, id)
    {
      id := 0;
      if member != selfName && IdOf(req, member, field) == 0 {
        var max := MaxReq();
        NewIdIsDistinct(req, member, field, max);
        id := NextId(max);
        req := WithId(req, member, field, id);
      }
    }

    function InfoOf(member: Name, field: Name): R
      reads this
    {
      if member in reqInfo && field in reqInfo[member] then reqInfo[member][field] else noInfo
    }

    /** addReq with a parameter: also a new id whenever the parameter changes. */
    method AddReqInfo(member: Name, field: Name, info: R) returns (id: ReqId)
      requires Valid()
      modifies this`req, this`reqInfo
      ensures Valid()
      ensures
        var needed := member != selfName && (old(IdOf(req, member, field)) == 0 || old(InfoOf(member, field)) != info);
        && (needed ==> IsNewRequest(old(req), req, member, field, id))
        && (!needed ==> id == 0 && req == old(req))
        && forall m, f :: InfoOf(m, f) == if needed && m == member && f == field then info else old(InfoOf(m, f))
    {
      id := 0;
      if member != selfName && (IdOf(req, member, field) == 0 || InfoOf(member, field) != info) {
        var max := MaxReq();
        NewIdIsDistinct(req, member, field, max);
        id := NextId(max);
        req := WithId(req, member, field, id);
        var inner := if member in reqInfo then reqInfo[member] else map[];
        reqInfo := reqInfo[member := inner[field := info]];
      }
    }

    /** unsetRecv: the stored data and the request of one field go, all others stay. */
    method UnsetRecv(from: Name, name: Name) returns (removed: bool)
      requires Valid()
      modifies this`req, this`dataRecv
      ensures Valid() && removed == (from != selfName && old(IdOf(req, from, name)) != 0)
      ensures req == if from == selfName then old(req) else Freed(old(req), from, name)
      ensures forall f, n :: Visible(f, n) ==
                if f != from || n != name then old(Visible(f, n))
                else if from == selfName then Latest(dataSend, name)
                else None
    {
      if from in dataRecv && name in dataRecv[from] {
        dataRecv := dataRecv[from := dataRecv[from] - {name}];
      }
      removed := from != selfName && IdOf(req, from, name) != 0;
      if removed {
        req := Without(req, from, name);
      } else if from != selfName {
        // Reading the id has created a zero entry.
        req := WithId(req, from, name, 0);
      }
    }

    /** getReq: an id finds the first entry that has it, 0 the first zero entry; a live id finds exactly its
        own member and field. */
    method GetReq(id: ReqId, sub: Name) returns (r: Option<(Name, Name)>)
      requires Valid()
      ensures forall m, f :: IsFirst(req, id, m, f) ==> r == Some((m, Resolve(f, sub)))
      ensures r.None? <==> forall m, f :: !Has(req, id, m, f)
      ensures forall m, f :: id != 0 && IdOf(req, m, f) == id ==> r == Some((m, Resolve(f, sub)))
    {
      var members := req.Keys;
      while members != {}
        invariant members <= req.Keys
        invariant forall m, f :: m !in members ==> !Has(req, id, m, f)
      {
        ghost var least := LeastName(members);
        var m :| m in members && forall m2 :: m2 in members ==> m2 == m || Less(m, m2);
        var fields := req[m].Keys;
        while fields != {}
          invariant fields <= req[m].Keys
          invariant forall f :: f !in fields ==> !Has(req, id, m, f)
        {
          ghost var leastField := LeastName(fields);
          var f :| f in fields && forall f2 :: f2 in fields ==> f2 == f || Less(f, f2);
          if req[m][f] == id {
            FoundFirst(req, id, members, m, fields, f);
            if sub != [] && sub[0] != SEPARATOR {
              return Some((m, f + [SEPARATOR] + sub));
            } else {
              return Some((m, f + sub));
            }
          }
          fields := fields - {f};
        }
        members := members - {m};
      }
      return None;
    }
  }

  /** Where the search stops is the first entry, and for a live id the only one. */
  lemma FoundFirst(req: Requests, id: ReqId, members: set<Name>, m: Name, fields: set<Name>, f: Name)
    requires DistinctIds(req) && Has(req, id, m, f)
    requires forall m2, f2 :: m2 !in members ==> !Has(req, id, m2, f2)
    requires forall m2 :: m2 in members ==> m2 == m || Less(m, m2)
    requires forall f2 :: f2 !in fields ==> !Has(req, id, m, f2)
    requires forall f2 :: f2 in fields ==> f2 == f || Less(f, f2)
    ensures IsFirst(req, id, m, f)
    ensures forall m2, f2 :: IsFirst(req, id, m2, f2) ==> m2 == m && f2 == f
    ensures forall m2, f2 :: id != 0 && IdOf(req, m2, f2) == id ==> m2 == m && f2 == f
  {
    forall m2, f2 | IsFirst(req, id, m2, f2)
      ensures m2 == m && f2 == f
    {
      FirstIsUnique(req, id, m, f, m2, f2);
    }
    assert IdOf(req, m, f) == id;
  }

  /** One turn of the transfer's loop: a write is stored and noted as a change, or skipped. */
  lemma MergeWrite<T>(always: bool, was: Table<T>, own: Table<T>, changed: Table<T>, writes: Writes<T>, i: nat)
    requires i < |writes| && own == Overlay(was, writes[..i]) && IsChange(always, was, writes[..i], changed)
    requires ShouldSend(always, own, writes[i])
    ensures own[writes[i].0 := writes[i].1] == Overlay(was, writes[..i + 1])
    ensures IsChange(always, was, writes[..i + 1], changed[writes[i].0 := writes[i].1])
  {
    var (name, value) := writes[i];
    NewsSoFar(always, was, writes, i);
    assert writes[..i + 1][..i] == writes[..i];
    assert was + changed[name := value] == own[name := value];
    assert name !in changed ==> ShouldSend(always, was, writes[i]);
  }

  lemma MergeSkips<T>(always: bool, was: Table<T>, own: Table<T>, changed: Table<T>, writes: Writes<T>, i: nat)
    requires i < |writes| && own == Overlay(was, writes[..i]) && IsChange(always, was, writes[..i], changed)
    requires !ShouldSend(always, own, writes[i])
    ensures own == Overlay(was, writes[..i + 1]) && IsChange(always, was, writes[..i + 1], changed)
  {
    var (name, value) := writes[i];
    NewsSoFar(always, was, writes, i);
    assert writes[..i + 1][..i] == writes[..i];
    assert own[name := value] == own;
    assert IsNews(always, was, writes[..i], name) || !ShouldSend(always, was, writes[i]);
  }

  lemma NewsSoFar<T>(always: bool, own: Table<T>, writes: Writes<T>, i: nat)
    requires i < |writes|
    ensures forall name :: IsNews(always, own, writes[..i + 1], name) <==>
              IsNews(always, own, writes[..i], name) || (writes[i].0 == name && ShouldSend(always, own, writes[i]))
  {
    forall name
      ensures IsNews(always, own, writes[..i + 1], name) <==>
                IsNews(always, own, writes[..i], name) || (writes[i].0 == name && ShouldSend(always, own, writes[i]))
    {
      if IsNews(always, own, writes[..i], name) {
        var j :| 0 <= j < i && writes[..i][j].0 == name && ShouldSend(always, own, writes[..i][j]);
        assert writes[..i + 1][j] == writes[..i][j];
      }
      if writes[i].0 == name && ShouldSend(always, own, writes[i]) {
        assert writes[..i + 1][i] == writes[i];
      }
      if IsNews(always, own, writes[..i + 1], name) {
        var j :| 0 <= j <= i && writes[..i + 1][j].0 == name && ShouldSend(always, own, writes[..i + 1][j]);
        if j < i {
          assert writes[..i][j] == writes[..i + 1][j];
        }
      }
    }
  }

  // ------------------------------------------------------------------
  // A whole session: writes and transfers in any order, after the first transfer.

  datatype Op<T> = Write(write: (Name, T)) | Transfer

  /** The sender's table, its unsent writes, and all sent tables laid over each other. */
  datatype Session<T> = Session(own: Table<T>, pending: Writes<T>, replica: Table<T>)

  ghost predicate Next<T(!new)>(always: bool, s: Session<T>, op: Op<T>, t: Session<T>) {
    match op
    case Write(write) => t == s.(pending := s.pending + [write])
    case Transfer =>
      exists changed ::
        && IsChange(always, s.own, s.pending, changed)
        && t == Session(Overlay(s.own, s.pending), [], s.replica + changed)
  }

  ghost predicate IsRun<T(!new)>(always: bool, states: seq<Session<T>>, ops: seq<Op<T>>) {
    |states| == |ops| + 1 && forall i :: 0 <= i < |ops| ==> Next(always, states[i], ops[i], states[i + 1])
  }

  function AllWrites<T>(ops: seq<Op<T>>): Writes<T> {
    if ops == [] then []
    else
      var last := ops[|ops| - 1];
      AllWrites(ops[..|ops| - 1]) + (if last.Write? then [last.write] else [])
  }

  /** Filtering out unchanged values loses nothing: at every point of every session the replica is
      the sender's table, and with the unsent writes it is everything ever written, in order. */
  lemma {:induction false} ReplicaFollows<T(!new)>(always: bool, states: seq<Session<T>>, ops: seq<Op<T>>)
    requires IsRun(always, states, ops) && states[0].pending == [] && states[0].replica == states[0].own
    ensures
      var last := states[|ops|];
      && last.replica == last.own
      && Overlay(last.replica, last.pending) == Overlay(states[0].own, AllWrites(ops))
    decreases |ops|
  {
    if ops != [] {
      var n := |ops| - 1;
      ReplicaFollows(always, states[..|states| - 1], ops[..n]);
      var s, t := states[n], states[n + 1];
      assert Next(always, s, ops[n], t);
      match ops[n]
      case Write(write) =>
        OverlayInSteps(s.own, s.pending, [write]);
        OverlayInSteps(states[0].own, AllWrites(ops[..n]), [write]);
        assert AllWrites(ops) == AllWrites(ops[..n]) + [write];
      case Transfer =>
        assert AllWrites(ops) == AllWrites(ops[..n]);
    }
  }

  // ------------------------------------------------------------------

  /** The first key below `field` in the order of the keys. */
  function FirstBelow(keys: seq<Name>, field: Name): (r: Option<Name>)
    ensures r.Some? ==> r.value in keys && field + [SEPARATOR] <= r.value
    ensures r.None? ==> forall k :: k in keys ==> !(field + [SEPARATOR] <= k)
  {
    if keys == [] then None
    else if field + [SEPARATOR] <= keys[0] then Some(keys[0])
    else
      assert keys == [keys[0]] + keys[1..];
      FirstBelow(keys[1..], field)
  }

  /** In a sorted map that is the least of the names below. */
  lemma {:induction false} FirstBelowIsLeast(keys: seq<Name>, field: Name, k: Name)
    requires Sorted(keys) && k in keys && field + [SEPARATOR] <= k
    ensures FirstBelow(keys, field).Some?
    ensures FirstBelow(keys, field).value == k || Less(FirstBelow(keys, field).value, k)
  {
    if !(field + [SEPARATOR] <= keys[0]) {
      FirstBelowIsLeast(keys[1..], field, k);
    } else if k != keys[0] {
      var i :| 0 <= i < |keys| && keys[i] == k;
    }
  }

  lemma ExactComesFirst(keys: seq<Name>, field: Name, i: nat)
    requires Sorted(keys) && i < |keys| && field < keys[i] && field !in keys[..i]
    ensures field !in keys
  {
    if k: int :| i <= k < |keys| && keys[k] == field {
      PrefixIsLess(field, keys[i]);
      if i < k {
        LessIsTransitive(field, keys[i], field);
      }
      LessIsIrreflexive(field);
    }
    assert keys == keys[..i] + keys[i..];
  }

  /** The server's findReqField: a request for exactly the updated field wins over every request
      below it, because a name sorts before its extensions. */
  method FindReqField(keys: seq<Name>, req: Table<ReqId>, field: Name) returns (id: ReqId, sub: Name)
    requires Sorted(keys) && forall k :: k in keys <==> k in req
    ensures field in req ==> id == req[field] && sub == []
    ensures field !in req ==>
              var below := FirstBelow(keys, field);
              if below.None? then id == 0 && sub == []
              else id == req[below.value] && sub == below.value[|field| + 1..]
  {
    for i := 0 to |keys|
      invariant field !in keys[..i]
      invariant FirstBelow(keys, field) == FirstBelow(keys[i..], field)
    {
      var key := keys[i];
      if key == field {
        return req[key], [];
      } else if field + [SEPARATOR] <= key {
        ExactComesFirst(keys, field, i);
        return req[key], key[|field| + 1..];
      }
    }
    return 0, [];
  }
}
