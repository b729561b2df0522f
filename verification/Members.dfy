/** The server's members: their ids and names over connects, first sync_inits and closes. */
module Members {
  import opened Names
  import opened Wrappers

  const ID_RANGE := 0x1_0000_0000

  type Id = id: int | 0 <= id < ID_RANGE

  type Connection = nat

  /** A member as the tables show it; `issued` is the id its connection got first. */
  datatype Member = Member(issued: Id, id: Id, name: Name, synced: bool)

  datatype Registry = Registry(last: Id, clients: map<Connection, Member>, byId: map<Id, Member>)

  const START := Registry(0, map[], map[])

  /** ServerStorage::newClient: the next id, as an unsigned 32-bit counter; a connection that is
      already there keeps its member. */
  function Connected(r: Registry, con: Connection): Registry {
    var id := (r.last + 1) % ID_RANGE;
    r.(last := id, clients := if con in r.clients then r.clients else r.clients[con := Member(id, id, [], false)])
  }

  /** The counter is one of 32 bits, and every new connection moves it on and gets what it shows. */
  lemma ConnectedSays(r: Registry, con: Connection)
    ensures
      var s := Connected(r, con);
      && s.last == (if r.last == 0xFFFF_FFFF then 0 else r.last + 1) && s.byId == r.byId
      && (con !in r.clients ==>
            con in s.clients && s.clients[con].issued == s.last && s.clients[con].id == s.last
            && s.clients[con].name == [] && !s.clients[con].synced)
      && (forall c :: c in r.clients ==> c in s.clients && s.clients[c] == r.clients[c])
  {
  }

  /** The member of that name, if there is one. */
  ghost predicate HasName(r: Registry, id: Id, name: Name) {
    id in r.byId && r.byId[id].name == name
  }

  /** The id a first sync_init with `name` ends up with. */
  ghost predicate IsIdFor(r: Registry, own: Id, name: Name, id: Id) {
    if name != [] && exists i :: HasName(r, i, name) then HasName(r, id, name) else id == own
  }

  function Synced(r: Registry, con: Connection, name: Name, id: Id): Registry
    requires con in r.clients
  {
    var m := r.clients[con].(id := id, name := name, synced := true);
    r.(clients := r.clients[con := m], byId := r.byId[id := m])
  }

  /** ServerStorage::removeClient: members with a name stay known by their id. */
  function Closed(r: Registry, con: Connection): Registry {
    if con !in r.clients then r
    else
      var m := r.clients[con];
      r.(clients := r.clients - {con}, byId := if m.name == [] then r.byId - {m.id} else r.byId)
  }

  // ------------------------------------------------------------------

  datatype Action = Connect(con: Connection) | SyncInit(con: Connection, name: Name) | Close(con: Connection)

  ghost predicate Next(r: Registry, a: Action, s: Registry) {
    match a
    case Connect(con) => s == Connected(r, con)
    case SyncInit(con, name) =>
      // Each connection sends one.
      && con in r.clients && !r.clients[con].synced
      && exists id :: IsIdFor(r, r.clients[con].id, name, id) && s == Synced(r, con, name, id)
    case Close(con) => s == Closed(r, con)
  }

  ghost predicate IsRun(states: seq<Registry>, actions: seq<Action>) {
    && |states| == |actions| + 1 && states[0] == START
    && forall i :: 0 <= i < |actions| ==> Next(states[i], actions[i], states[i + 1])
  }

  function Connects(actions: seq<Action>): nat {
    if actions == [] then 0
    else Connects(actions[..|actions| - 1]) + (if actions[|actions| - 1].Connect? then 1 else 0)
  }

  ghost predicate ClientOk(r: Registry, con: Connection)
    requires con in r.clients
  {
    var m := r.clients[con];
    && 0 < m.issued <= r.last
    && (m.name == [] ==> m.id == m.issued)
    && (if m.synced then m.id in r.byId && r.byId[m.id].name == m.name
        else m.name == [] && m.id == m.issued && m.issued !in r.byId)
  }

  ghost predicate Inv(r: Registry) {
    && (forall id :: id in r.byId ==> r.byId[id].id == id && 0 < id <= r.last)
    && (forall i, j :: i in r.byId && j in r.byId && r.byId[i].name == r.byId[j].name != [] ==> i == j)
    && (forall con :: con in r.clients ==> ClientOk(r, con))
    && (forall c, d :: c in r.clients && d in r.clients && r.clients[c].issued == r.clients[d].issued ==> c == d)
  }

  lemma ClientStaysOk(r: Registry, s: Registry, c: Connection)
    requires c in r.clients && ClientOk(r, c) && c in s.clients && s.clients[c] == r.clients[c]
    requires s.byId == r.byId && r.last <= s.last
    ensures ClientOk(s, c)
  {
  }

  lemma FreshClientIsOk(r: Registry, s: Registry, con: Connection)
    requires Inv(r) && r.last + 1 < ID_RANGE && s == Connected(r, con) && con !in r.clients
    ensures ClientOk(s, con)
    ensures forall c :: c in r.clients ==> r.clients[c].issued != s.clients[con].issued
  {
    forall c | c in r.clients
      ensures r.clients[c].issued != s.clients[con].issued
    {
      assert ClientOk(r, c);
    }
  }

  lemma ConnectKeepsInv(r: Registry, con: Connection)
    requires Inv(r) && r.last + 1 < ID_RANGE
    ensures Inv(Connected(r, con))
  {
    var s := Connected(r, con);
    if con !in r.clients {
      FreshClientIsOk(r, s, con);
    }
    forall c | c in s.clients
      ensures ClientOk(s, c)
    {
      if c in r.clients {
        ClientStaysOk(r, s, c);
      }
    }
  }

  lemma SyncInitKeepsInv(r: Registry, con: Connection, name: Name, id: Id)
    requires Inv(r) && con in r.clients && !r.clients[con].synced && IsIdFor(r, r.clients[con].id, name, id)
    ensures Inv(Synced(r, con, name, id))
  {
    var s := Synced(r, con, name, id);
    assert ClientOk(r, con);
    forall i | i in r.byId && r.byId[i].name == name != []
      ensures i == id
    {
      assert HasName(r, i, name);
    }
    forall c | c in s.clients
      ensures ClientOk(s, c)
    {
      assert ClientOk(r, c);
      if c != con && id == r.clients[con].issued {
        assert r.clients[c].issued != id;
      }
    }
  }

  lemma CloseKeepsInv(r: Registry, con: Connection)
    requires Inv(r)
    ensures Inv(Closed(r, con))
  {
    if con in r.clients {
      var s := Closed(r, con);
      assert ClientOk(r, con);
      forall c | c in s.clients
        ensures ClientOk(s, c)
      {
        assert ClientOk(r, c);
        assert r.clients[c].issued != r.clients[con].issued;
      }
    }
  }

  lemma StepKeepsInv(r: Registry, a: Action, s: Registry)
    requires Inv(r) && Next(r, a, s) && (a.Connect? ==> r.last + 1 < ID_RANGE)
    ensures Inv(s) && s.last == r.last + if a.Connect? then 1 else 0
  {
    match a
    case Connect(con) => ConnectKeepsInv(r, con);
    case SyncInit(con, name) =>
      var id :| IsIdFor(r, r.clients[con].id, name, id) && s == Synced(r, con, name, id);
      SyncInitKeepsInv(r, con, name, id);
    case Close(con) => CloseKeepsInv(r, con);
  }

  lemma {:induction false} RunKeepsInv(states: seq<Registry>, actions: seq<Action>, n: nat)
    requires IsRun(states, actions) && n <= |actions| && Connects(actions[..n]) < ID_RANGE
    ensures Inv(states[n]) && states[n].last == Connects(actions[..n])
  {
    if n > 0 {
      assert actions[..n][..n - 1] == actions[..n - 1];
      RunKeepsInv(states, actions, n - 1);
      StepKeepsInv(states[n - 1], actions[n - 1], states[n]);
    }
  }

  lemma {:induction false} ConnectsGrow(actions: seq<Action>, n: nat, m: nat)
    requires n <= m <= |actions|
    ensures Connects(actions[..n]) <= Connects(actions[..m])
  {
    if n < m {
      assert actions[..m][..m - 1] == actions[..m - 1];
      ConnectsGrow(actions, n, m - 1);
    }
  }

  lemma StepKeepsNames(r: Registry, a: Action, s: Registry, id: Id, name: Name)
    requires Inv(r) && Next(r, a, s) && name != [] && HasName(r, id, name)
    ensures HasName(s, id, name)
  {
    match a
    case Connect(con) =>
    case SyncInit(con, other) =>
      assert ClientOk(r, con);
    case Close(con) =>
      if con in r.clients {
        assert ClientOk(r, con);
      }
  }

  /** Member identity: over any run with fewer connects than ids, every key is its member's own id,
      distinct names have distinct ids, and a name once known keeps its id for good. */
  lemma {:induction false} IdentityIsStable(
    states: seq<Registry>, actions: seq<Action>, n: nat, m: nat, id: Id, name: Name)
    requires IsRun(states, actions) && n <= m <= |actions| && Connects(actions[..m]) < ID_RANGE
    ensures forall i :: i in states[m].byId ==> states[m].byId[i].id == i
    ensures forall i, j :: HasName(states[m], i, name) && HasName(states[m], j, name) && name != [] ==> i == j
    ensures name != [] && HasName(states[n], id, name) ==> HasName(states[m], id, name)
    decreases m
  {
    RunKeepsInv(states, actions, m);
    if n < m {
      ConnectsGrow(actions, m - 1, m);
      IdentityIsStable(states, actions, n, m - 1, id, name);
      if name != [] && HasName(states[n], id, name) {
        RunKeepsInv(states, actions, m - 1);
        StepKeepsNames(states[m - 1], actions[m - 1], states[m], id, name);
      }
    }
  }

  /** An id that ever belonged to a name never belongs to another one. */
  lemma IdsAreNotReused(
    states: seq<Registry>, actions: seq<Action>, n: nat, m: nat, id: Id, name: Name, other: Name)
    requires IsRun(states, actions) && n <= m <= |actions| && Connects(actions[..m]) < ID_RANGE
    requires name != [] && HasName(states[n], id, name) && HasName(states[m], id, other)
    ensures other == name
  {
    IdentityIsStable(states, actions, n, m, id, name);
  }

  /** Whoever connects again under a known name gets the id that name has always had. */
  lemma ReconnectGetsSameId(
    states: seq<Registry>, actions: seq<Action>, n: nat, m: nat, id: Id, name: Name, con: Connection)
    requires IsRun(states, actions) && n <= m < |actions| && Connects(actions[..m]) < ID_RANGE
    requires name != [] && HasName(states[n], id, name) && actions[m] == SyncInit(con, name)
    ensures con in states[m + 1].clients && states[m + 1].clients[con].id == id
  {
    IdentityIsStable(states, actions, n, m, id, name);
    var r := states[m];
    assert Next(r, actions[m], states[m + 1]);
    var i :| IsIdFor(r, r.clients[con].id, name, i) && states[m + 1] == Synced(r, con, name, i);
    IdentityIsStable(states, actions, m, m, i, name);
  }

  /** A new name gets its connection's own id, which no name had at any time before. */
  lemma NewNameGetsFreshId(
    states: seq<Registry>, actions: seq<Action>, n: nat, m: nat, name: Name, con: Connection, other: Name)
    requires IsRun(states, actions) && n <= m < |actions| && Connects(actions[..m]) < ID_RANGE
    requires actions[m] == SyncInit(con, name) && !exists i :: HasName(states[m], i, name)
    ensures con in states[m].clients && con in states[m + 1].clients
    ensures states[m + 1].clients[con].id == states[m].clients[con].issued
    ensures HasName(states[n], states[m].clients[con].issued, other) ==> other == []
  {
    var r := states[m];
    assert Next(r, actions[m], states[m + 1]);
    RunKeepsInv(states, actions, m);
    assert ClientOk(r, con);
    if other != [] && HasName(states[n], r.clients[con].issued, other) {
      IdentityIsStable(states, actions, n, m, r.clients[con].issued, other);
    }
  }

  /** A member without a name is in the table only while its connection is open. */
  ghost predicate NoStrays(r: Registry) {
    forall id :: id in r.byId && r.byId[id].name == [] ==> IsOpen(r, id)
  }

  ghost predicate IsOpen(r: Registry, id: Id) {
    exists con :: con in r.clients && r.clients[con].synced && r.clients[con].name == [] && r.clients[con].id == id
  }

  lemma OpenStaysOpen(r: Registry, s: Registry, id: Id)
    requires IsOpen(r, id)
    requires forall con :: con in r.clients && r.clients[con].synced && r.clients[con].id == id ==>
               con in s.clients && s.clients[con] == r.clients[con]
    ensures IsOpen(s, id)
  {
    var con :| con in r.clients && r.clients[con].synced && r.clients[con].name == [] && r.clients[con].id == id;
    assert con in s.clients;
  }

  lemma StepKeepsNoStrays(r: Registry, a: Action, s: Registry)
    requires Inv(r) && NoStrays(r) && Next(r, a, s)
    ensures NoStrays(s)
  {
    forall id | id in s.byId && s.byId[id].name == []
      ensures IsOpen(s, id)
    {
      match a
      case Connect(con) => OpenStaysOpen(r, s, id);
      case SyncInit(con, name) =>
        var i :| IsIdFor(r, r.clients[con].id, name, i) && s == Synced(r, con, name, i);
        if id == i {
          assert con in s.clients && s.clients[con].synced && s.clients[con].id == id;
        } else {
          OpenStaysOpen(r, s, id);
        }
      case Close(con) =>
        if con in r.clients {
          assert ClientOk(r, con);
        }
        OpenStaysOpen(r, s, id);
    }
  }

  /** Nothing is left of a member without a name once its connection has closed. */
  lemma {:induction false} UnnamedAreForgotten(states: seq<Registry>, actions: seq<Action>, n: nat)
    requires IsRun(states, actions) && n <= |actions| && Connects(actions[..n]) < ID_RANGE
    ensures NoStrays(states[n])
  {
    if n > 0 {
      ConnectsGrow(actions, n - 1, n);
      UnnamedAreForgotten(states, actions, n - 1);
      RunKeepsInv(states, actions, n - 1);
      StepKeepsNoStrays(states[n - 1], actions[n - 1], states[n]);
    }
  }

  /** A connection is open: its last connect or close so far was a connect. */
  function IsUp(actions: seq<Action>, con: Connection): bool {
    if actions == [] then false
    else
      match actions[|actions| - 1]
      case Connect(c) => c == con || IsUp(actions[..|actions| - 1], con)
      case Close(c) => c != con && IsUp(actions[..|actions| - 1], con)
      case SyncInit(_, _) => IsUp(actions[..|actions| - 1], con)
  }

  /** Over every run, exactly the open connections have a client, with a name or without. */
  lemma {:induction false} ClientsAreOpen(states: seq<Registry>, actions: seq<Action>, n: nat, con: Connection)
    requires IsRun(states, actions) && n <= |actions|
    ensures con in states[n].clients <==> IsUp(actions[..n], con)
  {
    if n > 0 {
      ClientsAreOpen(states, actions, n - 1, con);
      assert actions[..n][..n - 1] == actions[..n - 1];
      assert Next(states[n - 1], actions[n - 1], states[n]);
    }
  }

  // ------------------------------------------------------------------
  // The objects.

  class MemberData {
    const issued: Id
    var memberId: Id
    var name: Name
    var syncInit: bool

    constructor (id: Id)
      ensures Value() == Member(id, id, [], false)
    {
      issued, memberId, name, syncInit := id, id, [], false;
    }

    function Value(): Member
      reads this
    {
      Member(issued, memberId, name, syncInit)
    }
  }

  class ServerStorage {
    var lastMemberId: Id
    var clients: map<Connection, MemberData>
    var clientsById: map<Id, MemberData>

    ghost predicate Valid()
      reads this, clients.Values, clientsById.Values
    {
      && (forall c, d :: c in clients && d in clients && clients[c] == clients[d] ==> c == d)
      && (forall id :: id in clientsById ==> clientsById[id].syncInit)
    }

    ghost function ClientValues(): map<Connection, Member>
      reads this, clients.Values
    {
      map c | c in clients :: clients[c].Value()
    }

    ghost function IdValues(): map<Id, Member>
      reads this, clientsById.Values
    {
      map id | id in clientsById :: clientsById[id].Value()
    }

    ghost function State(): Registry
      reads this, clients.Values, clientsById.Values
    {
      Registry(lastMemberId, ClientValues(), IdValues())
    }

    constructor ()
      ensures Valid() && State() == START
    {
      lastMemberId, clients, clientsById := 0, map[], map[];
    }

    method NewClient(con: Connection)
      requires Valid()
      modifies this
      ensures Valid() && State() == Connected(old(State()), con)
    {
      lastMemberId := (lastMemberId + 1) % ID_RANGE;
      var cli := new MemberData(lastMemberId);
      if con !in clients {
        clients := clients[con := cli];
        assert ClientValues() == old(ClientValues())[con := cli.Value()];
      } else {
        assert ClientValues() == old(ClientValues());
      }
      assert IdValues() == old(IdValues());
    }

    /** The id that a sync_init under `name` ends up with. */
    method ChooseId(own: Id, name: Name) returns (id: Id)
      ensures IsIdFor(State(), own, name, id)
    {
      var prev := FindByName(name);
      id := if prev.Some? && name != [] then prev.value else own;
    }

    /** The sync_init branch of MemberData::onRecv, with the table it then updates. */
    method SyncInit(con: Connection, name: Name) returns (id: Id)
      requires Valid() && con in clients && !clients[con].syncInit
      modifies this, clients[con]
      ensures Valid()
      ensures IsIdFor(old(State()), old(clients[con].memberId), name, id)
      ensures State() == Synced(old(State()), con, name, id)
    {
      id := ChooseId(clients[con].memberId, name);
      SetMember(con, name, id);
      InitClientId(id, con);
    }

    method SetMember(con: Connection, name: Name, id: Id)
      requires Valid() && con in clients && !clients[con].syncInit
      modifies clients[con]
      ensures Valid() && clients[con].syncInit
      ensures State() == old(State()).(
                clients := old(State()).clients[con := Member(clients[con].issued, id, name, true)])
    {
      var m := clients[con];
      m.name := name;
      m.memberId := id;
      m.syncInit := true;
      assert ClientValues() == old(ClientValues())[con := m.Value()];
      assert IdValues() == old(IdValues());
    }

    /** ServerStorage::initClientId. */
    method InitClientId(id: Id, con: Connection)
      requires Valid() && con in clients && clients[con].syncInit
      modifies this`clientsById
      ensures Valid()
      ensures State() == old(State()).(byId := old(State()).byId[id := old(State()).clients[con]])
    {
      clientsById := clientsById[id := clients[con]];
      assert IdValues() == old(IdValues())[id := clients[con].Value()];
    }

    method FindByName(name: Name) returns (r: Option<Id>)
      ensures r.Some? ==> HasName(State(), r.value, name)
      ensures r.None? ==> forall id :: !HasName(State(), id, name)
    {
      var ids := clientsById.Keys;
      while ids != {}
        invariant ids <= clientsById.Keys
        invariant forall id :: id in clientsById && id !in ids ==> clientsById[id].name != name
      {
        var id :| id in ids;
        if clientsById[id].name == name {
          return Some(id);
        }
        ids := ids - {id};
      }
      return None;
    }

    method RemoveClient(con: Connection)
      requires Valid()
      modifies this
      ensures Valid() && State() == Closed(old(State()), con)
    {
      if con in clients {
        var cd := clients[con];
        clients := clients - {con};
        if cd.name == [] {
          clientsById := clientsById - {cd.memberId};
        }
      }
    }
  }
}
