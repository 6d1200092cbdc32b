/** What each request does, told on the tables before and after it. */
module BrokerEffects {
  import opened BrokerTypes
  import opened ServerTable
  import opened BrokerSpec
  import opened BrokerInv
  import opened BrokerSweep
  import opened BrokerMoves
  import opened BrokerPools
  import opened BrokerHandlers
  import opened BrokerRequests
  import opened BrokerClose
  import opened BrokerTheorems
  import opened BrokerExact
  import opened BrokerOwners

  // ---------------------------------------------------------------- vocabulary

  /** The notifications of a list that have a property, in order. */
  ghost function Those(l: seq<Notification>, p: Notification -> bool): (r: seq<Notification>)
    ensures forall n :: n in r <==> n in l && p(n)
  {
    if l == [] then [] else (if p(l[0]) then [l[0]] else []) + Those(l[1..], p)
  }

  ghost function Others(l: seq<Notification>, p: Notification -> bool): (r: seq<Notification>)
    ensures forall n :: n in r <==> n in l && !p(n)
  {
    if l == [] then [] else (if p(l[0]) then [] else [l[0]]) + Others(l[1..], p)
  }

  ghost function InPool(poolId: nat): Notification -> bool {
    (n: Notification) => n.active && n.poolId == poolId
  }

  ghost function Watching(id: PartyId): Notification -> bool {
    (n: Notification) => n.active && n.party == id
  }

  ghost function NotifIds(l: seq<Notification>): (r: seq<nat>)
    ensures |r| == |l| && forall i :: 0 <= i < |l| ==> r[i] == l[i].id
  {
    seq(|l|, i requires 0 <= i < |l| => l[i].id)
  }

  /** Those with the property leave list k and are pulsed, in order; the others and
      everything else that notifications and tables consist of stay. */
  ghost predicate Fired(s: State, s': State, k: Kind, p: Notification -> bool) {
    && L(s', k) == Others(L(s, k), p)
    && s'.past.pulses == s.past.pulses + NotifIds(Those(L(s, k), p))
    && (forall k' :: k' != k ==> L(s', k') == L(s, k'))
    && TablesStay(s, s')
  }

  /** Servers, clients, counters, tickets and withdrawals are unchanged, and each connection
      has the servers and clients it had. */
  ghost predicate TablesStay(s: State, s': State) {
    && s'.servers == s.servers && s'.clients == s.clients && s'.next == s.next
    && s'.past.book == s.past.book && s'.past.withdrawn == s.past.withdrawn
    && s'.link.connected == s.link.connected && SameMembers(s.conns, s'.conns)
  }

  ghost predicate SameMembers(conns: map<nat, Conn>, conns': map<nat, Conn>) {
    conns'.Keys == conns.Keys && forall c :: c in conns ==> conns'[c] == conns[c].(notifs := conns'[c].notifs)
  }

  /** The same for a reader who thinks of one notification at a time. */
  lemma FiredMeans(s: State, s': State, k: Kind, p: Notification -> bool)
    requires Fired(s, s', k, p)
    ensures forall n :: n in L(s, k) ==> if p(n) then n.id in s'.past.pulses && n !in L(s', k) else n in L(s', k)
    ensures forall n :: n in L(s', k) ==> n in L(s, k) && !p(n)
    ensures forall x :: x in s'.past.pulses && x !in s.past.pulses ==> exists n :: n in L(s, k) && p(n) && n.id == x
  {
    var f := Those(L(s, k), p);
    forall n | n in L(s, k) && p(n) ensures n.id in s'.past.pulses {
      var i :| 0 <= i < |f| && f[i] == n;
      assert NotifIds(f)[i] == n.id;
      assert n.id in NotifIds(f);
    }
    forall x | x in s'.past.pulses && x !in s.past.pulses ensures exists n :: n in L(s, k) && p(n) && n.id == x {
      assert x in NotifIds(f);
      var i :| 0 <= i < |f| && NotifIds(f)[i] == x;
      assert f[i] in f;
    }
  }

  // ---------------------------------------------------------------- sweeps

  lemma DropMembers(s: State, n: Notification)
    ensures SameMembers(s.conns, Drop(s, n).conns) && Drop(s, n).link.connected == s.link.connected
  {
    hide DetachPool, QueueClear, StdRemove;
  }

  lemma EraseTables(s: State, k: Kind, i: nat)
    requires i < |L(s, k)|
    ensures TablesStay(s, EraseAt(s, k, i))
  {
    hide Drop, Put, SameMembers;
    DropMembers(Put(s, k, L(s, k)[..i] + L(s, k)[i + 1..]), L(s, k)[i]);
    assert EraseAt(s, k, i) == Drop(Put(s, k, L(s, k)[..i] + L(s, k)[i + 1..]), L(s, k)[i]);
  }

  lemma TurnTables(cfg: Config, s: State, k: Kind, r: Rule, i: nat)
    requires i < |L(s, k)| && !r.Withdrawal?
    ensures TablesStay(s, Turn(cfg, s, k, r, i)) && forall k' :: k' != k ==> L(Turn(cfg, s, k, r, i), k') == L(s, k')
  {
    hide EraseAt;
    TurnExact(cfg, s, k, r, i);
    hide Act;
    match Act(cfg, s, r, L(s, k)[i])
    case Fire => EraseTables(Send(s, L(s, k)[i].id), k, i);
    case _ =>
  }

  lemma TablesTrans(s: State, t: State, u: State)
    requires TablesStay(s, t) && TablesStay(t, u)
    ensures TablesStay(s, u)
  {
    assert forall c :: c in s.conns ==> c in t.conns;
  }

  lemma {:induction false} SweepTables(cfg: Config, s: State, k: Kind, r: Rule, i: nat)
    requires i <= |L(s, k)| && !r.Withdrawal?
    ensures var s' := Sweep(cfg, s, k, r, i); TablesStay(s, s') && forall k' :: k' != k ==> L(s', k') == L(s, k')
    decreases |L(s, k)| - i
  {
    if i < |L(s, k)| {
      hide Turn, Act, TablesStay, L;
      var s1 := Turn(cfg, s, k, r, i);
      TurnTables(cfg, s, k, r, i);
      SweepTables(cfg, s1, k, r, if Erases(Act(cfg, s, r, L(s, k)[i])) then i else i + 1);
      TablesTrans(s, s1, Sweep(cfg, s, k, r, i));
    }
  }

  ghost predicate FiresOnly(cfg: Config, servers: seq<Server>, r: Rule, l: seq<Notification>, p: Notification -> bool) {
    forall n :: n in l ==> Decide(cfg, servers, map[], r, n) == (if p(n) then Fire else Keep)
  }

  lemma FiresTail(cfg: Config, servers: seq<Server>, r: Rule, l: seq<Notification>, p: Notification -> bool)
    requires FiresOnly(cfg, servers, r, l, p) && l != []
    ensures Decide(cfg, servers, map[], r, l[0]) == (if p(l[0]) then Fire else Keep) && FiresOnly(cfg, servers, r, l[1..], p)
  {
    hide Decide;
    assert l[0] in l;
  }

  lemma {:induction false} LeftIsOthers(cfg: Config, servers: seq<Server>, r: Rule, l: seq<Notification>, p: Notification -> bool)
    requires !r.Withdrawal? && FiresOnly(cfg, servers, r, l, p)
    ensures Left(cfg, servers, r, l) == Others(l, p)
  {
    hide Decide, FiresOnly;
    if l != [] {
      FiresTail(cfg, servers, r, l, p);
      LeftIsOthers(cfg, servers, r, l[1..], p);
    }
  }

  lemma {:induction false} SentIsThose(cfg: Config, servers: seq<Server>, r: Rule, l: seq<Notification>, p: Notification -> bool)
    requires !r.Withdrawal? && FiresOnly(cfg, servers, r, l, p)
    ensures Sent(cfg, servers, r, l) == NotifIds(Those(l, p))
  {
    hide Decide, FiresOnly, NotifIds;
    IdsJoin([], []);
    if l != [] {
      FiresTail(cfg, servers, r, l, p);
      SentIsThose(cfg, servers, r, l[1..], p);
      IdsJoin(if p(l[0]) then [l[0]] else [], Those(l[1..], p));
    }
  }

  lemma IdsJoin(a: seq<Notification>, b: seq<Notification>)
    ensures NotifIds(a + b) == NotifIds(a) + NotifIds(b) && NotifIds([]) == []
    ensures forall n :: NotifIds([n]) == [n.id]
  {
  }

  /** A trigger pass whose rule says Fire or Keep. */
  lemma SweepFires(cfg: Config, s: State, k: Kind, r: Rule, p: Notification -> bool)
    requires !r.Withdrawal? && FiresOnly(cfg, s.servers, r, L(s, k), p)
    ensures Fired(s, Sweep(cfg, s, k, r, 0), k, p)
  {
    hide Sweep, Decide, Left, Sent, TablesStay, Those, Others, NotifIds, FiresOnly;
    SweepExact(cfg, s, k, r, 0);
    SweepTables(cfg, s, k, r, 0);
    assert L(s, k)[0..] == L(s, k);
    LeftIsOthers(cfg, s.servers, r, L(s, k), p);
    SentIsThose(cfg, s.servers, r, L(s, k), p);
  }

  // ---------------------------------------------------------------- the master's pulses

  lemma PoolFires(cfg: Config, s: State, k: Kind, poolId: nat)
    ensures Fired(s, Sweep(cfg, s, k, ByPool(poolId), 0), k, InPool(poolId))
  {
    hide Fired, Sweep;
    SweepFires(cfg, s, k, ByPool(poolId), InPool(poolId));
  }

  lemma PulseIs(cfg: Config, s: State, poolId: nat)
    ensures Step(cfg, s, EServerAvailable(poolId)) == Sweep(cfg, s, Available, ByPool(poolId), 0)
    ensures Step(cfg, s, EServerDisconnect(poolId)) == Sweep(cfg, s, Disconnect, ByPool(poolId), 0)
  {
    hide Sweep;
  }

  lemma InPoolMeans(poolId: nat)
    ensures forall n: Notification :: InPool(poolId)(n) <==> n.active && n.poolId == poolId
  {
  }

  /** The master's pulse for an available interface wakes every active client of that pool. */
  lemma AvailablePulse(cfg: Config, s: State, poolId: nat)
    ensures var s' := Step(cfg, s, EServerAvailable(poolId));
            && (forall n :: n in s.lists.available && n.active && n.poolId == poolId ==> n.id in s'.past.pulses && n !in s'.lists.available)
            && (forall n :: n in s.lists.available && !(n.active && n.poolId == poolId) ==> n in s'.lists.available)
            && (forall n :: n in s'.lists.available ==> n in s.lists.available && !(n.active && n.poolId == poolId))
            && s'.past.pulses == s.past.pulses + NotifIds(Those(s.lists.available, InPool(poolId)))
            && s'.lists == s.lists.(available := s'.lists.available) && TablesStay(s, s')
  {
    PulseIs(cfg, s, poolId);
    hide Step, Sweep, Those, Others, NotifIds, TablesStay, InPool;
    PoolFires(cfg, s, Available, poolId);
    OnlyList(s, Sweep(cfg, s, Available, ByPool(poolId), 0), Available, InPool(poolId));
    InPoolMeans(poolId);
  }

  /** The master's pulse for a server's end wakes every watcher in that pool. */
  lemma DisconnectPulse(cfg: Config, s: State, poolId: nat)
    ensures var s' := Step(cfg, s, EServerDisconnect(poolId));
            && (forall n :: n in s.lists.disconnect && n.active && n.poolId == poolId ==> n.id in s'.past.pulses && n !in s'.lists.disconnect)
            && (forall n :: n in s.lists.disconnect && !(n.active && n.poolId == poolId) ==> n in s'.lists.disconnect)
            && (forall n :: n in s'.lists.disconnect ==> n in s.lists.disconnect && !(n.active && n.poolId == poolId))
            && s'.past.pulses == s.past.pulses + NotifIds(Those(s.lists.disconnect, InPool(poolId)))
            && s'.lists == s.lists.(disconnect := s'.lists.disconnect) && TablesStay(s, s')
  {
    PulseIs(cfg, s, poolId);
    hide Step, Sweep, Those, Others, NotifIds, TablesStay, InPool;
    PoolFires(cfg, s, Disconnect, poolId);
    OnlyList(s, Sweep(cfg, s, Disconnect, ByPool(poolId), 0), Disconnect, InPool(poolId));
    InPoolMeans(poolId);
  }

  /** What is fired from one list, list by list. */
  lemma OnlyList(s: State, s': State, k: Kind, p: Notification -> bool)
    requires Fired(s, s', k, p)
    ensures k == Available ==> s'.lists == s.lists.(available := Others(s.lists.available, p))
    ensures k == Disconnect ==> s'.lists == s.lists.(disconnect := Others(s.lists.disconnect, p))
    ensures k == Detach ==> s'.lists == s.lists.(detach := Others(s.lists.detach, p))
    ensures forall n :: n in L(s, k) && p(n) ==> n.id in s'.past.pulses
    ensures TablesStay(s, s') && s'.past.pulses == s.past.pulses + NotifIds(Those(L(s, k), p))
  {
    FiredMeans(s, s', k, p);
    hide TablesStay, Those, Others, NotifIds;
    ListsOf(s, s');
  }

  lemma ListsOf(s: State, s': State)
    ensures s.lists == Lists(L(s, Available), L(s, Disconnect), L(s, Detach), L(s, ListChange))
    ensures s'.lists == Lists(L(s', Available), L(s', Disconnect), L(s', Detach), L(s', ListChange))
  {
  }

  // ---------------------------------------------------------------- attaching

  /** A registered server that a request for an interface is satisfied with. */
  ghost predicate Fitting(s: State, wanted: Iface, e: Server) {
    e in s.servers && e.iface.name == wanted.name && e.iface.major == wanted.major && wanted.minor <= e.iface.minor
  }

  /** A service for anybody is open to all; any other is open to root and the group, on this node only. */
  ghost predicate Admits(cfg: Config, conn: Conn, grpid: int) {
    grpid == -1 || ((conn.node == 0 || conn.node == 0x7F00_0001) && (conn.uid == 0 || (conn.uid != -1 && cfg.inGroup(grpid, conn.uid))))
  }

  /** A name of printable ASCII characters, and a version other than 0.0. */
  ghost predicate Proper(iface: Iface) {
    (forall i :: 0 <= i < |iface.name| ==> ' ' <= iface.name[i] <= '~') && !(iface.major == 0 && iface.minor == 0)
  }

  lemma CheckedIff(iface: Iface)
    ensures Checked(iface) <==> Proper(iface)
  {
  }

  /** Only one server fits. */
  lemma FittingFound(s: State, wanted: Iface, e: Server)
    requires Descending(s.servers) && Fitting(s, wanted, e)
    ensures ScanVersion(s.servers, wanted) == Some(e)
  {
    var r := Scan(s.servers, wanted.name);
    var i :| 0 <= i < |s.servers| && s.servers[i] == e;
    var j :| 0 <= j < |s.servers| && s.servers[j] == r.value;
    NamesUnique(s.servers, i, j);
  }

  lemma NoneFound(s: State, wanted: Iface)
    requires forall e :: e in s.servers ==> !Fitting(s, wanted, e)
    ensures ScanVersion(s.servers, wanted).None?
  {
    var r := ScanVersion(s.servers, wanted);
    if r.Some? { assert Fitting(s, wanted, r.value); }
  }

  lemma StepAttach(cfg: Config, s: State, c: nat, iface: Iface)
    requires c in s.conns
    ensures Step(cfg, s, EAttach(c, iface)) == Attach(cfg, s, c, iface)
  {
    hide Attach;
  }

  /** A fitting server that admits the connection gets one more client, under an ID that nobody
      has; the connection lists it. */
  lemma AttachGrants(cfg: Config, s: State, c: nat, iface: Iface, e: Server)
    requires Inv(cfg, s) && c in s.conns && Proper(iface) && Fitting(s, iface, e) && Admits(cfg, s.conns[c], e.grpid)
    ensures var s' := Step(cfg, s, EAttach(c, iface));
            var id := PartyId(if cfg.treeMode then cfg.ext else e.id.ext, s.next.client);
            && s'.clients == s.clients + [Client(id, e.id, c)] && (forall x :: x in s.clients ==> x.id.local != id.local)
            && s'.conns.Keys == s.conns.Keys && (forall x :: x in s'.conns[c].clients <==> x in s.conns[c].clients || x == id)
            && s' == s.(clients := s'.clients, conns := s'.conns, next := s.next.(client := s.next.client + 1))
            && (forall d :: d in s.conns ==> s'.conns[d] == (if d == c then s.conns[d].(clients := s'.conns[d].clients) else s.conns[d]))
  {
    CheckedIff(iface);
    assert Descending(s.servers) && forall x :: x in s.clients ==> ClientOk(s, x);
    FittingFound(s, iface, e);
    StepAttach(cfg, s, c, iface);
    var id := PartyId(if cfg.treeMode then cfg.ext else e.id.ext, s.next.client);
    SetMembers(s.conns[c].clients, id);
    hide Step, Inv, ScanVersion, Checked, Proper, SetInsert, Registered;
  }

  /** Otherwise nobody is attached here. A request for a foreign interface that is not here goes
      to the connected master. */
  lemma AttachRefused(cfg: Config, s: State, c: nat, iface: Iface)
    requires Inv(cfg, s) && c in s.conns
    requires !Proper(iface) || forall e :: Fitting(s, iface, e) ==> !Admits(cfg, s.conns[c], e.grpid)
    ensures var s' := Step(cfg, s, EAttach(c, iface));
            var asks := Proper(iface) && (forall e :: e in s.servers ==> !Fitting(s, iface, e))
                     && !cfg.isLocalService(iface.name) && cfg.forwards(iface.name) && s.link.connected;
            s' == s.(link := s.link.(outstanding := s.link.outstanding + if asks then [AttachJob(c, iface)] else []))
  {
    CheckedIff(iface);
    StepAttach(cfg, s, c, iface);
    assert Descending(s.servers);
    hide Step, Inv, Checked, Proper;
    assert s.link.outstanding + [] == s.link.outstanding;
    if e :| e in s.servers && Fitting(s, iface, e) {
      FittingFound(s, iface, e);
    } else {
      NoneFound(s, iface);
    }
    hide ScanVersion, Scan;
  }

  // ---------------------------------------------------------------- detaching

  lemma StepDetach(cfg: Config, s: State, c: nat, id: PartyId)
    requires c in s.conns
    ensures Step(cfg, s, EDetach(c, id)) == DetachClient(cfg, s, c, id)
  {
    hide DetachClient;
  }

  lemma WatchFires(cfg: Config, s: State, k: Kind, id: PartyId)
    ensures Fired(s, Sweep(cfg, s, k, ByParty(id), 0), k, Watching(id))
  {
    hide Fired, Sweep;
    SweepFires(cfg, s, k, ByParty(id), Watching(id));
  }

  lemma DetachAllActive(cfg: Config, s: State)
    requires Inv(cfg, s)
    ensures forall n :: n in s.lists.detach || n in s.lists.disconnect ==> n.active
  {
    hide BookOk, HostsOk, PulsesOk, PoolsOk, CookiesOk, NoLeak, NoLostWakeup, WatchersSound, ServersOk, ClientsOk;
    forall n | n in s.lists.detach ensures n.active { assert n in L(s, Detach) && Listed(s, Detach, n); }
    forall n | n in s.lists.disconnect ensures n.active { assert n in L(s, Disconnect) && Listed(s, Disconnect, n); }
  }

  /** Detaching a client that the connection lists and that is attached here: everybody who waits
      for its end is pulsed, in order, and nobody else; the client leaves both lists. */
  lemma DetachWakes(cfg: Config, s: State, c: nat, id: PartyId)
    requires Inv(cfg, s) && c in s.conns && id in s.conns[c].clients && exists x :: x in s.clients && x.id.local == id.local
    ensures var s' := Step(cfg, s, EDetach(c, id));
            && (forall n :: n in s.lists.detach && n.party == id ==> n.id in s'.past.pulses && n !in s'.lists.detach)
            && (forall n :: n in s'.lists.detach <==> n in s.lists.detach && n.party != id)
            && s'.past.pulses == s.past.pulses + NotifIds(Those(s.lists.detach, Watching(id)))
            && s'.lists == s.lists.(detach := s'.lists.detach)
            && (forall x :: x in s'.clients <==> x in s.clients && x.id != id)
            && s'.servers == s.servers && s'.conns.Keys == s.conns.Keys
            && (forall d, x :: d in s.conns ==> (x in s'.conns[d].clients <==> x in s.conns[d].clients && (d == c ==> x != id)))
  {
    ClientsAreDistinct(s);
    hide Step, Inv, Sweep, ClientAt, RemoveClient, SetRemove, Those, Others, NotifIds, DistinctClients, ClientsOk;
    DetachAllActive(cfg, s);
    ClientAtNone(s.clients, id);
    RemovedClient(s.clients, id);
    StepDetach(cfg, s, c, id);
    var s1 := Sweep(cfg, s, Detach, ByParty(id), 0);
    WatchFires(cfg, s, Detach, id);
    OnlyList(s, s1, Detach, Watching(id));
    SetMembers(s1.conns[c].clients, id);
    assert L(s, Detach) == s.lists.detach;
    hide Fired;
  }

  /** Any other detach goes to the connected master, or nowhere. */
  lemma DetachForwards(cfg: Config, s: State, c: nat, id: PartyId)
    requires Inv(cfg, s) && c in s.conns && !(id in s.conns[c].clients && exists x :: x in s.clients && x.id.local == id.local)
    ensures var s' := Step(cfg, s, EDetach(c, id));
            && s' == s.(conns := s'.conns, link := s'.link)
            && s'.link == s.link.(outstanding := s.link.outstanding + if s.link.connected then [DetachJob(id)] else [])
            && s'.conns.Keys == s.conns.Keys
            && (forall d :: d in s.conns ==> s'.conns[d] == s.conns[d].(clients := s'.conns[d].clients))
            && (forall d, x :: d in s.conns ==>
                  (x in s'.conns[d].clients <==> x in s.conns[d].clients && (d == c && s.link.connected ==> x != id)))
  {
    ClientAtNone(s.clients, id);
    StepDetach(cfg, s, c, id);
    SetMembers(s.conns[c].clients, id);
    assert s.link.outstanding + [] == s.link.outstanding;
    hide Step, Inv, ClientAt, SetRemove, Sweep;
  }

  /** The master reports the end of a client: everybody who waits for it is pulsed. */
  lemma ClientEndPulse(cfg: Config, s: State, n: Notification)
    requires Inv(cfg, s) && n in s.lists.detach
    ensures var s' := Step(cfg, s, EClientDetached(n.id));
            && (forall m :: m in s'.lists.detach <==> m in s.lists.detach && m.party != n.party)
            && s'.past.pulses == s.past.pulses + NotifIds(Those(s.lists.detach, Watching(n.party)))
            && s'.lists == s.lists.(detach := s'.lists.detach) && TablesStay(s, s')
  {
    hide Step, Inv, Sweep, TablesStay, Those, Others, NotifIds;
    DetachAllActive(cfg, s);
    ClientEndIs(cfg, s, n);
    WatchFires(cfg, s, Detach, n.party);
    OnlyList(s, Sweep(cfg, s, Detach, ByParty(n.party), 0), Detach, Watching(n.party));
    assert L(s, Detach) == s.lists.detach;
    hide Fired;
  }

  lemma ClientEndIs(cfg: Config, s: State, n: Notification)
    requires Inv(cfg, s) && n in s.lists.detach
    ensures Step(cfg, s, EClientDetached(n.id)) == Sweep(cfg, s, Detach, ByParty(n.party), 0)
  {
    hide Step, Inv, Sweep, NotifAt, NewestFirst;
    StepClientDetached(cfg, s, n.id);
    InvNewest(cfg, s);
    OnlyOne(s.lists.detach, n);
  }

  lemma StepClientDetached(cfg: Config, s: State, id: nat)
    ensures Step(cfg, s, EClientDetached(id)) == ClientDetached(cfg, s, id)
  {
    hide ClientDetached;
  }

  lemma InvNewest(cfg: Config, s: State)
    requires Inv(cfg, s)
    ensures NewestFirst(s.lists.available) && NewestFirst(s.lists.disconnect) && NewestFirst(s.lists.detach) && NewestFirst(s.lists.listChange)
  {
    hide BookOk, HostsOk, PulsesOk, PoolsOk, CookiesOk, NoLeak, NoLostWakeup, WatchersSound, ServersOk, ClientsOk, AllListed;
    assert NewestFirst(L(s, Available)) && NewestFirst(L(s, Disconnect)) && NewestFirst(L(s, Detach)) && NewestFirst(L(s, ListChange));
  }

  lemma {:induction false} NotifFound(l: seq<Notification>, id: nat, onlyActive: bool)
    ensures NotifAt(l, id, onlyActive) < 0 ==> forall n :: n in l && n.id == id ==> onlyActive && !n.active
  {
    if l != [] { NotifFound(l[1..], id, onlyActive); }
  }

  lemma OnlyOne(l: seq<Notification>, n: Notification)
    requires NewestFirst(l) && n in l
    ensures NotifAt(l, n.id, false) >= 0 && l[NotifAt(l, n.id, false)] == n
  {
    NotifFound(l, n.id, false);
    var i := NotifAt(l, n.id, false);
    hide NotifAt;
    var j :| 0 <= j < |l| && l[j] == n;
  }

  /** An unknown ID reports nothing. */
  lemma ClientEndUnknown(cfg: Config, s: State, id: nat)
    requires forall n :: n in s.lists.detach ==> n.id != id
    ensures Step(cfg, s, EClientDetached(id)) == s
  {
    hide Step, Sweep, EraseAt, NotifAt;
    StepClientDetached(cfg, s, id);
    NoIndex(s.lists.detach, id, false);
    NoIndex(s.lists.detach, id, true);
  }

  lemma {:induction false} NoIndex(l: seq<Notification>, id: nat, onlyActive: bool)
    requires forall n :: n in l ==> n.id != id
    ensures NotifAt(l, id, onlyActive) < 0
  {
    if l != [] { NoIndex(l[1..], id, onlyActive); }
  }

  /** The master reports a change of its list: the notification is pulsed and stays. */
  lemma ListChangePulse(cfg: Config, s: State, id: nat)
    ensures var s' := Step(cfg, s, EListChanged(id));
            var here := exists n :: n in s.lists.listChange && n.id == id && n.active;
            s' == s.(past := s.past.(pulses := s.past.pulses + if here then [id] else []))
  {
    assert Step(cfg, s, EListChanged(id)) == FireOne(s, ListChange, id, false) by { hide FireOne; }
    hide Step;
    NotifFound(s.lists.listChange, id, true);
    assert L(s, ListChange) == s.lists.listChange && s.past.pulses + [] == s.past.pulses;
    hide NotifAt, EraseAt;
  }
}
