/** The request handlers keep the invariant: registering and unregistering
    servers, attaching and detaching clients, and waiting for the end of a
    server. The order within a handler matters: a server enters the table before
    its clients are woken, and leaves it after its watchers were pulsed. */
module BrokerRequests {
  import opened BrokerTypes
  import opened ServerTable
  import opened BrokerSpec
  import opened BrokerInv
  import opened BrokerSweep
  import opened BrokerMoves
  import opened BrokerPools
  import opened BrokerHandlers

  // ---------------------------------------------------------------- registering

  /** What a new entry must satisfy: an unused name; the ID may be in use. */
  ghost predicate Admissible(cfg: Config, s: State, e: Server) {
    && Scan(s.servers, e.iface.name).None?
    && (e.id.ext == cfg.ext ==> e.id.local < s.next.server)
  }

  /** The tables right after the insertion, before anybody is woken. */
  ghost function Enter(s: State, c: nat, e: Server): State
    requires c in s.conns
  {
    s.(servers := Inserted(s.servers, e),
       conns := s.conns[c := s.conns[c].(servers := SetInsert(s.conns[c].servers, e.id))])
  }

  lemma EnterRegistered(s: State, c: nat, e: Server, id: PartyId)
    requires c in s.conns
    ensures Registered(Enter(s, c, e), id) <==> Registered(s, id) || id == e.id
  {
    hide Inserted;
    var s' := Enter(s, c, e);
    assert e in s'.servers;
    if Registered(s, id) {
      var x :| x in s.servers && x.id == id;
      assert x in s'.servers;
    }
  }

  lemma EnterTables(cfg: Config, s: State, c: nat, e: Server)
    requires Tables(cfg, s) && c in s.conns && Admissible(cfg, s, e)
    ensures Tables(cfg, Enter(s, c, e))
  {
    var s' := Enter(s, c, e);
    InsertKeepsOrder(s.servers, e);
    hide Inserted, Descending;
    assert ServersOk(cfg, s');
    forall id ensures Registered(s, id) ==> Registered(s', id) { EnterRegistered(s, c, e, id); }
    hide Registered;
  }

  lemma EnterWatch(cfg: Config, s: State, c: nat, e: Server)
    requires WatchersSound(cfg, s, []) && c in s.conns
    ensures WatchersSound(cfg, Enter(s, c, e), [])
  {
    forall id ensures Registered(s, id) ==> Registered(Enter(s, c, e), id) { EnterRegistered(s, c, e, id); }
    hide Registered, Inserted, SetInsert;
  }

  lemma EnterCore(s: State, c: nat, e: Server)
    requires Core(s) && c in s.conns
    ensures Core(Enter(s, c, e))
  {
    hide Core;
    PlainKeepsCore(s, Enter(s, c, e));
  }

  /** After the sweep nobody who accepts the new server is still waiting. */
  lemma AnnounceWake(cfg: Config, s: State, c: nat, e: Server, s': State)
    requires NoLostWakeup(s.servers, s.lists.available) && c in s.conns
    requires Shrinks(Enter(s, c, e), s', Available) && Settled(cfg, s', Available, ByOffer(e.iface, e.grpid), 0)
    ensures NoLostWakeup(s'.servers, s'.lists.available)
  {
    var s1 := Enter(s, c, e);
    assert forall x :: x in s'.servers ==> x in s.servers || x == e;
    hide Inserted, SetInsert;
    forall n, x | n in s'.lists.available && n.active && x in s'.servers ensures !Accepts(n.iface, x.iface) {
      assert n in L(s', Available);
      assert From(L(s1, Available), n);
      assert n in s.lists.available;
      var j :| 0 <= j < |L(s', Available)| && L(s', Available)[j] == n;
      assert Act(cfg, s', ByOffer(e.iface, e.grpid), n) == Keep;
    }
  }

  lemma AnnounceInv(cfg: Config, s: State, c: nat, e: Server)
    requires Inv(cfg, s) && c in s.conns && Admissible(cfg, s, e)
    ensures Inv(cfg, Announce(cfg, s, c, e))
    ensures Announce(cfg, s, c, e).conns.Keys == s.conns.Keys
    ensures Announce(cfg, s, c, e).servers == Inserted(s.servers, e) && Announce(cfg, s, c, e).next == s.next
  {
    var s1 := Enter(s, c, e);
    var s2 := Sweep(cfg, s1, Available, ByOffer(e.iface, e.grpid), 0);
    hide Core, NoLostWakeup, WatchersSound, ServersOk, ClientsOk, Admissible, Settled, Spared, Sweep, Inserted, SetInsert;
    EnterCore(s, c, e);
    EnterWatch(cfg, s, c, e);
    EnterTables(cfg, s, c, e);
    SweepKeeps(cfg, s1, Available, ByOffer(e.iface, e.grpid), 0);
    AnnounceWake(cfg, s, c, e, s2);
    ShrinkWatch(cfg, s1, s2, Available, []);
    ShrinkTables(cfg, s1, s2, Available);
    TriggerAllInv(cfg, s2, Some(e.iface));
    assert s2.conns.Keys == s.conns.Keys && s2.servers == s1.servers && s2.next == s.next;
  }

  lemma AddInterfaceInv(cfg: Config, s: State, c: nat, iface: Iface, grpid: int)
    requires Inv(cfg, s) && c in s.conns
    ensures Inv(cfg, AddInterface(cfg, s, c, iface, grpid))
    ensures AddInterface(cfg, s, c, iface, grpid).conns.Keys == s.conns.Keys
  {
    hide Inv, Announce, Scan, Admissible;
    if Scan(s.servers, iface.name).None? {
      var s0 := s.(next := s.next.(server := s.next.server + 1));
      var e := Server(PartyId(cfg.ext, s.next.server), NO_PARTY, iface, grpid, cfg.isLocalService(iface.name));
      NumberTaken(cfg, s, s0);
      FreshAdmissible(cfg, s, s0, e);
      AnnounceInv(cfg, s0, c, e);
    }
  }

  lemma NumberTaken(cfg: Config, s: State, s0: State)
    requires Inv(cfg, s) && s0 == s.(next := s.next.(server := s.next.server + 1))
    ensures Inv(cfg, s0)
  {
    hide Core, NoLostWakeup, Descending, DistinctIds;
    PlainKeepsCore(s, s0);
    hide Backed;
    assert forall id :: Registered(s0, id) <==> Registered(s, id);
    hide Registered;
  }

  lemma FreshAdmissible(cfg: Config, s: State, s0: State, e: Server)
    requires Inv(cfg, s) && s0 == s.(next := s.next.(server := s.next.server + 1))
    requires e.id == PartyId(cfg.ext, s.next.server) && Scan(s.servers, e.iface.name).None?
    ensures Admissible(cfg, s0, e)
  {
    hide Core, NoLostWakeup, WatchersSound, ClientsOk, Descending, DistinctIds, Scan;
  }

  lemma {:induction false} AddAllInv(cfg: Config, s: State, c: nat, ifaces: seq<Iface>)
    requires Inv(cfg, s) && c in s.conns
    ensures Inv(cfg, AddAll(cfg, s, c, ifaces))
    decreases |ifaces|
  {
    hide Inv, AddInterface;
    if ifaces != [] {
      AddInterfaceInv(cfg, s, c, ifaces[0], ANYBODY);
      AddAllInv(cfg, AddInterface(cfg, s, c, ifaces[0], ANYBODY), c, ifaces[1..]);
    }
  }

  lemma AddRemoteInv(cfg: Config, s: State, c: nat, d: Remote)
    requires Inv(cfg, s) && c in s.conns
    ensures Inv(cfg, AddRemote(cfg, s, c, d))
    ensures AddRemote(cfg, s, c, d).conns.Keys == s.conns.Keys
  {
    var e := Server(RemoteId(c, d.id), NO_PARTY, d.iface, ANYBODY, false);
    TakesIff(cfg, s, c, d);
    if Takes(cfg, Names(s), d) {
      assert c > 0;
      assert Admissible(cfg, s, e);
      hide Inv, Announce, Scan, Checked;
      AnnounceInv(cfg, s, c, e);
    }
  }

  /** A slave's server is announced exactly when it passes the checks. */
  lemma TakesIff(cfg: Config, s: State, c: nat, d: Remote)
    requires c in s.conns
    ensures AddRemote(cfg, s, c, d)
         == if Takes(cfg, Names(s), d) then Announce(cfg, s, c, Server(RemoteId(c, d.id), NO_PARTY, d.iface, ANYBODY, false)) else s
    ensures d.iface.name !in Names(s) <==> Scan(s.servers, d.iface.name).None?
  {
    hide Announce, Checked;
    var e := Scan(s.servers, d.iface.name);
    if e.Some? { assert e.value in s.servers && e.value.iface.name in Names(s); }
  }

  lemma {:induction false} AddRemotesInv(cfg: Config, s: State, c: nat, ds: seq<Remote>)
    requires Inv(cfg, s) && c in s.conns
    ensures Inv(cfg, AddRemotes(cfg, s, c, ds))
    decreases |ds|
  {
    hide Inv, AddRemote;
    if ds != [] {
      AddRemoteInv(cfg, s, c, ds[0]);
      AddRemotesInv(cfg, AddRemote(cfg, s, c, ds[0]), c, ds[1..]);
    }
  }

  // ---------------------------------------------------------------- unregistering

  lemma {:induction false} KeptClients(l: seq<Client>, server: PartyId)
    ensures forall x :: x in RemoveServerClients(l, server) <==> x in l && x.server != server
  {
    if l != [] { KeptClients(l[1..], server); }
  }

  ghost predicate DistinctClients(l: seq<Client>) {
    forall i, j :: 0 <= i < j < |l| ==> l[i].id != l[j].id
  }

  lemma {:induction false} KeptDistinct(l: seq<Client>, server: PartyId)
    requires DistinctClients(l)
    ensures DistinctClients(RemoveServerClients(l, server))
  {
    if l != [] {
      KeptDistinct(l[1..], server);
      KeptClients(l[1..], server);
      var r := RemoveServerClients(l[1..], server);
      assert forall j :: 0 <= j < |r| ==> r[j] in l[1..];
    }
  }

  /** One entry leaves, and no other ID does; it is the only one with its ID if IDs are distinct. */
  ghost predicate Leaving(l: seq<Server>, l': seq<Server>, gone: seq<PartyId>) {
    && (forall x :: x in l' ==> x in l)
    && (forall x :: x in l && x.id !in gone ==> x in l')
    && (DistinctIds(l) ==> DistinctIds(l') && forall x :: x in l' ==> x.id !in gone)
  }

  /** The tables without a server: its clients are gone with it. */
  lemma RetireParts(s: State, e: Server)
    requires Descending(s.servers)
    ensures var s' := Retire(s, e);
            && s' == s.(servers := s'.servers, clients := s'.clients, link := s'.link)
            && s'.link == s.link.(outstanding := s'.link.outstanding)
            && AllCookies(s'.link.outstanding) == AllCookies(s.link.outstanding)
            && Descending(s'.servers) && Leaving(s.servers, s'.servers, [e.id])
            && (forall x :: x in s'.clients <==> x in s.clients && x.server != e.id)
            && (DistinctClients(s.clients) ==> DistinctClients(s'.clients))
  {
    hide AllCookies, Removed, RemoveServerClients;
    PushPlain(s.link.outstanding, UnregisterJob(e.masterId));
    RemovedMembers(s.servers, e.id);
    RemoveKeepsOrder(s.servers, e.id);
    KeptClients(s.clients, e.id);
    if DistinctClients(s.clients) { KeptDistinct(s.clients, e.id); }
  }

  lemma LeavingRegistered(s: State, s': State, gone: seq<PartyId>, id: PartyId)
    requires Leaving(s.servers, s'.servers, gone)
    ensures Registered(s', id) ==> Registered(s, id)
    ensures Registered(s, id) && id !in gone ==> Registered(s', id)
    ensures DistinctIds(s.servers) && id in gone ==> !Registered(s', id)
  {
    if Registered(s, id) && id !in gone {
      var x :| x in s.servers && x.id == id;
      assert x in s'.servers;
    }
  }

  /** One entry with the ID `gone` leaves the table, and all its clients. */
  lemma RetireTables(cfg: Config, s: State, s': State, gone: PartyId)
    requires Tables(cfg, s)
    requires Leaving(s.servers, s'.servers, [gone])
    requires forall x :: x in s'.clients <==> x in s.clients && x.server != gone
    requires Descending(s'.servers) && DistinctClients(s'.clients)
    requires s'.conns.Keys == s.conns.Keys && s'.next == s.next
    requires forall d :: d in s.conns ==> s'.conns[d].clients == s.conns[d].clients
    ensures Tables(cfg, s')
  {
    forall id | id != gone && Registered(s, id) ensures Registered(s', id) { LeavingRegistered(s, s', [gone], id); }
    hide Descending, DistinctIds, DistinctClients;
    assert ServersOk(cfg, s');
    assert DistinctClients(s'.clients);
    assert ClientsOk(s') by {
      hide Registered, ServersOk, Leaving;
      forall x | x in s'.clients ensures ClientOk(s', x) { assert ClientOk(s, x); }
      ClientsDistinct(s');
    }
  }

  lemma ClientsDistinct(s: State)
    requires DistinctClients(s.clients) && forall x :: x in s.clients ==> ClientOk(s, x)
    ensures ClientsOk(s)
  {
  }

  lemma RetireWatch(cfg: Config, s: State, s': State, gone: PartyId)
    requires WatchersSound(cfg, s, []) && s'.pools == s.pools && s'.lists.disconnect == s.lists.disconnect
    requires Leaving(s.servers, s'.servers, [gone])
    ensures WatchersSound(cfg, s', [gone])
  {
    forall id | id != gone && Registered(s, id) ensures Registered(s', id) { LeavingRegistered(s, s', [gone], id); }
    hide Registered, Leaving;
  }

  lemma PartyGone(cfg: Config, s: State, going: seq<PartyId>, r: Rule)
    requires ListsOk(s) && WatchersSound(cfg, s, going) && Settled(cfg, s, Disconnect, r, 0)
    requires r == ByParties(going) || (r.ByParty? && going == [r.id])
    ensures WatchersSound(cfg, s, [])
  {
    forall n | n in s.lists.disconnect ensures n.party !in going {
      assert n in L(s, Disconnect) && Listed(s, Disconnect, n);
      var j :| 0 <= j < |L(s, Disconnect)| && L(s, Disconnect)[j] == n;
      assert Act(cfg, s, r, n) == Keep;
    }
  }

  lemma RetireWake(s: State, s': State)
    requires NoLostWakeup(s.servers, s.lists.available) && s'.lists.available == s.lists.available
    requires forall x :: x in s'.servers ==> x in s.servers
    ensures NoLostWakeup(s'.servers, s'.lists.available)
  {
  }

  /** The connection forgets the server before anything else happens. */
  lemma DisownKeeps(cfg: Config, s: State, c: nat, id: PartyId, s1: State)
    requires Inv(cfg, s) && c in s.conns
    requires s1 == s.(conns := s.conns[c := s.conns[c].(servers := SetRemove(s.conns[c].servers, id))])
    ensures Core(s1) && NoLostWakeup(s1.servers, s1.lists.available) && WatchersSound(cfg, s1, [])
  {
    hide Core, SetRemove, NoLostWakeup, WatchersSound, ServersOk, ClientsOk;
    PlainKeepsCore(s, s1);
    assert SameServers(s.servers, s1.servers);
    SameWatch(cfg, s, s1, []);
  }

  lemma DisownConns(s: State, c: nat, id: PartyId, s1: State, conns': map<nat, Conn>)
    requires c in s.conns
    requires s1 == s.(conns := s.conns[c := s.conns[c].(servers := SetRemove(s.conns[c].servers, id))])
    requires ConnsShrink(s1.conns, conns')
    ensures conns'.Keys == s.conns.Keys
    ensures forall d :: d in s.conns ==> conns'[d].clients == s.conns[d].clients
    ensures forall d, x :: d in s.conns ==> (x in conns'[d].servers <==> x in s.conns[d].servers && (d == c ==> x != id))
  {
    SetMembers(s.conns[c].servers, id);
    hide SetRemove;
    forall d | d in s.conns ensures conns'[d].clients == s.conns[d].clients && conns'[d].servers == s1.conns[d].servers {
      assert d in s1.conns;
    }
  }

  /** No server has the ID and no client is attached to it. */
  ghost predicate Gone(s: State, id: PartyId) {
    (forall e :: e in s.servers ==> e.id != id) && (forall x :: x in s.clients ==> x.server != id)
  }

  /** Unregistering keeps the invariant. The clients of that ID are gone, and so is the server
      unless another one had the same ID. */
  lemma UnregisterInv(cfg: Config, s: State, c: nat, id: PartyId)
    requires Inv(cfg, s) && c in s.conns
    ensures Inv(cfg, Unregister(cfg, s, c, id))
    ensures id in s.conns[c].servers && Registered(s, id) ==>
              (forall x :: x in Unregister(cfg, s, c, id).clients ==> x.server != id)
              && (DistinctIds(s.servers) ==> Gone(Unregister(cfg, s, c, id), id))
  {
    if id in s.conns[c].servers {
      if ScanId(s.servers, id).Some? { UnregisterFound(cfg, s, c, id); } else { UnregisterMissing(cfg, s, c, id); }
    }
  }

  lemma UnregisterMissing(cfg: Config, s: State, c: nat, id: PartyId)
    requires Inv(cfg, s) && c in s.conns && id in s.conns[c].servers && ScanId(s.servers, id).None?
    ensures Inv(cfg, Unregister(cfg, s, c, id)) && !Registered(s, id)
  {
    hide Core, SetRemove, NoLostWakeup, WatchersSound, ServersOk, ClientsOk;
    var s1 := s.(conns := s.conns[c := s.conns[c].(servers := SetRemove(s.conns[c].servers, id))]);
    DisownKeeps(cfg, s, c, id, s1);
    DisownTables(cfg, s, s1);
  }

  /** What a connection lists as its servers does not matter to the tables. */
  lemma DisownTables(cfg: Config, s: State, s1: State)
    requires Tables(cfg, s) && s1 == s.(conns := s1.conns) && s1.conns.Keys == s.conns.Keys
    requires forall d :: d in s.conns ==> s1.conns[d].clients == s.conns[d].clients
    ensures Tables(cfg, s1)
  {
    hide Descending;
    assert forall x :: Registered(s1, x) <==> Registered(s, x);
    hide Registered;
  }

  lemma UnregisterFound(cfg: Config, s: State, c: nat, id: PartyId)
    requires Inv(cfg, s) && c in s.conns && id in s.conns[c].servers && ScanId(s.servers, id).Some?
    ensures Inv(cfg, Unregister(cfg, s, c, id))
    ensures forall x :: x in Unregister(cfg, s, c, id).clients ==> x.server != id
    ensures DistinctIds(s.servers) ==> Gone(Unregister(cfg, s, c, id), id)
  {
    assert DistinctClients(s.clients) && Descending(s.servers);
    var e := ScanId(s.servers, id).value;
    hide Core, NoLostWakeup, WatchersSound, ServersOk, ClientsOk;
    hide SetRemove, ScanId, Settled, Sweep, Retire, TriggerAll, Descending, DistinctIds, DistinctClients;
    var s1 := s.(conns := s.conns[c := s.conns[c].(servers := SetRemove(s.conns[c].servers, id))]);
    var s2 := Sweep(cfg, s1, Disconnect, ByParty(id), 0);
    var s3 := Retire(s2, e);
    UnregisterHead(cfg, s, c, id, s1, s2);
    RetireParts(s2, e);
    assert DistinctIds(s.servers) ==> Gone(s3, id);
    assert forall x :: x in s3.servers ==> x in s2.servers;
    hide Leaving, Gone;
    UnregisterTail(cfg, s2, s3, id);
    RetireWake(s2, s3);
    RetireTables(cfg, s, s3, id);
    TriggerAllInv(cfg, s3, None);
    assert Unregister(cfg, s, c, id) == TriggerAll(cfg, s3, None);
    PulsesKeepTables(cfg, s3, None, id);
  }

  /** The connection disowns the server and everybody who watched it is pulsed. */
  lemma UnregisterHead(cfg: Config, s: State, c: nat, id: PartyId, s1: State, s2: State)
    requires Inv(cfg, s) && c in s.conns
    requires s1 == s.(conns := s.conns[c := s.conns[c].(servers := SetRemove(s.conns[c].servers, id))])
    requires s2 == Sweep(cfg, s1, Disconnect, ByParty(id), 0)
    ensures Core(s2) && WatchersSound(cfg, s2, []) && NoLostWakeup(s2.servers, s2.lists.available)
    ensures Settled(cfg, s2, Disconnect, ByParty(id), 0)
    ensures s2.servers == s.servers && s2.clients == s.clients && s2.next == s.next && s2.conns.Keys == s.conns.Keys
    ensures forall d :: d in s.conns ==> s2.conns[d].clients == s.conns[d].clients
    ensures forall d, x :: d in s.conns ==> (x in s2.conns[d].servers <==> x in s.conns[d].servers && (d == c ==> x != id))
  {
    DisownKeeps(cfg, s, c, id, s1);
    hide Inv, Core, NoLostWakeup, WatchersSound, SetRemove, Settled, Spared, Sweep, ConnsShrink, KeepsBacked;
    SweepKeeps(cfg, s1, Disconnect, ByParty(id), 0);
    ShrinkWatch(cfg, s1, s2, Disconnect, []);
    ShrinkWake(s1, s2, Disconnect);
    DisownConns(s, c, id, s1, s2.conns);
  }

  lemma PulsesKeepTables(cfg: Config, s: State, offer: Option<Iface>, id: PartyId)
    ensures var s' := TriggerAll(cfg, s, offer);
            s'.servers == s.servers && s'.clients == s.clients && (Gone(s', id) <==> Gone(s, id))
  {}

  lemma ClientsAreDistinct(s: State)
    requires ClientsOk(s)
    ensures DistinctClients(s.clients)
  {
  }

  lemma UnregisterTail(cfg: Config, s2: State, s3: State, id: PartyId)
    requires Core(s2) && WatchersSound(cfg, s2, []) && Settled(cfg, s2, Disconnect, ByParty(id), 0)
    requires s3 == s2.(servers := s3.servers, clients := s3.clients, link := s3.link)
    requires s3.link == s2.link.(outstanding := s3.link.outstanding)
    requires AllCookies(s3.link.outstanding) == AllCookies(s2.link.outstanding)
    requires Leaving(s2.servers, s3.servers, [id])
    ensures Core(s3) && WatchersSound(cfg, s3, [])
  {
    hide WatchersSound, Core, AllCookies, Leaving;
    PlainKeepsCore(s2, s3);
    RetireWatch(cfg, s2, s3, id);
    assert L(s3, Disconnect) == L(s2, Disconnect);
    forall j | 0 <= j < |L(s3, Disconnect)| ensures Act(cfg, s3, ByParty(id), L(s3, Disconnect)[j]) == Keep {
      assert Act(cfg, s2, ByParty(id), L(s2, Disconnect)[j]) == Keep;
    }
    assert ListsOk(s3) by { CoreLists(s3); }
    PartyGone(cfg, s3, [id], ByParty(id));
  }

  lemma CoreLists(s: State)
    requires Core(s)
    ensures ListsOk(s) && PoolsOk(s) && HostsOk(s)
  {
  }

  // ---------------------------------------------------------------- attaching and detaching

  /** The server table does not change. */
  lemma ServersSame(cfg: Config, s: State, s': State)
    requires ServersOk(cfg, s) && s'.servers == s.servers && s'.next.server == s.next.server && s'.conns.Keys == s.conns.Keys
    ensures ServersOk(cfg, s')
  {
  }

  lemma AddClientClients(cfg: Config, s: State, c: nat, server: PartyId)
    requires ClientsOk(s) && c in s.conns && Registered(s, server)
    ensures ClientsOk(AddClient(cfg, s, c, server))
  {
    var s' := AddClient(cfg, s, c, server);
    var id := PartyId(if cfg.treeMode then cfg.ext else server.ext, s.next.client);
    SetMembers(s.conns[c].clients, id);
    assert forall x :: Registered(s', x) <==> Registered(s, x);
    hide SetInsert, Registered;
    forall x | x in s'.clients ensures ClientOk(s', x) {
      if x in s.clients { assert ClientOk(s, x); }
    }
    forall i, j | 0 <= i < j < |s'.clients| ensures s'.clients[i].id != s'.clients[j].id {
      assert s.clients[i] in s.clients;
      assert ClientOk(s, s.clients[i]);
    }
  }

  lemma AddClientInv(cfg: Config, s: State, c: nat, server: PartyId)
    requires Inv(cfg, s) && c in s.conns && Registered(s, server)
    ensures Inv(cfg, AddClient(cfg, s, c, server))
  {
    var s' := AddClient(cfg, s, c, server);
    hide Core, SetInsert, NoLostWakeup, WatchersSound, ServersOk, ClientsOk, Registered;
    PlainKeepsCore(s, s');
    AddClientClients(cfg, s, c, server);
    ServersSame(cfg, s, s');
    assert SameServers(s.servers, s'.servers);
    SameWatch(cfg, s, s', []);
  }

  lemma AttachInv(cfg: Config, s: State, c: nat, iface: Iface)
    requires Inv(cfg, s) && c in s.conns
    ensures Inv(cfg, Attach(cfg, s, c, iface))
  {
    var e := ScanVersion(s.servers, iface);
    if e.Some? { assert Registered(s, e.value.id); }
    hide Inv, ScanVersion, Registered, AddClient, Push;
    if e.Some? { AddClientInv(cfg, s, c, e.value.id); }
    PushInv(cfg, s, AttachJob(c, iface));
  }

  /** Removing the one client with the ID. */
  lemma {:induction false} RemovedClient(l: seq<Client>, id: PartyId)
    requires DistinctClients(l)
    ensures forall x :: x in RemoveClient(l, id) <==> x in l && x.id != id
    ensures DistinctClients(RemoveClient(l, id))
  {
    if l != [] {
      var rest := l[1..];
      assert forall i :: 0 <= i < |rest| ==> rest[i] == l[i + 1];
      RemovedClient(rest, id);
      if l[0].id == id {
        forall x | x in rest ensures x.id != id {
          var i :| 0 <= i < |rest| && rest[i] == x;
        }
      } else {
        var r := RemoveClient(rest, id);
        forall i | 0 <= i < |r| ensures r[i].id != l[0].id {
          assert r[i] in rest;
          var j :| 0 <= j < |rest| && rest[j] == r[i];
        }
      }
    }
  }

  lemma {:induction false} ClientAtNone(l: seq<Client>, id: PartyId)
    ensures ClientAt(l, id) < 0 <==> forall x :: x in l ==> x.id.local != id.local
  {
    if l != [] {
      ClientAtNone(l[1..], id);
      assert l == [l[0]] + l[1..];
    }
  }

  /** A client leaves the table and its connection's list. */
  lemma DetachTables(s: State, s': State, id: PartyId)
    requires ClientsOk(s) && s'.servers == s.servers && s'.next == s.next && s'.conns.Keys == s.conns.Keys
    requires forall x :: x in s'.clients ==> x in s.clients && x.id != id
    requires DistinctClients(s'.clients)
    requires forall d, x :: d in s.conns && x in s.conns[d].clients && x != id ==> x in s'.conns[d].clients
    ensures ClientsOk(s')
  {
    assert forall x :: Registered(s', x) <==> Registered(s, x);
    hide Registered;
    forall x | x in s'.clients ensures ClientOk(s', x) { assert ClientOk(s, x); }
    ClientsDistinct(s');
  }

  lemma DropIdInv(cfg: Config, s: State, c: nat, id: PartyId)
    requires Inv(cfg, s) && c in s.conns && (id !in s.conns[c].clients || forall x :: x in s.clients ==> x.id != id)
    ensures Inv(cfg, DropClientId(s, c, id))
  {
    var s' := DropClientId(s, c, id);
    SetMembers(s.conns[c].clients, id);
    hide Core, SetRemove, NoLostWakeup, WatchersSound, ServersOk;
    PlainKeepsCore(s, s');
    ServersSame(cfg, s, s');
    assert SameServers(s.servers, s'.servers);
    SameWatch(cfg, s, s', []);
    assert forall x :: Registered(s', x) <==> Registered(s, x);
    hide Registered;
    assert ClientsOk(s') by {
      forall x | x in s'.clients ensures ClientOk(s', x) { assert ClientOk(s, x); }
    }
  }

  lemma DetachFoundInv(cfg: Config, s: State, c: nat, id: PartyId, s1: State, s': State)
    requires Inv(cfg, s) && c in s.conns && s1 == Sweep(cfg, s, Detach, ByParty(id), 0) && c in s1.conns
    requires s' == DropClientId(s1.(clients := RemoveClient(s1.clients, id)), c, id)
    ensures Inv(cfg, s')
  {
    ClientsAreDistinct(s);
    RemovedClient(s.clients, id);
    hide Core, NoLostWakeup, WatchersSound, ServersOk, ClientsOk, Settled, Spared, Sweep, RemoveClient, KeepsBacked, DistinctClients;
    SweepKeeps(cfg, s, Detach, ByParty(id), 0);
    ShrinkWake(s, s1, Detach);
    ShrinkWatch(cfg, s, s1, Detach, []);
    DetachConns(s.conns, s1.conns, c, id);
    assert s1.servers == s.servers && s1.clients == s.clients && s1.next == s.next;
    hide Shrinks, SetRemove, ConnsShrink;
    DetachCore(s1, s', c, id);
    ServersSame(cfg, s, s');
    DetachTables(s, s', id);
    assert SameServers(s1.servers, s'.servers);
    SameKeepsBacked(s1, s');
    SameWatch(cfg, s1, s', []);
  }

  lemma SameKeepsBacked(s: State, s': State)
    requires s'.pools == s.pools
    ensures KeepsBacked(s, s')
  {
  }

  lemma DetachCore(s1: State, s': State, c: nat, id: PartyId)
    requires Core(s1) && c in s1.conns && s' == DropClientId(s1.(clients := s'.clients), c, id)
    ensures Core(s')
  {
    hide Core, SetRemove;
    PlainKeepsCore(s1, s');
  }

  lemma DetachConns(conns: map<nat, Conn>, conns1: map<nat, Conn>, c: nat, id: PartyId)
    requires ConnsShrink(conns, conns1) && c in conns
    ensures var conns' := conns1[c := conns1[c].(clients := SetRemove(conns1[c].clients, id))];
            && conns'.Keys == conns.Keys
            && (forall d :: d in conns ==> conns'[d].servers == conns[d].servers)
            && (forall d, x :: d in conns && x in conns[d].clients && x != id ==> x in conns'[d].clients)
  {
    SetMembers(conns1[c].clients, id);
  }

  lemma SweepConns(cfg: Config, s: State, k: Kind, r: Rule)
    requires Inv(cfg, s) && (r.ByOffer? ==> k == Available)
    ensures Sweep(cfg, s, k, r, 0).conns.Keys == s.conns.Keys
  {
    hide Core, NoLostWakeup, WatchersSound, ServersOk, ClientsOk, Sweep, Settled, Spared, KeepsBacked;
    SweepKeeps(cfg, s, k, r, 0);
  }

  lemma ClientKnown(s: State, id: PartyId)
    requires ClientsOk(s) && ClientAt(s.clients, id) < 0
    ensures forall x :: x in s.clients ==> x.id != id
  {
    ClientAtNone(s.clients, id);
  }

  lemma DetachedGone(cfg: Config, s: State, c: nat, id: PartyId)
    requires Inv(cfg, s) && c in s.conns && id in s.conns[c].clients
    ensures forall x :: x in DetachClient(cfg, s, c, id).clients ==> x.id != id
  {
    ClientsAreDistinct(s);
    RemovedClient(s.clients, id);
    ClientAtNone(s.clients, id);
    hide Core, NoLostWakeup, WatchersSound, ServersOk, ClientsOk, Settled, Spared, Sweep, RemoveClient, KeepsBacked, DistinctClients, ClientAt, SetRemove;
    SweepKeeps(cfg, s, Detach, ByParty(id), 0);
  }

  lemma DetachInv(cfg: Config, s: State, c: nat, id: PartyId)
    requires Inv(cfg, s) && c in s.conns
    ensures Inv(cfg, DetachClient(cfg, s, c, id))
    ensures id in s.conns[c].clients ==> forall x :: x in DetachClient(cfg, s, c, id).clients ==> x.id != id
  {
    if id in s.conns[c].clients { DetachedGone(cfg, s, c, id); }
    if id in s.conns[c].clients && ClientAt(s.clients, id) >= 0 {
      hide Inv, Sweep, RemoveClient, ClientAt;
      SweepConns(cfg, s, Detach, ByParty(id));
      DetachFoundInv(cfg, s, c, id, Sweep(cfg, s, Detach, ByParty(id), 0), DetachClient(cfg, s, c, id));
    } else if s.link.connected {
      if id in s.conns[c].clients { ClientKnown(s, id); }
      hide Inv, ClientAt;
      PushInv(cfg, s, DetachJob(id));
      DropIdInv(cfg, Push(s, DetachJob(id)), c, id);
    }
  }

  // ---------------------------------------------------------------- registering notifications

  /** A new notification changes no table and leaves the other lists alone. */
  lemma AddRest(s: State, k: Kind, c: nat, n: Notification)
    requires c in s.conns
    ensures var s' := AddNotif(s, k, c, n);
            && SameOwners(s.conns, s'.conns) && s'.servers == s.servers && s'.clients == s.clients
            && s'.next == s.next.(notif := s.next.notif + 1) && s'.pools == s.pools && s'.link == s.link
            && L(s', k) == [n.(id := s.next.notif + 1)] + L(s, k)
            && (forall k' :: k' != k ==> L(s', k') == L(s, k'))
  {
  }

  lemma AddTables(cfg: Config, s: State, k: Kind, c: nat, n: Notification)
    requires Tables(cfg, s) && c in s.conns
    ensures Tables(cfg, AddNotif(s, k, c, n))
  {
    hide Tables;
    AddRest(s, k, c, n);
    hide AddNotif;
    assert SameServers(s.servers, AddNotif(s, k, c, n).servers);
    SameTables(cfg, s, AddNotif(s, k, c, n));
  }

  lemma AddWatch(cfg: Config, s: State, k: Kind, c: nat, n: Notification)
    requires WatchersSound(cfg, s, []) && c in s.conns
    ensures WatchersSound(cfg, AddNotif(s, k, c, n), if k == Disconnect then [n.party] else [])
    ensures Registered(s, n.party) ==> WatchersSound(cfg, AddNotif(s, k, c, n), [])
  {
    var s' := AddNotif(s, k, c, n);
    AddRest(s, k, c, n);
    hide AddNotif;
    assert forall x :: Registered(s', x) <==> Registered(s, x);
    hide Registered;
    assert s'.lists.disconnect == L(s', Disconnect) && s.lists.disconnect == L(s, Disconnect);
    forall m | m in s'.lists.disconnect ensures m in s.lists.disconnect || (k == Disconnect && m.party == n.party) {
    }
  }

  lemma AddWake(s: State, k: Kind, c: nat, n: Notification)
    requires NoLostWakeup(s.servers, s.lists.available) && c in s.conns
    requires k == Available ==> forall e :: e in s.servers ==> !Accepts(n.iface, e.iface)
    ensures NoLostWakeup(AddNotif(s, k, c, n).servers, AddNotif(s, k, c, n).lists.available)
  {
    var s' := AddNotif(s, k, c, n);
    AddRest(s, k, c, n);
    hide AddNotif;
    assert s'.lists.available == L(s', Available) && s.lists.available == L(s, Available);
    assert forall m :: m in s'.lists.available ==> m in s.lists.available || (k == Available && m.iface == n.iface);
  }

  lemma SkipInv(cfg: Config, s: State)
    requires Inv(cfg, s)
    ensures Inv(cfg, Skip(s))
  {
    var s' := Skip(s);
    hide NoLostWakeup, WatchersSound, ServersOk, ClientsOk;
    assert Core(s') by {
      hide ListsOk, BookOk, PoolsOk;
      SameListed(s, s');
      SameBook(s, s');
      SamePools(s, s');
    }
    hide Core;
    RestInv(cfg, s, s');
  }

  lemma NotifyDisconnectInv(cfg: Config, s: State, c: nat, id: PartyId, reached: bool)
    requires Inv(cfg, s) && c in s.conns
    ensures Inv(cfg, NotifyDisconnect(cfg, s, c, id, reached))
  {
    if s.conns[c].slave && !reached {
      hide Inv;
      SkipInv(cfg, s);
    } else {
      var n := BLANK.(host := Some(c), party := id);
      var s1 := AddNotif(s, Disconnect, c, n);
      assert ScanId(s.servers, id).Some? ==> Registered(s, id);
      hide Core, NoLostWakeup, WatchersSound, ServersOk, ClientsOk, Registered, ScanId;
      AddKeepsCore(s, Disconnect, c, n);
      AddTables(cfg, s, Disconnect, c, n);
      AddWatch(cfg, s, Disconnect, c, n);
      AddWake(s, Disconnect, c, n);
      AddRest(s, Disconnect, c, n);
      assert L(s1, Disconnect) == s1.lists.disconnect;
      hide AddNotif;
      if ScanId(s.servers, id).None? {
        if id.ext != cfg.ext && s.link.connected {
          JoinInv(cfg, s1, id);
        } else {
          WatchMissingInv(cfg, s1, id);
        }
      }
    }
  }

  /** A watcher of a foreign server joins a pool. */
  lemma JoinInv(cfg: Config, s: State, id: PartyId)
    requires Core(s) && Tables(cfg, s) && NoLostWakeup(s.servers, s.lists.available) && WatchersSound(cfg, s, [id])
    requires s.lists.disconnect != [] && s.lists.disconnect[0].poolId == 0 && s.lists.disconnect[0].party == id
    requires id.ext != cfg.ext && forall m :: m in s.lists.disconnect[1..] && m.party == id ==> WatchedOk(cfg, s, m)
    ensures Inv(cfg, JoinPool(s, id))
  {
    var s' := JoinPool(s, id);
    JoinFrame(s, id);
    hide Core, JoinPool, NoLostWakeup, ServersOk, ClientsOk;
    JoinKeepsCore(s, id);
    assert SameServers(s.servers, s'.servers);
    SameTables(cfg, s, s');
    assert forall x :: Registered(s', x) <==> Registered(s, x);
    assert WatchersSound(cfg, s', []) by {
      forall m | m in s'.lists.disconnect ensures WatchedOk(cfg, s', m) {
        JoinBacked(s, id, m);
      }
    }
  }

  ghost predicate WatchedOk(cfg: Config, s: State, m: Notification) {
    Registered(s, m.party) || (m.party.ext != cfg.ext && Backed(s.pools, m))
  }

  lemma JoinFrame(s: State, id: PartyId)
    requires s.lists.disconnect != []
    ensures var s' := JoinPool(s, id);
            && s'.servers == s.servers && s'.clients == s.clients && s'.conns == s.conns
            && s'.lists.available == s.lists.available
            && s'.next == s.next.(pool := s'.next.pool)
  {
    hide TargetAt;
  }

  /** A watcher of a server that is not there is pulsed at once. */
  lemma WatchMissingInv(cfg: Config, s: State, id: PartyId)
    requires Core(s) && Tables(cfg, s) && NoLostWakeup(s.servers, s.lists.available) && WatchersSound(cfg, s, [id])
    ensures Inv(cfg, Sweep(cfg, s, Disconnect, ByParty(id), 0))
  {
    hide Core, NoLostWakeup, WatchersSound, ServersOk, ClientsOk, Sweep, Settled, Spared, Shrinks;
    var s' := Sweep(cfg, s, Disconnect, ByParty(id), 0);
    SweepKeeps(cfg, s, Disconnect, ByParty(id), 0);
    ShrinkTables(cfg, s, s', Disconnect);
    ShrinkWake(s, s', Disconnect);
    ShrinkWatch(cfg, s, s', Disconnect, [id]);
    assert ListsOk(s') by { CoreLists(s'); }
    PartyGone(cfg, s', [id], ByParty(id));
  }
}
