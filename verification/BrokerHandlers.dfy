/** From the parts to the whole invariant: what leaves the tables alone keeps
    what the invariant says about them, and a pass over a list keeps all of it.
    The handlers that open a connection, mark a slave, forward servers or forward
    notifications follow at once. */
module BrokerHandlers {
  import opened BrokerTypes
  import opened ServerTable
  import opened BrokerSpec
  import opened BrokerInv
  import opened BrokerSweep
  import opened BrokerMoves
  import opened BrokerPools

  // ---------------------------------------------------------------- tables

  ghost predicate Tables(cfg: Config, s: State) {
    ServersOk(cfg, s) && ClientsOk(s)
  }

  /** Connections agree on the servers and clients they own. */
  ghost predicate SameOwners(conns: map<nat, Conn>, conns': map<nat, Conn>) {
    && conns'.Keys == conns.Keys
    && forall c :: c in conns ==> conns'[c].servers == conns[c].servers && conns'[c].clients == conns[c].clients
  }

  /** Servers agree on everything but their ID at the master. */
  ghost predicate SameServers(l: seq<Server>, l': seq<Server>) {
    |l'| == |l| && forall i :: 0 <= i < |l| ==> l'[i] == l[i].(masterId := l'[i].masterId)
  }

  lemma SameRegistered(s: State, s': State, id: PartyId)
    requires SameServers(s.servers, s'.servers)
    ensures Registered(s, id) <==> Registered(s', id)
  {
    if Registered(s, id) {
      var e :| e in s.servers && e.id == id;
      var i :| 0 <= i < |s.servers| && s.servers[i] == e;
      assert s'.servers[i] in s'.servers;
    }
    if Registered(s', id) {
      var e :| e in s'.servers && e.id == id;
      var i :| 0 <= i < |s'.servers| && s'.servers[i] == e;
      assert s.servers[i] in s.servers;
    }
  }

  lemma SameTables(cfg: Config, s: State, s': State)
    requires Tables(cfg, s) && SameServers(s.servers, s'.servers) && SameOwners(s.conns, s'.conns)
    requires s'.clients == s.clients && s'.next.server == s.next.server && s'.next.client == s.next.client
    ensures Tables(cfg, s')
  {
    assert ServersOk(cfg, s');
    forall id ensures Registered(s, id) <==> Registered(s', id) { SameRegistered(s, s', id); }
    hide Registered;
  }

  lemma SameWake(l: seq<Server>, l': seq<Server>, a: seq<Notification>)
    requires NoLostWakeup(l, a) && SameServers(l, l')
    ensures NoLostWakeup(l', a)
  {
    forall n, e | n in a && n.active && e in l' ensures !Accepts(n.iface, e.iface) {
      var i :| 0 <= i < |l'| && l'[i] == e;
      assert l[i] in l;
    }
  }

  lemma SameWatch(cfg: Config, s: State, s': State, going: seq<PartyId>)
    requires WatchersSound(cfg, s, going) && SameServers(s.servers, s'.servers)
    requires s'.lists.disconnect == s.lists.disconnect && KeepsBacked(s, s')
    ensures WatchersSound(cfg, s', going)
  {
    forall n | n in s'.lists.disconnect
      ensures Registered(s', n.party) || n.party in going || (n.party.ext != cfg.ext && Backed(s'.pools, n))
    {
      SameRegistered(s, s', n.party);
    }
  }

  // ---------------------------------------------------------------- sweeps

  lemma ShrinkWake(s: State, s': State, k: Kind)
    requires NoLostWakeup(s.servers, s.lists.available) && Shrinks(s, s', k)
    ensures NoLostWakeup(s'.servers, s'.lists.available)
  {
    forall n | n in s'.lists.available && n.active ensures n in s.lists.available {
      assert n in L(s', Available);
      assert k == Available ==> From(L(s, Available), n);
    }
  }

  lemma ShrinkWatch(cfg: Config, s: State, s': State, k: Kind, going: seq<PartyId>)
    requires WatchersSound(cfg, s, going) && Shrinks(s, s', k)
    ensures WatchersSound(cfg, s', going)
  {
    forall n | n in s'.lists.disconnect
      ensures Registered(s', n.party) || n.party in going || (n.party.ext != cfg.ext && Backed(s'.pools, n))
    {
      assert n in L(s', Disconnect);
      assert From(L(s, Disconnect), n);
      var m := if n in s.lists.disconnect then n else n.(active := true);
      assert m in s.lists.disconnect;
      assert Backed(s.pools, m) ==> Backed(s.pools, n);
      assert Registered(s, m.party) ==> Registered(s', n.party);
    }
  }

  lemma ShrinkTables(cfg: Config, s: State, s': State, k: Kind)
    requires Tables(cfg, s) && Shrinks(s, s', k)
    ensures Tables(cfg, s')
  {
    assert SameOwners(s.conns, s'.conns) && SameServers(s.servers, s'.servers);
    hide Shrinks, Tables;
    assert Frame(s, s');
    SameTables(cfg, s, s');
  }

  /** A sweep keeps the whole invariant. */
  lemma SweepInv(cfg: Config, s: State, k: Kind, r: Rule)
    requires Inv(cfg, s) && (r.ByOffer? ==> k == Available)
    ensures Inv(cfg, Sweep(cfg, s, k, r, 0))
  {
    hide Core, NoLostWakeup, WatchersSound, ServersOk, ClientsOk, Shrinks, Sweep, Settled, Spared;
    var s' := Sweep(cfg, s, k, r, 0);
    SweepKeeps(cfg, s, k, r, 0);
    ShrinkWake(s, s', k);
    ShrinkWatch(cfg, s, s', k, []);
    ShrinkTables(cfg, s, s', k);
  }

  // ---------------------------------------------------------------- quiet steps

  ghost predicate SameRest(s: State, s': State) {
    && SameServers(s.servers, s'.servers) && SameOwners(s.conns, s'.conns)
    && s'.clients == s.clients && s'.next.server == s.next.server && s'.next.client == s.next.client
    && s'.lists.disconnect == s.lists.disconnect && s'.lists.available == s.lists.available
    && KeepsBacked(s, s')
  }

  lemma RestInv(cfg: Config, s: State, s': State)
    requires Inv(cfg, s) && Core(s') && SameRest(s, s')
    ensures Inv(cfg, s')
  {
    hide Core, NoLostWakeup, WatchersSound, ServersOk, ClientsOk, SameServers, SameOwners, KeepsBacked;
    SameTables(cfg, s, s');
    SameWake(s.servers, s'.servers, s'.lists.available);
    SameWatch(cfg, s, s', []);
  }

  lemma TriggerAllInv(cfg: Config, s: State, offer: Option<Iface>)
    requires Inv(cfg, s)
    ensures Inv(cfg, TriggerAll(cfg, s, offer))
  {
    hide Core;
    TriggerAllKeepsCore(cfg, s, offer);
    RestInv(cfg, s, TriggerAll(cfg, s, offer));
  }

  lemma PushInv(cfg: Config, s: State, j: Job)
    requires Inv(cfg, s) && Cookies(j) == []
    ensures Inv(cfg, Push(s, j))
  {
    PushPlain(s.link.outstanding, j);
    hide Core;
    PlainKeepsCore(s, Push(s, j));
    RestInv(cfg, s, Push(s, j));
  }

  lemma RegisterMasterPlain(cfg: Config, s: State)
    requires s.link.connected
    ensures var s' := RegisterMaster(cfg, s);
            && s' == s.(servers := MarkPending(cfg, s.servers), link := s.link.(outstanding := s'.link.outstanding))
            && AllCookies(s'.link.outstanding) == AllCookies(s.link.outstanding)
  {
    hide MarkPending, AllCookies, RegisterJobs, Chunks;
    var batches := Chunks(Unforwarded(cfg, s.servers));
    RegisterCookies(batches);
    CookiesAppend(s.link.outstanding, RegisterJobs(batches));
    assert AllCookies(s.link.outstanding) + [] == AllCookies(s.link.outstanding);
  }

  lemma RegisterMasterInv(cfg: Config, s: State)
    requires Inv(cfg, s)
    ensures Inv(cfg, RegisterMaster(cfg, s))
  {
    if s.link.connected {
      hide Core, AllCookies, RegisterMaster, NoLostWakeup, WatchersSound, ServersOk, ClientsOk;
      var s' := RegisterMaster(cfg, s);
      RegisterMasterPlain(cfg, s);
      PlainKeepsCore(s, s');
      RestInv(cfg, s, s');
    }
  }

  lemma ForwardInv(cfg: Config, s: State)
    requires Inv(cfg, s)
    ensures Inv(cfg, ForwardAvailable(cfg, s))
  {
    hide Core;
    ForwardKeeps(cfg, s);
    hide ForwardAvailable;
    var s' := ForwardAvailable(cfg, s);
    assert NoLostWakeup(s'.servers, s'.lists.available) by {
      forall n, e | n in s'.lists.available && n.active && e in s'.servers ensures !Accepts(n.iface, e.iface) {
        var j :| 0 <= j < |s'.lists.available| && s'.lists.available[j] == n;
        assert s.lists.available[j] in s.lists.available;
      }
    }
    assert SameServers(s.servers, s'.servers) && SameOwners(s.conns, s'.conns);
    hide NoLostWakeup, WatchersSound, ServersOk, ClientsOk, KeepsBacked;
    SameTables(cfg, s, s');
    SameWatch(cfg, s, s', []);
  }

  // ---------------------------------------------------------------- connections

  lemma OpenCore(s: State, c: nat, conn: Conn)
    requires Core(s) && c !in s.conns && conn.notifs == []
    ensures Core(s.(conns := s.conns[c := conn]))
  {
    var s' := s.(conns := s.conns[c := conn]);
    assert forall k :: L(s', k) == L(s, k);
    assert ListsOk(s') by {
      forall k, n | n in L(s', k) ensures Listed(s', k, n) {
        assert n in L(s, k) && Listed(s, k, n);
      }
      forall k ensures NewestFirst(L(s', k)) {
        assert NewestFirst(L(s, k));
      }
    }
    hide ListsOk, BookOk, PoolsOk;
    SameBook(s, s');
    SamePools(s, s');
  }

  lemma OpenInv(cfg: Config, s: State, c: nat, conn: Conn)
    requires Inv(cfg, s) && c > 0 && c !in s.conns && conn.notifs == [] && conn.servers == [] && conn.clients == []
    ensures Inv(cfg, s.(conns := s.conns[c := conn]))
  {
    hide Core;
    OpenCore(s, c, conn);
    var s' := s.(conns := s.conns[c := conn]);
    assert WatchersSound(cfg, s', []) by {
      assert forall id :: Registered(s', id) <==> Registered(s, id);
    }
    assert ClientsOk(s') by {
      assert forall id :: Registered(s', id) <==> Registered(s, id);
    }
  }

  lemma MarkSlaveInv(cfg: Config, s: State, c: nat)
    requires Inv(cfg, s) && c in s.conns
    ensures Inv(cfg, s.(conns := s.conns[c := s.conns[c].(slave := true)]))
  {
    hide Core;
    var s' := s.(conns := s.conns[c := s.conns[c].(slave := true)]);
    PlainKeepsCore(s, s');
    RestInv(cfg, s, s');
  }
}
