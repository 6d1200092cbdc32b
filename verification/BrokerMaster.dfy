/** Pulses and job results from the master keep the invariant: the connected and
    disconnected pulses, the pulses for pools, clients and lists, and the answer
    to every kind of job, including those that arrive for something that no
    longer exists. */
module BrokerMaster {
  import opened BrokerTypes
  import opened ServerTable
  import opened BrokerSpec
  import opened BrokerInv
  import opened BrokerSweep
  import opened BrokerMoves
  import opened BrokerPools
  import opened BrokerHandlers
  import opened BrokerRequests
  import opened BrokerRest

  lemma MasterConnectedInv(cfg: Config, s: State)
    requires Inv(cfg, s)
    ensures Inv(cfg, MasterConnected(cfg, s))
  {
    var s1 := s.(link := s.link.(session := true, steady := s.link.connected, granted := {}, cleared := {}, lent := {}));
    hide Core, RegisterMaster, ForwardAvailable;
    LinkKeepsCore(s, s1);
    RestInv(cfg, s, s1);
    hide Inv;
    RegisterMasterInv(cfg, s1);
    ForwardInv(cfg, RegisterMaster(cfg, s1));
  }

  // ---------------------------------------------------------------- losing the master

  ghost function Orphaned(s: State): State {
    s.(servers := ClearMasterIds(s.servers), pools := [],
       link := s.link.(session := false, steady := false, granted := {}, cleared := {}, lent := {}))
  }

  lemma OrphanedCore(s: State)
    requires Core(s)
    ensures Core(Orphaned(s))
  {
    hide ListsOk, BookOk;
    SameListed(s, Orphaned(s));
    SameBook(s, Orphaned(s));
  }

  lemma OrphanedRest(cfg: Config, s: State)
    requires Inv(cfg, s)
    ensures Tables(cfg, Orphaned(s)) && NoLostWakeup(Orphaned(s).servers, s.lists.available)
    ensures forall n :: n in s.lists.disconnect ==> Registered(Orphaned(s), n.party) || n.party.ext != cfg.ext
  {
    hide Core;
    var s1 := Orphaned(s);
    assert SameServers(s.servers, s1.servers);
    SameTables(cfg, s, s1);
    SameWake(s.servers, s1.servers, s.lists.available);
    forall id ensures Registered(s, id) <==> Registered(s1, id) { SameRegistered(s, s1, id); }
    hide Registered, Orphaned;
  }

  /** Right after the loss of the master every remaining watcher watches a registered server. */
  ghost predicate AllRegistered(s: State) {
    forall n :: n in s.lists.disconnect ==> Registered(s, n.party)
  }

  lemma OrphanedSweep(cfg: Config, s1: State, s2: State)
    requires AllListed(s2) && Shrinks(s1, s2, Disconnect) && Settled(cfg, s2, Disconnect, Absent, 0)
    requires forall n :: n in s1.lists.disconnect ==> Registered(s1, n.party) || n.party.ext != cfg.ext
    ensures AllRegistered(s2)
  {
    hide KeepsBacked, ConnsShrink;
    forall n | n in s2.lists.disconnect ensures Registered(s2, n.party) {
      assert n in L(s2, Disconnect) && From(L(s1, Disconnect), n);
      assert Listed(s2, Disconnect, n);
      var j :| 0 <= j < |L(s2, Disconnect)| && L(s2, Disconnect)[j] == n;
      assert Act(cfg, s2, Absent, n) == Keep;
      var m := if n in s1.lists.disconnect then n else n.(active := true);
      assert m in s1.lists.disconnect && m.party == n.party;
      assert Registered(s1, n.party) ==> Registered(s2, n.party);
      if ScanId(s2.servers, n.party).Some? { assert ScanId(s2.servers, n.party).value in s2.servers; }
    }
  }

  lemma UnpooledCore(s: State)
    requires Core(s)
    ensures Core(s.(lists := s.lists.(available := ClearMasterNotification(s.lists.available))))
  {
    var s' := s.(lists := s.lists.(available := ClearMasterNotification(s.lists.available)));
    assert Relisting(s, Available, s') by { hide ListsOk, BookOk, HostsOk, PulsesOk, CookiesOk, NoLeak; }
    assert PoolsOk(s') by {
      hide ListsOk, BookOk, HostsOk, PulsesOk, CookiesOk, NoLeak;
      forall p | p in s'.pools ensures PoolOk(s', p) { assert PoolOk(s, p); }
    }
    hide ListsOk, BookOk, HostsOk, PulsesOk, PoolsOk, Relisting;
    RelistLists(s, Available, s');
    RelistBook(s, Available, s');
  }

  lemma MasterDisconnectedInv(cfg: Config, s: State)
    requires Inv(cfg, s)
    ensures Inv(cfg, MasterDisconnected(cfg, s)) && AllRegistered(MasterDisconnected(cfg, s))
  {
    hide Core, NoLostWakeup, WatchersSound, ServersOk, ClientsOk, Orphaned, Sweep, Shrinks, Settled, Spared, Registered;
    var s1 := Orphaned(s);
    var s2 := Sweep(cfg, s1, Disconnect, Absent, 0);
    var s3 := Sweep(cfg, s2, Detach, NotLocal, 0);
    var s4 := s3.(lists := s3.lists.(available := ClearMasterNotification(s3.lists.available)));
    OrphanedCore(s);
    OrphanedRest(cfg, s);
    assert s1.lists == s.lists by { OrphanedLists(s); }
    SweepKeeps(cfg, s1, Disconnect, Absent, 0);
    SweepKeeps(cfg, s2, Detach, NotLocal, 0);
    assert AllListed(s2) by { CoreLists(s2); }
    hide AllListed;
    OrphanedSweep(cfg, s1, s2);
    ShrinkTables(cfg, s1, s2, Disconnect);
    ShrinkTables(cfg, s2, s3, Detach);
    ShrinkWake(s1, s2, Disconnect);
    ShrinkWake(s2, s3, Detach);
    StillRegistered(s2, s3);
    UnpooledCore(s3);
    UnpooledRest(cfg, s3, s4);
    assert MasterDisconnected(cfg, s) == s4 by { OrphanedIs(cfg, s); }
  }

  lemma OrphanedLists(s: State)
    ensures Orphaned(s).lists == s.lists
  {
  }

  lemma OrphanedIs(cfg: Config, s: State)
    ensures MasterDisconnected(cfg, s) ==
            var s3 := Sweep(cfg, Sweep(cfg, Orphaned(s), Disconnect, Absent, 0), Detach, NotLocal, 0);
            s3.(lists := s3.lists.(available := ClearMasterNotification(s3.lists.available)))
  {
    hide Sweep;
  }

  lemma StillRegistered(s: State, s': State)
    requires AllRegistered(s) && Shrinks(s, s', Detach)
    ensures AllRegistered(s')
  {
    assert L(s', Disconnect) == L(s, Disconnect);
    assert forall x :: Registered(s', x) <==> Registered(s, x);
    hide Registered, KeepsBacked, ConnsShrink;
  }

  lemma UnpooledRest(cfg: Config, s: State, s': State)
    requires Core(s') && Tables(cfg, s) && NoLostWakeup(s.servers, s.lists.available) && AllRegistered(s)
    requires s' == s.(lists := s.lists.(available := ClearMasterNotification(s.lists.available)))
    ensures Inv(cfg, s') && AllRegistered(s')
  {
    hide Core;
    assert NoLostWakeup(s'.servers, s'.lists.available) by {
      forall n, e | n in s'.lists.available && n.active && e in s'.servers ensures !Accepts(n.iface, e.iface) {
        var j :| 0 <= j < |s'.lists.available| && s'.lists.available[j] == n;
        assert s.lists.available[j] in s.lists.available;
      }
    }
    hide NoLostWakeup;
    assert Tables(cfg, s') by {
      assert SameServers(s.servers, s'.servers);
      SameTables(cfg, s, s');
    }
    hide Tables;
    assert forall x :: Registered(s', x) <==> Registered(s, x);
  }

  lemma ClientDetachedInv(cfg: Config, s: State, id: nat)
    requires Inv(cfg, s)
    ensures Inv(cfg, ClientDetached(cfg, s, id))
  {
    hide Inv, NotifAt, Sweep, FireOne;
    var i := NotifAt(s.lists.detach, id, false);
    if i >= 0 {
      SweepInv(cfg, s, Detach, ByParty(s.lists.detach[i].party));
    } else {
      FireOneInv(cfg, s, Detach, id, true);
    }
  }

  // ---------------------------------------------------------------- answers

  /** The master's ID of a client is noted with its connection. */
  lemma NoteClientInv(cfg: Config, s: State, c: nat, id: PartyId)
    requires Inv(cfg, s) && c in s.conns
    ensures Inv(cfg, s.(conns := s.conns[c := s.conns[c].(clients := SetInsert(s.conns[c].clients, id))]))
  {
    var s' := s.(conns := s.conns[c := s.conns[c].(clients := SetInsert(s.conns[c].clients, id))]);
    SetMembers(s.conns[c].clients, id);
    hide Core, SetInsert, NoLostWakeup, WatchersSound, ServersOk;
    PlainKeepsCore(s, s');
    ServersSame(cfg, s, s');
    assert SameServers(s.servers, s'.servers);
    SameWatch(cfg, s, s', []);
    assert forall x :: Registered(s', x) <==> Registered(s, x);
    hide Registered;
    assert ClientsOk(s') by {
      forall x | x in s'.clients ensures ClientOk(s', x) { assert ClientOk(s, x); }
    }
  }

  lemma NoteServerIdInv(cfg: Config, s: State, id: PartyId)
    requires Inv(cfg, s)
    ensures Inv(cfg, NoteServerId(s, id))
  {
    hide PendingAt;
    var i := PendingAt(s.servers, id.local);
    if i < 0 {
      hide Inv;
      PushInv(cfg, s, UnregisterJob(id));
    } else {
      hide Core;
      var s' := NoteServerId(s, id);
      PlainKeepsCore(s, s');
      RestInv(cfg, s, s');
    }
  }

  lemma {:induction false} RegisteredAllInv(cfg: Config, s: State, ids: seq<PartyId>)
    requires Inv(cfg, s)
    ensures Inv(cfg, RegisteredAll(s, ids))
    decreases |ids|
  {
    hide Inv, NoteServerId;
    if ids != [] {
      NoteServerIdInv(cfg, s, ids[0]);
      RegisteredAllInv(cfg, NoteServerId(s, ids[0]), ids[1..]);
    }
  }

  /** Answers change pools, master IDs and the queue, but no table and no wanted interface. */
  lemma AnswerRest(s: State, s': State)
    requires s'.servers == s.servers && s'.conns == s.conns && s'.clients == s.clients && s'.next == s.next
    requires s'.lists.disconnect == s.lists.disconnect && s'.lists.available == s.lists.available
    requires |s'.pools| == |s.pools| && forall i :: 0 <= i < |s.pools| ==> s'.pools[i] == s.pools[i].(grant := s'.pools[i].grant)
    ensures SameRest(s, s')
  {
    forall m | m in s'.lists.disconnect && Backed(s.pools, m) ensures Backed(s'.pools, m) {
      var p :| p in s.pools && p.id == m.poolId && p.target.Monitor? && p.target.server.local == m.party.local;
      var i :| 0 <= i < |s.pools| && s.pools[i] == p;
      assert s'.pools[i] in s'.pools;
    }
  }

  ghost predicate Answering(s: State, s': State) {
    && s'.servers == s.servers && s'.conns == s.conns && s'.clients == s.clients && s'.next == s.next && s'.lists == s.lists
    && |s'.pools| == |s.pools| && forall i :: 0 <= i < |s.pools| ==> s'.pools[i] == s.pools[i].(grant := s'.pools[i].grant)
  }

  lemma {:induction false} GrantAllAnswers(s: State, items: seq<(nat, Iface)>, ids: seq<nat>)
    requires |items| <= |ids|
    ensures Answering(s, GrantAll(s, items, ids))
    decreases |items|
  {
    hide PoolAt;
    if items != [] {
      var s1 := if ids[0] == INVALID then s else Grant(s, items[0].0, ids[0], true);
      assert Answering(s, s1);
      hide Grant;
      GrantAllAnswers(s1, items[1..], ids[1..]);
    }
  }

  lemma PopInv(cfg: Config, s: State)
    requires Inv(cfg, s) && s.link.outstanding != []
    ensures var s1 := s.(link := s.link.(outstanding := s.link.outstanding[1..]));
            && Inv(cfg, s1) && Increasing(Cookies(s.link.outstanding[0]))
            && (forall x :: x in Cookies(s.link.outstanding[0]) ==> Unanswered(s1, x))
  {
    hide Core, Cookies, Unanswered, Increasing;
    PopKeepsCore(s);
    RestInv(cfg, s, s.(link := s.link.(outstanding := s.link.outstanding[1..])));
  }

  lemma GrantInv(cfg: Config, s: State, cookie: nat, id: nat, genuine: bool)
    requires Inv(cfg, s) && Unanswered(s, cookie) && (genuine ==> id != INVALID)
    ensures Inv(cfg, Grant(s, cookie, id, genuine))
  {
    hide Core, PoolAt, Unanswered;
    GrantKeepsCore(s, cookie, id, genuine);
    AnswerRest(s, Grant(s, cookie, id, genuine));
    RestInv(cfg, s, Grant(s, cookie, id, genuine));
  }

  lemma GrantAllInv(cfg: Config, s: State, items: seq<(nat, Iface)>, ids: seq<nat>)
    requires Inv(cfg, s) && |items| <= |ids|
    requires Increasing(Firsts(items)) && forall x :: x in Firsts(items) ==> Unanswered(s, x)
    ensures Inv(cfg, GrantAll(s, items, ids))
  {
    hide Core, Unanswered, Increasing, Firsts, GrantAll;
    GrantAllKeepsCore(s, items, ids);
    GrantAllAnswers(s, items, ids);
    AnswerRest(s, GrantAll(s, items, ids));
    RestInv(cfg, s, GrantAll(s, items, ids));
  }

  lemma SetMasterIdInv(cfg: Config, s: State, k: Kind, notif: nat, id: nat, genuine: bool)
    requires Inv(cfg, s) && (k == Detach || k == ListChange)
    ensures Inv(cfg, SetMasterId(s, k, notif, id, genuine))
  {
    hide Core, NotifAt;
    MasterIdKeepsCore(s, k, notif, id, genuine);
    AnswerRest(s, SetMasterId(s, k, notif, id, genuine));
    RestInv(cfg, s, SetMasterId(s, k, notif, id, genuine));
  }

  lemma ReportInv(cfg: Config, s: State, o: Outcome)
    requires Inv(cfg, s) && s.link.outstanding != [] && Fits(s.link.outstanding[0], o)
    ensures Inv(cfg, Report(s, o))
  {
    var s1 := s.(link := s.link.(outstanding := s.link.outstanding[1..]));
    hide Inv, Unanswered, Increasing, Grant, GrantAll, SetMasterId, RegisteredAll, SetInsert;
    PopInv(cfg, s);
    if o.Done? {
      match s.link.outstanding[0]
      case AttachJob(c, _) =>
        if c in s1.conns { NoteClientInv(cfg, s1, c, o.parties[0]); }
      case WatchServerJob(cookie, _) =>
        assert cookie in Cookies(s.link.outstanding[0]);
        GrantInv(cfg, s1, cookie, o.ids[0], o.genuine);
      case AvailableJob(items) =>
        GrantAllInv(cfg, s1, items, o.ids);
      case WatchClientJob(notif, _) =>
        SetMasterIdInv(cfg, s1, Detach, notif, o.ids[0], o.genuine);
      case WatchListJob(notif) =>
        SetMasterIdInv(cfg, s1, ListChange, notif, o.ids[0], o.genuine);
      case RegisterJob(_) =>
        RegisteredAllInv(cfg, s1, o.parties);
      case _ =>
    }
  }

  lemma SetLinkInv(cfg: Config, s: State, up: bool)
    requires Inv(cfg, s)
    ensures Inv(cfg, SetLink(s, up))
  {
    var s1 := SetLink(s, up);
    assert NoLeak(s1);
    hide Core, NoLeak;
    LinkKeepsCore(s, s1);
    RestInv(cfg, s, s1);
  }
}
