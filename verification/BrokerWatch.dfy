/** Which server a pool watches for whom. */
module BrokerWatch {
  import opened BrokerTypes
  import opened ServerTable
  import opened BrokerSpec
  import opened BrokerInv
  import opened BrokerPools
  import opened BrokerRequests
  import opened BrokerCalm
  import opened BrokerTheorems
  import opened BrokerExact

  /** Every pooled watcher is in a pool that monitors the very server it watches. */
  ghost predicate Exact(s: State) {
    forall n, p :: n in s.lists.disconnect && p in s.pools && n.poolId == p.id ==> p.target == Monitor(n.party)
  }

  /** A live pool monitors another server with the same local ID. */
  ghost predicate Taken(pools: seq<Pool>, id: PartyId) {
    exists p :: p in pools && p.target.Monitor? && p.target.server.local == id.local && p.target.server != id
  }

  /** Does a request join a pool at the master? */
  predicate Joins(cfg: Config, s: State, c: nat, id: PartyId, reached: bool)
    requires c in s.conns
  {
    (s.conns[c].slave ==> reached) && ScanId(s.servers, id).None? && id.ext != cfg.ext && s.link.connected
  }

  /** The request that goes wrong, told before the call. */
  ghost predicate Clash(cfg: Config, s: State, e: Event) {
    e.ENotifyDisconnect? && e.c in s.conns && Joins(cfg, s, e.c, e.id, e.reached) && Taken(s.pools, e.id)
  }

  lemma InvTagged(cfg: Config, s: State)
    requires Inv(cfg, s)
    ensures Tagged(s) && s.next.pool > 0
    ensures forall n :: n in s.lists.disconnect ==> n.poolId < s.next.pool
    ensures (forall p :: p in s.pools ==> 0 < p.id < s.next.pool) && PoolOrder(s.pools)
  {
    hide NoLostWakeup, WatchersSound, ServersOk, ClientsOk;
    forall k, n | n in L(s, k) ensures n.poolId < s.next.pool && (Answered(k) ==> n.poolId == 0) {
      assert Listed(s, k, n);
    }
    forall n | n in s.lists.disconnect ensures n.poolId < s.next.pool { assert n in L(s, Disconnect); }
    forall p | p in s.pools ensures 0 < p.id < s.next.pool { assert PoolOk(s, p); }
  }

  lemma CalmKeepsExact(cfg: Config, s: State, s': State)
    requires Inv(cfg, s) && Inv(cfg, s') && CalmPools(s, s') && Exact(s)
    ensures Exact(s')
  {
    InvTagged(cfg, s);
    InvTagged(cfg, s');
    hide Inv;
    forall n, p | n in s'.lists.disconnect && p in s'.pools && n.poolId == p.id ensures p.target == Monitor(n.party) {
      assert WasPooled(s.lists.disconnect, n);
      var m :| m in s.lists.disconnect && m.poolId == n.poolId && m.party == n.party;
      assert Known(s.pools, p);
    }
  }

  // ---------------------------------------------------------------- the steps that are not calm

  lemma SamePoolsCalm(s: State, s': State)
    requires s'.lists.disconnect == s.lists.disconnect && s'.next.pool == s.next.pool
    requires s'.pools == s.pools || s'.pools == []
    ensures CalmPools(s, s')
  {
    forall n | n in s.lists.disconnect ensures WasPooled(s.lists.disconnect, n) {}
    forall p | p in s.pools ensures Known(s.pools, p) {}
  }

  lemma ConnectedCalm(cfg: Config, s: State)
    requires Tagged(s)
    ensures CalmPools(s, MasterConnected(cfg, s))
  {
    var s1 := s.(link := s.link.(session := true, steady := s.link.connected, granted := {}, cleared := {}, lent := {}));
    assert Tagged(s1) by { assert forall k :: L(s1, k) == L(s, k); }
    hide Calm, Tagged, RegisterMaster, ForwardAvailable;
    SamePoolsCalm(s, s1);
    SameCalm(s1, s1);
    ThenRegister(cfg, s1, s1);
    ThenForward(cfg, s1, RegisterMaster(cfg, s1));
    CalmIsPools(s1, MasterConnected(cfg, s));
    CalmPoolsTrans(s, s1, MasterConnected(cfg, s));
  }

  lemma CalmIsPools(s: State, s': State)
    requires Calm(s, s')
    ensures CalmPools(s, s') && CalmLent(s, s')
  {}

  lemma DisconnectedCalm(cfg: Config, s: State)
    requires Tagged(s)
    ensures CalmPools(s, MasterDisconnected(cfg, s))
  {
    var s1 := s.(servers := ClearMasterIds(s.servers), pools := [],
                 link := s.link.(session := false, steady := false, granted := {}, cleared := {}, lent := {}));
    assert Tagged(s1) by { assert forall k :: L(s1, k) == L(s, k); }
    hide Calm, Tagged, Sweep, ClearMasterIds, ClearMasterNotification;
    SamePoolsCalm(s, s1);
    SameCalm(s1, s1);
    ThenSweep(cfg, s1, s1, Disconnect, Absent);
    var s2 := Sweep(cfg, s1, Disconnect, Absent, 0);
    ThenSweep(cfg, s1, s2, Detach, NotLocal);
    var s3 := Sweep(cfg, s2, Detach, NotLocal, 0);
    ThenSame(s1, s3, MasterDisconnected(cfg, s));
    CalmIsPools(s1, MasterDisconnected(cfg, s));
    CalmPoolsTrans(s, s1, MasterDisconnected(cfg, s));
  }

  lemma LendingCalm(s: State, o: Outcome)
    requires s.link.outstanding != [] && Fits(s.link.outstanding[0], o) && Lends(s, EReport(o))
    ensures CalmPools(s, Report(s, o))
  {
    hide NotifAt;
    SamePoolsCalm(s, Report(s, o));
  }

  /** Every step but the joining of a pool leaves watchers and pools as they are. */
  lemma OtherStepsCalm(cfg: Config, s: State, e: Event)
    requires Tagged(s) && Enabled(cfg, s, e) && !e.ENotifyDisconnect?
    ensures CalmPools(s, Step(cfg, s, e))
  {
    hide CalmPools, Tagged;
    if Quiet(s, e) {
      hide Step;
      StepCalm(cfg, s, e);
      CalmIsPools(s, Step(cfg, s, e));
    } else if e.EMasterConnected? {
      hide MasterConnected;
      ConnectedCalm(cfg, s);
    } else if e.EMasterDisconnected? {
      hide MasterDisconnected;
      DisconnectedCalm(cfg, s);
    } else if e.ELink? {
      SamePoolsCalm(s, Step(cfg, s, e));
    } else {
      hide Report;
      LendingCalm(s, e.outcome);
    }
  }

  lemma JoinExact(s: State, id: PartyId)
    requires s.lists.disconnect != [] && s.lists.disconnect[0].party == id && s.lists.disconnect[0].poolId == 0
    requires Exact(s) && PoolOrder(s.pools) && forall p :: p in s.pools ==> 0 < p.id < s.next.pool
    requires forall n :: n in s.lists.disconnect ==> n.poolId < s.next.pool
    ensures Exact(JoinPool(s, id)) <==> !Taken(s.pools, id)
    ensures var n := JoinPool(s, id).lists.disconnect[0];
            (exists p :: p in JoinPool(s, id).pools && p.id == n.poolId && p.target == Monitor(id)) <==> !Taken(s.pools, id)
  {
    var s' := JoinPool(s, id);
    var pos := TargetAt(s.pools, Monitor(id));
    hide TargetAt;
    var n := s'.lists.disconnect[0];
    assert n in s'.lists.disconnect && n.party == id;
    forall m | m in s'.lists.disconnect ensures m in s.lists.disconnect || m == n {}
    if pos >= 0 {
      var q := s'.pools[pos];
      assert q in s'.pools && q.id == n.poolId && q.target == s.pools[pos].target && s.pools[pos] in s.pools;
      forall p | p in s'.pools ensures p == q || p in s.pools {}
      forall p | p in s'.pools && p.id == n.poolId ensures p == q {
        var j :| 0 <= j < |s'.pools| && s'.pools[j] == p;
      }
      assert Taken(s.pools, id) <==> q.target != Monitor(id) by { OnlyOne(s.pools, pos, id); }
      if q.target == Monitor(id) { JoinedExact(s, s', n, q); }
    } else {
      var q := s'.pools[|s.pools|];
      assert q in s'.pools && q.id == n.poolId && q.target == Monitor(id);
      forall p | p in s'.pools ensures p == q || p in s.pools {}
      assert !Taken(s.pools, id) by {
        forall p | p in s.pools ensures !SameTarget(p.target, Monitor(id)) {
          var j :| 0 <= j < |s.pools| && s.pools[j] == p;
        }
      }
      JoinedExact(s, s', n, q);
    }
  }

  lemma OnlyOne(pools: seq<Pool>, pos: nat, id: PartyId)
    requires PoolOrder(pools) && pos < |pools| && SameTarget(pools[pos].target, Monitor(id))
    ensures Taken(pools, id) <==> pools[pos].target != Monitor(id)
  {
    assert pools[pos] in pools;
    forall p | p in pools && p.target.Monitor? && p.target.server.local == id.local ensures p == pools[pos] {
      var j :| 0 <= j < |pools| && pools[j] == p;
      assert SameTarget(pools[pos].target, pools[j].target) && SameTarget(pools[j].target, pools[pos].target);
    }
  }

  lemma JoinedExact(s: State, s': State, n: Notification, q: Pool)
    requires Exact(s) && q.id == n.poolId && q.target == Monitor(n.party)
    requires forall m :: m in s'.lists.disconnect ==> m in s.lists.disconnect || m == n
    requires forall p :: p in s'.pools ==> p == q || p in s.pools
    requires forall p :: p in s'.pools && p.id == n.poolId ==> p == q
    requires forall m :: m in s.lists.disconnect && m.poolId == q.id ==> m.party == n.party
    ensures Exact(s')
  {
  }

  // ---------------------------------------------------------------- exactly when a watcher is watched

  lemma AddExact(s: State, c: nat, n: Notification)
    requires Exact(s) && c in s.conns && n.poolId == 0 && forall p :: p in s.pools ==> p.id > 0
    ensures var s' := AddNotif(s, Disconnect, c, n);
            && Exact(s') && s'.pools == s.pools && s'.next.pool == s.next.pool && s'.lists.disconnect != []
            && s'.lists.disconnect[0].party == n.party && s'.lists.disconnect[0].poolId == 0
            && (forall m :: m in s'.lists.disconnect ==> m in s.lists.disconnect || m.poolId == 0)
  {
  }

  /** Any event, while every pooled watcher is in its own server's pool: that stays so exactly
      when the event is not a request that joins a pool while a live pool monitors another
      server with the same local ID. */
  lemma WatchedIff(cfg: Config, s: State, e: Event)
    requires Inv(cfg, s) && Enabled(cfg, s, e) && Exact(s)
    ensures Exact(Step(cfg, s, e)) <==> !Clash(cfg, s, e)
  {
    InvTagged(cfg, s);
    if e.ENotifyDisconnect? {
      hide Inv;
      NotifyExact(cfg, s, e.c, e.id, e.reached);
    } else {
      StepKeepsInv(cfg, s, e);
      hide Inv, Step, Tagged, Enabled, CalmPools, Exact, PoolOrder;
      OtherStepsCalm(cfg, s, e);
      CalmKeepsExact(cfg, s, Step(cfg, s, e));
    }
  }

  lemma NotifyExact(cfg: Config, s: State, c: nat, id: PartyId, reached: bool)
    requires Exact(s) && Tagged(s) && c in s.conns && s.next.pool > 0
    requires forall n :: n in s.lists.disconnect ==> n.poolId < s.next.pool
    requires (forall p :: p in s.pools ==> 0 < p.id < s.next.pool) && PoolOrder(s.pools)
    ensures Exact(NotifyDisconnect(cfg, s, c, id, reached)) <==> !(Joins(cfg, s, c, id, reached) && Taken(s.pools, id))
  {
    hide ScanId, Sweep, JoinPool, AddNotif, Taken;
    var n := BLANK.(host := Some(c), party := id);
    var s1 := AddNotif(s, Disconnect, c, n);
    AddExact(s, c, n);
    if s.conns[c].slave && !reached {
    } else if ScanId(s.servers, id).Some? {
    } else if id.ext != cfg.ext && s.link.connected {
      JoinExact(s1, id);
    } else {
      AddCalm(s, Disconnect, c, n);
      CalmTagged(s, s1);
      SweepCalm(cfg, s1, Disconnect, ByParty(id), 0);
      SweptExact(s1, Sweep(cfg, s1, Disconnect, ByParty(id), 0));
    }
  }

  lemma SweptExact(s: State, s': State)
    requires Exact(s) && Calm(s, s') && forall n :: n in s.lists.disconnect ==> n.poolId < s.next.pool
    requires forall p :: p in s.pools ==> p.id > 0
    requires s.next.pool > 0
    ensures Exact(s')
  {
    forall n, p | n in s'.lists.disconnect && p in s'.pools && n.poolId == p.id ensures p.target == Monitor(n.party) {
      assert Known(s.pools, p) || p.id >= s.next.pool;
      if WasPooled(s.lists.disconnect, n) {
        var m :| m in s.lists.disconnect && m.poolId == n.poolId && m.party == n.party;
        assert Known(s.pools, p);
      }
    }
  }

  /** Over whole runs: every pooled watcher is in its own server's pool at every handler boundary
      exactly when no request ever clashed. */
  lemma {:induction false} WatchedAlwaysIff(cfg: Config, es: seq<Event>)
    requires IsRun(cfg, es)
    ensures AlwaysExact(cfg, es) <==> NeverClashed(cfg, es)
  {
    hide Inv, Step, Enabled, Exact, Clash;
    if es == [] {
      assert Exact(INITIAL) by { InitialExact(); }
    } else {
      var n := |es| - 1;
      WatchedAlwaysIff(cfg, es[..n]);
      RunKeepsInv(cfg, es[..n]);
      if Exact(After(cfg, es[..n])) {
        WatchedIff(cfg, After(cfg, es[..n]), es[n]);
      }
    }
  }

  lemma InitialExact()
    ensures Exact(INITIAL)
  {}

  ghost predicate AlwaysExact(cfg: Config, es: seq<Event>)
    requires IsRun(cfg, es)
    decreases |es|
  {
    Exact(After(cfg, es)) && (es == [] || AlwaysExact(cfg, es[..|es| - 1]))
  }

  ghost predicate NeverClashed(cfg: Config, es: seq<Event>)
    requires IsRun(cfg, es)
    decreases |es|
  {
    es == [] || (NeverClashed(cfg, es[..|es| - 1]) && !Clash(cfg, After(cfg, es[..|es| - 1]), es[|es| - 1]))
  }

  // ---------------------------------------------------------------- such a clash

  const SEVEN := PartyId(7, 500001)
  const EIGHT := PartyId(8, 500001)

  /** A broker with the link up and one local client. */
  ghost function Ready(): State {
    INITIAL.(conns := map[1 := Conn([], [], [], false, 0, 0)], link := Link(true, true, [], {}, {}, {}, true))
  }

  /** The same while its client waits for the end of <7.500001>. */
  ghost function Waiting(): State {
    JoinPool(AddNotif(Ready(), Disconnect, 1, BLANK.(host := Some(1), party := SEVEN)), SEVEN)
  }

  lemma NothingToForward(cfg: Config, s: State)
    requires s == INITIAL.(conns := s.conns, link := s.link) && s.link.outstanding == []
    ensures MasterConnected(cfg, s) == s.(link := s.link.(session := true, steady := s.link.connected, granted := {}, cleared := {}, lent := {}))
  {
    assert RegisterJobs(Chunks<Server>([])) == [] && AvailableJobs(Chunks<(nat, Iface)>([])) == [];
    assert MarkPending(cfg, []) == [];
  }

  lemma ReadyReached(cfg: Config)
    ensures var es := [EOpen(1, 0, 0), ELink(true), EMasterConnected];
            IsRun(cfg, es) && After(cfg, es) == Ready()
  {
    var none: seq<Event> := [];
    assert IsRun(cfg, none) && After(cfg, none) == INITIAL;
    hide IsRun, After, MasterConnected;
    var s1 := INITIAL.(conns := map[1 := Conn([], [], [], false, 0, 0)]);
    var s2 := s1.(link := s1.link.(connected := true));
    OneMore(cfg, none, EOpen(1, 0, 0), INITIAL, s1);
    assert none + [EOpen(1, 0, 0)] == [EOpen(1, 0, 0)];
    OneMore(cfg, [EOpen(1, 0, 0)], ELink(true), s1, s2);
    assert [EOpen(1, 0, 0)] + [ELink(true)] == [EOpen(1, 0, 0), ELink(true)];
    NothingToForward(cfg, s2);
    OneMore(cfg, [EOpen(1, 0, 0), ELink(true)], EMasterConnected, s2, Ready());
    assert [EOpen(1, 0, 0), ELink(true)] + [EMasterConnected] == [EOpen(1, 0, 0), ELink(true), EMasterConnected];
  }

  /** The waiting state is reached. */
  lemma WaitingReached(cfg: Config)
    requires cfg.ext == 5
    ensures var es := [EOpen(1, 0, 0), ELink(true), EMasterConnected, ENotifyDisconnect(1, SEVEN, true)];
            IsRun(cfg, es) && After(cfg, es) == Waiting()
  {
    var es := [EOpen(1, 0, 0), ELink(true), EMasterConnected];
    ReadyReached(cfg);
    hide IsRun, After;
    assert NotifyDisconnect(cfg, Ready(), 1, SEVEN, true) == Waiting() by { hide JoinPool, AddNotif; }
    hide NotifyDisconnect, Waiting;
    OneMore(cfg, es, ENotifyDisconnect(1, SEVEN, true), Ready(), Waiting());
    assert es + [ENotifyDisconnect(1, SEVEN, true)] == [EOpen(1, 0, 0), ELink(true), EMasterConnected, ENotifyDisconnect(1, SEVEN, true)];
  }

  lemma BothPulsed(cfg: Config, s: State)
    requires |s.lists.disconnect| == 2 && s.past.pulses == []
    requires forall n :: n in s.lists.disconnect ==> n.active && n.poolId == 100000
    ensures Sweep(cfg, s, Disconnect, ByPool(100000), 0).past.pulses == [s.lists.disconnect[0].id, s.lists.disconnect[1].id]
  {
    hide Sweep;
    var l := s.lists.disconnect;
    SweepExact(cfg, s, Disconnect, ByPool(100000), 0);
    assert L(s, Disconnect)[0..] == l && l[0] in l && l[1] in l;
    assert l[1..][0] == l[1] && l[1..][1..] == [];
    assert Sent(cfg, s.servers, ByPool(100000), l[1..]) == [l[1].id];
  }

  /** Waiting for the end of <8.500001> then joins the pool that monitors <7.500001>: no job
      asks the master about <8.500001>. */
  lemma OneForTwo(cfg: Config)
    requires cfg.ext == 5
    ensures var s := NotifyDisconnect(cfg, Waiting(), 1, EIGHT, true);
            && s.link.outstanding == [WatchServerJob(100000, SEVEN)]
            && |s.pools| == 1 && s.pools[0] == Pool(100000, Monitor(SEVEN), INVALID, 2)
            && |s.lists.disconnect| == 2 && s.lists.disconnect[0].party == EIGHT && s.past.pulses == []
            && (forall n :: n in s.lists.disconnect ==> n.active && n.poolId == 100000)
  {
    var w := Waiting();
    assert TargetAt(w.pools, Monitor(EIGHT)) == 0;
  }

  /** So the end of <7.500001> pulses both clients. */
  lemma BothForOne(cfg: Config)
    requires cfg.ext == 5
    ensures var s := NotifyDisconnect(cfg, Waiting(), 1, EIGHT, true);
            !Exact(s) && |Sweep(cfg, s, Disconnect, ByPool(100000), 0).past.pulses| == 2
  {
    OneForTwo(cfg);
    var s := NotifyDisconnect(cfg, Waiting(), 1, EIGHT, true);
    hide NotifyDisconnect, Waiting, Sweep;
    BothPulsed(cfg, s);
    assert s.lists.disconnect[0] in s.lists.disconnect && s.pools[0] in s.pools;
  }
}
