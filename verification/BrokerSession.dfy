/** What the master's coming and going and its answers do, and what a clear request does. */
module BrokerSession {
  import opened BrokerTypes
  import opened ServerTable
  import opened BrokerSpec
  import opened BrokerInv
  import opened BrokerSweep
  import opened BrokerMoves
  import opened BrokerPools
  import opened BrokerHandlers
  import opened BrokerRequests
  import opened BrokerRest
  import opened BrokerClose
  import opened BrokerMaster
  import opened BrokerTheorems
  import opened BrokerExact
  import opened BrokerConsent
  import opened BrokerEffects
  import opened BrokerWaits
  import opened BrokerRegistry

  // ---------------------------------------------------------------- the master comes

  lemma StepConnected(cfg: Config, s: State)
    ensures Step(cfg, s, EMasterConnected) == MasterConnected(cfg, s)
  {
    hide MasterConnected;
  }

  /** Servers that may be forwarded are pending afterwards and in a job; the others are as they were. */
  ghost predicate Forwarded(cfg: Config, l: seq<Server>, l': seq<Server>, js: seq<Job>) {
    && |l'| == |l|
    && forall i :: 0 <= i < |l| ==>
         if l[i].masterId == NO_PARTY && !l[i].local && cfg.forwards(l[i].iface.name)
         then l'[i] == l[i].(masterId := PENDING) && exists j :: j in js && j.RegisterJob? && l[i] in j.batch
         else l'[i] == l[i]
  }

  /** The connected pulse starts a session; with the link up, every server and every waiting client
      that may be forwarded is made known to the master, and nothing else changes. */
  lemma ConnectedTells(cfg: Config, s: State)
    requires Inv(cfg, s)
    ensures var s' := Step(cfg, s, EMasterConnected);
            && s'.link.session && s'.link.steady == s.link.connected && s'.link.connected == s.link.connected
            && s' == s.(servers := s'.servers, lists := s.lists.(available := s'.lists.available), pools := s'.pools,
                        next := s.next.(pool := s'.next.pool), link := s'.link)
            && (if s.link.connected
                then Forwarded(cfg, s.servers, s'.servers, s'.link.outstanding)
                  && Placed(cfg, s.lists.available, s'.lists.available, s'.pools)
                  && s.link.outstanding <= s'.link.outstanding && Announced(s.pools, s'.pools, s'.link.outstanding)
                else s'.servers == s.servers && s'.lists == s.lists && s'.pools == s.pools && s'.link.outstanding == s.link.outstanding)
  {
    hide Step, Inv, Forwarded, Placed, Announced, RegisterMaster, ForwardAvailable;
    StepConnected(cfg, s);
    var s1 := s.(link := s.link.(session := true, steady := s.link.connected, granted := {}, cleared := {}, lent := {}));
    if s.link.connected {
      var s2 := RegisterMaster(cfg, s1);
      var s' := ForwardAvailable(cfg, s2);
      ServersForwarded(cfg, s1);
      SessionInv(cfg, s, s1);
      RegisterMasterInv(cfg, s1);
      ForwardPlaces(cfg, s2);
      MoreJobs(cfg, s.servers, s2.servers, s2.link.outstanding, s'.link.outstanding);
      MoreAnnounced(s.pools, s'.pools, s2.link.outstanding, s'.link.outstanding);
    } else {
      IdleForward(cfg, s1);
    }
  }

  lemma SessionInv(cfg: Config, s: State, s1: State)
    requires Inv(cfg, s)
    requires s1 == s.(link := s.link.(session := true, steady := s.link.connected, granted := {}, cleared := {}, lent := {}))
    ensures Inv(cfg, s1)
  {
    hide Core;
    LinkKeepsCore(s, s1);
    RestInv(cfg, s, s1);
  }

  lemma IdleForward(cfg: Config, s: State)
    requires !s.link.connected
    ensures RegisterMaster(cfg, s) == s && ForwardAvailable(cfg, s) == s
  {
    hide PoolAll;
  }

  lemma ServersForwarded(cfg: Config, s: State)
    requires s.link.connected
    ensures var s' := RegisterMaster(cfg, s);
            && Forwarded(cfg, s.servers, s'.servers, s'.link.outstanding) && s.link.outstanding <= s'.link.outstanding
            && s' == s.(servers := s'.servers, link := s.link.(outstanding := s'.link.outstanding))
  {
    MasterHears(cfg, s);
    hide Chunks, Unforwarded, MarkPending;
    hide RegisterJobs;
  }

  /** A new server that may be forwarded is pending at the connected master, and in a registration job. */
  lemma RegistrationTells(cfg: Config, s: State, c: nat, iface: Iface, grpid: int)
    requires c in s.conns && Proper(iface) && (s.conns[c].node == 0 || s.conns[c].node == 0x7F00_0001)
    requires (forall e :: e in s.servers ==> e.iface.name != iface.name) && s.link.connected
    requires !cfg.isLocalService(iface.name) && cfg.forwards(iface.name)
    ensures var s', e := Step(cfg, s, ERegister(c, iface, grpid)), Server(PartyId(cfg.ext, s.next.server), NO_PARTY, iface, grpid, false);
            e.(masterId := PENDING) in s'.servers && exists j :: j in s'.link.outstanding && j.RegisterJob? && e in j.batch
  {
    CheckedIff(iface);
    hide Step, Scan, Checked, Proper, Announce, RegisterMaster, Welcomed;
    StepRegister(cfg, s, c, iface, grpid);
    FreeName(s, iface.name);
    var e := Server(PartyId(cfg.ext, s.next.server), NO_PARTY, iface, grpid, false);
    var s0 := s.(next := s.next.(server := s.next.server + 1));
    AnnounceWelcomes(cfg, s0, c, e);
    var s1 := Announce(cfg, s0, c, e);
    MasterHears(cfg, s1);
    var i :| 0 <= i < |s1.servers| && s1.servers[i] == e;
    assert RegisterMaster(cfg, s1).servers[i] == e.(masterId := PENDING);
  }

  lemma MoreJobs(cfg: Config, l: seq<Server>, l': seq<Server>, js: seq<Job>, js': seq<Job>)
    requires Forwarded(cfg, l, l', js) && js <= js'
    ensures Forwarded(cfg, l, l', js')
  {
    forall i | 0 <= i < |l| && exists j :: j in js && j.RegisterJob? && l[i] in j.batch
      ensures exists j :: j in js' && j.RegisterJob? && l[i] in j.batch
    {
      var j :| j in js && j.RegisterJob? && l[i] in j.batch;
      assert j in js';
    }
  }

  lemma MoreAnnounced(pools: seq<Pool>, pools': seq<Pool>, js: seq<Job>, js': seq<Job>)
    requires js <= js' && Announced(pools, pools', js'[|js|..])
    ensures Announced(pools, pools', js')
  {
    forall p | p in pools' && p !in pools
      ensures p.target.Connecting? && exists j :: j in js' && j.AvailableJob? && (p.id, p.target.iface) in j.items
    {
      var j :| j in js'[|js|..] && j.AvailableJob? && (p.id, p.target.iface) in j.items;
      assert j in js';
    }
  }

  // ---------------------------------------------------------------- the master goes

  /** Watches a foreign server that is not registered here. */
  ghost function Deserted(cfg: Config, servers: seq<Server>): Notification -> bool {
    (n: Notification) => n.active && n.party.ext != cfg.ext && forall e :: e in servers ==> e.id != n.party
  }

  ghost function Foreign(cfg: Config): Notification -> bool {
    (n: Notification) => n.active && n.party.ext != cfg.ext
  }

  lemma AbsentFires(cfg: Config, s: State)
    ensures Fired(s, Sweep(cfg, s, Disconnect, Absent, 0), Disconnect, Deserted(cfg, s.servers))
    ensures Fired(s, Sweep(cfg, s, Detach, NotLocal, 0), Detach, Foreign(cfg))
  {
    hide Fired, Sweep, ScanId;
    SweepFires(cfg, s, Disconnect, Absent, Deserted(cfg, s.servers));
    SweepFires(cfg, s, Detach, NotLocal, Foreign(cfg));
  }

  lemma ClearedIds(l: seq<Server>, id: PartyId)
    ensures (forall e :: e in ClearMasterIds(l) ==> e.id != id) <==> (forall e :: e in l ==> e.id != id)
  {
    var l' := ClearMasterIds(l);
    forall e | e in l ensures exists x :: x in l' && x.id == e.id {
      var i :| 0 <= i < |l| && l[i] == e;
      assert l'[i] in l';
    }
    forall x | x in l' ensures exists e :: e in l && e.id == x.id {
      var i :| 0 <= i < |l'| && l'[i] == x;
      assert l[i] in l;
    }
  }

  /** The session ends. Those who watch a foreign server that is not here, and those who wait for the
      end of a foreign client, are pulsed in this order; pools are dropped, and nobody is in one or
      known at the master any more, and no server is. */
  lemma DisconnectedWakes(cfg: Config, s: State)
    ensures var s' := Step(cfg, s, EMasterDisconnected);
            && s'.lists.disconnect == Others(s.lists.disconnect, Deserted(cfg, s.servers))
            && s'.lists.detach == Others(s.lists.detach, Foreign(cfg)) && s'.lists.listChange == s.lists.listChange
            && s'.past.pulses == s.past.pulses + NotifIds(Those(s.lists.disconnect, Deserted(cfg, s.servers)))
                                               + NotifIds(Those(s.lists.detach, Foreign(cfg)))
            && |s'.lists.available| == |s.lists.available|
            && (forall i :: 0 <= i < |s.lists.available| ==> s'.lists.available[i] == s.lists.available[i].(masterId := INVALID, poolId := 0))
            && |s'.servers| == |s.servers| && (forall i :: 0 <= i < |s.servers| ==> s'.servers[i] == s.servers[i].(masterId := NO_PARTY))
            && s'.pools == [] && !s'.link.session && !s'.link.steady && s'.clients == s.clients && s'.next == s.next
            && s'.past.withdrawn == s.past.withdrawn && s'.past.book == s.past.book && SameMembers(s.conns, s'.conns)
  {
    StepDisconnected(cfg, s);
    hide Step, Sweep, Those, Others, NotifIds, SameMembers, Deserted, Foreign;
    var s1 := s.(servers := ClearMasterIds(s.servers), pools := [],
                 link := s.link.(session := false, steady := false, granted := {}, cleared := {}, lent := {}));
    var s2 := Sweep(cfg, s1, Disconnect, Absent, 0);
    var s3 := Sweep(cfg, s2, Detach, NotLocal, 0);
    AbsentFires(cfg, s1);
    AbsentFires(cfg, s2);
    OnlyList(s1, s2, Disconnect, Deserted(cfg, s1.servers));
    OnlyList(s2, s3, Detach, Foreign(cfg));
    ListsOf(s1, s2);
    hide Fired;
    SameDeserted(cfg, s.servers, s.lists.disconnect);
    MembersTrans(s.conns, s2.conns, s3.conns);
    NoPoolsLeft(cfg, s1, s2, s3);
  }

  lemma StepDisconnected(cfg: Config, s: State)
    ensures Step(cfg, s, EMasterDisconnected) == MasterDisconnected(cfg, s)
  {
    hide MasterDisconnected;
  }

  lemma {:induction false} SameDeserted(cfg: Config, servers: seq<Server>, l: seq<Notification>)
    ensures Others(l, Deserted(cfg, ClearMasterIds(servers))) == Others(l, Deserted(cfg, servers))
    ensures Those(l, Deserted(cfg, ClearMasterIds(servers))) == Those(l, Deserted(cfg, servers))
  {
    if l != [] {
      SameDeserted(cfg, servers, l[1..]);
      ClearedIds(servers, l[0].party);
      hide ClearMasterIds;
    }
  }

  lemma NoPoolsLeft(cfg: Config, s1: State, s2: State, s3: State)
    requires s1.pools == [] && !s1.link.session && !s1.link.steady
    requires s2 == Sweep(cfg, s1, Disconnect, Absent, 0) && s3 == Sweep(cfg, s2, Detach, NotLocal, 0)
    ensures s3.pools == [] && !s3.link.session && !s3.link.steady
  {
    hide Sweep;
    EmptyPools(cfg, s1, Disconnect, Absent, 0);
    EmptyPools(cfg, s2, Detach, NotLocal, 0);
  }

  lemma {:induction false} EmptyPools(cfg: Config, s: State, k: Kind, r: Rule, i: nat)
    requires i <= |L(s, k)| && s.pools == []
    ensures var s' := Sweep(cfg, s, k, r, i); s'.pools == [] && s'.link.session == s.link.session && s'.link.steady == s.link.steady
    decreases |L(s, k)| - i
  {
    if i < |L(s, k)| {
      hide Act;
      var s1 := Turn(cfg, s, k, r, i);
      assert s1.pools == [] && s1.link.session == s.link.session && s1.link.steady == s.link.steady by { TurnEmpty(cfg, s, k, r, i); }
      hide Turn;
      EmptyPools(cfg, s1, k, r, if Erases(Act(cfg, s, r, L(s, k)[i])) then i else i + 1);
    }
  }

  lemma DropEmpty(s: State, n: Notification)
    requires s.pools == []
    ensures var s' := Drop(s, n); s'.pools == [] && s'.link.session == s.link.session && s'.link.steady == s.link.steady
  {
    hide Forget;
  }

  lemma TurnEmpty(cfg: Config, s: State, k: Kind, r: Rule, i: nat)
    requires i < |L(s, k)| && s.pools == []
    ensures var s' := Turn(cfg, s, k, r, i); s'.pools == [] && s'.link.session == s.link.session && s'.link.steady == s.link.steady
  {
    hide Act, Drop;
    var n, l := L(s, k)[i], L(s, k)[..i] + L(s, k)[i + 1..];
    DropEmpty(Put(Send(s, n.id), k, l), n);
    DropEmpty(Put(Withdraw(s, n.id), k, l), n);
    hide L;
  }

  // ---------------------------------------------------------------- clearing

  lemma StepClear(cfg: Config, s: State, c: nat, id: nat)
    requires c in s.conns
    ensures Step(cfg, s, EClear(c, id)) == Clear(s, c, id)
  {
    hide Clear;
  }

  /** Whatever has the ID is gone from the list, and nothing else. */
  ghost predicate WithoutId(l: seq<Notification>, l': seq<Notification>, id: nat) {
    forall n :: n in l' <==> n in l && n.id != id
  }

  lemma OneTaken(cfg: Config, s: State, k: Kind, id: nat)
    requires Inv(cfg, s)
    ensures var s' := RemoveOne(s, k, id);
            && WithoutId(L(s, k), L(s', k), id) && (forall k' :: k' != k ==> L(s', k') == L(s, k'))
            && s'.past.pulses == s.past.pulses && s'.servers == s.servers && s'.clients == s.clients && s'.next == s.next
            && s'.past.book == s.past.book && SameMembers(s.conns, s'.conns)
  {
    hide Inv, NotifAt, EraseAt, SameMembers, NewestFirst;
    InvNewestOf(cfg, s, k);
    NotifAtNone(L(s, k), id);
    SameMembersRefl(s.conns);
    if NotifAt(L(s, k), id, false) >= 0 { EraseTaken(s, k, id, NotifAt(L(s, k), id, false)); }
  }

  lemma InvNewestOf(cfg: Config, s: State, k: Kind)
    requires Inv(cfg, s)
    ensures NewestFirst(L(s, k))
  {
    InvNewest(cfg, s);
    hide Inv, NewestFirst;
  }

  lemma EraseTaken(s: State, k: Kind, id: nat, i: nat)
    requires i < |L(s, k)| && L(s, k)[i].id == id && NewestFirst(L(s, k))
    ensures var s' := EraseAt(Withdraw(s, id), k, i);
            && WithoutId(L(s, k), L(s', k), id) && (forall k' :: k' != k ==> L(s', k') == L(s, k'))
            && s'.past.pulses == s.past.pulses && s'.servers == s.servers && s'.clients == s.clients && s'.next == s.next
            && s'.past.book == s.past.book && SameMembers(s.conns, s'.conns)
  {
    hide EraseAt, SameMembers, NewestFirst;
    EraseTables(Withdraw(s, id), k, i);
    CutOrder(L(s, k), i);
    WithdrawLists(s, id);
    hide L;
  }

  lemma WithdrawLists(s: State, id: nat)
    ensures forall k :: L(Withdraw(s, id), k) == L(s, k)
  {
  }

  /** A clear request of the connection that lists the notification takes it from its list, pulses
      nobody and leaves everything else in the lists; any other request does nothing. */
  lemma ClearTakesIt(cfg: Config, s: State, c: nat, id: nat)
    requires Inv(cfg, s) && c in s.conns
    ensures var s' := Step(cfg, s, EClear(c, id));
            if id !in s.conns[c].notifs then s' == s
            else && (forall k :: WithoutId(L(s, k), L(s', k), id))
                 && s'.past.pulses == s.past.pulses && s'.servers == s.servers && s'.clients == s.clients && s'.next == s.next
                 && s'.past.book == s.past.book && SameMembers(s.conns, s'.conns)
  {
    hide Step, Inv, RemoveOne, Forget, SameMembers, L, NoneWith, WithoutId;
    StepClear(cfg, s, c, id);
    if id in s.conns[c].notifs {
      TicketOf(cfg, s, c, id);
      RemoveEachInv(cfg, s, c, id);
      var s1 := RemoveOne(s, Detach, id);
      var s2 := RemoveOne(s1, Disconnect, id);
      var s3 := RemoveOne(s2, Available, id);
      var s4 := RemoveOne(s3, ListChange, id);
      RemoveStep(cfg, s, Detach, c, id);
      RemoveStep(cfg, s1, Disconnect, c, id);
      RemoveStep(cfg, s2, Available, c, id);
      OneTaken(cfg, s, Detach, id);
      OneTaken(cfg, s1, Disconnect, id);
      OneTaken(cfg, s2, Available, id);
      OneTaken(cfg, s3, ListChange, id);
      assert Clear(s, c, id) == Forget(s4, c, id);
      ForgetStays(s4, c, id);
      hide Clear, RemoveEach;
      MembersTrans(s.conns, s1.conns, s2.conns);
      MembersTrans(s.conns, s2.conns, s3.conns);
      MembersTrans(s.conns, s3.conns, s4.conns);
      MembersTrans(s.conns, s4.conns, Forget(s4, c, id).conns);
      forall k ensures WithoutId(L(s, k), L(Forget(s4, c, id), k), id) {
        match k { case Available => case Disconnect => case Detach => case ListChange => }
      }
    }
  }

  lemma ForgetStays(s: State, c: nat, id: nat)
    ensures var s' := Forget(s, c, id);
            && (forall k :: L(s', k) == L(s, k)) && s'.past == s.past && s'.servers == s.servers && s'.clients == s.clients
            && s'.next == s.next && SameMembers(s.conns, s'.conns)
  {
    hide StdRemove;
  }

  // ---------------------------------------------------------------- the master's answers

  lemma StepReport(cfg: Config, s: State, o: Outcome)
    requires Enabled(cfg, s, EReport(o))
    ensures Step(cfg, s, EReport(o)) == Report(s, o)
  {
    hide Report, Fits;
  }

  /** The oldest job is done with. */
  ghost function Reported(s: State): State
    requires s.link.outstanding != []
  {
    s.(link := s.link.(outstanding := s.link.outstanding[1..]))
  }

  /** A failed job, and an answer about a detach, an unregistration or a clear, change nothing. */
  lemma AnswerIgnored(cfg: Config, s: State, o: Outcome)
    requires Enabled(cfg, s, EReport(o))
    requires var j := s.link.outstanding[0]; o.Failed? || j.UnregisterJob? || j.DetachJob? || j.ClearJob?
    ensures Step(cfg, s, EReport(o)) == Reported(s)
  {
    hide Step;
    StepReport(cfg, s, o);
  }

  /** The client was attached at the master: its connection, if it is still there, lists it. */
  lemma AnswerAttach(cfg: Config, s: State, o: Outcome)
    requires Enabled(cfg, s, EReport(o)) && o.Done? && s.link.outstanding[0].AttachJob?
    ensures var s', c := Step(cfg, s, EReport(o)), s.link.outstanding[0].conn;
            && s' == Reported(s).(conns := s'.conns) && s'.conns.Keys == s.conns.Keys
            && (forall d :: d in s.conns ==> s'.conns[d] == s.conns[d].(clients := s'.conns[d].clients))
            && (forall d, x :: d in s.conns ==> (x in s'.conns[d].clients <==> x in s.conns[d].clients || (d == c && x == o.parties[0])))
  {
    hide Step, SetInsert;
    StepReport(cfg, s, o);
    var c := s.link.outstanding[0].conn;
    if c in s.conns { SetMembers(s.conns[c].clients, o.parties[0]); }
  }

  /** A granted ID is kept by the pool that asked, or handed back if the pool is gone. */
  lemma GrantKept(s: State, cookie: nat, id: nat, genuine: bool)
    requires PoolOrder(s.pools)
    ensures var s' := Grant(s, cookie, id, genuine);
            if p :| p in s.pools && p.id == cookie
            then s' == s.(pools := s'.pools, link := s.link.(granted := s.link.granted + if genuine then {id} else {}))
                 && forall q :: q in s'.pools <==> (q in s.pools && q.id != cookie) || q == p.(grant := id)
            else s'.pools == s.pools && s'.lists == s.lists
                 && s'.link.outstanding == s.link.outstanding + if s.link.connected then [ClearJob(id)] else []
  {
    var pos := PoolAt(s.pools, cookie);
    assert s.link.outstanding + [] == s.link.outstanding && s.link.granted + {} == s.link.granted;
    if pos >= 0 {
      var p := s.pools[pos];
      assert p in s.pools;
      assert forall q :: q in s.pools && q.id == cookie ==> q == p;
      forall q ensures q in s.pools[pos := p.(grant := id)] <==> q == p.(grant := id) || (q in s.pools && q != p) {
        UpdateMembers(s.pools, pos, p.(grant := id), q);
      }
    } else {
      assert forall p :: p in s.pools ==> p.id != cookie;
    }
    hide PoolAt, PoolOrder;
  }

  /** The answer about a server that a client watches. */
  lemma AnswerWatch(cfg: Config, s: State, o: Outcome)
    requires Enabled(cfg, s, EReport(o)) && o.Done? && s.link.outstanding[0].WatchServerJob?
    ensures Step(cfg, s, EReport(o)) == Grant(Reported(s), s.link.outstanding[0].cookie, o.ids[0], o.genuine)
  {
    hide Step, Grant;
    StepReport(cfg, s, o);
  }

  /** The answers about a batch of interfaces are taken in order; an invalid one is passed over. */
  lemma AnswerBatch(cfg: Config, s: State, o: Outcome)
    requires Enabled(cfg, s, EReport(o)) && o.Done? && s.link.outstanding[0].AvailableJob?
    ensures |s.link.outstanding[0].items| <= |o.ids|
    ensures Step(cfg, s, EReport(o)) == GrantAll(Reported(s), s.link.outstanding[0].items, o.ids)
  {
    hide Step, GrantAll;
    StepReport(cfg, s, o);
  }

  lemma {:induction false} GrantsInTurn(s: State, a: seq<(nat, Iface)>, b: seq<(nat, Iface)>, ids: seq<nat>)
    requires |a| + |b| <= |ids|
    ensures GrantAll(s, a + b, ids) == GrantAll(GrantAll(s, a, ids), b, ids[|a|..])
    ensures |a| == 1 ==> GrantAll(s, a, ids) == if ids[0] == INVALID then s else Grant(s, a[0].0, ids[0], true)
    decreases |a|
  {
    hide Grant;
    if a == [] {
      assert a + b == b && ids[0..] == ids;
    } else {
      var s1 := if ids[0] == INVALID then s else Grant(s, a[0].0, ids[0], true);
      GrantsInTurn(s1, a[1..], b, ids[1..]);
      assert (a + b)[0] == a[0] && (a + b)[1..] == a[1..] + b && ids[1..][|a| - 1..] == ids[|a|..];
      if |a| == 1 { assert GrantAll(s1, a[1..], ids[1..]) == s1; }
    }
  }

  /** An ID granted to a client or list notification is kept by it, or handed back if it is gone. */
  lemma AnswerKept(cfg: Config, s: State, o: Outcome)
    requires Inv(cfg, s) && Enabled(cfg, s, EReport(o)) && o.Done?
    requires s.link.outstanding[0].WatchClientJob? || s.link.outstanding[0].WatchListJob?
    ensures var s', j := Step(cfg, s, EReport(o)), s.link.outstanding[0];
            var k := if j.WatchClientJob? then Detach else ListChange;
            && (forall n :: n in L(s, k) && n.id == j.notif ==>
                  (forall m :: m in L(s', k) <==> (m in L(s, k) && m.id != n.id) || m == n.(masterId := o.ids[0]))
                  && (forall k' :: k' != k ==> L(s', k') == L(s, k')) && s'.link.outstanding == s.link.outstanding[1..])
            && ((forall n :: n in L(s, k) ==> n.id != j.notif) ==>
                  s'.lists == s.lists && s'.link.outstanding == s.link.outstanding[1..] + if s.link.connected then [ClearJob(o.ids[0])] else [])
  {
    hide Step, SetMasterId, Inv, NewestFirst, L;
    StepReport(cfg, s, o);
    var j := s.link.outstanding[0];
    var k := if j.WatchClientJob? then Detach else ListChange;
    InvNewestOf(cfg, s, k);
    var t := Reported(s);
    assert L(t, k) == L(s, k) && forall k' :: L(t, k') == L(s, k') by { ReportedLists(s); }
    IdStored(t, k, j.notif, o.ids[0], o.genuine);
    assert s.link.outstanding[1..] + [] == s.link.outstanding[1..];
  }

  lemma ReportedLists(s: State)
    requires s.link.outstanding != []
    ensures forall k :: L(Reported(s), k) == L(s, k)
  {
  }

  lemma IdStored(s: State, k: Kind, notif: nat, id: nat, genuine: bool)
    requires NewestFirst(L(s, k))
    ensures var s' := SetMasterId(s, k, notif, id, genuine);
            && (forall n :: n in L(s, k) && n.id == notif ==>
                  (forall m :: m in L(s', k) <==> (m in L(s, k) && m.id != n.id) || m == n.(masterId := id))
                  && (forall k' :: k' != k ==> L(s', k') == L(s, k')) && s'.link.outstanding == s.link.outstanding)
            && ((forall n :: n in L(s, k) ==> n.id != notif) ==>
                  s'.lists == s.lists && s'.link.outstanding == s.link.outstanding + if s.link.connected then [ClearJob(id)] else [])
  {
    var l := L(s, k);
    NotifFound(l, notif, false);
    NotifFirst(l, notif);
    var i := NotifAt(l, notif, false);
    assert s.link.outstanding + [] == s.link.outstanding;
    hide NotifAt, NewestFirst;
    if i >= 0 { StoredAt(l, i, id); }
  }

  lemma StoredAt(l: seq<Notification>, i: nat, id: nat)
    requires NewestFirst(l) && i < |l|
    ensures l[i] in l
    ensures forall m :: m in l[i := l[i].(masterId := id)] <==> (m in l && m.id != l[i].id) || m == l[i].(masterId := id)
  {
    var n := l[i];
    assert forall m :: m in l && m.id == n.id ==> m == n;
    forall m ensures m in l[i := n.(masterId := id)] <==> m == n.(masterId := id) || (m in l && m != n) {
      UpdateMembers(l, i, n.(masterId := id), m);
    }
  }

  lemma NotifFirst(l: seq<Notification>, id: nat)
    requires NewestFirst(l)
    ensures NotifAt(l, id, false) >= 0 ==> forall m :: m in l && m.id == id ==> m == l[NotifAt(l, id, false)]
  {
    hide NotifAt;
  }

  /** The answers about a batch of servers are taken in order. */
  lemma AnswerServers(cfg: Config, s: State, o: Outcome)
    requires Enabled(cfg, s, EReport(o)) && o.Done? && s.link.outstanding[0].RegisterJob?
    ensures Step(cfg, s, EReport(o)) == RegisteredAll(Reported(s), o.parties)
  {
    hide Step, RegisteredAll;
    StepReport(cfg, s, o);
  }

  lemma {:induction false} ServerAnswersInTurn(s: State, a: seq<PartyId>, b: seq<PartyId>)
    ensures RegisteredAll(s, a + b) == RegisteredAll(RegisteredAll(s, a), b)
    ensures |a| == 1 ==> RegisteredAll(s, a) == NoteServerId(s, a[0])
    decreases |a|
  {
    hide NoteServerId;
    if a == [] {
      assert a + b == b;
    } else {
      ServerAnswersInTurn(NoteServerId(s, a[0]), a[1..], b);
      assert (a + b)[0] == a[0] && (a + b)[1..] == a[1..] + b;
      if |a| == 1 { assert RegisteredAll(NoteServerId(s, a[0]), a[1..]) == NoteServerId(s, a[0]); }
    }
  }

  /** A server that waits for its ID at the master, found by its local ID. */
  ghost predicate Pending(l: seq<Server>, i: int, local: nat) {
    0 <= i < |l| && l[i].id.local == local && l[i].masterId.local == 0xFFFF_FFFF
  }

  lemma {:induction false} PendingFirst(l: seq<Server>, local: nat)
    ensures var r := PendingAt(l, local);
            && (r >= 0 ==> Pending(l, r, local)) && (forall i :: 0 <= i < |l| && (r < 0 || i < r) ==> !Pending(l, i, local))
    decreases |l|
  {
    if l != [] {
      PendingFirst(l[1..], local);
      var r := PendingAt(l[1..], local);
      hide PendingAt;
      forall i | 1 <= i < |l| ensures Pending(l, i, local) <==> Pending(l[1..], i - 1, local) { assert l[i] == l[1..][i - 1]; }
    }
  }

  /** The first server that waits under this local ID gets the ID, unless the master refused it; if
      none waits any more, the master is told that the server is gone. */
  lemma ServerAnswered(s: State, id: PartyId)
    ensures var s' := NoteServerId(s, id);
            if i :| Pending(s.servers, i, id.local) && forall j :: 0 <= j < i ==> !Pending(s.servers, j, id.local)
            then s' == if id.ext == 0xFFFF_FFFF then s else s.(servers := s.servers[i := s.servers[i].(masterId := id)])
            else s' == s.(link := s.link.(outstanding := s.link.outstanding
                            + if s.link.connected && 0 < id.ext < 0x8000_0000 then [UnregisterJob(id)] else []))
  {
    PendingFirst(s.servers, id.local);
    assert s.link.outstanding + [] == s.link.outstanding;
    hide PendingAt;
  }

  // ---------------------------------------------------------------- connections and the link

  /** A new connection owns nothing; being marked as a slave, and the link's going up or down, change
      just that. */
  lemma PlainEvents(cfg: Config, s: State, c: nat, node: nat, uid: int, up: bool)
    ensures c > 0 && c !in s.conns ==>
              var s' := Step(cfg, s, EOpen(c, node, uid));
              s' == s.(conns := s'.conns) && s'.conns == s.conns[c := Conn([], [], [], false, node, uid)]
    ensures c in s.conns ==>
              var s' := Step(cfg, s, EMarkSlave(c));
              s' == s.(conns := s'.conns) && s'.conns == s.conns[c := s.conns[c].(slave := true)]
    ensures var s' := Step(cfg, s, ELink(up));
            s' == s.(link := s.link.(connected := up, steady := up && s.link.steady))
  {
  }
}
