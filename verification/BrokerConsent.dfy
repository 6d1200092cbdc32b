/** A notification is withdrawn only at the request, or at the end, of the connection that registered it. */
module BrokerConsent {
  import opened BrokerTypes
  import opened ServerTable
  import opened BrokerSpec
  import opened BrokerInv
  import opened BrokerTheorems

  /** Nothing is withdrawn, and every ticket in the book stays as it is. */
  ghost predicate Leaves(s: State, s': State) {
    s'.past.withdrawn == s.past.withdrawn && KeepsTickets(s, s')
  }

  ghost predicate KeepsTickets(s: State, s': State) {
    && s.next.notif <= s'.next.notif
    && forall x :: x in s.past.book && x <= s.next.notif ==> x in s'.past.book && s'.past.book[x] == s.past.book[x]
  }

  lemma LeavesTrans(s: State, t: State, u: State)
    requires Leaves(s, t) && Leaves(t, u)
    ensures Leaves(s, u)
  {
  }

  lemma SameLeaves(s: State, s': State)
    requires s'.past.withdrawn == s.past.withdrawn && s'.past.book == s.past.book && s.next.notif <= s'.next.notif
    ensures Leaves(s, s')
  {
  }

  // ---------------------------------------------------------------- sweeps

  lemma TurnLeaves(cfg: Config, s: State, k: Kind, r: Rule, i: nat)
    requires i < |L(s, k)| && !r.Withdrawal?
    ensures var s' := Turn(cfg, s, k, r, i);
            s'.past.withdrawn == s.past.withdrawn && s'.past.book == s.past.book && s'.next == s.next
  {
    hide EraseAt;
  }

  lemma {:induction false} SweepLeaves(cfg: Config, s: State, k: Kind, r: Rule, i: nat)
    requires i <= |L(s, k)| && !r.Withdrawal?
    ensures var s' := Sweep(cfg, s, k, r, i);
            s'.past.withdrawn == s.past.withdrawn && s'.past.book == s.past.book && s'.next == s.next
    decreases |L(s, k)| - i
  {
    if i < |L(s, k)| {
      hide Act, Turn;
      TurnLeaves(cfg, s, k, r, i);
      SweepLeaves(cfg, Turn(cfg, s, k, r, i), k, r, if Erases(Act(cfg, s, r, L(s, k)[i])) then i else i + 1);
    }
  }

  ghost predicate Within(s: State, c: nat, mine: set<nat>) {
    c in s.conns ==> forall x :: x in s.conns[c].notifs ==> x in mine
  }

  /** Only IDs that the connection lists are withdrawn, and its list does not grow. */
  ghost predicate TakesOwn(s: State, s': State, c: nat, mine: set<nat>) {
    && Within(s', c, mine) && s'.past.withdrawn <= s.past.withdrawn + mine
    && s'.past.book == s.past.book && s'.next == s.next
  }

  lemma EraseTakesOwn(s: State, k: Kind, i: nat, c: nat, mine: set<nat>)
    requires i < |L(s, k)| && Within(s, c, mine)
    ensures TakesOwn(s, EraseAt(s, k, i), c, mine)
  {
    hide EraseAt;
    EraseForgets(s, k, i);
  }

  lemma TurnTakesOwn(cfg: Config, s: State, k: Kind, r: Rule, i: nat, c: nat, mine: set<nat>)
    requires i < |L(s, k)| && Within(s, c, mine) && (r.Withdrawal? ==> r.conn == c)
    ensures TakesOwn(s, Turn(cfg, s, k, r, i), c, mine)
  {
    var n := L(s, k)[i];
    DiscardsOwn(cfg, s, r, n);
    hide EraseAt, Act;
    match Act(cfg, s, r, n)
    case Fire => EraseTakesOwn(Send(s, n.id), k, i, c, mine);
    case Discard => EraseTakesOwn(Withdraw(s, n.id), k, i, c, mine);
    case _ => hide L;
  }

  lemma DiscardsOwn(cfg: Config, s: State, r: Rule, n: Notification)
    ensures Act(cfg, s, r, n) == Discard ==> r.Withdrawal? && r.conn in s.conns && n.id in s.conns[r.conn].notifs
  {
    hide Accepts, MayPulse, ScanId;
  }

  lemma {:induction false} SweepTakesOwn(cfg: Config, s: State, k: Kind, r: Rule, i: nat, c: nat, mine: set<nat>)
    requires i <= |L(s, k)| && Within(s, c, mine) && (r.Withdrawal? ==> r.conn == c)
    ensures TakesOwn(s, Sweep(cfg, s, k, r, i), c, mine)
    decreases |L(s, k)| - i
  {
    if i < |L(s, k)| {
      hide Act, Turn, Within;
      TurnTakesOwn(cfg, s, k, r, i, c, mine);
      SweepTakesOwn(cfg, Turn(cfg, s, k, r, i), k, r, if Erases(Act(cfg, s, r, L(s, k)[i])) then i else i + 1, c, mine);
    }
  }

  // ---------------------------------------------------------------- handlers that withdraw nothing

  lemma AnnounceLeaves(cfg: Config, s: State, c: nat, e: Server)
    requires c in s.conns
    ensures Leaves(s, Announce(cfg, s, c, e))
  {
    hide Sweep, Inserted, SetInsert, ListPulses;
    SweepLeaves(cfg, s.(servers := Inserted(s.servers, e),
                        conns := s.conns[c := s.conns[c].(servers := SetInsert(s.conns[c].servers, e.id))]),
                Available, ByOffer(e.iface, e.grpid), 0);
  }

  lemma AddInterfaceLeaves(cfg: Config, s: State, c: nat, iface: Iface, grpid: int)
    requires c in s.conns
    ensures Leaves(s, AddInterface(cfg, s, c, iface, grpid))
  {
    hide Announce, Scan;
    AnnounceLeaves(cfg, s.(next := s.next.(server := s.next.server + 1)), c,
                   Server(PartyId(cfg.ext, s.next.server), NO_PARTY, iface, grpid, cfg.isLocalService(iface.name)));
  }

  lemma {:induction false} AddAllLeaves(cfg: Config, s: State, c: nat, ifaces: seq<Iface>)
    requires c in s.conns
    ensures Leaves(s, AddAll(cfg, s, c, ifaces))
    decreases |ifaces|
  {
    if ifaces == [] { return; }
    hide AddInterface, Leaves;
    var s1 := AddInterface(cfg, s, c, ifaces[0], ANYBODY);
    AddInterfaceLeaves(cfg, s, c, ifaces[0], ANYBODY);
    if c in s1.conns {
      AddAllLeaves(cfg, s1, c, ifaces[1..]);
      LeavesTrans(s, s1, AddAll(cfg, s1, c, ifaces[1..]));
    }
  }

  lemma AddRemoteLeaves(cfg: Config, s: State, c: nat, d: Remote)
    requires c in s.conns
    ensures Leaves(s, AddRemote(cfg, s, c, d))
  {
    hide Announce, Scan, Checked;
    AnnounceLeaves(cfg, s, c, Server(RemoteId(c, d.id), NO_PARTY, d.iface, ANYBODY, false));
  }

  lemma {:induction false} AddRemotesLeaves(cfg: Config, s: State, c: nat, ds: seq<Remote>)
    requires c in s.conns
    ensures Leaves(s, AddRemotes(cfg, s, c, ds))
    decreases |ds|
  {
    if ds == [] { return; }
    hide AddRemote, Leaves;
    var s1 := AddRemote(cfg, s, c, ds[0]);
    AddRemoteLeaves(cfg, s, c, ds[0]);
    if c in s1.conns {
      AddRemotesLeaves(cfg, s1, c, ds[1..]);
      LeavesTrans(s, s1, AddRemotes(cfg, s1, c, ds[1..]));
    }
  }

  lemma RegisterLeaves(cfg: Config, s: State, t: State)
    requires Leaves(s, t)
    ensures Leaves(s, RegisterMaster(cfg, t))
  {
    hide RegisterJobs, Chunks, Unforwarded, MarkPending;
  }

  lemma UnregisterLeaves(cfg: Config, s: State, c: nat, id: PartyId)
    requires c in s.conns
    ensures Leaves(s, Unregister(cfg, s, c, id))
  {
    hide Sweep, ScanId, SetRemove, Removed, RemoveServerClients, ListPulses;
    var s1 := s.(conns := s.conns[c := s.conns[c].(servers := SetRemove(s.conns[c].servers, id))]);
    SweepLeaves(cfg, s1, Disconnect, ByParty(id), 0);
  }

  lemma DetachLeaves(cfg: Config, s: State, c: nat, id: PartyId)
    requires c in s.conns
    ensures Leaves(s, DetachClient(cfg, s, c, id))
  {
    hide Sweep, ClientAt, RemoveClient, SetRemove;
    SweepLeaves(cfg, s, Detach, ByParty(id), 0);
  }

  lemma NotifyDisconnectLeaves(cfg: Config, s: State, c: nat, id: PartyId, reached: bool)
    requires c in s.conns
    ensures Leaves(s, NotifyDisconnect(cfg, s, c, id, reached))
  {
    hide Sweep, ScanId, TargetAt;
    SweepLeaves(cfg, AddNotif(s, Disconnect, c, BLANK.(host := Some(c), party := id)), Disconnect, ByParty(id), 0);
  }

  lemma NotifyDetachLeaves(cfg: Config, s: State, c: nat, id: PartyId, reached: bool)
    requires c in s.conns
    ensures Leaves(s, NotifyDetach(cfg, s, c, id, reached))
  {
    hide Sweep, ClientAt;
    SweepLeaves(cfg, AddNotif(s, Detach, c, BLANK.(host := Some(c), party := id)), Detach, ByParty(id), 0);
  }

  lemma {:induction false} PoolAllLeaves(cfg: Config, s: State, i: nat)
    requires i <= |s.lists.available|
    ensures PoolAll(cfg, s, i).0.past == s.past && PoolAll(cfg, s, i).0.next.notif == s.next.notif
    decreases |s.lists.available| - i
  {
    hide NeedsPool, TargetAt;
    if i < |s.lists.available| { PoolAllLeaves(cfg, PoolOne(cfg, s, i).0, i + 1); }
  }

  lemma ForwardLeaves(cfg: Config, s: State, t: State)
    requires Leaves(s, t)
    ensures Leaves(s, ForwardAvailable(cfg, t))
  {
    hide PoolAll, AvailableJobs, Chunks;
    PoolAllLeaves(cfg, t, 0);
  }

  lemma NotifyAvailableLeaves(cfg: Config, s: State, c: nat, iface: Iface, reached: bool)
    requires c in s.conns
    ensures Leaves(s, NotifyAvailable(cfg, s, c, iface, reached))
  {
    hide Sweep, ScanVersion, ForwardAvailable, MayAttach;
    var s1 := AddNotif(s, Available, c,
                       BLANK.(host := Some(c), iface := iface, local := cfg.isLocalService(iface.name), uid := s.conns[c].uid));
    SweepLeaves(cfg, s1, Available, ByOffer(iface, ANYBODY), 0);
    ForwardLeaves(cfg, s, s1);
  }

  lemma {:induction false} NotifyAvailableExLeaves(cfg: Config, s: State, c: nat, ifaces: seq<Iface>, reached: bool)
    requires c in s.conns
    ensures Leaves(s, NotifyAvailableEx(cfg, s, c, ifaces, reached))
    decreases |ifaces|
  {
    if ifaces == [] { return; }
    hide NotifyAvailable, Leaves;
    var s1 := NotifyAvailable(cfg, s, c, ifaces[0], reached);
    NotifyAvailableLeaves(cfg, s, c, ifaces[0], reached);
    if c in s1.conns {
      NotifyAvailableExLeaves(cfg, s1, c, ifaces[1..], reached);
      LeavesTrans(s, s1, NotifyAvailableEx(cfg, s1, c, ifaces[1..], reached));
    }
  }

  lemma NotifyListLeaves(cfg: Config, s: State, c: nat, regex: Option<string>, usable: bool)
    requires c in s.conns
    ensures Leaves(s, NotifyList(cfg, s, c, regex, usable))
  {
    hide AnyMatch;
  }

  lemma MasterDisconnectedLeaves(cfg: Config, s: State)
    ensures Leaves(s, MasterDisconnected(cfg, s))
  {
    hide Sweep, ClearMasterIds, ClearMasterNotification;
    var s1 := s.(servers := ClearMasterIds(s.servers), pools := [],
                 link := s.link.(session := false, steady := false, granted := {}, cleared := {}, lent := {}));
    SweepLeaves(cfg, s1, Disconnect, Absent, 0);
    SweepLeaves(cfg, Sweep(cfg, s1, Disconnect, Absent, 0), Detach, NotLocal, 0);
  }

  lemma ClientDetachedLeaves(cfg: Config, s: State, id: nat)
    ensures Leaves(s, ClientDetached(cfg, s, id))
  {
    hide Sweep, NotifAt, EraseAt;
    var i := NotifAt(s.lists.detach, id, false);
    if i >= 0 { SweepLeaves(cfg, s, Detach, ByParty(s.lists.detach[i].party), 0); }
  }

  lemma {:induction false} GrantAllLeaves(s: State, items: seq<(nat, Iface)>, ids: seq<nat>)
    requires |items| <= |ids|
    ensures GrantAll(s, items, ids).past == s.past && GrantAll(s, items, ids).next == s.next
    decreases |items|
  {
    hide PoolAt;
    if items != [] {
      GrantAllLeaves(if ids[0] == INVALID then s else Grant(s, items[0].0, ids[0], true), items[1..], ids[1..]);
    }
  }

  lemma {:induction false} RegisteredAllLeaves(s: State, ids: seq<PartyId>)
    ensures RegisteredAll(s, ids).past == s.past && RegisteredAll(s, ids).next == s.next
    decreases |ids|
  {
    hide PendingAt;
    if ids != [] { RegisteredAllLeaves(NoteServerId(s, ids[0]), ids[1..]); }
  }

  lemma ReportLeaves(s: State, o: Outcome)
    requires s.link.outstanding != [] && Fits(s.link.outstanding[0], o)
    ensures Leaves(s, Report(s, o))
  {
    var s1 := s.(link := s.link.(outstanding := s.link.outstanding[1..]));
    var j := s.link.outstanding[0];
    hide Grant, GrantAll, RegisteredAll, SetMasterId, SetInsert;
    if o.Done? && j.AvailableJob? { GrantAllLeaves(s1, j.items, o.ids); }
    if o.Done? && j.RegisterJob? { RegisteredAllLeaves(s1, o.parties); }
    if o.Done? && j.WatchServerJob? { AnswerLeaves(s1, j.cookie, Detach, 0, o.ids[0], o.genuine); }
    if o.Done? && j.WatchClientJob? { AnswerLeaves(s1, 0, Detach, j.notif, o.ids[0], o.genuine); }
    if o.Done? && j.WatchListJob? { AnswerLeaves(s1, 0, ListChange, j.notif, o.ids[0], o.genuine); }
    SameLeaves(s, Report(s, o));
  }

  lemma AnswerLeaves(s: State, cookie: nat, k: Kind, notif: nat, id: nat, genuine: bool)
    ensures var t := Grant(s, cookie, id, genuine); t.past == s.past && t.next == s.next
    ensures var t := SetMasterId(s, k, notif, id, genuine); t.past == s.past && t.next == s.next
  {
    hide PoolAt, NotifAt;
  }

  // ---------------------------------------------------------------- the two that do

  ghost function Own(s: State, c: nat): set<nat>
    requires c in s.conns
  {
    set x | x in s.conns[c].notifs
  }

  lemma RemoveOneTakes(s: State, k: Kind, id: nat)
    ensures var s' := RemoveOne(s, k, id);
            s'.past.withdrawn <= s.past.withdrawn + {id} && s'.past.book == s.past.book && s'.next == s.next
  {
    hide NotifAt, EraseAt;
  }

  lemma ClearTakes(s: State, c: nat, id: nat)
    requires c in s.conns
    ensures var s' := Clear(s, c, id);
            && s'.past.withdrawn <= s.past.withdrawn + (if id in s.conns[c].notifs then {id} else {})
            && s'.past.book == s.past.book && s'.next == s.next
  {
    hide RemoveOne, Forget;
    var s0 := Forget(s, c, id);
    var s1 := RemoveOne(s0, Detach, id);
    var s2 := RemoveOne(s1, Disconnect, id);
    var s3 := RemoveOne(s2, Available, id);
    RemoveOneTakes(s0, Detach, id);
    RemoveOneTakes(s1, Disconnect, id);
    RemoveOneTakes(s2, Available, id);
    RemoveOneTakes(s3, ListChange, id);
  }

  lemma {:induction false} CloseServersSame(s: State, ids: seq<PartyId>)
    ensures var s' := CloseServers(s, ids); s'.past == s.past && s'.next == s.next && s'.conns == s.conns
    decreases |ids|
  {
    hide ScanId, Removed, RemoveServerClients;
    if ids != [] {
      var e := ScanId(s.servers, ids[0]);
      CloseServersSame(if e.Some? then Retire(s, e.value) else s, ids[1..]);
    }
  }

  lemma {:induction false} CloseClientsSame(s: State, ids: seq<PartyId>)
    ensures var s' := CloseClients(s, ids); s'.past == s.past && s'.next == s.next && s'.conns == s.conns
    decreases |ids|
  {
    hide RemoveClient;
    if ids != [] {
      var s1 := s.(clients := RemoveClient(s.clients, ids[0]));
      CloseClientsSame(if s.link.connected then Push(s1, DetachJob(ids[0])) else s1, ids[1..]);
    }
  }

  lemma TakesOwnTrans(s: State, t: State, u: State, c: nat, mine: set<nat>)
    requires TakesOwn(s, t, c, mine) && TakesOwn(t, u, c, mine)
    ensures TakesOwn(s, u, c, mine)
  {
  }

  /** One more sweep of a close. */
  lemma ThenTakes(cfg: Config, s: State, t: State, k: Kind, r: Rule, c: nat, mine: set<nat>)
    requires TakesOwn(s, t, c, mine) && (r.Withdrawal? ==> r.conn == c)
    ensures TakesOwn(s, Sweep(cfg, t, k, r, 0), c, mine)
  {
    SweepTakesOwn(cfg, t, k, r, 0, c, mine);
    TakesOwnTrans(s, t, Sweep(cfg, t, k, r, 0), c, mine);
  }

  lemma CloseTakes(cfg: Config, s: State, c: nat)
    requires c in s.conns
    ensures var s' := Close(cfg, s, c);
            s'.past.withdrawn <= s.past.withdrawn + Own(s, c) && s'.past.book == s.past.book && s'.next == s.next
  {
    var me, mine := s.conns[c], Own(s, c);
    CloseServersSame(s, me.servers);
    CloseClientsSame(CloseServers(s, me.servers), me.clients);
    var s1 := CloseClients(CloseServers(s, me.servers), me.clients);
    hide CloseServers, CloseClients, Sweep, ListPulses;
    assert TakesOwn(s, s1, c, mine);
    var s2 := Sweep(cfg, s1, Disconnect, ByParties(me.servers), 0);
    var s3 := Sweep(cfg, s2, Detach, ByParties(me.clients), 0);
    var t1 := Sweep(cfg, s3, Disconnect, Withdrawal(c), 0);
    var t2 := Sweep(cfg, t1, Detach, Withdrawal(c), 0);
    var t3 := Sweep(cfg, t2, Available, Withdrawal(c), 0);
    assert Close(cfg, s, c).past.withdrawn == Sweep(cfg, t3, ListChange, Withdrawal(c), 0).past.withdrawn;
    assert Close(cfg, s, c).past.book == Sweep(cfg, t3, ListChange, Withdrawal(c), 0).past.book;
    assert Close(cfg, s, c).next == Sweep(cfg, t3, ListChange, Withdrawal(c), 0).next;
    hide Close, WithdrawAll, Within;
    ThenTakes(cfg, s, s1, Disconnect, ByParties(me.servers), c, mine);
    ThenTakes(cfg, s, s2, Detach, ByParties(me.clients), c, mine);
    ThenTakes(cfg, s, s3, Disconnect, Withdrawal(c), c, mine);
    ThenTakes(cfg, s, t1, Detach, Withdrawal(c), c, mine);
    ThenTakes(cfg, s, t2, Available, Withdrawal(c), c, mine);
    ThenTakes(cfg, s, t3, ListChange, Withdrawal(c), c, mine);
  }

  // ---------------------------------------------------------------- steps and runs

  predicate Withdraws(e: Event, x: nat, owner: nat) {
    (e.EClear? && e.notif == x && e.c == owner) || (e.EClose? && e.c == owner)
  }

  lemma StepLeaves(cfg: Config, s: State, e: Event)
    requires Enabled(cfg, s, e) && !e.EClear? && !e.EClose?
    ensures Leaves(s, Step(cfg, s, e))
  {
    hide Leaves, Checked, RegisterMaster, AddInterface, AddAll, AddRemotes, Unregister, Attach, DetachClient;
    hide NotifyDisconnect, NotifyAvailableEx, NotifyDetach, NotifyList, MasterDisconnected, ForwardAvailable;
    hide Sweep, ClientDetached, Report;
    SameLeaves(s, s);
    match e
    case ERegister(c, iface, grpid) =>
      AddInterfaceLeaves(cfg, s, c, iface, grpid);
      RegisterLeaves(cfg, s, AddInterface(cfg, s, c, iface, grpid));
    case ERegisterEx(c, ifaces) =>
      AddAllLeaves(cfg, s, c, ifaces);
      RegisterLeaves(cfg, s, AddAll(cfg, s, c, ifaces));
    case ERegisterSlave(c, ds) =>
      AddRemotesLeaves(cfg, s, c, ds);
      RegisterLeaves(cfg, s, AddRemotes(cfg, s, c, ds));
    case EUnregister(c, id) => UnregisterLeaves(cfg, s, c, id);
    case EAttach(c, iface) => AttachLeaves(cfg, s, c, iface);
    case EDetach(c, id) => DetachLeaves(cfg, s, c, id);
    case ENotifyDisconnect(c, id, reached) => NotifyDisconnectLeaves(cfg, s, c, id, reached);
    case ENotifyAvailable(c, ifaces, reached) => NotifyAvailableExLeaves(cfg, s, c, ifaces, reached);
    case ENotifyDetach(c, id, reached) => NotifyDetachLeaves(cfg, s, c, id, reached);
    case ENotifyList(c, regex, reached) => NotifyListLeaves(cfg, s, c, regex, reached);
    case EMasterConnected => ConnectedLeaves(cfg, s);
    case EMasterDisconnected => MasterDisconnectedLeaves(cfg, s);
    case EServerAvailable(poolId) =>
      SweepLeaves(cfg, s, Available, ByPool(poolId), 0);
      SameLeaves(s, Sweep(cfg, s, Available, ByPool(poolId), 0));
    case EServerDisconnect(poolId) =>
      SweepLeaves(cfg, s, Disconnect, ByPool(poolId), 0);
      SameLeaves(s, Sweep(cfg, s, Disconnect, ByPool(poolId), 0));
    case EClientDetached(notif) => ClientDetachedLeaves(cfg, s, notif);
    case EReport(o) => ReportLeaves(s, o);
    case _ => PlainLeaves(cfg, s, e);
  }

  lemma AttachLeaves(cfg: Config, s: State, c: nat, iface: Iface)
    requires c in s.conns
    ensures Leaves(s, Attach(cfg, s, c, iface))
  {
    hide ScanVersion, SetInsert, Checked, MayAttach;
  }

  lemma ConnectedLeaves(cfg: Config, s: State)
    ensures Leaves(s, MasterConnected(cfg, s))
  {
    var s1 := s.(link := s.link.(session := true, steady := s.link.connected, granted := {}, cleared := {}, lent := {}));
    SameLeaves(s, s1);
    hide Leaves, RegisterMaster, ForwardAvailable;
    RegisterLeaves(cfg, s, s1);
    ForwardLeaves(cfg, s, RegisterMaster(cfg, s1));
  }

  lemma PlainLeaves(cfg: Config, s: State, e: Event)
    requires Enabled(cfg, s, e) && (e.EOpen? || e.EMarkSlave? || e.EListChanged? || e.ELink?)
    ensures Leaves(s, Step(cfg, s, e))
  {
    hide NotifAt, EraseAt;
  }

  lemma OwnListed(cfg: Config, s: State, c: nat, x: nat)
    requires Inv(cfg, s) && c in s.conns && x in s.conns[c].notifs
    ensures x in s.past.book && s.past.book[x].conn == c
  {
    hide ListsOk, BookOk, PulsesOk, PoolsOk, CookiesOk, NoLeak, NoLostWakeup, WatchersSound, ServersOk, ClientsOk;
  }

  /** A step withdraws a notification only as a request of its owner, or with its owner. */
  lemma StepConsent(cfg: Config, s: State, e: Event)
    requires Inv(cfg, s) && Enabled(cfg, s, e)
    ensures var s' := Step(cfg, s, e);
            && KeepsTickets(s, s')
            && forall x :: x in s'.past.withdrawn && x !in s.past.withdrawn ==>
                 x in s.past.book && Withdraws(e, x, s.past.book[x].conn)
  {
    hide Inv;
    if e.EClear? {
      hide Clear;
      ClearTakes(s, e.c, e.notif);
      if e.notif in s.conns[e.c].notifs { OwnListed(cfg, s, e.c, e.notif); }
    } else if e.EClose? {
      hide Close;
      CloseTakes(cfg, s, e.c);
      forall x | x in s.conns[e.c].notifs ensures x in s.past.book && s.past.book[x].conn == e.c { OwnListed(cfg, s, e.c, x); }
    } else {
      hide Step, Enabled;
      StepLeaves(cfg, s, e);
    }
  }

  lemma BookBounded(cfg: Config, s: State)
    requires Inv(cfg, s)
    ensures forall x :: x in s.past.book ==> x <= s.next.notif
    ensures forall x :: x in s.past.withdrawn ==> x in s.past.book
  {
    hide ListsOk, HostsOk, PulsesOk, PoolsOk, CookiesOk, NoLeak, NoLostWakeup, WatchersSound, ServersOk, ClientsOk, Accounted;
  }

  /** After every run, each withdrawn notification was cleared by the connection that
      registered it, or went with that connection. */
  lemma {:induction false} WithdrawnByOwner(cfg: Config, es: seq<Event>, x: nat)
    requires IsRun(cfg, es) && x in After(cfg, es).past.withdrawn
    ensures x in After(cfg, es).past.book
    ensures exists i :: 0 <= i < |es| && Withdraws(es[i], x, After(cfg, es).past.book[x].conn)
    decreases |es|
  {
    RunKeepsInv(cfg, es);
    BookBounded(cfg, After(cfg, es));
    hide Inv, Step, Enabled, Withdraws;
    if es != [] {
      var n := |es| - 1;
      var s := After(cfg, es[..n]);
      RunKeepsInv(cfg, es[..n]);
      BookBounded(cfg, s);
      StepConsent(cfg, s, es[n]);
      if x in s.past.withdrawn {
        WithdrawnByOwner(cfg, es[..n], x);
        var i :| 0 <= i < n && Withdraws(es[..n][i], x, s.past.book[x].conn);
        assert es[i] == es[..n][i];
      } else {
        assert Withdraws(es[n], x, s.past.book[x].conn);
      }
    }
  }
}
