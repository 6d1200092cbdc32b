/** Who waits for the end of a client, and whether anybody will tell. */
module BrokerFarewell {
  import opened BrokerTypes
  import opened ServerTable
  import opened BrokerSpec
  import opened BrokerInv
  import opened BrokerHandlers
  import opened BrokerRequests
  import opened BrokerRest
  import opened BrokerClose
  import opened BrokerTheorems
  import opened BrokerExact
  import opened BrokerOwners
  import opened BrokerConsent
  import opened BrokerEffects
  import opened BrokerWaits
  import opened BrokerRegistry
  import opened BrokerSession

  /** The master was asked about it, or the client is attached here. */
  ghost predicate Expected(s: State, asked: set<nat>, n: Notification) {
    n.id in asked || exists x :: x in s.clients && x.id == n.party
  }

  ghost predicate AllExpected(s: State, asked: set<nat>) {
    forall n :: n in s.lists.detach ==> Expected(s, asked, n)
  }

  /** The request asks the master. */
  predicate Asks(cfg: Config, s: State, e: Event) {
    e.ENotifyDetach? && e.c in s.conns && (s.conns[e.c].slave ==> e.reached) && s.link.connected && e.id.ext != cfg.ext
  }

  ghost function AskedBy(cfg: Config, s: State, e: Event): set<nat> {
    if Asks(cfg, s, e) then {s.next.notif + 1} else {}
  }

  /** What leaves somebody waiting for nothing, told before the call: a request for a client that
      only shares its local ID with an attached one, and the end of a server or of a server's
      connection while somebody waits for the end of one of its clients here. */
  ghost predicate Forsakes(cfg: Config, s: State, asked: set<nat>, e: Event) {
    match e
    case ENotifyDetach(c, id, reached) =>
      c in s.conns && (s.conns[c].slave ==> reached) && !(s.link.connected && id.ext != cfg.ext)
      && (exists x :: x in s.clients && x.id.local == id.local) && (forall x :: x in s.clients ==> x.id != id)
    case EUnregister(c, id) =>
      c in s.conns && id in s.conns[c].servers && Registered(s, id)
      && exists n, x :: n in s.lists.detach && x in s.clients && x.id == n.party && x.server == id && n.id !in asked
    case EClose(c) =>
      c in s.conns
      && exists n, x :: n in s.lists.detach && x in s.clients && x.id == n.party && x.server in s.conns[c].servers && n.id !in asked
           && n.party !in s.conns[c].clients && !RegisteredBy(s, n, c)
    case _ => false
  }

  // ---------------------------------------------------------------- what touches neither

  ghost predicate Aside(s: State, s': State) {
    s'.lists.detach == s.lists.detach && s'.clients == s.clients
  }

  lemma SweepAside(cfg: Config, s: State, k: Kind, r: Rule)
    requires k != Detach && !r.Withdrawal?
    ensures Aside(s, Sweep(cfg, s, k, r, 0))
  {
    hide Sweep;
    SweepTables(cfg, s, k, r, 0);
    ListsOf(s, Sweep(cfg, s, k, r, 0));
    hide L;
  }

  lemma AnnounceAside(cfg: Config, s: State, c: nat, e: Server)
    requires c in s.conns
    ensures Aside(s, Announce(cfg, s, c, e))
  {
    hide Announce, Greets, Those, NotifIds;
    AnnounceWelcomes(cfg, s, c, e);
  }

  lemma AddInterfaceAside(cfg: Config, s: State, c: nat, iface: Iface, grpid: int)
    requires c in s.conns
    ensures Aside(s, AddInterface(cfg, s, c, iface, grpid))
  {
    hide Announce, Scan;
    AnnounceAside(cfg, s.(next := s.next.(server := s.next.server + 1)), c,
                  Server(PartyId(cfg.ext, s.next.server), NO_PARTY, iface, grpid, cfg.isLocalService(iface.name)));
  }

  lemma {:induction false} AddAllAside(cfg: Config, s: State, c: nat, ifaces: seq<Iface>)
    requires c in s.conns
    ensures Aside(s, AddAll(cfg, s, c, ifaces))
    decreases |ifaces|
  {
    hide AddInterface;
    if ifaces != [] {
      AddInterfaceAside(cfg, s, c, ifaces[0], ANYBODY);
      var s1 := AddInterface(cfg, s, c, ifaces[0], ANYBODY);
      if c in s1.conns { AddAllAside(cfg, s1, c, ifaces[1..]); }
    }
  }

  lemma {:induction false} AddRemotesAside(cfg: Config, s: State, c: nat, ds: seq<Remote>)
    requires c in s.conns
    ensures Aside(s, AddRemotes(cfg, s, c, ds))
    decreases |ds|
  {
    if ds != [] {
      var s1 := AddRemote(cfg, s, c, ds[0]);
      assert Aside(s, s1) by {
        hide Announce, Scan, Checked;
        AnnounceAside(cfg, s, c, Server(RemoteId(c, ds[0].id), NO_PARTY, ds[0].iface, ANYBODY, false));
      }
      hide AddRemote;
      if c in s1.conns { AddRemotesAside(cfg, s1, c, ds[1..]); }
    }
  }

  lemma RegisterAside(cfg: Config, s: State)
    ensures Aside(s, RegisterMaster(cfg, s))
  {
    hide RegisterJobs, Chunks, Unforwarded, MarkPending;
  }

  lemma AddAside(s: State, k: Kind, c: nat, n: Notification)
    requires c in s.conns && k != Detach
    ensures Aside(s, AddNotif(s, k, c, n))
  {
  }

  lemma NotifyDisconnectAside(cfg: Config, s: State, c: nat, id: PartyId, reached: bool)
    requires c in s.conns
    ensures Aside(s, NotifyDisconnect(cfg, s, c, id, reached))
  {
    var n := BLANK.(host := Some(c), party := id);
    var s1 := AddNotif(s, Disconnect, c, n);
    AddAside(s, Disconnect, c, n);
    assert s1.lists.disconnect != [];
    hide AddNotif, Sweep, ScanId;
    SweepAside(cfg, s1, Disconnect, ByParty(id));
    JoinsAs(s1, id, TargetAt(s1.pools, Monitor(id)));
    hide JoinPool;
  }

  lemma {:induction false} PoolAllAside(cfg: Config, s: State, i: nat)
    requires i <= |s.lists.available|
    ensures Aside(s, PoolAll(cfg, s, i).0)
    decreases |s.lists.available| - i
  {
    hide NeedsPool, TargetAt;
    if i < |s.lists.available| { PoolAllAside(cfg, PoolOne(cfg, s, i).0, i + 1); }
  }

  lemma ForwardAside(cfg: Config, s: State)
    ensures Aside(s, ForwardAvailable(cfg, s))
  {
    hide PoolAll, AvailableJobs, Chunks;
    PoolAllAside(cfg, s, 0);
  }

  lemma NotifyAvailableAside(cfg: Config, s: State, c: nat, iface: Iface, reached: bool)
    requires c in s.conns
    ensures Aside(s, NotifyAvailable(cfg, s, c, iface, reached))
  {
    var n := BLANK.(host := Some(c), iface := iface, local := cfg.isLocalService(iface.name), uid := s.conns[c].uid);
    AddAside(s, Available, c, n);
    hide AddNotif, Sweep, ScanVersion, ForwardAvailable, MayAttach;
    SweepAside(cfg, AddNotif(s, Available, c, n), Available, ByOffer(iface, ANYBODY));
    ForwardAside(cfg, AddNotif(s, Available, c, n));
  }

  lemma {:induction false} NotifyAvailableExAside(cfg: Config, s: State, c: nat, ifaces: seq<Iface>, reached: bool)
    requires c in s.conns
    ensures Aside(s, NotifyAvailableEx(cfg, s, c, ifaces, reached))
    decreases |ifaces|
  {
    hide NotifyAvailable;
    if ifaces != [] {
      NotifyAvailableAside(cfg, s, c, ifaces[0], reached);
      var s1 := NotifyAvailable(cfg, s, c, ifaces[0], reached);
      if c in s1.conns { NotifyAvailableExAside(cfg, s1, c, ifaces[1..], reached); }
    }
  }

  lemma {:induction false} GrantAllAside(s: State, items: seq<(nat, Iface)>, ids: seq<nat>)
    requires |items| <= |ids|
    ensures Aside(s, GrantAll(s, items, ids))
    decreases |items|
  {
    hide PoolAt;
    if items != [] {
      GrantAllAside(if ids[0] == INVALID then s else Grant(s, items[0].0, ids[0], true), items[1..], ids[1..]);
    }
  }

  lemma {:induction false} RegisteredAllAside(s: State, ids: seq<PartyId>)
    ensures Aside(s, RegisteredAll(s, ids))
    decreases |ids|
  {
    hide PendingAt;
    if ids != [] { RegisteredAllAside(NoteServerId(s, ids[0]), ids[1..]); }
  }

  lemma ReportAside(s: State, o: Outcome)
    requires s.link.outstanding != [] && Fits(s.link.outstanding[0], o) && !(o.Done? && s.link.outstanding[0].WatchClientJob?)
    ensures Aside(s, Report(s, o))
  {
    var s1 := Reported(s);
    var j := s.link.outstanding[0];
    hide GrantAll, RegisteredAll, PoolAt, NotifAt, SetInsert;
    if o.Done? && j.AvailableJob? { GrantAllAside(s1, j.items, o.ids); }
    if o.Done? && j.RegisterJob? { RegisteredAllAside(s1, o.parties); }
  }

  /** The events that have to do with neither the list nor the clients. */
  ghost predicate Elsewhere(s: State, e: Event) {
    !e.EUnregister? && !e.EAttach? && !e.EDetach? && !e.ENotifyDetach? && !e.EClear? && !e.EClose?
    && !e.EMasterDisconnected? && !e.EClientDetached?
    && !(e.EReport? && e.outcome.Done? && s.link.outstanding != [] && s.link.outstanding[0].WatchClientJob?)
  }

  lemma StepAside(cfg: Config, s: State, e: Event)
    requires Enabled(cfg, s, e) && Elsewhere(s, e)
    ensures Aside(s, Step(cfg, s, e))
  {
    hide Checked, RegisterMaster, AddInterface, AddAll, AddRemotes, NotifyDisconnect, NotifyAvailableEx, ForwardAvailable, Sweep, Report;
    match e
    case ERegister(c, iface, grpid) =>
      AddInterfaceAside(cfg, s, c, iface, grpid);
      RegisterAside(cfg, AddInterface(cfg, s, c, iface, grpid));
    case ERegisterEx(c, ifaces) =>
      AddAllAside(cfg, s, c, ifaces);
      RegisterAside(cfg, AddAll(cfg, s, c, ifaces));
    case ERegisterSlave(c, ds) =>
      AddRemotesAside(cfg, s, c, ds);
      RegisterAside(cfg, AddRemotes(cfg, s, c, ds));
    case ENotifyDisconnect(c, id, reached) => NotifyDisconnectAside(cfg, s, c, id, reached);
    case ENotifyAvailable(c, ifaces, reached) => NotifyAvailableExAside(cfg, s, c, ifaces, reached);
    case ENotifyList(c, regex, reached) => hide AnyMatch;
    case EMasterConnected =>
      var s1 := s.(link := s.link.(session := true, steady := s.link.connected, granted := {}, cleared := {}, lent := {}));
      RegisterAside(cfg, s1);
      ForwardAside(cfg, RegisterMaster(cfg, s1));
    case EServerAvailable(poolId) => SweepAside(cfg, s, Available, ByPool(poolId));
    case EServerDisconnect(poolId) => SweepAside(cfg, s, Disconnect, ByPool(poolId));
    case EReport(o) => ReportAside(s, o);
    case EListChanged(notif) => hide NotifAt, EraseAt;
    case EOpen(c, node, uid) =>
    case EMarkSlave(c) =>
    case ELink(up) =>
  }

  // ---------------------------------------------------------------- what only takes away, or only adds clients

  /** Who waits still did, for the same client, and no client left. */
  ghost predicate OnlyFewer(s: State, s': State) {
    && (forall n :: n in s'.lists.detach ==> exists m :: m in s.lists.detach && m.id == n.id && m.party == n.party)
    && (forall x :: x in s.clients ==> x in s'.clients)
  }

  lemma FewerExpected(s: State, s': State, asked: set<nat>, asked': set<nat>)
    requires OnlyFewer(s, s') && AllExpected(s, asked) && asked <= asked'
    ensures AllExpected(s', asked')
  {
    forall n | n in s'.lists.detach ensures Expected(s', asked', n) {
      var m :| m in s.lists.detach && m.id == n.id && m.party == n.party;
      assert Expected(s, asked, m);
    }
  }

  lemma AsideFewer(s: State, s': State)
    requires Aside(s, s')
    ensures OnlyFewer(s, s')
  {
  }

  lemma SubsetFewer(s: State, s': State)
    requires (forall n :: n in s'.lists.detach ==> n in s.lists.detach) && s'.clients == s.clients
    ensures OnlyFewer(s, s')
  {
  }

  lemma AttachFewer(cfg: Config, s: State, c: nat, iface: Iface)
    requires c in s.conns
    ensures OnlyFewer(s, Step(cfg, s, EAttach(c, iface)))
  {
    StepAttach(cfg, s, c, iface);
    hide Step, ScanVersion, SetInsert, Checked, MayAttach;
  }

  lemma ClearFewer(cfg: Config, s: State, c: nat, id: nat)
    requires Inv(cfg, s) && c in s.conns
    ensures OnlyFewer(s, Step(cfg, s, EClear(c, id)))
  {
    hide Inv, Step, SameMembers;
    ClearTakesIt(cfg, s, c, id);
    var s' := Step(cfg, s, EClear(c, id));
    if id in s.conns[c].notifs {
      assert WithoutId(L(s, Detach), L(s', Detach), id);
    }
    SubsetFewer(s, s');
  }

  lemma DisconnectedFewer(cfg: Config, s: State)
    ensures OnlyFewer(s, Step(cfg, s, EMasterDisconnected))
  {
    hide Step, Those, Others, NotifIds, SameMembers, Deserted;
    DisconnectedWakes(cfg, s);
    SubsetFewer(s, Step(cfg, s, EMasterDisconnected));
  }

  lemma ClientEndFewer(cfg: Config, s: State, id: nat)
    requires Inv(cfg, s)
    ensures OnlyFewer(s, Step(cfg, s, EClientDetached(id)))
  {
    hide Inv, Step, Those, Others, NotifIds;
    if n :| n in s.lists.detach && n.id == id { ClientEndPulse(cfg, s, n); } else { ClientEndUnknown(cfg, s, id); }
    SubsetFewer(s, Step(cfg, s, EClientDetached(id)));
  }

  lemma AnswerFewer(cfg: Config, s: State, o: Outcome)
    requires Inv(cfg, s) && Enabled(cfg, s, EReport(o)) && o.Done? && s.link.outstanding[0].WatchClientJob?
    ensures OnlyFewer(s, Step(cfg, s, EReport(o)))
  {
    var s', j := Step(cfg, s, EReport(o)), s.link.outstanding[0];
    AnswerKept(cfg, s, o);
    AnswerClients(cfg, s, o);
    ListsOf(s, s');
    hide Inv, Step, Enabled;
    if n :| n in L(s, Detach) && n.id == j.notif {
      assert forall m :: m in L(s', Detach) ==> m in L(s, Detach) || m == n.(masterId := o.ids[0]);
    }
    hide L;
  }

  lemma AnswerClients(cfg: Config, s: State, o: Outcome)
    requires Enabled(cfg, s, EReport(o)) && o.Done? && s.link.outstanding[0].WatchClientJob?
    ensures Step(cfg, s, EReport(o)).clients == s.clients
  {
    StepReport(cfg, s, o);
    hide Step, NotifAt;
  }

  // ---------------------------------------------------------------- the four that matter

  lemma DetachExpected(cfg: Config, s: State, asked: set<nat>, c: nat, id: PartyId)
    requires Inv(cfg, s) && c in s.conns && AllExpected(s, asked)
    ensures AllExpected(Step(cfg, s, EDetach(c, id)), asked)
  {
    hide Inv, Step, Those, NotifIds;
    var s' := Step(cfg, s, EDetach(c, id));
    if id in s.conns[c].clients && exists x :: x in s.clients && x.id.local == id.local {
      DetachWakes(cfg, s, c, id);
      forall n | n in s'.lists.detach ensures Expected(s', asked, n) { assert Expected(s, asked, n); }
    } else {
      DetachForwards(cfg, s, c, id);
      AsideFewer(s, s');
      FewerExpected(s, s', asked, asked);
    }
  }

  lemma NotifyDetachIff(cfg: Config, s: State, asked: set<nat>, c: nat, id: PartyId, reached: bool)
    requires c in s.conns && AllExpected(s, asked) && forall x :: x in asked ==> x <= s.next.notif
    ensures var e := ENotifyDetach(c, id, reached);
            AllExpected(Step(cfg, s, e), asked + AskedBy(cfg, s, e)) <==> !Forsakes(cfg, s, asked, e)
  {
    var e := ENotifyDetach(c, id, reached);
    hide Step, Those, Others, NotifIds;
    var s', asked' := Step(cfg, s, e), asked + AskedBy(cfg, s, e);
    var n := Watcher(s.next.notif + 1, c, id, 0);
    if s.conns[c].slave && !reached {
      Unreached(cfg, s, c, id, None);
    } else if s.link.connected && id.ext != cfg.ext {
      EndAsked(cfg, s, c, id, reached);
      forall m | m in s'.lists.detach ensures Expected(s', asked', m) { if m != n { assert Expected(s, asked, m); } }
    } else if exists x :: x in s.clients && x.id.local == id.local {
      EndAwaited(cfg, s, c, id, reached);
      NewExpected(s, s', asked, asked', n);
    } else {
      EndMissing(cfg, s, c, id, reached);
      forall m | m in s'.lists.detach ensures Expected(s', asked', m) { assert Expected(s, asked, m); }
    }
  }

  lemma NewExpected(s: State, s': State, asked: set<nat>, asked': set<nat>, n: Notification)
    requires AllExpected(s, asked) && asked' == asked && s'.clients == s.clients
    requires s'.lists.detach == [n] + s.lists.detach && n.id !in asked
    ensures AllExpected(s', asked') <==> exists x :: x in s.clients && x.id == n.party
  {
    assert n in s'.lists.detach;
    forall m | m in s.lists.detach ensures Expected(s', asked', m) { assert Expected(s, asked, m); }
  }

  lemma UnregisterIff(cfg: Config, s: State, asked: set<nat>, c: nat, id: PartyId)
    requires Inv(cfg, s) && c in s.conns && AllExpected(s, asked)
    ensures AllExpected(Step(cfg, s, EUnregister(c, id)), asked) <==> !Forsakes(cfg, s, asked, EUnregister(c, id))
  {
    hide Inv, Step, Those, Others, NotifIds, FirstGone, Told;
    var e := EUnregister(c, id);
    var s' := Step(cfg, s, e);
    if id !in s.conns[c].servers {
      UnregisterForeign(cfg, s, c, id);
    } else if Registered(s, id) {
      UnregisterWakes(cfg, s, c, id);
      assert DistinctClients(s.clients) by { InvClients(cfg, s); }
      LostIff(s, s', asked, (x: Client) => x.server == id);
    } else {
      UnregisterMissing(cfg, s, c, id);
      UnknownServer(cfg, s, c, id);
      AsideFewer(s, s');
      FewerExpected(s, s', asked, asked);
    }
  }

  lemma InvClients(cfg: Config, s: State)
    requires Inv(cfg, s)
    ensures DistinctClients(s.clients)
  {
    hide Core;
  }

  lemma UnknownServer(cfg: Config, s: State, c: nat, id: PartyId)
    requires c in s.conns && !Registered(s, id)
    ensures Aside(s, Step(cfg, s, EUnregister(c, id)))
  {
    StepUnregister(cfg, s, c, id);
    assert ScanId(s.servers, id).None?;
    hide Step, ScanId, SetRemove;
  }

  /** Clients with a property leave, the list loses nobody it could: who then waits for nothing. */
  lemma LostIff(s: State, s': State, asked: set<nat>, gone: Client -> bool)
    requires AllExpected(s, asked) && DistinctClients(s.clients)
    requires (forall x :: x in s'.clients <==> x in s.clients && !gone(x)) && s'.lists.detach == s.lists.detach
    ensures AllExpected(s', asked)
       <==> !exists n, x :: n in s.lists.detach && x in s.clients && x.id == n.party && gone(x) && n.id !in asked
  {
    if n, x :| n in s.lists.detach && x in s.clients && x.id == n.party && gone(x) && n.id !in asked {
      OnlyClient(s.clients, x);
      assert !Expected(s', asked, n);
    } else {
      forall n | n in s'.lists.detach ensures Expected(s', asked, n) { assert Expected(s, asked, n); }
    }
  }

  lemma OnlyClient(l: seq<Client>, x: Client)
    requires DistinctClients(l) && x in l
    ensures forall y :: y in l && y.id == x.id ==> y == x
  {
  }

  lemma CloseIff(cfg: Config, s: State, asked: set<nat>, c: nat)
    requires Inv(cfg, s) && c in s.conns && AllExpected(s, asked)
    ensures AllExpected(Step(cfg, s, EClose(c)), asked) <==> !Forsakes(cfg, s, asked, EClose(c))
  {
    hide Inv, Step, Those, NotifIds, RegisteredBy;
    var s' := Step(cfg, s, EClose(c));
    CloseWakes(cfg, s, c);
    CloseEmpties(cfg, s, c);
    InvClients(cfg, s);
    if n, x :| n in s.lists.detach && x in s.clients && x.id == n.party && x.server in s.conns[c].servers && n.id !in asked
             && n.party !in s.conns[c].clients && !RegisteredBy(s, n, c) {
      OnlyClient(s.clients, x);
      hide DistinctClients;
      assert n in s'.lists.detach && !Expected(s', asked, n);
    } else {
      hide DistinctClients;
      forall n | n in s'.lists.detach ensures Expected(s', asked, n) { assert Expected(s, asked, n); }
    }
  }

  // ---------------------------------------------------------------- steps and runs

  /** An event, while everybody who waits for the end of a client is expected to be told: that stays
      so exactly when the event does not forsake anybody. */
  lemma ForsakenIff(cfg: Config, s: State, asked: set<nat>, e: Event)
    requires Inv(cfg, s) && Enabled(cfg, s, e) && AllExpected(s, asked) && forall x :: x in asked ==> x <= s.next.notif
    ensures AllExpected(Step(cfg, s, e), asked + AskedBy(cfg, s, e)) <==> !Forsakes(cfg, s, asked, e)
  {
    hide Step, AllExpected, OnlyFewer, Inv;
    var s', asked' := Step(cfg, s, e), asked + AskedBy(cfg, s, e);
    if e.ENotifyDetach? {
      NotifyDetachIff(cfg, s, asked, e.c, e.id, e.reached);
    } else {
      assert asked' == asked;
      match e
      case EUnregister(c, id) => UnregisterIff(cfg, s, asked, c, id);
      case EClose(c) => CloseIff(cfg, s, asked, c);
      case EDetach(c, id) => DetachExpected(cfg, s, asked, c, id);
      case _ =>
        hide Enabled;
        OthersFewer(cfg, s, e);
        FewerExpected(s, s', asked, asked);
    }
  }

  lemma OthersFewer(cfg: Config, s: State, e: Event)
    requires Inv(cfg, s) && Enabled(cfg, s, e) && !e.EUnregister? && !e.EClose? && !e.EDetach? && !e.ENotifyDetach?
    ensures OnlyFewer(s, Step(cfg, s, e))
  {
    hide Step, OnlyFewer, Inv, Aside;
    if e.EAttach? {
      AttachFewer(cfg, s, e.c, e.iface);
    } else if e.EClear? {
      ClearFewer(cfg, s, e.c, e.notif);
    } else if e.EMasterDisconnected? {
      DisconnectedFewer(cfg, s);
    } else if e.EClientDetached? {
      ClientEndFewer(cfg, s, e.notif);
    } else if Elsewhere(s, e) {
      StepAside(cfg, s, e);
      AsideFewer(s, Step(cfg, s, e));
    } else {
      AnswerFewer(cfg, s, e.outcome);
    }
  }

  /** The notifications about which the master was asked in the course of a run. */
  ghost function AskedIn(cfg: Config, es: seq<Event>): set<nat>
    requires IsRun(cfg, es)
    decreases |es|
  {
    if es == [] then {} else AskedIn(cfg, es[..|es| - 1]) + AskedBy(cfg, After(cfg, es[..|es| - 1]), es[|es| - 1])
  }

  ghost predicate AlwaysExpected(cfg: Config, es: seq<Event>)
    requires IsRun(cfg, es)
    decreases |es|
  {
    AllExpected(After(cfg, es), AskedIn(cfg, es)) && (es == [] || AlwaysExpected(cfg, es[..|es| - 1]))
  }

  ghost predicate NeverForsakes(cfg: Config, es: seq<Event>)
    requires IsRun(cfg, es)
    decreases |es|
  {
    es == []
    || (NeverForsakes(cfg, es[..|es| - 1])
        && !Forsakes(cfg, After(cfg, es[..|es| - 1]), AskedIn(cfg, es[..|es| - 1]), es[|es| - 1]))
  }

  lemma NotifGrows(cfg: Config, s: State, e: Event)
    requires Inv(cfg, s) && Enabled(cfg, s, e)
    ensures Step(cfg, s, e).next.notif >= s.next.notif + (if Asks(cfg, s, e) then 1 else 0)
  {
    if Asks(cfg, s, e) {
      hide Step, Inv;
      EndAsked(cfg, s, e.c, e.id, e.reached);
    } else {
      hide Step, Enabled, Inv;
      StepConsent(cfg, s, e);
    }
  }

  lemma {:induction false} AskedBounded(cfg: Config, es: seq<Event>)
    requires IsRun(cfg, es)
    ensures forall x :: x in AskedIn(cfg, es) ==> x <= After(cfg, es).next.notif
    decreases |es|
  {
    if es != [] {
      hide Inv, Step, Enabled, Asks;
      var n := |es| - 1;
      AskedBounded(cfg, es[..n]);
      RunKeepsInv(cfg, es[..n]);
      NotifGrows(cfg, After(cfg, es[..n]), es[n]);
    }
  }

  /** Over whole runs: at every handler boundary everybody who waits for the end of a client waits
      for one that is attached here, or one that the master was asked about, exactly when no event
      ever forsook anybody. */
  lemma {:induction false} ForsakenAlwaysIff(cfg: Config, es: seq<Event>)
    requires IsRun(cfg, es)
    ensures AlwaysExpected(cfg, es) <==> NeverForsakes(cfg, es)
  {
    if es == [] {
      assert AllExpected(INITIAL, {});
    } else {
      hide Inv, Step, Enabled, AllExpected, Forsakes, AskedBy;
      var n := |es| - 1;
      ForsakenAlwaysIff(cfg, es[..n]);
      RunKeepsInv(cfg, es[..n]);
      AskedBounded(cfg, es[..n]);
      if AllExpected(After(cfg, es[..n]), AskedIn(cfg, es[..n])) {
        ForsakenIff(cfg, After(cfg, es[..n]), AskedIn(cfg, es[..n]), es[n]);
      }
    }
  }

  // ---------------------------------------------------------------- such a wait

  const SERVICE := Iface("x", 1, 0)
  const SERVER_ID := PartyId(7, 500001)
  const CLIENT_ID := PartyId(7, 100001)

  /** Three local connections. */
  ghost function Three(): State {
    var conn := Conn([], [], [], false, 0, 0);
    INITIAL.(conns := map[1 := conn, 2 := conn, 3 := conn])
  }

  /** The first has a server, ... */
  ghost function Serving(cfg: Config): State {
    var conn := Conn([], [], [], false, 0, 0);
    Three().(servers := [Server(SERVER_ID, NO_PARTY, SERVICE, -1, cfg.isLocalService("x"))],
             conns := map[1 := conn.(servers := [SERVER_ID]), 2 := conn, 3 := conn],
             next := INITIAL.next.(server := 500002))
  }

  /** ... the second is its client, ... */
  ghost function Served(cfg: Config): State {
    var s := Serving(cfg);
    s.(clients := [Client(CLIENT_ID, SERVER_ID, 2)], next := s.next.(client := 100002),
       conns := s.conns[2 := s.conns[2].(clients := [CLIENT_ID])])
  }

  /** ... and the third waits for the client's end. */
  ghost function Attended(cfg: Config): State {
    var s := Served(cfg);
    s.(lists := s.lists.(detach := [Watcher(1, 3, CLIENT_ID, 0)]), next := s.next.(notif := 1),
       conns := s.conns[3 := s.conns[3].(notifs := [1])], past := s.past.(book := map[1 := Ticket(3, Detach)]))
  }

  const THREE_OPEN := [EOpen(1, 0, 0), EOpen(2, 0, 0), EOpen(3, 0, 0)]

  lemma ThreeReached(cfg: Config)
    ensures IsRun(cfg, THREE_OPEN) && After(cfg, THREE_OPEN) == Three()
  {
    var none: seq<Event> := [];
    var conn := Conn([], [], [], false, 0, 0);
    assert IsRun(cfg, none) && After(cfg, none) == INITIAL;
    hide IsRun, After;
    ThreeMore(cfg, none, EOpen(1, 0, 0), EOpen(2, 0, 0), EOpen(3, 0, 0), INITIAL,
              INITIAL.(conns := map[1 := conn]), INITIAL.(conns := map[1 := conn, 2 := conn]), Three());
    assert none + [EOpen(1, 0, 0)] + [EOpen(2, 0, 0)] + [EOpen(3, 0, 0)] == THREE_OPEN;
  }

  lemma ServingReached(cfg: Config)
    requires cfg.ext == 7
    ensures Enabled(cfg, Three(), ERegister(1, SERVICE, -1)) && Step(cfg, Three(), ERegister(1, SERVICE, -1)) == Serving(cfg)
  {
    StepRegister(cfg, Three(), 1, SERVICE, -1);
    hide Step;
    assert Checked(SERVICE);
    hide Checked;
    var e := Server(SERVER_ID, NO_PARTY, SERVICE, -1, cfg.isLocalService("x"));
    var s0 := Three().(next := INITIAL.next.(server := 500002));
    assert Inserted([], e) == [e] && SetInsert([], SERVER_ID) == [SERVER_ID];
    assert Enter(s0, 1, e) == Serving(cfg);
    NobodyListens(cfg, s0, 1, e);
  }

  /** With empty lists a server only enters the tables. */
  lemma NobodyListens(cfg: Config, s: State, c: nat, e: Server)
    requires c in s.conns && s.lists == Lists([], [], [], [])
    ensures Announce(cfg, s, c, e) == Enter(s, c, e)
  {
    hide Inserted, SetInsert;
    var s1 := Enter(s, c, e);
    assert Sweep(cfg, s1, Available, ByOffer(e.iface, e.grpid), 0) == s1;
    assert s1.past.pulses + [] == s1.past.pulses;
  }

  lemma AttachedReached(cfg: Config)
    requires cfg.ext == 7
    ensures Enabled(cfg, Serving(cfg), EAttach(2, SERVICE)) && Step(cfg, Serving(cfg), EAttach(2, SERVICE)) == Served(cfg)
  {
    var s := Serving(cfg);
    StepAttach(cfg, s, 2, SERVICE);
    hide Step;
    assert Checked(SERVICE);
    hide Checked;
    assert Scan(s.servers, "x") == Some(s.servers[0]);
    assert SetInsert([], CLIENT_ID) == [CLIENT_ID];
    var none: seq<Client> := [];
    assert none + [Client(CLIENT_ID, SERVER_ID, 2)] == [Client(CLIENT_ID, SERVER_ID, 2)];
  }

  lemma AttendedReached(cfg: Config)
    requires cfg.ext == 7
    ensures Enabled(cfg, Served(cfg), ENotifyDetach(3, CLIENT_ID, true))
         && Step(cfg, Served(cfg), ENotifyDetach(3, CLIENT_ID, true)) == Attended(cfg)
  {
    var s := Served(cfg);
    StepNotifyDetach(cfg, s, 3, CLIENT_ID, true);
    hide Step;
    assert ClientAt(s.clients, CLIENT_ID) == 0;
    var none: seq<Notification> := [];
    var nobody: seq<nat> := [];
    assert [Watcher(1, 3, CLIENT_ID, 0)] + none == [Watcher(1, 3, CLIENT_ID, 0)] && nobody + [1] == [1];
    assert s.past.book[1 := Ticket(3, Detach)] == map[1 := Ticket(3, Detach)];
  }

  /** The server goes, and with it the client: the third connection still waits, was not pulsed, and
      is not when the second detaches either. */
  lemma Unattended(cfg: Config)
    requires cfg.ext == 7
    ensures 1 in Attended(cfg).conns
    ensures var s := Step(cfg, Attended(cfg), EUnregister(1, SERVER_ID));
            && 2 in s.conns && s.clients == [] && s.lists.detach == Attended(cfg).lists.detach && s.past.pulses == []
            && Step(cfg, s, EDetach(2, CLIENT_ID)) == s && !s.link.connected
  {
    var s := Attended(cfg);
    StepUnregister(cfg, s, 1, SERVER_ID);
    hide Step;
    var s' := Unregister(cfg, s, 1, SERVER_ID);
    assert ScanId(s.servers, SERVER_ID) == Some(s.servers[0]);
    assert RemoveServerClients(s.clients, SERVER_ID) == [] by { assert s.clients[1..] == []; }
    StepDetach(cfg, s', 2, CLIENT_ID);
    assert s'.past.pulses == [];
  }

  /** The run of these eight events: a wait for the end of a client that is gone. */
  lemma WaitsForNothing(cfg: Config)
    requires cfg.ext == 7
    ensures var es := THREE_OPEN + [ERegister(1, SERVICE, -1)] + [EAttach(2, SERVICE)] + [ENotifyDetach(3, CLIENT_ID, true)]
                    + [EUnregister(1, SERVER_ID)] + [EDetach(2, CLIENT_ID)];
            IsRun(cfg, es) && (var s := After(cfg, es);
            s.clients == [] && s.lists.detach == [Watcher(1, 3, CLIENT_ID, 0)] && s.past.pulses == [])
  {
    hide IsRun, After, Step, Enabled, Serving, Served;
    ThreeReached(cfg);
    ServingReached(cfg);
    AttachedReached(cfg);
    AttendedReached(cfg);
    Unattended(cfg);
    var reg, att, wait := ERegister(1, SERVICE, -1), EAttach(2, SERVICE), ENotifyDetach(3, CLIENT_ID, true);
    var off, leave := EUnregister(1, SERVER_ID), EDetach(2, CLIENT_ID);
    var es := THREE_OPEN + [reg] + [att] + [wait];
    ThreeMore(cfg, THREE_OPEN, reg, att, wait, Three(), Serving(cfg), Served(cfg), Attended(cfg));
    MayUnregister(cfg, Attended(cfg));
    var s := Step(cfg, Attended(cfg), off);
    MayDetach(cfg, s);
    OneMore(cfg, es, off, Attended(cfg), s);
    OneMore(cfg, es + [off], leave, s, s);
  }

  lemma MayUnregister(cfg: Config, s: State)
    requires 1 in s.conns
    ensures Enabled(cfg, s, EUnregister(1, SERVER_ID))
  {
  }

  lemma MayDetach(cfg: Config, s: State)
    requires 2 in s.conns
    ensures Enabled(cfg, s, EDetach(2, CLIENT_ID))
  {
  }
}
