/** What holds at every handler boundary of every run of the servicebroker. */
module BrokerTheorems {
  import opened BrokerTypes
  import opened ServerTable
  import opened BrokerSpec
  import opened BrokerInv
  import opened BrokerSweep
  import opened BrokerMoves
  import opened BrokerPools
  import opened BrokerHandlers
  import opened BrokerRequests
  import opened BrokerRest
  import opened BrokerClose
  import opened BrokerMaster

  lemma InitialInv(cfg: Config)
    ensures Inv(cfg, INITIAL)
  {
    assert forall k :: L(INITIAL, k) == [];
  }

  /** Every handler keeps the invariant. */
  lemma StepKeepsInv(cfg: Config, s: State, e: Event)
    requires Inv(cfg, s) && Enabled(cfg, s, e)
    ensures Inv(cfg, Step(cfg, s, e))
  {
    hide Inv, Checked, RegisterMaster, AddInterface, AddAll, AddRemotes, Unregister, Attach, DetachClient;
    hide NotifyDisconnect, NotifyAvailableEx, NotifyDetach, NotifyList, Clear, Close, MasterConnected, MasterDisconnected;
    hide Sweep, ClientDetached, FireOne, Report;
    match e
    case EOpen(c, node, uid) => OpenInv(cfg, s, c, Conn([], [], [], false, node, uid));
    case EMarkSlave(c) => MarkSlaveInv(cfg, s, c);
    case ERegister(c, iface, grpid) =>
      AddInterfaceInv(cfg, s, c, iface, grpid);
      RegisterMasterInv(cfg, AddInterface(cfg, s, c, iface, grpid));
    case ERegisterEx(c, ifaces) =>
      AddAllInv(cfg, s, c, ifaces);
      RegisterMasterInv(cfg, AddAll(cfg, s, c, ifaces));
    case ERegisterSlave(c, ds) =>
      AddRemotesInv(cfg, s, c, ds);
      RegisterMasterInv(cfg, AddRemotes(cfg, s, c, ds));
    case EUnregister(c, id) => UnregisterInv(cfg, s, c, id);
    case EAttach(c, iface) => AttachInv(cfg, s, c, iface);
    case EDetach(c, id) => DetachInv(cfg, s, c, id);
    case ENotifyDisconnect(c, id, reached) => NotifyDisconnectInv(cfg, s, c, id, reached);
    case ENotifyAvailable(c, ifaces, reached) => NotifyAvailableExInv(cfg, s, c, ifaces, reached);
    case ENotifyDetach(c, id, reached) => NotifyDetachInv(cfg, s, c, id, reached);
    case ENotifyList(c, regex, reached) => NotifyListInv(cfg, s, c, regex, reached);
    case EClear(c, notif) => ClearInv(cfg, s, c, notif);
    case EClose(c) => CloseInv(cfg, s, c);
    case EMasterConnected => MasterConnectedInv(cfg, s);
    case EMasterDisconnected => MasterDisconnectedInv(cfg, s);
    case EServerAvailable(poolId) => SweepInv(cfg, s, Available, ByPool(poolId));
    case EServerDisconnect(poolId) => SweepInv(cfg, s, Disconnect, ByPool(poolId));
    case EClientDetached(notif) => ClientDetachedInv(cfg, s, notif);
    case EListChanged(notif) => FireOneInv(cfg, s, ListChange, notif, false);
    case EReport(o) => ReportInv(cfg, s, o);
    case ELink(up) => SetLinkInv(cfg, s, up);
  }

  /** The invariant holds after every run. */
  lemma {:induction false} RunKeepsInv(cfg: Config, es: seq<Event>)
    requires IsRun(cfg, es)
    ensures Inv(cfg, After(cfg, es))
  {
    hide Inv, Step;
    if es == [] {
      InitialInv(cfg);
    } else {
      RunKeepsInv(cfg, es[..|es| - 1]);
      StepKeepsInv(cfg, After(cfg, es[..|es| - 1]), es[|es| - 1]);
    }
  }

  /** A run and one more event. */
  lemma OneMore(cfg: Config, es: seq<Event>, e: Event, s: State, s': State)
    requires IsRun(cfg, es) && After(cfg, es) == s && Enabled(cfg, s, e) && Step(cfg, s, e) == s'
    ensures IsRun(cfg, es + [e]) && After(cfg, es + [e]) == s'
  {
    hide Enabled, Step;
    assert (es + [e])[..|es + [e]| - 1] == es;
  }

  lemma ThreeMore(cfg: Config, es: seq<Event>, a: Event, b: Event, d: Event, s: State, s1: State, s2: State, s3: State)
    requires IsRun(cfg, es) && After(cfg, es) == s && Enabled(cfg, s, a) && Step(cfg, s, a) == s1
    requires Enabled(cfg, s1, b) && Step(cfg, s1, b) == s2 && Enabled(cfg, s2, d) && Step(cfg, s2, d) == s3
    ensures IsRun(cfg, es + [a] + [b] + [d]) && After(cfg, es + [a] + [b] + [d]) == s3
  {
    hide IsRun, After, Step, Enabled;
    OneMore(cfg, es, a, s, s1);
    OneMore(cfg, es + [a], b, s1, s2);
    OneMore(cfg, es + [a] + [b], d, s2, s3);
  }

  // ---------------------------------------------------------------- the headlines

  /** No lost wake-up: an active server-available notification never coexists with
      a registered server of that name and major version and a minor version at
      least as high. */
  lemma NoWakeupIsLost(cfg: Config, es: seq<Event>, n: Notification, e: Server)
    requires IsRun(cfg, es)
    requires n in After(cfg, es).lists.available && e in After(cfg, es).servers
    requires n.iface.name == e.iface.name && n.iface.major == e.iface.major && n.iface.minor <= e.iface.minor
    ensures !n.active
  {
    RunKeepsInv(cfg, es);
    hide Core, After, IsRun;
  }

  /** Every notification ever handed out is still listed, was pulsed, or was removed by a
      clear request or a close; and except for list-change notifications none is pulsed twice. */
  lemma NotificationsConserved(cfg: Config, es: seq<Event>)
    requires IsRun(cfg, es)
    ensures var s := After(cfg, es);
            && (forall id :: id in s.past.book ==>
                  id in s.past.pulses || id in s.past.withdrawn || exists n :: n in L(s, s.past.book[id].kind) && n.id == id)
            && (forall i, j :: 0 <= i < j < |s.past.pulses| && s.past.pulses[i] == s.past.pulses[j] ==>
                  s.past.pulses[i] in s.past.book && s.past.book[s.past.pulses[i]].kind == ListChange)
            && (forall k, n :: n in L(s, k) && k != ListChange ==> n.id !in s.past.pulses && n.id !in s.past.withdrawn)
  {
    RunKeepsInv(cfg, es);
    hide After, IsRun;
    var s := After(cfg, es);
    forall id | id in s.past.book
      ensures id in s.past.pulses || id in s.past.withdrawn || exists n :: n in L(s, s.past.book[id].kind) && n.id == id
    {
      assert Accounted(s, id);
    }
    forall k, n | n in L(s, k) && k != ListChange ensures n.id !in s.past.pulses && n.id !in s.past.withdrawn {
      assert Listed(s, k, n);
    }
  }

  /** Clients name registered servers and live connections that list them, whatever IDs the
      slaves send. Who owns the servers is the matter of BrokerOwners. */
  lemma ClientIntegrity(cfg: Config, es: seq<Event>)
    requires IsRun(cfg, es)
    ensures var s := After(cfg, es);
            && (forall x :: x in s.clients ==>
                  (exists e :: e in s.servers && e.id == x.server) && x.conn in s.conns && x.id in s.conns[x.conn].clients)
            && (forall i, j :: 0 <= i < j < |s.clients| ==> s.clients[i].id != s.clients[j].id)
  {
    RunKeepsInv(cfg, es);
    hide Core, After, IsRun;
    var s := After(cfg, es);
    forall x | x in s.clients
      ensures (exists e :: e in s.servers && e.id == x.server) && x.conn in s.conns && x.id in s.conns[x.conn].clients
    {
      assert ClientOk(s, x);
    }
  }

  /** Close leaves nothing behind: afterwards no list holds a notification that the
      connection registered, and no client is attached through it. */
  lemma CloseLeavesNothing(cfg: Config, es: seq<Event>, c: nat)
    requires IsRun(cfg, es + [EClose(c)])
    ensures var s := After(cfg, es + [EClose(c)]);
            && c !in s.conns
            && (forall k, n :: n in L(s, k) ==> n.id in s.past.book && s.past.book[n.id].conn != c)
            && (forall x :: x in s.clients ==> x.conn != c)
  {
    hide Close, Inv;
    var es' := es + [EClose(c)];
    assert es'[..|es'| - 1] == es;
    RunKeepsInv(cfg, es);
    RunKeepsInv(cfg, es');
    var s0 := After(cfg, es);
    var s := After(cfg, es');
    assert s == Close(cfg, s0, c);
    hide After, IsRun, Step;
    CloseInv(cfg, s0, c);
    ClosedConn(cfg, s0, c);
    CloseClientsGone(cfg, s, c);
    forall k, n | n in L(s, k) ensures n.id in s.past.book && s.past.book[n.id].conn != c {
      assert NothingOf(s, k, c);
    }
  }

  lemma ClosedConn(cfg: Config, s: State, c: nat)
    requires c in s.conns
    ensures c !in Close(cfg, s, c).conns
  {
    hide Sweep, CloseServers, CloseClients, WithdrawAll, TriggerAll;
  }

  lemma CloseClientsGone(cfg: Config, s: State, c: nat)
    requires Inv(cfg, s) && c !in s.conns
    ensures forall x :: x in s.clients ==> x.conn != c
  {
    hide Core;
    forall x | x in s.clients ensures x.conn != c { assert ClientOk(s, x); }
  }

  /** Disconnect pools are exactly counted, alive only while counted, and no ID the
      master granted in a session is forgotten while the link holds. */
  lemma PoolsExactAndLeakFree(cfg: Config, es: seq<Event>)
    requires IsRun(cfg, es)
    ensures var s := After(cfg, es);
            && (forall p :: p in s.pools && p.target.Monitor? ==> p.refCount == Count(s.lists.disconnect, p.id) && p.refCount > 0)
            && (forall i, j :: 0 <= i < j < |s.pools| ==> !SameTarget(s.pools[i].target, s.pools[j].target))
            && (s.link.steady ==> forall g :: g in s.link.granted ==>
                  g in s.link.cleared || exists p :: p in s.pools && p.grant == g)
  {
    RunKeepsInv(cfg, es);
    hide ListsOk, BookOk, HostsOk, PulsesOk, CookiesOk, After, IsRun, WatchersSound, ClientsOk, ServersOk, NoLostWakeup;
    var s := After(cfg, es);
    forall p | p in s.pools && p.target.Monitor?
      ensures p.refCount == Count(s.lists.disconnect, p.id) && p.refCount > 0
    {
      assert PoolOk(s, p);
    }
    if s.link.steady {
      forall g | g in s.link.granted ensures g in s.link.cleared || exists p :: p in s.pools && p.grant == g {
        assert g in s.link.cleared || Stored(s.pools, g);
      }
    }
  }

  /** Disconnect watchers are sound: each watches a registered server, or a foreign
      one that has a live pool at the master, found by its local ID. */
  lemma WatchersAreSound(cfg: Config, es: seq<Event>, n: Notification)
    requires IsRun(cfg, es) && n in After(cfg, es).lists.disconnect
    ensures var s := After(cfg, es);
            || (exists e :: e in s.servers && e.id == n.party)
            || (n.party.ext != cfg.ext && exists p :: p in s.pools && p.id == n.poolId && p.target.Monitor? && p.target.server.local == n.party.local)
  {
    RunKeepsInv(cfg, es);
    hide Core, After, IsRun;
    assert Registered(After(cfg, es), n.party) || Backed(After(cfg, es).pools, n);
  }

  /** Right after the master is lost, every remaining watcher watches a registered server. */
  lemma MasterLossLeavesLocalWatchers(cfg: Config, es: seq<Event>, n: Notification)
    requires IsRun(cfg, es + [EMasterDisconnected])
    requires n in After(cfg, es + [EMasterDisconnected]).lists.disconnect
    ensures exists e :: e in After(cfg, es + [EMasterDisconnected]).servers && e.id == n.party
  {
    var es' := es + [EMasterDisconnected];
    assert es'[..|es'| - 1] == es;
    RunKeepsInv(cfg, es);
    MasterDisconnectedInv(cfg, After(cfg, es));
    assert After(cfg, es') == MasterDisconnected(cfg, After(cfg, es));
    hide Inv, MasterDisconnected, After, IsRun;
    assert Registered(After(cfg, es'), n.party);
  }

  /** The table stays strictly descending by name, so the binary search is right at every step. */
  lemma TableStaysSorted(cfg: Config, es: seq<Event>)
    requires IsRun(cfg, es)
    ensures Descending(After(cfg, es).servers)
  {
    RunKeepsInv(cfg, es);
    hide Core, After, IsRun;
  }
}
