/** The servicebroker object: its tables as mutable fields, its loops as loops.
    Every method is proved to compute the handler function of the same step, and
    the dispatcher takes a valid object to a valid object, so everything proved
    about the runs of the machine holds of the object. */
module ServicebrokerClass {
  import opened BrokerTypes
  import opened ServerTable
  import opened BrokerSpec
  import opened BrokerInv
  import opened BrokerHandlers
  import opened BrokerRequests
  import opened BrokerRest
  import opened BrokerClose
  import opened BrokerTheorems
  import opened BrokerOwners

  /** std::remove on a connection's notification IDs, element by element. */
  method ShiftOut(ids: seq<nat>, x: nat) returns (r: seq<nat>)
    ensures r == StdRemove(ids, x)
  {
    hide Without, Shifted;
    r := ids;
    var dest := 0;
    ShiftStart(ids, x);
    for i := 0 to |ids|
      invariant dest <= i && |r| == |ids|
      invariant Shifted(ids, x, r, dest, i)
    {
      ShiftStep(ids, x, r, dest, i);
      if ids[i] != x {
        r := r[dest := r[i]];
        dest := dest + 1;
      }
    }
    ShiftEnd(ids, x, r, dest);
  }

  /** The first i elements are compacted into r[..dest]; what lies behind is untouched. */
  ghost predicate Shifted(ids: seq<nat>, x: nat, r: seq<nat>, dest: nat, i: nat)
    requires dest <= i <= |ids| == |r|
  {
    r[..dest] == Without(ids[..i], x) && r[dest..] == ids[dest..]
  }

  lemma ShiftStart(ids: seq<nat>, x: nat)
    ensures Shifted(ids, x, ids, 0, 0)
  {
  }

  lemma ShiftStep(ids: seq<nat>, x: nat, r: seq<nat>, dest: nat, i: nat)
    requires dest <= i < |ids| == |r| && Shifted(ids, x, r, dest, i)
    ensures if ids[i] != x then Shifted(ids, x, r[dest := r[i]], dest + 1, i + 1) else Shifted(ids, x, r, dest, i + 1)
  {
    WithoutSnoc(ids[..i], ids[i], x);
    hide Without;
    assert ids[..i + 1] == ids[..i] + [ids[i]];
    assert r[i] == r[dest..][i - dest] == ids[i];
    Overwritten(ids, r, dest, ids[i]);
  }

  lemma ShiftEnd(ids: seq<nat>, x: nat, r: seq<nat>, dest: nat)
    requires dest <= |ids| == |r| && Shifted(ids, x, r, dest, |ids|)
    ensures r == StdRemove(ids, x)
  {
    hide Without;
    assert ids[..|ids|] == ids;
    assert r == r[..dest] + r[dest..];
  }

  lemma Overwritten(ids: seq<nat>, r: seq<nat>, dest: nat, y: nat)
    requires dest < |r| == |ids| && r[dest..] == ids[dest..]
    ensures r[dest := y][..dest + 1] == r[..dest] + [y]
    ensures r[dest := y][dest + 1..] == ids[dest + 1..]
  {
    assert r[dest + 1..] == r[dest..][1..] && ids[dest + 1..] == ids[dest..][1..];
  }

  lemma {:induction false} WithoutSnoc(ids: seq<nat>, y: nat, x: nat)
    ensures Without(ids + [y], x) == if y == x then Without(ids, x) else Without(ids, x) + [y]
  {
    if ids != [] {
      assert (ids + [y])[1..] == ids[1..] + [y];
      WithoutSnoc(ids[1..], y, x);
    }
  }

  class Servicebroker {
    const cfg: Config
    var servers: seq<Server>
    var clients: seq<Client>
    var available: seq<Notification>
    var disconnect: seq<Notification>
    var detach: seq<Notification>
    var listChange: seq<Notification>
    var pools: seq<Pool>
    var conns: map<nat, Conn>
    var outstanding: seq<Job>
    var connected: bool
    var nextServer: nat
    var nextClient: nat
    var lastNotif: nat
    var nextPool: nat
    ghost var ledger: Link
    ghost var past: Past

    ghost function View(): State
      reads this
    {
      State(servers, clients, Lists(available, disconnect, detach, listChange), pools, conns,
            ledger.(connected := connected, outstanding := outstanding),
            Counters(nextServer, nextClient, lastNotif, nextPool), past)
    }

    ghost predicate Valid()
      reads this
    {
      Inv(cfg, View())
    }

    constructor (cfg: Config)
      ensures this.cfg == cfg && View() == INITIAL && Valid()
    {
      this.cfg := cfg;
      servers, clients, available, disconnect, detach, listChange := [], [], [], [], [], [];
      pools, conns, outstanding, connected := [], map[], [], false;
      nextServer, nextClient, lastNotif, nextPool := 500001, 100001, 0, 100000;
      ledger, past := Link(false, false, [], {}, {}, {}, false), Past(map[], [], {});
      new;
      InitialInv(cfg);
    }

    function Entries(k: Kind): (l: seq<Notification>)
      reads this
      ensures l == L(View(), k)
    {
      match k
      case Available => available
      case Disconnect => disconnect
      case Detach => detach
      case ListChange => listChange
    }

    method SetEntries(k: Kind, l: seq<Notification>)
      modifies this
      ensures View() == Put(old(View()), k, l)
    {
      match k
      case Available => available := l;
      case Disconnect => disconnect := l;
      case Detach => detach := l;
      case ListChange => listChange := l;
    }

    /** createClearNotificationJob. */
    method CreateClearJob(id: nat)
      modifies this
      ensures View() == QueueClear(old(View()), id)
    {
      if connected {
        outstanding := outstanding + [ClearJob(id)];
        ledger := ledger.(cleared := ledger.cleared + {id}, lent := ledger.lent - {id});
      }
    }

    /** NotificationPool::find(uint32_t), searching from the back. */
    method FindPool(id: nat) returns (pos: int)
      ensures pos == PoolAt(pools, id)
    {
      pos := |pools| - 1;
      assert pools[..pos + 1] == pools;
      while pos >= 0
        invariant -1 <= pos < |pools|
        invariant PoolAt(pools, id) == PoolAt(pools[..pos + 1], id)
      {
        if pools[pos].id == id { return; }
        assert pools[..pos + 1][..pos] == pools[..pos];
        pos := pos - 1;
      }
    }

    method FindTarget(target: Target) returns (pos: int)
      ensures pos == TargetAt(pools, target)
    {
      pos := |pools| - 1;
      assert pools[..pos + 1] == pools;
      while pos >= 0
        invariant -1 <= pos < |pools|
        invariant TargetAt(pools, target) == TargetAt(pools[..pos + 1], target)
      {
        if SameTarget(pools[pos].target, target) { return; }
        assert pools[..pos + 1][..pos] == pools[..pos];
        pos := pos - 1;
      }
    }

    method LeavePool(poolId: nat)
      modifies this
      ensures View() == DetachPool(old(View()), poolId)
    {
      var pos := FindPool(poolId);
      if pos >= 0 {
        var p := pools[pos];
        if p.refCount <= 1 {
          pools := pools[..pos] + pools[pos + 1..];
          if p.grant != INVALID {
            CreateClearJob(p.grant);
          }
        } else {
          pools := pools[pos := p.(refCount := p.refCount - 1)];
        }
      }
    }

    method ForgetNotification(c: nat, id: nat)
      modifies this
      ensures View() == Forget(old(View()), c, id)
    {
      if c in conns {
        var ids := ShiftOut(conns[c].notifs, id);
        conns := conns[c := conns[c].(notifs := ids)];
      }
    }

    /** Notification::~Notification. */
    method Destroy(n: Notification)
      modifies this
      ensures View() == Drop(old(View()), n)
    {
      if n.host.Some? {
        ForgetNotification(n.host.value, n.id);
      }
      if n.poolId != 0 {
        LeavePool(n.poolId);
      } else if n.masterId != INVALID {
        CreateClearJob(n.id);
      }
    }

    method Erase(k: Kind, i: nat)
      requires i < |Entries(k)|
      modifies this
      ensures View() == EraseAt(old(View()), k, i)
    {
      var l := Entries(k);
      SetEntries(k, l[..i] + l[i + 1..]);
      Destroy(l[i]);
    }

    /** sendNotification and erase. */
    method FireAt(k: Kind, i: nat)
      requires i < |Entries(k)|
      modifies this
      ensures View() == EraseAt(Send(old(View()), old(Entries(k))[i].id), k, i)
    {
      hide EraseAt, Entries;
      var id := Entries(k)[i].id;
      past := past.(pulses := past.pulses + [id]);
      assert View() == Send(old(View()), id);
      Erase(k, i);
    }

    method DiscardAt(k: Kind, i: nat)
      requires i < |Entries(k)|
      modifies this
      ensures View() == EraseAt(Withdraw(old(View()), old(Entries(k))[i].id), k, i)
    {
      hide EraseAt, Entries;
      var id := Entries(k)[i].id;
      past := past.(withdrawn := past.withdrawn + {id});
      assert View() == Withdraw(old(View()), id);
      Erase(k, i);
    }

    /** One turn of the loop over a notification list. */
    method TurnAt(k: Kind, r: Rule, i: nat) returns (erased: bool)
      requires i < |Entries(k)|
      modifies this
      ensures View() == Turn(cfg, old(View()), k, r, i)
      ensures erased == Erases(Act(cfg, old(View()), r, L(old(View()), k)[i]))
    {
      hide EraseAt, Put, Decide, Send, Withdraw, Entries;
      var n := Entries(k)[i];
      var a := Decide(cfg, servers, conns, r, n);
      erased := Erases(a);
      match a {
        case Keep =>
        case Fire => FireAt(k, i);
        case Discard => DiscardAt(k, i);
        case Silence => SetEntries(k, Entries(k)[i := n.(active := false)]);
      }
    }

    /** One pass over a notification list: every trigger variant and remove(idList). */
    method SweepList(k: Kind, r: Rule)
      modifies this
      ensures View() == Sweep(cfg, old(View()), k, r, 0)
    {
      hide Turn, Act;
      var i := 0;
      while i < |Entries(k)|
        invariant i <= |L(View(), k)|
        invariant Sweep(cfg, View(), k, r, i) == Sweep(cfg, old(View()), k, r, 0)
        decreases |Entries(k)| - i
      {
        var erased := TurnAt(k, r, i);
        if !erased { i := i + 1; }
      }
    }

    /** triggerAll: pulses without removing. */
    method PulseList(offer: Option<Iface>)
      modifies this`past
      ensures View() == TriggerAll(cfg, old(View()), offer)
    {
      hide ListPulses;
      ghost var sent: seq<nat> := [];
      ghost var start := past;
      for i := 0 to |listChange|
        invariant past == start.(pulses := start.pulses + sent)
        invariant sent + ListPulses(cfg, listChange[i..], offer) == ListPulses(cfg, listChange, offer)
      {
        var n := listChange[i];
        PulseStep(cfg, listChange, i, offer);
        if n.active && (n.regex.None? || (offer.Some? && cfg.matches(n.regex.value, offer.value.name))) {
          Regroup(sent, [], [n.id], ListPulses(cfg, listChange[i + 1..], offer));
          past := past.(pulses := past.pulses + [n.id]);
          sent := sent + [n.id];
        }
      }
      NoPulses(cfg, offer);
      assert listChange[|listChange|..] == [] && sent + [] == sent;
    }

    // -------------------------------------------------------------- forwarding

    /** registerInterfacesMaster: fill a batch, push it when it is full, push the rest. */
    method RegisterInterfacesMaster()
      modifies this`servers, this`outstanding
      ensures View() == RegisterMaster(cfg, old(View()))
    {
      hide Chunks, FullChunks, NeedsForwarding, RegisterJobs;
      if connected {
        var batch: seq<Server> := [];
        ghost var done: seq<Server> := [];
        ghost var jobs: seq<Job> := [];
        NoJobs();
        for i := 0 to |servers|
          invariant |batch| < MAX_MULTIPLE && |servers| == |old(servers)| && |done| % MAX_MULTIPLE == 0
          invariant jobs == RegisterJobs(FullChunks(done)) && outstanding == old(outstanding) + jobs
          invariant done + batch + Unforwarded(cfg, old(servers)[i..]) == Unforwarded(cfg, old(servers))
          invariant servers[..i] == MarkPending(cfg, old(servers))[..i] && servers[i..] == old(servers)[i..]
        {
          var e := servers[i];
          assert e == servers[i..][0] == old(servers)[i];
          assert old(servers)[i..][1..] == old(servers)[i + 1..];
          if NeedsForwarding(cfg, e) {
            batch := batch + [e];
            servers := servers[i := e.(masterId := PENDING)];
            if |batch| == MAX_MULTIPLE {
              outstanding := outstanding + [RegisterJob(batch)];
              NextRegisterJob(done, batch);
              jobs := jobs + [RegisterJob(batch)];
              done := done + batch;
              batch := [];
            }
          }
        }
        assert done + batch == Unforwarded(cfg, old(servers));
        assert servers == MarkPending(cfg, old(servers));
        LastRegisterJob(done, batch);
        if |batch| > 0 {
          outstanding := outstanding + [RegisterJob(batch)];
        }
      }
    }

    /** One server-available notification is given to a pool, new or existing. */
    method AssignPool(i: nat) returns (announced: seq<(nat, Iface)>)
      requires i < |available|
      modifies this`available, this`pools, this`nextPool
      ensures (View(), announced) == PoolOne(cfg, old(View()), i)
    {
      hide NeedsPool;
      announced := [];
      var n := available[i];
      if NeedsPool(cfg, n) {
        var pos := FindTarget(Connecting(n.iface));
        if pos < 0 {
          pools := pools + [Pool(nextPool, Connecting(n.iface), INVALID, 0)];
          available := available[i := n.(poolId := nextPool)];
          announced := [(nextPool, n.iface)];
          nextPool := nextPool + 1;
        } else {
          available := available[i := n.(poolId := pools[pos].id)];
        }
      }
    }

    /** forwardServerAvailableNotifications: one pool per interface, announced in batches. */
    method ForwardAvailableNotifications()
      modifies this`available, this`pools, this`nextPool, this`outstanding
      ensures View() == ForwardAvailable(cfg, old(View()))
    {
      hide Chunks, FullChunks, AvailableJobs, PoolOne, PoolAll;
      if connected {
        ghost var link0 := View().link;
        var batch: seq<(nat, Iface)> := [];
        ghost var goal := PoolAll(cfg, View(), 0);
        ghost var done: seq<(nat, Iface)> := [];
        ghost var jobs: seq<Job> := [];
        NoJobs();
        assert done + batch + goal.1 == goal.1;
        var i := 0;
        while i < |available|
          invariant i <= |available| && |batch| < MAX_MULTIPLE && |done| % MAX_MULTIPLE == 0
          invariant jobs == AvailableJobs(FullChunks(done)) && outstanding == old(outstanding) + jobs
          invariant goal.0 == PoolAll(cfg, View().(link := link0), i).0
          invariant goal.1 == done + batch + PoolAll(cfg, View().(link := link0), i).1
          decreases |available| - i
        {
          ghost var s := View();
          var announced := AssignPool(i);
          PoolAllStep(cfg, s, i, link0, View(), announced);
          Regroup(done, batch, announced, PoolAll(cfg, View().(link := link0), i + 1).1);
          batch := batch + announced;
          if |batch| == MAX_MULTIPLE {
            outstanding := outstanding + [AvailableJob(batch)];
            NextAvailableJob(done, batch);
            jobs := jobs + [AvailableJob(batch)];
            done := done + batch;
            batch := [];
            assert done + batch == done;
          }
          i := i + 1;
        }
        PoolAllEnd(cfg, View().(link := link0), i);
        assert done + batch == goal.1;
        LastAvailableJob(done, batch);
        if |batch| > 0 {
          outstanding := outstanding + [AvailableJob(batch)];
        }
      }
    }

    // -------------------------------------------------------------- lookups and loops of the handlers

    method FindNotification(k: Kind, id: nat, onlyActive: bool) returns (pos: int)
      ensures pos == NotifAt(Entries(k), id, onlyActive)
    {
      var l := Entries(k);
      pos := 0;
      while pos < |l|
        invariant 0 <= pos <= |l|
        invariant NotifAt(l, id, onlyActive) == (var r := NotifAt(l[pos..], id, onlyActive); if r < 0 then -1 else r + pos)
      {
        assert l[pos..][0] == l[pos] && l[pos..][1..] == l[pos + 1..];
        if l[pos].id == id && (onlyActive ==> l[pos].active) { return; }
        pos := pos + 1;
      }
      pos := -1;
    }

    method FindClient(id: PartyId) returns (pos: int)
      ensures pos == ClientAt(clients, id)
    {
      pos := 0;
      while pos < |clients|
        invariant 0 <= pos <= |clients|
        invariant ClientAt(clients, id) == (var r := ClientAt(clients[pos..], id); if r < 0 then -1 else r + pos)
      {
        assert clients[pos..][0] == clients[pos] && clients[pos..][1..] == clients[pos + 1..];
        if clients[pos].id.local == id.local { return; }
        pos := pos + 1;
      }
      pos := -1;
    }

    /** ClientList::remove. */
    method EraseClient(id: PartyId)
      modifies this`clients
      ensures clients == RemoveClient(old(clients), id)
    {
      hide RemoveClient;
      var i := 0;
      assert clients[..0] + RemoveClient(clients[0..], id) == RemoveClient(clients, id) by { assert clients[0..] == clients; }
      while i < |clients|
        invariant i <= |clients| && clients == old(clients)
        invariant clients[..i] + RemoveClient(clients[i..], id) == RemoveClient(clients, id)
      {
        EraseTurn(clients, i, id);
        if clients[i].id == id {
          clients := clients[..i] + clients[i + 1..];
          return;
        }
        i := i + 1;
      }
      EraseEnd(clients, i, id);
    }

    /** ClientList::removeServer: erase every client of a server, in place. */
    method EraseClientsOf(server: PartyId)
      modifies this`clients
      ensures clients == RemoveServerClients(old(clients), server)
    {
      var i := 0;
      while i < |clients|
        invariant i <= |clients|
        invariant clients[..i] + RemoveServerClients(clients[i..], server) == RemoveServerClients(old(clients), server)
        decreases |clients| - i
      {
        assert clients[i..][0] == clients[i] && clients[i..][1..] == clients[i + 1..];
        if clients[i].server == server {
          ghost var was := clients;
          clients := clients[..i] + clients[i + 1..];
          assert clients[..i] == was[..i] && clients[i..] == was[i + 1..];
        } else {
          assert clients[..i + 1] == clients[..i] + [clients[i]];
          i := i + 1;
        }
      }
      assert clients[..i] + [] == clients;
    }

    /** remove(notificationid_t). */
    method EraseOne(k: Kind, id: nat)
      modifies this
      ensures View() == RemoveOne(old(View()), k, id)
    {
      hide EraseAt, Entries, NotifAt, Withdraw;
      var pos := FindNotification(k, id, false);
      if pos >= 0 { DiscardAt(k, pos); }
    }

    /** trigger(notificationid_t, bool). */
    method TriggerOne(k: Kind, id: nat, removeIt: bool)
      modifies this
      ensures View() == FireOne(old(View()), k, id, removeIt)
    {
      hide EraseAt, Entries, NotifAt;
      var pos := FindNotification(k, id, true);
      if pos >= 0 {
        if removeIt {
          FireAt(k, pos);
        } else {
          past := past.(pulses := past.pulses + [id]);
        }
      }
    }

    /** NotificationList::add and ClientSpecificData::addNotification. */
    method AddNotification(k: Kind, c: nat, n: Notification)
      requires c in conns
      modifies this
      ensures View() == AddNotif(old(View()), k, c, n)
    {
      hide Entries, Put;
      ghost var s := View();
      SetEntries(k, [n.(id := lastNotif + 1)] + Entries(k));
      lastNotif := lastNotif + 1;
      conns := conns[c := conns[c].(notifs := conns[c].notifs + [lastNotif])];
      past := past.(book := past.book[lastNotif := Ticket(c, k)]);
    }

    // -------------------------------------------------------------- request handlers

    /** The common tail of addInterface and handleRegisterMasterInterface. */
    method AnnounceServer(c: nat, e: Server)
      requires c in conns && Descending(servers)
      modifies this
      ensures View() == Announce(cfg, old(View()), c, e)
    {
      hide Inserted, SetInsert, Sweep, TriggerAll;
      servers := Add(servers, e);
      conns := conns[c := conns[c].(servers := SetInsert(conns[c].servers, e.id))];
      SweepList(Available, ByOffer(e.iface, e.grpid));
      PulseList(Some(e.iface));
    }

    method AddLocalServer(c: nat, iface: Iface, grpid: int)
      requires Valid() && c in conns
      modifies this
      ensures View() == AddInterface(cfg, old(View()), c, iface, grpid)
      ensures Valid() && c in conns
    {
      hide Inv, Announce, Scan;
      AddInterfaceInv(cfg, View(), c, iface, grpid);
      InvSorted(cfg, View());
      var known := FindByName(servers, iface.name);
      if known.None? {
        nextServer := nextServer + 1;
        AnnounceServer(c, Server(PartyId(cfg.ext, nextServer - 1), NO_PARTY, iface, grpid, cfg.isLocalService(iface.name)));
      }
    }

    method HandleRegister(c: nat, iface: Iface, grpid: int)
      requires Valid() && c in conns
      modifies this
      ensures View() == Register(cfg, old(View()), c, iface, grpid)
    {
      hide Inv, Checked, AddInterface, RegisterMaster;
      if Checked(iface) && IsLocal(conns[c]) {
        AddLocalServer(c, iface, grpid);
        RegisterInterfacesMaster();
      }
    }

    method HandleRegisterEx(c: nat, ifaces: seq<Iface>)
      requires Valid() && c in conns
      modifies this
      ensures View() == RegisterEx(cfg, old(View()), c, ifaces)
    {
      hide Inv, AddInterface, RegisterMaster;
      for i := 0 to |ifaces|
        invariant Valid() && c in conns
        invariant AddAll(cfg, View(), c, ifaces[i..]) == AddAll(cfg, old(View()), c, ifaces)
      {
        AddLocalServer(c, ifaces[i], ANYBODY);
        assert ifaces[i..][1..] == ifaces[i + 1..];
      }
      RegisterInterfacesMaster();
    }

    method AddRemoteServer(c: nat, d: Remote)
      requires Descending(servers) && c in conns
      modifies this
      ensures View() == AddRemote(cfg, old(View()), c, d)
      ensures Descending(servers) && c in conns
    {
      AddRemoteSorted(cfg, View(), c, d);
      hide Announce, Scan, Checked, Descending;
      if d.id.ext == cfg.ext {
      } else if !Checked(d.iface) || d.chid <= 0 {
      } else {
        var known := FindByName(servers, d.iface.name);
        if known.None? && !(d.id.ext == 0 && cfg.ext != 1000) {
          AnnounceServer(c, Server(RemoteId(c, d.id), NO_PARTY, d.iface, ANYBODY, false));
        }
      }
    }

    /** handleRegisterMasterInterface, whatever IDs the slave sends. */
    method HandleRegisterSlave(c: nat, ds: seq<Remote>)
      requires Valid() && c in conns
      modifies this
      ensures View() == RegisterSlave(cfg, old(View()), c, ds)
      ensures Valid()
      ensures Owned(old(View())) ==> (Owned(View()) <==> UnusedIds(cfg, Names(old(View())), Ids(old(View())), c, ds))
    {
      hide Inv, AddRemote, RegisterMaster, UnusedIds, Descending, Owned;
      InvSorted(cfg, View());
      AddRemotesInv(cfg, View(), c, ds);
      RegisterMasterInv(cfg, AddRemotes(cfg, View(), c, ds));
      if Owned(View()) { SlaveKeepsOwnedIff(cfg, View(), c, ds); }
      for i := 0 to |ds|
        invariant Descending(servers) && c in conns
        invariant AddRemotes(cfg, View(), c, ds[i..]) == AddRemotes(cfg, old(View()), c, ds)
      {
        assert ds[i..][0] == ds[i] && ds[i..][1..] == ds[i + 1..];
        AddRemoteServer(c, ds[i]);
      }
      RegisterInterfacesMaster();
    }

    /** unregisterInterfaceMaster. */
    method TellMaster(masterId: PartyId)
      modifies this`outstanding
      ensures View() == UnregisterMaster(old(View()), masterId)
    {
      if 0 < masterId.ext < 0x8000_0000 && connected { outstanding := outstanding + [UnregisterJob(masterId)]; }
    }

    method RetireServer(e: Server)
      modifies this`outstanding, this`servers, this`clients
      ensures View() == Retire(old(View()), e)
    {
      hide UnregisterMaster, Removed, RemoveServerClients;
      TellMaster(e.masterId);
      servers := RemoveById(servers, e.id);
      EraseClientsOf(e.id);
    }

    /** handleUnregisterInterface. */
    method HandleUnregister(c: nat, id: PartyId)
      requires Valid() && c in conns
      modifies this
      ensures View() == Unregister(cfg, old(View()), c, id) && Valid()
      ensures id in old(conns[c].servers) && old(Registered(View(), id)) ==>
                (forall x :: x in clients ==> x.server != id) && (old(DistinctIds(servers)) ==> Gone(View(), id))
    {
      hide Inv, Gone;
      UnregisterInv(cfg, View(), c, id);
      hide Sweep, Retire, TriggerAll, SetRemove, ScanId;
      if id in conns[c].servers {
        conns := conns[c := conns[c].(servers := SetRemove(conns[c].servers, id))];
        var e := FindById(servers, id);
        if e.Some? {
          SweepList(Disconnect, ByParty(id));
          RetireServer(e.value);
          PulseList(None);
        }
      }
    }

    /** handleAttachLocalInterface and the job it may hand to the master. */
    method HandleAttach(c: nat, iface: Iface)
      requires Valid() && c in conns
      modifies this
      ensures View() == Attach(cfg, old(View()), c, iface)
    {
      hide Inv, Checked, SetInsert, ScanVersion;
      InvSorted(cfg, View());
      if Checked(iface) {
        var e := FindByVersion(servers, iface);
        if e.Some? {
          if e.value.grpid == ANYBODY || (IsLocal(conns[c]) && MayAttach(cfg, e.value.grpid, conns[c].uid)) {
            var id := PartyId(if cfg.treeMode then cfg.ext else e.value.id.ext, nextClient);
            nextClient := nextClient + 1;
            clients := clients + [Client(id, e.value.id, c)];
            conns := conns[c := conns[c].(clients := SetInsert(conns[c].clients, id))];
          }
        } else if !cfg.isLocalService(iface.name) && cfg.forwards(iface.name) && connected {
          outstanding := outstanding + [AttachJob(c, iface)];
        }
      }
    }

    /** handleDetachInterface. */
    method HandleDetach(c: nat, id: PartyId)
      requires Valid() && c in conns
      modifies this
      ensures View() == DetachClient(cfg, old(View()), c, id) && Valid()
      ensures id in old(conns[c].clients) ==> forall x :: x in clients ==> x.id != id
    {
      hide Inv;
      DetachInv(cfg, View(), c, id);
      hide Sweep, RemoveClient, SetRemove, ClientAt;
      var pos := FindClient(id);
      if id in conns[c].clients && pos >= 0 {
        SweepList(Detach, ByParty(id));
        EraseClient(id);
        if c in conns {
          conns := conns[c := conns[c].(clients := SetRemove(conns[c].clients, id))];
        }
      } else if connected {
        outstanding := outstanding + [DetachJob(id)];
        conns := conns[c := conns[c].(clients := SetRemove(conns[c].clients, id))];
      }
    }

    /** The newest disconnect notification joins the pool that monitors its server. */
    method WatchRemotely(id: PartyId)
      requires |disconnect| > 0
      modifies this`pools, this`disconnect, this`outstanding, this`nextPool
      ensures View() == JoinPool(old(View()), id)
    {
      hide TargetAt;
      ghost var s := View();
      var pos := FindTarget(Monitor(id));
      if pos >= 0 {
        pools := pools[pos := pools[pos].(refCount := pools[pos].refCount + 1)];
        disconnect := disconnect[0 := disconnect[0].(poolId := pools[pos].id)];
      } else {
        NewMonitor(id);
      }
    }

    method NewMonitor(id: PartyId)
      requires |disconnect| > 0 && TargetAt(pools, Monitor(id)) < 0
      modifies this`pools, this`disconnect, this`outstanding, this`nextPool
      ensures View() == JoinPool(old(View()), id)
    {
      hide TargetAt;
      outstanding := outstanding + [WatchServerJob(nextPool, id)];
      pools := pools + [Pool(nextPool, Monitor(id), INVALID, 1)];
      disconnect := disconnect[0 := disconnect[0].(poolId := nextPool)];
      nextPool := nextPool + 1;
    }

    method HandleNotifyDisconnect(c: nat, id: PartyId, reached: bool)
      requires c in conns
      modifies this
      ensures View() == NotifyDisconnect(cfg, old(View()), c, id, reached)
    {
      hide AddNotif, JoinPool, Sweep, ScanId;
      if conns[c].slave && !reached {
        lastNotif := lastNotif + 1;
      } else {
        var e := FindById(servers, id);
        AddLists(View(), Disconnect, c, BLANK.(host := Some(c), party := id));
        AddNotification(Disconnect, c, BLANK.(host := Some(c), party := id));
        if e.None? {
          if id.ext != cfg.ext && connected {
            WatchRemotely(id);
          } else {
            SweepList(Disconnect, ByParty(id));
          }
        }
      }
    }

    method HandleNotifyAvailable(c: nat, iface: Iface, reached: bool)
      requires Valid() && c in conns
      modifies this
      ensures View() == NotifyAvailable(cfg, old(View()), c, iface, reached)
      ensures Valid() && c in conns
    {
      hide Inv, AddNotif, Sweep, ForwardAvailable, ScanVersion, MayAttach;
      NotifyAvailableInv(cfg, View(), c, iface, reached);
      InvSorted(cfg, View());
      var e := FindByVersion(servers, iface);
      var isLocal := cfg.isLocalService(iface.name);
      if e.Some? && !MayAttach(cfg, e.value.grpid, conns[c].uid) {
      } else if conns[c].slave && !reached {
        lastNotif := lastNotif + 1;
      } else {
        var n := BLANK.(host := Some(c), iface := iface, local := isLocal, uid := conns[c].uid);
        AddLists(View(), Available, c, n);
        AddNotification(Available, c, n);
        if e.Some? {
          SweepList(Available, ByOffer(iface, ANYBODY));
        } else if !isLocal && connected {
          ForwardAvailableNotifications();
        }
      }
    }

    method HandleNotifyAvailableEx(c: nat, ifaces: seq<Iface>, reached: bool)
      requires Valid() && c in conns
      modifies this
      ensures View() == NotifyAvailableEx(cfg, old(View()), c, ifaces, reached)
    {
      hide Inv, NotifyAvailable;
      for i := 0 to |ifaces|
        invariant Valid() && c in conns
        invariant NotifyAvailableEx(cfg, View(), c, ifaces[i..], reached) == NotifyAvailableEx(cfg, old(View()), c, ifaces, reached)
      {
        HandleNotifyAvailable(c, ifaces[i], reached);
        assert ifaces[i..][1..] == ifaces[i + 1..];
      }
    }

    method HandleNotifyDetach(c: nat, id: PartyId, reached: bool)
      requires c in conns
      modifies this
      ensures View() == NotifyDetach(cfg, old(View()), c, id, reached)
    {
      hide AddNotif, Sweep, ClientAt;
      if conns[c].slave && !reached {
        lastNotif := lastNotif + 1;
      } else {
        var pos := FindClient(id);
        AddLists(View(), Detach, c, BLANK.(host := Some(c), party := id));
        AddNotification(Detach, c, BLANK.(host := Some(c), party := id));
        if connected && id.ext != cfg.ext {
          outstanding := outstanding + [WatchClientJob(lastNotif, id)];
        } else if pos < 0 {
          SweepList(Detach, ByParty(id));
        }
      }
    }

    /** The loop of handleNotifyInterfaceListMatch over the registered servers. */
    method MatchesAny(here: bool, regex: string) returns (r: bool)
      ensures r == AnyMatch(cfg, servers, here, regex)
    {
      for i := 0 to |servers|
        invariant forall j :: 0 <= j < i ==> !((here || !servers[j].local) && cfg.matches(regex, servers[j].iface.name))
      {
        if (here || !servers[i].local) && cfg.matches(regex, servers[i].iface.name) {
          assert servers[i] in servers;
          return true;
        }
      }
      return false;
    }

    method HandleNotifyList(c: nat, regex: Option<string>, usable: bool)
      requires c in conns
      modifies this
      ensures View() == NotifyList(cfg, old(View()), c, regex, usable)
    {
      hide AddNotif, AnyMatch;
      if !usable {
        lastNotif := lastNotif + 1;
      } else {
        var hit := false;
        if regex.Some? {
          hit := MatchesAny(conns[c].node == LOCAL_NODE, regex.value);
        }
        AddLists(View(), ListChange, c, BLANK.(regex := regex));
        AddNotification(ListChange, c, BLANK.(regex := regex));
        if connected { outstanding := outstanding + [WatchListJob(lastNotif)]; }
        if hit { past := past.(pulses := past.pulses + [lastNotif]); }
      }
    }

    /** handleClearNofification. */
    method HandleClear(c: nat, id: nat)
      requires Valid() && c in conns
      modifies this
      ensures View() == Clear(old(View()), c, id) && Valid()
      ensures id in old(conns[c].notifs) ==> forall k :: NoneWith(View(), k, id)
    {
      hide Inv, NoneWith;
      ClearInv(cfg, View(), c, id);
      hide Forget, RemoveOne;
      if id in conns[c].notifs {
        ForgetNotification(c, id);
        EraseOne(Detach, id);
        EraseOne(Disconnect, id);
        EraseOne(Available, id);
        EraseOne(ListChange, id);
      }
    }

    /** ClientSpecificData::clear. */
    method HandleClose(c: nat)
      requires c in conns
      modifies this
      ensures View() == Close(cfg, old(View()), c)
    {
      hide Retire, RemoveClient, Sweep, TriggerAll, ScanId;
      var me := conns[c];
      for i := 0 to |me.servers|
        invariant CloseServers(View(), me.servers[i..]) == CloseServers(old(View()), me.servers)
      {
        assert me.servers[i..][0] == me.servers[i] && me.servers[i..][1..] == me.servers[i + 1..];
        var e := FindById(servers, me.servers[i]);
        if e.Some? { RetireServer(e.value); }
      }
      ghost var s1 := View();
      CloseConnClients(me.clients);
      SweepList(Disconnect, ByParties(me.servers));
      SweepList(Detach, ByParties(me.clients));
      WithdrawNotifications(c);
      if |me.servers| > 0 { PulseList(None); }
      conns := conns - {c};
    }

    method CloseConnClients(ids: seq<PartyId>)
      modifies this`clients, this`outstanding
      ensures View() == CloseClients(old(View()), ids)
    {
      hide RemoveClient;
      for i := 0 to |ids|
        invariant CloseClients(View(), ids[i..]) == CloseClients(old(View()), ids)
      {
        assert ids[i..][0] == ids[i] && ids[i..][1..] == ids[i + 1..];
        EraseClient(ids[i]);
        if connected { outstanding := outstanding + [DetachJob(ids[i])]; }
      }
    }

    method WithdrawNotifications(c: nat)
      modifies this
      ensures View() == WithdrawAll(cfg, old(View()), c)
    {
      hide Sweep;
      SweepList(Disconnect, Withdrawal(c));
      SweepList(Detach, Withdrawal(c));
      SweepList(Available, Withdrawal(c));
      SweepList(ListChange, Withdrawal(c));
    }

    // -------------------------------------------------------------- master

    method HandleMasterConnected()
      modifies this
      ensures View() == MasterConnected(cfg, old(View()))
    {
      hide RegisterMaster, ForwardAvailable;
      NewSession(true);
      RegisterInterfacesMaster();
      ForwardAvailableNotifications();
    }

    /** History only: a session with the master begins or ends. */
    ghost method NewSession(up: bool)
      modifies this`ledger
      ensures View() == old(View()).(link := old(View()).link.(session := up, steady := up && connected, granted := {}, cleared := {}, lent := {}))
    {
      ledger := ledger.(session := up, steady := up && connected, granted := {}, cleared := {}, lent := {});
    }

    method LoseMaster()
      modifies this`servers, this`pools, this`ledger
      ensures View() == old(View()).(servers := ClearMasterIds(old(servers)), pools := [],
                                     link := old(View()).link.(session := false, steady := false, granted := {}, cleared := {}, lent := {}))
    {
      hide ClearMasterIds;
      ForgetMasterIds();
      pools := [];
      NewSession(false);
    }

    /** ServerList::clearMasterIDs. */
    method ForgetMasterIds()
      modifies this`servers
      ensures servers == ClearMasterIds(old(servers))
    {
      for i := 0 to |servers|
        invariant |servers| == |old(servers)|
        invariant servers[..i] == ClearMasterIds(old(servers))[..i] && servers[i..] == old(servers)[i..]
      {
        assert servers[i] == servers[i..][0] == old(servers)[i];
        servers := servers[i := servers[i].(masterId := NO_PARTY)];
      }
    }

    method ForgetMasterNotifications()
      modifies this`available
      ensures available == ClearMasterNotification(old(available))
    {
      for i := 0 to |available|
        invariant |available| == |old(available)|
        invariant available[..i] == ClearMasterNotification(old(available))[..i] && available[i..] == old(available)[i..]
      {
        assert available[i] == available[i..][0] == old(available)[i];
        available := available[i := available[i].(masterId := INVALID, poolId := 0)];
      }
    }

    method HandleMasterDisconnected()
      modifies this
      ensures View() == MasterDisconnected(cfg, old(View()))
    {
      hide Sweep, ClearMasterIds, ClearMasterNotification;
      LoseMaster();
      SweepList(Disconnect, Absent);
      SweepList(Detach, NotLocal);
      ForgetMasterNotifications();
    }

    method HandleClientDetached(id: nat)
      modifies this
      ensures View() == ClientDetached(cfg, old(View()), id)
    {
      hide Sweep, NotifAt, FireOne;
      var pos := FindNotification(Detach, id, false);
      if pos >= 0 {
        SweepList(Detach, ByParty(detach[pos].party));
      } else {
        TriggerOne(Detach, id, true);
      }
    }

    /** An answer of the master for one pool. */
    method StoreGrant(cookie: nat, id: nat, ghost genuine: bool)
      modifies this
      ensures View() == Grant(old(View()), cookie, id, genuine)
    {
      if genuine { ledger := ledger.(granted := ledger.granted + {id}); }
      var pos := FindPool(cookie);
      if pos >= 0 {
        pools := pools[pos := pools[pos].(grant := id)];
      } else {
        CreateClearJob(id);
      }
    }

    method StoreGrants(items: seq<(nat, Iface)>, ids: seq<nat>)
      requires |items| <= |ids|
      modifies this
      ensures View() == GrantAll(old(View()), items, ids)
    {
      hide Grant;
      for i := 0 to |items|
        invariant GrantAll(View(), items[i..], ids[i..]) == GrantAll(old(View()), items, ids)
      {
        assert items[i..][0] == items[i] && items[i..][1..] == items[i + 1..];
        assert ids[i..][0] == ids[i] && ids[i..][1..] == ids[i + 1..];
        if ids[i] != INVALID { StoreGrant(items[i].0, ids[i], true); }
      }
    }

    method StoreMasterId(k: Kind, notif: nat, id: nat, ghost genuine: bool)
      modifies this
      ensures View() == SetMasterId(old(View()), k, notif, id, genuine)
    {
      hide NotifAt, QueueClear, Put, Entries;
      if genuine { ledger := ledger.(lent := ledger.lent + {id}); }
      var pos := FindNotification(k, notif, false);
      if pos >= 0 {
        SetEntries(k, Entries(k)[pos := Entries(k)[pos].(masterId := id)]);
      } else {
        CreateClearJob(id);
      }
    }

    method FindPending(local: nat) returns (pos: int)
      ensures pos == PendingAt(servers, local)
    {
      pos := 0;
      while pos < |servers|
        invariant 0 <= pos <= |servers|
        invariant PendingAt(servers, local) == (var r := PendingAt(servers[pos..], local); if r < 0 then -1 else r + pos)
      {
        assert servers[pos..][0] == servers[pos] && servers[pos..][1..] == servers[pos + 1..];
        if servers[pos].id.local == local && servers[pos].masterId.local == REFUSED { return; }
        pos := pos + 1;
      }
      pos := -1;
    }

    method StoreRegistrations(ids: seq<PartyId>)
      modifies this
      ensures View() == RegisteredAll(old(View()), ids)
    {
      hide UnregisterMaster, PendingAt;
      for i := 0 to |ids|
        invariant RegisteredAll(View(), ids[i..]) == RegisteredAll(old(View()), ids)
      {
        assert ids[i..][0] == ids[i] && ids[i..][1..] == ids[i + 1..];
        var pos := FindPending(ids[i].local);
        if pos < 0 {
          TellMaster(ids[i]);
        } else if ids[i].ext != REFUSED {
          servers := servers[pos := servers[pos].(masterId := ids[i])];
        }
      }
    }

    /** handleJobFinished. */
    method HandleJobFinished(o: Outcome)
      requires |outstanding| > 0 && Fits(outstanding[0], o)
      modifies this
      ensures View() == Report(old(View()), o)
    {
      hide Grant, GrantAll, SetMasterId, RegisteredAll, SetInsert;
      var j := outstanding[0];
      outstanding := outstanding[1..];
      if o.Done? {
        match j
        case AttachJob(c, _) =>
          if c in conns { conns := conns[c := conns[c].(clients := SetInsert(conns[c].clients, o.parties[0]))]; }
        case WatchServerJob(cookie, _) => StoreGrant(cookie, o.ids[0], o.genuine);
        case AvailableJob(items) => StoreGrants(items, o.ids);
        case WatchClientJob(notif, _) => StoreMasterId(Detach, notif, o.ids[0], o.genuine);
        case WatchListJob(notif) => StoreMasterId(ListChange, notif, o.ids[0], o.genuine);
        case RegisterJob(_) => StoreRegistrations(o.parties);
        case _ =>
      }
    }

    // -------------------------------------------------------------- dispatch

    /** The dispatcher: every event takes the object from one valid state to the
        next state of the machine. */
    method Dispatch(e: Event)
      requires Valid() && Enabled(cfg, View(), e)
      modifies this
      ensures View() == Step(cfg, old(View()), e) && Valid()
    {
      hide Inv, Fits, Report;
      StepKeepsInv(cfg, View(), e);
      if e.ERegister? || e.ERegisterEx? || e.ERegisterSlave? || e.EUnregister? || e.EAttach? || e.EDetach? {
        DispatchRegistry(e);
      } else if e.ENotifyDisconnect? || e.ENotifyAvailable? || e.ENotifyDetach? || e.ENotifyList? || e.EClear? || e.EClose? {
        DispatchNotify(e);
      } else if e.EOpen? || e.EMarkSlave? || e.ELink? {
        DispatchLink(e);
      } else if e.EReport? {
        HandleJobFinished(e.outcome);
      } else {
        DispatchMaster(e);
      }
    }

    method DispatchRegistry(e: Event)
      requires Valid() && Enabled(cfg, View(), e)
      requires e.ERegister? || e.ERegisterEx? || e.ERegisterSlave? || e.EUnregister? || e.EAttach? || e.EDetach?
      modifies this
      ensures View() == Step(cfg, old(View()), e)
    {
      hide Inv, Register, RegisterEx, RegisterSlave, Unregister, Attach, DetachClient;
      match e
      case ERegister(c, iface, grpid) => HandleRegister(c, iface, grpid);
      case ERegisterEx(c, ifaces) => HandleRegisterEx(c, ifaces);
      case ERegisterSlave(c, ds) => HandleRegisterSlave(c, ds);
      case EUnregister(c, id) => HandleUnregister(c, id);
      case EAttach(c, iface) => HandleAttach(c, iface);
      case EDetach(c, id) => HandleDetach(c, id);
    }

    method DispatchNotify(e: Event)
      requires Valid() && Enabled(cfg, View(), e)
      requires e.ENotifyDisconnect? || e.ENotifyAvailable? || e.ENotifyDetach? || e.ENotifyList? || e.EClear? || e.EClose?
      modifies this
      ensures View() == Step(cfg, old(View()), e)
    {
      hide Inv, NotifyDisconnect, NotifyAvailableEx, NotifyDetach, NotifyList, Clear, Close;
      match e
      case ENotifyDisconnect(c, id, reached) => HandleNotifyDisconnect(c, id, reached);
      case ENotifyAvailable(c, ifaces, reached) => HandleNotifyAvailableEx(c, ifaces, reached);
      case ENotifyDetach(c, id, reached) => HandleNotifyDetach(c, id, reached);
      case ENotifyList(c, regex, reached) => HandleNotifyList(c, regex, reached);
      case EClear(c, notif) => HandleClear(c, notif);
      case EClose(c) => HandleClose(c);
    }

    method DispatchMaster(e: Event)
      requires Enabled(cfg, View(), e)
      requires e.EMasterConnected? || e.EMasterDisconnected? || e.EServerAvailable? || e.EServerDisconnect? || e.EClientDetached? || e.EListChanged?
      modifies this
      ensures View() == Step(cfg, old(View()), e)
    {
      hide MasterConnected, MasterDisconnected, Sweep, ClientDetached, FireOne, View;
      match e
      case EMasterConnected => HandleMasterConnected();
      case EMasterDisconnected => HandleMasterDisconnected();
      case EServerAvailable(poolId) => SweepList(Available, ByPool(poolId));
      case EServerDisconnect(poolId) => SweepList(Disconnect, ByPool(poolId));
      case EClientDetached(notif) => HandleClientDetached(notif);
      case EListChanged(notif) => TriggerOne(ListChange, notif, false);
    }

    method DispatchLink(e: Event)
      requires Enabled(cfg, View(), e)
      requires e.EOpen? || e.EMarkSlave? || e.ELink?
      modifies this`conns, this`connected, this`ledger
      ensures View() == Step(cfg, old(View()), e)
    {
      match e
      case EOpen(c, node, uid) => conns := conns[c := Conn([], [], [], false, node, uid)];
      case EMarkSlave(c) => conns := conns[c := conns[c].(slave := true)];
      case ELink(up) => connected, ledger := up, ledger.(steady := ledger.steady && up);
    }
  }

  lemma PulseStep(cfg: Config, l: seq<Notification>, i: nat, offer: Option<Iface>)
    requires i < |l|
    ensures ListPulses(cfg, l[i..], offer) ==
      (if l[i].active && (l[i].regex.None? || (offer.Some? && cfg.matches(l[i].regex.value, offer.value.name)))
       then [l[i].id] else []) + ListPulses(cfg, l[i + 1..], offer)
  {
    assert l[i..][0] == l[i] && l[i..][1..] == l[i + 1..];
  }

  lemma NoPulses(cfg: Config, offer: Option<Iface>)
    ensures ListPulses(cfg, [], offer) == []
  {}

  lemma InvSorted(cfg: Config, s: State)
    requires Inv(cfg, s)
    ensures Descending(s.servers)
  {
    hide Core;
  }

  lemma EraseTurn(l: seq<Client>, i: nat, id: PartyId)
    requires i < |l|
    ensures l[..i] + RemoveClient(l[i..], id)
         == if l[i].id == id then l[..i] + l[i + 1..] else l[..i + 1] + RemoveClient(l[i + 1..], id)
  {
    assert l[i..][0] == l[i] && l[i..][1..] == l[i + 1..];
    assert l[..i + 1] == l[..i] + [l[i]];
  }

  lemma EraseEnd(l: seq<Client>, i: nat, id: PartyId)
    requires i == |l|
    ensures l[..i] + RemoveClient(l[i..], id) == l
  {
  }

  /** What adding a notification leaves alone. */
  lemma AddLists(s: State, k: Kind, c: nat, n: Notification)
    requires c in s.conns
    ensures var r := AddNotif(s, k, c, n);
            && r.servers == s.servers && r.clients == s.clients && r.link == s.link && r.pools == s.pools
            && |L(r, k)| > 0 && r.next.notif == s.next.notif + 1
            && r == r.(lists := r.lists, next := r.next, conns := r.conns, past := r.past)
  {}

  lemma AddRemoteSorted(cfg: Config, s: State, c: nat, d: Remote)
    requires Descending(s.servers) && c in s.conns
    ensures var s1 := AddRemote(cfg, s, c, d); Descending(s1.servers) && c in s1.conns
  {
    hide Descending, Announce, Scan, Checked, Inserted;
    if Scan(s.servers, d.iface.name).None? {
      var e := Server(RemoteId(c, d.id), NO_PARTY, d.iface, ANYBODY, false);
      InsertKeepsOrder(s.servers, e);
      AnnouncedServers(cfg, s, c, e);
    }
  }

  // ---------------------------------------------------------------- batches

  lemma PoolAllStep(cfg: Config, s: State, i: nat, link: Link, s1: State, announced: seq<(nat, Iface)>)
    requires i < |s.lists.available| && (s1, announced) == PoolOne(cfg, s, i)
    ensures |announced| <= 1
    ensures PoolAll(cfg, s.(link := link), i).0 == PoolAll(cfg, s1.(link := link), i + 1).0
    ensures PoolAll(cfg, s.(link := link), i).1 == announced + PoolAll(cfg, s1.(link := link), i + 1).1
  {
    assert PoolOne(cfg, s.(link := link), i) == (s1.(link := link), announced);
  }

  lemma PoolAllEnd(cfg: Config, s: State, i: nat)
    requires i == |s.lists.available|
    ensures PoolAll(cfg, s, i) == (s, [])
  {}

  lemma Regroup<T>(a: seq<T>, b: seq<T>, c: seq<T>, d: seq<T>)
    ensures a + b + (c + d) == a + (b + c) + d
  {}

  lemma NoJobs()
    ensures RegisterJobs(FullChunks<Server>([])) == [] && AvailableJobs(FullChunks<(nat, Iface)>([])) == []
  {}

  lemma NextRegisterJob(done: seq<Server>, batch: seq<Server>)
    requires |done| % MAX_MULTIPLE == 0 && |batch| == MAX_MULTIPLE
    ensures |done + batch| % MAX_MULTIPLE == 0
    ensures RegisterJobs(FullChunks(done + batch)) == RegisterJobs(FullChunks(done)) + [RegisterJob(batch)]
  {
    FullSnoc(done, batch);
  }

  lemma LastRegisterJob(done: seq<Server>, batch: seq<Server>)
    requires |done| % MAX_MULTIPLE == 0 && |batch| < MAX_MULTIPLE
    ensures RegisterJobs(Chunks(done + batch)) == RegisterJobs(FullChunks(done)) + (if batch == [] then [] else [RegisterJob(batch)])
  {
    ChunksSplit(done, batch);
  }

  lemma NextAvailableJob(done: seq<(nat, Iface)>, batch: seq<(nat, Iface)>)
    requires |done| % MAX_MULTIPLE == 0 && |batch| == MAX_MULTIPLE
    ensures |done + batch| % MAX_MULTIPLE == 0
    ensures AvailableJobs(FullChunks(done + batch)) == AvailableJobs(FullChunks(done)) + [AvailableJob(batch)]
  {
    FullSnoc(done, batch);
  }

  lemma LastAvailableJob(done: seq<(nat, Iface)>, batch: seq<(nat, Iface)>)
    requires |done| % MAX_MULTIPLE == 0 && |batch| < MAX_MULTIPLE
    ensures AvailableJobs(Chunks(done + batch)) == AvailableJobs(FullChunks(done)) + (if batch == [] then [] else [AvailableJob(batch)])
  {
    ChunksSplit(done, batch);
  }

  /** Whole batches only. */
  ghost function FullChunks<T>(xs: seq<T>): seq<seq<T>>
    requires |xs| % MAX_MULTIPLE == 0
  {
    if xs == [] then [] else [xs[..MAX_MULTIPLE]] + FullChunks(xs[MAX_MULTIPLE..])
  }

  lemma {:induction false} FullSnoc<T>(xs: seq<T>, b: seq<T>)
    requires |xs| % MAX_MULTIPLE == 0 && |b| == MAX_MULTIPLE
    ensures |xs + b| % MAX_MULTIPLE == 0 && FullChunks(xs + b) == FullChunks(xs) + [b]
  {
    if xs == [] {
      assert xs + b == b && b[..MAX_MULTIPLE] == b && b[MAX_MULTIPLE..] == [];
    } else {
      FullSnoc(xs[MAX_MULTIPLE..], b);
      assert (xs + b)[MAX_MULTIPLE..] == xs[MAX_MULTIPLE..] + b;
      assert (xs + b)[..MAX_MULTIPLE] == xs[..MAX_MULTIPLE];
    }
  }

  /** The batches of the loop are the chunks of the whole. */
  lemma {:induction false} ChunksSplit<T>(xs: seq<T>, b: seq<T>)
    requires |xs| % MAX_MULTIPLE == 0 && |b| < MAX_MULTIPLE
    ensures Chunks(xs + b) == FullChunks(xs) + (if b == [] then [] else [b])
  {
    if xs == [] {
      assert xs + b == b;
    } else {
      ChunksSplit(xs[MAX_MULTIPLE..], b);
      assert (xs + b)[MAX_MULTIPLE..] == xs[MAX_MULTIPLE..] + b;
      assert (xs + b)[..MAX_MULTIPLE] == xs[..MAX_MULTIPLE];
      if |xs + b| == MAX_MULTIPLE {
        assert b == [] && xs + b == xs && xs[..MAX_MULTIPLE] == xs && xs[MAX_MULTIPLE..] == [];
      }
    }
  }
}
