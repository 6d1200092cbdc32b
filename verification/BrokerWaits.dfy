/** What those who wait get: an ID, and an answer at once, a watch at the master, or a place in a list. */
module BrokerWaits {
  import opened BrokerTypes
  import opened ServerTable
  import opened BrokerSpec
  import opened BrokerInv
  import opened BrokerSweep
  import opened BrokerMoves
  import opened BrokerPools
  import opened BrokerHandlers
  import opened BrokerRequests
  import opened BrokerRest
  import opened BrokerTheorems
  import opened BrokerExact
  import opened BrokerEffects

  // ---------------------------------------------------------------- a new notification

  /** The next ID is handed out to connection c for a notification of kind k. */
  ghost predicate Handed(s: State, s': State, k: Kind, c: nat)
    requires c in s.conns
  {
    && s'.next.notif == s.next.notif + 1 && s'.past.book == s.past.book[s.next.notif + 1 := Ticket(c, k)]
    && s'.conns.Keys == s.conns.Keys && (forall d :: d in s.conns && d != c ==> s'.conns[d] == s.conns[d])
    && s'.conns[c] == s.conns[c].(notifs := s.conns[c].notifs + [s.next.notif + 1])
    && s'.servers == s.servers && s'.clients == s.clients && s'.past.withdrawn == s.past.withdrawn
  }

  /** As Handed, but the notification is gone again, and with it others: connections may forget IDs. */
  ghost predicate Spent(s: State, s': State, k: Kind, c: nat) {
    && s'.next == s.next.(notif := s.next.notif + 1) && s'.past.book == s.past.book[s.next.notif + 1 := Ticket(c, k)]
    && s'.servers == s.servers && s'.clients == s.clients && s'.past.withdrawn == s.past.withdrawn
    && SameMembers(s.conns, s'.conns)
  }

  /** The connection's pulse port cannot be reached: the ID is used up, and that is all. */
  lemma Unreached(cfg: Config, s: State, c: nat, id: PartyId, regex: Option<string>)
    requires c in s.conns && s.conns[c].slave
    ensures var s' := s.(next := s.next.(notif := s.next.notif + 1));
            && Step(cfg, s, ENotifyDisconnect(c, id, false)) == s' && Step(cfg, s, ENotifyDetach(c, id, false)) == s'
            && Step(cfg, s, ENotifyList(c, regex, false)) == s'
  {
    StepNotifyDisconnect(cfg, s, c, id, false);
    StepNotifyDetach(cfg, s, c, id, false);
    StepNotifyList(cfg, s, c, regex, false);
    hide Step;
  }

  // ---------------------------------------------------------------- the end of a server

  lemma StepNotifyDisconnect(cfg: Config, s: State, c: nat, id: PartyId, reached: bool)
    requires c in s.conns
    ensures Step(cfg, s, ENotifyDisconnect(c, id, reached)) == NotifyDisconnect(cfg, s, c, id, reached)
  {
    hide NotifyDisconnect;
  }

  ghost function Watcher(id: nat, c: nat, party: PartyId, poolId: nat): Notification {
    Notification(id, INVALID, poolId, Some(c), party, Iface("", 0, 0), false, -1, true, None)
  }

  /** The server is here: the client waits. */
  lemma WatchRegistered(cfg: Config, s: State, c: nat, id: PartyId, reached: bool)
    requires c in s.conns && (s.conns[c].slave ==> reached) && exists e :: e in s.servers && e.id == id
    ensures var s' := Step(cfg, s, ENotifyDisconnect(c, id, reached));
            && Handed(s, s', Disconnect, c) && s'.next == s.next.(notif := s.next.notif + 1)
            && s'.lists == s.lists.(disconnect := [Watcher(s.next.notif + 1, c, id, 0)] + s.lists.disconnect)
            && s'.past.pulses == s.past.pulses && s'.pools == s.pools && s'.link == s.link
  {
    StepNotifyDisconnect(cfg, s, c, id, reached);
    hide Step, ScanId;
  }

  /** A foreign server while the master is connected, and a live pool monitors that local ID: the
      client shares the pool, which counts one more. */
  lemma WatchShared(cfg: Config, s: State, c: nat, id: PartyId, reached: bool, p: Pool)
    requires Inv(cfg, s) && c in s.conns && (s.conns[c].slave ==> reached) && (forall e :: e in s.servers ==> e.id != id)
    requires id.ext != cfg.ext && s.link.connected && p in s.pools && p.target.Monitor? && p.target.server.local == id.local
    ensures var s' := Step(cfg, s, ENotifyDisconnect(c, id, reached));
            && Handed(s, s', Disconnect, c) && s'.past.pulses == s.past.pulses && s'.link == s.link
            && s'.lists == s.lists.(disconnect := [Watcher(s.next.notif + 1, c, id, p.id)] + s.lists.disconnect)
            && (forall q :: q in s'.pools <==> q == p.(refCount := p.refCount + 1) || (q in s.pools && q != p))
  {
    hide Step, Inv, ScanId, NotifyDisconnect, AddNotif, JoinPool, PoolOrder;
    var pos := TargetAt(s.pools, Monitor(id));
    JoinsHere(cfg, s, c, id, reached, pos);
    InvPools(cfg, s);
    SharedIs(s.pools, p, id);
    hide TargetAt;
  }

  lemma InvPools(cfg: Config, s: State)
    requires Inv(cfg, s)
    ensures PoolOrder(s.pools)
  {
    hide ListsOk, BookOk, HostsOk, PulsesOk, CookiesOk, NoLeak, NoLostWakeup, WatchersSound, ServersOk, ClientsOk;
  }

  lemma SharedIs(pools: seq<Pool>, p: Pool, id: PartyId)
    requires PoolOrder(pools) && p in pools && p.target.Monitor? && p.target.server.local == id.local
    ensures var pos := TargetAt(pools, Monitor(id));
            && pos >= 0 && pools[pos] == p
            && forall q :: q in pools[pos := p.(refCount := p.refCount + 1)] <==> q == p.(refCount := p.refCount + 1) || (q in pools && q != p)
  {
    var pos := TargetAt(pools, Monitor(id));
    var i :| 0 <= i < |pools| && pools[i] == p;
    hide TargetAt;
    assert pos >= 0 && i == pos;
    forall q ensures q in pools[pos := p.(refCount := p.refCount + 1)] <==> q == p.(refCount := p.refCount + 1) || (q in pools && q != p) {
      UpdateMembers(pools, pos, p.(refCount := p.refCount + 1), q);
    }
  }

  /** No such pool: the client gets one of its own, and the master is asked about the server. */
  lemma WatchAsked(cfg: Config, s: State, c: nat, id: PartyId, reached: bool)
    requires c in s.conns && (s.conns[c].slave ==> reached) && (forall e :: e in s.servers ==> e.id != id)
    requires id.ext != cfg.ext && s.link.connected
    requires forall p :: p in s.pools && p.target.Monitor? ==> p.target.server.local != id.local
    ensures var s' := Step(cfg, s, ENotifyDisconnect(c, id, reached));
            && Handed(s, s', Disconnect, c) && s'.past.pulses == s.past.pulses
            && s'.lists == s.lists.(disconnect := [Watcher(s.next.notif + 1, c, id, s.next.pool)] + s.lists.disconnect)
            && s'.pools == s.pools + [Pool(s.next.pool, Monitor(id), INVALID, 1)]
            && s'.link == s.link.(outstanding := s.link.outstanding + [WatchServerJob(s.next.pool, id)])
  {
    hide Step, ScanId, NotifyDisconnect, AddNotif, JoinPool;
    var pos := TargetAt(s.pools, Monitor(id));
    JoinsHere(cfg, s, c, id, reached, pos);
    hide TargetAt;
  }

  lemma JoinsHere(cfg: Config, s: State, c: nat, id: PartyId, reached: bool, pos: int)
    requires c in s.conns && (s.conns[c].slave ==> reached) && (forall e :: e in s.servers ==> e.id != id)
    requires id.ext != cfg.ext && s.link.connected && pos == TargetAt(s.pools, Monitor(id))
    ensures var s' := Step(cfg, s, ENotifyDisconnect(c, id, reached));
            var poolId := if pos >= 0 then s.pools[pos].id else s.next.pool;
            && Handed(s, s', Disconnect, c) && s'.past.pulses == s.past.pulses
            && s'.lists == s.lists.(disconnect := [Watcher(s.next.notif + 1, c, id, poolId)] + s.lists.disconnect)
            && s'.link == s.link.(outstanding := s.link.outstanding + if pos >= 0 then [] else [WatchServerJob(s.next.pool, id)])
            && (if pos >= 0 then s'.pools == s.pools[pos := s.pools[pos].(refCount := s.pools[pos].refCount + 1)]
                else s'.pools == s.pools + [Pool(s.next.pool, Monitor(id), INVALID, 1)])
  {
    hide Step, TargetAt, NotifyDisconnect, AddNotif, JoinPool;
    StepNotifyDisconnect(cfg, s, c, id, reached);
    var n := BLANK.(host := Some(c), party := id);
    var s1 := AddNotif(s, Disconnect, c, n);
    AddedWatcher(s, c, id);
    JoinsOnly(cfg, s, c, id, reached);
    assert s1.lists.disconnect[1..] == s.lists.disconnect;
    JoinsAs(s1, id, pos);
  }

  lemma JoinsOnly(cfg: Config, s: State, c: nat, id: PartyId, reached: bool)
    requires c in s.conns && (s.conns[c].slave ==> reached) && (forall e :: e in s.servers ==> e.id != id)
    requires id.ext != cfg.ext && s.link.connected
    ensures var s1 := AddNotif(s, Disconnect, c, BLANK.(host := Some(c), party := id));
            s1.lists.disconnect != [] && NotifyDisconnect(cfg, s, c, id, reached) == JoinPool(s1, id)
  {
    hide JoinPool;
    assert ScanId(s.servers, id).None?;
  }

  lemma AddedWatcher(s: State, c: nat, id: PartyId)
    requires c in s.conns
    ensures var s1 := AddNotif(s, Disconnect, c, BLANK.(host := Some(c), party := id));
            && Handed(s, s1, Disconnect, c) && s1.next == s.next.(notif := s.next.notif + 1) && s1.past.pulses == s.past.pulses
            && s1.lists == s.lists.(disconnect := [Watcher(s.next.notif + 1, c, id, 0)] + s.lists.disconnect)
            && s1.pools == s.pools && s1.link == s.link
  {
  }

  lemma JoinsAs(s: State, id: PartyId, pos: int)
    requires s.lists.disconnect != [] && pos == TargetAt(s.pools, Monitor(id))
    ensures var s' := JoinPool(s, id);
            var poolId := if pos >= 0 then s.pools[pos].id else s.next.pool;
            && s'.lists == s.lists.(disconnect := [s.lists.disconnect[0].(poolId := poolId)] + s.lists.disconnect[1..])
            && s' == s.(lists := s'.lists, pools := s'.pools, link := s'.link, next := s'.next)
            && s'.next == s.next.(pool := if pos >= 0 then s.next.pool else s.next.pool + 1)
            && s'.link == s.link.(outstanding := s.link.outstanding + if pos >= 0 then [] else [WatchServerJob(s.next.pool, id)])
            && (if pos >= 0 then s'.pools == s.pools[pos := s.pools[pos].(refCount := s.pools[pos].refCount + 1)]
                else s'.pools == s.pools + [Pool(s.next.pool, Monitor(id), INVALID, 1)])
  {
    hide TargetAt;
    assert s.link.outstanding + [] == s.link.outstanding;
    var l := s.lists.disconnect;
    assert forall n :: l[0 := n] == [n] + l[1..];
  }

  /** Nobody can watch the server: the client is pulsed at once, and so is everybody else who
      watches it. */
  lemma WatchMissing(cfg: Config, s: State, c: nat, id: PartyId, reached: bool)
    requires c in s.conns && (s.conns[c].slave ==> reached) && (forall e :: e in s.servers ==> e.id != id)
    requires !(id.ext != cfg.ext && s.link.connected)
    ensures var s' := Step(cfg, s, ENotifyDisconnect(c, id, reached));
            && Spent(s, s', Disconnect, c)
            && s'.past.pulses == s.past.pulses + [s.next.notif + 1] + NotifIds(Those(s.lists.disconnect, Watching(id)))
            && s'.lists == s.lists.(disconnect := Others(s.lists.disconnect, Watching(id)))
  {
    StepNotifyDisconnect(cfg, s, c, id, reached);
    assert ScanId(s.servers, id).None?;
    hide Step, ScanId, Sweep, Spent, Those, Others, NotifIds;
    var n := BLANK.(host := Some(c), party := id);
    AddThenFire(cfg, s, Disconnect, c, n, ByParty(id), Watching(id));
    ListsOf(s, Sweep(cfg, AddNotif(s, Disconnect, c, n), Disconnect, ByParty(id), 0));
    hide AddNotif;
  }

  /** A new notification whose rule fires it leaves with the others that fire. */
  lemma AddThenFire(cfg: Config, s: State, k: Kind, c: nat, n: Notification, r: Rule, p: Notification -> bool)
    requires c in s.conns && !r.Withdrawal? && p(n.(id := s.next.notif + 1))
    requires FiresOnly(cfg, s.servers, r, [n.(id := s.next.notif + 1)] + L(s, k), p)
    ensures var s' := Sweep(cfg, AddNotif(s, k, c, n), k, r, 0);
            && Spent(s, s', k, c) && L(s', k) == Others(L(s, k), p) && (forall k' :: k' != k ==> L(s', k') == L(s, k'))
            && s'.past.pulses == s.past.pulses + [s.next.notif + 1] + NotifIds(Those(L(s, k), p))
  {
    hide Sweep, FiresOnly, TablesStay, Those, Others, NotifIds, Spent, AddNotif;
    var s1 := AddNotif(s, k, c, n);
    AddedLists(s, k, c, n);
    SweepFires(cfg, s1, k, r, p);
    FirstFires(n.(id := s.next.notif + 1), L(s, k), p);
    AddSpends(s, k, c, n, Sweep(cfg, s1, k, r, 0));
    hide L;
    assert s.past.pulses + ([s.next.notif + 1] + NotifIds(Those(L(s, k), p))) == s.past.pulses + [s.next.notif + 1] + NotifIds(Those(L(s, k), p));
  }

  lemma AddedLists(s: State, k: Kind, c: nat, n: Notification)
    requires c in s.conns
    ensures var s1 := AddNotif(s, k, c, n);
            && L(s1, k) == [n.(id := s.next.notif + 1)] + L(s, k) && (forall k' :: k' != k ==> L(s1, k') == L(s, k'))
            && s1.past.pulses == s.past.pulses && s1.servers == s.servers && s1.link == s.link && s1.pools == s.pools
  {
  }

  lemma AddSpends(s: State, k: Kind, c: nat, n: Notification, s': State)
    requires c in s.conns && TablesStay(AddNotif(s, k, c, n), s')
    ensures Spent(s, s', k, c)
  {
    hide L;
    var s1 := AddNotif(s, k, c, n);
    forall d | d in s.conns ensures s'.conns[d] == s.conns[d].(notifs := s'.conns[d].notifs) { assert d in s1.conns; }
  }

  lemma FirstFires(m: Notification, l: seq<Notification>, p: Notification -> bool)
    requires p(m)
    ensures Others([m] + l, p) == Others(l, p) && NotifIds(Those([m] + l, p)) == [m.id] + NotifIds(Those(l, p))
  {
    assert ([m] + l)[0] == m && ([m] + l)[1..] == l;
    IdsJoin([m], Those(l, p));
    hide NotifIds;
  }

  // ---------------------------------------------------------------- the end of a client

  lemma StepNotifyDetach(cfg: Config, s: State, c: nat, id: PartyId, reached: bool)
    requires c in s.conns
    ensures Step(cfg, s, ENotifyDetach(c, id, reached)) == NotifyDetach(cfg, s, c, id, reached)
  {
    hide NotifyDetach;
  }

  /** A foreign client while the master is connected: the master is asked under the new ID. */
  lemma EndAsked(cfg: Config, s: State, c: nat, id: PartyId, reached: bool)
    requires c in s.conns && (s.conns[c].slave ==> reached) && s.link.connected && id.ext != cfg.ext
    ensures var s' := Step(cfg, s, ENotifyDetach(c, id, reached));
            && Handed(s, s', Detach, c) && s'.next == s.next.(notif := s.next.notif + 1)
            && s'.lists == s.lists.(detach := [Watcher(s.next.notif + 1, c, id, 0)] + s.lists.detach)
            && s'.past.pulses == s.past.pulses && s'.pools == s.pools
            && s'.link == s.link.(outstanding := s.link.outstanding + [WatchClientJob(s.next.notif + 1, id)])
  {
    StepNotifyDetach(cfg, s, c, id, reached);
    hide Step, ClientAt;
  }

  /** Otherwise the client waits while somebody with that local ID is attached here. */
  lemma EndAwaited(cfg: Config, s: State, c: nat, id: PartyId, reached: bool)
    requires c in s.conns && (s.conns[c].slave ==> reached) && !(s.link.connected && id.ext != cfg.ext)
    requires exists x :: x in s.clients && x.id.local == id.local
    ensures var s' := Step(cfg, s, ENotifyDetach(c, id, reached));
            && Handed(s, s', Detach, c) && s'.next == s.next.(notif := s.next.notif + 1)
            && s'.lists == s.lists.(detach := [Watcher(s.next.notif + 1, c, id, 0)] + s.lists.detach)
            && s'.past.pulses == s.past.pulses && s'.pools == s.pools && s'.link == s.link
  {
    StepNotifyDetach(cfg, s, c, id, reached);
    ClientAtNone(s.clients, id);
    hide Step, ClientAt;
  }

  /** And is pulsed at once, with all who wait for the same client, if nobody is. */
  lemma EndMissing(cfg: Config, s: State, c: nat, id: PartyId, reached: bool)
    requires c in s.conns && (s.conns[c].slave ==> reached) && !(s.link.connected && id.ext != cfg.ext)
    requires forall x :: x in s.clients ==> x.id.local != id.local
    ensures var s' := Step(cfg, s, ENotifyDetach(c, id, reached));
            && Spent(s, s', Detach, c)
            && s'.past.pulses == s.past.pulses + [s.next.notif + 1] + NotifIds(Those(s.lists.detach, Watching(id)))
            && s'.lists == s.lists.(detach := Others(s.lists.detach, Watching(id)))
  {
    StepNotifyDetach(cfg, s, c, id, reached);
    ClientAtNone(s.clients, id);
    hide Step, Sweep, ClientAt, Spent, Those, Others, NotifIds;
    var n := BLANK.(host := Some(c), party := id);
    AddThenFire(cfg, s, Detach, c, n, ByParty(id), Watching(id));
    ListsOf(s, Sweep(cfg, AddNotif(s, Detach, c, n), Detach, ByParty(id), 0));
    hide AddNotif;
  }

  // ---------------------------------------------------------------- changes of the list

  lemma StepNotifyList(cfg: Config, s: State, c: nat, regex: Option<string>, usable: bool)
    requires c in s.conns
    ensures Step(cfg, s, ENotifyList(c, regex, usable)) == NotifyList(cfg, s, c, regex, usable)
  {
    hide NotifyList;
  }

  /** A list notification is added, the connected master is asked under its ID, and it is pulsed at
      once when its expression matches a server that the client may see: any one for clients of this
      node, those that are not local for others. */
  lemma ListWatched(cfg: Config, s: State, c: nat, regex: Option<string>)
    requires c in s.conns
    ensures var s' := Step(cfg, s, ENotifyList(c, regex, true));
            var id := s.next.notif + 1;
            var seen := regex.Some? && exists e :: e in s.servers && (s.conns[c].node == 0 || !e.local) && cfg.matches(regex.value, e.iface.name);
            && Handed(s, s', ListChange, c) && s'.next == s.next.(notif := id) && s'.pools == s.pools
            && s'.lists == s.lists.(listChange := [Notification(id, INVALID, 0, None, NO_PARTY, Iface("", 0, 0), false, -1, true, regex)] + s.lists.listChange)
            && s'.link == s.link.(outstanding := s.link.outstanding + if s.link.connected then [WatchListJob(id)] else [])
            && s'.past.pulses == s.past.pulses + if seen then [id] else []
  {
    StepNotifyList(cfg, s, c, regex, true);
    assert s.link.outstanding + [] == s.link.outstanding && s.past.pulses + [] == s.past.pulses;
    hide Step;
  }

  // ---------------------------------------------------------------- a server

  /** Who may wait for a server of a group: unlike an attach, from any node. */
  ghost predicate MayWait(cfg: Config, uid: int, grpid: int) {
    grpid == -1 || (uid != -1 && (uid == 0 || cfg.inGroup(grpid, uid)))
  }

  /** A request for several interfaces is as good as requests for each of them, in order. */
  lemma {:induction false} WishesInTurn(cfg: Config, s: State, c: nat, a: seq<Iface>, b: seq<Iface>, reached: bool)
    requires Inv(cfg, s) && c in s.conns
    ensures var t := NotifyAvailableEx(cfg, s, c, a, reached);
            c in t.conns && NotifyAvailableEx(cfg, s, c, a + b, reached) == NotifyAvailableEx(cfg, t, c, b, reached)
    decreases |a|
  {
    hide Inv, NotifyAvailable;
    if a == [] {
      assert a + b == b;
    } else {
      var s1 := NotifyAvailable(cfg, s, c, a[0], reached);
      NotifyAvailableInv(cfg, s, c, a[0], reached);
      WishesInTurn(cfg, s1, c, a[1..], b, reached);
      assert (a + b)[0] == a[0] && (a + b)[1..] == a[1..] + b;
    }
  }

  lemma StepWishes(cfg: Config, s: State, c: nat, ifaces: seq<Iface>, reached: bool)
    requires c in s.conns
    ensures Step(cfg, s, ENotifyAvailable(c, ifaces, reached)) == NotifyAvailableEx(cfg, s, c, ifaces, reached)
  {
    hide NotifyAvailableEx;
  }

  lemma StepWish(cfg: Config, s: State, c: nat, iface: Iface, reached: bool)
    requires c in s.conns
    ensures Step(cfg, s, ENotifyAvailable(c, [iface], reached)) == NotifyAvailable(cfg, s, c, iface, reached)
  {
    hide Step, NotifyAvailable;
    var ifaces := [iface];
    StepWishes(cfg, s, c, ifaces, reached);
    var s1 := NotifyAvailable(cfg, s, c, iface, reached);
    assert ifaces[0] == iface && ifaces[1..] == [];
    if c in s1.conns { assert NotifyAvailableEx(cfg, s1, c, ifaces[1..], reached) == s1; }
  }

  ghost function Wisher(cfg: Config, id: nat, c: nat, iface: Iface, poolId: nat, uid: int): Notification {
    Notification(id, INVALID, poolId, Some(c), NO_PARTY, iface, cfg.isLocalService(iface.name), uid, true, None)
  }

  /** A server fits, but the client may not know of it: nothing happens. If it may, but cannot be
      reached, an ID is used up. */
  lemma WishDenied(cfg: Config, s: State, c: nat, iface: Iface, reached: bool, e: Server)
    requires Inv(cfg, s) && c in s.conns && Fitting(s, iface, e)
    requires !MayWait(cfg, s.conns[c].uid, e.grpid) || (s.conns[c].slave && !reached)
    ensures Step(cfg, s, ENotifyAvailable(c, [iface], reached))
         == if MayWait(cfg, s.conns[c].uid, e.grpid) then s.(next := s.next.(notif := s.next.notif + 1)) else s
  {
    StepWish(cfg, s, c, iface, reached);
    InvSorted(cfg, s);
    FittingFound(s, iface, e);
    hide Step, Inv, ScanVersion;
  }

  lemma InvSorted(cfg: Config, s: State)
    requires Inv(cfg, s)
    ensures Descending(s.servers)
  {
    hide Core;
  }

  ghost function Greeting(offer: Iface): Notification -> bool {
    (n: Notification) => n.active && Accepts(n.iface, offer)
  }

  /** A server fits: the client gets a new ID, is pulsed at once, and nobody else is. */
  lemma WishAnswered(cfg: Config, s: State, c: nat, iface: Iface, reached: bool, e: Server)
    requires Inv(cfg, s) && c in s.conns && Fitting(s, iface, e)
    requires MayWait(cfg, s.conns[c].uid, e.grpid) && (s.conns[c].slave ==> reached)
    ensures var s' := Step(cfg, s, ENotifyAvailable(c, [iface], reached));
            && Spent(s, s', Available, c) && s'.lists == s.lists
            && s'.past.pulses == s.past.pulses + [s.next.notif + 1]
  {
    hide Step, Inv, ScanVersion, Sweep, Spent, AddNotif, Those, Others, NotifIds;
    var n := Wisher(cfg, 0, c, iface, 0, s.conns[c].uid);
    WishSweeps(cfg, s, c, iface, reached, e);
    AddThenFire(cfg, s, Available, c, n, ByOffer(iface, ANYBODY), Greeting(iface));
    NobodyElse(cfg, s, iface, e);
    ListsOf(s, Sweep(cfg, AddNotif(s, Available, c, n), Available, ByOffer(iface, ANYBODY), 0));
    assert s.past.pulses + [s.next.notif + 1] + [] == s.past.pulses + [s.next.notif + 1];
  }

  lemma WishSweeps(cfg: Config, s: State, c: nat, iface: Iface, reached: bool, e: Server)
    requires Inv(cfg, s) && c in s.conns && Fitting(s, iface, e)
    requires MayWait(cfg, s.conns[c].uid, e.grpid) && (s.conns[c].slave ==> reached)
    ensures Step(cfg, s, ENotifyAvailable(c, [iface], reached))
         == Sweep(cfg, AddNotif(s, Available, c, Wisher(cfg, 0, c, iface, 0, s.conns[c].uid)), Available, ByOffer(iface, ANYBODY), 0)
  {
    StepWish(cfg, s, c, iface, reached);
    InvSorted(cfg, s);
    FittingFound(s, iface, e);
    hide Step, Inv, ScanVersion, Sweep, AddNotif;
  }

  /** Nobody was waiting for something that the registered server offers. */
  lemma NobodyElse(cfg: Config, s: State, iface: Iface, e: Server)
    requires Inv(cfg, s) && Fitting(s, iface, e)
    ensures Others(L(s, Available), Greeting(iface)) == L(s, Available) && NotifIds(Those(L(s, Available), Greeting(iface))) == []
  {
    hide Core, WatchersSound, ServersOk, ClientsOk;
    assert forall n :: n in s.lists.available && n.active ==> !Accepts(n.iface, e.iface);
    NoneSuch(s.lists.available, Greeting(iface));
    hide Others, Those, NotifIds;
    IdsJoin([], []);
  }

  lemma {:induction false} NoneSuch(l: seq<Notification>, p: Notification -> bool)
    requires forall n :: n in l ==> !p(n)
    ensures Others(l, p) == l && Those(l, p) == []
  {
    if l != [] {
      assert l[0] in l;
      NoneSuch(l[1..], p);
    }
  }

  /** Nothing fits, and the master is not asked: the client waits. */
  lemma WishKept(cfg: Config, s: State, c: nat, iface: Iface, reached: bool)
    requires c in s.conns && (s.conns[c].slave ==> reached) && (forall e :: e in s.servers ==> !Fitting(s, iface, e))
    requires cfg.isLocalService(iface.name) || !s.link.connected
    ensures var s' := Step(cfg, s, ENotifyAvailable(c, [iface], reached));
            && Handed(s, s', Available, c) && s'.next == s.next.(notif := s.next.notif + 1)
            && s'.lists == s.lists.(available := [Wisher(cfg, s.next.notif + 1, c, iface, 0, s.conns[c].uid)] + s.lists.available)
            && s'.past.pulses == s.past.pulses && s'.pools == s.pools && s'.link == s.link
  {
    hide Step, ScanVersion, AddNotif, Handed;
    StepWish(cfg, s, c, iface, reached);
    NoneFound(s, iface);
    AddedWisher(cfg, s, c, iface);
  }

  lemma AddedWisher(cfg: Config, s: State, c: nat, iface: Iface)
    requires c in s.conns
    ensures var s' := AddNotif(s, Available, c, Wisher(cfg, 0, c, iface, 0, s.conns[c].uid));
            && Handed(s, s', Available, c) && s'.next == s.next.(notif := s.next.notif + 1)
            && s'.lists == s.lists.(available := [Wisher(cfg, s.next.notif + 1, c, iface, 0, s.conns[c].uid)] + s.lists.available)
            && s'.past.pulses == s.past.pulses && s'.pools == s.pools && s'.link == s.link
  {
  }

  // ---------------------------------------------------------------- waiting at the master

  /** Every waiting notification that may be forwarded has a pool for its interface afterwards; the
      others are as they were. */
  ghost predicate Placed(cfg: Config, l: seq<Notification>, l': seq<Notification>, pools: seq<Pool>) {
    && |l'| == |l|
    && forall j :: 0 <= j < |l| ==>
         if l[j].poolId == 0 && !l[j].local && cfg.forwards(l[j].iface.name)
         then l'[j] == l[j].(poolId := l'[j].poolId) && InPoolFor(pools, l'[j])
         else l'[j] == l[j]
  }

  ghost predicate InPoolFor(pools: seq<Pool>, n: Notification) {
    exists p :: p in pools && p.id == n.poolId && p.target == Connecting(n.iface)
  }

  /** Pools are only added, each blank, and each announced to the master in some batch. */
  ghost predicate Announced(pools: seq<Pool>, pools': seq<Pool>, js: seq<Job>) {
    && pools <= pools'
    && forall p :: p in pools' && p !in pools ==>
         p.target.Connecting? && p == Pool(p.id, p.target, INVALID, 0)
         && exists j :: j in js && j.AvailableJob? && (p.id, p.target.iface) in j.items
  }

  lemma {:induction false} PoolAllPlaces(cfg: Config, s: State, i: nat)
    requires i <= |s.lists.available|
    ensures var s' := PoolAll(cfg, s, i).0;
            && s.pools <= s'.pools && |s'.lists.available| == |s.lists.available|
            && s'.lists.available[..i] == s.lists.available[..i]
            && Placed(cfg, s.lists.available[i..], s'.lists.available[i..], s'.pools)
            && s'.lists == s.lists.(available := s'.lists.available)
    decreases |s.lists.available| - i
  {
    if i < |s.lists.available| {
      var s1, s' := PoolOne(cfg, s, i).0, PoolAll(cfg, s, i).0;
      PoolOnePlaces(cfg, s, i);
      hide PoolOne, NeedsPool;
      PoolAllPlaces(cfg, s1, i + 1);
      PlacedJoin(cfg, s.lists.available, s1.lists.available, s'.lists.available, i, s1.pools, s'.pools);
    }
  }

  lemma PoolOnePlaces(cfg: Config, s: State, i: nat)
    requires i < |s.lists.available|
    ensures var s', l := PoolOne(cfg, s, i).0, s.lists.available;
            var l' := s'.lists.available;
            && s.pools <= s'.pools && s'.lists == s.lists.(available := l')
            && l' == l[i := l'[i]]
            && (if l[i].poolId == 0 && !l[i].local && cfg.forwards(l[i].iface.name)
                then l'[i] == l[i].(poolId := l'[i].poolId) && InPoolFor(s'.pools, l'[i]) else l'[i] == l[i])
  {
    hide TargetAt;
    var pos := TargetAt(s.pools, Connecting(s.lists.available[i].iface));
    var s' := PoolOne(cfg, s, i).0;
    if NeedsPool(cfg, s.lists.available[i]) {
      assert if pos >= 0 then s.pools[pos] in s'.pools else s'.pools[|s.pools|] in s'.pools;
    }
  }

  lemma PlacedJoin(cfg: Config, l: seq<Notification>, l1: seq<Notification>, l': seq<Notification>, i: nat, pools1: seq<Pool>, pools': seq<Pool>)
    requires i < |l| == |l1| == |l'| && l1 == l[i := l1[i]] && pools1 <= pools'
    requires if l[i].poolId == 0 && !l[i].local && cfg.forwards(l[i].iface.name)
             then l1[i] == l[i].(poolId := l1[i].poolId) && InPoolFor(pools1, l1[i]) else l1[i] == l[i]
    requires l'[..i + 1] == l1[..i + 1] && Placed(cfg, l1[i + 1..], l'[i + 1..], pools')
    ensures l'[..i] == l[..i] && Placed(cfg, l[i..], l'[i..], pools')
  {
    assert l'[i] == l'[..i + 1][i] == l1[..i + 1][i] == l1[i];
    assert l'[..i] == l'[..i + 1][..i] == l1[..i + 1][..i] == l1[..i];
    if InPoolFor(pools1, l1[i]) {
      var p :| p in pools1 && p.id == l1[i].poolId && p.target == Connecting(l1[i].iface);
      assert p in pools';
    }
    var a, b := l[i..], l'[i..];
    forall j | 0 <= j < |a|
      ensures if a[j].poolId == 0 && !a[j].local && cfg.forwards(a[j].iface.name)
              then b[j] == a[j].(poolId := b[j].poolId) && InPoolFor(pools', b[j]) else b[j] == a[j]
    {
      if j > 0 {
        assert a[j] == l1[i + 1..][j - 1] && b[j] == l'[i + 1..][j - 1];
      }
    }
  }

  /** Forwarding, while the master is connected. */
  lemma ForwardPlaces(cfg: Config, s: State)
    requires Inv(cfg, s) && s.link.connected
    ensures var s' := ForwardAvailable(cfg, s);
            && Placed(cfg, s.lists.available, s'.lists.available, s'.pools)
            && s.link.outstanding <= s'.link.outstanding
            && Announced(s.pools, s'.pools, s'.link.outstanding[|s.link.outstanding|..])
            && s' == s.(lists := s.lists.(available := s'.lists.available), pools := s'.pools,
                        next := s.next.(pool := s'.next.pool), link := s.link.(outstanding := s'.link.outstanding))
  {
    PoolAllPlaces(cfg, s, 0);
    var (s1, items) := PoolAll(cfg, s, 0);
    var s' := ForwardAvailable(cfg, s);
    assert s.lists.available[0..] == s.lists.available && s1.lists.available[0..] == s1.lists.available;
    NotificationBatches(cfg, s);
    ForwardRest(cfg, s);
    var batches := Chunks(items);
    assert s'.link.outstanding[|s.link.outstanding|..] == AvailableJobs(batches);
    hide Inv, PoolAll, Placed, Chunks, AvailableJobs, Flatten;
    forall p | p in s'.pools && p !in s.pools
      ensures p.target.Connecting? && p == Pool(p.id, p.target, INVALID, 0)
      ensures exists j :: j in AvailableJobs(batches) && j.AvailableJob? && (p.id, p.target.iface) in j.items
    {
      var i := BlankIn(s.next.pool, items, p);
      ItemInBatch(batches, items[i]);
    }
  }

  lemma ForwardRest(cfg: Config, s: State)
    requires Inv(cfg, s) && s.link.connected
    ensures var s' := ForwardAvailable(cfg, s);
            && s' == s.(lists := s'.lists, pools := s'.pools, next := s.next.(pool := s'.next.pool), link := s.link.(outstanding := s'.link.outstanding))
            && s'.lists == s.lists.(available := s'.lists.available)
  {
    hide NoLostWakeup, WatchersSound, ServersOk, ClientsOk, Chunks, AvailableJobs;
    PoolAllKeeps(cfg, s, 0);
    hide Core;
  }

  lemma BlankIn(first: nat, items: seq<(nat, Iface)>, p: Pool) returns (i: nat)
    requires p in Blank(first, items) && forall j :: 0 <= j < |items| ==> items[j].0 == first + j
    ensures i < |items| && p == Pool(items[i].0, Connecting(items[i].1), INVALID, 0)
  {
    i :| 0 <= i < |Blank(first, items)| && Blank(first, items)[i] == p;
  }

  lemma {:induction false} ItemInBatch(batches: seq<seq<(nat, Iface)>>, x: (nat, Iface))
    requires x in Flatten(batches)
    ensures exists j :: j in AvailableJobs(batches) && j.AvailableJob? && x in j.items
    decreases |batches|
  {
    var js := AvailableJobs(batches);
    if x in batches[0] {
      assert js[0].items == batches[0] && js[0] in js;
    } else {
      ItemInBatch(batches[1..], x);
      var j :| j in AvailableJobs(batches[1..]) && j.AvailableJob? && x in j.items;
      var i :| 0 <= i < |batches[1..]| && AvailableJobs(batches[1..])[i] == j;
      assert js[i + 1] == j;
    }
  }

  /** Nothing fits a foreign interface while the master is connected: the client waits, in a pool for
      that interface if it may be forwarded, and a new pool is announced. */
  lemma WishForwards(cfg: Config, s: State, c: nat, iface: Iface, reached: bool)
    requires Inv(cfg, s) && c in s.conns && (s.conns[c].slave ==> reached) && (forall e :: e in s.servers ==> !Fitting(s, iface, e))
    requires !cfg.isLocalService(iface.name) && s.link.connected
    ensures var s' := Step(cfg, s, ENotifyAvailable(c, [iface], reached));
            && Placed(cfg, [Wisher(cfg, s.next.notif + 1, c, iface, 0, s.conns[c].uid)] + s.lists.available, s'.lists.available, s'.pools)
            && s.link.outstanding <= s'.link.outstanding
            && Announced(s.pools, s'.pools, s'.link.outstanding[|s.link.outstanding|..])
            && Handed(s, s', Available, c) && s'.lists == s.lists.(available := s'.lists.available) && s'.past.pulses == s.past.pulses
            && s'.link == s.link.(outstanding := s'.link.outstanding)
  {
    hide Step, ScanVersion, AddNotif, Handed, Inv, Placed, Announced, ForwardAvailable;
    StepWish(cfg, s, c, iface, reached);
    NoneFound(s, iface);
    AddedWisher(cfg, s, c, iface);
    var s1 := AddNotif(s, Available, c, Wisher(cfg, 0, c, iface, 0, s.conns[c].uid));
    WantedLaterInv(cfg, s, c, Wisher(cfg, 0, c, iface, 0, s.conns[c].uid));
    ForwardPlaces(cfg, s1);
    var s' := ForwardAvailable(cfg, s1);
    assert Handed(s, s', Available, c) by { HandedStill(s, s1, s', Available, c); }
  }

  lemma HandedStill(s: State, s1: State, s': State, k: Kind, c: nat)
    requires c in s.conns && Handed(s, s1, k, c)
    requires s' == s1.(lists := s'.lists, pools := s'.pools, next := s1.next.(pool := s'.next.pool), link := s'.link)
    ensures Handed(s, s', k, c)
  {
  }
}
