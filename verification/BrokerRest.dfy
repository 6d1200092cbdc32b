/** The remaining requests: waiting for a server to become available, for a
    client to detach, or for the list of servers to change, and removing or
    pulsing one notification by its ID. Each keeps the invariant; a client that
    asks for a server that is already there is answered in the same call. */
module BrokerRest {
  import opened BrokerTypes
  import opened ServerTable
  import opened BrokerSpec
  import opened BrokerInv
  import opened BrokerSweep
  import opened BrokerMoves
  import opened BrokerPools
  import opened BrokerHandlers
  import opened BrokerRequests

  // ---------------------------------------------------------------- waiting for a server

  /** A request that the table can satisfy is pulsed at once. */
  lemma WantedNowInv(cfg: Config, s: State, c: nat, n: Notification)
    requires Inv(cfg, s) && c in s.conns && Fresh(n, c)
    ensures Inv(cfg, Sweep(cfg, AddNotif(s, Available, c, n), Available, ByOffer(n.iface, ANYBODY), 0))
  {
    var s1 := AddNotif(s, Available, c, n);
    var r := ByOffer(n.iface, ANYBODY);
    var s' := Sweep(cfg, s1, Available, r, 0);
    hide Core, WatchersSound, ServersOk, ClientsOk, Sweep, Spared, KeepsBacked, ConnsShrink;
    AddKeepsCore(s, Available, c, n);
    AddTables(cfg, s, Available, c, n);
    AddWatch(cfg, s, Available, c, n);
    AddRest(s, Available, c, n);
    hide AddNotif;
    SweepKeeps(cfg, s1, Available, r, 0);
    ShrinkTables(cfg, s1, s', Available);
    ShrinkWatch(cfg, s1, s', Available, []);
    WantedWake(cfg, s, s1, s', n);
  }

  lemma WantedWake(cfg: Config, s: State, s1: State, s': State, n: Notification)
    requires NoLostWakeup(s.servers, s.lists.available) && s1.servers == s.servers
    requires L(s1, Available) == [n.(id := s.next.notif + 1)] + L(s, Available)
    requires Shrinks(s1, s', Available) && Settled(cfg, s', Available, ByOffer(n.iface, ANYBODY), 0)
    ensures NoLostWakeup(s'.servers, s'.lists.available)
  {
    forall m | m in s'.lists.available && m.active ensures m in s.lists.available {
      assert m in L(s', Available);
      assert From(L(s1, Available), m);
      assert m in L(s1, Available);
      var j :| 0 <= j < |L(s', Available)| && L(s', Available)[j] == m;
      assert Act(cfg, s', ByOffer(n.iface, ANYBODY), m) == Keep;
      assert m.iface == n.iface ==> Accepts(m.iface, n.iface);
    }
  }

  /** A request that the table cannot satisfy waits. */
  lemma WantedLaterInv(cfg: Config, s: State, c: nat, n: Notification)
    requires Inv(cfg, s) && c in s.conns && Fresh(n, c) && ScanVersion(s.servers, n.iface).None?
    ensures Inv(cfg, AddNotif(s, Available, c, n))
  {
    assert Descending(s.servers);
    ScanVersionComplete(s.servers, n.iface);
    hide Core, WatchersSound, ServersOk, ClientsOk, NoLostWakeup, ScanVersion;
    AddKeepsCore(s, Available, c, n);
    AddTables(cfg, s, Available, c, n);
    AddWatch(cfg, s, Available, c, n);
    AddWake(s, Available, c, n);
  }

  lemma NotifyAvailableInv(cfg: Config, s: State, c: nat, iface: Iface, reached: bool)
    requires Inv(cfg, s) && c in s.conns
    ensures Inv(cfg, NotifyAvailable(cfg, s, c, iface, reached))
    ensures NotifyAvailable(cfg, s, c, iface, reached).conns.Keys == s.conns.Keys
  {
    hide Inv, ScanVersion, MayAttach;
    var n := BLANK.(host := Some(c), iface := iface, local := cfg.isLocalService(iface.name), uid := s.conns[c].uid);
    var e := ScanVersion(s.servers, iface);
    SkipInv(cfg, s);
    if e.Some? {
      WantedNowInv(cfg, s, c, n);
      WantedConns(cfg, s, c, n);
      hide Sweep, AddNotif;
    } else {
      WantedLaterInv(cfg, s, c, n);
      AddRest(s, Available, c, n);
      hide AddNotif, ForwardAvailable;
      var s1 := AddNotif(s, Available, c, n);
      ForwardInv(cfg, s1);
      ForwardConns(cfg, s1);
    }
  }

  lemma WantedConns(cfg: Config, s: State, c: nat, n: Notification)
    requires Inv(cfg, s) && c in s.conns && Fresh(n, c)
    ensures Sweep(cfg, AddNotif(s, Available, c, n), Available, ByOffer(n.iface, ANYBODY), 0).conns.Keys == s.conns.Keys
  {
    hide Core, Sweep, Spared, KeepsBacked, Settled;
    AddKeepsCore(s, Available, c, n);
    AddRest(s, Available, c, n);
    hide AddNotif;
    SweepKeeps(cfg, AddNotif(s, Available, c, n), Available, ByOffer(n.iface, ANYBODY), 0);
  }

  lemma ForwardConns(cfg: Config, s: State)
    requires Inv(cfg, s)
    ensures ForwardAvailable(cfg, s).conns == s.conns
  {
    hide Core, ForwardAvailable;
    ForwardKeeps(cfg, s);
  }

  lemma {:induction false} NotifyAvailableExInv(cfg: Config, s: State, c: nat, ifaces: seq<Iface>, reached: bool)
    requires Inv(cfg, s) && c in s.conns
    ensures Inv(cfg, NotifyAvailableEx(cfg, s, c, ifaces, reached))
    decreases |ifaces|
  {
    hide Inv, NotifyAvailable;
    if ifaces != [] {
      NotifyAvailableInv(cfg, s, c, ifaces[0], reached);
      NotifyAvailableExInv(cfg, NotifyAvailable(cfg, s, c, ifaces[0], reached), c, ifaces[1..], reached);
    }
  }

  // ---------------------------------------------------------------- client and list notifications

  lemma AddOtherInv(cfg: Config, s: State, k: Kind, c: nat, n: Notification)
    requires Inv(cfg, s) && c in s.conns && Fresh(n, c) && (k == Detach || k == ListChange)
    ensures Inv(cfg, AddNotif(s, k, c, n))
  {
    hide Core, WatchersSound, ServersOk, ClientsOk, NoLostWakeup;
    AddKeepsCore(s, k, c, n);
    AddTables(cfg, s, k, c, n);
    AddWatch(cfg, s, k, c, n);
    AddWake(s, k, c, n);
  }

  lemma NotifyDetachInv(cfg: Config, s: State, c: nat, id: PartyId, reached: bool)
    requires Inv(cfg, s) && c in s.conns
    ensures Inv(cfg, NotifyDetach(cfg, s, c, id, reached))
  {
    hide Inv, ClientAt, AddNotif;
    var n := BLANK.(host := Some(c), party := id);
    var s1 := AddNotif(s, Detach, c, n);
    SkipInv(cfg, s);
    AddOtherInv(cfg, s, Detach, c, n);
    PushInv(cfg, s1, WatchClientJob(s1.next.notif, id));
    SweepInv(cfg, s1, Detach, ByParty(id));
  }

  lemma SendListInv(cfg: Config, s: State, id: nat)
    requires Inv(cfg, s) && InList(s, ListChange, id)
    ensures Inv(cfg, Send(s, id))
  {
    hide Core, InList;
    PulseKeepsCore(s, [id]);
    RestInv(cfg, s, Send(s, id));
  }

  lemma NotifyListInv(cfg: Config, s: State, c: nat, regex: Option<string>, usable: bool)
    requires Inv(cfg, s) && c in s.conns
    ensures Inv(cfg, NotifyList(cfg, s, c, regex, usable))
  {
    hide Inv, AnyMatch;
    var n := BLANK.(regex := regex);
    var s1 := AddNotif(s, ListChange, c, n);
    var id := s1.next.notif;
    var s2 := if s.link.connected then Push(s1, WatchListJob(id)) else s1;
    SkipInv(cfg, s);
    AddOtherInv(cfg, s, ListChange, c, n);
    AddRest(s, ListChange, c, n);
    hide AddNotif;
    PushInv(cfg, s1, WatchListJob(id));
    assert L(s2, ListChange) == L(s1, ListChange);
    assert L(s2, ListChange)[0].id == id && L(s2, ListChange)[0] in L(s2, ListChange);
    assert InList(s2, ListChange, id);
    SendListInv(cfg, s2, id);
  }

  // ---------------------------------------------------------------- removing single notifications

  ghost predicate NoneWith(s: State, k: Kind, id: nat) {
    forall n :: n in L(s, k) ==> n.id != id
  }

  lemma {:induction false} NotifAtNone(l: seq<Notification>, id: nat)
    ensures NotifAt(l, id, false) < 0 ==> forall n :: n in l ==> n.id != id
  {
    if l != [] { NotifAtNone(l[1..], id); }
  }

  /** remove(notificationid_t) leaves no entry with the ID. */
  lemma RemoveOneInv(cfg: Config, s: State, k: Kind, id: nat)
    requires Inv(cfg, s)
    ensures Inv(cfg, RemoveOne(s, k, id))
    ensures NoneWith(RemoveOne(s, k, id), k, id) && Shrinks(s, RemoveOne(s, k, id), k)
  {
    NotifAtNone(L(s, k), id);
    var i := NotifAt(L(s, k), id, false);
    var s' := RemoveOne(s, k, id);
    ShrinksRefl(s, k);
    if i >= 0 {
      assert PoolsOk(s) && AllListed(s) && NewestFirst(L(s, k));
      hide Core, WatchersSound, ServersOk, ClientsOk, NoLostWakeup, PoolsOk, AllListed, NotifAt, Shrinks, EraseAt;
      assert Erasing(s, k, i, s');
      EraseKeepsCore(s, k, i, s');
      EraseShrinks(s, k, i, s');
      ShrinkWake(s, s', k);
      ShrinkWatch(cfg, s, s', k, []);
      ShrinkTables(cfg, s, s', k);
      CutOrder(L(s, k), i);
    }
  }

  /** trigger(notificationid_t, removeIt). */
  lemma FireOneInv(cfg: Config, s: State, k: Kind, id: nat, removeIt: bool)
    requires Inv(cfg, s) && (!removeIt ==> k == ListChange)
    ensures Inv(cfg, FireOne(s, k, id, removeIt))
  {
    var i := NotifAt(L(s, k), id, true);
    var s' := FireOne(s, k, id, removeIt);
    if i >= 0 {
      assert L(s, k)[i] in L(s, k);
      if removeIt {
        assert PoolsOk(s) && AllListed(s);
        hide Core, WatchersSound, ServersOk, ClientsOk, NoLostWakeup, PoolsOk, AllListed, NotifAt, Shrinks, EraseAt;
        assert Erasing(s, k, i, s');
        EraseKeepsCore(s, k, i, s');
        EraseShrinks(s, k, i, s');
        ShrinkWake(s, s', k);
        ShrinkWatch(cfg, s, s', k, []);
        ShrinkTables(cfg, s, s', k);
      } else {
        hide Inv, NotifAt;
        SendListInv(cfg, s, id);
      }
    }
  }
}
