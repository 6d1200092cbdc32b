/** Who owns the servers: exactly one connection each, as long as no slave reuses an ID. */
module BrokerOwners {
  import opened BrokerTypes
  import opened ServerTable
  import opened BrokerSpec
  import opened BrokerInv
  import opened BrokerSweep
  import opened BrokerMoves
  import opened BrokerPools
  import opened BrokerHandlers
  import opened BrokerRequests
  import opened BrokerRest
  import opened BrokerClose
  import opened BrokerTheorems

  // ---------------------------------------------------------------- the second invariant

  /** Every registered server belongs to exactly one live connection. */
  ghost predicate Ownership(s: State) {
    && (forall e :: e in s.servers ==> exists c :: c in s.conns && e.id in s.conns[c].servers)
    && (forall c, id :: c in s.conns && id in s.conns[c].servers ==> Registered(s, id))
    && (forall c, d, id :: c in s.conns && d in s.conns && id in s.conns[c].servers && id in s.conns[d].servers ==> c == d)
  }

  /** What holds besides the invariant while slaves send unused IDs only. */
  ghost predicate Owned(s: State) {
    DistinctIds(s.servers) && Ownership(s)
  }

  /** The server table with its IDs, and what the connections list as their servers, are unchanged. */
  ghost predicate SameTitles(s: State, s': State) {
    && SameServers(s.servers, s'.servers) && s'.conns.Keys == s.conns.Keys
    && forall c :: c in s.conns ==> s'.conns[c].servers == s.conns[c].servers
  }

  lemma TitlesTrans(s: State, t: State, u: State)
    requires SameTitles(s, t) && SameTitles(t, u)
    ensures SameTitles(s, u)
  {
    assert forall c :: c in s.conns ==> c in t.conns;
  }

  lemma EqualTitles(s: State, s': State)
    requires s'.servers == s.servers && s'.conns.Keys == s.conns.Keys
    requires forall c :: c in s.conns ==> s'.conns[c].servers == s.conns[c].servers
    ensures SameTitles(s, s')
  {
  }

  lemma SameTitlesOwned(s: State, s': State)
    requires Owned(s) && SameTitles(s, s')
    ensures Owned(s')
  {
    forall id ensures Registered(s, id) <==> Registered(s', id) { SameRegistered(s, s', id); }
    forall e | e in s'.servers ensures exists c :: c in s'.conns && e.id in s'.conns[c].servers {
      assert Registered(s', e.id) && Registered(s, e.id);
      var old_e :| old_e in s.servers && old_e.id == e.id;
      var c :| c in s.conns && old_e.id in s.conns[c].servers;
      assert c in s'.conns;
    }
    hide Registered;
  }

  // ---------------------------------------------------------------- steps that change no title

  lemma {:induction false} SweepOwners(cfg: Config, s: State, k: Kind, r: Rule, i: nat)
    requires i <= |L(s, k)|
    ensures var s' := Sweep(cfg, s, k, r, i);
            s'.servers == s.servers && s'.conns.Keys == s.conns.Keys && forall d :: d in s.conns ==> s'.conns[d].servers == s.conns[d].servers
    decreases |L(s, k)| - i
  {
    if i < |L(s, k)| {
      hide Act, Turn;
      var s1 := Turn(cfg, s, k, r, i);
      TurnOwners(cfg, s, k, r, i);
      SweepOwners(cfg, s1, k, r, if Erases(Act(cfg, s, r, L(s, k)[i])) then i else i + 1);
    }
  }

  lemma TurnOwners(cfg: Config, s: State, k: Kind, r: Rule, i: nat)
    requires i < |L(s, k)|
    ensures var s' := Turn(cfg, s, k, r, i);
            s'.servers == s.servers && s'.conns.Keys == s.conns.Keys && forall d :: d in s.conns ==> s'.conns[d].servers == s.conns[d].servers
  {
    hide Act, EraseAt, Put;
    match Act(cfg, s, r, L(s, k)[i])
    case Fire => EraseOwners(Send(s, L(s, k)[i].id), k, i);
    case Discard => EraseOwners(Withdraw(s, L(s, k)[i].id), k, i);
    case _ =>
  }

  lemma EraseOwners(s: State, k: Kind, i: nat)
    requires i < |L(s, k)|
    ensures var s' := EraseAt(s, k, i);
            s'.servers == s.servers && s'.conns.Keys == s.conns.Keys && forall d :: d in s.conns ==> s'.conns[d].servers == s.conns[d].servers
  {
    hide Put, DetachPool, StdRemove;
  }

  lemma AnnouncedServers(cfg: Config, s: State, c: nat, e: Server)
    requires c in s.conns
    ensures var s' := Announce(cfg, s, c, e);
            s'.servers == Inserted(s.servers, e) && s'.conns.Keys == s.conns.Keys
            && forall d :: d in s.conns ==> s'.conns[d].servers == Enter(s, c, e).conns[d].servers
  {
    hide Sweep, Inserted, SetInsert, ListPulses;
    SweepOwners(cfg, Enter(s, c, e), Available, ByOffer(e.iface, e.grpid), 0);
  }

  lemma SweepTitles(cfg: Config, s: State, k: Kind, r: Rule)
    ensures SameTitles(s, Sweep(cfg, s, k, r, 0))
  {
    hide Sweep;
    SweepOwners(cfg, s, k, r, 0);
    EqualTitles(s, Sweep(cfg, s, k, r, 0));
  }

  lemma RegisterTitles(cfg: Config, s: State)
    ensures SameTitles(s, RegisterMaster(cfg, s))
  {
    hide RegisterJobs, Chunks, Unforwarded;
  }

  lemma {:induction false} PoolAllTitles(cfg: Config, s: State, i: nat)
    requires i <= |s.lists.available|
    ensures PoolAll(cfg, s, i).0.servers == s.servers && PoolAll(cfg, s, i).0.conns == s.conns
    decreases |s.lists.available| - i
  {
    hide NeedsPool, TargetAt;
    if i < |s.lists.available| { PoolAllTitles(cfg, PoolOne(cfg, s, i).0, i + 1); }
  }

  lemma ForwardTitles(cfg: Config, s: State)
    ensures SameTitles(s, ForwardAvailable(cfg, s))
  {
    hide PoolAll, AvailableJobs, Chunks;
    PoolAllTitles(cfg, s, 0);
    EqualTitles(s, ForwardAvailable(cfg, s));
  }

  lemma AttachTitles(cfg: Config, s: State, c: nat, iface: Iface)
    requires c in s.conns
    ensures SameTitles(s, Attach(cfg, s, c, iface))
  {
    hide ScanVersion, SetInsert, Checked, MayAttach;
    EqualTitles(s, Attach(cfg, s, c, iface));
  }

  lemma DetachTitles(cfg: Config, s: State, c: nat, id: PartyId)
    requires c in s.conns
    ensures SameTitles(s, DetachClient(cfg, s, c, id))
  {
    hide Sweep, ClientAt, RemoveClient, SetRemove;
    SweepOwners(cfg, s, Detach, ByParty(id), 0);
    EqualTitles(s, DetachClient(cfg, s, c, id));
  }

  lemma AddTitles(s: State, k: Kind, c: nat, n: Notification)
    requires c in s.conns
    ensures AddNotif(s, k, c, n).servers == s.servers && SameTitles(s, AddNotif(s, k, c, n))
  {
  }

  /** A new notification, then a sweep or a pool or neither. */
  lemma ThenTitles(s: State, t: State, u: State)
    requires SameTitles(s, t) && u.servers == t.servers && u.conns == t.conns
    ensures SameTitles(s, u)
  {
  }

  lemma NotifyDisconnectTitles(cfg: Config, s: State, c: nat, id: PartyId, reached: bool)
    requires c in s.conns
    ensures SameTitles(s, NotifyDisconnect(cfg, s, c, id, reached))
  {
    var s1 := AddNotif(s, Disconnect, c, BLANK.(host := Some(c), party := id));
    AddTitles(s, Disconnect, c, BLANK.(host := Some(c), party := id));
    SweepTitles(cfg, s1, Disconnect, ByParty(id));
    TitlesTrans(s, s1, Sweep(cfg, s1, Disconnect, ByParty(id), 0));
    JoinFrame(s1, id);
    hide Sweep, ScanId, JoinPool, AddNotif;
    ThenTitles(s, s1, JoinPool(s1, id));
    EqualTitles(s, Skip(s));
    hide SameTitles;
  }

  lemma NotifyDetachTitles(cfg: Config, s: State, c: nat, id: PartyId, reached: bool)
    requires c in s.conns
    ensures SameTitles(s, NotifyDetach(cfg, s, c, id, reached))
  {
    var s1 := AddNotif(s, Detach, c, BLANK.(host := Some(c), party := id));
    AddTitles(s, Detach, c, BLANK.(host := Some(c), party := id));
    SweepTitles(cfg, s1, Detach, ByParty(id));
    TitlesTrans(s, s1, Sweep(cfg, s1, Detach, ByParty(id), 0));
    hide Sweep, ClientAt, AddNotif;
    ThenTitles(s, s1, Push(s1, WatchClientJob(s1.next.notif, id)));
    EqualTitles(s, Skip(s));
    hide SameTitles;
  }

  lemma NotifyAvailableTitles(cfg: Config, s: State, c: nat, iface: Iface, reached: bool)
    requires c in s.conns
    ensures SameTitles(s, NotifyAvailable(cfg, s, c, iface, reached))
  {
    var n := BLANK.(host := Some(c), iface := iface, local := cfg.isLocalService(iface.name), uid := s.conns[c].uid);
    var s1 := AddNotif(s, Available, c, n);
    AddTitles(s, Available, c, n);
    SweepTitles(cfg, s1, Available, ByOffer(iface, ANYBODY));
    TitlesTrans(s, s1, Sweep(cfg, s1, Available, ByOffer(iface, ANYBODY), 0));
    ForwardTitles(cfg, s1);
    TitlesTrans(s, s1, ForwardAvailable(cfg, s1));
    hide Sweep, ScanVersion, ForwardAvailable, MayAttach, AddNotif;
    EqualTitles(s, Skip(s));
    EqualTitles(s, s);
    hide SameTitles;
  }

  lemma {:induction false} NotifyAvailableExTitles(cfg: Config, s: State, c: nat, ifaces: seq<Iface>, reached: bool)
    requires c in s.conns
    ensures SameTitles(s, NotifyAvailableEx(cfg, s, c, ifaces, reached))
    decreases |ifaces|
  {
    EqualTitles(s, s);
    if ifaces == [] { return; }
    hide NotifyAvailable, SameServers;
    var s1 := NotifyAvailable(cfg, s, c, ifaces[0], reached);
    NotifyAvailableTitles(cfg, s, c, ifaces[0], reached);
    NotifyAvailableExTitles(cfg, s1, c, ifaces[1..], reached);
    TitlesTrans(s, s1, NotifyAvailableEx(cfg, s1, c, ifaces[1..], reached));
  }

  lemma NotifyListTitles(cfg: Config, s: State, c: nat, regex: Option<string>, usable: bool)
    requires c in s.conns
    ensures SameTitles(s, NotifyList(cfg, s, c, regex, usable))
  {
    hide AnyMatch;
    EqualTitles(s, NotifyList(cfg, s, c, regex, usable));
  }

  lemma RemoveOneTitles(s: State, k: Kind, id: nat)
    ensures SameTitles(s, RemoveOne(s, k, id))
  {
    var i := NotifAt(L(s, k), id, false);
    hide EraseAt, NotifAt;
    if i >= 0 { EraseOwners(Withdraw(s, id), k, i); }
    EqualTitles(s, RemoveOne(s, k, id));
  }

  lemma ClearTitles(s: State, c: nat, id: nat)
    requires c in s.conns
    ensures SameTitles(s, Clear(s, c, id))
  {
    var s0 := Forget(s, c, id);
    var s1 := RemoveOne(s0, Detach, id);
    var s2 := RemoveOne(s1, Disconnect, id);
    var s3 := RemoveOne(s2, Available, id);
    EqualTitles(s, s);
    EqualTitles(s, s0);
    hide RemoveOne, Forget, SameTitles;
    RemoveOneTitles(s0, Detach, id);
    RemoveOneTitles(s1, Disconnect, id);
    RemoveOneTitles(s2, Available, id);
    RemoveOneTitles(s3, ListChange, id);
    TitlesTrans(s, s0, s1);
    TitlesTrans(s, s1, s2);
    TitlesTrans(s, s2, s3);
    TitlesTrans(s, s3, RemoveOne(s3, ListChange, id));
  }

  lemma FireOneTitles(s: State, k: Kind, id: nat, removeIt: bool)
    ensures SameTitles(s, FireOne(s, k, id, removeIt))
  {
    var i := NotifAt(L(s, k), id, true);
    hide EraseAt, NotifAt;
    if i >= 0 { EraseOwners(Send(s, id), k, i); }
    EqualTitles(s, FireOne(s, k, id, removeIt));
  }

  lemma ClientDetachedTitles(cfg: Config, s: State, id: nat)
    ensures SameTitles(s, ClientDetached(cfg, s, id))
  {
    FireOneTitles(s, Detach, id, true);
    hide Sweep, NotifAt, FireOne, SameTitles;
    var i := NotifAt(s.lists.detach, id, false);
    if i >= 0 { SweepTitles(cfg, s, Detach, ByParty(s.lists.detach[i].party)); }
  }

  lemma MasterConnectedTitles(cfg: Config, s: State)
    ensures SameTitles(s, MasterConnected(cfg, s))
  {
    var s1 := s.(link := s.link.(session := true, steady := s.link.connected, granted := {}, cleared := {}, lent := {}));
    EqualTitles(s, s1);
    hide RegisterMaster, ForwardAvailable, SameTitles;
    RegisterTitles(cfg, s1);
    ForwardTitles(cfg, RegisterMaster(cfg, s1));
    TitlesTrans(s, s1, RegisterMaster(cfg, s1));
    TitlesTrans(s, RegisterMaster(cfg, s1), ForwardAvailable(cfg, RegisterMaster(cfg, s1)));
  }

  lemma MasterDisconnectedTitles(cfg: Config, s: State)
    ensures SameTitles(s, MasterDisconnected(cfg, s))
  {
    var s1 := s.(servers := ClearMasterIds(s.servers), pools := [],
                 link := s.link.(session := false, steady := false, granted := {}, cleared := {}, lent := {}));
    assert SameTitles(s, s1);
    hide Sweep, ClearMasterIds, ClearMasterNotification;
    var s2 := Sweep(cfg, s1, Disconnect, Absent, 0);
    var s3 := Sweep(cfg, s2, Detach, NotLocal, 0);
    SweepTitles(cfg, s1, Disconnect, Absent);
    SweepTitles(cfg, s2, Detach, NotLocal);
    TitlesTrans(s, s1, s2);
    TitlesTrans(s, s2, s3);
    ThenTitles(s, s3, MasterDisconnected(cfg, s));
  }

  lemma {:induction false} GrantAllTitles(s: State, items: seq<(nat, Iface)>, ids: seq<nat>)
    requires |items| <= |ids|
    ensures GrantAll(s, items, ids).servers == s.servers && GrantAll(s, items, ids).conns == s.conns
    decreases |items|
  {
    hide PoolAt;
    if items != [] {
      GrantAllTitles(if ids[0] == INVALID then s else Grant(s, items[0].0, ids[0], true), items[1..], ids[1..]);
    }
  }

  lemma {:induction false} RegisteredAllTitles(s: State, ids: seq<PartyId>)
    ensures SameTitles(s, RegisteredAll(s, ids))
    decreases |ids|
  {
    EqualTitles(s, s);
    if ids != [] {
      NoteTitles(s, ids[0]);
      hide NoteServerId, SameTitles;
      RegisteredAllTitles(NoteServerId(s, ids[0]), ids[1..]);
      TitlesTrans(s, NoteServerId(s, ids[0]), RegisteredAll(s, ids));
    }
  }

  lemma NoteTitles(s: State, id: PartyId)
    ensures SameTitles(s, NoteServerId(s, id))
  {
    hide PendingAt;
  }

  lemma ReportTitles(s: State, o: Outcome)
    requires s.link.outstanding != [] && Fits(s.link.outstanding[0], o)
    ensures SameTitles(s, Report(s, o))
  {
    var s1 := s.(link := s.link.(outstanding := s.link.outstanding[1..]));
    var j := s.link.outstanding[0];
    EqualTitles(s, s1);
    hide GrantAll, RegisteredAll, PoolAt, NotifAt, SetInsert;
    if o.Done? && j.RegisterJob? {
      RegisteredAllTitles(s1, o.parties);
      TitlesTrans(s, s1, RegisteredAll(s1, o.parties));
    } else {
      if o.Done? && j.AvailableJob? { GrantAllTitles(s1, j.items, o.ids); }
      EqualTitles(s, Report(s, o));
    }
  }

  /** The events that neither add nor remove a server or a connection. */
  ghost predicate KeepsTitles(e: Event) {
    !e.EOpen? && !e.ERegister? && !e.ERegisterEx? && !e.ERegisterSlave? && !e.EUnregister? && !e.EClose?
  }

  lemma StepTitles(cfg: Config, s: State, e: Event)
    requires Enabled(cfg, s, e) && KeepsTitles(e)
    ensures SameTitles(s, Step(cfg, s, e))
  {
    hide SameTitles, Attach, DetachClient, NotifyDisconnect, NotifyAvailableEx, NotifyDetach, NotifyList, Clear;
    hide MasterConnected, MasterDisconnected, Sweep, ClientDetached, FireOne, Report;
    match e
    case EAttach(c, iface) => AttachTitles(cfg, s, c, iface);
    case EDetach(c, id) => DetachTitles(cfg, s, c, id);
    case ENotifyDisconnect(c, id, reached) => NotifyDisconnectTitles(cfg, s, c, id, reached);
    case ENotifyAvailable(c, ifaces, reached) => NotifyAvailableExTitles(cfg, s, c, ifaces, reached);
    case ENotifyDetach(c, id, reached) => NotifyDetachTitles(cfg, s, c, id, reached);
    case ENotifyList(c, regex, reached) => NotifyListTitles(cfg, s, c, regex, reached);
    case EClear(c, notif) => ClearTitles(s, c, notif);
    case EMasterConnected => MasterConnectedTitles(cfg, s);
    case EMasterDisconnected => MasterDisconnectedTitles(cfg, s);
    case EServerAvailable(poolId) => SweepTitles(cfg, s, Available, ByPool(poolId));
    case EServerDisconnect(poolId) => SweepTitles(cfg, s, Disconnect, ByPool(poolId));
    case EClientDetached(notif) => ClientDetachedTitles(cfg, s, notif);
    case EListChanged(notif) => FireOneTitles(s, ListChange, notif, false);
    case EReport(o) => ReportTitles(s, o);
    case EMarkSlave(c) => EqualTitles(s, Step(cfg, s, e));
    case ELink(up) => EqualTitles(s, Step(cfg, s, e));
  }

  // ---------------------------------------------------------------- steps that do

  lemma InsertDistinct(l: seq<Server>, e: Server)
    requires DistinctIds(l) && forall x :: x in l ==> x.id != e.id
    ensures DistinctIds(Inserted(l, e))
  {
    var p := Slot(l, e.iface.name);
    var r := Inserted(l, e);
    assert |r| == |l| + 1 && forall i :: 0 <= i < |r| ==> r[i] == if i < p then l[i] else if i == p then e else l[i - 1];
    hide Slot, Inserted;
    forall i, j | 0 <= i < j < |r| ensures r[i].id != r[j].id {
      if i == p {
        assert r[j] == l[j - 1] && l[j - 1] in l;
      } else if j == p {
        assert r[i] == l[i] && l[i] in l;
      }
    }
  }

  lemma EnterOwnership(s: State, c: nat, e: Server)
    requires Ownership(s) && c in s.conns && !Registered(s, e.id)
    ensures Ownership(Enter(s, c, e))
  {
    hide Inserted, SetInsert;
    var s' := Enter(s, c, e);
    SetMembers(s.conns[c].servers, e.id);
    forall x | x in s'.servers ensures exists d :: d in s'.conns && x.id in s'.conns[d].servers {
      if x == e {
        assert e.id in s'.conns[c].servers;
      } else {
        var d :| d in s.conns && x.id in s.conns[d].servers;
        assert x.id in s'.conns[d].servers;
      }
    }
    forall id ensures Registered(s', id) <==> Registered(s, id) || id == e.id { EnterRegistered(s, c, e, id); }
    hide Registered;
  }

  lemma OpenOwned(s: State, c: nat, conn: Conn)
    requires Owned(s) && c !in s.conns && conn.servers == []
    ensures Owned(s.(conns := s.conns[c := conn]))
  {
    var s' := s.(conns := s.conns[c := conn]);
    hide DistinctIds;
    assert forall id :: Registered(s', id) <==> Registered(s, id);
    forall e | e in s'.servers ensures exists d :: d in s'.conns && e.id in s'.conns[d].servers {
      var d :| d in s.conns && e.id in s.conns[d].servers;
      assert d in s'.conns && s'.conns[d] == s.conns[d];
    }
  }

  lemma AnnounceOwned(cfg: Config, s: State, c: nat, e: Server)
    requires Owned(s) && c in s.conns && !Registered(s, e.id)
    ensures Owned(Announce(cfg, s, c, e))
  {
    EnterOwnership(s, c, e);
    InsertDistinct(s.servers, e);
    AnnouncedServers(cfg, s, c, e);
    hide Announce, Inserted, SetInsert, Ownership, DistinctIds;
    EqualTitles(Enter(s, c, e), Announce(cfg, s, c, e));
    SameTitlesOwned(Enter(s, c, e), Announce(cfg, s, c, e));
  }

  lemma AddInterfaceOwned(cfg: Config, s: State, c: nat, iface: Iface, grpid: int)
    requires Inv(cfg, s) && Owned(s) && c in s.conns
    ensures Owned(AddInterface(cfg, s, c, iface, grpid))
  {
    hide Announce, Scan, Core, NoLostWakeup, WatchersSound, ClientsOk, Descending, Owned;
    if Scan(s.servers, iface.name).None? {
      var s0 := s.(next := s.next.(server := s.next.server + 1));
      var e := Server(PartyId(cfg.ext, s.next.server), NO_PARTY, iface, grpid, cfg.isLocalService(iface.name));
      assert !Registered(s0, e.id);
      EqualTitles(s, s0);
      SameTitlesOwned(s, s0);
      AnnounceOwned(cfg, s0, c, e);
    }
  }

  lemma {:induction false} AddAllOwned(cfg: Config, s: State, c: nat, ifaces: seq<Iface>)
    requires Inv(cfg, s) && Owned(s) && c in s.conns
    ensures Owned(AddAll(cfg, s, c, ifaces))
    decreases |ifaces|
  {
    hide Inv, Owned, AddInterface;
    if ifaces != [] {
      AddInterfaceInv(cfg, s, c, ifaces[0], ANYBODY);
      AddInterfaceOwned(cfg, s, c, ifaces[0], ANYBODY);
      AddAllOwned(cfg, AddInterface(cfg, s, c, ifaces[0], ANYBODY), c, ifaces[1..]);
    }
  }

  lemma RegisteredIds(s: State, id: PartyId)
    ensures Registered(s, id) <==> id in Ids(s)
  {
  }

  /** What the next server of a slave finds in use. */
  lemma AddRemoteUses(cfg: Config, s: State, c: nat, d: Remote)
    requires Inv(cfg, s) && c in s.conns
    ensures var s1 := AddRemote(cfg, s, c, d);
            if Takes(cfg, Names(s), d)
            then Names(s1) == Names(s) + {d.iface.name} && Ids(s1) == Ids(s) + {RemoteId(c, d.id)}
            else s1 == s
  {
    TakesIff(cfg, s, c, d);
    if Takes(cfg, Names(s), d) {
      var e := Server(RemoteId(c, d.id), NO_PARTY, d.iface, ANYBODY, false);
      assert c > 0;
      assert Admissible(cfg, s, e);
      hide Inv, Announce, Scan, Checked;
      AnnounceInv(cfg, s, c, e);
      InsertedUses(s.servers, e);
    }
  }

  lemma InsertedUses(l: seq<Server>, e: Server)
    ensures (set x | x in Inserted(l, e) :: x.iface.name) == (set x | x in l :: x.iface.name) + {e.iface.name}
    ensures (set x | x in Inserted(l, e) :: x.id) == (set x | x in l :: x.id) + {e.id}
  {
    hide Inserted;
    var r := Inserted(l, e);
    assert e in r;
    forall x | x in l ensures x in r {}
  }

  lemma AddRemoteOwned(cfg: Config, s: State, c: nat, d: Remote)
    requires Owned(s) && c in s.conns && (Takes(cfg, Names(s), d) ==> !Registered(s, RemoteId(c, d.id)))
    ensures Owned(AddRemote(cfg, s, c, d))
  {
    TakesIff(cfg, s, c, d);
    hide Announce, Takes, AddRemote, Owned;
    if Takes(cfg, Names(s), d) {
      AnnounceOwned(cfg, s, c, Server(RemoteId(c, d.id), NO_PARTY, d.iface, ANYBODY, false));
    }
  }

  lemma {:induction false} AddRemotesOwned(cfg: Config, s: State, c: nat, ds: seq<Remote>)
    requires Inv(cfg, s) && Owned(s) && c in s.conns && UnusedIds(cfg, Names(s), Ids(s), c, ds)
    ensures Owned(AddRemotes(cfg, s, c, ds))
    decreases |ds|
  {
    hide Inv, Owned, AddRemote, Takes;
    if ds != [] {
      RegisteredIds(s, RemoteId(c, ds[0].id));
      AddRemoteInv(cfg, s, c, ds[0]);
      AddRemoteOwned(cfg, s, c, ds[0]);
      AddRemoteUses(cfg, s, c, ds[0]);
      AddRemotesOwned(cfg, AddRemote(cfg, s, c, ds[0]), c, ds[1..]);
    }
  }

  lemma ThenRegisterOwned(cfg: Config, s: State)
    requires Owned(s)
    ensures Owned(RegisterMaster(cfg, s))
  {
    RegisterTitles(cfg, s);
    SameTitlesOwned(s, RegisterMaster(cfg, s));
  }

  /** One server and its place in its owner's list go together. */
  lemma DisownOwned(s: State, s': State, c: nat, gone: PartyId)
    requires Owned(s) && c in s.conns && gone in s.conns[c].servers
    requires Leaving(s.servers, s'.servers, [gone]) && s'.conns.Keys == s.conns.Keys
    requires forall d, x :: d in s.conns ==> (x in s'.conns[d].servers <==> x in s.conns[d].servers && (d == c ==> x != gone))
    ensures Owned(s')
  {
    forall id ensures Registered(s', id) <==> Registered(s, id) && id != gone { LeavingRegistered(s, s', [gone], id); }
    hide DistinctIds;
    forall e | e in s'.servers ensures exists d :: d in s'.conns && e.id in s'.conns[d].servers {
      var d :| d in s.conns && e.id in s.conns[d].servers;
      assert e.id in s'.conns[d].servers;
    }
    hide Registered;
  }

  lemma UnregisterOwned(cfg: Config, s: State, c: nat, id: PartyId)
    requires Inv(cfg, s) && Owned(s) && c in s.conns
    ensures Owned(Unregister(cfg, s, c, id))
  {
    if id in s.conns[c].servers {
      assert Registered(s, id) && Descending(s.servers);
      var e := ScanId(s.servers, id).value;
      hide Inv, Owned, SetRemove, ScanId, Settled, Sweep, Retire, TriggerAll, Descending, Core, WatchersSound, NoLostWakeup;
      var s1 := s.(conns := s.conns[c := s.conns[c].(servers := SetRemove(s.conns[c].servers, id))]);
      var s2 := Sweep(cfg, s1, Disconnect, ByParty(id), 0);
      var s3 := Retire(s2, e);
      UnregisterHead(cfg, s, c, id, s1, s2);
      RetireParts(s2, e);
      hide Leaving;
      DisownOwned(s, s3, c, id);
      EqualTitles(s3, TriggerAll(cfg, s3, None)) by { hide ListPulses; }
      SameTitlesOwned(s3, TriggerAll(cfg, s3, None));
      assert Unregister(cfg, s, c, id) == TriggerAll(cfg, s3, None);
    }
  }

  /** The servers of a connection leave with it. */
  lemma HangUpOwned(s: State, s': State, c: nat)
    requires Owned(s) && c in s.conns && Leaving(s.servers, s'.servers, s.conns[c].servers)
    requires s'.conns.Keys == s.conns.Keys - {c}
    requires forall d :: d in s'.conns ==> s'.conns[d].servers == s.conns[d].servers
    ensures Owned(s')
  {
    var gone := s.conns[c].servers;
    forall id ensures Registered(s', id) <==> Registered(s, id) && id !in gone { LeavingRegistered(s, s', gone, id); }
    hide DistinctIds;
    forall e | e in s'.servers ensures exists d :: d in s'.conns && e.id in s'.conns[d].servers {
      var d :| d in s.conns && e.id in s.conns[d].servers;
      assert d != c;
      assert d in s'.conns;
    }
    hide Registered;
  }

  /** The sweeps and pulses that end a close. */
  lemma CloseTitles(cfg: Config, s: State, c: nat, s1: State)
    requires c in s.conns && s1 == CloseClients(CloseServers(s, s.conns[c].servers), s.conns[c].clients)
    ensures var s' := Close(cfg, s, c);
            && s'.servers == s1.servers && s'.conns.Keys == s1.conns.Keys - {c}
            && forall d :: d in s'.conns ==> s'.conns[d].servers == s1.conns[d].servers
  {
    var me := s.conns[c];
    hide CloseClients, CloseServers, Sweep, ListPulses;
    var s2 := Sweep(cfg, s1, Disconnect, ByParties(me.servers), 0);
    var s3 := Sweep(cfg, s2, Detach, ByParties(me.clients), 0);
    var t1 := Sweep(cfg, s3, Disconnect, Withdrawal(c), 0);
    var t2 := Sweep(cfg, t1, Detach, Withdrawal(c), 0);
    var t3 := Sweep(cfg, t2, Available, Withdrawal(c), 0);
    SweepOwners(cfg, s1, Disconnect, ByParties(me.servers), 0);
    SweepOwners(cfg, s2, Detach, ByParties(me.clients), 0);
    SweepOwners(cfg, s3, Disconnect, Withdrawal(c), 0);
    SweepOwners(cfg, t1, Detach, Withdrawal(c), 0);
    SweepOwners(cfg, t2, Available, Withdrawal(c), 0);
    SweepOwners(cfg, t3, ListChange, Withdrawal(c), 0);
  }

  lemma CloseOwned(cfg: Config, s: State, c: nat)
    requires Inv(cfg, s) && Owned(s) && c in s.conns
    ensures Owned(Close(cfg, s, c))
  {
    var me := s.conns[c];
    var s1 := CloseClients(CloseServers(s, me.servers), me.clients);
    CloseDeparts(cfg, s, me.servers, me.clients);
    CloseTitles(cfg, s, c, s1);
    hide Inv, Owned, Leaving, AllCookies, Descending, DistinctClients, CloseClients, CloseServers, Close;
    HangUpOwned(s, Close(cfg, s, c), c);
  }

  // ---------------------------------------------------------------- steps and runs

  /** A slave's registration brings unused IDs; nothing is asked of other events. */
  ghost predicate BringsUnused(cfg: Config, s: State, e: Event) {
    e.ERegisterSlave? ==> UnusedIds(cfg, Names(s), Ids(s), e.c, e.remotes)
  }

  lemma StepKeepsOwned(cfg: Config, s: State, e: Event)
    requires Inv(cfg, s) && Owned(s) && Enabled(cfg, s, e) && BringsUnused(cfg, s, e)
    ensures Owned(Step(cfg, s, e))
  {
    hide Inv, Owned, AddInterface, AddAll, AddRemotes, RegisterMaster, Unregister, Close, Checked, UnusedIds;
    match e
    case EOpen(c, node, uid) => OpenOwned(s, c, Conn([], [], [], false, node, uid));
    case ERegister(c, iface, grpid) =>
      AddInterfaceOwned(cfg, s, c, iface, grpid);
      ThenRegisterOwned(cfg, AddInterface(cfg, s, c, iface, grpid));
    case ERegisterEx(c, ifaces) =>
      AddAllOwned(cfg, s, c, ifaces);
      ThenRegisterOwned(cfg, AddAll(cfg, s, c, ifaces));
    case ERegisterSlave(c, ds) =>
      AddRemotesOwned(cfg, s, c, ds);
      ThenRegisterOwned(cfg, AddRemotes(cfg, s, c, ds));
    case EUnregister(c, id) => UnregisterOwned(cfg, s, c, id);
    case EClose(c) => CloseOwned(cfg, s, c);
    case _ =>
      StepTitles(cfg, s, e);
      hide Step, SameTitles;
      SameTitlesOwned(s, Step(cfg, s, e));
  }

  /** No slave ever brought an ID that was in use. */
  ghost predicate Clean(cfg: Config, es: seq<Event>)
    requires IsRun(cfg, es)
    decreases |es|
  {
    es == [] || (Clean(cfg, es[..|es| - 1]) && BringsUnused(cfg, After(cfg, es[..|es| - 1]), es[|es| - 1]))
  }

  lemma {:induction false} RunKeepsOwned(cfg: Config, es: seq<Event>)
    requires IsRun(cfg, es) && Clean(cfg, es)
    ensures Owned(After(cfg, es))
  {
    if es == [] {
      assert Owned(INITIAL);
    } else {
      hide Inv, Step, Owned, BringsUnused, Enabled;
      RunKeepsOwned(cfg, es[..|es| - 1]);
      RunKeepsInv(cfg, es[..|es| - 1]);
      StepKeepsOwned(cfg, After(cfg, es[..|es| - 1]), es[|es| - 1]);
    }
  }

  /** While no slave reuses an ID, server IDs are distinct, every registered server belongs to exactly
      one live connection, and connections list registered servers only. */
  lemma RegistryIntegrity(cfg: Config, es: seq<Event>)
    requires IsRun(cfg, es) && Clean(cfg, es)
    ensures var s := After(cfg, es);
            && DistinctIds(s.servers)
            && (forall e :: e in s.servers ==> exists c :: c in s.conns && e.id in s.conns[c].servers)
            && (forall c, id :: c in s.conns && id in s.conns[c].servers ==> exists e :: e in s.servers && e.id == id)
            && (forall c, d, id ::
                  c in s.conns && d in s.conns && id in s.conns[c].servers && id in s.conns[d].servers ==> c == d)
  {
    RunKeepsOwned(cfg, es);
    hide After, IsRun, Clean;
    var s := After(cfg, es);
    forall c, id | c in s.conns && id in s.conns[c].servers ensures exists e :: e in s.servers && e.id == id {
      assert Registered(s, id);
    }
  }

  // ---------------------------------------------------------------- slaves that reuse an ID

  /** Where an entry of the table is after an insertion at p. */
  function Moved(p: nat, i: nat): nat {
    if i < p then i else i + 1
  }

  lemma InsertedAt(l: seq<Server>, e: Server, i: nat)
    requires i < |l|
    ensures var p, q, r := Slot(l, e.iface.name), Moved(Slot(l, e.iface.name), i), Inserted(l, e);
            p < |r| && q < |r| && r[p].id == e.id && r[q].id == l[i].id && p != q
  {
    hide Slot;
  }

  lemma InsertedTwice(l: seq<Server>, e: Server)
    requires !DistinctIds(l) || exists x :: x in l && x.id == e.id
    ensures !DistinctIds(Inserted(l, e))
  {
    var p := Slot(l, e.iface.name);
    hide Slot, Inserted;
    if x :| x in l && x.id == e.id {
      var i :| 0 <= i < |l| && l[i] == x;
      InsertedAt(l, e, i);
      SameIdAt(Inserted(l, e), p, Moved(p, i));
    } else {
      var i, j :| 0 <= i < j < |l| && l[i].id == l[j].id;
      InsertedAt(l, e, i);
      InsertedAt(l, e, j);
      SameIdAt(Inserted(l, e), Moved(p, i), Moved(p, j));
    }
  }

  lemma SameIdAt(l: seq<Server>, i: nat, j: nat)
    requires i < |l| && j < |l| && i != j && l[i].id == l[j].id
    ensures !DistinctIds(l)
  {
    assert i < j || j < i;
  }

  lemma ReusedDoubles(cfg: Config, s: State, c: nat, d: Remote)
    requires c in s.conns && Takes(cfg, Names(s), d) && Registered(s, RemoteId(c, d.id))
    ensures !DistinctIds(AddRemote(cfg, s, c, d).servers) && AddRemote(cfg, s, c, d).conns.Keys == s.conns.Keys
  {
    var e := Server(RemoteId(c, d.id), NO_PARTY, d.iface, ANYBODY, false);
    TakesIff(cfg, s, c, d);
    hide AddRemote, Announce, Inserted, DistinctIds;
    AnnouncedServers(cfg, s, c, e);
    InsertedTwice(s.servers, e);
  }

  /** Later servers never repair a doubled ID. */
  lemma {:induction false} DoubledStays(cfg: Config, s: State, c: nat, ds: seq<Remote>)
    requires c in s.conns && !DistinctIds(s.servers)
    ensures !DistinctIds(AddRemotes(cfg, s, c, ds).servers)
    decreases |ds|
  {
    hide DistinctIds, AddRemote, Announce, Takes;
    if ds != [] {
      var e := Server(RemoteId(c, ds[0].id), NO_PARTY, ds[0].iface, ANYBODY, false);
      TakesIff(cfg, s, c, ds[0]);
      AnnouncedServers(cfg, s, c, e);
      InsertedTwice(s.servers, e);
      DoubledStays(cfg, AddRemote(cfg, s, c, ds[0]), c, ds[1..]);
    }
  }

  lemma {:induction false} ReusedSomewhere(cfg: Config, s: State, c: nat, ds: seq<Remote>)
    requires Inv(cfg, s) && c in s.conns && !UnusedIds(cfg, Names(s), Ids(s), c, ds)
    ensures !DistinctIds(AddRemotes(cfg, s, c, ds).servers)
    decreases |ds|
  {
    hide Inv, AddRemote, Takes, DistinctIds;
    RegisteredIds(s, RemoteId(c, ds[0].id));
    if Takes(cfg, Names(s), ds[0]) && Registered(s, RemoteId(c, ds[0].id)) {
      ReusedDoubles(cfg, s, c, ds[0]);
      DoubledStays(cfg, AddRemote(cfg, s, c, ds[0]), c, ds[1..]);
    } else {
      AddRemoteInv(cfg, s, c, ds[0]);
      AddRemoteUses(cfg, s, c, ds[0]);
      ReusedSomewhere(cfg, AddRemote(cfg, s, c, ds[0]), c, ds[1..]);
    }
  }

  lemma ForwardedIds(cfg: Config, s: State)
    requires !DistinctIds(s.servers)
    ensures !DistinctIds(RegisterMaster(cfg, s).servers)
  {
    var l := s.servers;
    var i, j :| 0 <= i < j < |l| && l[i].id == l[j].id;
    var r := RegisterMaster(cfg, s).servers;
    assert r[i].id == r[j].id;
  }

  lemma DoubledUnowned(s: State)
    requires !DistinctIds(s.servers)
    ensures !Owned(s)
  {
  }

  /** One server of a slave keeps ownership exactly when it is refused, or brings an ID that no
      registered server has. */
  lemma RemoteKeepsOwnedIff(cfg: Config, s: State, c: nat, d: Remote)
    requires Inv(cfg, s) && Owned(s) && c in s.conns
    ensures Owned(AddRemote(cfg, s, c, d)) <==> (Takes(cfg, Names(s), d) ==> !Registered(s, RemoteId(c, d.id)))
  {
    hide Inv, Owned, AddRemote, Takes;
    if Takes(cfg, Names(s), d) && Registered(s, RemoteId(c, d.id)) {
      ReusedDoubles(cfg, s, c, d);
      DoubledUnowned(AddRemote(cfg, s, c, d));
    } else {
      AddRemoteOwned(cfg, s, c, d);
    }
  }

  /** A slave's whole registration keeps ownership exactly when every server that is taken brings
      an unused ID, which can be read off the tables before the call; if not, two registered
      servers have the same ID at once. */
  lemma SlaveKeepsOwnedIff(cfg: Config, s: State, c: nat, ds: seq<Remote>)
    requires Inv(cfg, s) && Owned(s) && c in s.conns
    ensures Owned(RegisterSlave(cfg, s, c, ds)) <==> UnusedIds(cfg, Names(s), Ids(s), c, ds)
    ensures DistinctIds(RegisterSlave(cfg, s, c, ds).servers) <==> UnusedIds(cfg, Names(s), Ids(s), c, ds)
  {
    hide Inv, AddRemotes, RegisterMaster, UnusedIds, DistinctIds, Ownership;
    if UnusedIds(cfg, Names(s), Ids(s), c, ds) {
      AddRemotesOwned(cfg, s, c, ds);
      ThenRegisterOwned(cfg, AddRemotes(cfg, s, c, ds));
    } else {
      ReusedSomewhere(cfg, s, c, ds);
      ForwardedIds(cfg, AddRemotes(cfg, s, c, ds));
    }
  }

  /** Every registered server has an owner, and no server has two. */
  ghost predicate OneOwner(s: State) {
    && (forall e :: e in s.servers ==> exists c :: c in s.conns && e.id in s.conns[c].servers)
    && (forall c, d, id :: c in s.conns && d in s.conns && id in s.conns[c].servers && id in s.conns[d].servers ==> c == d)
  }

  /** So it is, and stays so when any connection unregisters any server. */
  ghost predicate FirmlyOwned(cfg: Config, s: State) {
    OneOwner(s) && forall c, id :: c in s.conns ==> OneOwner(Unregister(cfg, s, c, id))
  }

  lemma OwnedFirmly(cfg: Config, s: State)
    requires Inv(cfg, s) && Owned(s)
    ensures FirmlyOwned(cfg, s)
  {
    hide Inv, Unregister, DistinctIds;
    forall c, id | c in s.conns ensures OneOwner(Unregister(cfg, s, c, id)) { UnregisterOwned(cfg, s, c, id); }
  }

  /** Removing the first of two entries with an ID leaves the second. */
  lemma {:induction false} SecondStays(l: seq<Server>, i: nat, j: nat)
    requires i < j < |l| && l[i].id == l[j].id
    ensures exists e :: e in Removed(l, l[i].id) && e.id == l[i].id
  {
    if l[0].id == l[i].id {
      assert l[j] == l[1..][j - 1];
    } else {
      SecondStays(l[1..], i - 1, j - 1);
      var e :| e in Removed(l[1..], l[i].id) && e.id == l[i].id;
      assert e in Removed(l, l[i].id);
    }
  }

  /** What an unregistration leaves in the tables. */
  lemma UnregisterLeaves(cfg: Config, s: State, c: nat, id: PartyId)
    requires c in s.conns && id in s.conns[c].servers && ScanId(s.servers, id).Some?
    ensures var s' := Unregister(cfg, s, c, id);
            && s'.servers == Removed(s.servers, id) && s'.conns.Keys == s.conns.Keys
            && forall d, x :: d in s.conns ==> (x in s'.conns[d].servers <==> x in s.conns[d].servers && (d == c ==> x != id))
  {
    SetMembers(s.conns[c].servers, id);
    hide SetRemove, ScanId, Sweep, Removed, RemoveServerClients, ListPulses;
    var s1 := s.(conns := s.conns[c := s.conns[c].(servers := SetRemove(s.conns[c].servers, id))]);
    SweepOwners(cfg, s1, Disconnect, ByParty(id), 0);
  }

  /** Two servers with one ID and one owner: when it unregisters that ID, an orphan is left. */
  lemma OrphanLeft(cfg: Config, s: State, c: nat, i: nat, j: nat)
    requires i < j < |s.servers| && s.servers[i].id == s.servers[j].id
    requires c in s.conns && s.servers[i].id in s.conns[c].servers && OneOwner(s)
    ensures !OneOwner(Unregister(cfg, s, c, s.servers[i].id))
  {
    var id := s.servers[i].id;
    assert s.servers[i] in s.servers;
    UnregisterLeaves(cfg, s, c, id);
    SecondStays(s.servers, i, j);
    hide Unregister, Removed;
    var s' := Unregister(cfg, s, c, id);
    var e :| e in s'.servers && e.id == id;
    assert forall d :: d in s'.conns ==> e.id !in s'.conns[d].servers;
  }

  /** Two servers with one ID have two owners or none, or are one unregistration away from that. */
  lemma DoubledNotFirm(cfg: Config, s: State)
    requires !DistinctIds(s.servers)
    ensures !FirmlyOwned(cfg, s)
  {
    if OneOwner(s) {
      var i, j :| 0 <= i < j < |s.servers| && s.servers[i].id == s.servers[j].id;
      assert s.servers[i] in s.servers;
      var c :| c in s.conns && s.servers[i].id in s.conns[c].servers;
      OrphanLeft(cfg, s, c, i, j);
    }
  }

  ghost predicate AlwaysFirm(cfg: Config, es: seq<Event>)
    requires IsRun(cfg, es)
    decreases |es|
  {
    FirmlyOwned(cfg, After(cfg, es)) && (es == [] || AlwaysFirm(cfg, es[..|es| - 1]))
  }

  /** Over whole runs: every server has exactly one owner at every handler boundary, also if a
      server is unregistered there, exactly when no slave ever reused an ID. */
  lemma {:induction false} OwnershipAlwaysIff(cfg: Config, es: seq<Event>)
    requires IsRun(cfg, es)
    ensures AlwaysFirm(cfg, es) <==> Clean(cfg, es)
  {
    hide Inv, Step, Enabled, FirmlyOwned, Owned, UnusedIds;
    RunKeepsInv(cfg, es);
    if es == [] {
      RunKeepsOwned(cfg, es);
      OwnedFirmly(cfg, INITIAL);
    } else {
      var n := |es| - 1;
      OwnershipAlwaysIff(cfg, es[..n]);
      if Clean(cfg, es) {
        RunKeepsOwned(cfg, es);
        OwnedFirmly(cfg, After(cfg, es));
      } else if Clean(cfg, es[..n]) {
        RunKeepsOwned(cfg, es[..n]);
        RunKeepsInv(cfg, es[..n]);
        ReuseSpoils(cfg, After(cfg, es[..n]), es[n]);
      }
    }
  }

  lemma ReuseSpoils(cfg: Config, s: State, e: Event)
    requires Inv(cfg, s) && Owned(s) && Enabled(cfg, s, e) && !BringsUnused(cfg, s, e)
    ensures !FirmlyOwned(cfg, Step(cfg, s, e))
  {
    hide Inv, Owned, FirmlyOwned, UnusedIds, RegisterSlave, DistinctIds;
    SlaveKeepsOwnedIff(cfg, s, e.c, e.remotes);
    DoubledNotFirm(cfg, RegisterSlave(cfg, s, e.c, e.remotes));
  }

  // ---------------------------------------------------------------- two such slaves

  function FromSlave(name: string): Remote {
    Remote(PartyId(7, 1), Iface(name, 1, 0), 1)
  }

  function Entry(name: string): Server {
    Server(PartyId(7, 1), NO_PARTY, Iface(name, 1, 0), ANYBODY, false)
  }

  /** With nobody waiting, a slave's server only enters the tables. */
  lemma EntersOnly(cfg: Config, s: State, c: nat, name: string)
    requires cfg.ext == 5 && c in s.conns && s.lists == Lists([], [], [], []) && Checked(Iface(name, 1, 0)) && name !in Names(s)
    ensures AddRemote(cfg, s, c, FromSlave(name)) == Enter(s, c, Entry(name))
  {
    TakesIff(cfg, s, c, FromSlave(name));
    hide Inserted, SetInsert, AddRemote, Checked;
    var s1 := Enter(s, c, Entry(name));
    assert Sweep(cfg, s1, Available, ByOffer(Iface(name, 1, 0), ANYBODY), 0) == s1;
    assert s1.past.pulses + [] == s1.past.pulses;
  }

  ghost function Slaves(): State {
    var conn := Conn([], [], [], true, 1, 0);
    INITIAL.(conns := map[1 := conn, 2 := conn])
  }

  const OPENED := [EOpen(1, 1, 0), EMarkSlave(1), EOpen(2, 1, 0), EMarkSlave(2)]

  lemma SlavesReached(cfg: Config)
    ensures IsRun(cfg, OPENED) && After(cfg, OPENED) == Slaves()
  {
    var none: seq<Event> := [];
    assert IsRun(cfg, none) && After(cfg, none) == INITIAL;
    hide IsRun, After;
    var plain, slave := Conn([], [], [], false, 1, 0), Conn([], [], [], true, 1, 0);
    var s1 := INITIAL.(conns := map[1 := plain]);
    var s2 := INITIAL.(conns := map[1 := slave]);
    var s3 := INITIAL.(conns := map[1 := slave, 2 := plain]);
    OneMore(cfg, none, EOpen(1, 1, 0), INITIAL, s1);
    OneMore(cfg, none + [EOpen(1, 1, 0)], EMarkSlave(1), s1, s2);
    OneMore(cfg, none + [EOpen(1, 1, 0)] + [EMarkSlave(1)], EOpen(2, 1, 0), s2, s3);
    OneMore(cfg, none + [EOpen(1, 1, 0)] + [EMarkSlave(1)] + [EOpen(2, 1, 0)], EMarkSlave(2), s3, Slaves());
    assert none + [EOpen(1, 1, 0)] + [EMarkSlave(1)] + [EOpen(2, 1, 0)] + [EMarkSlave(2)] == OPENED;
  }

  /** A slave registers one server while the master is out of reach. */
  lemma OneRemote(cfg: Config, s: State, c: nat, name: string)
    requires cfg.ext == 5 && c in s.conns && s.lists == Lists([], [], [], []) && Checked(Iface(name, 1, 0)) && name !in Names(s)
    requires !s.link.connected
    ensures Step(cfg, s, ERegisterSlave(c, [FromSlave(name)])) == Enter(s, c, Entry(name))
  {
    EntersOnly(cfg, s, c, name);
    hide AddRemote, Enter;
    var ds := [FromSlave(name)];
    assert ds[0] == FromSlave(name) && ds[1..] == [];
    assert AddRemotes(cfg, Enter(s, c, Entry(name)), c, []) == Enter(s, c, Entry(name));
  }

  /** Two slaves that both send <7.1> end up owning the same server ID. */
  lemma ReusedIdsClash(cfg: Config)
    requires cfg.ext == 5
    ensures var es := OPENED + [ERegisterSlave(1, [FromSlave("a")])] + [ERegisterSlave(2, [FromSlave("b")])];
            IsRun(cfg, es) && (var s := After(cfg, es);
            1 in s.conns && 2 in s.conns && PartyId(7, 1) in s.conns[1].servers && PartyId(7, 1) in s.conns[2].servers)
  {
    var s := Slaves();
    SlavesReached(cfg);
    OneRemote(cfg, s, 1, "a");
    var s1 := Enter(s, 1, Entry("a"));
    OneName(s1, "a");
    OneRemote(cfg, s1, 2, "b");
    var s2 := Enter(s1, 2, Entry("b"));
    hide IsRun, After, Step;
    OneMore(cfg, OPENED, ERegisterSlave(1, [FromSlave("a")]), s, s1);
    OneMore(cfg, OPENED + [ERegisterSlave(1, [FromSlave("a")])], ERegisterSlave(2, [FromSlave("b")]), s1, s2);
  }

  lemma OneName(s: State, name: string)
    requires s.servers == Inserted([], Entry(name))
    ensures s.servers == [Entry(name)] && Names(s) == {name}
  {
    assert s.servers == [Entry(name)];
    assert Entry(name) in s.servers;
  }

  /** One slave that sends <7.1> twice and takes it back once leaves a server without an owner. */
  lemma ReusedIdOrphans(cfg: Config)
    requires cfg.ext == 5
    ensures var es := OPENED + [ERegisterSlave(1, [FromSlave("a")])] + [ERegisterSlave(1, [FromSlave("b")])]
                    + [EUnregister(1, PartyId(7, 1))];
            IsRun(cfg, es) && (var s := After(cfg, es);
            Registered(s, PartyId(7, 1)) && forall c :: c in s.conns ==> PartyId(7, 1) !in s.conns[c].servers)
  {
    var s1 := Enter(Slaves(), 1, Entry("a"));
    var s2 := Enter(s1, 1, Entry("b"));
    hide IsRun, After, Step, Slaves, Enter, Unregister, Registered;
    var first, second, back := ERegisterSlave(1, [FromSlave("a")]), ERegisterSlave(1, [FromSlave("b")]), EUnregister(1, PartyId(7, 1));
    SlavesReached(cfg);
    TwiceSent(cfg);
    TakenBack(cfg, s2);
    ThreeMore(cfg, OPENED, first, second, back, Slaves(), s1, s2, Step(cfg, s2, back));
  }

  lemma TwiceSent(cfg: Config)
    requires cfg.ext == 5
    ensures var s1 := Enter(Slaves(), 1, Entry("a"));
            && Step(cfg, Slaves(), ERegisterSlave(1, [FromSlave("a")])) == s1
            && Step(cfg, s1, ERegisterSlave(1, [FromSlave("b")])) == Enter(s1, 1, Entry("b"))
            && (var s2 := Enter(s1, 1, Entry("b"));
                s2.conns.Keys == {1, 2} && s2.conns[1].servers == [PartyId(7, 1)] && s2.conns[2].servers == []
                && s2.servers == [Entry("b"), Entry("a")] && s2.lists.disconnect == [])
  {
    var s := Slaves();
    OneRemote(cfg, s, 1, "a");
    var s1 := Enter(s, 1, Entry("a"));
    OneName(s1, "a");
    OneRemote(cfg, s1, 1, "b");
    hide Step;
    assert s1.conns[1].servers == [PartyId(7, 1)];
    TwoEntries();
  }

  lemma TakenBack(cfg: Config, s: State)
    requires s.conns.Keys == {1, 2} && s.conns[1].servers == [PartyId(7, 1)] && s.conns[2].servers == []
    requires s.servers == [Entry("b"), Entry("a")] && s.lists.disconnect == []
    ensures var s3 := Step(cfg, s, EUnregister(1, PartyId(7, 1)));
            Registered(s3, PartyId(7, 1)) && forall c :: c in s3.conns ==> PartyId(7, 1) !in s3.conns[c].servers
  {
    var s3 := Unregister(cfg, s, 1, PartyId(7, 1));
    assert SetRemove([PartyId(7, 1)], PartyId(7, 1)) == [];
    assert s3.servers == [Entry("a")] && Entry("a") in s3.servers;
  }

  lemma TwoEntries()
    ensures Inserted([Entry("a")], Entry("b")) == [Entry("b"), Entry("a")]
  {
    assert Less("a", "b") && !Less("b", "a");
  }
}
