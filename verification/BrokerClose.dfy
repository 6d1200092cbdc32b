/** Clearing a notification and closing a connection. The connection's own ID
    list tells the sweeps what to remove while the destructors they run rewrite
    that very list; the invariant survives because a live ID never leaves the
    list before its notification leaves its own. */
module BrokerClose {
  import opened BrokerTypes
  import opened ServerTable
  import opened BrokerSpec
  import opened BrokerInv
  import opened BrokerSweep
  import opened BrokerMoves
  import opened BrokerPools
  import opened BrokerHandlers
  import opened BrokerRequests
  import opened BrokerRest

  // ---------------------------------------------------------------- handleClearNofification

  lemma DetachIgnoresConns(s: State, conns: map<nat, Conn>, poolId: nat)
    ensures DetachPool(s.(conns := conns), poolId) == DetachPool(s, poolId).(conns := conns)
  {
  }

  lemma DropAfterForget(s: State, c: nat, n: Notification)
    requires n.host.Some? ==> n.host.value == c
    ensures Drop(Forget(s, c, n.id), n) == Forget(Drop(s, n), c, n.id)
  {
    hide StdRemove, DetachPool;
    var s0 := Forget(s, c, n.id);
    var s1 := if n.host.Some? then Forget(s, c, n.id) else s;
    var s2 := if n.host.Some? then Forget(s0, c, n.id) else s0;
    assert s2 == s1.(conns := s2.conns) && s2.conns == Forget(s1, c, n.id).conns;
    DetachIgnoresConns(s1, s2.conns, n.poolId);
  }

  /** The handler forgets the ID before it removes the entry; the other order gives the same state. */
  lemma RemoveAfterForget(s: State, k: Kind, c: nat, id: nat)
    requires forall n :: n in L(s, k) && n.id == id && n.host.Some? ==> n.host.value == c
    ensures RemoveOne(Forget(s, c, id), k, id) == Forget(RemoveOne(s, k, id), c, id)
  {
    hide Drop, NotifAt, Put, Forget, Withdraw;
    var i := NotifAt(L(s, k), id, false);
    ForgetKeepsList(s, k, c, id);
    if i >= 0 {
      var l := L(s, k)[..i] + L(s, k)[i + 1..];
      assert L(s, k)[i] in L(s, k);
      PutForgotten(s, k, c, id, l);
      DropAfterForget(Put(Withdraw(s, id), k, l), c, L(s, k)[i]);
    }
  }

  lemma ForgetKeepsList(s: State, k: Kind, c: nat, id: nat)
    ensures L(Forget(s, c, id), k) == L(s, k) && L(Withdraw(Forget(s, c, id), id), k) == L(s, k) && L(Withdraw(s, id), k) == L(s, k)
  {
    hide StdRemove;
  }

  lemma PutForgotten(s: State, k: Kind, c: nat, id: nat, l: seq<Notification>)
    ensures Put(Withdraw(Forget(s, c, id), id), k, l) == Forget(Put(Withdraw(s, id), k, l), c, id)
  {
    hide StdRemove;
  }

  lemma ForgetListed(s: State, c: nat, id: nat, k: Kind, n: Notification)
    requires Listed(s, k, n) && n.id != id
    ensures Listed(Forget(s, c, id), k, n)
  {
    if c in s.conns { StdRemoveMembers(s.conns[c].notifs, id); }
    hide StdRemove;
  }

  lemma ForgetCore(s: State, c: nat, id: nat)
    requires Core(s) && forall k :: NoneWith(s, k, id)
    ensures Core(Forget(s, c, id))
  {
    var s' := Forget(s, c, id);
    assert forall k :: L(s', k) == L(s, k);
    assert ListsOk(s') by {
      forall k, n | n in L(s', k) ensures Listed(s', k, n) {
        assert n in L(s, k) && Listed(s, k, n) && NoneWith(s, k, id);
        ForgetListed(s, c, id, k, n);
      }
      forall k ensures NewestFirst(L(s', k)) { assert NewestFirst(L(s, k)); }
    }
    assert HostsOk(s') by {
      if c in s.conns { StdRemoveMembers(s.conns[c].notifs, id); }
      hide StdRemove;
    }
    hide ListsOk, BookOk, PoolsOk, HostsOk, StdRemove;
    SameBook(s, s');
    SamePools(s, s');
  }

  lemma ForgetInv(cfg: Config, s: State, c: nat, id: nat)
    requires Inv(cfg, s) && forall k :: NoneWith(s, k, id)
    ensures Inv(cfg, Forget(s, c, id))
  {
    hide Core, NoneWith, StdRemove;
    ForgetCore(s, c, id);
    RestInv(cfg, s, Forget(s, c, id));
  }

  ghost predicate HostIs(s: State, c: nat, id: nat) {
    forall k, n :: n in L(s, k) && n.id == id && n.host.Some? ==> n.host.value == c
  }

  lemma HostKnown(cfg: Config, s: State, c: nat, id: nat)
    requires Inv(cfg, s) && id in s.past.book && s.past.book[id].conn == c
    ensures HostIs(s, c, id)
  {
    forall k, n | n in L(s, k) && n.id == id && n.host.Some? ensures n.host.value == c {
      assert Listed(s, k, n);
    }
  }

  ghost function RemoveEach(s: State, id: nat): State {
    RemoveOne(RemoveOne(RemoveOne(RemoveOne(s, Detach, id), Disconnect, id), Available, id), ListChange, id)
  }

  lemma RemoveStep(cfg: Config, s: State, k: Kind, c: nat, id: nat)
    requires Inv(cfg, s) && id in s.past.book && s.past.book[id].conn == c
    ensures var s' := RemoveOne(s, k, id);
            && Inv(cfg, s') && s'.past.book == s.past.book && NoneWith(s', k, id)
            && (forall k' :: k' != k && NoneWith(s, k', id) ==> NoneWith(s', k', id))
            && RemoveOne(Forget(s, c, id), k, id) == Forget(s', c, id)
  {
    HostKnown(cfg, s, c, id);
    RemoveOneInv(cfg, s, k, id);
    RemoveAfterForget(s, k, c, id);
    hide Inv, RemoveOne, Forget, KeepsBacked, ConnsShrink;
  }

  lemma RemoveEachInv(cfg: Config, s: State, c: nat, id: nat)
    requires Inv(cfg, s) && id in s.past.book && s.past.book[id].conn == c
    ensures Inv(cfg, RemoveEach(s, id)) && RemoveEach(Forget(s, c, id), id) == Forget(RemoveEach(s, id), c, id)
    ensures forall k :: NoneWith(RemoveEach(s, id), k, id)
  {
    hide Inv, RemoveOne, Forget, NoneWith;
    var s1 := RemoveOne(s, Detach, id);
    var s2 := RemoveOne(s1, Disconnect, id);
    var s3 := RemoveOne(s2, Available, id);
    RemoveStep(cfg, s, Detach, c, id);
    RemoveStep(cfg, s1, Disconnect, c, id);
    RemoveStep(cfg, s2, Available, c, id);
    RemoveStep(cfg, s3, ListChange, c, id);
  }

  lemma TicketOf(cfg: Config, s: State, c: nat, id: nat)
    requires Inv(cfg, s) && c in s.conns && id in s.conns[c].notifs
    ensures id in s.past.book && s.past.book[id].conn == c
  {
    assert HostsOk(s);
  }

  /** Clearing removes the notification from whichever list holds it. */
  lemma ClearInv(cfg: Config, s: State, c: nat, id: nat)
    requires Inv(cfg, s) && c in s.conns
    ensures Inv(cfg, Clear(s, c, id))
    ensures id in s.conns[c].notifs ==> forall k :: NoneWith(Clear(s, c, id), k, id)
  {
    hide Inv, RemoveOne, Forget, NoneWith;
    if id in s.conns[c].notifs {
      TicketOf(cfg, s, c, id);
      RemoveEachInv(cfg, s, c, id);
      assert Clear(s, c, id) == Forget(RemoveEach(s, id), c, id);
      hide Clear, RemoveEach;
      ForgetInv(cfg, RemoveEach(s, id), c, id);
      forall k ensures NoneWith(Clear(s, c, id), k, id) { ForgetNone(RemoveEach(s, id), c, id, k); }
    }
  }

  lemma ForgetNone(s: State, c: nat, id: nat, k: Kind)
    requires NoneWith(s, k, id)
    ensures NoneWith(Forget(s, c, id), k, id)
  {
    ForgetLists(s, c, id, k);
  }

  lemma ForgetLists(s: State, c: nat, id: nat, k: Kind)
    ensures L(Forget(s, c, id), k) == L(s, k)
  {
  }

  // ---------------------------------------------------------------- ClientSpecificData::clear

  /** Tables after some servers and clients left; everything else is untouched. */
  ghost predicate Departed(s: State, s': State, servers: seq<PartyId>, clients: seq<PartyId>) {
    && s' == s.(servers := s'.servers, clients := s'.clients, link := s'.link)
    && s'.link == s.link.(outstanding := s'.link.outstanding)
    && AllCookies(s'.link.outstanding) == AllCookies(s.link.outstanding)
    && Descending(s'.servers) && DistinctClients(s'.clients) && Leaving(s.servers, s'.servers, servers)
    && (forall x :: x in s'.clients <==> x in s.clients && x.server !in servers && x.id !in clients)
  }

  lemma RetireDeparts(s: State, e: Server)
    requires Descending(s.servers) && DistinctClients(s.clients)
    ensures Departed(s, Retire(s, e), [e.id], [])
  {
    hide Retire, AllCookies, Descending, DistinctIds, DistinctClients;
    RetireParts(s, e);
  }

  lemma DepartTrans(s: State, t: State, u: State, a: seq<PartyId>, b: seq<PartyId>, c: seq<PartyId>, d: seq<PartyId>)
    requires Departed(s, t, a, c) && Departed(t, u, b, d)
    ensures Departed(s, u, a + b, c + d)
  {
    hide AllCookies, Descending, DistinctIds, DistinctClients;
  }

  lemma {:induction false} CloseServersDeparts(s: State, ids: seq<PartyId>)
    requires Descending(s.servers) && DistinctClients(s.clients)
    requires forall x :: x in s.clients ==> Registered(s, x.server)
    ensures Departed(s, CloseServers(s, ids), ids, [])
    decreases |ids|
  {
    if ids != [] {
      var e := ScanId(s.servers, ids[0]);
      var s1 := if e.Some? then Retire(s, e.value) else s;
      if e.Some? { RetireDeparts(s, e.value); }
      assert Departed(s, s1, [ids[0]], []) by { hide Retire; }
      hide Retire, ScanId, Descending, DistinctIds, DistinctClients, AllCookies;
      forall x | x in s1.clients ensures Registered(s1, x.server) {
        var y :| y in s.servers && y.id == x.server;
        assert y in s1.servers;
      }
      hide Registered;
      CloseServersDeparts(s1, ids[1..]);
      hide Departed;
      DepartTrans(s, s1, CloseServers(s1, ids[1..]), [ids[0]], ids[1..], [], []);
      var none: seq<PartyId> := [];
      assert ids == [ids[0]] + ids[1..] && none + none == none;
      assert CloseServers(s, ids) == CloseServers(s1, ids[1..]);
    }
  }

  lemma RemoveDeparts(s: State, id: PartyId)
    requires Descending(s.servers) && DistinctClients(s.clients)
    ensures var s1 := s.(clients := RemoveClient(s.clients, id));
            Departed(s, if s.link.connected then Push(s1, DetachJob(id)) else s1, [], [id])
  {
    hide ClientAt, AllCookies, RemoveClient, Descending, DistinctIds, DistinctClients;
    PushPlain(s.link.outstanding, DetachJob(id));
    RemovedClient(s.clients, id);
  }

  lemma {:induction false} CloseClientsDeparts(s: State, ids: seq<PartyId>)
    requires Descending(s.servers) && DistinctClients(s.clients)
    ensures Departed(s, CloseClients(s, ids), [], ids)
    decreases |ids|
  {
    if ids != [] {
      var s0 := s.(clients := RemoveClient(s.clients, ids[0]));
      var s1 := if s.link.connected then Push(s0, DetachJob(ids[0])) else s0;
      RemoveDeparts(s, ids[0]);
      hide Push, RemoveClient, Descending, DistinctIds, DistinctClients, AllCookies;
      CloseClientsDeparts(s1, ids[1..]);
      hide Departed;
      DepartTrans(s, s1, CloseClients(s1, ids[1..]), [], [], [ids[0]], ids[1..]);
      var none: seq<PartyId> := [];
      assert ids == [ids[0]] + ids[1..] && none + none == none;
      assert CloseClients(s, ids) == CloseClients(s1, ids[1..]);
    }
  }

  lemma CloseDeparts(cfg: Config, s: State, servers: seq<PartyId>, clients: seq<PartyId>)
    requires Inv(cfg, s)
    ensures Departed(s, CloseClients(CloseServers(s, servers), clients), servers, clients)
  {
    assert forall x :: x in s.clients ==> ClientOk(s, x);
    ClientsAreDistinct(s);
    hide Core, CloseServers, CloseClients;
    CloseServersDeparts(s, servers);
    var t := CloseServers(s, servers);
    CloseClientsDeparts(t, clients);
    hide Departed;
    DepartTrans(s, t, CloseClients(t, clients), servers, [], [], clients);
    assert servers + [] == servers && [] + clients == clients;
  }

  /** After the four sweeps no list holds a notification that the connection registered. */
  ghost predicate NothingOf(s: State, k: Kind, c: nat) {
    forall n :: n in L(s, k) ==> n.id in s.past.book && s.past.book[n.id].conn != c
  }

  lemma SweptNothing(cfg: Config, s: State, k: Kind, c: nat)
    requires AllListed(s) && Settled(cfg, s, k, Withdrawal(c), 0)
    ensures NothingOf(s, k, c)
  {
    forall n | n in L(s, k) ensures n.id in s.past.book && s.past.book[n.id].conn != c {
      assert Listed(s, k, n);
      var j :| 0 <= j < |L(s, k)| && L(s, k)[j] == n;
      assert Act(cfg, s, Withdrawal(c), n) == Keep;
    }
  }

  lemma StillNothing(s: State, s': State, k: Kind, k': Kind, c: nat)
    requires Shrinks(s, s', k) && k' != k && NothingOf(s, k', c)
    ensures NothingOf(s', k', c)
  {
    hide KeepsBacked, ConnsShrink;
  }

  lemma WithdrawSweep(cfg: Config, s: State, k: Kind, c: nat)
    requires Core(s) && c in s.conns
    ensures var s' := Sweep(cfg, s, k, Withdrawal(c), 0);
            Core(s') && Shrinks(s, s', k) && c in s'.conns && NothingOf(s', k, c)
  {
    hide Sweep, Spared, Core, Settled, NothingOf;
    SweepKeeps(cfg, s, k, Withdrawal(c), 0);
    var s' := Sweep(cfg, s, k, Withdrawal(c), 0);
    assert AllListed(s') by { CoreLists(s'); }
    hide Listed, KeepsBacked;
    SweptNothing(cfg, s', k, c);
  }

  ghost predicate Settles(cfg: Config, s: State, s': State) {
    && Core(s') && Frame(s, s') && ConnsShrink(s.conns, s'.conns)
    && NoLostWakeup(s'.servers, s'.lists.available) && WatchersSound(cfg, s', [])
  }

  lemma SettlesStep(cfg: Config, s: State, t: State, u: State, k: Kind)
    requires Settles(cfg, s, t) && Core(u) && Shrinks(t, u, k)
    ensures Settles(cfg, s, u)
  {
    hide Core, NoLostWakeup, WatchersSound;
    ShrinkWake(t, u, k);
    ShrinkWatch(cfg, t, u, k, []);
    hide KeepsBacked;
  }

  lemma SettlesCore(cfg: Config, s: State, t: State)
    requires Settles(cfg, s, t)
    ensures Core(t)
  {
  }

  lemma WithdrawAllKeeps(cfg: Config, s: State, t: State, c: nat)
    requires Settles(cfg, s, t) && c in t.conns
    ensures Settles(cfg, s, WithdrawAll(cfg, t, c))
    ensures forall k :: NothingOf(WithdrawAll(cfg, t, c), k, c)
  {
    hide Settles, Sweep, Shrinks, Core, NothingOf;
    var s1 := Sweep(cfg, t, Disconnect, Withdrawal(c), 0);
    var s2 := Sweep(cfg, s1, Detach, Withdrawal(c), 0);
    var s3 := Sweep(cfg, s2, Available, Withdrawal(c), 0);
    var s4 := Sweep(cfg, s3, ListChange, Withdrawal(c), 0);
    SettlesCore(cfg, s, t);
    WithdrawSweep(cfg, t, Disconnect, c);
    WithdrawSweep(cfg, s1, Detach, c);
    WithdrawSweep(cfg, s2, Available, c);
    WithdrawSweep(cfg, s3, ListChange, c);
    SettlesStep(cfg, s, t, s1, Disconnect);
    SettlesStep(cfg, s, s1, s2, Detach);
    SettlesStep(cfg, s, s2, s3, Available);
    SettlesStep(cfg, s, s3, s4, ListChange);
    StillNothing(s1, s2, Detach, Disconnect, c);
    StillNothing(s2, s3, Available, Disconnect, c);
    StillNothing(s3, s4, ListChange, Disconnect, c);
    StillNothing(s2, s3, Available, Detach, c);
    StillNothing(s3, s4, ListChange, Detach, c);
    StillNothing(s3, s4, ListChange, Available, c);
    assert WithdrawAll(cfg, t, c) == s4;
    hide WithdrawAll;
    forall k ensures NothingOf(s4, k, c) {
      match k { case Available => case Disconnect => case Detach => case ListChange => }
    }
  }

  lemma DepartWatch(cfg: Config, s: State, s': State, servers: seq<PartyId>, clients: seq<PartyId>)
    requires WatchersSound(cfg, s, []) && Departed(s, s', servers, clients)
    ensures WatchersSound(cfg, s', servers)
  {
    hide AllCookies, Descending, DistinctIds, DistinctClients;
    forall id | Registered(s, id) && id !in servers ensures Registered(s', id) {
      var e :| e in s.servers && e.id == id;
      assert e in s'.servers;
    }
    hide Registered;
  }

  /** The first half of the close: tables emptied, watchers of the lost servers and clients pulsed. */
  lemma CloseFirst(cfg: Config, s: State, c: nat, s1: State, s2: State, s3: State)
    requires Inv(cfg, s) && c in s.conns
    requires s1 == CloseClients(CloseServers(s, s.conns[c].servers), s.conns[c].clients)
    requires s2 == Sweep(cfg, s1, Disconnect, ByParties(s.conns[c].servers), 0)
    requires s3 == Sweep(cfg, s2, Detach, ByParties(s.conns[c].clients), 0)
    ensures Departed(s, s1, s.conns[c].servers, s.conns[c].clients) && Settles(cfg, s1, s3)
  {
    var me := s.conns[c];
    CloseDeparts(cfg, s, me.servers, me.clients);
    hide CloseClients, CloseServers, Sweep, Core, NoLostWakeup, WatchersSound, ServersOk, ClientsOk, Settled, Spared, Shrinks;
    hide AllCookies, Descending, DistinctIds, DistinctClients;
    assert Core(s1) by { PlainKeepsCore(s, s1); }
    assert NoLostWakeup(s1.servers, s1.lists.available) by { RetireWake(s, s1); }
    DepartWatch(cfg, s, s1, me.servers, me.clients);
    hide Departed;
    SweepKeeps(cfg, s1, Disconnect, ByParties(me.servers), 0);
    SweepKeeps(cfg, s2, Detach, ByParties(me.clients), 0);
    CloseSecond(cfg, s1, s2, me.servers);
    SettlesStep(cfg, s1, s2, s3, Detach);
  }

  lemma CloseSecond(cfg: Config, s1: State, s2: State, gone: seq<PartyId>)
    requires Core(s2) && Shrinks(s1, s2, Disconnect) && Settled(cfg, s2, Disconnect, ByParties(gone), 0)
    requires NoLostWakeup(s1.servers, s1.lists.available) && WatchersSound(cfg, s1, gone)
    ensures Settles(cfg, s1, s2)
  {
    hide Core, NoLostWakeup, WatchersSound, Settled, KeepsBacked;
    ShrinkWake(s1, s2, Disconnect);
    ShrinkWatch(cfg, s1, s2, Disconnect, gone);
    assert ListsOk(s2) by { CoreLists(s2); }
    PartyGone(cfg, s2, gone, ByParties(gone));
  }

  lemma DepartTables(cfg: Config, s: State, s1: State, s': State, c: nat)
    requires Tables(cfg, s) && c in s.conns && Departed(s, s1, s.conns[c].servers, s.conns[c].clients)
    requires s'.servers == s1.servers && s'.clients == s1.clients && s'.next == s.next
    requires s'.conns.Keys == s.conns.Keys - {c}
    requires forall d :: d in s'.conns ==> s'.conns[d].clients == s.conns[d].clients
    ensures Tables(cfg, s')
  {
    hide AllCookies;
    forall id | Registered(s, id) && id !in s.conns[c].servers ensures Registered(s', id) {
      var e :| e in s.servers && e.id == id;
      assert e in s'.servers;
    }
    assert ServersOk(cfg, s') by { hide Registered, ClientsOk; }
    hide Descending, DistinctIds, Registered;
    forall x | x in s'.clients ensures ClientOk(s', x) {
      assert x in s.clients && ClientOk(s, x);
    }
    ClientsDistinct(s');
  }

  /** Removing a connection that nothing refers to any more. */
  lemma HangUpCore(s: State, c: nat)
    requires Core(s) && forall k :: NothingOf(s, k, c)
    ensures Core(s.(conns := s.conns - {c}))
  {
    var s' := s.(conns := s.conns - {c});
    assert forall k :: L(s', k) == L(s, k);
    assert ListsOk(s') by {
      forall k, n | n in L(s', k) ensures Listed(s', k, n) {
        assert n in L(s, k) && Listed(s, k, n) && NothingOf(s, k, c);
      }
      forall k ensures NewestFirst(L(s', k)) { assert NewestFirst(L(s, k)); }
    }
    hide ListsOk, BookOk, PoolsOk;
    SameBook(s, s');
    SamePools(s, s');
  }

  /** Closing keeps the invariant and leaves nothing of the connection behind. */
  lemma CloseInv(cfg: Config, s: State, c: nat)
    requires Inv(cfg, s) && c in s.conns
    ensures Inv(cfg, Close(cfg, s, c))
    ensures forall k :: NothingOf(Close(cfg, s, c), k, c)
  {
    var me := s.conns[c];
    var s1 := CloseClients(CloseServers(s, me.servers), me.clients);
    var s2 := Sweep(cfg, s1, Disconnect, ByParties(me.servers), 0);
    var s3 := Sweep(cfg, s2, Detach, ByParties(me.clients), 0);
    var s4 := WithdrawAll(cfg, s3, c);
    var s5 := if me.servers != [] then TriggerAll(cfg, s4, None) else s4;
    assert Tables(cfg, s);
    hide CloseClients, CloseServers, Sweep, WithdrawAll;
    CloseFirst(cfg, s, c, s1, s2, s3);
    hide Inv, Tables;
    assert s1.conns == s.conns && s1.next == s.next by { hide AllCookies, Settles; }
    hide Departed;
    assert c in s3.conns by { hide Core; }
    WithdrawAllKeeps(cfg, s1, s3, c);
    CloseLast(cfg, s, c, s1, s4, s5);
    assert Close(cfg, s, c) == s5.(conns := s5.conns - {c});
  }

  lemma CloseLast(cfg: Config, s: State, c: nat, s1: State, s4: State, s5: State)
    requires Tables(cfg, s) && c in s.conns && Departed(s, s1, s.conns[c].servers, s.conns[c].clients)
    requires s1.conns == s.conns && s1.next == s.next
    requires Settles(cfg, s1, s4) && forall k :: NothingOf(s4, k, c)
    requires s5 == s4 || s5 == TriggerAll(cfg, s4, None)
    ensures var s6 := s5.(conns := s5.conns - {c});
            Inv(cfg, s6) && forall k :: NothingOf(s6, k, c)
  {
    var s6 := s5.(conns := s5.conns - {c});
    hide Core, Departed, WatchersSound, NoLostWakeup, ServersOk, ClientsOk;
    TriggerAllKeepsCore(cfg, s4, None);
    forall k ensures NothingOf(s5, k, c) && L(s6, k) == L(s5, k) {
      assert NothingOf(s4, k, c) && L(s5, k) == L(s4, k);
    }
    HangUpCore(s5, c);
    forall k ensures NothingOf(s6, k, c) { assert NothingOf(s5, k, c); }
    hide NothingOf, TriggerAll;
    assert s6.conns.Keys == s.conns.Keys - {c};
    DepartTables(cfg, s, s1, s6, c);
    assert SameServers(s4.servers, s6.servers);
    SameWatch(cfg, s4, s6, []);
  }
}
