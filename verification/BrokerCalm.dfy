/** What the handlers leave to the master. Almost every handler is calm: it
    puts no watcher into a pool, and it drops a client or list notification
    only with a clear job. The two exceptions, joining a pool and storing the
    master's answer, are the subject of BrokerWatch and BrokerGrants. */
module BrokerCalm {
  import opened BrokerTypes
  import opened ServerTable
  import opened BrokerSpec
  import opened BrokerInv
  import opened BrokerSweep
  import opened BrokerPools
  import opened BrokerRequests

  ghost predicate Answered(k: Kind) {
    k == Detach || k == ListChange
  }

  /** Client and list notifications never carry a pool. */
  ghost predicate Tagged(s: State) {
    forall k, n :: Answered(k) && n in L(s, k) ==> n.poolId == 0
  }

  ghost predicate WasPooled(l: seq<Notification>, n: Notification) {
    exists m :: m in l && m.poolId == n.poolId && m.party == n.party
  }

  ghost predicate Known(pools: seq<Pool>, p: Pool) {
    exists q :: q in pools && q.id == p.id && q.target == p.target
  }

  /** No watcher gets a pool, no pool gets another target, new pools get new IDs. */
  ghost predicate CalmPools(s: State, s': State) {
    && s.next.pool <= s'.next.pool
    && (forall n :: n in s'.lists.disconnect ==> n.poolId == 0 || WasPooled(s.lists.disconnect, n))
    && (forall p :: p in s'.pools ==> Known(s.pools, p) || p.id >= s.next.pool)
  }

  ghost predicate Kept(l: seq<Notification>, n: Notification) {
    exists m :: m in l && m.id == n.id && m.masterId == n.masterId
  }

  /** Nothing is lent, and what a client or list notification holds is kept or cleared
      under the notification's own ID. */
  ghost predicate CalmLent(s: State, s': State) {
    && Tagged(s')
    && s'.link.lent <= s.link.lent && s'.link.connected == s.link.connected && s'.link.steady == s.link.steady
    && (forall k, n :: Answered(k) && n in L(s, k) && n.masterId != INVALID ==>
          Kept(L(s', k), n) || !s.link.connected || n.id !in s'.link.lent)
    && (forall k, n :: Answered(k) && n in L(s', k) && n.masterId != INVALID ==> Kept(L(s, k), n))
  }

  ghost predicate Calm(s: State, s': State) {
    CalmPools(s, s') && CalmLent(s, s')
  }

  lemma CalmPoolsTrans(s: State, t: State, u: State)
    requires CalmPools(s, t) && CalmPools(t, u)
    ensures CalmPools(s, u)
  {
    forall n | n in u.lists.disconnect && n.poolId != 0 ensures WasPooled(s.lists.disconnect, n) {
      var m :| m in t.lists.disconnect && m.poolId == n.poolId && m.party == n.party;
      assert WasPooled(s.lists.disconnect, m);
    }
    forall p | p in u.pools ensures Known(s.pools, p) || p.id >= s.next.pool {
      if Known(t.pools, p) {
        var q :| q in t.pools && q.id == p.id && q.target == p.target;
        assert Known(s.pools, q) || q.id >= s.next.pool;
      }
    }
  }

  lemma CalmLentTrans(s: State, t: State, u: State)
    requires CalmLent(s, t) && CalmLent(t, u)
    ensures CalmLent(s, u)
  {
    forall k, n | Answered(k) && n in L(s, k) && n.masterId != INVALID
      ensures Kept(L(u, k), n) || !s.link.connected || n.id !in u.link.lent
    {
      if Kept(L(t, k), n) {
        var m :| m in L(t, k) && m.id == n.id && m.masterId == n.masterId;
        assert Kept(L(u, k), m) || !t.link.connected || m.id !in u.link.lent;
      }
    }
    forall k, n | Answered(k) && n in L(u, k) && n.masterId != INVALID ensures Kept(L(s, k), n) {
      assert Kept(L(t, k), n);
      var m :| m in L(t, k) && m.id == n.id && m.masterId == n.masterId;
      assert Kept(L(s, k), m);
    }
  }

  lemma CalmTrans(s: State, t: State, u: State)
    requires Calm(s, t) && Calm(t, u)
    ensures Calm(s, u)
  {
    hide CalmPools, CalmLent;
    CalmPoolsTrans(s, t, u);
    CalmLentTrans(s, t, u);
  }

  /** Steps that touch neither these lists nor the pools nor the link's books. */
  lemma SameCalm(s: State, s': State)
    requires Tagged(s)
    requires s'.lists.disconnect == s.lists.disconnect && s'.lists.detach == s.lists.detach && s'.lists.listChange == s.lists.listChange
    requires s'.pools == s.pools && s'.next.pool == s.next.pool
    requires s'.link.lent == s.link.lent && s'.link.connected == s.link.connected && s'.link.steady == s.link.steady
    ensures Calm(s, s')
  {
    assert forall k :: Answered(k) ==> L(s', k) == L(s, k);
    forall n | n in s.lists.disconnect ensures WasPooled(s.lists.disconnect, n) {}
    forall p | p in s.pools ensures Known(s.pools, p) {}
    forall k, n | n in L(s, k) ensures Kept(L(s, k), n) {}
  }

  // ---------------------------------------------------------------- erasing

  lemma DetachKnown(s: State, poolId: nat)
    ensures forall p :: p in DetachPool(s, poolId).pools ==> Known(s.pools, p)
    ensures DetachPool(s, poolId).link.lent <= s.link.lent
  {
    var pos := PoolAt(s.pools, poolId);
    var s' := DetachPool(s, poolId);
    hide PoolAt;
    forall p | p in s'.pools ensures Known(s.pools, p) {
      if p !in s.pools {
        assert pos >= 0 && s.pools[pos] in s.pools && p.id == s.pools[pos].id && p.target == s.pools[pos].target;
      }
    }
  }

  lemma DropKnown(s: State, n: Notification)
    ensures forall p :: p in Drop(s, n).pools ==> Known(s.pools, p)
    ensures Drop(s, n).link.lent <= s.link.lent
    ensures n.poolId == 0 && n.masterId != INVALID && s.link.connected ==> n.id !in Drop(s, n).link.lent
  {
    hide DetachPool, Forget;
    var s1 := if n.host.Some? then Forget(s, n.host.value, n.id) else s;
    DetachKnown(s1, n.poolId);
    hide Known;
    forall p | p in s.pools ensures Known(s.pools, p) { KnownSelf(s.pools, p); }
  }

  lemma KnownSelf(pools: seq<Pool>, p: Pool)
    requires p in pools
    ensures Known(pools, p)
  {}

  lemma EraseKnown(s: State, k: Kind, i: nat)
    requires i < |L(s, k)|
    ensures var s', n := EraseAt(s, k, i), L(s, k)[i];
            && (forall p :: p in s'.pools ==> Known(s.pools, p))
            && s'.link.lent <= s.link.lent
            && (n.poolId == 0 && n.masterId != INVALID && s.link.connected ==> n.id !in s'.link.lent)
  {
    hide Drop, Put, Known;
    DropKnown(Put(s, k, L(s, k)[..i] + L(s, k)[i + 1..]), L(s, k)[i]);
  }

  ghost predicate CutFrom(s: State, s': State, k: Kind, i: nat)
    requires i < |L(s, k)|
  {
    && L(s', k) == L(s, k)[..i] + L(s, k)[i + 1..]
    && (forall k' :: k' != k ==> L(s', k') == L(s, k'))
    && s'.next == s.next && s'.link.connected == s.link.connected && s'.link.steady == s.link.steady
  }

  lemma CutMember(l: seq<Notification>, i: nat, n: Notification)
    requires i < |l|
    ensures n in l[..i] + l[i + 1..] ==> n in l
    ensures n in l ==> n == l[i] || n in l[..i] + l[i + 1..]
  {
    var r := l[..i] + l[i + 1..];
    if n in l {
      var j :| 0 <= j < |l| && l[j] == n;
      if j < i { assert r[j] == n; } else if j > i { assert r[j - 1] == n; }
    }
  }

  lemma CutCalmPools(s: State, s': State, k: Kind, i: nat)
    requires i < |L(s, k)| && CutFrom(s, s', k, i) && forall p :: p in s'.pools ==> Known(s.pools, p)
    ensures CalmPools(s, s')
  {
    hide Known;
    forall n | n in s'.lists.disconnect ensures WasPooled(s.lists.disconnect, n) {
      assert n in L(s', Disconnect);
      if k == Disconnect { CutMember(L(s, k), i, n); }
      assert n in L(s, Disconnect);
    }
  }

  lemma CutCalmLent(s: State, s': State, k: Kind, i: nat)
    requires Tagged(s) && i < |L(s, k)| && CutFrom(s, s', k, i) && s'.link.lent <= s.link.lent
    requires L(s, k)[i].poolId == 0 && L(s, k)[i].masterId != INVALID && s.link.connected ==> L(s, k)[i].id !in s'.link.lent
    ensures CalmLent(s, s')
  {
    forall k', n | Answered(k') && n in L(s', k') ensures n in L(s, k') && Kept(L(s, k'), n) {
      if k' == k { CutMember(L(s, k), i, n); }
    }
    assert L(s, k)[i] in L(s, k);
    forall k', n | Answered(k') && n in L(s, k') && n.masterId != INVALID
      ensures Kept(L(s', k'), n) || !s.link.connected || n.id !in s'.link.lent
    {
      if k' == k { CutMember(L(s, k), i, n); }
      if n in L(s', k') { assert Kept(L(s', k'), n); }
    }
  }

  lemma EraseCalm(s: State, k: Kind, i: nat)
    requires Tagged(s) && i < |L(s, k)|
    ensures Calm(s, EraseAt(s, k, i))
  {
    hide EraseAt, Known, Tagged, CalmPools, CalmLent;
    EraseKnown(s, k, i);
    CutCalmPools(s, EraseAt(s, k, i), k, i);
    CutCalmLent(s, EraseAt(s, k, i), k, i);
  }

  lemma TurnCalm(cfg: Config, s: State, k: Kind, r: Rule, i: nat)
    requires Tagged(s) && i < |L(s, k)| && (r.ByOffer? ==> k == Available)
    ensures Calm(s, Turn(cfg, s, k, r, i))
  {
    hide EraseAt, Calm, Tagged;
    var n := L(s, k)[i];
    match Act(cfg, s, r, n)
    case Keep => SameCalm(s, s);
    case Fire =>
      SameCalm(s, Send(s, n.id));
      CalmTagged(s, Send(s, n.id));
      EraseCalm(Send(s, n.id), k, i);
      CalmTrans(s, Send(s, n.id), EraseAt(Send(s, n.id), k, i));
    case Discard =>
      SameCalm(s, Withdraw(s, n.id));
      CalmTagged(s, Withdraw(s, n.id));
      EraseCalm(Withdraw(s, n.id), k, i);
      CalmTrans(s, Withdraw(s, n.id), EraseAt(Withdraw(s, n.id), k, i));
    case Silence => SameCalm(s, Turn(cfg, s, k, r, i));
  }

  lemma CalmTagged(s: State, s': State)
    requires Calm(s, s')
    ensures Tagged(s')
  {}

  lemma {:induction false} SweepCalm(cfg: Config, s: State, k: Kind, r: Rule, i: nat)
    requires Tagged(s) && i <= |L(s, k)| && (r.ByOffer? ==> k == Available)
    ensures Calm(s, Sweep(cfg, s, k, r, i))
    decreases |L(s, k)| - i
  {
    hide Turn, Act, Calm, Tagged;
    if i == |L(s, k)| {
      SameCalm(s, s);
    } else {
      var s1 := Turn(cfg, s, k, r, i);
      TurnCalm(cfg, s, k, r, i);
      CalmTagged(s, s1);
      SweepCalm(cfg, s1, k, r, if Erases(Act(cfg, s, r, L(s, k)[i])) then i else i + 1);
      CalmTrans(s, s1, Sweep(cfg, s, k, r, i));
    }
  }

  /** A calm state followed by a sweep. */
  lemma ThenSweep(cfg: Config, s: State, t: State, k: Kind, r: Rule)
    requires Calm(s, t) && (r.ByOffer? ==> k == Available)
    ensures Calm(s, Sweep(cfg, t, k, r, 0))
  {
    hide Sweep;
    SweepCalm(cfg, t, k, r, 0);
    hide Calm;
    CalmTrans(s, t, Sweep(cfg, t, k, r, 0));
  }

  /** A calm state followed by something that touches nothing of this. */
  lemma ThenSame(s: State, t: State, u: State)
    requires Calm(s, t)
    requires u.lists.disconnect == t.lists.disconnect && u.lists.detach == t.lists.detach && u.lists.listChange == t.lists.listChange
    requires u.pools == t.pools && u.next.pool == t.next.pool
    requires u.link.lent == t.link.lent && u.link.connected == t.link.connected && u.link.steady == t.link.steady
    ensures Calm(s, u)
  {
    CalmTagged(s, t);
    hide Calm, Tagged;
    SameCalm(t, u);
    CalmTrans(s, t, u);
  }

  // ---------------------------------------------------------------- adding and pooling

  lemma AddCalm(s: State, k: Kind, c: nat, n: Notification)
    requires Tagged(s) && c in s.conns && n.masterId == INVALID && n.poolId == 0
    ensures Calm(s, AddNotif(s, k, c, n))
  {
    var s' := AddNotif(s, k, c, n);
    forall k', m | m in L(s', k') ensures m in L(s, k') || (m.masterId == INVALID && m.poolId == 0) {}
    forall k', m | m in L(s, k') ensures m in L(s', k') && Kept(L(s', k'), m) {
      if k' == k {
        var j :| 0 <= j < |L(s, k)| && L(s, k)[j] == m;
        assert L(s', k)[j + 1] == m;
      }
    }
    hide AddNotif;
    forall m | m in s'.lists.disconnect && m.poolId != 0 ensures WasPooled(s.lists.disconnect, m) {
      assert m in L(s', Disconnect);
      assert m in L(s, Disconnect);
    }
    forall p | p in s.pools ensures Known(s.pools, p) { KnownSelf(s.pools, p); }
    forall k', m | Answered(k') && m in L(s', k') && m.masterId != INVALID ensures Kept(L(s, k'), m) {}
  }

  lemma GrowCalm(s: State, s': State)
    requires Tagged(s) && s' == s.(lists := s.lists.(available := s'.lists.available), pools := s'.pools, next := s.next.(pool := s'.next.pool))
    requires s.next.pool <= s'.next.pool && forall p :: p in s'.pools ==> p in s.pools || p.id >= s.next.pool
    ensures Calm(s, s')
  {
    forall n | n in s.lists.disconnect ensures WasPooled(s.lists.disconnect, n) {}
    forall p | p in s.pools ensures Known(s.pools, p) { KnownSelf(s.pools, p); }
    hide Known;
    forall k, n | n in L(s, k) ensures Kept(L(s, k), n) {}
    assert forall k :: Answered(k) ==> L(s', k) == L(s, k);
  }

  lemma PoolOneCalm(cfg: Config, s: State, i: nat)
    requires Tagged(s) && i < |s.lists.available|
    ensures Calm(s, PoolOne(cfg, s, i).0)
  {
    hide TargetAt, NeedsPool, Tagged, Calm;
    var s' := PoolOne(cfg, s, i).0;
    assert forall p :: p in s'.pools ==> p in s.pools || p.id == s.next.pool;
    hide PoolOne;
    GrowCalm(s, s');
  }

  lemma {:induction false} PoolAllCalm(cfg: Config, s: State, i: nat)
    requires Tagged(s) && i <= |s.lists.available|
    ensures Calm(s, PoolAll(cfg, s, i).0)
    decreases |s.lists.available| - i
  {
    hide PoolOne, Calm, Tagged;
    if i == |s.lists.available| {
      SameCalm(s, s);
    } else {
      var s1 := PoolOne(cfg, s, i).0;
      PoolOneCalm(cfg, s, i);
      CalmTagged(s, s1);
      PoolAllCalm(cfg, s1, i + 1);
      CalmTrans(s, s1, PoolAll(cfg, s, i).0);
    }
  }

  lemma ForwardCalm(cfg: Config, s: State)
    requires Tagged(s)
    ensures Calm(s, ForwardAvailable(cfg, s))
  {
    hide PoolAll, AvailableJobs, Calm, Tagged;
    if s.link.connected {
      PoolAllCalm(cfg, s, 0);
      ThenSame(s, PoolAll(cfg, s, 0).0, ForwardAvailable(cfg, s));
    } else {
      SameCalm(s, s);
    }
  }

  lemma ThenForward(cfg: Config, s: State, t: State)
    requires Calm(s, t)
    ensures Calm(s, ForwardAvailable(cfg, t))
  {
    CalmTagged(s, t);
    hide Calm, Tagged, ForwardAvailable;
    ForwardCalm(cfg, t);
    CalmTrans(s, t, ForwardAvailable(cfg, t));
  }

  lemma GrantCalm(s: State, cookie: nat, id: nat, genuine: bool)
    requires Tagged(s)
    ensures Calm(s, Grant(s, cookie, id, genuine))
  {
    hide PoolAt;
    var s' := Grant(s, cookie, id, genuine);
    var pos := PoolAt(s.pools, cookie);
    forall n | n in s.lists.disconnect ensures WasPooled(s.lists.disconnect, n) {}
    forall p | p in s'.pools ensures Known(s.pools, p) {
      if p !in s.pools { assert s.pools[pos] in s.pools; }
    }
    assert forall k :: L(s', k) == L(s, k);
    forall k, n | n in L(s, k) ensures Kept(L(s, k), n) {}
  }

  lemma {:induction false} GrantAllCalm(s: State, items: seq<(nat, Iface)>, ids: seq<nat>)
    requires Tagged(s) && |items| <= |ids|
    ensures Calm(s, GrantAll(s, items, ids))
    decreases |items|
  {
    hide Grant, Calm, Tagged;
    if items == [] {
      SameCalm(s, s);
    } else {
      var s1 := if ids[0] == INVALID then s else Grant(s, items[0].0, ids[0], true);
      if ids[0] == INVALID { SameCalm(s, s); } else { GrantCalm(s, items[0].0, ids[0], true); }
      CalmTagged(s, s1);
      GrantAllCalm(s1, items[1..], ids[1..]);
      CalmTrans(s, s1, GrantAll(s, items, ids));
    }
  }

  // ---------------------------------------------------------------- the handlers

  lemma AnnounceCalm(cfg: Config, s: State, c: nat, e: Server)
    requires Tagged(s) && c in s.conns
    ensures Calm(s, Announce(cfg, s, c, e))
  {
    hide Sweep, ListPulses, Calm, Tagged, Inserted, SetInsert;
    var s1 := Enter(s, c, e);
    SameCalm(s, s1);
    ThenSweep(cfg, s, s1, Available, ByOffer(e.iface, e.grpid));
    var s2 := Sweep(cfg, s1, Available, ByOffer(e.iface, e.grpid), 0);
    ThenSame(s, s2, TriggerAll(cfg, s2, Some(e.iface)));
  }

  lemma AddInterfaceCalm(cfg: Config, s: State, c: nat, iface: Iface, grpid: int)
    requires Tagged(s) && c in s.conns
    ensures Calm(s, AddInterface(cfg, s, c, iface, grpid))
  {
    hide Announce, Calm, Tagged, Scan;
    var s0 := s.(next := s.next.(server := s.next.server + 1));
    SameCalm(s, s);
    SameCalm(s, s0);
    CalmTagged(s, s0);
    var e := Server(PartyId(cfg.ext, s.next.server), NO_PARTY, iface, grpid, cfg.isLocalService(iface.name));
    AnnounceCalm(cfg, s0, c, e);
    CalmTrans(s, s0, Announce(cfg, s0, c, e));
  }

  lemma {:induction false} AddAllCalm(cfg: Config, s: State, c: nat, ifaces: seq<Iface>)
    requires Tagged(s) && c in s.conns
    ensures Calm(s, AddAll(cfg, s, c, ifaces))
    decreases |ifaces|
  {
    hide AddInterface, Calm, Tagged;
    if ifaces == [] {
      SameCalm(s, s);
    } else {
      var s1 := AddInterface(cfg, s, c, ifaces[0], ANYBODY);
      AddInterfaceCalm(cfg, s, c, ifaces[0], ANYBODY);
      CalmTagged(s, s1);
      if c in s1.conns {
        AddAllCalm(cfg, s1, c, ifaces[1..]);
        CalmTrans(s, s1, AddAll(cfg, s1, c, ifaces[1..]));
      }
    }
  }

  lemma {:induction false} AddRemotesCalm(cfg: Config, s: State, c: nat, ds: seq<Remote>)
    requires Tagged(s) && c in s.conns
    ensures Calm(s, AddRemotes(cfg, s, c, ds))
    decreases |ds|
  {
    hide AddRemote, Calm, Tagged;
    SameCalm(s, s);
    if ds != [] {
      var s1 := AddRemote(cfg, s, c, ds[0]);
      AddRemoteCalm(cfg, s, c, ds[0]);
      CalmTagged(s, s1);
      if c in s1.conns {
        AddRemotesCalm(cfg, s1, c, ds[1..]);
        CalmTrans(s, s1, AddRemotes(cfg, s1, c, ds[1..]));
      }
    }
  }

  lemma AddRemoteCalm(cfg: Config, s: State, c: nat, d: Remote)
    requires Tagged(s) && c in s.conns
    ensures Calm(s, AddRemote(cfg, s, c, d))
  {
    hide Announce, Calm, Tagged, Scan, Checked;
    SameCalm(s, s);
    AnnounceCalm(cfg, s, c, Server(RemoteId(c, d.id), NO_PARTY, d.iface, ANYBODY, false));
  }

  lemma ThenRegister(cfg: Config, s: State, t: State)
    requires Calm(s, t)
    ensures Calm(s, RegisterMaster(cfg, t))
  {
    hide Calm, RegisterJobs, MarkPending;
    ThenSame(s, t, RegisterMaster(cfg, t));
  }

  lemma UnregisterCalm(cfg: Config, s: State, c: nat, id: PartyId)
    requires Tagged(s) && c in s.conns
    ensures Calm(s, Unregister(cfg, s, c, id))
  {
    hide Sweep, ListPulses, Calm, Tagged, SetRemove, ScanId, Removed, RemoveServerClients;
    SameCalm(s, s);
    var s1 := s.(conns := s.conns[c := s.conns[c].(servers := SetRemove(s.conns[c].servers, id))]);
    SameCalm(s, s1);
    var e := ScanId(s1.servers, id);
    if e.Some? {
      ThenSweep(cfg, s, s1, Disconnect, ByParty(id));
      var s2 := Sweep(cfg, s1, Disconnect, ByParty(id), 0);
      ThenSame(s, s2, TriggerAll(cfg, Retire(s2, e.value), None));
    }
  }

  lemma DetachCalm(cfg: Config, s: State, c: nat, id: PartyId)
    requires Tagged(s) && c in s.conns
    ensures Calm(s, DetachClient(cfg, s, c, id))
  {
    hide Sweep, Calm, Tagged, SetRemove, ClientAt, RemoveClient;
    SameCalm(s, s);
    var s1 := Sweep(cfg, s, Detach, ByParty(id), 0);
    ThenSweep(cfg, s, s, Detach, ByParty(id));
    var s' := DetachClient(cfg, s, c, id);
    if id in s.conns[c].clients && ClientAt(s.clients, id) >= 0 {
      ThenSame(s, s1, s');
    } else {
      ThenSame(s, s, s');
    }
  }

  lemma NotifyAvailableCalm(cfg: Config, s: State, c: nat, iface: Iface, reached: bool)
    requires Tagged(s) && c in s.conns
    ensures Calm(s, NotifyAvailable(cfg, s, c, iface, reached))
  {
    hide Sweep, Calm, Tagged, ForwardAvailable, AddNotif, ScanVersion, MayAttach;
    SameCalm(s, s);
    SameCalm(s, Skip(s));
    var n := BLANK.(host := Some(c), iface := iface, local := cfg.isLocalService(iface.name), uid := s.conns[c].uid);
    AddCalm(s, Available, c, n);
    ThenSweep(cfg, s, AddNotif(s, Available, c, n), Available, ByOffer(iface, ANYBODY));
    ThenForward(cfg, s, AddNotif(s, Available, c, n));
  }

  lemma {:induction false} NotifyAvailableExCalm(cfg: Config, s: State, c: nat, ifaces: seq<Iface>, reached: bool)
    requires Tagged(s) && c in s.conns
    ensures Calm(s, NotifyAvailableEx(cfg, s, c, ifaces, reached))
    decreases |ifaces|
  {
    hide NotifyAvailable, Calm, Tagged;
    SameCalm(s, s);
    if ifaces != [] {
      var s1 := NotifyAvailable(cfg, s, c, ifaces[0], reached);
      NotifyAvailableCalm(cfg, s, c, ifaces[0], reached);
      CalmTagged(s, s1);
      if c in s1.conns {
        NotifyAvailableExCalm(cfg, s1, c, ifaces[1..], reached);
        CalmTrans(s, s1, NotifyAvailableEx(cfg, s1, c, ifaces[1..], reached));
      }
    }
  }

  lemma NotifyDetachCalm(cfg: Config, s: State, c: nat, id: PartyId, reached: bool)
    requires Tagged(s) && c in s.conns
    ensures Calm(s, NotifyDetach(cfg, s, c, id, reached))
  {
    hide Sweep, Calm, Tagged, AddNotif, ClientAt;
    SameCalm(s, Skip(s));
    var n := BLANK.(host := Some(c), party := id);
    AddCalm(s, Detach, c, n);
    var s1 := AddNotif(s, Detach, c, n);
    ThenSame(s, s1, Push(s1, WatchClientJob(s1.next.notif, id)));
    ThenSweep(cfg, s, s1, Detach, ByParty(id));
  }

  lemma NotifyListCalm(cfg: Config, s: State, c: nat, regex: Option<string>, usable: bool)
    requires Tagged(s) && c in s.conns
    ensures Calm(s, NotifyList(cfg, s, c, regex, usable))
  {
    hide Calm, Tagged, AddNotif, AnyMatch;
    SameCalm(s, Skip(s));
    AddCalm(s, ListChange, c, BLANK.(regex := regex));
    if usable {
      ThenSame(s, AddNotif(s, ListChange, c, BLANK.(regex := regex)), NotifyList(cfg, s, c, regex, usable));
    }
  }

  lemma ThenRemoveOne(s: State, t: State, k: Kind, id: nat)
    requires Calm(s, t)
    ensures Calm(s, RemoveOne(t, k, id))
  {
    hide Calm, EraseAt, NotifAt;
    var i := NotifAt(L(t, k), id, false);
    if i >= 0 {
      ThenSame(s, t, Withdraw(t, id));
      CalmTagged(s, Withdraw(t, id));
      EraseCalm(Withdraw(t, id), k, i);
      CalmTrans(s, Withdraw(t, id), EraseAt(Withdraw(t, id), k, i));
    }
  }

  lemma FireOneCalm(s: State, k: Kind, id: nat, removeIt: bool)
    requires Tagged(s)
    ensures Calm(s, FireOne(s, k, id, removeIt))
  {
    hide Calm, EraseAt, NotifAt, Tagged;
    var i := NotifAt(L(s, k), id, true);
    SameCalm(s, s);
    SameCalm(s, Send(s, id));
    CalmTagged(s, Send(s, id));
    if i >= 0 && removeIt {
      EraseCalm(Send(s, id), k, i);
      CalmTrans(s, Send(s, id), EraseAt(Send(s, id), k, i));
    }
  }

  lemma ClearCalm(s: State, c: nat, id: nat)
    requires Tagged(s) && c in s.conns
    ensures Calm(s, Clear(s, c, id))
  {
    hide Calm, RemoveOne, Tagged, StdRemove;
    SameCalm(s, s);
    var s0 := Forget(s, c, id);
    SameCalm(s, s0);
    hide Forget;
    ThenRemoveOne(s, s0, Detach, id);
    ThenRemoveOne(s, RemoveOne(s0, Detach, id), Disconnect, id);
    ThenRemoveOne(s, RemoveOne(RemoveOne(s0, Detach, id), Disconnect, id), Available, id);
    ThenRemoveOne(s, RemoveOne(RemoveOne(RemoveOne(s0, Detach, id), Disconnect, id), Available, id), ListChange, id);
  }

  lemma {:induction false} CloseServersFrame(s: State, ids: seq<PartyId>)
    ensures var r := CloseServers(s, ids);
            r == s.(servers := r.servers, clients := r.clients, link := s.link.(outstanding := r.link.outstanding))
    decreases |ids|
  {
    hide ScanId, Removed, RemoveServerClients;
    if ids != [] {
      var e := ScanId(s.servers, ids[0]);
      CloseServersFrame(if e.Some? then Retire(s, e.value) else s, ids[1..]);
    }
  }

  lemma {:induction false} CloseClientsFrame(s: State, ids: seq<PartyId>)
    ensures var r := CloseClients(s, ids);
            r == s.(clients := r.clients, link := s.link.(outstanding := r.link.outstanding))
    decreases |ids|
  {
    hide RemoveClient;
    if ids != [] {
      var s1 := s.(clients := RemoveClient(s.clients, ids[0]));
      CloseClientsFrame(if s.link.connected then Push(s1, DetachJob(ids[0])) else s1, ids[1..]);
    }
  }

  lemma CloseCalm(cfg: Config, s: State, c: nat)
    requires Tagged(s) && c in s.conns
    ensures Calm(s, Close(cfg, s, c))
  {
    hide Sweep, Calm, Tagged, CloseServers, CloseClients, ListPulses;
    var me := s.conns[c];
    var s0 := CloseServers(s, me.servers);
    var s1 := CloseClients(s0, me.clients);
    CloseServersFrame(s, me.servers);
    CloseClientsFrame(s0, me.clients);
    SameCalm(s, s1);
    ThenSweep(cfg, s, s1, Disconnect, ByParties(me.servers));
    var s2 := Sweep(cfg, s1, Disconnect, ByParties(me.servers), 0);
    ThenSweep(cfg, s, s2, Detach, ByParties(me.clients));
    var s3 := Sweep(cfg, s2, Detach, ByParties(me.clients), 0);
    WithdrawCalm(cfg, s, s3, c);
    ThenSame(s, WithdrawAll(cfg, s3, c), Close(cfg, s, c));
  }

  lemma WithdrawCalm(cfg: Config, s: State, t: State, c: nat)
    requires Calm(s, t)
    ensures Calm(s, WithdrawAll(cfg, t, c))
  {
    hide Sweep, Calm;
    var t1 := Sweep(cfg, t, Disconnect, Withdrawal(c), 0);
    var t2 := Sweep(cfg, t1, Detach, Withdrawal(c), 0);
    var t3 := Sweep(cfg, t2, Available, Withdrawal(c), 0);
    ThenSweep(cfg, s, t, Disconnect, Withdrawal(c));
    ThenSweep(cfg, s, t1, Detach, Withdrawal(c));
    ThenSweep(cfg, s, t2, Available, Withdrawal(c));
    ThenSweep(cfg, s, t3, ListChange, Withdrawal(c));
  }

  lemma ClientDetachedCalm(cfg: Config, s: State, id: nat)
    requires Tagged(s)
    ensures Calm(s, ClientDetached(cfg, s, id))
  {
    hide Sweep, Calm, Tagged, NotifAt, FireOne;
    SameCalm(s, s);
    FireOneCalm(s, Detach, id, true);
    var i := NotifAt(s.lists.detach, id, false);
    if i >= 0 { ThenSweep(cfg, s, s, Detach, ByParty(s.lists.detach[i].party)); }
  }

  lemma {:induction false} RegisteredAllCalm(s: State, ids: seq<PartyId>)
    requires Tagged(s)
    ensures Calm(s, RegisteredAll(s, ids))
    decreases |ids|
  {
    hide Calm, Tagged, PendingAt;
    SameCalm(s, s);
    if ids != [] {
      var s1 := NoteServerId(s, ids[0]);
      SameCalm(s, s1);
      CalmTagged(s, s1);
      hide NoteServerId;
      RegisteredAllCalm(s1, ids[1..]);
      CalmTrans(s, s1, RegisteredAll(s1, ids[1..]));
    }
  }

  /** An answer that lends an ID: the ID of a notification held at the master. */
  ghost predicate Lends(s: State, e: Event) {
    && e.EReport? && e.outcome.Done? && s.link.outstanding != []
    && (s.link.outstanding[0].WatchClientJob? || s.link.outstanding[0].WatchListJob?)
  }

  lemma ReportCalm(s: State, o: Outcome)
    requires Tagged(s) && s.link.outstanding != [] && Fits(s.link.outstanding[0], o) && !Lends(s, EReport(o))
    ensures Calm(s, Report(s, o))
  {
    hide Calm, Tagged, Grant, GrantAll, SetMasterId, RegisteredAll, SetInsert;
    var s1 := s.(link := s.link.(outstanding := s.link.outstanding[1..]));
    SameCalm(s, s1);
    CalmTagged(s, s1);
    if o.Done? {
      match s.link.outstanding[0]
      case WatchServerJob(cookie, _) =>
        GrantCalm(s1, cookie, o.ids[0], o.genuine);
        CalmTrans(s, s1, Report(s, o));
      case AvailableJob(items) =>
        GrantAllCalm(s1, items, o.ids);
        CalmTrans(s, s1, Report(s, o));
      case RegisterJob(_) =>
        RegisteredAllCalm(s1, o.parties);
        CalmTrans(s, s1, Report(s, o));
      case AttachJob(_, _) => ThenSame(s, s1, Report(s, o));
      case UnregisterJob(_) => assert Report(s, o) == s1;
      case DetachJob(_) => assert Report(s, o) == s1;
      case ClearJob(_) => assert Report(s, o) == s1;
    }
  }

  /** The handlers that neither join a pool, nor store a lent ID, nor change the link. */
  ghost predicate Quiet(s: State, e: Event) {
    !e.ENotifyDisconnect? && !Lends(s, e) && !e.EMasterConnected? && !e.EMasterDisconnected? && !e.ELink?
  }

  lemma AttachCalm(cfg: Config, s: State, c: nat, iface: Iface)
    requires Tagged(s) && c in s.conns
    ensures Calm(s, Attach(cfg, s, c, iface))
  {
    hide Calm, Tagged, ScanVersion, SetInsert, Checked;
    SameCalm(s, Attach(cfg, s, c, iface));
  }

  lemma StepCalm(cfg: Config, s: State, e: Event)
    requires Tagged(s) && Enabled(cfg, s, e) && Quiet(s, e)
    ensures Calm(s, Step(cfg, s, e))
  {
    hide Calm, Tagged, Checked, RegisterMaster, AddInterface, AddAll, AddRemotes, Unregister, Attach, DetachClient;
    hide NotifyAvailableEx, NotifyDetach, NotifyList, Clear, Close, Sweep, ClientDetached, FireOne, Report;
    match e
    case ERegister(c, iface, grpid) =>
      SameCalm(s, s);
      AddInterfaceCalm(cfg, s, c, iface, grpid);
      ThenRegister(cfg, s, AddInterface(cfg, s, c, iface, grpid));
    case ERegisterEx(c, ifaces) =>
      AddAllCalm(cfg, s, c, ifaces);
      ThenRegister(cfg, s, AddAll(cfg, s, c, ifaces));
    case ERegisterSlave(c, ds) =>
      AddRemotesCalm(cfg, s, c, ds);
      ThenRegister(cfg, s, AddRemotes(cfg, s, c, ds));
    case EUnregister(c, id) => UnregisterCalm(cfg, s, c, id);
    case EAttach(c, iface) => AttachCalm(cfg, s, c, iface);
    case EDetach(c, id) => DetachCalm(cfg, s, c, id);
    case ENotifyAvailable(c, ifaces, reached) => NotifyAvailableExCalm(cfg, s, c, ifaces, reached);
    case ENotifyDetach(c, id, reached) => NotifyDetachCalm(cfg, s, c, id, reached);
    case ENotifyList(c, regex, reached) => NotifyListCalm(cfg, s, c, regex, reached);
    case EClear(c, notif) => ClearCalm(s, c, notif);
    case EClose(c) => CloseCalm(cfg, s, c);
    case EServerAvailable(poolId) => SweepCalm(cfg, s, Available, ByPool(poolId), 0);
    case EServerDisconnect(poolId) => SweepCalm(cfg, s, Disconnect, ByPool(poolId), 0);
    case EClientDetached(notif) => ClientDetachedCalm(cfg, s, notif);
    case EListChanged(notif) => FireOneCalm(s, ListChange, notif, false);
    case EReport(o) => ReportCalm(s, o);
    case EOpen(c, node, uid) => SameCalm(s, Step(cfg, s, e));
    case EMarkSlave(c) => SameCalm(s, Step(cfg, s, e));
  }
}
