/** Clients that wait for a foreign interface, and the pool that waits for them at the master. */
module BrokerStrand {
  import opened BrokerTypes
  import opened ServerTable
  import opened BrokerSpec
  import opened BrokerInv
  import opened BrokerSweep
  import opened BrokerMoves
  import opened BrokerPools
  import opened BrokerHandlers
  import opened BrokerRequests
  import opened BrokerRest
  import opened BrokerClose
  import opened BrokerMaster
  import opened BrokerCalm
  import opened BrokerTheorems
  import opened BrokerExact
  import opened BrokerWatch

  /** A live pool waits at the master for the interface the notification wants. */
  ghost predicate Awaited(pools: seq<Pool>, n: Notification) {
    exists p :: p in pools && p.id == n.poolId && p.target == Connecting(n.iface)
  }

  /** Every active waiting notification that was given to a pool still has that pool. */
  ghost predicate NoneStranded(s: State) {
    forall n :: n in s.lists.available && n.active && n.poolId != 0 ==> Awaited(s.pools, n)
  }

  ghost predicate IdGone(s: State, id: nat) {
    forall m :: m in s.lists.available ==> m.id != id
  }

  ghost predicate NoPool(pools: seq<Pool>, id: nat) {
    forall p :: p in pools ==> p.id != id
  }

  /** The waiting notification that an entry of a later list was. */
  ghost predicate Was(l: seq<Notification>, m: Notification) {
    exists n :: n in l && n.id == m.id && n.poolId == m.poolId && n.iface == m.iface && (m.active ==> n.active)
  }

  ghost predicate StillThere(l: seq<Notification>, n: Notification) {
    exists m :: m in l && m.id == n.id && m.poolId == n.poolId
  }

  /** One of the notifications in a pool left the list. */
  ghost predicate OneLeft(s: State, s': State, poolId: nat) {
    exists n :: n in s.lists.available && n.poolId == poolId && IdGone(s', n.id)
  }

  /** Waiting notifications only leave; a pool that waits for an interface goes exactly when
      one of its notifications does. */
  ghost predicate Clears(s: State, s': State) {
    && (forall m :: m in s'.lists.available ==> Was(s.lists.available, m))
    && (forall n :: n in s.lists.available ==> IdGone(s', n.id) || StillThere(s'.lists.available, n))
    && (forall p :: p in s'.pools ==> Known(s.pools, p))
    && (forall p :: p in s.pools && p.target.Connecting? ==> Known(s'.pools, p) || OneLeft(s, s', p.id))
    && (forall n :: n in s.lists.available && n.poolId != 0 && IdGone(s', n.id) ==> NoPool(s'.pools, n.poolId))
  }

  lemma GoneTrans(s: State, t: State, u: State, id: nat)
    requires Clears(t, u) && IdGone(t, id)
    ensures IdGone(u, id)
  {
    forall m | m in u.lists.available ensures m.id != id {
      assert Was(t.lists.available, m);
    }
  }

  lemma KnownTrans(a: seq<Pool>, b: seq<Pool>, p: Pool)
    requires Known(a, p) && forall q :: q in a && q.target == p.target ==> Known(b, q)
    ensures Known(b, p)
  {
  }

  lemma NoPoolTrans(t: State, u: State, id: nat)
    requires Clears(t, u) && NoPool(t.pools, id)
    ensures NoPool(u.pools, id)
  {
    forall p | p in u.pools ensures p.id != id { assert Known(t.pools, p); }
  }

  lemma LeftTrans(s: State, t: State, u: State, p: Pool)
    requires Clears(s, t) && Clears(t, u) && p in s.pools && p.target.Connecting?
    ensures Known(u.pools, p) || OneLeft(s, u, p.id)
  {
    if Known(t.pools, p) {
      var q :| q in t.pools && q.id == p.id && q.target == p.target;
      if !Known(u.pools, q) {
        var n :| n in t.lists.available && n.poolId == q.id && IdGone(u, n.id);
        assert Was(s.lists.available, n);
        var n0 :| n0 in s.lists.available && n0.id == n.id && n0.poolId == n.poolId;
        assert IdGone(u, n0.id);
      }
    } else {
      var n :| n in s.lists.available && n.poolId == p.id && IdGone(t, n.id);
      GoneTrans(s, t, u, n.id);
    }
  }

  lemma ClearsTrans(s: State, t: State, u: State)
    requires Clears(s, t) && Clears(t, u)
    ensures Clears(s, u)
  {
    hide OneLeft, NoPool;
    forall m | m in u.lists.available ensures Was(s.lists.available, m) {
      assert Was(t.lists.available, m);
      var n :| n in t.lists.available && n.id == m.id && n.poolId == m.poolId && n.iface == m.iface && (m.active ==> n.active);
      assert Was(s.lists.available, n);
    }
    forall n | n in s.lists.available && !IdGone(u, n.id) ensures StillThere(u.lists.available, n) { StillTrans(s, t, u, n); }
    forall p | p in u.pools ensures Known(s.pools, p) {
      assert Known(t.pools, p);
      KnownTrans(t.pools, s.pools, p);
    }
    forall p | p in s.pools && p.target.Connecting? ensures Known(u.pools, p) || OneLeft(s, u, p.id) { LeftTrans(s, t, u, p); }
    forall n | n in s.lists.available && n.poolId != 0 && IdGone(u, n.id) ensures NoPool(u.pools, n.poolId) {
      if IdGone(t, n.id) {
        NoPoolTrans(t, u, n.poolId);
      } else {
        assert StillThere(t.lists.available, n);
        var m :| m in t.lists.available && m.id == n.id && m.poolId == n.poolId;
        assert NoPool(u.pools, m.poolId);
      }
    }
  }

  lemma StillTrans(s: State, t: State, u: State, n: Notification)
    requires Clears(s, t) && Clears(t, u) && n in s.lists.available && !IdGone(u, n.id)
    ensures StillThere(u.lists.available, n)
  {
    hide OneLeft, NoPool, Known;
    if IdGone(t, n.id) { GoneTrans(s, t, u, n.id); }
    assert StillThere(t.lists.available, n);
    var m :| m in t.lists.available && m.id == n.id && m.poolId == n.poolId;
    assert StillThere(u.lists.available, m);
  }

  lemma KnownAll(pools: seq<Pool>)
    ensures forall p :: p in pools ==> Known(pools, p)
  {
    forall p | p in pools ensures Known(pools, p) {}
  }

  /** The list is the same, and so are the pools that wait for an interface. */
  lemma SameClears(s: State, s': State)
    requires s'.lists.available == s.lists.available
    requires forall p :: p in s'.pools ==> Known(s.pools, p)
    requires forall p :: p in s.pools && p.target.Connecting? ==> Known(s'.pools, p)
    ensures Clears(s, s')
  {
    forall n | n in s.lists.available
      ensures !IdGone(s', n.id) && StillThere(s'.lists.available, n) && Was(s.lists.available, n) {}
    hide Known, IdGone, StillThere, Was;
  }

  // ---------------------------------------------------------------- one erasure

  /** An erasure outside the list of waiting clients leaves their pools alone. */
  lemma EraseOther(s: State, k: Kind, i: nat, s': State)
    requires Core(s) && Erasing(s, k, i, s') && k != Available
    ensures Clears(s, s')
  {
    var n := L(s, k)[i];
    assert Listed(s, k, n) by { assert n in L(s, k); }
    EraseCuts(s, k, i, s');
    EraseReleases(s, k, i, s');
    assert L(s', Available) == L(s, Available);
    hide Erasing, Cutting, ListsOk, BookOk, HostsOk, PulsesOk, CookiesOk, NoLeak, Detached;
    forall p | p in s'.pools ensures Known(s.pools, p) { if n.poolId != 0 { DetachedKnown(s.pools, n.poolId, p); } }
    forall p | p in s.pools && p.target.Connecting? ensures Known(s'.pools, p) {
      assert PoolOk(s, p);
      if n.poolId != 0 { DetachedMembers(s.pools, n.poolId, p); }
      assert p in s'.pools;
    }
    SameClears(s, s');
  }

  lemma DetachedKnown(pools: seq<Pool>, poolId: nat, p: Pool)
    requires PoolOrder(pools) && p in Detached(pools, poolId)
    ensures Known(pools, p)
  {
    DetachedMembers(pools, poolId, p);
    hide Detached, PoolOrder;
    if p.id == poolId { assert p.(refCount := p.refCount + 1) in pools; }
  }

  /** What one erasure does to the waiting clients and to the pool of the one erased. */
  ghost predicate TakesPool(s: State, n: Notification, s': State) {
    && (forall m :: m in s'.lists.available <==> m in s.lists.available && m.id != n.id)
    && (forall p :: p in s'.pools ==> Known(s.pools, p) && p.id != n.poolId)
    && (forall p :: p in s.pools && p.id != n.poolId ==> Known(s'.pools, p))
  }

  /** A waiting client takes its pool along, even if others are in it. */
  lemma EraseTakes(s: State, i: nat, s': State)
    requires Core(s) && Erasing(s, Available, i, s')
    ensures TakesPool(s, s.lists.available[i], s')
  {
    EraseMembers(s, i, s');
    assert PoolsOk(s) && PoolOrder(s.pools) by { hide ListsOk, BookOk, HostsOk, PulsesOk, CookiesOk, NoLeak; }
    hide Core, PoolsOk, PoolOrder, Releasing, Known;
    EraseReleases(s, Available, i, s');
    assert L(s, Available)[i] == s.lists.available[i];
    hide Erasing;
    ReleasedPools(s, s.lists.available[i], s');
  }

  lemma EraseMembers(s: State, i: nat, s': State)
    requires Core(s) && Erasing(s, Available, i, s')
    ensures forall m :: m in s'.lists.available <==> m in s.lists.available && m.id != s.lists.available[i].id
  {
    assert NewestFirst(L(s, Available)) by { hide BookOk, HostsOk, PulsesOk, PoolsOk, CookiesOk, NoLeak; }
    hide Core;
    EraseCuts(s, Available, i, s');
    hide Erasing, ConnsForget;
    CutOrder(L(s, Available), i);
    assert L(s', Available) == Cut(L(s, Available), i);
    hide Cut, NewestFirst;
  }

  lemma ReleasedPools(s: State, n: Notification, s': State)
    requires PoolsOk(s) && n in s.lists.available && Releasing(s, n, s')
    ensures forall p :: p in s'.pools ==> Known(s.pools, p) && p.id != n.poolId
    ensures forall p :: p in s.pools && p.id != n.poolId ==> Known(s'.pools, p)
  {
    hide AllCookies, Detached;
    assert forall p :: p in s.pools ==> PoolOk(s, p);
    assert forall p :: p in s.pools && p.id == n.poolId ==> p.refCount == 0;
    hide PoolOk;
    forall p | p in s'.pools ensures Known(s.pools, p) && p.id != n.poolId {
      if n.poolId == 0 {
        PoolIdsPositive(s, p);
      } else {
        DetachedKnown(s.pools, n.poolId, p);
        DetachedMembers(s.pools, n.poolId, p);
      }
    }
    forall p | p in s.pools && p.id != n.poolId ensures Known(s'.pools, p) {
      if n.poolId != 0 { DetachedMembers(s.pools, n.poolId, p); }
      assert p in s'.pools;
    }
  }

  lemma PoolIdsPositive(s: State, p: Pool)
    requires PoolsOk(s) && p in s.pools
    ensures p.id > 0 && Known(s.pools, p)
  {
    assert PoolOk(s, p);
  }

  lemma EraseWaiting(s: State, i: nat, s': State)
    requires Core(s) && Erasing(s, Available, i, s')
    ensures Clears(s, s') && TakesPool(s, s.lists.available[i], s')
  {
    EraseTakes(s, i, s');
    var n := s.lists.available[i];
    hide Erasing;
    forall m | m in s.lists.available && m.id == n.id ensures m == n { SameIdSame(s, n, m); }
    hide Core;
    ErasedWas(s, s', n);
    TakesClears(s, n, s');
  }

  lemma TakesClears(s: State, n: Notification, s': State)
    requires TakesPool(s, n, s') && n in s.lists.available && forall m :: m in s.lists.available && m.id == n.id ==> m == n
    requires forall m :: m in s'.lists.available ==> Was(s.lists.available, m)
    requires forall m :: m in s.lists.available ==> if m.id == n.id then IdGone(s', m.id) else StillThere(s'.lists.available, m) && !IdGone(s', m.id)
    ensures Clears(s, s')
  {
    hide Was, StillThere, Known, IdGone;
    assert IdGone(s', n.id);
    assert forall p :: p in s.pools && p.id == n.poolId ==> OneLeft(s, s', p.id);
  }

  /** No two waiting notifications have the same ID. */
  lemma SameIdSame(s: State, n: Notification, m: Notification)
    requires Core(s) && n in s.lists.available && m in s.lists.available && m.id == n.id
    ensures m == n
  {
    assert NewestFirst(L(s, Available));
  }

  lemma ErasedWas(s: State, s': State, n: Notification)
    requires forall m :: m in s'.lists.available <==> m in s.lists.available && m.id != n.id
    ensures forall m :: m in s'.lists.available ==> Was(s.lists.available, m)
    ensures forall m :: m in s.lists.available ==> if m.id == n.id then IdGone(s', m.id) else StillThere(s'.lists.available, m) && !IdGone(s', m.id)
  {
    forall m | m in s'.lists.available ensures Was(s.lists.available, m) {}
    forall m | m in s.lists.available && m.id != n.id ensures StillThere(s'.lists.available, m) && !IdGone(s', m.id) {
      assert m in s'.lists.available;
    }
  }

  // ---------------------------------------------------------------- sweeps

  lemma SilenceClears(s: State, i: nat, s': State)
    requires Silencing(s, i, s')
    ensures Clears(s, s')
  {
    var l, l' := s.lists.available, s'.lists.available;
    var quiet := l[i].(active := false);
    forall m | m in l' ensures Was(l, m) {
      var j :| 0 <= j < |l'| && l'[j] == m;
      assert l[j] in l;
    }
    forall n | n in l ensures StillThere(l', n) && !IdGone(s', n.id) {
      var j :| 0 <= j < |l| && l[j] == n;
      assert l'[j] in l' && l'[j].id == n.id;
    }
    KnownAll(s.pools);
    hide Known, IdGone, StillThere, Was;
  }

  lemma TurnClears(cfg: Config, s: State, k: Kind, r: Rule, i: nat)
    requires Core(s) && i < |L(s, k)| && (r.ByOffer? ==> k == Available)
    ensures Clears(s, Turn(cfg, s, k, r, i))
  {
    var s' := Turn(cfg, s, k, r, i);
    hide Core, Clears, EraseAt;
    match Act(cfg, s, r, L(s, k)[i])
    case Keep =>
      KnownAll(s.pools);
      SameClears(s, s);
    case Silence => SilenceClears(s, i, s');
    case _ =>
      assert Erasing(s, k, i, s');
      if k == Available { EraseWaiting(s, i, s'); } else { EraseOther(s, k, i, s'); }
  }

  lemma {:induction false} SweepClears(cfg: Config, s: State, k: Kind, r: Rule, i: nat)
    requires Core(s) && i <= |L(s, k)| && (r.ByOffer? ==> k == Available)
    ensures Clears(s, Sweep(cfg, s, k, r, i))
    decreases |L(s, k)| - i
  {
    hide Core, Clears, Shrinks, Turn, Act;
    if i == |L(s, k)| {
      KnownAll(s.pools);
      SameClears(s, s);
    } else {
      var s1 := Turn(cfg, s, k, r, i);
      TurnClears(cfg, s, k, r, i);
      TurnKeeps(cfg, s, k, r, i);
      SweepClears(cfg, s1, k, r, if Erases(Act(cfg, s, r, L(s, k)[i])) then i else i + 1);
      ClearsTrans(s, s1, Sweep(cfg, s, k, r, i));
    }
  }

  /** Exactly when a step that only removes strands somebody. */
  ghost predicate LeavesBehind(s: State, s': State) {
    exists n, m :: n in s.lists.available && m in s'.lists.available
      && n.poolId != 0 && m.poolId == n.poolId && m.active && IdGone(s', n.id)
  }

  lemma ClearsIff(s: State, s': State)
    requires NoneStranded(s) && Clears(s, s')
    ensures NoneStranded(s') <==> !LeavesBehind(s, s')
  {
    if LeavesBehind(s, s') {
      var n, m :| n in s.lists.available && m in s'.lists.available
        && n.poolId != 0 && m.poolId == n.poolId && m.active && IdGone(s', n.id);
      assert NoPool(s'.pools, n.poolId);
      assert !Awaited(s'.pools, m);
    } else {
      forall m | m in s'.lists.available && m.active && m.poolId != 0 ensures Awaited(s'.pools, m) { StaysAwaited(s, s', m); }
    }
  }

  lemma StaysAwaited(s: State, s': State, m: Notification)
    requires NoneStranded(s) && Clears(s, s') && !LeavesBehind(s, s')
    requires m in s'.lists.available && m.active && m.poolId != 0
    ensures Awaited(s'.pools, m)
  {
    assert Was(s.lists.available, m);
    var n :| n in s.lists.available && n.id == m.id && n.poolId == m.poolId && n.iface == m.iface && n.active;
    assert Awaited(s.pools, n);
    var p :| p in s.pools && p.id == n.poolId && p.target == Connecting(n.iface);
    if OneLeft(s, s', p.id) { OneIsBehind(s, s', m); }
    hide OneLeft, LeavesBehind;
    assert Known(s'.pools, p);
  }

  lemma OneIsBehind(s: State, s': State, m: Notification)
    requires OneLeft(s, s', m.poolId) && m in s'.lists.available && m.active && m.poolId != 0
    ensures LeavesBehind(s, s')
  {
    hide IdGone;
  }

  /** A trigger pass for an offer or a pool pulses every active notification of a pool or none. */
  lemma TriggerStrandsNone(cfg: Config, s: State, r: Rule)
    requires Core(s) && NoneStranded(s) && (r.ByOffer? || r.ByPool?)
    ensures NoneStranded(Sweep(cfg, s, Available, r, 0))
  {
    hide Core, Clears, NoneStranded, LeavesBehind, Sweep;
    var s' := Sweep(cfg, s, Available, r, 0);
    SweepClears(cfg, s, Available, r, 0);
    ClearsIff(s, s');
    SweepKeeps(cfg, s, Available, r, 0);
    if LeavesBehind(s, s') { LeftTogether(cfg, s, s', r); }
  }

  lemma LeftTogether(cfg: Config, s: State, s': State, r: Rule)
    requires Core(s) && NoneStranded(s) && (r.ByOffer? || r.ByPool?) && Clears(s, s')
    requires Settled(cfg, s', Available, r, 0) && Spared(cfg, s, s', Available, r)
    ensures !LeavesBehind(s, s')
  {
    if LeavesBehind(s, s') {
      var n, m :| n in s.lists.available && m in s'.lists.available
        && n.poolId != 0 && m.poolId == n.poolId && m.active && IdGone(s', n.id);
      LeftWas(s, s', m);
      var x :| x in s.lists.available && x.poolId == m.poolId && x.iface == m.iface && x.active;
      assert PoolOrder(s.pools) by { hide ListsOk, BookOk, HostsOk, PulsesOk, CookiesOk, NoLeak; }
      hide Core, Clears;
      LeftFires(cfg, s, s', r, n);
      SamePool(s, n, x);
      LeftKept(cfg, s', r, m);
      assert false;
    }
  }

  lemma LeftWas(s: State, s': State, m: Notification)
    requires Clears(s, s') && m in s'.lists.available && m.active
    ensures exists x :: x in s.lists.available && x.poolId == m.poolId && x.iface == m.iface && x.active
  {
    assert Was(s.lists.available, m);
  }

  lemma LeftFires(cfg: Config, s: State, s': State, r: Rule, n: Notification)
    requires Spared(cfg, s, s', Available, r) && (r.ByOffer? || r.ByPool?) && n in s.lists.available && IdGone(s', n.id)
    ensures n.active && (r.ByOffer? ==> Accepts(n.iface, r.offer)) && (r.ByPool? ==> n.poolId == r.poolId)
  {
    hide MayPulse;
    assert n in L(s, Available) && n !in L(s', Available);
  }

  lemma LeftKept(cfg: Config, s': State, r: Rule, m: Notification)
    requires Settled(cfg, s', Available, r, 0) && (r.ByOffer? || r.ByPool?) && m in s'.lists.available && m.active
    ensures (r.ByOffer? ==> !Accepts(m.iface, r.offer)) && (r.ByPool? ==> m.poolId != r.poolId)
  {
    hide MayPulse;
    var j :| 0 <= j < |L(s', Available)| && L(s', Available)[j] == m;
    assert Act(cfg, s', r, m) == Keep;
  }

  /** Two active notifications in one pool want the same interface. */
  lemma SamePool(s: State, n: Notification, m: Notification)
    requires NoneStranded(s) && PoolOrder(s.pools) && n in s.lists.available && m in s.lists.available
    requires n.active && m.active && n.poolId != 0 && m.poolId == n.poolId
    ensures m.iface == n.iface
  {
    assert Awaited(s.pools, n) && Awaited(s.pools, m);
    var p :| p in s.pools && p.id == n.poolId && p.target == Connecting(n.iface);
    var q :| q in s.pools && q.id == m.poolId && q.target == Connecting(m.iface);
    var i :| 0 <= i < |s.pools| && s.pools[i] == p;
    var j :| 0 <= j < |s.pools| && s.pools[j] == q;
  }

  // ---------------------------------------------------------------- handlers that strand nobody

  lemma SameStrandsNone(s: State, s': State)
    requires NoneStranded(s) && s'.lists.available == s.lists.available
    requires forall p :: p in s.pools && p.target.Connecting? ==> Known(s'.pools, p)
    ensures NoneStranded(s')
  {
    forall n | n in s'.lists.available && n.active && n.poolId != 0 ensures Awaited(s'.pools, n) {
      assert Awaited(s.pools, n);
      var p :| p in s.pools && p.id == n.poolId && p.target == Connecting(n.iface);
      assert Known(s'.pools, p);
    }
  }

  lemma UntouchedStrandsNone(s: State, s': State)
    requires NoneStranded(s) && s'.lists.available == s.lists.available && s'.pools == s.pools
    ensures NoneStranded(s')
  {
    KnownAll(s.pools);
    SameStrandsNone(s, s');
  }

  lemma OtherSweepStrandsNone(cfg: Config, s: State, k: Kind, r: Rule)
    requires Core(s) && NoneStranded(s) && k != Available && !r.ByOffer?
    ensures NoneStranded(Sweep(cfg, s, k, r, 0)) && Core(Sweep(cfg, s, k, r, 0))
  {
    hide Core, Sweep, NoneStranded, Clears, Spared, Settled, KeepsBacked, ConnsShrink;
    var s' := Sweep(cfg, s, k, r, 0);
    SweepClears(cfg, s, k, r, 0);
    SweepKeeps(cfg, s, k, r, 0);
    assert L(s', Available) == L(s, Available);
    ClearsIff(s, s');
  }

  lemma AnnounceStrandsNone(cfg: Config, s: State, c: nat, e: Server)
    requires Core(s) && NoneStranded(s) && c in s.conns
    ensures NoneStranded(Announce(cfg, s, c, e))
  {
    var s1 := Enter(s, c, e);
    EnterCore(s, c, e);
    hide Core, Sweep, Inserted, SetInsert, NoneStranded, ListPulses;
    UntouchedStrandsNone(s, s1);
    TriggerStrandsNone(cfg, s1, ByOffer(e.iface, e.grpid));
    UntouchedStrandsNone(Sweep(cfg, s1, Available, ByOffer(e.iface, e.grpid), 0), Announce(cfg, s, c, e));
  }

  lemma AddInterfaceStrandsNone(cfg: Config, s: State, c: nat, iface: Iface, grpid: int)
    requires Inv(cfg, s) && NoneStranded(s) && c in s.conns
    ensures NoneStranded(AddInterface(cfg, s, c, iface, grpid))
  {
    hide Inv, Announce, Scan, NoneStranded;
    if Scan(s.servers, iface.name).None? {
      var s0 := s.(next := s.next.(server := s.next.server + 1));
      NumberTaken(cfg, s, s0);
      assert Core(s0) by { InvCore(cfg, s0); }
      UntouchedStrandsNone(s, s0);
      AnnounceStrandsNone(cfg, s0, c, Server(PartyId(cfg.ext, s.next.server), NO_PARTY, iface, grpid, cfg.isLocalService(iface.name)));
    }
  }

  lemma InvCore(cfg: Config, s: State)
    requires Inv(cfg, s)
    ensures Core(s)
  {
  }

  lemma {:induction false} AddAllStrandsNone(cfg: Config, s: State, c: nat, ifaces: seq<Iface>)
    requires Inv(cfg, s) && NoneStranded(s) && c in s.conns
    ensures NoneStranded(AddAll(cfg, s, c, ifaces))
    decreases |ifaces|
  {
    hide Inv, NoneStranded, AddInterface;
    if ifaces != [] {
      AddInterfaceInv(cfg, s, c, ifaces[0], ANYBODY);
      AddInterfaceStrandsNone(cfg, s, c, ifaces[0], ANYBODY);
      AddAllStrandsNone(cfg, AddInterface(cfg, s, c, ifaces[0], ANYBODY), c, ifaces[1..]);
    }
  }

  lemma AddRemoteStrandsNone(cfg: Config, s: State, c: nat, d: Remote)
    requires Inv(cfg, s) && NoneStranded(s) && c in s.conns
    ensures NoneStranded(AddRemote(cfg, s, c, d))
  {
    InvCore(cfg, s);
    hide Inv, Core, Announce, Scan, Checked, NoneStranded;
    AnnounceStrandsNone(cfg, s, c, Server(RemoteId(c, d.id), NO_PARTY, d.iface, ANYBODY, false));
  }

  lemma {:induction false} AddRemotesStrandsNone(cfg: Config, s: State, c: nat, ds: seq<Remote>)
    requires Inv(cfg, s) && NoneStranded(s) && c in s.conns
    ensures NoneStranded(AddRemotes(cfg, s, c, ds))
    decreases |ds|
  {
    hide Inv, NoneStranded, AddRemote;
    if ds != [] {
      AddRemoteInv(cfg, s, c, ds[0]);
      AddRemoteStrandsNone(cfg, s, c, ds[0]);
      AddRemotesStrandsNone(cfg, AddRemote(cfg, s, c, ds[0]), c, ds[1..]);
    }
  }

  lemma RegisterStrandsNone(cfg: Config, s: State)
    requires NoneStranded(s)
    ensures NoneStranded(RegisterMaster(cfg, s))
  {
    hide NoneStranded, RegisterJobs, Chunks, MarkPending, Unforwarded;
    UntouchedStrandsNone(s, RegisterMaster(cfg, s));
  }

  lemma UnregisterStrandsNone(cfg: Config, s: State, c: nat, id: PartyId)
    requires Inv(cfg, s) && NoneStranded(s) && c in s.conns
    ensures NoneStranded(Unregister(cfg, s, c, id))
  {
    if id in s.conns[c].servers {
      var s1 := s.(conns := s.conns[c := s.conns[c].(servers := SetRemove(s.conns[c].servers, id))]);
      DisownKeeps(cfg, s, c, id, s1);
      hide Inv, Core, NoneStranded, SetRemove, ScanId, Sweep, Removed, RemoveServerClients, ListPulses;
      UntouchedStrandsNone(s, s1);
      OtherSweepStrandsNone(cfg, s1, Disconnect, ByParty(id));
      var e := ScanId(s1.servers, id);
      if e.Some? {
        UntouchedStrandsNone(Sweep(cfg, s1, Disconnect, ByParty(id), 0), Unregister(cfg, s, c, id));
      }
    }
  }

  lemma DetachStrandsNone(cfg: Config, s: State, c: nat, id: PartyId)
    requires Inv(cfg, s) && NoneStranded(s) && c in s.conns
    ensures NoneStranded(DetachClient(cfg, s, c, id))
  {
    InvCore(cfg, s);
    hide Inv, Core, NoneStranded, Sweep, ClientAt, RemoveClient, SetRemove;
    OtherSweepStrandsNone(cfg, s, Detach, ByParty(id));
    if id in s.conns[c].clients && ClientAt(s.clients, id) >= 0 {
      UntouchedStrandsNone(Sweep(cfg, s, Detach, ByParty(id), 0), DetachClient(cfg, s, c, id));
    } else {
      UntouchedStrandsNone(s, DetachClient(cfg, s, c, id));
    }
  }

  lemma AddStrandsNone(s: State, k: Kind, c: nat, n: Notification)
    requires Core(s) && NoneStranded(s) && c in s.conns && n.poolId == 0 && Fresh(n, c)
    ensures Core(AddNotif(s, k, c, n)) && NoneStranded(AddNotif(s, k, c, n))
  {
    AddKeepsCore(s, k, c, n);
    AddRest(s, k, c, n);
    hide Core, AddNotif, Awaited, Fresh;
    var s' := AddNotif(s, k, c, n);
    assert L(s', Available) == s'.lists.available && L(s, Available) == s.lists.available;
    assert forall m :: m in s'.lists.available ==> m in s.lists.available || m.poolId == 0;
  }

  lemma JoinStrandsNone(s: State, id: PartyId)
    requires NoneStranded(s) && s.lists.disconnect != []
    ensures NoneStranded(JoinPool(s, id))
  {
    hide TargetAt, NoneStranded;
    var s' := JoinPool(s, id);
    forall p | p in s.pools && p.target.Connecting? ensures Known(s'.pools, p) {
      var i :| 0 <= i < |s.pools| && s.pools[i] == p;
      assert s'.pools[i] in s'.pools && s'.pools[i].id == p.id && s'.pools[i].target == p.target;
    }
    SameStrandsNone(s, s');
  }

  lemma NotifyDisconnectStrandsNone(cfg: Config, s: State, c: nat, id: PartyId, reached: bool)
    requires Inv(cfg, s) && NoneStranded(s) && c in s.conns
    ensures NoneStranded(NotifyDisconnect(cfg, s, c, id, reached))
  {
    InvCore(cfg, s);
    var n := BLANK.(host := Some(c), party := id);
    hide Inv, Core, NoneStranded, Sweep, ScanId, JoinPool;
    UntouchedStrandsNone(s, Skip(s));
    AddStrandsNone(s, Disconnect, c, n);
    var s1 := AddNotif(s, Disconnect, c, n);
    assert L(s1, Disconnect) != [];
    hide AddNotif;
    JoinStrandsNone(s1, id);
    OtherSweepStrandsNone(cfg, s1, Disconnect, ByParty(id));
  }

  lemma NotifyDetachStrandsNone(cfg: Config, s: State, c: nat, id: PartyId, reached: bool)
    requires Inv(cfg, s) && NoneStranded(s) && c in s.conns
    ensures NoneStranded(NotifyDetach(cfg, s, c, id, reached))
  {
    InvCore(cfg, s);
    var n := BLANK.(host := Some(c), party := id);
    hide Inv, Core, NoneStranded, Sweep, ClientAt;
    UntouchedStrandsNone(s, Skip(s));
    AddStrandsNone(s, Detach, c, n);
    var s1 := AddNotif(s, Detach, c, n);
    hide AddNotif;
    UntouchedStrandsNone(s1, Push(s1, WatchClientJob(s1.next.notif, id)));
    OtherSweepStrandsNone(cfg, s1, Detach, ByParty(id));
  }

  lemma NotifyListStrandsNone(cfg: Config, s: State, c: nat, regex: Option<string>, usable: bool)
    requires Inv(cfg, s) && NoneStranded(s) && c in s.conns
    ensures NoneStranded(NotifyList(cfg, s, c, regex, usable))
  {
    hide Inv, NoneStranded, AnyMatch;
    UntouchedStrandsNone(s, NotifyList(cfg, s, c, regex, usable));
  }

  /** A notification without a pool gets one that waits for its interface. */
  lemma PoolOneStrandsNone(cfg: Config, s: State, i: nat)
    requires NoneStranded(s) && i < |s.lists.available|
    ensures NoneStranded(PoolOne(cfg, s, i).0)
  {
    hide NeedsPool, TargetAt;
    var s', n := PoolOne(cfg, s, i).0, s.lists.available[i];
    assert forall p :: p in s.pools ==> p in s'.pools;
    forall m | m in s'.lists.available && m.active && m.poolId != 0 ensures Awaited(s'.pools, m) {
      if m in s.lists.available {
        assert Awaited(s.pools, m);
      } else {
        var pos := TargetAt(s.pools, Connecting(n.iface));
        assert m.iface == n.iface;
        assert if pos >= 0 then s.pools[pos] in s'.pools else s'.pools[|s.pools|] in s'.pools;
      }
    }
  }

  lemma {:induction false} PoolAllStrandsNone(cfg: Config, s: State, i: nat)
    requires NoneStranded(s) && i <= |s.lists.available|
    ensures NoneStranded(PoolAll(cfg, s, i).0)
    decreases |s.lists.available| - i
  {
    hide NoneStranded, PoolOne;
    if i < |s.lists.available| {
      PoolOneStrandsNone(cfg, s, i);
      PoolAllStrandsNone(cfg, PoolOne(cfg, s, i).0, i + 1);
    }
  }

  lemma ForwardStrandsNone(cfg: Config, s: State)
    requires NoneStranded(s)
    ensures NoneStranded(ForwardAvailable(cfg, s))
  {
    PoolAllStrandsNone(cfg, s, 0);
    hide NoneStranded, PoolAll, AvailableJobs, Chunks;
    if s.link.connected { UntouchedStrandsNone(PoolAll(cfg, s, 0).0, ForwardAvailable(cfg, s)); }
  }

  lemma NotifyAvailableStrandsNone(cfg: Config, s: State, c: nat, iface: Iface, reached: bool)
    requires Inv(cfg, s) && NoneStranded(s) && c in s.conns
    ensures NoneStranded(NotifyAvailable(cfg, s, c, iface, reached))
  {
    InvCore(cfg, s);
    var n := BLANK.(host := Some(c), iface := iface, local := cfg.isLocalService(iface.name), uid := s.conns[c].uid);
    hide Inv, Core, NoneStranded, Sweep, ScanVersion, ForwardAvailable, MayAttach;
    UntouchedStrandsNone(s, Skip(s));
    AddStrandsNone(s, Available, c, n);
    var s1 := AddNotif(s, Available, c, n);
    hide AddNotif;
    TriggerStrandsNone(cfg, s1, ByOffer(iface, ANYBODY));
    ForwardStrandsNone(cfg, s1);
  }

  lemma {:induction false} NotifyAvailableExStrandsNone(cfg: Config, s: State, c: nat, ifaces: seq<Iface>, reached: bool)
    requires Inv(cfg, s) && NoneStranded(s) && c in s.conns
    ensures NoneStranded(NotifyAvailableEx(cfg, s, c, ifaces, reached))
    decreases |ifaces|
  {
    hide Inv, NoneStranded, NotifyAvailable;
    if ifaces != [] {
      NotifyAvailableInv(cfg, s, c, ifaces[0], reached);
      NotifyAvailableStrandsNone(cfg, s, c, ifaces[0], reached);
      var s1 := NotifyAvailable(cfg, s, c, ifaces[0], reached);
      if c in s1.conns { NotifyAvailableExStrandsNone(cfg, s1, c, ifaces[1..], reached); }
    }
  }

  lemma ConnectedStrandsNone(cfg: Config, s: State)
    requires NoneStranded(s)
    ensures NoneStranded(MasterConnected(cfg, s))
  {
    hide NoneStranded, RegisterMaster, ForwardAvailable;
    var s1 := s.(link := s.link.(session := true, steady := s.link.connected, granted := {}, cleared := {}, lent := {}));
    UntouchedStrandsNone(s, s1);
    RegisterStrandsNone(cfg, s1);
    ForwardStrandsNone(cfg, RegisterMaster(cfg, s1));
  }

  /** With the master every pool is lost, and nobody is in one any more. */
  lemma DisconnectedStrandsNone(cfg: Config, s: State)
    ensures NoneStranded(MasterDisconnected(cfg, s))
  {
    hide Sweep, ClearMasterIds;
  }

  lemma FireDetachStrandsNone(s: State, id: nat)
    requires Core(s) && NoneStranded(s)
    ensures NoneStranded(FireOne(s, Detach, id, true))
  {
    hide Core, NoneStranded, NotifAt, EraseAt, Clears;
    var i := NotifAt(L(s, Detach), id, true);
    if i >= 0 {
      var s' := FireOne(s, Detach, id, true);
      assert Erasing(s, Detach, i, s');
      assert L(s', Available) == L(s, Available);
      EraseOther(s, Detach, i, s');
      ClearsIff(s, s');
    }
  }

  lemma ClientDetachedStrandsNone(cfg: Config, s: State, id: nat)
    requires Core(s) && NoneStranded(s)
    ensures NoneStranded(ClientDetached(cfg, s, id))
  {
    hide Core, NoneStranded, NotifAt, Sweep, FireOne;
    FireDetachStrandsNone(s, id);
    var i := NotifAt(s.lists.detach, id, false);
    if i >= 0 { OtherSweepStrandsNone(cfg, s, Detach, ByParty(s.lists.detach[i].party)); }
  }

  lemma GrantStrandsNone(s: State, cookie: nat, id: nat, genuine: bool)
    requires NoneStranded(s)
    ensures NoneStranded(Grant(s, cookie, id, genuine))
  {
    hide NoneStranded, PoolAt;
    var s' := Grant(s, cookie, id, genuine);
    forall p | p in s.pools ensures Known(s'.pools, p) {
      var i :| 0 <= i < |s.pools| && s.pools[i] == p;
      assert s'.pools[i] in s'.pools && s'.pools[i].id == p.id && s'.pools[i].target == p.target;
    }
    SameStrandsNone(s, s');
  }

  lemma {:induction false} GrantAllStrandsNone(s: State, items: seq<(nat, Iface)>, ids: seq<nat>)
    requires NoneStranded(s) && |items| <= |ids|
    ensures NoneStranded(GrantAll(s, items, ids))
    decreases |items|
  {
    hide NoneStranded, Grant;
    if items != [] {
      GrantStrandsNone(s, items[0].0, ids[0], true);
      GrantAllStrandsNone(if ids[0] == INVALID then s else Grant(s, items[0].0, ids[0], true), items[1..], ids[1..]);
    }
  }

  lemma {:induction false} RegisteredAllSame(s: State, ids: seq<PartyId>)
    ensures RegisteredAll(s, ids).lists == s.lists && RegisteredAll(s, ids).pools == s.pools
    decreases |ids|
  {
    hide PendingAt;
    if ids != [] { RegisteredAllSame(NoteServerId(s, ids[0]), ids[1..]); }
  }

  lemma SetMasterIdSame(s: State, k: Kind, notif: nat, id: nat, genuine: bool)
    requires k == Detach || k == ListChange
    ensures var s' := SetMasterId(s, k, notif, id, genuine); s'.lists.available == s.lists.available && s'.pools == s.pools
  {
    hide NotifAt;
  }

  lemma ReportStrandsNone(s: State, o: Outcome)
    requires NoneStranded(s) && s.link.outstanding != [] && Fits(s.link.outstanding[0], o)
    ensures NoneStranded(Report(s, o))
  {
    var s1 := s.(link := s.link.(outstanding := s.link.outstanding[1..]));
    var j := s.link.outstanding[0];
    hide NoneStranded, Grant, GrantAll, RegisteredAll, SetMasterId, SetInsert;
    UntouchedStrandsNone(s, s1);
    if o.Done? && j.WatchServerJob? {
      GrantStrandsNone(s1, j.cookie, o.ids[0], o.genuine);
    } else if o.Done? && j.AvailableJob? {
      GrantAllStrandsNone(s1, j.items, o.ids);
    } else {
      if o.Done? && j.RegisterJob? { RegisteredAllSame(s1, o.parties); }
      if o.Done? && j.WatchClientJob? { SetMasterIdSame(s1, Detach, j.notif, o.ids[0], o.genuine); }
      if o.Done? && j.WatchListJob? { SetMasterIdSame(s1, ListChange, j.notif, o.ids[0], o.genuine); }
      UntouchedStrandsNone(s1, Report(s, o));
    }
  }

  lemma PlainStrandsNone(cfg: Config, s: State, e: Event)
    requires NoneStranded(s) && Enabled(cfg, s, e) && (e.EOpen? || e.EMarkSlave? || e.EAttach? || e.EListChanged? || e.ELink?)
    ensures NoneStranded(Step(cfg, s, e))
  {
    hide NoneStranded, NotifAt, EraseAt, ScanVersion, SetInsert, Checked, MayAttach;
    UntouchedStrandsNone(s, Step(cfg, s, e));
  }

  lemma OthersStrandNone(cfg: Config, s: State, e: Event)
    requires Inv(cfg, s) && Enabled(cfg, s, e) && NoneStranded(s) && !e.EClear? && !e.EClose?
    ensures NoneStranded(Step(cfg, s, e))
  {
    InvCore(cfg, s);
    hide Inv, Core, NoneStranded, Checked, RegisterMaster, AddInterface, AddAll, AddRemotes, Unregister, DetachClient;
    hide NotifyDisconnect, NotifyAvailableEx, NotifyDetach, NotifyList, MasterConnected, MasterDisconnected;
    hide Sweep, ClientDetached, Report;
    match e
    case ERegister(c, iface, grpid) =>
      AddInterfaceStrandsNone(cfg, s, c, iface, grpid);
      RegisterStrandsNone(cfg, AddInterface(cfg, s, c, iface, grpid));
    case ERegisterEx(c, ifaces) =>
      AddAllStrandsNone(cfg, s, c, ifaces);
      RegisterStrandsNone(cfg, AddAll(cfg, s, c, ifaces));
    case ERegisterSlave(c, ds) =>
      AddRemotesStrandsNone(cfg, s, c, ds);
      RegisterStrandsNone(cfg, AddRemotes(cfg, s, c, ds));
    case EUnregister(c, id) => UnregisterStrandsNone(cfg, s, c, id);
    case EDetach(c, id) => DetachStrandsNone(cfg, s, c, id);
    case ENotifyDisconnect(c, id, reached) => NotifyDisconnectStrandsNone(cfg, s, c, id, reached);
    case ENotifyAvailable(c, ifaces, reached) => NotifyAvailableExStrandsNone(cfg, s, c, ifaces, reached);
    case ENotifyDetach(c, id, reached) => NotifyDetachStrandsNone(cfg, s, c, id, reached);
    case ENotifyList(c, regex, reached) => NotifyListStrandsNone(cfg, s, c, regex, reached);
    case EMasterConnected => ConnectedStrandsNone(cfg, s);
    case EMasterDisconnected => DisconnectedStrandsNone(cfg, s);
    case EServerAvailable(poolId) => TriggerStrandsNone(cfg, s, ByPool(poolId));
    case EServerDisconnect(poolId) => OtherSweepStrandsNone(cfg, s, Disconnect, ByPool(poolId));
    case EClientDetached(notif) => ClientDetachedStrandsNone(cfg, s, notif);
    case EReport(o) => ReportStrandsNone(s, o);
    case EOpen(c, node, uid) => PlainStrandsNone(cfg, s, e);
    case EMarkSlave(c) => PlainStrandsNone(cfg, s, e);
    case EAttach(c, iface) => PlainStrandsNone(cfg, s, e);
    case EListChanged(notif) => PlainStrandsNone(cfg, s, e);
    case ELink(up) => PlainStrandsNone(cfg, s, e);
  }

  // ---------------------------------------------------------------- the two that may

  /** The notifications that a clear request or a close withdraws, told before the call. */
  predicate Withdrawn(s: State, e: Event, id: nat)
    requires (e.EClear? || e.EClose?) && e.c in s.conns
  {
    id in s.conns[e.c].notifs && (e.EClear? ==> id == e.notif)
  }

  /** The event withdraws a waiting notification and leaves another one in the same pool. */
  ghost predicate Strands(s: State, e: Event) {
    (e.EClear? || e.EClose?) && e.c in s.conns &&
    exists n, m :: n in s.lists.available && m in s.lists.available
      && n.poolId != 0 && m.poolId == n.poolId && m.active && Withdrawn(s, e, n.id) && !Withdrawn(s, e, m.id)
  }

  /** The event withdraws exactly these of the waiting notifications. */
  ghost predicate WithdrawsThese(s: State, e: Event, s': State)
    requires (e.EClear? || e.EClose?) && e.c in s.conns
  {
    forall m :: m in s.lists.available ==> if Withdrawn(s, e, m.id) then IdGone(s', m.id) else m in s'.lists.available
  }

  lemma StrandsIff(s: State, e: Event, s': State)
    requires (e.EClear? || e.EClose?) && e.c in s.conns && Clears(s, s') && WithdrawsThese(s, e, s')
    ensures LeavesBehind(s, s') <==> Strands(s, e)
  {
    hide LeavesBehind, Strands, Clears, WithdrawsThese;
    if LeavesBehind(s, s') { BehindStrands(s, e, s'); }
    if Strands(s, e) { StrandsBehind(s, e, s'); }
  }

  lemma BehindStrands(s: State, e: Event, s': State)
    requires (e.EClear? || e.EClose?) && e.c in s.conns && Clears(s, s') && WithdrawsThese(s, e, s') && LeavesBehind(s, s')
    ensures Strands(s, e)
  {
    hide Clears, WithdrawsThese, IdGone, Withdrawn;
    var n, m :| n in s.lists.available && m in s'.lists.available
      && n.poolId != 0 && m.poolId == n.poolId && m.active && IdGone(s', n.id);
    WasKept(s, e, s', m);
    GoneWithdrawn(s, e, s', n);
  }

  lemma StrandsBehind(s: State, e: Event, s': State)
    requires (e.EClear? || e.EClose?) && e.c in s.conns && WithdrawsThese(s, e, s') && Strands(s, e)
    ensures LeavesBehind(s, s')
  {
    hide IdGone, Withdrawn;
    var n, m :| n in s.lists.available && m in s.lists.available
      && n.poolId != 0 && m.poolId == n.poolId && m.active && Withdrawn(s, e, n.id) && !Withdrawn(s, e, m.id);
    assert m in s'.lists.available && IdGone(s', n.id);
  }

  lemma WasKept(s: State, e: Event, s': State, m: Notification)
    requires (e.EClear? || e.EClose?) && e.c in s.conns && Clears(s, s') && WithdrawsThese(s, e, s')
    requires m in s'.lists.available && m.active
    ensures exists x :: x in s.lists.available && x.poolId == m.poolId && x.active && !Withdrawn(s, e, x.id)
  {
    assert Was(s.lists.available, m);
    var x :| x in s.lists.available && x.id == m.id && x.poolId == m.poolId && x.active;
    hide Clears, Withdrawn;
    assert !IdGone(s', x.id);
  }

  lemma GoneWithdrawn(s: State, e: Event, s': State, n: Notification)
    requires (e.EClear? || e.EClose?) && e.c in s.conns && WithdrawsThese(s, e, s')
    requires n in s.lists.available && IdGone(s', n.id)
    ensures Withdrawn(s, e, n.id)
  {
    hide Withdrawn;
  }

  lemma ThenUntouched(s: State, t: State, u: State)
    requires Clears(s, t) && u.lists.available == t.lists.available && u.pools == t.pools
    ensures Clears(s, u)
  {
    KnownAll(t.pools);
    hide Known;
    SameClears(t, u);
    hide Clears;
    ClearsTrans(s, t, u);
  }

  lemma RemoveOneClears(cfg: Config, s: State, k: Kind, id: nat)
    requires Core(s)
    ensures Clears(s, RemoveOne(s, k, id))
    ensures k != Available ==> RemoveOne(s, k, id).lists.available == s.lists.available
    ensures k == Available ==> forall m :: m in RemoveOne(s, k, id).lists.available <==> m in s.lists.available && m.id != id
  {
    var i := NotifAt(L(s, k), id, false);
    var s' := RemoveOne(s, k, id);
    NotifAtNone(L(s, k), id);
    hide Core, NotifAt, EraseAt, Clears;
    if i >= 0 {
      assert Erasing(s, k, i, s');
      assert k != Available ==> L(s', Available) == L(s, Available);
      if k == Available {
        EraseMembers(s, i, s');
        EraseWaiting(s, i, s');
      } else {
        EraseOther(s, k, i, s');
      }
    } else {
      KnownAll(s.pools);
      SameClears(s, s);
    }
  }

  lemma RemoveEachClears(cfg: Config, s: State, c: nat, id: nat)
    requires Inv(cfg, s) && id in s.past.book && s.past.book[id].conn == c
    ensures Clears(s, RemoveEach(s, id))
    ensures forall m :: m in RemoveEach(s, id).lists.available <==> m in s.lists.available && m.id != id
  {
    hide Inv, RemoveOne, NoneWith, Clears, Core;
    var s1 := RemoveOne(s, Detach, id);
    var s2 := RemoveOne(s1, Disconnect, id);
    var s3 := RemoveOne(s2, Available, id);
    RemoveStep(cfg, s, Detach, c, id);
    RemoveStep(cfg, s1, Disconnect, c, id);
    RemoveStep(cfg, s2, Available, c, id);
    InvCore(cfg, s);
    InvCore(cfg, s1);
    InvCore(cfg, s2);
    InvCore(cfg, s3);
    RemoveOneClears(cfg, s, Detach, id);
    RemoveOneClears(cfg, s1, Disconnect, id);
    RemoveOneClears(cfg, s2, Available, id);
    RemoveOneClears(cfg, s3, ListChange, id);
    ClearsTrans(s, s1, s2);
    ClearsTrans(s, s2, s3);
    ClearsTrans(s, s3, RemoveOne(s3, ListChange, id));
  }

  lemma ClearStrandsIff(cfg: Config, s: State, c: nat, id: nat)
    requires Inv(cfg, s) && c in s.conns && NoneStranded(s)
    ensures NoneStranded(Clear(s, c, id)) <==> !Strands(s, EClear(c, id))
  {
    if id in s.conns[c].notifs {
      TicketOf(cfg, s, c, id);
      RemoveEachInv(cfg, s, c, id);
      RemoveEachClears(cfg, s, c, id);
      hide Inv, NoneStranded, Clears, RemoveOne, NoneWith;
      var t := RemoveEach(s, id);
      assert Clear(s, c, id) == Forget(t, c, id);
      ForgetFrame(t, c, id);
      hide Clear, RemoveEach, Forget;
      ThenUntouched(s, t, Clear(s, c, id));
      assert WithdrawsThese(s, EClear(c, id), Clear(s, c, id));
      StrandsIff(s, EClear(c, id), Clear(s, c, id));
      ClearsIff(s, Clear(s, c, id));
    }
  }

  lemma ForgetFrame(s: State, c: nat, id: nat)
    ensures Forget(s, c, id).lists == s.lists && Forget(s, c, id).pools == s.pools
  {
    hide StdRemove;
  }

  /** One more sweep. */
  lemma ThenClears(cfg: Config, s: State, t: State, k: Kind, r: Rule)
    requires Core(t) && Clears(s, t) && !r.ByOffer?
    ensures Core(Sweep(cfg, t, k, r, 0)) && Clears(s, Sweep(cfg, t, k, r, 0))
  {
    hide Core, Clears, Sweep, Shrinks, Settled, Spared;
    SweepKeeps(cfg, t, k, r, 0);
    SweepClears(cfg, t, k, r, 0);
    ClearsTrans(s, t, Sweep(cfg, t, k, r, 0));
  }

  lemma CloseClears(cfg: Config, s: State, c: nat)
    requires Inv(cfg, s) && c in s.conns
    ensures Clears(s, Close(cfg, s, c))
  {
    var me := s.conns[c];
    CloseBefore(cfg, s, c, Available);
    CloseStart(cfg, s, me.servers, me.clients);
    hide Inv, Core, Clears, CloseClients, CloseServers, Sweep, ListPulses;
    var s1 := CloseClients(CloseServers(s, me.servers), me.clients);
    var s2 := Sweep(cfg, s1, Disconnect, ByParties(me.servers), 0);
    var s3 := Sweep(cfg, s2, Detach, ByParties(me.clients), 0);
    var t1 := Sweep(cfg, s3, Disconnect, Withdrawal(c), 0);
    var t2 := Sweep(cfg, t1, Detach, Withdrawal(c), 0);
    var t3 := Sweep(cfg, t2, Available, Withdrawal(c), 0);
    var t4 := Sweep(cfg, t3, ListChange, Withdrawal(c), 0);
    ThenClears(cfg, s, s1, Disconnect, ByParties(me.servers));
    ThenClears(cfg, s, s2, Detach, ByParties(me.clients));
    ThenClears(cfg, s, s3, Disconnect, Withdrawal(c));
    ThenClears(cfg, s, t1, Detach, Withdrawal(c));
    ThenClears(cfg, s, t2, Available, Withdrawal(c));
    ThenClears(cfg, s, t3, ListChange, Withdrawal(c));
    ThenUntouched(s, t4, Close(cfg, s, c));
  }

  lemma CloseStart(cfg: Config, s: State, servers: seq<PartyId>, clients: seq<PartyId>)
    requires Inv(cfg, s)
    ensures Clears(s, CloseClients(CloseServers(s, servers), clients))
  {
    CloseDeparts(cfg, s, servers, clients);
    hide Inv, CloseClients, CloseServers, AllCookies, Leaving, Descending, DistinctClients, Clears;
    var s1 := CloseClients(CloseServers(s, servers), clients);
    assert s1.lists == s.lists && s1.pools == s.pools;
    KnownAll(s.pools);
    SameClears(s, s1);
  }

  /** Whose notification it is, is on its connection's list. */
  lemma OwnListedIff(cfg: Config, s: State, c: nat, n: Notification)
    requires Inv(cfg, s) && c in s.conns && n in s.lists.available
    ensures n.id in s.past.book && (s.past.book[n.id].conn == c <==> n.id in s.conns[c].notifs)
  {
    hide NoLostWakeup, WatchersSound, ServersOk, ClientsOk, BookOk, PulsesOk, PoolsOk, CookiesOk, NoLeak;
    assert n in L(s, Available);
    assert Listed(s, Available, n);
  }

  lemma CloseWithdraws(cfg: Config, s: State, c: nat)
    requires Inv(cfg, s) && c in s.conns
    ensures WithdrawsThese(s, EClose(c), Close(cfg, s, c))
  {
    CloseInv(cfg, s, c);
    CloseBook(cfg, s, c);
    hide Inv, Close;
    var s' := Close(cfg, s, c);
    assert NothingOf(s', Available, c);
    forall m | m in s.lists.available
      ensures if Withdrawn(s, EClose(c), m.id) then IdGone(s', m.id) else m in s'.lists.available
    {
      OwnListedIff(cfg, s, c, m);
      if s.past.book[m.id].conn != c {
        CloseSpares(cfg, s, c, Available, m);
        assert m in L(s', Available);
      } else {
        assert forall x :: x in L(s', Available) ==> x.id != m.id;
      }
    }
  }

  lemma CloseBook(cfg: Config, s: State, c: nat)
    requires Inv(cfg, s) && c in s.conns
    ensures Close(cfg, s, c).past.book == s.past.book
  {
    var me := s.conns[c];
    CloseBefore(cfg, s, c, Available);
    hide Inv, Core, CloseClients, CloseServers, Sweep, ListPulses, Shrinks, Settled, Spared;
    var s1 := CloseClients(CloseServers(s, me.servers), me.clients);
    var s2 := Sweep(cfg, s1, Disconnect, ByParties(me.servers), 0);
    var s3 := Sweep(cfg, s2, Detach, ByParties(me.clients), 0);
    var t1 := Sweep(cfg, s3, Disconnect, Withdrawal(c), 0);
    var t2 := Sweep(cfg, t1, Detach, Withdrawal(c), 0);
    var t3 := Sweep(cfg, t2, Available, Withdrawal(c), 0);
    SweepBook(cfg, s1, Disconnect, ByParties(me.servers));
    SweepBook(cfg, s2, Detach, ByParties(me.clients));
    SweepBook(cfg, s3, Disconnect, Withdrawal(c));
    SweepBook(cfg, t1, Detach, Withdrawal(c));
    SweepBook(cfg, t2, Available, Withdrawal(c));
    SweepBook(cfg, t3, ListChange, Withdrawal(c));
  }

  lemma SweepBook(cfg: Config, s: State, k: Kind, r: Rule)
    requires Core(s) && !r.ByOffer?
    ensures Core(Sweep(cfg, s, k, r, 0)) && Sweep(cfg, s, k, r, 0).past.book == s.past.book
  {
    hide Core, Sweep, Settled, Spared, KeepsBacked, ConnsShrink;
    SweepKeeps(cfg, s, k, r, 0);
  }

  lemma CloseStrandsIff(cfg: Config, s: State, c: nat)
    requires Inv(cfg, s) && c in s.conns && NoneStranded(s)
    ensures NoneStranded(Close(cfg, s, c)) <==> !Strands(s, EClose(c))
  {
    hide Inv, NoneStranded, Clears, Close, WithdrawsThese, Strands, LeavesBehind;
    CloseClears(cfg, s, c);
    CloseWithdraws(cfg, s, c);
    StrandsIff(s, EClose(c), Close(cfg, s, c));
    ClearsIff(s, Close(cfg, s, c));
  }

  /** An event, while nobody is stranded: it strands somebody exactly when it withdraws a waiting
      notification and leaves an active one in the same pool. */
  lemma StrandedIff(cfg: Config, s: State, e: Event)
    requires Inv(cfg, s) && Enabled(cfg, s, e) && NoneStranded(s)
    ensures NoneStranded(Step(cfg, s, e)) <==> !Strands(s, e)
  {
    if e.EClear? {
      hide Inv, NoneStranded, Clear, Strands;
      ClearStrandsIff(cfg, s, e.c, e.notif);
    } else if e.EClose? {
      hide Inv, NoneStranded, Close, Strands;
      CloseStrandsIff(cfg, s, e.c);
    } else {
      hide Inv, NoneStranded, Step, Enabled;
      OthersStrandNone(cfg, s, e);
    }
  }

  ghost predicate NeverStranded(cfg: Config, es: seq<Event>)
    requires IsRun(cfg, es)
    decreases |es|
  {
    NoneStranded(After(cfg, es)) && (es == [] || NeverStranded(cfg, es[..|es| - 1]))
  }

  ghost predicate NeverStrands(cfg: Config, es: seq<Event>)
    requires IsRun(cfg, es)
    decreases |es|
  {
    es == [] || (NeverStrands(cfg, es[..|es| - 1]) && !Strands(After(cfg, es[..|es| - 1]), es[|es| - 1]))
  }

  /** Over whole runs: every active waiting notification in a pool has that pool at every handler
      boundary exactly when no clear request and no close ever split a pool. */
  lemma {:induction false} StrandedAlwaysIff(cfg: Config, es: seq<Event>)
    requires IsRun(cfg, es)
    ensures NeverStranded(cfg, es) <==> NeverStrands(cfg, es)
  {
    if es == [] {
      assert NoneStranded(INITIAL);
    } else {
      hide Inv, Step, Enabled, NoneStranded, Strands;
      var n := |es| - 1;
      StrandedAlwaysIff(cfg, es[..n]);
      RunKeepsInv(cfg, es[..n]);
      if NoneStranded(After(cfg, es[..n])) { StrandedIff(cfg, After(cfg, es[..n]), es[n]); }
    }
  }

  // ---------------------------------------------------------------- what becomes of the stranded

  lemma {:induction false} PoolAllSkips(cfg: Config, s: State, i: nat, n: Notification)
    requires i <= |s.lists.available| && n in s.lists.available && n.poolId != 0
    ensures n in PoolAll(cfg, s, i).0.lists.available
    decreases |s.lists.available| - i
  {
    if i < |s.lists.available| {
      PoolOneSkips(cfg, s, i, n);
      hide PoolOne;
      PoolAllSkips(cfg, PoolOne(cfg, s, i).0, i + 1, n);
    }
  }

  lemma PoolOneSkips(cfg: Config, s: State, i: nat, n: Notification)
    requires i < |s.lists.available| && n in s.lists.available && n.poolId != 0
    ensures n in PoolOne(cfg, s, i).0.lists.available
  {
    hide TargetAt;
    var j :| 0 <= j < |s.lists.available| && s.lists.available[j] == n;
    assert PoolOne(cfg, s, i).0.lists.available[j] == n;
  }

  /** Forwarding passes over a notification that has a pool ID, whether that pool lives or not. */
  lemma StrandedSkipped(cfg: Config, s: State, n: Notification)
    requires n in s.lists.available && n.poolId != 0
    ensures n in ForwardAvailable(cfg, s).lists.available
  {
    PoolAllSkips(cfg, s, 0, n);
    hide PoolAll, AvailableJobs, Chunks;
  }

  lemma {:induction false} PooledIgnored(cfg: Config, s: State, i: nat)
    requires i <= |s.lists.available| && forall n :: n in s.lists.available ==> n.poolId != 0
    ensures PoolAll(cfg, s, i) == (s, [])
    decreases |s.lists.available| - i
  {
    if i < |s.lists.available| {
      assert s.lists.available[i] in s.lists.available;
      PooledIgnored(cfg, s, i + 1);
      assert PoolOne(cfg, s, i) == (s, []);
      var none: seq<(nat, Iface)> := [];
      assert none + none == none;
    }
  }

  const WISH := Iface("x", 1, 0)

  function Waiter(id: nat, poolId: nat): Notification {
    BLANK.(id := id, poolId := poolId, host := Some(1), iface := WISH, uid := 0)
  }

  /** One client of the ready broker waits, in the pool that was announced to the master. */
  ghost function OneWaits(): State {
    var r := Ready();
    r.(lists := Lists([Waiter(1, 100000)], [], [], []), pools := [Pool(100000, Connecting(WISH), INVALID, 0)],
       conns := map[1 := Conn([], [], [1], false, 0, 0)], next := r.next.(notif := 1, pool := 100001),
       link := r.link.(outstanding := [AvailableJob([(100000, WISH)])]),
       past := r.past.(book := map[1 := Ticket(1, Available)]))
  }

  /** Another one shares the pool; nothing more is announced. */
  ghost function TwoWait(): State {
    var r := OneWaits();
    r.(lists := Lists([Waiter(2, 100000), Waiter(1, 100000)], [], [], []), conns := map[1 := Conn([], [], [1, 2], false, 0, 0)],
       next := r.next.(notif := 2), past := r.past.(book := map[1 := Ticket(1, Available), 2 := Ticket(1, Available)]))
  }

  /** A wish that is neither local nor there is added and forwarded. */
  lemma WishForwarded(cfg: Config, s: State)
    requires 1 in s.conns && !s.conns[1].slave && s.conns[1].uid == 0 && s.servers == [] && s.link.connected
    requires !cfg.isLocalService("x")
    ensures Step(cfg, s, ENotifyAvailable(1, [WISH], true)) == ForwardAvailable(cfg, AddNotif(s, Available, 1, Waiter(0, 0)))
  {
    hide ForwardAvailable, AddNotif;
    var s1 := NotifyAvailable(cfg, s, 1, WISH, true);
    var ifaces := [WISH];
    assert ifaces[0] == WISH && ifaces[1..] == [];
    assert ScanVersion([], WISH).None?;
    assert s1 == ForwardAvailable(cfg, AddNotif(s, Available, 1, Waiter(0, 0)));
    if 1 in s1.conns { assert NotifyAvailableEx(cfg, s1, 1, ifaces[1..], true) == s1; }
  }

  lemma FirstAdded(cfg: Config)
    ensures AddNotif(Ready(), Available, 1, Waiter(0, 0))
         == OneWaits().(lists := Lists([Waiter(1, 0)], [], [], []), pools := [], next := Ready().next.(notif := 1), link := Ready().link)
  {
    var r := Ready();
    var none: seq<nat> := [];
    assert none + [1] == [1];
    assert r.conns[1 := r.conns[1].(notifs := none + [1])] == map[1 := Conn([], [], [1], false, 0, 0)];
    assert r.past.book[1 := Ticket(1, Available)] == map[1 := Ticket(1, Available)];
    assert [Waiter(1, 0)] + [] == [Waiter(1, 0)];
  }

  lemma FirstPooled(cfg: Config, s: State)
    requires s == OneWaits().(lists := Lists([Waiter(1, 0)], [], [], []), pools := [], next := Ready().next.(notif := 1), link := Ready().link)
    requires cfg.forwards("x")
    ensures PoolAll(cfg, s, 0) == (OneWaits().(link := Ready().link), [(100000, WISH)])
  {
    var s1 := OneWaits().(link := Ready().link);
    var l := [Waiter(1, 0)];
    assert l[0 := Waiter(1, 100000)] == [Waiter(1, 100000)];
    var none: seq<Pool> := [];
    assert none + [Pool(100000, Connecting(WISH), INVALID, 0)] == s1.pools;
    assert TargetAt(none, Connecting(WISH)) < 0;
    assert PoolOne(cfg, s, 0) == (s1, [(100000, WISH)]);
    PoolAllEnds(cfg, s1, 1);
    assert [(100000, WISH)] + [] == [(100000, WISH)];
  }

  lemma FirstWish(cfg: Config)
    requires !cfg.isLocalService("x") && cfg.forwards("x")
    ensures Step(cfg, Ready(), ENotifyAvailable(1, [WISH], true)) == OneWaits()
  {
    WishForwarded(cfg, Ready());
    var s := AddNotif(Ready(), Available, 1, Waiter(0, 0));
    FirstAdded(cfg);
    FirstPooled(cfg, s);
    OneBatch((100000, WISH));
    hide Chunks, AvailableJobs, Step, AddNotif, PoolAll;
    var none: seq<Job> := [];
    assert none + [AvailableJob([(100000, WISH)])] == [AvailableJob([(100000, WISH)])];
  }

  lemma OneBatch(x: (nat, Iface))
    ensures AvailableJobs(Chunks([x])) == [AvailableJob([x])]
  {
    assert Chunks([x]) == [[x]];
  }

  lemma PoolAllEnds(cfg: Config, s: State, i: nat)
    requires i == |s.lists.available|
    ensures PoolAll(cfg, s, i) == (s, [])
  {
  }

  lemma SecondAdded(cfg: Config)
    ensures AddNotif(OneWaits(), Available, 1, Waiter(0, 0)) == TwoWait().(lists := Lists([Waiter(2, 0), Waiter(1, 100000)], [], [], []))
  {
    var r := OneWaits();
    var one: seq<nat> := [1];
    assert one + [2] == [1, 2];
    assert r.conns[1 := r.conns[1].(notifs := one + [2])] == map[1 := Conn([], [], [1, 2], false, 0, 0)];
    assert r.past.book[2 := Ticket(1, Available)] == map[1 := Ticket(1, Available), 2 := Ticket(1, Available)];
    assert [Waiter(2, 0)] + [Waiter(1, 100000)] == [Waiter(2, 0), Waiter(1, 100000)];
  }

  lemma SecondPooled(cfg: Config, s: State)
    requires s == TwoWait().(lists := Lists([Waiter(2, 0), Waiter(1, 100000)], [], [], [])) && cfg.forwards("x")
    ensures PoolAll(cfg, s, 0) == (TwoWait(), [])
  {
    var l := [Waiter(2, 0), Waiter(1, 100000)];
    assert l[0 := Waiter(2, 100000)] == [Waiter(2, 100000), Waiter(1, 100000)];
    assert TargetAt(s.pools, Connecting(WISH)) == 0;
    assert PoolOne(cfg, s, 0) == (TwoWait(), []);
    PooledIgnored(cfg, TwoWait(), 1);
    var none: seq<(nat, Iface)> := [];
    assert none + none == none;
  }

  lemma SecondWish(cfg: Config)
    requires !cfg.isLocalService("x") && cfg.forwards("x")
    ensures Step(cfg, OneWaits(), ENotifyAvailable(1, [WISH], true)) == TwoWait()
  {
    WishForwarded(cfg, OneWaits());
    var s := AddNotif(OneWaits(), Available, 1, Waiter(0, 0));
    SecondAdded(cfg);
    SecondPooled(cfg, s);
    NoBatch();
    hide Chunks, AvailableJobs, Step, AddNotif, PoolAll;
    assert TwoWait().link.outstanding + [] == TwoWait().link.outstanding;
  }

  lemma NoBatch()
    ensures AvailableJobs(Chunks<(nat, Iface)>([])) == []
  {
  }

  lemma RemoveEmpty(s: State, k: Kind, id: nat)
    requires L(s, k) == []
    ensures RemoveOne(s, k, id) == s
  {
  }

  lemma DropsPool(s: State, n: Notification)
    requires n.host.Some? && n.poolId == 100000 && s.pools == [Pool(100000, Connecting(WISH), INVALID, 0)]
    ensures Drop(s, n).pools == [] && Drop(s, n).link == s.link && Drop(s, n).lists == s.lists
  {
    hide StdRemove;
  }

  /** The first of the two is cleared: its pool goes, and the other one is left behind. */
  lemma OneCleared(cfg: Config)
    ensures var s := Clear(TwoWait(), 1, 1);
            && s.lists.available == [Waiter(2, 100000)] && s.pools == [] && s.link.steady && s.link.connected
  {
    var s0 := Forget(TwoWait(), 1, 1);
    assert s0.lists == TwoWait().lists && s0.pools == TwoWait().pools && s0.link == TwoWait().link by { hide StdRemove; }
    hide Forget;
    RemoveEmpty(s0, Detach, 1);
    RemoveEmpty(s0, Disconnect, 1);
    assert NotifAt(L(s0, Available), 1, false) == 1;
    var t := Withdraw(s0, 1);
    var l := [Waiter(2, 100000), Waiter(1, 100000)];
    assert L(t, Available) == l && l[..1] + l[2..] == [Waiter(2, 100000)];
    DropsPool(Put(t, Available, [Waiter(2, 100000)]), Waiter(1, 100000));
    hide Drop;
    var s1 := RemoveOne(s0, Available, 1);
    assert s1 == Drop(Put(t, Available, [Waiter(2, 100000)]), Waiter(1, 100000));
    RemoveEmpty(s1, ListChange, 1);
    hide RemoveOne;
  }

  lemma NothingForwarded(cfg: Config, s: State)
    requires s.lists.available == [Waiter(2, 100000)] && s.link.connected
    ensures ForwardAvailable(cfg, s) == s
  {
    PooledIgnored(cfg, s, 0);
    NoBatch();
    assert s.link.outstanding + [] == s.link.outstanding;
  }

  /** Two clients wait for one foreign interface and the first gives up: the run ends with the link
      up, the second still waiting under the ID of a pool that is gone, and nothing to forward. */
  lemma WaiterStranded(cfg: Config)
    requires !cfg.isLocalService("x") && cfg.forwards("x")
    ensures var wish := ENotifyAvailable(1, [WISH], true);
            var es := [EOpen(1, 0, 0), ELink(true), EMasterConnected] + [wish] + [wish] + [EClear(1, 1)];
            IsRun(cfg, es) && (var s := After(cfg, es);
            && s.link.steady && s.lists.available == [Waiter(2, 100000)] && s.pools == [] && !NoneStranded(s)
            && ForwardAvailable(cfg, s) == s)
  {
    hide IsRun, After, Step, Enabled, Ready, OneWaits, TwoWait, ForwardAvailable, NoneStranded;
    var wish := ENotifyAvailable(1, [WISH], true);
    var es := [EOpen(1, 0, 0), ELink(true), EMasterConnected];
    ReadyReached(cfg);
    FirstWish(cfg);
    SecondWish(cfg);
    WishesEnabled(cfg);
    OneCleared(cfg);
    var s := Clear(TwoWait(), 1, 1);
    hide Clear;
    NothingForwarded(cfg, s);
    LeftBehind(s);
    ThreeMore(cfg, es, wish, wish, EClear(1, 1), Ready(), OneWaits(), TwoWait(), s);
  }

  lemma WishesEnabled(cfg: Config)
    ensures var wish := ENotifyAvailable(1, [WISH], true);
            Enabled(cfg, Ready(), wish) && Enabled(cfg, OneWaits(), wish) && Enabled(cfg, TwoWait(), EClear(1, 1))
    ensures 1 in TwoWait().conns && Step(cfg, TwoWait(), EClear(1, 1)) == Clear(TwoWait(), 1, 1)
  {
    hide Clear;
  }

  lemma LeftBehind(s: State)
    requires s.lists.available == [Waiter(2, 100000)] && s.pools == []
    ensures !NoneStranded(s)
  {
    assert Waiter(2, 100000) in s.lists.available && !Awaited(s.pools, Waiter(2, 100000));
  }
}
