/** Pools, batches and the master's answers. A notification joins a pool or gets
    a new one; new pools are announced to the master in batches; the answer to an
    announcement is stored in the pool, or cleared again at the master if the
    pool has died in the meantime. Counts, cookies and grants stay exact. */
module BrokerPools {
  import opened BrokerTypes
  import opened ServerTable
  import opened BrokerSpec
  import opened BrokerInv
  import opened BrokerSweep
  import opened BrokerMoves

  // ---------------------------------------------------------------- editing entries in place

  ghost predicate Edited(n: Notification, m: Notification) {
    m == n.(poolId := m.poolId, masterId := m.masterId)
  }

  ghost predicate Relisting(s: State, k: Kind, s': State) {
    && |L(s', k)| == |L(s, k)| && (forall i :: 0 <= i < |L(s, k)| ==> Edited(L(s, k)[i], L(s', k)[i]))
    && (forall k' :: k' != k ==> L(s', k') == L(s, k'))
    && s'.conns == s.conns && SameHistory(s, s') && s.next.pool <= s'.next.pool
    && (forall m :: m in L(s', k) ==> m.poolId < s'.next.pool && (k == Detach || k == ListChange ==> m.poolId == 0))
  }

  lemma RelistListed(s: State, k: Kind, s': State, i: nat)
    requires Relisting(s, k, s') && i < |L(s, k)| && Listed(s, k, L(s, k)[i])
    ensures Listed(s', k, L(s', k)[i])
  {
    assert L(s', k)[i] in L(s', k);
    assert Edited(L(s, k)[i], L(s', k)[i]);
  }

  lemma RelistLists(s: State, k: Kind, s': State)
    requires ListsOk(s) && Relisting(s, k, s')
    ensures ListsOk(s')
  {
    forall k', m | m in L(s', k') ensures Listed(s', k', m) {
      if k' == k {
        var i :| 0 <= i < |L(s', k)| && L(s', k)[i] == m;
        assert L(s, k)[i] in L(s, k);
        RelistListed(s, k, s', i);
      } else {
        assert m in L(s, k') && Listed(s, k', m);
      }
    }
    forall k' ensures NewestFirst(L(s', k')) {
      assert NewestFirst(L(s, k'));
    }
  }

  lemma RelistAccounted(s: State, k: Kind, s': State, id: nat)
    requires Relisting(s, k, s') && id in s.past.book && Accounted(s, id)
    ensures Accounted(s', id)
  {
    var k' := s.past.book[id].kind;
    if InList(s, k', id) {
      var m :| m in L(s, k') && m.id == id;
      if k' == k {
        var i :| 0 <= i < |L(s, k)| && L(s, k)[i] == m;
        assert Edited(L(s, k)[i], L(s', k)[i]);
        assert L(s', k)[i].id == id && L(s', k)[i] in L(s', k);
      } else {
        assert m in L(s', k');
      }
    }
  }

  lemma RelistBook(s: State, k: Kind, s': State)
    requires BookOk(s) && HostsOk(s) && PulsesOk(s) && Relisting(s, k, s')
    ensures BookOk(s') && HostsOk(s') && PulsesOk(s')
  {
    forall id | id in s'.past.book ensures 0 < id <= s'.next.notif && Accounted(s', id) {
      RelistAccounted(s, k, s', id);
    }
    hide Accounted;
  }

  // ---------------------------------------------------------------- growing the pools

  lemma GrowOrder(pools: seq<Pool>, p: Pool)
    requires PoolOrder(pools) && forall q :: q in pools ==> q.id < p.id && !SameTarget(q.target, p.target)
    ensures PoolOrder(pools + [p])
  {
    assert forall i :: 0 <= i < |pools| ==> pools[i] in pools;
  }

  /** Old pools keep their ID and grant, new ones are blank. */
  ghost predicate PoolsGrow(pools: seq<Pool>, pools': seq<Pool>) {
    && |pools| <= |pools'|
    && (forall i :: 0 <= i < |pools| ==> pools'[i].id == pools[i].id && pools'[i].grant == pools[i].grant
                                         && pools'[i].target == pools[i].target)
    && (forall i :: |pools| <= i < |pools'| ==> pools'[i].grant == INVALID)
  }

  lemma GrowStored(pools: seq<Pool>, pools': seq<Pool>, g: nat)
    requires PoolsGrow(pools, pools') && Stored(pools, g)
    ensures Stored(pools', g)
  {
    var p :| p in pools && p.grant == g;
    var i :| 0 <= i < |pools| && pools[i] == p;
    assert pools'[i] in pools' && pools'[i].grant == g;
  }

  lemma GrowBacked(pools: seq<Pool>, pools': seq<Pool>, m: Notification)
    requires PoolsGrow(pools, pools') && Backed(pools, m)
    ensures Backed(pools', m)
  {
    var p :| p in pools && p.id == m.poolId && p.target.Monitor? && p.target.server.local == m.party.local;
    var i :| 0 <= i < |pools| && pools[i] == p;
    assert pools'[i] in pools' && pools'[i].id == p.id && pools'[i].target == p.target;
  }

  ghost predicate SameLink(s: State, s': State) {
    s'.link.connected == s.link.connected && s'.link.steady == s.link.steady && s'.link.granted == s.link.granted && s'.link.cleared == s.link.cleared
  }

  /** Announcing new pools to the master. */
  lemma GrowGrants(s: State, s': State, extra: seq<nat>)
    requires CookiesOk(s) && NoLeak(s) && PoolsGrow(s.pools, s'.pools) && SameLink(s, s')
    requires AllCookies(s'.link.outstanding) == AllCookies(s.link.outstanding) + extra
    requires Increasing(extra) && forall x :: x in extra ==> s.next.pool <= x < s'.next.pool
    requires s.next.pool <= s'.next.pool && forall p :: p in s.pools ==> p.id < s.next.pool
    ensures CookiesOk(s') && NoLeak(s')
  {
    var a, b := AllCookies(s.link.outstanding), AllCookies(s'.link.outstanding);
    hide AllCookies;
    forall i, j | 0 <= i < j < |b| ensures b[i] < b[j] {
      if i < |a| { assert a[i] in a; }
      if j >= |a| { assert extra[j - |a|] in extra; }
    }
    forall p | p in s'.pools && p.id in b ensures p.grant == INVALID {
      var i :| 0 <= i < |s'.pools| && s'.pools[i] == p;
      if i < |s.pools| { assert s.pools[i] in s.pools; }
    }
    forall g | g in s.link.granted && Stored(s.pools, g) ensures Stored(s'.pools, g) {
      GrowStored(s.pools, s'.pools, g);
    }
  }

  // ---------------------------------------------------------------- joining a disconnect pool

  lemma JoinOld(s: State, pos: nat, s': State)
    requires PoolsOk(s) && s.lists.disconnect != [] && s.lists.disconnect[0].poolId == 0
    requires pos < |s.pools| && SameTarget(s.pools[pos].target, Monitor(s.lists.disconnect[0].party))
    requires s'.pools == s.pools[pos := s.pools[pos].(refCount := s.pools[pos].refCount + 1)]
    requires s'.lists.disconnect == s.lists.disconnect[0 := s.lists.disconnect[0].(poolId := s.pools[pos].id)]
    requires s'.lists.available == s.lists.available && s'.next.pool == s.next.pool
    ensures PoolsOk(s')
  {
    var n, q := s.lists.disconnect[0], s.pools[pos];
    assert q in s.pools;
    assert s'.lists.disconnect == [n.(poolId := q.id)] + s.lists.disconnect[1..];
    forall p | p in s'.pools ensures PoolOk(s', p) {
      var j :| 0 <= j < |s'.pools| && s'.pools[j] == p;
      assert PoolOk(s, s.pools[j]) && PoolOk(s, q);
      assert s.pools[j].id > 0;
      assert s'.lists.disconnect[1..] == s.lists.disconnect[1..];
      assert p.id == q.id ==> j == pos;
    }
  }

  lemma JoinNew(s: State, s': State)
    requires PoolsOk(s) && s.lists.disconnect != [] && s.lists.disconnect[0].poolId == 0
    requires forall n :: n in s.lists.available || n in s.lists.disconnect ==> n.poolId < s.next.pool
    requires TargetAt(s.pools, Monitor(s.lists.disconnect[0].party)) < 0
    requires s'.pools == s.pools + [Pool(s.next.pool, Monitor(s.lists.disconnect[0].party), INVALID, 1)]
    requires s'.lists.disconnect == s.lists.disconnect[0 := s.lists.disconnect[0].(poolId := s.next.pool)]
    requires s'.lists.available == s.lists.available && s'.next.pool == s.next.pool + 1
    ensures PoolsOk(s')
  {
    var n := s.lists.disconnect[0];
    assert s'.lists.disconnect == [n.(poolId := s.next.pool)] + s.lists.disconnect[1..];
    assert s'.lists.disconnect[1..] == s.lists.disconnect[1..];
    forall p | p in s'.pools ensures PoolOk(s', p) {
      if p in s.pools {
        assert PoolOk(s, p);
      } else {
        CountZero(s.lists.disconnect[1..], s.next.pool);
        assert forall m :: m in s.lists.disconnect[1..] ==> m in s.lists.disconnect;
      }
    }
    assert forall p :: p in s.pools ==> PoolOk(s, p);
    GrowOrder(s.pools, s'.pools[|s.pools|]);
  }

  /** The newest disconnect notification joins a pool; its server is then monitored by a live pool. */
  lemma JoinKeepsCore(s: State, id: PartyId)
    requires Core(s) && s.lists.disconnect != [] && s.lists.disconnect[0].poolId == 0 && s.lists.disconnect[0].party == id
    ensures Core(JoinPool(s, id))
  {
    var s' := JoinPool(s, id);
    JoinShape(s, id);
    assert ListsOk(s') by { RelistLists(s, Disconnect, s'); }
    assert BookOk(s') && HostsOk(s') && PulsesOk(s') by { RelistBook(s, Disconnect, s'); }
    assert CookiesOk(s') && NoLeak(s') by { JoinGrants(s, id); }
    hide BookOk, HostsOk, PulsesOk, CookiesOk, NoLeak, Listed;
  }

  lemma JoinShape(s: State, id: PartyId)
    requires AllListed(s) && PoolsOk(s) && s.lists.disconnect != [] && s.lists.disconnect[0].poolId == 0 && s.lists.disconnect[0].party == id
    ensures Relisting(s, Disconnect, JoinPool(s, id))
    ensures PoolsOk(JoinPool(s, id))
  {
    hide TargetAt;
    var s' := JoinPool(s, id);
    var pos := TargetAt(s.pools, Monitor(id));
    forall n | n in s.lists.available || n in s.lists.disconnect ensures n.poolId < s.next.pool {
      assert n in L(s, Available) || n in L(s, Disconnect);
      assert Listed(s, Available, n) || Listed(s, Disconnect, n);
    }
    hide AllListed;
    if pos >= 0 {
      JoinOld(s, pos, s');
      assert PoolOk(s, s.pools[pos]);
    } else {
      JoinNew(s, s');
    }
    assert L(s', Available) == s'.lists.available && L(s', Disconnect) == s'.lists.disconnect;
  }

  lemma JoinGrow(s: State, id: PartyId)
    requires s.lists.disconnect != []
    ensures var s' := JoinPool(s, id);
            && PoolsGrow(s.pools, s'.pools) && SameLink(s, s') && s.next.pool <= s'.next.pool
            && (s'.link.outstanding == s.link.outstanding
                || (s'.link.outstanding == s.link.outstanding + [WatchServerJob(s.next.pool, id)] && s.next.pool < s'.next.pool))
  {
    hide TargetAt;
  }

  lemma CookieOf(j: Job)
    ensures AllCookies([j]) == Cookies(j)
  {
    assert AllCookies([j]) == Cookies(j) + AllCookies([]);
  }

  lemma JoinGrants(s: State, id: PartyId)
    requires CookiesOk(s) && NoLeak(s) && PoolsOk(s) && s.lists.disconnect != []
    ensures CookiesOk(JoinPool(s, id)) && NoLeak(JoinPool(s, id))
  {
    hide JoinPool, PoolsOk, CookiesOk, NoLeak, PoolsGrow, AllCookies;
    JoinGrow(s, id);
    PoolsBelow(s);
    CookieOf(WatchServerJob(s.next.pool, id));
    var s' := JoinPool(s, id);
    if s'.link.outstanding != s.link.outstanding {
      CookiesAppend(s.link.outstanding, [WatchServerJob(s.next.pool, id)]);
      GrowGrants(s, s', [s.next.pool]);
    } else {
      assert AllCookies(s'.link.outstanding) == AllCookies(s.link.outstanding) + [];
      GrowGrants(s, s', []);
    }
  }

  lemma JoinHead(s: State, id: PartyId)
    requires s.lists.disconnect != [] && s.lists.disconnect[0].party == id
    ensures var s' := JoinPool(s, id);
            && |s'.lists.disconnect| == |s.lists.disconnect| && s'.lists.disconnect[1..] == s.lists.disconnect[1..]
            && s'.lists.disconnect[0].party == id && Backed(s'.pools, s'.lists.disconnect[0])
  {
    hide TargetAt;
    var s' := JoinPool(s, id);
    var pos := TargetAt(s.pools, Monitor(id));
    var q := s'.pools[if pos >= 0 then pos else |s.pools|];
    assert q in s'.pools && q.id == s'.lists.disconnect[0].poolId && SameTarget(q.target, Monitor(id));
  }

  lemma JoinBacked(s: State, id: PartyId, m: Notification)
    requires s.lists.disconnect != [] && s.lists.disconnect[0].party == id && m in JoinPool(s, id).lists.disconnect
    ensures || (m in s.lists.disconnect && (Backed(s.pools, m) ==> Backed(JoinPool(s, id).pools, m)))
            || (m.party == id && Backed(JoinPool(s, id).pools, m))
  {
    JoinHead(s, id);
    JoinGrow(s, id);
    hide JoinPool, PoolsGrow, Backed;
    var s' := JoinPool(s, id);
    var j :| 0 <= j < |s'.lists.disconnect| && s'.lists.disconnect[j] == m;
    if j > 0 {
      assert m == s'.lists.disconnect[1..][j - 1] == s.lists.disconnect[j];
      if Backed(s.pools, m) { GrowBacked(s.pools, s'.pools, m); }
    }
  }

  // ---------------------------------------------------------------- forwarding available notifications

  ghost predicate InConnecting(pools: seq<Pool>, n: Notification) {
    exists p :: p in pools && p.id == n.poolId && p.target.Connecting?
  }

  lemma PoolOneShape(cfg: Config, s: State, i: nat)
    requires i < |s.lists.available|
    ensures var (s', here) := PoolOne(cfg, s, i);
            && s' == s.(lists := s.lists.(available := s'.lists.available), pools := s'.pools, next := s.next.(pool := s'.next.pool))
            && PoolsGrow(s.pools, s'.pools) && s.next.pool <= s'.next.pool
            && |s'.lists.available| == |s.lists.available|
            && (forall j :: 0 <= j < |s.lists.available| ==> s'.lists.available[j] == s.lists.available[j].(poolId := s'.lists.available[j].poolId))
            && (here == [] ==> s'.pools == s.pools && s'.next.pool == s.next.pool)
            && (here != [] ==> Firsts(here) == [s.next.pool] && s'.next.pool == s.next.pool + 1
                               && s'.pools == s.pools + [Pool(s.next.pool, Connecting(here[0].1), INVALID, 0)]
                               && TargetAt(s.pools, Connecting(here[0].1)) < 0)
            && (forall n :: n in s'.lists.available && n !in s.lists.available ==> InConnecting(s'.pools, n))
  {
    hide TargetAt;
    var (s', here) := PoolOne(cfg, s, i);
    var n := s.lists.available[i];
    if NeedsPool(cfg, n) {
      var pos := TargetAt(s.pools, Connecting(n.iface));
      var q := s'.pools[if pos >= 0 then pos else |s.pools|];
      assert q in s'.pools && q.id == s'.lists.available[i].poolId && q.target.Connecting?;
    }
  }

  lemma PooledOk(s: State, s': State, p: Pool)
    requires PoolOk(s, p) && p in s'.pools && PoolOrder(s'.pools)
    requires s'.lists.disconnect == s.lists.disconnect && s.next.pool <= s'.next.pool
    requires forall n :: n in s'.lists.available && n !in s.lists.available ==> InConnecting(s'.pools, n)
    ensures PoolOk(s', p)
  {
    forall n | n in s'.lists.available && n.poolId == p.id ensures p.target.Connecting? {
      if n !in s.lists.available {
        var q :| q in s'.pools && q.id == n.poolId && q.target.Connecting?;
        var a :| 0 <= a < |s'.pools| && s'.pools[a] == p;
        var b :| 0 <= b < |s'.pools| && s'.pools[b] == q;
      }
    }
  }

  lemma PoolIdsBelow(s: State, n: Notification)
    requires AllListed(s) && (n in s.lists.available || n in s.lists.disconnect)
    ensures n.poolId < s.next.pool
  {
    assert n in L(s, Available) || n in L(s, Disconnect);
    assert Listed(s, Available, n) || Listed(s, Disconnect, n);
  }

  lemma PoolOnePools(cfg: Config, s: State, i: nat)
    requires PoolsOk(s) && AllListed(s) && i < |s.lists.available|
    ensures PoolsOk(PoolOne(cfg, s, i).0)
  {
    PoolOneShape(cfg, s, i);
    hide PoolOne, AllListed, TargetAt, InConnecting, PoolsGrow;
    var (s', here) := PoolOne(cfg, s, i);
    assert forall p :: p in s.pools ==> PoolOk(s, p);
    if here != [] {
      GrowOrder(s.pools, s'.pools[|s.pools|]);
      forall n | n in s.lists.disconnect ensures n.poolId != s.next.pool { PoolIdsBelow(s, n); }
      CountZero(s.lists.disconnect, s.next.pool);
    }
    assert PoolOrder(s'.pools);
    hide PoolOrder;
    forall p | p in s'.pools ensures PoolOk(s', p) {
      if p in s.pools { PooledOk(s, s', p); }
    }
  }

  lemma PoolOneRelists(cfg: Config, s: State, i: nat)
    requires PoolsOk(s) && AllListed(s) && i < |s.lists.available|
    ensures Relisting(s, Available, PoolOne(cfg, s, i).0)
  {
    PoolOneShape(cfg, s, i);
    PoolOnePools(cfg, s, i);
    hide PoolOne, AllListed, TargetAt, PoolsGrow;
    var (s', here) := PoolOne(cfg, s, i);
    forall n | n in L(s', Available) ensures n.poolId < s'.next.pool {
      if n in s.lists.available {
        PoolIdsBelow(s, n);
      } else {
        var p :| p in s'.pools && p.id == n.poolId && p.target.Connecting?;
        assert PoolOk(s', p);
      }
    }
    hide PoolsOk;
  }

  lemma PoolsBelow(s: State)
    requires PoolsOk(s)
    ensures forall p :: p in s.pools ==> p.id < s.next.pool
  {
    assert forall p :: p in s.pools ==> PoolOk(s, p);
  }

  lemma PoolOneKeepsCore(cfg: Config, s: State, i: nat)
    requires Core(s) && i < |s.lists.available|
    ensures Core(PoolOne(cfg, s, i).0)
  {
    hide BookOk, HostsOk, PulsesOk, CookiesOk, NoLeak, PoolsOk, AllListed;
    PoolOneShape(cfg, s, i);
    PoolOnePools(cfg, s, i);
    PoolOneRelists(cfg, s, i);
    PoolsBelow(s);
    hide PoolOne, TargetAt, PoolsGrow, Relisting, InConnecting, ListsOk;
    var (s', here) := PoolOne(cfg, s, i);
    RelistLists(s, Available, s');
    RelistBook(s, Available, s');
    assert AllCookies(s'.link.outstanding) == AllCookies(s.link.outstanding) + [];
    GrowGrants(s, s', []);
  }

  /** Pooling waiting notifications: entries only change their pool, new pools get
      the next IDs in order, one announcement each, and old pools are untouched. */
  ghost predicate Pooled(s: State, s': State, items: seq<(nat, Iface)>) {
    && |s'.lists.available| == |s.lists.available|
    && (forall j :: 0 <= j < |s.lists.available| ==>
          s'.lists.available[j] == s.lists.available[j].(poolId := s'.lists.available[j].poolId))
    && s' == s.(lists := s.lists.(available := s'.lists.available), pools := s'.pools,
                next := s.next.(pool := s.next.pool + |items|))
    && s'.pools == s.pools + Blank(s.next.pool, items)
    && (forall j :: 0 <= j < |items| ==> items[j].0 == s.next.pool + j)
  }

  ghost function Blank(first: nat, items: seq<(nat, Iface)>): seq<Pool> {
    seq(|items|, j requires 0 <= j < |items| => Pool(first + j, Connecting(items[j].1), INVALID, 0))
  }

  lemma PooledTrans(s: State, t: State, u: State, here: seq<(nat, Iface)>, rest: seq<(nat, Iface)>)
    requires Pooled(s, t, here) && Pooled(t, u, rest)
    ensures Pooled(s, u, here + rest)
  {
    var items := here + rest;
    assert Blank(s.next.pool, items) == Blank(s.next.pool, here) + Blank(t.next.pool, rest);
    forall j | 0 <= j < |items| ensures items[j].0 == s.next.pool + j {
      assert items[j] == if j < |here| then here[j] else rest[j - |here|];
    }
  }

  lemma PoolOnePooled(cfg: Config, s: State, i: nat)
    requires i < |s.lists.available|
    ensures Pooled(s, PoolOne(cfg, s, i).0, PoolOne(cfg, s, i).1)
  {
    hide TargetAt;
    var (s', here) := PoolOne(cfg, s, i);
    assert here != [] ==> Blank(s.next.pool, here) == [Pool(s.next.pool, Connecting(here[0].1), INVALID, 0)];
    assert here == [] ==> Blank(s.next.pool, here) == [];
  }

  lemma {:induction false} PoolAllKeeps(cfg: Config, s: State, i: nat)
    requires Core(s) && i <= |s.lists.available|
    ensures Core(PoolAll(cfg, s, i).0)
    ensures Pooled(s, PoolAll(cfg, s, i).0, PoolAll(cfg, s, i).1)
    decreases |s.lists.available| - i
  {
    if i < |s.lists.available| {
      hide Core, Pooled, PoolOne;
      PoolOnePooled(cfg, s, i);
      PoolOneKeepsCore(cfg, s, i);
      var (s1, here) := PoolOne(cfg, s, i);
      PoolAllKeeps(cfg, s1, i + 1);
      var (s', rest) := PoolAll(cfg, s1, i + 1);
      PooledTrans(s, s1, s', here, rest);
    } else {
      assert s.pools + [] == s.pools;
    }
  }

  // ---------------------------------------------------------------- batches

  ghost function Flatten<T>(xss: seq<seq<T>>): seq<T> {
    if xss == [] then [] else xss[0] + Flatten(xss[1..])
  }

  /** Batches partition the work: in order, 1 to 32 entries each, only the last one short. */
  lemma {:induction false} ChunksPartition<T>(xs: seq<T>)
    ensures Flatten(Chunks(xs)) == xs
    ensures forall b :: b in Chunks(xs) ==> 0 < |b| <= MAX_MULTIPLE
    ensures forall i :: 0 <= i < |Chunks(xs)| - 1 ==> |Chunks(xs)[i]| == MAX_MULTIPLE
  {
    if |xs| > MAX_MULTIPLE {
      var rest := xs[MAX_MULTIPLE..];
      ChunksPartition(rest);
      assert Chunks(xs)[1..] == Chunks(rest);
      assert xs == xs[..MAX_MULTIPLE] + rest;
    } else if xs != [] {
      assert Chunks(xs)[1..] == [];
      assert xs + [] == xs;
    }
  }

  lemma {:induction false} BatchCookies(batches: seq<seq<(nat, Iface)>>)
    ensures AllCookies(AvailableJobs(batches)) == Firsts(Flatten(batches))
  {
    if batches != [] {
      BatchCookies(batches[1..]);
      assert AvailableJobs(batches)[1..] == AvailableJobs(batches[1..]);
      assert Firsts(batches[0] + Flatten(batches[1..])) == Firsts(batches[0]) + Firsts(Flatten(batches[1..]));
    }
  }

  lemma {:induction false} RegisterCookies(batches: seq<seq<Server>>)
    ensures AllCookies(RegisterJobs(batches)) == []
  {
    if batches != [] {
      RegisterCookies(batches[1..]);
      assert RegisterJobs(batches)[1..] == RegisterJobs(batches[1..]);
    }
  }

  lemma PooledGrows(s: State, s': State, items: seq<(nat, Iface)>)
    requires Pooled(s, s', items)
    ensures PoolsGrow(s.pools, s'.pools)
    ensures Increasing(Firsts(items)) && forall x :: x in Firsts(items) ==> s.next.pool <= x < s'.next.pool
  {
  }

  lemma PushAllKeeps(s: State, js: seq<Job>)
    requires ListsOk(s) && BookOk(s) && HostsOk(s) && PulsesOk(s) && PoolsOk(s)
    ensures var s' := PushAll(s, js);
            ListsOk(s') && BookOk(s') && HostsOk(s') && PulsesOk(s') && PoolsOk(s')
  {
    hide ListsOk, BookOk, PoolsOk;
    var s' := PushAll(s, js);
    SameListed(s, s');
    SameBook(s, s');
    SamePools(s, s');
  }

  lemma AnnounceKeepsCore(s: State, s1: State, items: seq<(nat, Iface)>)
    requires Core(s) && Core(s1) && Pooled(s, s1, items)
    ensures Core(PushAll(s1, AvailableJobs(Chunks(items))))
  {
    assert s1.link == s.link && s.next.pool <= s1.next.pool;
    hide BookOk, HostsOk, PulsesOk, PoolsOk, CookiesOk, NoLeak, ListsOk, Pooled, PoolsGrow, AllCookies, Chunks, Firsts;
    PooledGrows(s, s1, items);
    PoolsBelow(s);
    ChunksPartition(items);
    BatchCookies(Chunks(items));
    var js := AvailableJobs(Chunks(items));
    CookiesAppend(s1.link.outstanding, js);
    PushAllKeeps(s1, js);
    hide AvailableJobs, Increasing;
    GrowGrants(s, PushAll(s1, js), Firsts(items));
  }

  /** forwardServerAvailableNotifications keeps the core, the wanted interfaces and the backing pools. */
  lemma ForwardKeeps(cfg: Config, s: State)
    requires Core(s)
    ensures Core(ForwardAvailable(cfg, s))
    ensures var s' := ForwardAvailable(cfg, s);
            && s' == s.(lists := s.lists.(available := s'.lists.available), pools := s'.pools, next := s'.next, link := s'.link)
            && s'.next == s.next.(pool := s'.next.pool)
            && |s'.lists.available| == |s.lists.available|
            && (forall j :: 0 <= j < |s.lists.available| ==>
                  s'.lists.available[j] == s.lists.available[j].(poolId := s'.lists.available[j].poolId))
            && KeepsBacked(s, s')
  {
    if s.link.connected {
      PoolAllKeeps(cfg, s, 0);
      var (s1, items) := PoolAll(cfg, s, 0);
      AnnounceKeepsCore(s, s1, items);
      PooledGrows(s, s1, items);
      hide Core;
      forall m | m in s1.lists.disconnect && Backed(s.pools, m) ensures Backed(s1.pools, m) {
        GrowBacked(s.pools, s1.pools, m);
      }
    }
  }

  // ---------------------------------------------------------------- the master's answers

  lemma ClearKeepsCore(s: State, id: nat)
    requires Core(s)
    ensures Core(QueueClear(s, id))
    ensures AllCookies(QueueClear(s, id).link.outstanding) == AllCookies(s.link.outstanding)
    ensures s.link.connected ==> id in QueueClear(s, id).link.cleared
  {
    hide ListsOk, BookOk, HostsOk, PulsesOk, PoolsOk;
    var s' := QueueClear(s, id);
    PushPlain(s.link.outstanding, ClearJob(id));
    SameListed(s, s');
    SameBook(s, s');
    SamePools(s, s');
    assert HostsOk(s') && PulsesOk(s') by { SameHosts(s, s'); }
  }

  lemma SameHosts(s: State, s': State)
    requires HostsOk(s) && PulsesOk(s) && s'.past == s.past && SameNotifs(s.conns, s'.conns)
    ensures HostsOk(s') && PulsesOk(s')
  {
  }

  ghost predicate Unanswered(s: State, cookie: nat) {
    && cookie !in AllCookies(s.link.outstanding)
    && forall p :: p in s.pools && p.id == cookie ==> p.grant == INVALID
  }

  lemma PopKeepsCore(s: State)
    requires Core(s) && s.link.outstanding != []
    ensures var s' := s.(link := s.link.(outstanding := s.link.outstanding[1..]));
            && Core(s')
            && (forall x :: x in Cookies(s.link.outstanding[0]) ==> Unanswered(s', x))
            && Increasing(Cookies(s.link.outstanding[0]))
  {
    var s' := s.(link := s.link.(outstanding := s.link.outstanding[1..]));
    hide ListsOk, BookOk, HostsOk, PulsesOk, PoolsOk, Cookies, AllCookies, Unanswered, Increasing;
    PopCookies(s, s');
    hide CookiesOk;
    SameListed(s, s');
    SameBook(s, s');
    SamePools(s, s');
    SameHosts(s, s');
  }

  lemma PopCookies(s: State, s': State)
    requires CookiesOk(s) && s.link.outstanding != []
    requires s' == s.(link := s.link.(outstanding := s.link.outstanding[1..]))
    ensures CookiesOk(s') && Increasing(Cookies(s.link.outstanding[0]))
    ensures forall x :: x in Cookies(s.link.outstanding[0]) ==> Unanswered(s', x)
  {
    var a, b := Cookies(s.link.outstanding[0]), AllCookies(s'.link.outstanding);
    assert AllCookies(s.link.outstanding) == a + b;
    hide Cookies, AllCookies;
    IncreasingParts(a, b);
    hide Increasing;
  }

  lemma IncreasingParts(a: seq<nat>, b: seq<nat>)
    requires Increasing(a + b)
    ensures Increasing(a) && Increasing(b)
    ensures (forall x :: x in a ==> x in a + b && x !in b) && (forall x :: x in b ==> x in a + b)
  {
    assert forall i :: 0 <= i < |a| ==> (a + b)[i] == a[i];
    assert forall i :: 0 <= i < |b| ==> (a + b)[|a| + i] == b[i];
  }

  /** The answer for a pool is stored while the pool lives and cleared again at the master otherwise. */
  lemma GrantKeepsCore(s: State, cookie: nat, id: nat, genuine: bool)
    requires Core(s) && Unanswered(s, cookie) && (genuine ==> id != INVALID)
    ensures Core(Grant(s, cookie, id, genuine))
    ensures AllCookies(Grant(s, cookie, id, genuine).link.outstanding) == AllCookies(s.link.outstanding)
    ensures forall p :: p in Grant(s, cookie, id, genuine).pools ==> p in s.pools || p.id == cookie
  {
    hide ListsOk, BookOk, HostsOk, PulsesOk, AllCookies;
    var pos := PoolAt(s.pools, cookie);
    var s' := Grant(s, cookie, id, genuine);
    PushPlain(s.link.outstanding, ClearJob(id));
    SameListed(s, s');
    SameBook(s, s');
    SameHosts(s, s');
    if pos >= 0 {
      GrantPools(s, pos, id, s');
      GrantLeaks(s, pos, id, s');
    } else {
      SamePools(s, s');
    }
  }

  lemma GrantPools(s: State, pos: nat, id: nat, s': State)
    requires PoolsOk(s) && pos < |s.pools| && s'.pools == s.pools[pos := s.pools[pos].(grant := id)]
    requires s'.lists == s.lists && s'.next == s.next
    ensures PoolsOk(s')
  {
    assert s.pools[pos] in s.pools;
    forall p | p in s'.pools ensures PoolOk(s', p) {
      assert p in s.pools || p == s.pools[pos].(grant := id);
      assert PoolOk(s, if p in s.pools then p else s.pools[pos]);
    }
  }

  lemma GrantLeaks(s: State, pos: nat, id: nat, s': State)
    requires CookiesOk(s) && NoLeak(s) && pos < |s.pools| && s.pools[pos].grant == INVALID
    requires s.pools[pos].id !in AllCookies(s.link.outstanding)
    requires s'.pools == s.pools[pos := s.pools[pos].(grant := id)] && s'.next == s.next
    requires s'.link == s.link || (id != INVALID && s'.link == s.link.(granted := s.link.granted + {id}))
    ensures CookiesOk(s') && NoLeak(s')
  {
    hide AllCookies;
    assert s'.pools[pos] in s'.pools && s'.pools[pos].grant == id;
    assert Stored(s'.pools, id);
    forall g | g != INVALID && Stored(s.pools, g) ensures Stored(s'.pools, g) {
      var p :| p in s.pools && p.grant == g;
      var j :| 0 <= j < |s.pools| && s.pools[j] == p;
      assert s'.pools[j] == p && s'.pools[j] in s'.pools;
    }
    assert forall p :: p in s'.pools ==> p in s.pools || p.id == s.pools[pos].id;
  }

  lemma {:induction false} GrantAllKeepsCore(s: State, items: seq<(nat, Iface)>, ids: seq<nat>)
    requires Core(s) && |items| <= |ids|
    requires Increasing(Firsts(items)) && forall x :: x in Firsts(items) ==> Unanswered(s, x)
    ensures Core(GrantAll(s, items, ids))
    decreases |items|
  {
    if items != [] {
      hide Core, AllCookies;
      var s1 := if ids[0] == INVALID then s else Grant(s, items[0].0, ids[0], true);
      var first, rest := Firsts(items), Firsts(items[1..]);
      assert first[0] == items[0].0 && first[0] in first;
      if ids[0] != INVALID {
        GrantKeepsCore(s, items[0].0, ids[0], true);
      }
      assert forall i :: 0 <= i < |rest| ==> rest[i] == first[i + 1];
      forall x | x in rest ensures Unanswered(s1, x) {
        var i :| 0 <= i < |rest| && rest[i] == x;
        assert first[0] < first[i + 1] && first[i + 1] in first;
        hide Grant;
      }
      GrantAllKeepsCore(s1, items[1..], ids[1..]);
    }
  }

  lemma EditRelists(s: State, k: Kind, i: nat, id: nat)
    requires AllListed(s) && (k == Detach || k == ListChange) && i < |L(s, k)|
    ensures Relisting(s, k, Put(s, k, L(s, k)[i := L(s, k)[i].(masterId := id)]))
  {
    hide Put;
    forall m | m in L(s, k) ensures m.poolId < s.next.pool && m.poolId == 0 {
      assert Listed(s, k, m);
    }
    hide AllListed;
    assert L(s, k)[i] in L(s, k);
  }

  lemma EditPools(s: State, k: Kind, l: seq<Notification>)
    requires PoolsOk(s) && (k == Detach || k == ListChange)
    ensures PoolsOk(Put(s, k, l))
  {
    var s' := Put(s, k, l);
    forall p | p in s'.pools ensures PoolOk(s', p) { assert PoolOk(s, p); }
  }

  /** The answer for a client-detach or list notification. */
  lemma MasterIdKeepsCore(s: State, k: Kind, notif: nat, id: nat, genuine: bool)
    requires Core(s) && (k == Detach || k == ListChange)
    ensures Core(SetMasterId(s, k, notif, id, genuine))
  {
    var s1 := if genuine then s.(link := s.link.(lent := s.link.lent + {id})) else s;
    assert Core(s1) by {
      hide Core;
      PlainKeepsCore(s, s1);
    }
    NotedKeepsCore(s1, k, notif, id);
    assert SetMasterId(s1, k, notif, id, false) == SetMasterId(s, k, notif, id, genuine) by { hide NotifAt; }
  }

  lemma NotedKeepsCore(s: State, k: Kind, notif: nat, id: nat)
    requires Core(s) && (k == Detach || k == ListChange)
    ensures Core(SetMasterId(s, k, notif, id, false))
  {
    hide NotifAt, Put;
    var i := NotifAt(L(s, k), notif, false);
    if i < 0 {
      hide Core;
      ClearKeepsCore(s, id);
    } else {
      hide BookOk, HostsOk, PulsesOk, AllListed, PoolsOk, Relisting;
      var l := L(s, k)[i := L(s, k)[i].(masterId := id)];
      var s' := Put(s, k, l);
      EditRelists(s, k, i, id);
      EditPools(s, k, l);
      hide ListsOk;
      RelistLists(s, k, s');
      RelistBook(s, k, s');
    }
  }
}
