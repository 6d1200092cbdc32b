/** The invariant of the broker machine, and how its smallest steps keep it.
    An erased notification leaves its list, its connection's ID list and its
    pool; each part of the invariant gets a lemma of its own about such a cut,
    stated on a relation between the two states rather than on the code. */
module BrokerInv {
  import opened BrokerTypes
  import opened ServerTable
  import opened BrokerSpec

  // ---------------------------------------------------------------- the invariant

  ghost predicate Listed(s: State, k: Kind, n: Notification) {
    && n.id in s.past.book && s.past.book[n.id].kind == k
    && s.past.book[n.id].conn in s.conns
    && n.id in s.conns[s.past.book[n.id].conn].notifs
    && (n.host.Some? ==> n.host.value == s.past.book[n.id].conn)
    && (k != Available ==> n.active)
    && (k == Detach || k == ListChange ==> n.poolId == 0)
    && n.poolId < s.next.pool
    && n.id !in s.past.withdrawn
    && (k != ListChange ==> n.id !in s.past.pulses)
  }

  /** Every notification in a list is known to the live connection that registered it. */
  ghost predicate AllListed(s: State) {
    forall k, n :: n in L(s, k) ==> Listed(s, k, n)
  }

  ghost predicate NewestFirst(l: seq<Notification>) {
    forall i, j :: 0 <= i < j < |l| ==> l[i].id > l[j].id
  }

  ghost predicate ListsOk(s: State) {
    AllListed(s) && forall k :: NewestFirst(L(s, k))
  }

  ghost predicate InList(s: State, k: Kind, id: nat) {
    exists n :: n in L(s, k) && n.id == id
  }

  ghost predicate Accounted(s: State, id: nat)
    requires id in s.past.book
  {
    InList(s, s.past.book[id].kind, id) || id in s.past.pulses || id in s.past.withdrawn
  }

  /** No notification disappears silently: it is listed, was pulsed, or was withdrawn. */
  ghost predicate BookOk(s: State) {
    && (forall id :: id in s.past.book ==> 0 < id <= s.next.notif && Accounted(s, id))
    && (forall id :: id in s.past.withdrawn ==> id in s.past.book)
  }

  /** A connection's list names only notifications that it registered itself. */
  ghost predicate HostsOk(s: State) {
    forall c, x :: c in s.conns && x in s.conns[c].notifs ==> x in s.past.book && s.past.book[x].conn == c
  }

  /** Only list-change notifications are pulsed more than once. */
  ghost predicate PulsesOk(s: State) {
    && (forall x :: x in s.past.pulses ==> x in s.past.book)
    && (forall i, j :: 0 <= i < j < |s.past.pulses| && s.past.pulses[i] == s.past.pulses[j] ==> s.past.book[s.past.pulses[i]].kind == ListChange)
  }

  ghost function Count(l: seq<Notification>, poolId: nat): nat {
    if l == [] then 0 else (if l[0].poolId == poolId then 1 else 0) + Count(l[1..], poolId)
  }

  ghost predicate PoolOk(s: State, p: Pool) {
    && 0 < p.id < s.next.pool
    && (p.target.Connecting? ==> p.refCount == 0)
    && (p.target.Monitor? ==> p.refCount == Count(s.lists.disconnect, p.id) && p.refCount > 0)
    && (forall n :: n in s.lists.available && n.poolId == p.id ==> p.target.Connecting?)
    && (forall n :: n in s.lists.disconnect && n.poolId == p.id ==> (p.target.Monitor? && p.target.server.local == n.party.local))
  }

  /** Disconnect pools are exactly counted, and no two pools have the same target. */
  ghost predicate PoolsOk(s: State) {
    s.next.pool > 0 && (forall p :: p in s.pools ==> PoolOk(s, p)) && PoolOrder(s.pools)
  }

  ghost function Firsts(items: seq<(nat, Iface)>): seq<nat> {
    seq(|items|, i requires 0 <= i < |items| => items[i].0)
  }

  ghost function Cookies(j: Job): seq<nat> {
    match j
    case WatchServerJob(cookie, _) => [cookie]
    case AvailableJob(items) => Firsts(items)
    case _ => []
  }

  ghost function AllCookies(js: seq<Job>): seq<nat> {
    if js == [] then [] else Cookies(js[0]) + AllCookies(js[1..])
  }

  ghost predicate Increasing(xs: seq<nat>) {
    forall i, j :: 0 <= i < j < |xs| ==> xs[i] < xs[j]
  }

  /** Every pool is asked about at most once, and is blank until its answer arrives. */
  ghost predicate CookiesOk(s: State) {
    && Increasing(AllCookies(s.link.outstanding))
    && (forall x :: x in AllCookies(s.link.outstanding) ==> x < s.next.pool)
    && (forall p :: p in s.pools && p.id in AllCookies(s.link.outstanding) ==> p.grant == INVALID)
  }

  ghost predicate Stored(pools: seq<Pool>, id: nat) {
    exists p :: p in pools && p.grant == id
  }

  /** While the link holds, no ID granted by the master is forgotten. */
  ghost predicate NoLeak(s: State) {
    s.link.steady ==> s.link.connected && forall g :: g in s.link.granted ==> g != INVALID && (g in s.link.cleared || Stored(s.pools, g))
  }

  ghost predicate Core(s: State) {
    ListsOk(s) && BookOk(s) && HostsOk(s) && PulsesOk(s) && PoolsOk(s) && CookiesOk(s) && NoLeak(s)
  }

  /** No active server-available notification matches a registered server. */
  ghost predicate NoLostWakeup(servers: seq<Server>, available: seq<Notification>) {
    forall n, e :: n in available && n.active && e in servers ==> !Accepts(n.iface, e.iface)
  }

  ghost predicate Backed(pools: seq<Pool>, n: Notification) {
    exists p :: p in pools && p.id == n.poolId && p.target.Monitor? && p.target.server.local == n.party.local
  }

  /** Every disconnect watcher watches a registered server, one that is just going,
      or a foreign one that a live master pool monitors. */
  ghost predicate WatchersSound(cfg: Config, s: State, going: seq<PartyId>) {
    forall n :: n in s.lists.disconnect ==>
      Registered(s, n.party) || n.party in going || (n.party.ext != cfg.ext && Backed(s.pools, n))
  }

  ghost predicate ServersOk(cfg: Config, s: State) {
    && Descending(s.servers)
    && (forall e :: e in s.servers && e.id.ext == cfg.ext ==> e.id.local < s.next.server)
    && (forall c :: c in s.conns ==> c > 0)
  }

  ghost predicate ClientOk(s: State, x: Client) {
    Registered(s, x.server) && x.conn in s.conns && x.id in s.conns[x.conn].clients && x.id.local < s.next.client
  }

  /** Every attached client names a registered server and a live connection that lists it. */
  ghost predicate ClientsOk(s: State) {
    && (forall x :: x in s.clients ==> ClientOk(s, x))
    && (forall i, j :: 0 <= i < j < |s.clients| ==> s.clients[i].id != s.clients[j].id)
  }

  ghost predicate Inv(cfg: Config, s: State) {
    && Core(s)
    && NoLostWakeup(s.servers, s.lists.available)
    && WatchersSound(cfg, s, [])
    && ServersOk(cfg, s) && ClientsOk(s)
  }

  // ---------------------------------------------------------------- small facts

  lemma {:induction false} WithoutMembers(ids: seq<nat>, x: nat)
    ensures forall y :: y in Without(ids, x) <==> y in ids && y != x
  {
    if ids != [] { WithoutMembers(ids[1..], x); }
  }

  /** std::remove loses no other ID and invents none. */
  lemma StdRemoveMembers(ids: seq<nat>, x: nat)
    ensures forall y :: y in ids && y != x ==> y in StdRemove(ids, x)
    ensures forall y :: y in StdRemove(ids, x) ==> y in ids
  {
    WithoutMembers(ids, x);
  }

  lemma {:induction false} SetMembers(ids: seq<PartyId>, x: PartyId)
    ensures forall y :: y in SetInsert(ids, x) <==> y in ids || y == x
    ensures forall y :: y in SetRemove(ids, x) <==> y in ids && y != x
  {
    if ids != [] { SetMembers(ids[1..], x); }
  }

  lemma {:induction false} CountCut(l: seq<Notification>, i: nat, poolId: nat)
    requires i < |l|
    ensures Count(l, poolId) == Count(l[..i] + l[i + 1..], poolId) + (if l[i].poolId == poolId then 1 else 0)
  {
    if i == 0 {
      assert l[..0] + l[1..] == l[1..];
    } else {
      CountCut(l[1..], i - 1, poolId);
      assert (l[..i] + l[i + 1..])[1..] == l[1..][..i - 1] + l[1..][i..];
    }
  }

  lemma {:induction false} CountZero(l: seq<Notification>, poolId: nat)
    ensures Count(l, poolId) == 0 <==> forall n :: n in l ==> n.poolId != poolId
  {
    if l != [] { CountZero(l[1..], poolId); }
  }

  lemma {:induction false} CookiesAppend(js: seq<Job>, ks: seq<Job>)
    ensures AllCookies(js + ks) == AllCookies(js) + AllCookies(ks)
  {
    hide Cookies;
    if js == [] {
      assert js + ks == ks;
    } else {
      CookiesAppend(js[1..], ks);
      assert (js + ks)[1..] == js[1..] + ks;
    }
  }

  /** A job that carries no cookie leaves the cookies alone. */
  lemma PushPlain(js: seq<Job>, j: Job)
    requires Cookies(j) == []
    ensures AllCookies(js + [j]) == AllCookies(js)
  {
    CookiesAppend(js, [j]);
    assert AllCookies([j]) == Cookies(j) + AllCookies([]);
  }

  // ---------------------------------------------------------------- erasing one notification

  /** How a destructor changes the connections. */
  ghost predicate ConnsForget(conns: map<nat, Conn>, conns': map<nat, Conn>, id: nat) {
    && conns'.Keys == conns.Keys
    && (forall c :: c in conns ==>
          && conns'[c] == conns[c].(notifs := conns'[c].notifs)
          && (forall y :: y in conns[c].notifs && y != id ==> y in conns'[c].notifs)
          && (forall y :: y in conns'[c].notifs ==> y in conns[c].notifs))
  }

  lemma DropConns(s: State, n: Notification)
    ensures ConnsForget(s.conns, Drop(s, n).conns, n.id)
  {
    hide DetachPool, QueueClear, StdRemove;
    if n.host.Some? && n.host.value in s.conns {
      StdRemoveMembers(s.conns[n.host.value].notifs, n.id);
    }
    var s1 := if n.host.Some? then Forget(s, n.host.value, n.id) else s;
    assert Drop(s, n).conns == s1.conns;
  }

  /** One notification leaves list k, pulsed or withdrawn, and its destructor runs. */
  ghost predicate Erasing(s: State, k: Kind, i: nat, s': State) {
    i < |L(s, k)| && (s' == EraseAt(Send(s, L(s, k)[i].id), k, i) || s' == EraseAt(Withdraw(s, L(s, k)[i].id), k, i))
  }

  ghost function Cut<T>(l: seq<T>, i: nat): seq<T>
    requires i < |l|
  {
    l[..i] + l[i + 1..]
  }

  /** The lists, the connections and the history after an erasure. */
  ghost predicate Cutting(s: State, k: Kind, i: nat, s': State) {
    && i < |L(s, k)|
    && L(s', k) == Cut(L(s, k), i)
    && (forall k' :: k' != k ==> L(s', k') == L(s, k'))
    && ConnsForget(s.conns, s'.conns, L(s, k)[i].id)
    && s'.past.book == s.past.book && s'.next.notif == s.next.notif && s'.next.pool == s.next.pool
    && ((s'.past.pulses == s.past.pulses + [L(s, k)[i].id] && s'.past.withdrawn == s.past.withdrawn)
        || (s'.past.pulses == s.past.pulses && s'.past.withdrawn == s.past.withdrawn + {L(s, k)[i].id}))
  }

  lemma EraseForgets(s: State, k: Kind, i: nat)
    requires i < |L(s, k)|
    ensures ConnsForget(s.conns, EraseAt(s, k, i).conns, L(s, k)[i].id)
  {
    hide Drop, Put, ConnsForget;
    DropConns(Put(s, k, L(s, k)[..i] + L(s, k)[i + 1..]), L(s, k)[i]);
  }

  lemma EraseCuts(s: State, k: Kind, i: nat, s': State)
    requires Erasing(s, k, i, s')
    ensures Cutting(s, k, i, s')
  {
    hide EraseAt, ConnsForget;
    var n := L(s, k)[i];
    if s' == EraseAt(Send(s, n.id), k, i) {
      EraseForgets(Send(s, n.id), k, i);
    } else {
      EraseForgets(Withdraw(s, n.id), k, i);
    }
  }

  lemma CutOrder(l: seq<Notification>, i: nat)
    requires i < |l| && NewestFirst(l)
    ensures NewestFirst(Cut(l, i))
    ensures forall m :: m in Cut(l, i) ==> m in l && m.id != l[i].id
    ensures forall m :: m in l && m.id != l[i].id ==> m in Cut(l, i)
  {
    var r := Cut(l, i);
    assert forall j :: 0 <= j < |r| ==> r[j] == l[if j < i then j else j + 1];
    forall m | m in l && m.id != l[i].id ensures m in r {
      var j :| 0 <= j < |l| && l[j] == m;
      assert r[if j < i then j else j - 1] == m;
    }
  }

  lemma CutListed(s: State, k: Kind, i: nat, s': State, k': Kind, m: Notification)
    requires Cutting(s, k, i, s') && Listed(s, k', m) && m.id != L(s, k)[i].id
    ensures Listed(s', k', m)
  {
  }

  lemma CutKeepsLists(s: State, k: Kind, i: nat, s': State)
    requires ListsOk(s) && Cutting(s, k, i, s')
    ensures ListsOk(s')
  {
    var n := L(s, k)[i];
    CutOrder(L(s, k), i);
    assert Listed(s, k, n);
    forall k', m | m in L(s', k') ensures Listed(s', k', m) {
      assert m in L(s, k');
      assert Listed(s, k', m);
      CutListed(s, k, i, s', k', m);
    }
    forall k' ensures NewestFirst(L(s', k')) {
      assert NewestFirst(L(s, k'));
    }
  }

  lemma CutKeepsPulses(s: State, k: Kind, i: nat, s': State)
    requires AllListed(s) && PulsesOk(s) && Cutting(s, k, i, s')
    ensures PulsesOk(s')
  {
    assert Listed(s, k, L(s, k)[i]);
  }

  lemma CutAccounted(s: State, k: Kind, i: nat, s': State, id: nat)
    requires NewestFirst(L(s, k)) && Cutting(s, k, i, s') && id in s.past.book && Accounted(s, id)
    ensures Accounted(s', id)
  {
    var k' := s.past.book[id].kind;
    if InList(s, k', id) && id != L(s, k)[i].id {
      var m :| m in L(s, k') && m.id == id;
      CutOrder(L(s, k), i);
      assert m in L(s', k');
    }
  }

  lemma CutKeepsBook(s: State, k: Kind, i: nat, s': State)
    requires BookOk(s) && Cutting(s, k, i, s')
    requires NewestFirst(L(s, k)) && L(s, k)[i].id in s.past.book
    ensures BookOk(s')
  {
    forall id | id in s'.past.book ensures 0 < id <= s'.next.notif && Accounted(s', id) {
      CutAccounted(s, k, i, s', id);
    }
  }

  lemma CutKeepsHosts(s: State, k: Kind, i: nat, s': State)
    requires HostsOk(s) && Cutting(s, k, i, s')
    ensures HostsOk(s')
  {
  }

  /** The pools after NotificationPoolEntry::detach. */
  ghost function Detached(pools: seq<Pool>, poolId: nat): seq<Pool> {
    var pos := PoolAt(pools, poolId);
    if pos < 0 then pools
    else if pools[pos].refCount <= 1 then Cut(pools, pos)
    else pools[pos := pools[pos].(refCount := pools[pos].refCount - 1)]
  }

  ghost predicate PoolOrder(pools: seq<Pool>) {
    forall i, j :: 0 <= i < j < |pools| ==> pools[i].id < pools[j].id && !SameTarget(pools[i].target, pools[j].target)
  }

  lemma DetachedOrder(pools: seq<Pool>, poolId: nat)
    requires PoolOrder(pools)
    ensures PoolOrder(Detached(pools, poolId))
  {
    var r := Detached(pools, poolId);
    var pos := PoolAt(pools, poolId);
    assert forall j :: 0 <= j < |r| ==>
      var q := pools[if pos < 0 || j < pos || |r| == |pools| then j else j + 1];
      r[j].id == q.id && r[j].target == q.target;
  }

  lemma CutMembers<T>(l: seq<T>, i: nat, x: T)
    requires i < |l| && forall j :: 0 <= j < |l| && j != i ==> l[j] != l[i]
    ensures x in Cut(l, i) <==> x in l && x != l[i]
  {
    var r := Cut(l, i);
    if x in l && x != l[i] {
      var j :| 0 <= j < |l| && l[j] == x;
      assert r[if j < i then j else j - 1] == x;
    }
    if x in r {
      var j :| 0 <= j < |r| && r[j] == x;
      assert l[if j < i then j else j + 1] == x;
    }
  }

  lemma UpdateMembers<T>(l: seq<T>, i: nat, y: T, x: T)
    requires i < |l| && forall j :: 0 <= j < |l| && j != i ==> l[j] != l[i]
    ensures x in l[i := y] <==> x == y || (x in l && x != l[i])
  {
    var r := l[i := y];
    assert r[i] == y;
    if x in l && x != l[i] {
      var j :| 0 <= j < |l| && l[j] == x;
      assert r[j] == x;
    }
  }

  /** Only the pool with the ID changes: it loses a reference, or it goes. */
  lemma DetachedMembers(pools: seq<Pool>, poolId: nat, p: Pool)
    requires PoolOrder(pools)
    ensures p.id != poolId ==> (p in pools <==> p in Detached(pools, poolId))
    ensures p.id == poolId ==> (p in Detached(pools, poolId) <==> p.refCount > 0 && p.(refCount := p.refCount + 1) in pools)
  {
    var pos := PoolAt(pools, poolId);
    if pos >= 0 {
      var q := pools[pos];
      assert forall x :: x in pools && x.id == poolId ==> x == q;
      if q.refCount <= 1 {
        CutMembers(pools, pos, p);
      } else {
        UpdateMembers(pools, pos, q.(refCount := q.refCount - 1), p);
      }
    }
  }

  /** What an erasure does to the pools and to the job queue. */
  ghost predicate Releasing(s: State, n: Notification, s': State) {
    && s'.link.connected == s.link.connected && s'.link.steady == s.link.steady && s'.link.granted == s.link.granted
    && s'.pools == (if n.poolId == 0 then s.pools else Detached(s.pools, n.poolId))
    && s.link.cleared <= s'.link.cleared
    && AllCookies(s'.link.outstanding) == AllCookies(s.link.outstanding)
    && (n.poolId != 0 && s.link.connected ==>
          forall p :: p in s.pools && p.id == n.poolId && p.refCount <= 1 && p.grant != INVALID ==> p.grant in s'.link.cleared)
  }

  lemma DetachReleases(s: State, poolId: nat)
    requires PoolOrder(s.pools)
    ensures var r := DetachPool(s, poolId);
            && r.pools == Detached(s.pools, poolId) && s.link.cleared <= r.link.cleared
            && AllCookies(r.link.outstanding) == AllCookies(s.link.outstanding)
            && (s.link.connected ==>
                  forall p :: p in s.pools && p.id == poolId && p.refCount <= 1 && p.grant != INVALID ==> p.grant in r.link.cleared)
  {
    hide AllCookies;
    var pos := PoolAt(s.pools, poolId);
    if pos >= 0 {
      assert forall p :: p in s.pools && p.id == poolId ==> p == s.pools[pos];
      hide PoolOrder;
      PushPlain(s.link.outstanding, ClearJob(s.pools[pos].grant));
    }
  }

  lemma DropReleases(s: State, n: Notification)
    requires PoolOrder(s.pools)
    ensures Releasing(s, n, Drop(s, n))
  {
    var s1 := if n.host.Some? then Forget(s, n.host.value, n.id) else s;
    if n.poolId != 0 {
      DetachReleases(s1, n.poolId);
    } else {
      PushPlain(s.link.outstanding, ClearJob(n.id));
    }
  }

  lemma EraseAtReleases(s: State, k: Kind, i: nat)
    requires i < |L(s, k)| && PoolOrder(s.pools)
    ensures Releasing(s, L(s, k)[i], EraseAt(s, k, i))
  {
    hide Drop, Put, AllCookies, Detached;
    DropReleases(Put(s, k, L(s, k)[..i] + L(s, k)[i + 1..]), L(s, k)[i]);
  }

  lemma EraseReleases(s: State, k: Kind, i: nat, s': State)
    requires Erasing(s, k, i, s') && PoolOrder(s.pools)
    ensures Releasing(s, L(s, k)[i], s')
  {
    hide EraseAt, AllCookies, Detached;
    EraseAtReleases(Send(s, L(s, k)[i].id), k, i);
    EraseAtReleases(Withdraw(s, L(s, k)[i].id), k, i);
  }

  lemma ReleaseSame(s: State, k: Kind, i: nat, s': State, p: Pool)
    requires Cutting(s, k, i, s') && PoolOk(s, p) && L(s, k)[i].poolId != p.id
    ensures PoolOk(s', p)
  {
    if k == Disconnect {
      CountCut(s.lists.disconnect, i, p.id);
    }
    assert L(s', Available) == s'.lists.available && L(s', Disconnect) == s'.lists.disconnect;
  }

  lemma ReleaseOne(s: State, k: Kind, i: nat, s': State, p: Pool)
    requires Cutting(s, k, i, s') && PoolOk(s, p) && L(s, k)[i].poolId == p.id
    requires k == Available || k == Disconnect
    ensures p.refCount > 1 ==> k == Disconnect && PoolOk(s', p.(refCount := p.refCount - 1))
    ensures p.refCount <= 1 ==> forall n :: n in s'.lists.disconnect ==> n.poolId != p.id
  {
    var n := L(s, k)[i];
    assert L(s', Available) == s'.lists.available && L(s', Disconnect) == s'.lists.disconnect;
    assert n in L(s, k);
    if k == Disconnect {
      CountCut(s.lists.disconnect, i, p.id);
      CountZero(s'.lists.disconnect, p.id);
    } else {
      assert p.target.Connecting?;
    }
  }

  lemma CutKeepsPools(s: State, k: Kind, i: nat, s': State)
    requires PoolsOk(s) && Cutting(s, k, i, s') && Releasing(s, L(s, k)[i], s')
    requires Listed(s, k, L(s, k)[i])
    ensures PoolsOk(s')
  {
    var n := L(s, k)[i];
    DetachedOrder(s.pools, n.poolId);
    forall p | p in s'.pools ensures PoolOk(s', p) {
      if n.poolId != 0 { DetachedMembers(s.pools, n.poolId, p); }
      if p.id != n.poolId {
        ReleaseSame(s, k, i, s', p);
      } else {
        ReleaseOne(s, k, i, s', p.(refCount := p.refCount + 1));
      }
    }
  }

  /** A watcher that stays keeps the live pool behind it. */
  lemma CutKeepsBacked(s: State, k: Kind, i: nat, s': State, m: Notification)
    requires PoolsOk(s) && Cutting(s, k, i, s') && Releasing(s, L(s, k)[i], s')
    requires Listed(s, k, L(s, k)[i])
    requires m in s'.lists.disconnect && Backed(s.pools, m)
    ensures Backed(s'.pools, m)
  {
    var n := L(s, k)[i];
    assert n.poolId != 0 ==> k == Available || k == Disconnect;
    var p :| p in s.pools && p.id == m.poolId && p.target.Monitor? && p.target.server.local == m.party.local;
    assert PoolOk(s, p) && PoolOrder(s.pools) && p.id > 0;
    assert s'.pools == (if n.poolId == 0 then s.pools else Detached(s.pools, n.poolId));
    hide Cutting, Releasing, PoolOk, PoolsOk, Listed, Detached;
    if p.id == n.poolId {
      ReleaseOne(s, k, i, s', p);
      DetachedMembers(s.pools, n.poolId, p.(refCount := p.refCount - 1));
      assert p.(refCount := p.refCount - 1) in s'.pools;
    } else {
      if n.poolId != 0 { DetachedMembers(s.pools, n.poolId, p); }
      assert p in s'.pools;
    }
  }

  lemma CutStored(s: State, n: Notification, s': State, g: nat)
    requires PoolOrder(s.pools) && Releasing(s, n, s') && Stored(s.pools, g) && s.link.connected && g != INVALID
    ensures g in s'.link.cleared || Stored(s'.pools, g)
  {
    var p :| p in s.pools && p.grant == g;
    if n.poolId == 0 {
    } else if p.id != n.poolId {
      DetachedMembers(s.pools, n.poolId, p);
      assert p in s'.pools;
    } else if p.refCount > 1 {
      DetachedMembers(s.pools, n.poolId, p.(refCount := p.refCount - 1));
      assert p.(refCount := p.refCount - 1) in s'.pools;
    }
  }

  lemma CutKeepsGrants(s: State, n: Notification, s': State)
    requires PoolOrder(s.pools) && CookiesOk(s) && NoLeak(s) && Releasing(s, n, s') && s'.next.pool == s.next.pool
    ensures CookiesOk(s') && NoLeak(s')
  {
    forall p | p in s'.pools && p.id in AllCookies(s'.link.outstanding) ensures p.grant == INVALID {
      if n.poolId != 0 { DetachedMembers(s.pools, n.poolId, p); }
    }
    forall g | s.link.steady && g in s.link.granted ensures g != INVALID && (g in s'.link.cleared || Stored(s'.pools, g)) {
      if g !in s.link.cleared { CutStored(s, n, s', g); }
    }
  }
}
