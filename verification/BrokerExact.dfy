/** What single passes do exactly, and where the code falls short of its intent. */
module BrokerExact {
  import opened BrokerTypes
  import opened ServerTable
  import opened BrokerSpec
  import opened BrokerInv
  import opened BrokerSweep
  import opened BrokerMoves
  import opened BrokerPools
  import opened BrokerHandlers
  import opened BrokerRequests
  import opened BrokerClose
  import opened BrokerTheorems

  // ---------------------------------------------------------------- a pass over a list, exactly

  /** The list a trigger pass leaves, in one line per entry: what fires goes, what may not
      be pulsed is made inactive, the rest stays, in order. */
  ghost function Left(cfg: Config, servers: seq<Server>, r: Rule, l: seq<Notification>): seq<Notification>
    requires !r.Withdrawal?
  {
    if l == [] then [] else
    var rest := Left(cfg, servers, r, l[1..]);
    match Decide(cfg, servers, map[], r, l[0])
    case Keep => [l[0]] + rest
    case Silence => [l[0].(active := false)] + rest
    case _ => rest
  }

  /** The pulses it sends, in order. */
  ghost function Sent(cfg: Config, servers: seq<Server>, r: Rule, l: seq<Notification>): seq<nat>
    requires !r.Withdrawal?
  {
    if l == [] then []
    else (if Decide(cfg, servers, map[], r, l[0]) == Fire then [l[0].id] else []) + Sent(cfg, servers, r, l[1..])
  }

  /** Although it erases while it iterates, and each erasure runs a destructor, a trigger
      pass visits every entry exactly once and in order. */
  lemma {:induction false} SweepExact(cfg: Config, s: State, k: Kind, r: Rule, i: nat)
    requires i <= |L(s, k)| && !r.Withdrawal?
    ensures var s' := Sweep(cfg, s, k, r, i);
            && L(s', k) == L(s, k)[..i] + Left(cfg, s.servers, r, L(s, k)[i..])
            && s'.past.pulses == s.past.pulses + Sent(cfg, s.servers, r, L(s, k)[i..])
            && s'.past.withdrawn == s.past.withdrawn
    decreases |L(s, k)| - i
  {
    var l := L(s, k);
    if i == |l| {
      assert l[i..] == [] && l[..i] == l;
    } else {
      hide Turn, Act, Decide, Erases, Left, Sent, L;
      TurnExact(cfg, s, k, r, i);
      LeftStep(cfg, s.servers, r, l, i);
      var s1 := Turn(cfg, s, k, r, i);
      var n, a := l[i], Act(cfg, s, r, l[i]);
      var kept := if a == Keep then [n] else if a == Silence then [n.(active := false)] else [];
      var sent := if a == Fire then [n.id] else [];
      var i' := if Erases(a) then i else i + 1;
      assert L(s1, k)[..i'] == l[..i] + kept && L(s1, k)[i'..] == l[i + 1..] by {
        ErasesIs(a);
        if Erases(a) { CutSplit(l, i); } else { SetSplit(l, i, kept[0]); }
      }
      SweepExact(cfg, s1, k, r, i');
      Join3(l[..i], kept, Left(cfg, s.servers, r, l[i + 1..]));
      Join3(s.past.pulses, sent, Sent(cfg, s.servers, r, l[i + 1..]));
    }
  }

  lemma Join3<T>(a: seq<T>, b: seq<T>, c: seq<T>)
    ensures a + b + c == a + (b + c)
  {}

  lemma CutSplit<T>(l: seq<T>, i: nat)
    requires i < |l|
    ensures (l[..i] + l[i + 1..])[..i] == l[..i] && (l[..i] + l[i + 1..])[i..] == l[i + 1..]
  {}

  lemma SetSplit<T>(l: seq<T>, i: nat, x: T)
    requires i < |l|
    ensures l[i := x][..i + 1] == l[..i] + [x] && l[i := x][i + 1..] == l[i + 1..]
  {}

  lemma LeftStep(cfg: Config, servers: seq<Server>, r: Rule, l: seq<Notification>, i: nat)
    requires i < |l| && !r.Withdrawal?
    ensures var a := Decide(cfg, servers, map[], r, l[i]);
            && Left(cfg, servers, r, l[i..])
                 == (if a == Keep then [l[i]] else if a == Silence then [l[i].(active := false)] else []) + Left(cfg, servers, r, l[i + 1..])
            && Sent(cfg, servers, r, l[i..]) == (if a == Fire then [l[i].id] else []) + Sent(cfg, servers, r, l[i + 1..])
  {
    hide Decide;
    assert l[i..][0] == l[i] && l[i..][1..] == l[i + 1..];
  }

  lemma ErasesIs(a: Action)
    ensures Erases(a) <==> a == Fire || a == Discard
  {}

  lemma TurnExact(cfg: Config, s: State, k: Kind, r: Rule, i: nat)
    requires i < |L(s, k)| && !r.Withdrawal?
    ensures var s1 := Turn(cfg, s, k, r, i);
            var n := L(s, k)[i];
            var a := Act(cfg, s, r, n);
            && a == Decide(cfg, s.servers, map[], r, n) && a != Discard
            && s1.servers == s.servers && s1.past.withdrawn == s.past.withdrawn
            && s1.past.pulses == s.past.pulses + (if a == Fire then [n.id] else [])
            && L(s1, k) == (if a == Fire then L(s, k)[..i] + L(s, k)[i + 1..] else L(s, k)[i := if a == Silence then n.(active := false) else n])
  {
    hide EraseAt;
    assert L(s, k)[i := L(s, k)[i]] == L(s, k);
  }

  /** Woken or silenced: a new server deals with every waiting client that accepts it. It
      is pulsed and forgotten if it may know about the server, else made inactive and kept. */
  lemma WokenOrSilenced(cfg: Config, s: State, c: nat, e: Server, n: Notification)
    requires c in s.conns && n in s.lists.available && n.active && Accepts(n.iface, e.iface)
    ensures var s' := Announce(cfg, s, c, e);
            if MayPulse(cfg, e.grpid, n.uid) then n.id in s'.past.pulses else n.(active := false) in s'.lists.available
  {
    var s1 := Enter(s, c, e);
    var r := ByOffer(e.iface, e.grpid);
    hide Sweep;
    SweepExact(cfg, s1, Available, r, 0);
    assert L(s1, Available)[0..] == s.lists.available;
    LeftOrSent(cfg, s1.servers, r, s.lists.available, n);
  }

  lemma {:induction false} LeftOrSent(cfg: Config, servers: seq<Server>, r: Rule, l: seq<Notification>, n: Notification)
    requires !r.Withdrawal? && n in l
    ensures Decide(cfg, servers, map[], r, n) == Fire ==> n.id in Sent(cfg, servers, r, l)
    ensures Decide(cfg, servers, map[], r, n) == Silence ==> n.(active := false) in Left(cfg, servers, r, l)
  {
    hide Decide;
    if n != l[0] { LeftOrSent(cfg, servers, r, l[1..], n); }
  }

  // ---------------------------------------------------------------- forwarding once

  lemma {:induction false} MarkedAreForwarded(cfg: Config, l: seq<Server>)
    ensures Unforwarded(cfg, MarkPending(cfg, l)) == []
  {
    if l != [] {
      MarkedAreForwarded(cfg, l[1..]);
      assert MarkPending(cfg, l)[1..] == MarkPending(cfg, l[1..]);
    }
  }

  /** The registration batches: every server that is new, not local and may be forwarded,
      once and in list order, in batches of 1 to 32 of which only the last is short; and a
      second call sends nothing. */
  lemma RegistrationBatches(cfg: Config, s: State)
    requires s.link.connected
    ensures var s' := RegisterMaster(cfg, s);
            var batches := Chunks(Unforwarded(cfg, s.servers));
            && s'.link.outstanding == s.link.outstanding + RegisterJobs(batches)
            && Flatten(batches) == Unforwarded(cfg, s.servers)
            && (forall b :: b in batches ==> 0 < |b| <= MAX_MULTIPLE)
            && (forall i :: 0 <= i < |batches| - 1 ==> |batches[i]| == MAX_MULTIPLE)
            && RegisterMaster(cfg, s') == s'
  {
    var s' := RegisterMaster(cfg, s);
    ChunksPartition(Unforwarded(cfg, s.servers));
    MarkedAreForwarded(cfg, s.servers);
    assert MarkPending(cfg, s'.servers) == s'.servers;
    assert RegisterJobs(Chunks<Server>([])) == [];
    assert s'.link.outstanding + [] == s'.link.outstanding;
  }

  ghost predicate PoolsPositive(s: State) {
    s.next.pool > 0 && forall p :: p in s.pools ==> p.id > 0
  }

  lemma {:induction false} AllPooled(cfg: Config, s: State, i: nat)
    requires i <= |s.lists.available| && PoolsPositive(s)
    requires forall j :: 0 <= j < i ==> !NeedsPool(cfg, s.lists.available[j])
    ensures var s' := PoolAll(cfg, s, i).0;
            && PoolsPositive(s') && |s'.lists.available| == |s.lists.available|
            && forall j :: 0 <= j < |s'.lists.available| ==> !NeedsPool(cfg, s'.lists.available[j])
    decreases |s.lists.available| - i
  {
    if i < |s.lists.available| {
      hide TargetAt;
      var s1 := PoolOne(cfg, s, i).0;
      assert PoolsPositive(s1) && forall j :: 0 <= j <= i ==> !NeedsPool(cfg, s1.lists.available[j]);
      AllPooled(cfg, s1, i + 1);
    }
  }

  lemma {:induction false} NoneToPool(cfg: Config, s: State, i: nat)
    requires i <= |s.lists.available| && forall j :: 0 <= j < |s.lists.available| ==> !NeedsPool(cfg, s.lists.available[j])
    ensures PoolAll(cfg, s, i) == (s, [])
    decreases |s.lists.available| - i
  {
    if i < |s.lists.available| {
      var none: seq<(nat, Iface)> := [];
      assert PoolOne(cfg, s, i) == (s, none) && none + none == none;
      NoneToPool(cfg, s, i + 1);
    }
  }

  /** The notification batches: every new pool is announced in exactly one place, in batches
      of 1 to 32 of which only the last is short; no two pools stand for the same interface;
      and a second call sends nothing. */
  lemma NotificationBatches(cfg: Config, s: State)
    requires Inv(cfg, s) && s.link.connected
    ensures var s' := ForwardAvailable(cfg, s);
            var items := PoolAll(cfg, s, 0).1;
            && s'.link.outstanding == s.link.outstanding + AvailableJobs(Chunks(items))
            && Flatten(Chunks(items)) == items
            && (forall b :: b in Chunks(items) ==> 0 < |b| <= MAX_MULTIPLE)
            && (forall i :: 0 <= i < |Chunks(items)| - 1 ==> |Chunks(items)[i]| == MAX_MULTIPLE)
            && s'.pools == s.pools + Blank(s.next.pool, items)
            && (forall j :: 0 <= j < |items| ==> items[j].0 == s.next.pool + j)
            && (forall i, j :: 0 <= i < j < |s'.pools| ==> !SameTarget(s'.pools[i].target, s'.pools[j].target))
            && ForwardAvailable(cfg, s') == s'
  {
    hide NoLostWakeup, WatchersSound, ServersOk, ClientsOk;
    var (s1, items) := PoolAll(cfg, s, 0);
    var s' := ForwardAvailable(cfg, s);
    PoolAllKeeps(cfg, s, 0);
    ForwardKeeps(cfg, s);
    assert PoolsPositive(s) && PoolOrder(s'.pools) by { PoolParts(s); PoolParts(s'); }
    hide Core, Chunks, PoolAll;
    ChunksPartition(items);
    AllPooled(cfg, s, 0);
    NoneToPool(cfg, s', 0);
    NoBatches();
    assert s'.link.outstanding + [] == s'.link.outstanding;
  }

  lemma NoBatches()
    ensures AvailableJobs(Chunks<(nat, Iface)>([])) == []
  {}

  lemma PoolParts(s: State)
    requires Core(s)
    ensures PoolsPositive(s) && PoolOrder(s.pools)
  {
    assert forall p :: p in s.pools ==> PoolOk(s, p);
  }

  // ---------------------------------------------------------------- closing touches nobody else

  lemma SpareStep(cfg: Config, s: State, k': Kind, r: Rule, k: Kind, n: Notification, s': State)
    requires Core(s) && n in L(s, k) && !r.ByOffer? && s' == Sweep(cfg, s, k', r, 0)
    requires k != k' || Act(cfg, s, r, n) == Keep
    ensures Core(s') && n in L(s', k) && s'.past.book == s.past.book
  {
    hide Core, Sweep, Act, Settled, KeepsBacked;
    SweepKeeps(cfg, s, k', r, 0);
  }

  lemma NotWithdrawn(cfg: Config, s: State, c: nat, n: Notification)
    requires Core(s) && n.id in s.past.book && s.past.book[n.id].conn != c
    ensures Act(cfg, s, Withdrawal(c), n) == Keep
  {
  }

  lemma WithdrawSpares(cfg: Config, s: State, c: nat, k: Kind, n: Notification)
    requires Core(s) && n in L(s, k) && n.id in s.past.book && s.past.book[n.id].conn != c
    ensures n in L(WithdrawAll(cfg, s, c), k)
  {
    hide Core, Sweep, Act;
    var s1 := Sweep(cfg, s, Disconnect, Withdrawal(c), 0);
    var s2 := Sweep(cfg, s1, Detach, Withdrawal(c), 0);
    var s3 := Sweep(cfg, s2, Available, Withdrawal(c), 0);
    var s4 := Sweep(cfg, s3, ListChange, Withdrawal(c), 0);
    NotWithdrawn(cfg, s, c, n);
    SpareStep(cfg, s, Disconnect, Withdrawal(c), k, n, s1);
    NotWithdrawn(cfg, s1, c, n);
    SpareStep(cfg, s1, Detach, Withdrawal(c), k, n, s2);
    NotWithdrawn(cfg, s2, c, n);
    SpareStep(cfg, s2, Available, Withdrawal(c), k, n, s3);
    NotWithdrawn(cfg, s3, c, n);
    SpareStep(cfg, s3, ListChange, Withdrawal(c), k, n, s4);
  }

  /** Close spares the others: a notification of another connection stays listed unless it
      waited for the end of one of the closing connection's own servers or clients. */
  lemma CloseSparesOthers(cfg: Config, es: seq<Event>, c: nat, k: Kind, n: Notification)
    requires IsRun(cfg, es) && c in After(cfg, es).conns
    requires n in L(After(cfg, es), k) && n.id in After(cfg, es).past.book && After(cfg, es).past.book[n.id].conn != c
    requires k == Disconnect ==> n.party !in After(cfg, es).conns[c].servers
    requires k == Detach ==> n.party !in After(cfg, es).conns[c].clients
    ensures n in L(Close(cfg, After(cfg, es), c), k)
  {
    RunKeepsInv(cfg, es);
    CloseSpares(cfg, After(cfg, es), c, k, n);
  }

  lemma CloseSpares(cfg: Config, s: State, c: nat, k: Kind, n: Notification)
    requires Inv(cfg, s) && c in s.conns
    requires n in L(s, k) && n.id in s.past.book && s.past.book[n.id].conn != c
    requires k == Disconnect ==> n.party !in s.conns[c].servers
    requires k == Detach ==> n.party !in s.conns[c].clients
    ensures n in L(Close(cfg, s, c), k)
  {
    var me := s.conns[c];
    var s1 := CloseClients(CloseServers(s, me.servers), me.clients);
    var s2 := Sweep(cfg, s1, Disconnect, ByParties(me.servers), 0);
    var s3 := Sweep(cfg, s2, Detach, ByParties(me.clients), 0);
    hide CloseClients, CloseServers, Sweep, WithdrawAll, Inv, Core, Act;
    CloseBefore(cfg, s, c, k);
    PartiesSpare(cfg, s1, s2, me, k, n);
    SpareStep(cfg, s1, Disconnect, ByParties(me.servers), k, n, s2);
    SpareStep(cfg, s2, Detach, ByParties(me.clients), k, n, s3);
    WithdrawSpares(cfg, s3, c, k, n);
    assert L(Close(cfg, s, c), k) == L(WithdrawAll(cfg, s3, c), k);
  }

  lemma PartiesSpare(cfg: Config, s1: State, s2: State, me: Conn, k: Kind, n: Notification)
    requires k == Disconnect ==> n.party !in me.servers
    requires k == Detach ==> n.party !in me.clients
    ensures k != Disconnect || Act(cfg, s1, ByParties(me.servers), n) == Keep
    ensures k != Detach || Act(cfg, s2, ByParties(me.clients), n) == Keep
  {
  }

  lemma CloseBefore(cfg: Config, s: State, c: nat, k: Kind)
    requires Inv(cfg, s) && c in s.conns
    ensures var s1 := CloseClients(CloseServers(s, s.conns[c].servers), s.conns[c].clients);
            L(s1, k) == L(s, k) && s1.past == s.past && Core(s1)
  {
    CloseDeparts(cfg, s, s.conns[c].servers, s.conns[c].clients);
    hide CloseClients, CloseServers, Core, NoLostWakeup, WatchersSound, ServersOk, ClientsOk;
    hide AllCookies, Descending, DistinctIds, DistinctClients;
    PlainKeepsCore(s, CloseClients(CloseServers(s, s.conns[c].servers), s.conns[c].clients));
  }

  // ---------------------------------------------------------------- clients found by their local ID

  ghost predicate Attached(s: State, id: PartyId) {
    exists x :: x in s.clients && x.id.local == id.local
  }

  /** A destructor queues clear jobs and no others. */
  ghost predicate OnlyClears(js: seq<Job>, js': seq<Job>) {
    forall j :: j in js' && j !in js ==> j.ClearJob?
  }

  lemma EraseJobs(s: State, k: Kind, i: nat)
    requires i < |L(s, k)|
    ensures OnlyClears(s.link.outstanding, EraseAt(s, k, i).link.outstanding)
    ensures forall j :: j in s.link.outstanding ==> j in EraseAt(s, k, i).link.outstanding
  {
    hide Put, StdRemove, PoolAt;
  }

  lemma {:induction false} SweepJobs(cfg: Config, s: State, k: Kind, r: Rule, i: nat)
    requires i <= |L(s, k)|
    ensures OnlyClears(s.link.outstanding, Sweep(cfg, s, k, r, i).link.outstanding)
    ensures forall j :: j in s.link.outstanding ==> j in Sweep(cfg, s, k, r, i).link.outstanding
    decreases |L(s, k)| - i
  {
    if i < |L(s, k)| {
      var n := L(s, k)[i];
      var s1 := Turn(cfg, s, k, r, i);
      assert OnlyClears(s.link.outstanding, s1.link.outstanding) && forall j :: j in s.link.outstanding ==> j in s1.link.outstanding by {
        hide EraseAt, Put;
        match Act(cfg, s, r, n)
        case Fire => EraseJobs(Send(s, n.id), k, i);
        case Discard => EraseJobs(Withdraw(s, n.id), k, i);
        case _ =>
      }
      hide Turn, Act;
      SweepJobs(cfg, s1, k, r, if Erases(Act(cfg, s, r, n)) then i else i + 1);
    }
  }

  /** Detaching a client that is attached at the master: the master is told exactly when the
      connection does not list it, or no client attached here shares its local ID. */
  lemma DetachReachesMasterIff(cfg: Config, s: State, c: nat, id: PartyId)
    requires c in s.conns && s.link.connected && DetachJob(id) !in s.link.outstanding
    ensures DetachJob(id) in DetachClient(cfg, s, c, id).link.outstanding <==> !(id in s.conns[c].clients && Attached(s, id))
  {
    ClientAtNone(s.clients, id);
    hide ClientAt, Sweep, RemoveClient, SetRemove;
    SweepJobs(cfg, s, Detach, ByParty(id), 0);
  }

  /** Waiting for a client's end when the master is not asked: the answer comes at once exactly
      when no client attached here shares the local ID. */
  lemma DetachPulsedIff(cfg: Config, s: State, c: nat, id: PartyId, reached: bool)
    requires Inv(cfg, s) && c in s.conns && (s.conns[c].slave ==> reached) && !(s.link.connected && id.ext != cfg.ext)
    ensures s.next.notif + 1 in NotifyDetach(cfg, s, c, id, reached).past.pulses <==> !Attached(s, id)
  {
    NewIdUnpulsed(cfg, s);
    hide Inv;
    ClientAtNone(s.clients, id);
    var n := BLANK.(host := Some(c), party := id);
    var s1 := AddNotif(s, Detach, c, n);
    hide ClientAt, Sweep;
    SweepExact(cfg, s1, Detach, ByParty(id), 0);
    var m := n.(id := s.next.notif + 1);
    assert L(s1, Detach)[0] == m && L(s1, Detach)[0..] == L(s1, Detach) && m in L(s1, Detach);
    LeftOrSent(cfg, s1.servers, ByParty(id), L(s1, Detach), m);
  }

  lemma NewIdUnpulsed(cfg: Config, s: State)
    requires Inv(cfg, s)
    ensures s.next.notif + 1 !in s.past.pulses
  {
    hide ListsOk, HostsOk, PoolsOk, CookiesOk, NoLeak, NoLostWakeup, WatchersSound, ServersOk, ClientsOk;
  }
}
