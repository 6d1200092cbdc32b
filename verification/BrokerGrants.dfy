/** What becomes of the IDs the master grants to client and list notifications. */
module BrokerGrants {
  import opened BrokerTypes
  import opened ServerTable
  import opened BrokerSpec
  import opened BrokerInv
  import opened BrokerRest
  import opened BrokerClose
  import opened BrokerCalm
  import opened BrokerTheorems
  import opened BrokerWatch

  /** A listed notification was granted the ID and will hand it back under its own ID. */
  ghost predicate Minds(l: seq<Notification>, g: nat) {
    exists n :: n in l && n.id == g && n.masterId == g
  }

  ghost predicate Minded(s: State, g: nat) {
    g != INVALID && exists k :: Answered(k) && Minds(L(s, k), g)
  }

  /** While the link holds, every ID lent out is with a listed notification. */
  ghost predicate NoneLost(s: State) {
    s.link.steady ==> s.link.connected && forall g :: g in s.link.lent ==> Minded(s, g)
  }

  function Notified(j: Job): nat
    requires j.WatchClientJob? || j.WatchListJob?
  {
    j.notif
  }

  /** An answer that grants the very ID the notification has here. */
  ghost predicate Echoes(s: State, e: Event) {
    Lends(s, e) && e.outcome.ids != [] ==> e.outcome.ids[0] == Notified(s.link.outstanding[0])
  }

  lemma CalmLosesNone(s: State, s': State)
    requires CalmLent(s, s') && NoneLost(s)
    ensures NoneLost(s')
  {
    if s'.link.steady {
      forall g | g in s'.link.lent ensures Minded(s', g) {
        assert Minded(s, g);
        var k :| Answered(k) && Minds(L(s, k), g);
        var n :| n in L(s, k) && n.id == g && n.masterId == g;
        assert Kept(L(s', k), n);
        assert Minds(L(s', k), g);
      }
    }
  }

  // ---------------------------------------------------------------- the steps that are not calm

  lemma JoinLoses(s: State, id: PartyId)
    requires Tagged(s) && s.lists.disconnect != []
    ensures CalmLent(s, JoinPool(s, id))
  {
    hide TargetAt;
    var s' := JoinPool(s, id);
    assert forall k :: Answered(k) ==> L(s', k) == L(s, k);
    forall k, n | n in L(s, k) ensures Kept(L(s, k), n) {}
  }

  lemma NotifyLoses(cfg: Config, s: State, c: nat, id: PartyId, reached: bool)
    requires Tagged(s) && c in s.conns
    ensures CalmLent(s, NotifyDisconnect(cfg, s, c, id, reached))
  {
    hide Sweep, Calm, CalmLent, Tagged, JoinPool, ScanId;
    var n := BLANK.(host := Some(c), party := id);
    var s1 := AddNotif(s, Disconnect, c, n);
    SameCalm(s, Skip(s));
    CalmIsPools(s, Skip(s));
    AddCalm(s, Disconnect, c, n);
    CalmIsPools(s, s1);
    CalmTagged(s, s1);
    assert s1.lists.disconnect != [];
    hide AddNotif;
    JoinLoses(s1, id);
    CalmLentTrans(s, s1, JoinPool(s1, id));
    ThenSweep(cfg, s, s1, Disconnect, ByParty(id));
    CalmIsPools(s, Sweep(cfg, s1, Disconnect, ByParty(id), 0));
  }

  lemma {:induction false} FoundAt(l: seq<Notification>, id: nat)
    ensures NotifAt(l, id, false) < 0 ==> forall n :: n in l ==> n.id != id
  {
    if l != [] { FoundAt(l[1..], id); }
  }

  /** Storing an echoed answer: the notification minds it, or it goes straight back. */
  lemma StoreLoses(s: State, k: Kind, notif: nat, genuine: bool)
    requires Answered(k) && NoneLost(s) && (genuine ==> notif != INVALID)
    ensures NoneLost(SetMasterId(s, k, notif, notif, genuine))
  {
    hide NotifAt;
    var s' := SetMasterId(s, k, notif, notif, genuine);
    var i := NotifAt(L(s, k), notif, false);
    if s'.link.steady {
      forall g | g in s'.link.lent ensures Minded(s', g) {
        if i >= 0 && g == notif && g != INVALID {
          assert L(s', k)[i] in L(s', k) && L(s', k)[i].id == g && L(s', k)[i].masterId == g;
          assert Minds(L(s', k), g);
        } else {
          assert g in s.link.lent;
          StillMinded(s, s', k, i, g);
        }
      }
    }
  }

  lemma StillMinded(s: State, s': State, k: Kind, i: int, g: nat)
    requires Minded(s, g) && Answered(k) && -1 <= i < |L(s, k)| && (forall k' :: k' != k ==> L(s', k') == L(s, k'))
    requires if i < 0 then L(s', k) == L(s, k) else L(s', k) == L(s, k)[i := L(s, k)[i].(masterId := L(s, k)[i].id)]
    ensures Minded(s', g)
  {
    var k' :| Answered(k') && Minds(L(s, k'), g);
    var n :| n in L(s, k') && n.id == g && n.masterId == g;
    if k' == k && i >= 0 {
      var j :| 0 <= j < |L(s, k)| && L(s, k)[j] == n;
      assert L(s', k)[j] in L(s', k) && L(s', k)[j].id == g && L(s', k)[j].masterId == g;
    }
    assert Minds(L(s', k'), g);
  }

  lemma AnswerLoses(s: State, o: Outcome)
    requires NoneLost(s) && s.link.outstanding != [] && Fits(s.link.outstanding[0], o)
    requires Lends(s, EReport(o)) && Echoes(s, EReport(o))
    ensures NoneLost(Report(s, o))
  {
    hide SetMasterId;
    var s1 := s.(link := s.link.(outstanding := s.link.outstanding[1..]));
    assert NoneLost(s1) by {
      assert forall k :: L(s1, k) == L(s, k);
      forall g | g in s.link.lent && Minded(s, g) ensures Minded(s1, g) {
        var k :| Answered(k) && Minds(L(s, k), g);
        assert Minds(L(s1, k), g);
      }
    }
    hide NoneLost;
    match s.link.outstanding[0]
    case WatchClientJob(notif, _) => StoreLoses(s1, Detach, notif, o.genuine);
    case WatchListJob(notif) => StoreLoses(s1, ListChange, notif, o.genuine);
  }

  lemma ConnectedLoses(cfg: Config, s: State)
    requires Tagged(s)
    ensures NoneLost(MasterConnected(cfg, s))
  {
    var s1 := s.(link := s.link.(session := true, steady := s.link.connected, granted := {}, cleared := {}, lent := {}));
    assert Tagged(s1) by { assert forall k :: L(s1, k) == L(s, k); }
    assert NoneLost(s1);
    hide Calm, Tagged, RegisterMaster, ForwardAvailable, CalmLent, NoneLost;
    SameCalm(s1, s1);
    ThenRegister(cfg, s1, s1);
    ThenForward(cfg, s1, RegisterMaster(cfg, s1));
    CalmIsPools(s1, MasterConnected(cfg, s));
    CalmLosesNone(s1, MasterConnected(cfg, s));
  }

  lemma DisconnectedLoses(cfg: Config, s: State)
    requires Tagged(s)
    ensures NoneLost(MasterDisconnected(cfg, s))
  {
    var s1 := s.(servers := ClearMasterIds(s.servers), pools := [],
                 link := s.link.(session := false, steady := false, granted := {}, cleared := {}, lent := {}));
    assert Tagged(s1) by { assert forall k :: L(s1, k) == L(s, k); }
    assert NoneLost(s1);
    hide Calm, Tagged, Sweep, ClearMasterIds, ClearMasterNotification, CalmLent, NoneLost;
    SameCalm(s1, s1);
    ThenSweep(cfg, s1, s1, Disconnect, Absent);
    var s2 := Sweep(cfg, s1, Disconnect, Absent, 0);
    ThenSweep(cfg, s1, s2, Detach, NotLocal);
    var s3 := Sweep(cfg, s2, Detach, NotLocal, 0);
    ThenSame(s1, s3, MasterDisconnected(cfg, s));
    CalmIsPools(s1, MasterDisconnected(cfg, s));
    CalmLosesNone(s1, MasterDisconnected(cfg, s));
  }

  lemma LinkLoses(s: State, up: bool)
    requires NoneLost(s)
    ensures NoneLost(SetLink(s, up))
  {
    var s' := SetLink(s, up);
    assert forall k :: L(s', k) == L(s, k);
    if s'.link.steady {
      forall g | g in s'.link.lent ensures Minded(s', g) {
        assert Minded(s, g);
        var k :| Answered(k) && Minds(L(s, k), g);
        assert Minds(L(s', k), g);
      }
    }
  }

  lemma StepLosesNone(cfg: Config, s: State, e: Event)
    requires Inv(cfg, s) && Enabled(cfg, s, e) && Echoes(s, e) && NoneLost(s)
    ensures NoneLost(Step(cfg, s, e))
  {
    InvTagged(cfg, s);
    hide Inv, NoneLost, Tagged, PoolOrder;
    if Quiet(s, e) {
      hide Step;
      StepCalm(cfg, s, e);
      CalmIsPools(s, Step(cfg, s, e));
      hide Calm, CalmLent;
      CalmLosesNone(s, Step(cfg, s, e));
    } else if e.ENotifyDisconnect? {
      hide NotifyDisconnect;
      NotifyLoses(cfg, s, e.c, e.id, e.reached);
      CalmLosesNone(s, Step(cfg, s, e));
    } else if e.EMasterConnected? {
      hide MasterConnected;
      ConnectedLoses(cfg, s);
    } else if e.EMasterDisconnected? {
      hide MasterDisconnected;
      DisconnectedLoses(cfg, s);
    } else if e.ELink? {
      LinkLoses(s, e.up);
    } else {
      hide Report;
      AnswerLoses(s, e.outcome);
    }
  }

  // ---------------------------------------------------------------- whole runs

  ghost predicate AlwaysEchoed(cfg: Config, es: seq<Event>)
    requires IsRun(cfg, es)
    decreases |es|
  {
    es == [] || (AlwaysEchoed(cfg, es[..|es| - 1]) && Echoes(After(cfg, es[..|es| - 1]), es[|es| - 1]))
  }

  lemma {:induction false} RunLosesNone(cfg: Config, es: seq<Event>)
    requires IsRun(cfg, es) && AlwaysEchoed(cfg, es)
    ensures NoneLost(After(cfg, es))
  {
    hide Inv, Step, Enabled, NoneLost, Echoes;
    if es == [] {
      assert NoneLost(INITIAL) by { NothingLent(); }
    } else {
      RunLosesNone(cfg, es[..|es| - 1]);
      RunKeepsInv(cfg, es[..|es| - 1]);
      StepLosesNone(cfg, After(cfg, es[..|es| - 1]), es[|es| - 1]);
    }
  }

  lemma NothingLent()
    ensures NoneLost(INITIAL)
  {}

  /** In every run whose answers echo the notification's own ID, nothing the master granted
      is lost while the link holds: pools keep or clear what they were granted, and what was
      lent to a client or list notification is with that notification. */
  lemma EchoedGrantsKept(cfg: Config, es: seq<Event>)
    requires IsRun(cfg, es) && AlwaysEchoed(cfg, es) && After(cfg, es).link.steady
    ensures var s := After(cfg, es);
            && (forall g :: g in s.link.granted ==> g in s.link.cleared || exists p :: p in s.pools && p.grant == g)
            && (forall g :: g in s.link.lent ==> exists k, n :: (k == Detach || k == ListChange) && n in L(s, k) && n.masterId == g)
  {
    RunLosesNone(cfg, es);
    PoolsExactAndLeakFree(cfg, es);
    var s := After(cfg, es);
    hide After, IsRun, AlwaysEchoed;
    forall g | g in s.link.lent ensures exists k, n :: (k == Detach || k == ListChange) && n in L(s, k) && n.masterId == g {
      assert Minded(s, g);
      var k :| Answered(k) && Minds(L(s, k), g);
      var n :| n in L(s, k) && n.id == g && n.masterId == g;
    }
  }

  // ---------------------------------------------------------------- any other answer

  ghost predicate Holds(s: State, g: nat) {
    (exists k, n :: Answered(k) && n in L(s, k) && n.masterId == g) || exists p :: p in s.pools && p.grant == g
  }

  /** Lent out, and nobody left who could hand it back. */
  ghost predicate Lost(s: State, g: nat) {
    g in s.link.lent && !Holds(s, g)
  }

  /** Erasing the one notification that minds an ID. */
  lemma ErasedLent(s: State, k: Kind, i: nat)
    requires Answered(k) && i < |L(s, k)| && L(s, k)[i].poolId == 0 && L(s, k)[i].masterId != INVALID && s.link.connected
    ensures var s' := EraseAt(s, k, i);
            && s'.link.lent == s.link.lent - {L(s, k)[i].id} && s'.pools == s.pools
            && s'.link.outstanding == s.link.outstanding + [ClearJob(L(s, k)[i].id)]
  {
    hide Put, StdRemove;
  }

  lemma OnlyIndex(l: seq<Notification>, n: Notification)
    requires NewestFirst(l) && n in l
    ensures var i := NotifAt(l, n.id, false); i >= 0 && l[i] == n
  {
    FoundAt(l, n.id);
    var i := NotifAt(l, n.id, false);
    hide NotifAt;
    var j :| 0 <= j < |l| && l[j] == n;
  }

  lemma NotElsewhere(s: State, k: Kind, n: Notification, k': Kind)
    requires AllListed(s) && n in L(s, k) && k' != k
    ensures NotifAt(L(s, k'), n.id, false) < 0
  {
    hide NotifAt, L;
    assert Listed(s, k, n);
    forall m | m in L(s, k') ensures m.id != n.id { assert Listed(s, k', m); }
  }

  lemma InvLists(cfg: Config, s: State)
    requires Inv(cfg, s)
    ensures AllListed(s) && forall k :: NewestFirst(L(s, k))
  {
    hide BookOk, HostsOk, PulsesOk, PoolsOk, CookiesOk, NoLeak, NoLostWakeup, WatchersSound, ServersOk, ClientsOk, AllListed, NewestFirst;
  }

  /** The notification with a given ID, and where it is. */
  lemma OnlyAt(cfg: Config, s: State, k: Kind, n: Notification)
    requires Inv(cfg, s) && n in L(s, k)
    ensures var i := NotifAt(L(s, k), n.id, false); i >= 0 && L(s, k)[i] == n
    ensures forall k' :: k' != k ==> NotifAt(L(s, k'), n.id, false) < 0
    ensures n.id in s.past.book && s.past.book[n.id].conn in s.conns && n.id in s.conns[s.past.book[n.id].conn].notifs
  {
    InvLists(cfg, s);
    assert Listed(s, k, n);
    hide Inv, NotifAt, L, NewestFirst, AllListed;
    OnlyIndex(L(s, k), n);
    forall k' | k' != k ensures NotifAt(L(s, k'), n.id, false) < 0 { NotElsewhere(s, k, n, k'); }
  }

  ghost predicate Asks(j: Job, k: Kind, notif: nat) {
    (k == Detach && j.WatchClientJob? && j.notif == notif) || (k == ListChange && j.WatchListJob? && j.notif == notif)
  }

  /** The state right after the answer. */
  lemma AnswerStored(s: State, o: Outcome, k: Kind, i: nat)
    requires s.link.outstanding != [] && Fits(s.link.outstanding[0], o) && o.Done? && o.genuine
    requires i < |L(s, k)| && Asks(s.link.outstanding[0], k, L(s, k)[i].id) && i == NotifAt(L(s, k), L(s, k)[i].id, false)
    ensures var s1 := Report(s, o);
            && L(s1, k) == L(s, k)[i := L(s, k)[i].(masterId := o.ids[0])] && (forall k' :: k' != k ==> L(s1, k') == L(s, k'))
            && s1 == s.(lists := s1.lists, link := s.link.(outstanding := s.link.outstanding[1..], lent := s.link.lent + {o.ids[0]}))
  {
    hide NotifAt;
  }

  lemma {:induction false} SamePlace(l: seq<Notification>, i: nat, n: Notification, id: nat)
    requires i < |l| && n.id == l[i].id
    ensures NotifAt(l[i := n], id, false) == NotifAt(l, id, false)
  {
    if i > 0 {
      assert l[i := n][1..] == l[1..][i - 1 := n];
      SamePlace(l[1..], i - 1, n, id);
    } else {
      assert l[i := n][1..] == l[1..];
    }
  }

  lemma RemoveNone(t: State, k: Kind, id: nat)
    requires NotifAt(L(t, k), id, false) < 0
    ensures RemoveOne(t, k, id) == t
  {}

  lemma RemoveAt(t: State, k: Kind, id: nat, i: nat)
    requires i < |L(t, k)| && i == NotifAt(L(t, k), id, false)
    ensures RemoveOne(t, k, id) == EraseAt(Withdraw(t, id), k, i)
  {
    hide EraseAt, NotifAt;
  }

  lemma ListsAfterForget(s: State, c: nat, id: nat)
    ensures forall k :: L(Forget(s, c, id), k) == L(s, k) && L(Withdraw(Forget(s, c, id), id), k) == L(s, k)
    ensures var t := Withdraw(Forget(s, c, id), id); t.link == s.link && t.pools == s.pools
  {
    hide StdRemove;
  }

  /** Clearing removes the entry from its list and finds none in the others. */
  lemma ClearIsErase(s: State, c: nat, k: Kind, i: nat, id: nat)
    requires Answered(k) && i < |L(s, k)| && i == NotifAt(L(s, k), id, false)
    requires forall k' :: k' != k ==> NotifAt(L(s, k'), id, false) < 0
    requires c in s.conns && id in s.conns[c].notifs
    ensures i < |L(Withdraw(Forget(s, c, id), id), k)|
    ensures Clear(s, c, id) == EraseAt(Withdraw(Forget(s, c, id), id), k, i)
  {
    hide NotifAt, EraseAt, Forget, Withdraw, RemoveOne, L;
    ListsAfterForget(s, c, id);
    var s0 := Forget(s, c, id);
    var s' := EraseAt(Withdraw(s0, id), k, i);
    RemoveAt(s0, k, id, i);
    RemoveNone(s', Disconnect, id);
    RemoveNone(s', Available, id);
    if k == Detach {
      RemoveNone(s', ListChange, id);
    } else {
      RemoveNone(s0, Detach, id);
      RemoveNone(s0, Disconnect, id);
      RemoveNone(s0, Available, id);
    }
  }

  /** Clearing the notification afterwards. */
  lemma ClearedNow(s: State, c: nat, k: Kind, i: nat)
    requires Answered(k) && i < |L(s, k)| && L(s, k)[i].poolId == 0 && L(s, k)[i].masterId != INVALID && s.link.connected
    requires i == NotifAt(L(s, k), L(s, k)[i].id, false) && forall k' :: k' != k ==> NotifAt(L(s, k'), L(s, k)[i].id, false) < 0
    requires c in s.conns && L(s, k)[i].id in s.conns[c].notifs
    ensures var id := L(s, k)[i].id;
            var s' := Clear(s, c, id);
            && s'.link.lent == s.link.lent - {id} && s'.pools == s.pools && s'.link.steady == s.link.steady
            && s'.link.outstanding == s.link.outstanding + [ClearJob(id)]
            && L(s', k) == L(s, k)[..i] + L(s, k)[i + 1..] && (forall k' :: k' != k ==> L(s', k') == L(s, k'))
  {
    hide NotifAt, EraseAt, Forget, Withdraw, Clear, L;
    var id := L(s, k)[i].id;
    ListsAfterForget(s, c, id);
    ClearIsErase(s, c, k, i, id);
    ErasedLent(Withdraw(Forget(s, c, id), id), k, i);
  }

  /** Clearing a client or list notification right after the master's answer: the granted ID
      is lost exactly when it is not the notification's own. */
  lemma LossIff(cfg: Config, s: State, o: Outcome, k: Kind, n: Notification)
    requires Inv(cfg, s) && s.link.connected && s.link.outstanding != [] && Fits(s.link.outstanding[0], o)
    requires o.Done? && o.genuine && o.ids != [] && n in L(s, k) && Asks(s.link.outstanding[0], k, n.id) && !Holds(s, o.ids[0])
    ensures n.id in s.past.book && s.past.book[n.id].conn in Report(s, o).conns
    ensures var s2 := Clear(Report(s, o), s.past.book[n.id].conn, n.id);
            s2.link.steady == s.link.steady && (Lost(s2, o.ids[0]) <==> o.ids[0] != n.id)
  {
    hide Inv, Holds, NotifAt, Clear;
    OnlyAt(cfg, s, k, n);
    assert n.poolId == 0 by { InvTagged(cfg, s); }
    var i := NotifAt(L(s, k), n.id, false);
    var g := o.ids[0];
    AnswerStored(s, o, k, i);
    var s1 := Report(s, o);
    hide Report;
    SamePlace(L(s, k), i, L(s, k)[i].(masterId := g), n.id);
    hide NotifAt, Fits;
    assert L(s1, k)[i].masterId == g && L(s1, k)[i].id == n.id;
    var c := s.past.book[n.id].conn;
    ClearedNow(s1, c, k, i);
    var s2 := Clear(s1, c, n.id);
    hide Clear, Holds;
    NotHeldAfter(s, s2, k, i, g);
  }

  lemma NotHeldAfter(s: State, s': State, k: Kind, i: nat, g: nat)
    requires Answered(k) && i < |L(s, k)| && !Holds(s, g) && s'.pools == s.pools
    requires var l := L(s, k)[i := L(s, k)[i].(masterId := g)]; L(s', k) == l[..i] + l[i + 1..]
    requires forall k' :: k' != k ==> L(s', k') == L(s, k')
    ensures !Holds(s', g)
  {
    forall k', m | Answered(k') && m in L(s', k') ensures m.masterId != g {
      if k' == k { OtherKept(L(s, k), i, L(s, k)[i].(masterId := g), m); }
      assert m in L(s, k');
    }
  }

  lemma OtherKept(l: seq<Notification>, i: nat, n: Notification, m: Notification)
    requires i < |l| && m in l[i := n][..i] + l[i := n][i + 1..]
    ensures m in l
  {}

  /** The oldest job asks about a listed notification, and the master grants an ID that
      nobody here holds. */
  ghost predicate Grants(cfg: Config, s: State, o: Outcome, k: Kind, n: Notification) {
    && Enabled(cfg, s, EReport(o)) && s.link.steady && o.Done? && o.genuine
    && n in L(s, k) && Asks(s.link.outstanding[0], k, n.id) && !Holds(s, o.ids[0])
  }

  /** Over runs: any answer but the notification's own ID can be followed by a request of its
      owner after which the granted ID is lost, with the link still up. */
  lemma UnechoedGrantIsLost(cfg: Config, es: seq<Event>, o: Outcome, k: Kind, n: Notification)
    requires IsRun(cfg, es) && Grants(cfg, After(cfg, es), o, k, n)
    ensures n.id in After(cfg, es).past.book && o.ids != []
    ensures var es' := es + [EReport(o)] + [EClear(After(cfg, es).past.book[n.id].conn, n.id)];
            IsRun(cfg, es') && After(cfg, es').link.steady && (Lost(After(cfg, es'), o.ids[0]) <==> o.ids[0] != n.id)
  {
    hide After, IsRun, Inv, Holds, Lost, Report, Clear, Step, Enabled, Grants;
    RunKeepsInv(cfg, es);
    var s := After(cfg, es);
    GrantThenClear(cfg, s, o, k, n);
    var c := s.past.book[n.id].conn;
    var s1 := Step(cfg, s, EReport(o));
    OneMore(cfg, es, EReport(o), s, s1);
    OneMore(cfg, es + [EReport(o)], EClear(c, n.id), s1, Step(cfg, s1, EClear(c, n.id)));
  }

  lemma GrantThenClear(cfg: Config, s: State, o: Outcome, k: Kind, n: Notification)
    requires Inv(cfg, s) && Grants(cfg, s, o, k, n)
    ensures n.id in s.past.book && o.ids != [] && Enabled(cfg, s, EReport(o))
    ensures var c := s.past.book[n.id].conn;
            var s1 := Step(cfg, s, EReport(o));
            Enabled(cfg, s1, EClear(c, n.id)) && (var s2 := Step(cfg, s1, EClear(c, n.id));
            s2.link.steady && (Lost(s2, o.ids[0]) <==> o.ids[0] != n.id))
  {
    hide Inv, Holds, Lost, Report, Clear, Step, Enabled, Fits, Grants, Asks;
    GrantParts(cfg, s, o, k, n);
    SteadyConnected(cfg, s);
    LossIff(cfg, s, o, k, n);
    ThenCleared(cfg, s, o, s.past.book[n.id].conn, n.id);
  }

  lemma GrantParts(cfg: Config, s: State, o: Outcome, k: Kind, n: Notification)
    requires Grants(cfg, s, o, k, n)
    ensures Enabled(cfg, s, EReport(o)) && s.link.steady && s.link.outstanding != [] && Fits(s.link.outstanding[0], o)
    ensures o.Done? && o.genuine && o.ids != [] && n in L(s, k) && Asks(s.link.outstanding[0], k, n.id) && !Holds(s, o.ids[0])
  {
    hide Holds;
  }

  lemma ThenCleared(cfg: Config, s: State, o: Outcome, c: nat, id: nat)
    requires Enabled(cfg, s, EReport(o)) && c in Report(s, o).conns
    ensures Step(cfg, s, EReport(o)) == Report(s, o)
    ensures Enabled(cfg, Report(s, o), EClear(c, id)) && Step(cfg, Report(s, o), EClear(c, id)) == Clear(Report(s, o), c, id)
  {
    hide Report, Clear;
  }

  lemma SteadyConnected(cfg: Config, s: State)
    requires Inv(cfg, s) && s.link.steady
    ensures s.link.connected
  {
    hide ListsOk, BookOk, HostsOk, PulsesOk, PoolsOk, CookiesOk, NoLostWakeup, WatchersSound, ServersOk, ClientsOk;
  }

  // ---------------------------------------------------------------- such a loss

  const WANTED := BLANK.(id := 1)

  /** A client of the ready broker has asked for changes of the list. */
  lemma AskedForList(cfg: Config)
    ensures var s := NotifyList(cfg, Ready(), 1, None, true);
            && s.lists == Lists([], [], [], [WANTED]) && s.past.book == map[1 := Ticket(1, ListChange)]
            && s.link == Link(true, true, [WatchListJob(1)], {}, {}, {}, true) && s.pools == []
  {
  }

  lemma AskedGrants(cfg: Config, s: State)
    requires s.lists == Lists([], [], [], [WANTED]) && s.link == Link(true, true, [WatchListJob(1)], {}, {}, {}, true) && s.pools == []
    ensures Grants(cfg, s, Done([77], [], true), ListChange, WANTED)
  {
    assert L(s, ListChange) == [WANTED] && L(s, Detach) == [];
  }

  lemma AskedReached(cfg: Config)
    ensures var es := [EOpen(1, 0, 0), ELink(true), EMasterConnected] + [ENotifyList(1, None, true)];
            IsRun(cfg, es) && After(cfg, es) == NotifyList(cfg, Ready(), 1, None, true)
  {
    ReadyReached(cfg);
    hide IsRun, After, NotifyList;
    OneMore(cfg, [EOpen(1, 0, 0), ELink(true), EMasterConnected], ENotifyList(1, None, true),
            Ready(), NotifyList(cfg, Ready(), 1, None, true));
  }

  /** The master grants 77 and the client clears its notification 1: the run ends with the
      link up and 77 lost. */
  lemma GrantLost(cfg: Config)
    ensures var es := [EOpen(1, 0, 0), ELink(true), EMasterConnected] + [ENotifyList(1, None, true)]
                    + [EReport(Done([77], [], true))] + [EClear(1, 1)];
            IsRun(cfg, es) && After(cfg, es).link.steady && Lost(After(cfg, es), 77)
  {
    hide IsRun, After, NotifyList, Lost, Grants;
    var es := [EOpen(1, 0, 0), ELink(true), EMasterConnected] + [ENotifyList(1, None, true)];
    AskedReached(cfg);
    AskedForList(cfg);
    AskedGrants(cfg, After(cfg, es));
    UnechoedGrantIsLost(cfg, es, Done([77], [], true), ListChange, WANTED);
  }
}
