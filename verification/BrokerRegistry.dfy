/** What servers bring about: when they come, when they go, and when their connection closes. */
module BrokerRegistry {
  import opened BrokerTypes
  import opened ServerTable
  import opened BrokerSpec
  import opened BrokerInv
  import opened BrokerSweep
  import opened BrokerMoves
  import opened BrokerPools
  import opened BrokerHandlers
  import opened BrokerRequests
  import opened BrokerRest
  import opened BrokerClose
  import opened BrokerTheorems
  import opened BrokerExact
  import opened BrokerOwners
  import opened BrokerConsent
  import opened BrokerEffects

  // ---------------------------------------------------------------- list watchers

  /** Who hears of a change of the server list: everybody without an expression, and those whose
      expression matches the name of a server that comes. */
  ghost function Listening(cfg: Config, offer: Option<Iface>): Notification -> bool {
    (n: Notification) => n.active && (n.regex.None? || (offer.Some? && cfg.matches(n.regex.value, offer.value.name)))
  }

  lemma {:induction false} ListHears(cfg: Config, l: seq<Notification>, offer: Option<Iface>)
    ensures ListPulses(cfg, l, offer) == NotifIds(Those(l, Listening(cfg, offer)))
  {
    hide NotifIds;
    IdsJoin([], []);
    if l != [] {
      ListHears(cfg, l[1..], offer);
      IdsJoin(if Listening(cfg, offer)(l[0]) then [l[0]] else [], Those(l[1..], Listening(cfg, offer)));
    }
  }

  // ---------------------------------------------------------------- a server goes

  lemma StepUnregister(cfg: Config, s: State, c: nat, id: PartyId)
    requires c in s.conns
    ensures Step(cfg, s, EUnregister(c, id)) == Unregister(cfg, s, c, id)
  {
    hide Unregister;
  }

  /** The first server with an ID leaves the table. */
  ghost predicate FirstGone(l: seq<Server>, l': seq<Server>, e: Server) {
    exists i :: 0 <= i < |l| && l[i] == e && (forall j :: 0 <= j < i ==> l[j].id != e.id) && l' == l[..i] + l[i + 1..]
  }

  lemma {:induction false} RemovedAt(l: seq<Server>, id: PartyId) returns (i: nat)
    requires ScanId(l, id).Some?
    ensures i < |l| && l[i] == ScanId(l, id).value && l[i].id == id && (forall j :: 0 <= j < i ==> l[j].id != id)
    ensures Removed(l, id) == l[..i] + l[i + 1..]
  {
    if l[0].id == id {
      i := 0;
    } else {
      var k := RemovedAt(l[1..], id);
      i := k + 1;
      Behind(l, k);
      hide ScanId, Removed;
      forall j | 0 <= j < i ensures l[j].id != id { if j > 0 { assert l[j] == l[1..][j - 1]; } }
    }
  }

  lemma Behind(l: seq<Server>, k: nat)
    requires k + 1 < |l|
    ensures l[1..][k] == l[k + 1] && [l[0]] + (l[1..][..k] + l[1..][k + 1..]) == l[..k + 1] + l[k + 2..]
  {
  }

  lemma RemovedFirst(l: seq<Server>, id: PartyId)
    requires ScanId(l, id).Some?
    ensures FirstGone(l, Removed(l, id), ScanId(l, id).value)
  {
    var i := RemovedAt(l, id);
    hide Removed, ScanId;
  }

  /** Unregistering one of the connection's servers: everybody who watches it is pulsed and leaves
      the list, then everybody who watches the list is pulsed; the server goes with its clients;
      and the connected master, if it knows the server, is told. */
  lemma UnregisterWakes(cfg: Config, s: State, c: nat, id: PartyId)
    requires c in s.conns && id in s.conns[c].servers && exists e :: e in s.servers && e.id == id
    ensures var s' := Step(cfg, s, EUnregister(c, id));
            && s'.lists == s.lists.(disconnect := Others(s.lists.disconnect, Watching(id)))
            && s'.past.pulses == s.past.pulses + NotifIds(Those(s.lists.disconnect, Watching(id)))
                                               + NotifIds(Those(s.lists.listChange, Listening(cfg, None)))
            && s'.past.withdrawn == s.past.withdrawn && s'.next == s.next
            && (forall x :: x in s'.clients <==> x in s.clients && x.server != id)
            && s'.conns.Keys == s.conns.Keys
            && (forall d, x :: d in s.conns ==> (x in s'.conns[d].servers <==> x in s.conns[d].servers && (d == c ==> x != id)))
            && (exists e: Server :: e.id == id && FirstGone(s.servers, s'.servers, e) && Told(s, s', e))
  {
    StepUnregister(cfg, s, c, id);
    hide Step, Sweep, SetRemove, Those, Others, NotifIds, Removed, RemoveServerClients, ListPulses, FirstGone, Told, TablesStay;
    var s1 := s.(conns := s.conns[c := s.conns[c].(servers := SetRemove(s.conns[c].servers, id))]);
    var s2 := Sweep(cfg, s1, Disconnect, ByParty(id), 0);
    var e := ScanId(s.servers, id).value;
    hide ScanId;
    SetMembers(s.conns[c].servers, id);
    WatchFires(cfg, s1, Disconnect, id);
    OnlyList(s1, s2, Disconnect, Watching(id));
    assert L(s1, Disconnect) == s.lists.disconnect;
    assert TablesStay(s1, s2);
    UnregisterEnds(cfg, s, c, id, s1, s2, e);
  }

  /** The last job, if the master was told of the server. */
  ghost predicate Told(s: State, s': State, e: Server) {
    if 0 < e.masterId.ext < 0x8000_0000 && s.link.connected
    then s'.link.outstanding != [] && s'.link.outstanding[|s'.link.outstanding| - 1] == UnregisterJob(e.masterId)
    else forall j :: j in s'.link.outstanding && j !in s.link.outstanding ==> j.ClearJob?
  }

  lemma UnregisterEnds(cfg: Config, s: State, c: nat, id: PartyId, s1: State, s2: State, e: Server)
    requires c in s.conns && id in s.conns[c].servers && ScanId(s.servers, id) == Some(e)
    requires s1 == s.(conns := s.conns[c := s.conns[c].(servers := SetRemove(s.conns[c].servers, id))])
    requires s2 == Sweep(cfg, s1, Disconnect, ByParty(id), 0) && TablesStay(s1, s2)
    ensures var s' := Unregister(cfg, s, c, id);
            && s'.lists == s2.lists && s'.past.pulses == s2.past.pulses + NotifIds(Those(s2.lists.listChange, Listening(cfg, None)))
            && s'.past.withdrawn == s.past.withdrawn && s'.next == s.next
            && (forall x :: x in s'.clients <==> x in s.clients && x.server != id)
            && s'.conns.Keys == s.conns.Keys && (forall d :: d in s.conns ==> s'.conns[d].servers == s1.conns[d].servers)
            && e.id == id && FirstGone(s.servers, s'.servers, e) && Told(s, s', e)
  {
    SweepJobs(cfg, s1, Disconnect, ByParty(id), 0);
    assert e.id == id && FirstGone(s.servers, Removed(s.servers, id), e) by { RemovedFirst(s.servers, id); }
    ListHears(cfg, s2.lists.listChange, None);
    RetireLeaves(cfg, s2, e);
    hide Sweep, SetRemove, Those, NotifIds, Removed, FirstGone, ScanId, ListPulses, Retire, TriggerAll, Told, OnlyClears;
    RetireTells(cfg, s, s2, e);
    assert forall d :: d in s.conns ==> d in s1.conns;
  }

  lemma RetireLeaves(cfg: Config, s: State, e: Server)
    ensures var s' := TriggerAll(cfg, Retire(s, e), None);
            && s' == s.(servers := Removed(s.servers, e.id), clients := s'.clients, link := s'.link, past := s'.past)
            && s'.past == s.past.(pulses := s.past.pulses + ListPulses(cfg, s.lists.listChange, None))
            && (forall x :: x in s'.clients <==> x in s.clients && x.server != e.id)
  {
    KeptClients(s.clients, e.id);
    hide Removed, RemoveServerClients, ListPulses;
  }

  lemma RetireTells(cfg: Config, s: State, s2: State, e: Server)
    requires OnlyClears(s.link.outstanding, s2.link.outstanding) && s2.link.connected == s.link.connected
    ensures Told(s, TriggerAll(cfg, Retire(s2, e), None), e)
  {
    hide Removed, RemoveServerClients, ListPulses;
  }

  /** Nothing else can be unregistered. */
  lemma UnregisterForeign(cfg: Config, s: State, c: nat, id: PartyId)
    requires c in s.conns && id !in s.conns[c].servers
    ensures Step(cfg, s, EUnregister(c, id)) == s
  {
    StepUnregister(cfg, s, c, id);
    hide Step;
  }

  // ---------------------------------------------------------------- a server comes

  /** A waiting notification that a new server satisfies and that may know of it. */
  ghost function Greeted(cfg: Config, offer: Iface, grpid: int): Notification -> bool {
    (n: Notification) => n.active && Accepts(n.iface, offer) && (grpid == -1 || n.uid == 0 || cfg.inGroup(grpid, n.uid))
  }

  /** Whoever may know of the new server is pulsed and leaves; whoever may not stays and is silent
      for ever; the others stay. */
  ghost predicate Greets(cfg: Config, l: seq<Notification>, l': seq<Notification>, offer: Iface, grpid: int) {
    && (forall n :: n in l && !(n.active && Accepts(n.iface, offer)) ==> n in l')
    && (forall n :: n in l && n.active && Accepts(n.iface, offer) && !Greeted(cfg, offer, grpid)(n) ==> n.(active := false) in l')
    && (forall m :: m in l' ==>
          (m in l && !(m.active && Accepts(m.iface, offer)))
          || (!m.active && exists n :: n in l && n.active && m == n.(active := false) && Accepts(n.iface, offer) && !Greeted(cfg, offer, grpid)(n)))
  }

  lemma {:induction false} OfferLeft(cfg: Config, servers: seq<Server>, l: seq<Notification>, offer: Iface, grpid: int)
    ensures Greets(cfg, l, Left(cfg, servers, ByOffer(offer, grpid), l), offer, grpid)
  {
    if l != [] {
      var r := ByOffer(offer, grpid);
      OfferLeft(cfg, servers, l[1..], offer, grpid);
      OfferFirst(cfg, servers, l[0], offer, grpid);
      GreetsNext(cfg, l[0], l[1..], Left(cfg, servers, r, l[1..]), offer, grpid);
      hide Greets, Greeted, Accepts, Decide;
      assert [l[0]] + l[1..] == l;
    }
  }

  /** One more notification in front. */
  lemma GreetsNext(cfg: Config, n: Notification, l: seq<Notification>, rest: seq<Notification>, offer: Iface, grpid: int)
    requires Greets(cfg, l, rest, offer, grpid)
    ensures var first := if !(n.active && Accepts(n.iface, offer)) then [n]
                         else if Greeted(cfg, offer, grpid)(n) then [] else [n.(active := false)];
            Greets(cfg, [n] + l, first + rest, offer, grpid)
  {
    hide Accepts;
  }

  lemma OfferFirst(cfg: Config, servers: seq<Server>, n: Notification, offer: Iface, grpid: int)
    ensures Decide(cfg, servers, map[], ByOffer(offer, grpid), n)
         == if !(n.active && Accepts(n.iface, offer)) then Keep else if Greeted(cfg, offer, grpid)(n) then Fire else Silence
  {
  }

  lemma {:induction false} OfferSent(cfg: Config, servers: seq<Server>, l: seq<Notification>, offer: Iface, grpid: int)
    ensures Sent(cfg, servers, ByOffer(offer, grpid), l) == NotifIds(Those(l, Greeted(cfg, offer, grpid)))
  {
    hide NotifIds, Decide;
    IdsJoin([], []);
    if l != [] {
      OfferFirst(cfg, servers, l[0], offer, grpid);
      OfferSent(cfg, servers, l[1..], offer, grpid);
      IdsJoin(if Greeted(cfg, offer, grpid)(l[0]) then [l[0]] else [], Those(l[1..], Greeted(cfg, offer, grpid)));
    }
  }

  /** What a server that is let in does to those who wait: first the clients that wait for it, then
      those who watch the list. */
  ghost predicate Welcomed(cfg: Config, s: State, s': State, offer: Iface, grpid: int) {
    && Greets(cfg, s.lists.available, s'.lists.available, offer, grpid)
    && s'.lists == s.lists.(available := s'.lists.available)
    && s'.past.pulses == s.past.pulses + NotifIds(Those(s.lists.available, Greeted(cfg, offer, grpid)))
                                       + NotifIds(Those(s.lists.listChange, Listening(cfg, Some(offer))))
    && s'.past.withdrawn == s.past.withdrawn && s'.past.book == s.past.book && s'.clients == s.clients
  }

  lemma AnnounceWelcomes(cfg: Config, s: State, c: nat, e: Server)
    requires c in s.conns
    ensures var s' := Announce(cfg, s, c, e);
            && Welcomed(cfg, s, s', e.iface, e.grpid) && s'.next == s.next && s'.link.connected == s.link.connected
            && (forall x :: x in s'.servers <==> x == e || x in s.servers) && |s'.servers| == |s.servers| + 1
            && s'.conns.Keys == s.conns.Keys
            && (forall d, x :: d in s.conns ==> (x in s'.conns[d].servers <==> x in s.conns[d].servers || (d == c && x == e.id)))
  {
    var s1 := Enter(s, c, e);
    var r := ByOffer(e.iface, e.grpid);
    SetMembers(s.conns[c].servers, e.id);
    assert |s1.servers| == |s.servers| + 1;
    hide Sweep, Left, Sent, Inserted, SetInsert, Greets, Those, NotifIds, ListPulses;
    var s2 := Sweep(cfg, s1, Available, r, 0);
    SweepExact(cfg, s1, Available, r, 0);
    SweepTables(cfg, s1, Available, r, 0);
    assert L(s1, Available)[0..] == s.lists.available && L(s1, Available)[..0] == [];
    ListsOf(s1, s2);
    OfferLeft(cfg, s1.servers, s.lists.available, e.iface, e.grpid);
    OfferSent(cfg, s1.servers, s.lists.available, e.iface, e.grpid);
    ListHears(cfg, s.lists.listChange, Some(e.iface));
    assert [] + Left(cfg, s1.servers, r, s.lists.available) == Left(cfg, s1.servers, r, s.lists.available);
  }

  /** The new entry, which is pending at the master if it was forwarded to it. */
  ghost predicate Entered(s: State, s': State, e: Server) {
    && |s'.servers| == |s.servers| + 1
    && (exists x :: x in s'.servers && x == e.(masterId := x.masterId))
    && (forall y :: y in s.servers ==> exists x :: x in s'.servers && x == y.(masterId := x.masterId))
  }

  lemma StepRegister(cfg: Config, s: State, c: nat, iface: Iface, grpid: int)
    requires c in s.conns
    ensures Step(cfg, s, ERegister(c, iface, grpid)) == Register(cfg, s, c, iface, grpid)
  {
    hide Register;
  }

  /** A client of this node registers a server under a name that is free: the server enters the
      table under the next ID, the connection lists it, and the waiting clients are dealt with. */
  lemma RegisterEnters(cfg: Config, s: State, c: nat, iface: Iface, grpid: int)
    requires c in s.conns && Proper(iface) && (s.conns[c].node == 0 || s.conns[c].node == 0x7F00_0001)
    requires forall e :: e in s.servers ==> e.iface.name != iface.name
    ensures var s' := Step(cfg, s, ERegister(c, iface, grpid));
            var id := PartyId(cfg.ext, s.next.server);
            && Entered(s, s', Server(id, NO_PARTY, iface, grpid, cfg.isLocalService(iface.name)))
            && Welcomed(cfg, s, s', iface, grpid) && s'.next == s.next.(server := s.next.server + 1)
            && s'.conns.Keys == s.conns.Keys
            && (forall d, x :: d in s.conns ==> (x in s'.conns[d].servers <==> x in s.conns[d].servers || (d == c && x == id)))
  {
    CheckedIff(iface);
    var id := PartyId(cfg.ext, s.next.server);
    var e := Server(id, NO_PARTY, iface, grpid, cfg.isLocalService(iface.name));
    hide Step, Scan, Checked, Proper, Announce, RegisterMaster, Welcomed;
    StepRegister(cfg, s, c, iface, grpid);
    var s0 := s.(next := s.next.(server := s.next.server + 1));
    FreeName(s, iface.name);
    AnnounceWelcomes(cfg, s0, c, e);
    var s1 := Announce(cfg, s0, c, e);
    ForwardedEntered(cfg, s, s1, e);
    SameWelcome(cfg, s, s0, s1, RegisterMaster(cfg, s1), iface, grpid);
  }

  lemma FreeName(s: State, name: string)
    requires forall e :: e in s.servers ==> e.iface.name != name
    ensures Scan(s.servers, name).None?
  {
    hide Scan;
  }

  /** Forwarding to the master marks entries and pushes jobs, and nothing else. */
  lemma ForwardedEntered(cfg: Config, s: State, s1: State, e: Server)
    requires (forall x :: x in s1.servers <==> x == e || x in s.servers) && |s1.servers| == |s.servers| + 1
    ensures var s' := RegisterMaster(cfg, s1);
            Entered(s, s', e) && s' == s1.(servers := s'.servers, link := s1.link.(outstanding := s'.link.outstanding))
  {
    var s' := RegisterMaster(cfg, s1);
    hide RegisterJobs, Chunks, Unforwarded;
    forall y | y in s1.servers ensures exists x :: x in s'.servers && x == y.(masterId := x.masterId) {
      var i :| 0 <= i < |s1.servers| && s1.servers[i] == y;
      assert s'.servers[i] in s'.servers && s'.servers[i] == y.(masterId := s'.servers[i].masterId);
    }
    assert e in s1.servers;
  }

  lemma SameWelcome(cfg: Config, s: State, s0: State, s1: State, s': State, offer: Iface, grpid: int)
    requires Welcomed(cfg, s0, s1, offer, grpid) && s0.lists == s.lists && s0.past == s.past && s0.clients == s.clients
    requires s'.lists == s1.lists && s'.past == s1.past && s'.clients == s1.clients
    ensures Welcomed(cfg, s, s', offer, grpid)
  {
    hide Greets, Those, NotifIds;
  }

  /** What may be forwarded is registered at the connected master, and every other entry is as it was. */
  lemma MasterHears(cfg: Config, s: State)
    requires s.link.connected
    ensures var s' := RegisterMaster(cfg, s);
            && |s'.servers| == |s.servers|
            && forall i :: 0 <= i < |s.servers| ==>
                 var e := s.servers[i];
                 if e.masterId == NO_PARTY && !e.local && cfg.forwards(e.iface.name)
                 then s'.servers[i] == e.(masterId := PENDING)
                      && exists j :: j in s'.link.outstanding && j.RegisterJob? && e in j.batch
                 else s'.servers[i] == e
  {
    var s' := RegisterMaster(cfg, s);
    RegistrationBatches(cfg, s);
    var batches := Chunks(Unforwarded(cfg, s.servers));
    forall i | 0 <= i < |s.servers| && NeedsForwarding(cfg, s.servers[i])
      ensures exists j :: j in s'.link.outstanding && j.RegisterJob? && s.servers[i] in j.batch
    {
      UnforwardedHas(cfg, s.servers, i);
      ServerInBatch(batches, s.servers[i]);
    }
    hide Chunks, Unforwarded, RegisterJobs, Flatten;
  }

  lemma {:induction false} UnforwardedHas(cfg: Config, l: seq<Server>, i: nat)
    requires i < |l| && NeedsForwarding(cfg, l[i])
    ensures l[i] in Unforwarded(cfg, l)
  {
    hide NeedsForwarding;
    if i > 0 { UnforwardedHas(cfg, l[1..], i - 1); }
  }

  lemma {:induction false} ServerInBatch(batches: seq<seq<Server>>, e: Server)
    requires e in Flatten(batches)
    ensures exists j :: j in RegisterJobs(batches) && j.RegisterJob? && e in j.batch
    decreases |batches|
  {
    var js := RegisterJobs(batches);
    if e in batches[0] {
      assert js[0].batch == batches[0] && js[0] in js;
    } else {
      ServerInBatch(batches[1..], e);
      var j :| j in RegisterJobs(batches[1..]) && j.RegisterJob? && e in j.batch;
      var i :| 0 <= i < |batches[1..]| && RegisterJobs(batches[1..])[i] == j;
      assert js[i + 1] == j;
    }
  }

  /** A name that is taken, a description that fails the check, or a client of another node: no
      server is registered, and nobody is woken. */
  lemma RegisterRefused(cfg: Config, s: State, c: nat, iface: Iface, grpid: int)
    requires c in s.conns
    requires !Proper(iface) || !(s.conns[c].node == 0 || s.conns[c].node == 0x7F00_0001)
          || exists e :: e in s.servers && e.iface.name == iface.name
    ensures var s' := Step(cfg, s, ERegister(c, iface, grpid));
            && s' == s.(servers := s'.servers, link := s.link.(outstanding := s'.link.outstanding)) && SameServers(s.servers, s'.servers)
  {
    CheckedIff(iface);
    hide Step, Checked, Proper, RegisterJobs, Chunks, Unforwarded, Announce;
    StepRegister(cfg, s, c, iface, grpid);
    if e :| e in s.servers && e.iface.name == iface.name { assert Scan(s.servers, iface.name).Some?; }
    hide Scan;
  }

  /** A request for several servers is as good as requests for each of them, in order, before the
      master hears of them. */
  lemma {:induction false} ServersInTurn(cfg: Config, s: State, c: nat, a: seq<Iface>, b: seq<Iface>)
    requires Inv(cfg, s) && c in s.conns
    ensures c in AddAll(cfg, s, c, a).conns && AddAll(cfg, s, c, a + b) == AddAll(cfg, AddAll(cfg, s, c, a), c, b)
    ensures forall i :: a == [i] ==> AddAll(cfg, s, c, a) == AddInterface(cfg, s, c, i, -1)
    ensures Step(cfg, s, ERegisterEx(c, a)) == RegisterMaster(cfg, AddAll(cfg, s, c, a))
    decreases |a|
  {
    hide Inv, AddInterface, RegisterMaster;
    if a == [] {
      assert a + b == b;
    } else {
      var s1 := AddInterface(cfg, s, c, a[0], ANYBODY);
      AddInterfaceInv(cfg, s, c, a[0], ANYBODY);
      ServersInTurn(cfg, s1, c, a[1..], b);
      assert (a + b)[0] == a[0] && (a + b)[1..] == a[1..] + b;
      if |a| == 1 { assert AddAll(cfg, s1, c, a[1..]) == s1; }
    }
  }

  /** A slave's server that is taken enters under the ID the slave sent, or under one made from the
      connection's number for a standard slave, open to anybody and not local. */
  lemma RemoteEnters(cfg: Config, s: State, c: nat, d: Remote)
    requires c in s.conns && Proper(d.iface) && d.chid > 0 && d.id.ext != cfg.ext && (d.id.ext == 0 ==> cfg.ext == 1000)
    requires forall e :: e in s.servers ==> e.iface.name != d.iface.name
    ensures var s' := AddRemote(cfg, s, c, d);
            var id := if d.id.ext == 0 then PartyId(1000 + c, d.id.local) else d.id;
            && (forall x :: x in s'.servers <==> x == Server(id, NO_PARTY, d.iface, -1, false) || x in s.servers)
            && |s'.servers| == |s.servers| + 1 && Welcomed(cfg, s, s', d.iface, -1) && s'.next == s.next
            && s'.conns.Keys == s.conns.Keys
            && (forall k, x :: k in s.conns ==> (x in s'.conns[k].servers <==> x in s.conns[k].servers || (k == c && x == id)))
  {
    CheckedIff(d.iface);
    hide Scan, Checked, Proper, Announce, Welcomed;
    FreeName(s, d.iface.name);
    AnnounceWelcomes(cfg, s, c, Server(RemoteId(c, d.id), NO_PARTY, d.iface, ANYBODY, false));
  }

  lemma RemoteRefused(cfg: Config, s: State, c: nat, d: Remote)
    requires c in s.conns
    requires !Proper(d.iface) || d.chid <= 0 || d.id.ext == cfg.ext || (d.id.ext == 0 && cfg.ext != 1000)
          || exists e :: e in s.servers && e.iface.name == d.iface.name
    ensures AddRemote(cfg, s, c, d) == s
  {
    CheckedIff(d.iface);
    hide Checked, Proper, Announce;
    if e :| e in s.servers && e.iface.name == d.iface.name { assert Scan(s.servers, d.iface.name).Some?; }
    hide Scan;
  }

  /** A slave's registration takes its servers in order; then the master hears of them. */
  lemma {:induction false} RemotesInTurn(cfg: Config, s: State, c: nat, a: seq<Remote>, b: seq<Remote>)
    requires Inv(cfg, s) && c in s.conns
    ensures c in AddRemotes(cfg, s, c, a).conns && AddRemotes(cfg, s, c, a + b) == AddRemotes(cfg, AddRemotes(cfg, s, c, a), c, b)
    ensures forall d :: a == [d] ==> AddRemotes(cfg, s, c, a) == AddRemote(cfg, s, c, d)
    ensures Step(cfg, s, ERegisterSlave(c, a)) == RegisterMaster(cfg, AddRemotes(cfg, s, c, a))
    decreases |a|
  {
    hide Inv, AddRemote, RegisterMaster;
    if a == [] {
      assert a + b == b;
    } else {
      var s1 := AddRemote(cfg, s, c, a[0]);
      AddRemoteInv(cfg, s, c, a[0]);
      RemotesInTurn(cfg, s1, c, a[1..], b);
      assert (a + b)[0] == a[0] && (a + b)[1..] == a[1..] + b;
      if |a| == 1 { assert AddRemotes(cfg, s1, c, a[1..]) == s1; }
    }
  }

  // ---------------------------------------------------------------- a connection closes

  ghost function WatchingAny(ids: seq<PartyId>): Notification -> bool {
    (n: Notification) => n.active && n.party in ids
  }

  lemma AnyFires(cfg: Config, s: State, k: Kind, ids: seq<PartyId>)
    ensures Fired(s, Sweep(cfg, s, k, ByParties(ids), 0), k, WatchingAny(ids))
  {
    hide Fired, Sweep;
    SweepFires(cfg, s, k, ByParties(ids), WatchingAny(ids));
  }

  /** Only list k shrinks, nobody is pulsed, and the tables stay. */
  ghost predicate OnlyShrinks(s: State, s': State, k: Kind) {
    && (forall n :: n in L(s', k) ==> n in L(s, k)) && (forall k' :: k' != k ==> L(s', k') == L(s, k'))
    && s'.past.pulses == s.past.pulses && s'.past.book == s.past.book
    && s'.servers == s.servers && s'.clients == s.clients && s'.next == s.next && SameMembers(s.conns, s'.conns)
  }

  lemma ShrinksOnlyTrans(s: State, t: State, u: State, k: Kind)
    requires OnlyShrinks(s, t, k) && OnlyShrinks(t, u, k)
    ensures OnlyShrinks(s, u, k)
  {
    assert forall c :: c in s.conns ==> c in t.conns;
  }

  lemma WithdrawTurn(cfg: Config, s: State, k: Kind, c: nat, i: nat)
    requires i < |L(s, k)|
    ensures OnlyShrinks(s, Turn(cfg, s, k, Withdrawal(c), i), k)
  {
    hide EraseAt, SameMembers;
    var n := L(s, k)[i];
    SameMembersRefl(s.conns);
    if Act(cfg, s, Withdrawal(c), n) == Discard {
      EraseTables(Withdraw(s, n.id), k, i);
      assert forall m :: m in L(s, k)[..i] + L(s, k)[i + 1..] ==> m in L(s, k);
    }
  }

  lemma SameMembersRefl(conns: map<nat, Conn>)
    ensures SameMembers(conns, conns)
  {
  }

  lemma {:induction false} WithdrawShrinks(cfg: Config, s: State, k: Kind, c: nat, i: nat)
    requires i <= |L(s, k)|
    ensures OnlyShrinks(s, Sweep(cfg, s, k, Withdrawal(c), i), k)
    decreases |L(s, k)| - i
  {
    hide Turn, Act, OnlyShrinks;
    if i == |L(s, k)| {
      assert OnlyShrinks(s, s, k) by { SameMembersRefl(s.conns); OnlyRefl(s, k); }
    } else {
      var s1 := Turn(cfg, s, k, Withdrawal(c), i);
      WithdrawTurn(cfg, s, k, c, i);
      WithdrawShrinks(cfg, s1, k, c, if Erases(Act(cfg, s, Withdrawal(c), L(s, k)[i])) then i else i + 1);
      ShrinksOnlyTrans(s, s1, Sweep(cfg, s, k, Withdrawal(c), i), k);
    }
  }

  lemma OnlyRefl(s: State, k: Kind)
    ensures OnlyShrinks(s, s, k)
  {
    SameMembersRefl(s.conns);
  }

  ghost predicate RegisteredBy(s: State, n: Notification, c: nat) {
    n.id in s.past.book && s.past.book[n.id].conn == c
  }

  /** Withdrawing from one list takes exactly what the connection registered there. */
  lemma WithdrawTakes(cfg: Config, s: State, k: Kind, c: nat)
    requires Core(s) && c in s.conns
    ensures var s' := Sweep(cfg, s, k, Withdrawal(c), 0);
            && Core(s') && c in s'.conns && OnlyShrinks(s, s', k)
            && (forall n :: n in L(s', k) <==> n in L(s, k) && !RegisteredBy(s, n, c))
  {
    var s' := Sweep(cfg, s, k, Withdrawal(c), 0);
    WithdrawShrinks(cfg, s, k, c, 0);
    WithdrawSweep(cfg, s, k, c);
    SweepKeeps(cfg, s, k, Withdrawal(c), 0);
    hide Sweep, Shrinks, Settled, Core;
    assert c in s'.conns;
    forall n | n in L(s, k) && !RegisteredBy(s, n, c) ensures n in L(s', k) {
      OthersKept(cfg, s, c, k, n);
    }
  }

  lemma OthersKept(cfg: Config, s: State, c: nat, k: Kind, n: Notification)
    requires Core(s) && n in L(s, k) && !RegisteredBy(s, n, c)
    ensures Act(cfg, s, Withdrawal(c), n) == Keep
  {
    hide BookOk, PulsesOk, PoolsOk, CookiesOk, NoLeak;
    assert Listed(s, k, n);
  }

  /** From list k everything that the connection registered is taken, or nothing. */
  ghost predicate TakenAt(s: State, s': State, k: Kind, all: bool, c: nat) {
    forall n :: n in L(s', k) <==> n in L(s, k) && !(all && RegisteredBy(s, n, c))
  }

  /** What the connection registered is taken from these lists; nobody is pulsed, and the tables stay. */
  ghost predicate TakenFrom(s: State, s': State, ks: set<Kind>, c: nat) {
    && (forall k :: TakenAt(s, s', k, k in ks, c))
    && s'.past.pulses == s.past.pulses && s'.past.book == s.past.book
    && s'.servers == s.servers && s'.clients == s.clients && s'.next == s.next && SameMembers(s.conns, s'.conns)
  }

  /** One more list. */
  lemma ThenWithdraw(cfg: Config, s: State, t: State, ks: set<Kind>, k: Kind, c: nat)
    requires TakenFrom(s, t, ks, c) && Core(t) && c in t.conns
    ensures var u := Sweep(cfg, t, k, Withdrawal(c), 0); TakenFrom(s, u, ks + {k}, c) && Core(u) && c in u.conns
  {
    hide Sweep, Core, SameMembers, TakenAt;
    var u := Sweep(cfg, t, k, Withdrawal(c), 0);
    WithdrawTakes(cfg, t, k, c);
    MembersTrans(s.conns, t.conns, u.conns);
    forall k' ensures TakenAt(s, u, k', k' in ks + {k}, c) {
      assert TakenAt(s, t, k', k' in ks, c);
      NextTaken(s, t, u, k', k' in ks, k' == k, c);
    }
  }

  lemma NextTaken(s: State, t: State, u: State, k: Kind, before: bool, now: bool, c: nat)
    requires TakenAt(s, t, k, before, c) && t.past.book == s.past.book
    requires if now then forall n :: n in L(u, k) <==> n in L(t, k) && !RegisteredBy(t, n, c) else L(u, k) == L(t, k)
    ensures TakenAt(s, u, k, before || now, c)
  {
    SameBookOwners(s, t, c);
    hide RegisteredBy, L;
  }

  /** What the four withdrawals leave. */
  lemma WithdrawAllTakes(cfg: Config, s: State, c: nat)
    requires Core(s) && c in s.conns
    ensures TakenFrom(s, WithdrawAll(cfg, s, c), {Available, Disconnect, Detach, ListChange}, c)
  {
    var t1 := Sweep(cfg, s, Disconnect, Withdrawal(c), 0);
    var t2 := Sweep(cfg, t1, Detach, Withdrawal(c), 0);
    var t3 := Sweep(cfg, t2, Available, Withdrawal(c), 0);
    NoneTaken(s, c);
    hide Sweep, Core, TakenFrom;
    ThenWithdraw(cfg, s, s, {}, Disconnect, c);
    ThenWithdraw(cfg, s, t1, {} + {Disconnect}, Detach, c);
    ThenWithdraw(cfg, s, t2, {} + {Disconnect} + {Detach}, Available, c);
    ThenWithdraw(cfg, s, t3, {} + {Disconnect} + {Detach} + {Available}, ListChange, c);
    assert {} + {Disconnect} + {Detach} + {Available} + {ListChange} == {Available, Disconnect, Detach, ListChange};
  }

  lemma NoneTaken(s: State, c: nat)
    ensures TakenFrom(s, s, {}, c)
  {
    SameMembersRefl(s.conns);
    hide SameMembers;
    var none: set<Kind> := {};
    forall k ensures TakenAt(s, s, k, k in none, c) {}
  }

  lemma MembersTrans(a: map<nat, Conn>, b: map<nat, Conn>, d: map<nat, Conn>)
    requires SameMembers(a, b) && SameMembers(b, d)
    ensures SameMembers(a, d)
  {
    assert forall c :: c in a ==> c in b;
  }

  /** Closing a connection. Those who watch one of its servers or wait for the end of one of its
      clients are pulsed, in this order, and then, if it had servers, those who watch the list; what
      it registered itself is withdrawn; all others stay. */
  lemma CloseWakes(cfg: Config, s: State, c: nat)
    requires Inv(cfg, s) && c in s.conns
    ensures var s', me := Step(cfg, s, EClose(c)), s.conns[c];
            && (forall n :: n in s'.lists.disconnect <==> n in s.lists.disconnect && n.party !in me.servers && !RegisteredBy(s, n, c))
            && (forall n :: n in s'.lists.detach <==> n in s.lists.detach && n.party !in me.clients && !RegisteredBy(s, n, c))
            && (forall n :: n in s'.lists.available <==> n in s.lists.available && !RegisteredBy(s, n, c))
            && (forall n :: n in s'.lists.listChange <==> n in s.lists.listChange && !RegisteredBy(s, n, c))
            && s'.past.pulses == s.past.pulses + NotifIds(Those(s.lists.disconnect, WatchingAny(me.servers)))
                                               + NotifIds(Those(s.lists.detach, WatchingAny(me.clients)))
                                               + (if me.servers != [] then NotifIds(Those(s'.lists.listChange, Listening(cfg, None))) else [])
            && s'.next == s.next && s'.past.book == s.past.book
  {
    var me := s.conns[c];
    var s1 := CloseClients(CloseServers(s, me.servers), me.clients);
    var s2 := Sweep(cfg, s1, Disconnect, ByParties(me.servers), 0);
    var s3 := Sweep(cfg, s2, Detach, ByParties(me.clients), 0);
    var s4 := WithdrawAll(cfg, s3, c);
    hide Step, Inv, Core, CloseClients, CloseServers, Sweep, Those, Others, NotifIds, TablesStay, RegisteredBy, WithdrawAll, SameMembers;
    DetachAllActive(cfg, s);
    StepClose(cfg, s, c);
    CloseStarts(cfg, s, c, s1, s2, s3);
    CloseFires(cfg, s1, s2, s3, me.servers, me.clients);
    WithdrawAllTakes(cfg, s3, c);
    CloseLeaves(s, s3, s4, c);
    hide TakenFrom;
    CloseEnds(cfg, s, c, s4);
    hide Close;
  }

  lemma CloseLeaves(s: State, s3: State, s4: State, c: nat)
    requires c in s.conns && TakenFrom(s3, s4, {Available, Disconnect, Detach, ListChange}, c) && s3.past.book == s.past.book
    requires s3.lists == s.lists.(disconnect := Others(s.lists.disconnect, WatchingAny(s.conns[c].servers)),
                                  detach := Others(s.lists.detach, WatchingAny(s.conns[c].clients)))
    requires forall n :: n in s.lists.detach || n in s.lists.disconnect ==> n.active
    ensures forall n :: n in s4.lists.disconnect <==> n in s.lists.disconnect && n.party !in s.conns[c].servers && !RegisteredBy(s, n, c)
    ensures forall n :: n in s4.lists.detach <==> n in s.lists.detach && n.party !in s.conns[c].clients && !RegisteredBy(s, n, c)
    ensures forall n :: n in s4.lists.available <==> n in s.lists.available && !RegisteredBy(s, n, c)
    ensures forall n :: n in s4.lists.listChange <==> n in s.lists.listChange && !RegisteredBy(s, n, c)
    ensures s4.past.pulses == s3.past.pulses && s4.past.book == s.past.book && s4.next == s3.next
  {
    hide Others, SameMembers;
    SameBookOwners(s, s3, c);
    hide RegisteredBy;
    assert TakenAt(s3, s4, Disconnect, true, c) && TakenAt(s3, s4, Detach, true, c)
        && TakenAt(s3, s4, Available, true, c) && TakenAt(s3, s4, ListChange, true, c) by {
      hide TakenAt;
      var ks := {Available, Disconnect, Detach, ListChange};
      assert Disconnect in ks && Detach in ks && Available in ks && ListChange in ks;
      assert TakenAt(s3, s4, Disconnect, Disconnect in ks, c) && TakenAt(s3, s4, Detach, Detach in ks, c);
      assert TakenAt(s3, s4, Available, Available in ks, c) && TakenAt(s3, s4, ListChange, ListChange in ks, c);
    }
    hide TakenFrom;
    ListsOf(s3, s4);
  }

  lemma SameBookOwners(s: State, s': State, c: nat)
    requires s'.past.book == s.past.book
    ensures forall n :: RegisteredBy(s', n, c) <==> RegisteredBy(s, n, c)
  {
  }

  lemma CloseStarts(cfg: Config, s: State, c: nat, s1: State, s2: State, s3: State)
    requires Inv(cfg, s) && c in s.conns
    requires s1 == CloseClients(CloseServers(s, s.conns[c].servers), s.conns[c].clients)
    requires s2 == Sweep(cfg, s1, Disconnect, ByParties(s.conns[c].servers), 0)
    requires s3 == Sweep(cfg, s2, Detach, ByParties(s.conns[c].clients), 0)
    ensures Core(s3) && c in s3.conns && s1.lists == s.lists && s1.past == s.past && s1.next == s.next && s1.conns == s.conns
  {
    CloseFirst(cfg, s, c, s1, s2, s3);
    hide Inv, Core, CloseClients, CloseServers, Sweep, AllCookies, Descending, DistinctClients, Leaving, NoLostWakeup, WatchersSound;
  }

  lemma CloseFires(cfg: Config, s1: State, s2: State, s3: State, servers: seq<PartyId>, clients: seq<PartyId>)
    requires s2 == Sweep(cfg, s1, Disconnect, ByParties(servers), 0) && s3 == Sweep(cfg, s2, Detach, ByParties(clients), 0)
    ensures s3.lists == s1.lists.(disconnect := Others(s1.lists.disconnect, WatchingAny(servers)),
                                  detach := Others(s1.lists.detach, WatchingAny(clients)))
    ensures s3.past.pulses == s1.past.pulses + NotifIds(Those(s1.lists.disconnect, WatchingAny(servers)))
                                             + NotifIds(Those(s1.lists.detach, WatchingAny(clients)))
    ensures s3.past.book == s1.past.book && s3.next == s1.next && s3.servers == s1.servers && s3.clients == s1.clients
    ensures SameMembers(s1.conns, s3.conns)
  {
    hide Sweep, Those, Others, NotifIds, SameMembers;
    AnyFires(cfg, s1, Disconnect, servers);
    OnlyList(s1, s2, Disconnect, WatchingAny(servers));
    AnyFires(cfg, s2, Detach, clients);
    OnlyList(s2, s3, Detach, WatchingAny(clients));
    ListsOf(s1, s2);
    hide Fired;
    MembersTrans(s1.conns, s2.conns, s3.conns);
  }

  lemma CloseEnds(cfg: Config, s: State, c: nat, s4: State)
    requires c in s.conns
    requires var s1 := CloseClients(CloseServers(s, s.conns[c].servers), s.conns[c].clients);
             var s2 := Sweep(cfg, s1, Disconnect, ByParties(s.conns[c].servers), 0);
             s4 == WithdrawAll(cfg, Sweep(cfg, s2, Detach, ByParties(s.conns[c].clients), 0), c)
    ensures var s' := Close(cfg, s, c);
            && s' == s4.(past := s'.past, conns := s4.conns - {c})
            && s'.past == s4.past.(pulses := s4.past.pulses
                 + if s.conns[c].servers != [] then NotifIds(Those(s4.lists.listChange, Listening(cfg, None))) else [])
  {
    ListHears(cfg, s4.lists.listChange, None);
    hide CloseClients, CloseServers, Sweep, WithdrawAll, Those, NotifIds, ListPulses;
    assert s4.past.pulses + [] == s4.past.pulses;
  }

  lemma StepClose(cfg: Config, s: State, c: nat)
    requires c in s.conns
    ensures Step(cfg, s, EClose(c)) == Close(cfg, s, c)
  {
    hide Close;
  }

  /** The connection is gone with its clients, with every server it lists, and with all clients of
      these servers. Another server under one of these IDs may stay if IDs are not distinct. */
  lemma CloseEmpties(cfg: Config, s: State, c: nat)
    requires Inv(cfg, s) && c in s.conns
    ensures var s', me := Step(cfg, s, EClose(c)), s.conns[c];
            && s'.conns.Keys == s.conns.Keys - {c}
            && (forall d :: d in s'.conns ==> s'.conns[d] == s.conns[d].(notifs := s'.conns[d].notifs))
            && (forall x :: x in s'.clients <==> x in s.clients && x.server !in me.servers && x.id !in me.clients)
            && (forall e :: e in s'.servers ==> e in s.servers) && (forall e :: e in s.servers && e.id !in me.servers ==> e in s'.servers)
            && (DistinctIds(s.servers) ==> forall e :: e in s'.servers ==> e.id !in me.servers)
  {
    var me := s.conns[c];
    var s1 := CloseClients(CloseServers(s, me.servers), me.clients);
    var s2 := Sweep(cfg, s1, Disconnect, ByParties(me.servers), 0);
    var s3 := Sweep(cfg, s2, Detach, ByParties(me.clients), 0);
    var s4 := WithdrawAll(cfg, s3, c);
    hide Step, Inv, Core, CloseClients, CloseServers, Sweep, WithdrawAll, Those, Others, NotifIds, RegisteredBy, AllCookies, Descending, DistinctClients, DistinctIds;
    StepClose(cfg, s, c);
    CloseDeparts(cfg, s, me.servers, me.clients);
    CloseStarts(cfg, s, c, s1, s2, s3);
    CloseFires(cfg, s1, s2, s3, me.servers, me.clients);
    WithdrawAllTakes(cfg, s3, c);
    CloseEnds(cfg, s, c, s4);
    hide Close;
    MembersTrans(s1.conns, s3.conns, s4.conns);
  }

  // ---------------------------------------------------------------- what the master hears of a close

  lemma {:induction false} ClientsTold(s: State, ids: seq<PartyId>, id: PartyId)
    ensures s.link.connected && id in ids ==> DetachJob(id) in CloseClients(s, ids).link.outstanding
    ensures forall j :: j in s.link.outstanding ==> j in CloseClients(s, ids).link.outstanding
    ensures CloseClients(s, ids).link.connected == s.link.connected
    decreases |ids|
  {
    hide RemoveClient;
    if ids != [] {
      var s0 := s.(clients := RemoveClient(s.clients, ids[0]));
      ClientsTold(if s.link.connected then Push(s0, DetachJob(ids[0])) else s0, ids[1..], id);
    }
  }

  lemma {:induction false} ServersTold(s: State, ids: seq<PartyId>, e: Server)
    requires ScanId(s.servers, e.id) == Some(e)
    ensures s.link.connected && e.id in ids && 0 < e.masterId.ext < 0x8000_0000 ==> UnregisterJob(e.masterId) in CloseServers(s, ids).link.outstanding
    ensures forall j :: j in s.link.outstanding ==> j in CloseServers(s, ids).link.outstanding
    ensures CloseServers(s, ids).link.connected == s.link.connected
    decreases |ids|
  {
    if ids != [] {
      var x := ScanId(s.servers, ids[0]);
      var s1 := if x.Some? then Retire(s, x.value) else s;
      if ids[0] == e.id {
        JobsStay(s1, ids[1..]);
      } else {
        if x.Some? { StillFirst(s.servers, ids[0], e); }
        hide ScanId, Removed, RemoveServerClients;
        ServersTold(s1, ids[1..], e);
      }
    }
  }

  lemma {:induction false} StillFirst(l: seq<Server>, id: PartyId, e: Server)
    requires ScanId(l, e.id) == Some(e) && e.id != id
    ensures ScanId(Removed(l, id), e.id) == Some(e)
  {
    if l[0].id != id && l[0].id != e.id { StillFirst(l[1..], id, e); }
  }

  lemma {:induction false} JobsStay(s: State, ids: seq<PartyId>)
    ensures forall j :: j in s.link.outstanding ==> j in CloseServers(s, ids).link.outstanding
    ensures CloseServers(s, ids).link.connected == s.link.connected
    decreases |ids|
  {
    hide ScanId, Removed, RemoveServerClients;
    if ids != [] {
      var x := ScanId(s.servers, ids[0]);
      JobsStay(if x.Some? then Retire(s, x.value) else s, ids[1..]);
    }
  }

  ghost predicate OnlyWithId(l: seq<Server>, e: Server) {
    forall x :: x in l && x.id == e.id ==> x == e
  }

  /** The connected master hears of every client, and of every server it knows that leaves. */
  lemma CloseTells(cfg: Config, s: State, c: nat)
    requires c in s.conns && s.link.connected
    ensures var js := Step(cfg, s, EClose(c)).link.outstanding;
            && (forall id :: id in s.conns[c].clients ==> DetachJob(id) in js)
            && (forall e :: e in s.servers && e.id in s.conns[c].servers && 0 < e.masterId.ext < 0x8000_0000 && OnlyWithId(s.servers, e) ==>
                  UnregisterJob(e.masterId) in js)
            && (forall j :: j in s.link.outstanding ==> j in js)
  {
    var me := s.conns[c];
    hide Step, CloseClients, CloseServers, Sweep, ListPulses;
    StepClose(cfg, s, c);
    var s0 := CloseServers(s, me.servers);
    var s1 := CloseClients(s0, me.clients);
    JobsStay(s, me.servers);
    ClientsTold(s0, me.clients, NO_PARTY);
    CloseKeepsJobs(cfg, s, c, s1);
    forall id | id in me.clients ensures DetachJob(id) in s1.link.outstanding { ClientsTold(s0, me.clients, id); }
    forall e | e in s.servers && e.id in me.servers && 0 < e.masterId.ext < 0x8000_0000 && OnlyWithId(s.servers, e)
      ensures UnregisterJob(e.masterId) in s0.link.outstanding
    {
      assert ScanId(s.servers, e.id) == Some(e);
      ServersTold(s, me.servers, e);
    }
    hide Close, ScanId;
  }

  lemma CloseKeepsJobs(cfg: Config, s: State, c: nat, s1: State)
    requires c in s.conns && s1 == CloseClients(CloseServers(s, s.conns[c].servers), s.conns[c].clients)
    ensures forall j :: j in s1.link.outstanding ==> j in Close(cfg, s, c).link.outstanding
  {
    var me := s.conns[c];
    hide CloseClients, CloseServers, Sweep, ListPulses, OnlyClears;
    var s2 := Sweep(cfg, s1, Disconnect, ByParties(me.servers), 0);
    var s3 := Sweep(cfg, s2, Detach, ByParties(me.clients), 0);
    var t1 := Sweep(cfg, s3, Disconnect, Withdrawal(c), 0);
    var t2 := Sweep(cfg, t1, Detach, Withdrawal(c), 0);
    var t3 := Sweep(cfg, t2, Available, Withdrawal(c), 0);
    SweepJobs(cfg, s1, Disconnect, ByParties(me.servers), 0);
    SweepJobs(cfg, s2, Detach, ByParties(me.clients), 0);
    SweepJobs(cfg, s3, Disconnect, Withdrawal(c), 0);
    SweepJobs(cfg, t1, Detach, Withdrawal(c), 0);
    SweepJobs(cfg, t2, Available, Withdrawal(c), 0);
    SweepJobs(cfg, t3, ListChange, Withdrawal(c), 0);
  }
}
