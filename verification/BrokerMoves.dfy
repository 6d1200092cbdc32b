/** The moves other than erasing: pulses that remove nothing, a new notification
    at the front of a list, and changes of the tables that no notification looks
    at. Each of them keeps the part of the invariant that speaks of lists, book,
    pools and jobs; the other parts are shown where the moves are used. */
module BrokerMoves {
  import opened BrokerTypes
  import opened ServerTable
  import opened BrokerSpec
  import opened BrokerInv
  import opened BrokerSweep

  /** Connections differ at most in their server and client lists and attributes. */
  ghost predicate SameNotifs(conns: map<nat, Conn>, conns': map<nat, Conn>) {
    conns'.Keys == conns.Keys && forall c :: c in conns ==> conns'[c].notifs == conns[c].notifs
  }

  ghost predicate SameLists(s: State, s': State) {
    s'.lists.available == s.lists.available && s'.lists.disconnect == s.lists.disconnect && s'.lists.detach == s.lists.detach && s'.lists.listChange == s.lists.listChange
  }

  ghost predicate SameHistory(s: State, s': State) {
    s'.past.book == s.past.book && s'.past.pulses == s.past.pulses && s'.past.withdrawn == s.past.withdrawn && s'.next.notif == s.next.notif
  }

  ghost predicate SameMaster(s: State, s': State) {
    && s'.pools == s.pools && s'.next.pool == s.next.pool && s'.link.connected == s.link.connected && s'.link.steady == s.link.steady
    && s'.link.granted == s.link.granted && s'.link.cleared == s.link.cleared && AllCookies(s'.link.outstanding) == AllCookies(s.link.outstanding)
  }

  lemma SameListed(s: State, s': State)
    requires ListsOk(s) && SameNotifs(s.conns, s'.conns) && SameLists(s, s') && s.next.pool <= s'.next.pool
    requires s'.past.book == s.past.book && s'.past.withdrawn == s.past.withdrawn
    requires forall x :: x in s'.past.pulses && x !in s.past.pulses ==> x in s.past.book && s.past.book[x].kind == ListChange
    ensures ListsOk(s')
  {
    assert forall k :: L(s', k) == L(s, k);
    forall k, n | n in L(s', k) ensures Listed(s', k, n) {
      assert n in L(s, k) && Listed(s, k, n);
    }
    forall k ensures NewestFirst(L(s', k)) {
      assert NewestFirst(L(s, k));
    }
  }

  lemma SameBook(s: State, s': State)
    requires BookOk(s) && SameLists(s, s') && s'.past.book == s.past.book && s'.past.withdrawn == s.past.withdrawn
    requires s.next.notif <= s'.next.notif && forall x :: x in s.past.pulses ==> x in s'.past.pulses
    ensures BookOk(s')
  {
    assert forall k :: L(s', k) == L(s, k);
    forall id | id in s'.past.book ensures Accounted(s', id) {
      assert Accounted(s, id);
      assert InList(s, s.past.book[id].kind, id) ==> InList(s', s.past.book[id].kind, id);
    }
  }

  lemma SamePools(s: State, s': State)
    requires PoolsOk(s) && SameLists(s, s') && s'.pools == s.pools && s.next.pool <= s'.next.pool
    ensures PoolsOk(s')
  {
    forall p | p in s'.pools ensures PoolOk(s', p) {
      assert PoolOk(s, p);
    }
  }

  /** A change of the link's flags and history. */
  lemma LinkKeepsCore(s: State, s': State)
    requires Core(s) && s' == s.(link := s'.link) && s'.link.outstanding == s.link.outstanding && NoLeak(s')
    ensures Core(s')
  {
    hide ListsOk, BookOk, PoolsOk, NoLeak, AllCookies;
    SameListed(s, s');
    SameBook(s, s');
    SamePools(s, s');
  }

  /** Tables and cookie-free jobs do not matter to the core invariant. */
  lemma PlainKeepsCore(s: State, s': State)
    requires Core(s) && SameNotifs(s.conns, s'.conns) && SameLists(s, s') && SameHistory(s, s') && SameMaster(s, s')
    ensures Core(s')
  {
    hide ListsOk, BookOk, PoolsOk;
    SameListed(s, s');
    SameBook(s, s');
    SamePools(s, s');
  }

  lemma {:induction false} ListPulsesListed(cfg: Config, l: seq<Notification>, offer: Option<Iface>, x: nat)
    requires x in ListPulses(cfg, l, offer)
    ensures exists n :: n in l && n.id == x
  {
    if l[0].id == x {
      assert l[0] in l;
    } else {
      ListPulsesListed(cfg, l[1..], offer, x);
      var n :| n in l[1..] && n.id == x;
      assert n in l;
    }
  }

  /** Pulsing list-change notifications without removing them. */
  lemma PulseKeepsCore(s: State, ids: seq<nat>)
    requires Core(s) && forall x :: x in ids ==> InList(s, ListChange, x)
    ensures Core(s.(past := s.past.(pulses := s.past.pulses + ids)))
  {
    var s' := s.(past := s.past.(pulses := s.past.pulses + ids));
    forall x | x in ids ensures x in s.past.book && s.past.book[x].kind == ListChange {
      var n :| n in L(s, ListChange) && n.id == x;
      assert Listed(s, ListChange, n);
    }
    hide ListsOk, BookOk, PoolsOk;
    SameListed(s, s');
    SameBook(s, s');
    SamePools(s, s');
  }

  lemma TriggerAllKeepsCore(cfg: Config, s: State, offer: Option<Iface>)
    requires Core(s)
    ensures Core(TriggerAll(cfg, s, offer))
  {
    hide Core;
    forall x | x in ListPulses(cfg, s.lists.listChange, offer) ensures InList(s, ListChange, x) {
      ListPulsesListed(cfg, s.lists.listChange, offer, x);
      assert L(s, ListChange) == s.lists.listChange;
    }
    PulseKeepsCore(s, ListPulses(cfg, s.lists.listChange, offer));
  }

  // ---------------------------------------------------------------- a new notification

  ghost predicate Fresh(n: Notification, c: nat) {
    n.active && n.poolId == 0 && (n.host.Some? ==> n.host.value == c)
  }

  ghost predicate Adding(s: State, k: Kind, c: nat, n: Notification, s': State) {
    && c in s.conns && Fresh(n, c) && n.id == s.next.notif + 1
    && L(s', k) == [n] + L(s, k) && (forall k' :: k' != k ==> L(s', k') == L(s, k'))
    && s'.conns == s.conns[c := s.conns[c].(notifs := s.conns[c].notifs + [n.id])]
    && s'.past.book == s.past.book[n.id := Ticket(c, k)] && s'.next.notif == n.id
    && s'.past.pulses == s.past.pulses && s'.past.withdrawn == s.past.withdrawn
    && SameMaster(s, s')
  }

  lemma AddListed(s: State, k: Kind, c: nat, n: Notification, s': State, k': Kind, m: Notification)
    requires Adding(s, k, c, n, s') && Listed(s, k', m) && m.id != n.id
    ensures Listed(s', k', m)
  {
  }

  lemma AddLists(s: State, k: Kind, c: nat, n: Notification, s': State)
    requires ListsOk(s) && Adding(s, k, c, n, s') && s.next.pool > 0
    requires forall id :: id in s.past.book || id in s.past.pulses || id in s.past.withdrawn ==> id < n.id
    ensures ListsOk(s')
  {
    forall k', m | m in L(s, k') ensures Listed(s', k', m) && m.id < n.id {
      assert Listed(s, k', m);
      AddListed(s, k, c, n, s', k', m);
    }
    assert Listed(s', k, n);
    hide Listed;
    forall k', m | m in L(s', k') ensures Listed(s', k', m) {
      assert m in L(s, k') || (k' == k && m == n);
    }
    forall k' ensures NewestFirst(L(s', k')) {
      assert NewestFirst(L(s, k'));
      if k' == k {
        assert forall j :: 0 <= j < |L(s, k)| ==> L(s, k)[j] in L(s, k) && L(s, k)[j].id < n.id;
      }
    }
  }

  lemma AddAccounted(s: State, k: Kind, c: nat, n: Notification, s': State, id: nat)
    requires Adding(s, k, c, n, s') && id in s'.past.book
    requires id != n.id ==> Accounted(s, id)
    ensures Accounted(s', id)
  {
    if id == n.id {
      assert n in L(s', k);
    } else if InList(s, s.past.book[id].kind, id) {
      var m :| m in L(s, s.past.book[id].kind) && m.id == id;
      assert m in L(s', s'.past.book[id].kind);
    }
  }

  lemma AddBook(s: State, k: Kind, c: nat, n: Notification, s': State)
    requires BookOk(s) && HostsOk(s) && PulsesOk(s) && Adding(s, k, c, n, s')
    ensures BookOk(s') && HostsOk(s') && PulsesOk(s')
  {
    assert n.id !in s.past.book;
    forall id | id in s'.past.book ensures 0 < id <= s'.next.notif && Accounted(s', id) {
      AddAccounted(s, k, c, n, s', id);
    }
    hide Accounted;
  }

  lemma AddPools(s: State, k: Kind, c: nat, n: Notification, s': State)
    requires PoolsOk(s) && Adding(s, k, c, n, s')
    ensures PoolsOk(s')
  {
    assert L(s', Available) == s'.lists.available && L(s', Disconnect) == s'.lists.disconnect;
    forall p | p in s'.pools ensures PoolOk(s', p) {
      assert PoolOk(s, p);
      if k == Disconnect {
        assert s'.lists.disconnect[1..] == s.lists.disconnect;
      }
    }
  }

  lemma AddKeepsCore(s: State, k: Kind, c: nat, n: Notification)
    requires Core(s) && c in s.conns && Fresh(n, c)
    ensures Core(AddNotif(s, k, c, n))
  {
    var m := n.(id := s.next.notif + 1);
    var s' := AddNotif(s, k, c, n);
    assert Adding(s, k, c, m, s') && SameMaster(s, s');
    hide AddNotif, Adding;
    assert forall id :: id in s.past.book || id in s.past.pulses || id in s.past.withdrawn ==> id < m.id;
    assert ListsOk(s') by { AddLists(s, k, c, m, s'); }
    assert BookOk(s') && HostsOk(s') && PulsesOk(s') by { AddBook(s, k, c, m, s'); }
    assert PoolsOk(s') by { AddPools(s, k, c, m, s'); }
  }
}
