/** The loops over the notification lists: what a whole pass keeps, erases and
    spares. A pass changes one list, the pools, the connections' ID lists, the
    job queue and the history, and nothing else; what it leaves behind is what
    its rule keeps, and everything its rule keeps is still there. */
module BrokerSweep {
  import opened BrokerTypes
  import opened ServerTable
  import opened BrokerSpec
  import opened BrokerInv

  lemma EraseKeepsCore(s: State, k: Kind, i: nat, s': State)
    requires Core(s) && Erasing(s, k, i, s')
    ensures Core(s')
  {
    var n := L(s, k)[i];
    assert Listed(s, k, n) && NewestFirst(L(s, k)) by { assert n in L(s, k); }
    EraseCuts(s, k, i, s');
    EraseReleases(s, k, i, s');
    assert ListsOk(s') by { CutKeepsLists(s, k, i, s'); }
    assert BookOk(s') by { CutKeepsBook(s, k, i, s'); }
    assert HostsOk(s') by { CutKeepsHosts(s, k, i, s'); }
    assert PulsesOk(s') by { CutKeepsPulses(s, k, i, s'); }
    assert PoolsOk(s') by { CutKeepsPools(s, k, i, s'); }
    CutKeepsGrants(s, n, s');
  }

  /** A list element of the old state, possibly silenced. */
  ghost predicate From(l: seq<Notification>, m: Notification) {
    m in l || (!m.active && m.(active := true) in l)
  }

  ghost predicate ConnsShrink(conns: map<nat, Conn>, conns': map<nat, Conn>) {
    && conns'.Keys == conns.Keys
    && (forall c :: c in conns ==>
          && conns'[c] == conns[c].(notifs := conns'[c].notifs)
          && (forall y :: y in conns'[c].notifs ==> y in conns[c].notifs))
  }

  ghost predicate Frame(s: State, s': State) {
    && s'.servers == s.servers && s'.clients == s.clients && s'.next == s.next && s'.past.book == s.past.book
    && s'.link == s.link.(outstanding := s'.link.outstanding, cleared := s'.link.cleared, lent := s'.link.lent)
  }

  ghost predicate KeepsBacked(s: State, s': State) {
    forall m :: m in s'.lists.disconnect && Backed(s.pools, m) ==> Backed(s'.pools, m)
  }

  /** Nothing but list k, the pools, the connections' ID lists, the job queue and the history changes. */
  ghost predicate Shrinks(s: State, s': State, k: Kind) {
    && Frame(s, s')
    && (forall k' :: k' != k ==> L(s', k') == L(s, k'))
    && (forall m :: m in L(s', k) ==> From(L(s, k), m))
    && ConnsShrink(s.conns, s'.conns)
    && KeepsBacked(s, s')
  }

  lemma ShrinksRefl(s: State, k: Kind)
    ensures Shrinks(s, s, k)
  {
  }

  lemma ShrinksTrans(s: State, t: State, u: State, k: Kind)
    requires Shrinks(s, t, k) && Shrinks(t, u, k)
    ensures Shrinks(s, u, k)
  {
    assert KeepsBacked(s, u) by {
      forall m | m in u.lists.disconnect && Backed(s.pools, m) ensures Backed(u.pools, m) {
        assert L(t, Disconnect) == t.lists.disconnect && L(u, Disconnect) == u.lists.disconnect;
        if k == Disconnect {
          assert From(t.lists.disconnect, m);
          var m' := if m in t.lists.disconnect then m else m.(active := true);
          assert Backed(s.pools, m') && m' in t.lists.disconnect;
          assert Backed(t.pools, m');
          assert Backed(t.pools, m);
        } else {
          assert m in t.lists.disconnect;
        }
      }
    }
  }

  lemma EraseFrame(s: State, k: Kind, i: nat, s': State)
    requires Erasing(s, k, i, s')
    ensures Frame(s, s')
  {
    hide EraseAt;
  }

  lemma EraseKeepsBacked(s: State, k: Kind, i: nat, s': State)
    requires PoolsOk(s) && Erasing(s, k, i, s') && Listed(s, k, L(s, k)[i])
    ensures KeepsBacked(s, s')
  {
    EraseCuts(s, k, i, s');
    EraseReleases(s, k, i, s');
    hide Erasing, Cutting, Releasing, PoolsOk, Listed, Backed;
    forall m | m in s'.lists.disconnect && Backed(s.pools, m) ensures Backed(s'.pools, m) {
      CutKeepsBacked(s, k, i, s', m);
    }
  }

  lemma ForgetShrinks(conns: map<nat, Conn>, conns': map<nat, Conn>, id: nat)
    requires ConnsForget(conns, conns', id)
    ensures ConnsShrink(conns, conns')
  {
  }

  lemma EraseShrinks(s: State, k: Kind, i: nat, s': State)
    requires PoolsOk(s) && AllListed(s) && Erasing(s, k, i, s')
    ensures Shrinks(s, s', k)
  {
    assert Listed(s, k, L(s, k)[i]) by { assert L(s, k)[i] in L(s, k); }
    EraseFrame(s, k, i, s');
    EraseCuts(s, k, i, s');
    EraseKeepsBacked(s, k, i, s');
    hide Erasing, PoolsOk, Listed, AllListed, Frame, KeepsBacked;
    hide ConnsForget;
    assert ConnsShrink(s.conns, s'.conns) by { ForgetShrinks(s.conns, s'.conns, L(s, k)[i].id); }
    hide ConnsShrink;
    assert forall m :: m in L(s', k) ==> m in L(s, k);
  }

  ghost predicate Silencing(s: State, i: nat, s': State) {
    i < |s.lists.available| && s' == s.(lists := s.lists.(available := s.lists.available[i := s.lists.available[i].(active := false)]))
  }

  lemma SilenceLists(s: State, i: nat, s': State)
    requires ListsOk(s) && Silencing(s, i, s')
    ensures ListsOk(s')
  {
    var n := s.lists.available[i];
    assert n in L(s, Available);
    forall k, m | m in L(s', k) ensures Listed(s', k, m) {
      if k != Available || m in L(s, k) {
        assert m in L(s, k);
      }
      assert Listed(s, k, if m in L(s, k) then m else n);
    }
    forall k ensures NewestFirst(L(s', k)) {
      assert NewestFirst(L(s, k));
    }
  }

  lemma SilenceKeepsCore(s: State, i: nat, s': State)
    requires Core(s) && Silencing(s, i, s')
    ensures Core(s')
  {
    hide ListsOk, BookOk, PoolsOk;
    SilenceLists(s, i, s');
    SilenceBook(s, i, s');
    SilencePools(s, i, s');
    hide AllCookies, Increasing, Stored;
  }

  lemma SilenceBook(s: State, i: nat, s': State)
    requires BookOk(s) && Silencing(s, i, s')
    ensures BookOk(s')
  {
    forall id | id in s'.past.book ensures Accounted(s', id) {
      SilenceAccounted(s, i, s', id);
    }
  }

  lemma SilencePools(s: State, i: nat, s': State)
    requires PoolsOk(s) && Silencing(s, i, s')
    ensures PoolsOk(s')
  {
    hide PoolOrder;
    assert s.lists.available[i] in s.lists.available;
    forall p | p in s'.pools ensures PoolOk(s', p) {
      assert PoolOk(s, p);
    }
  }

  lemma SilenceShrinks(s: State, i: nat, s': State)
    requires Silencing(s, i, s')
    ensures Shrinks(s, s', Available)
  {
    assert forall k :: k != Available ==> L(s', k) == L(s, k);
    forall m | m in L(s', Available) ensures From(L(s, Available), m) {
      var n := s.lists.available[i];
      assert m in s.lists.available || m == n.(active := false);
      assert n in s.lists.available;
      if !n.active { assert n.(active := false) == n; } else { assert n.(active := false).(active := true) == n; }
    }
  }

  lemma SilenceAccounted(s: State, i: nat, s': State, id: nat)
    requires Silencing(s, i, s')
    requires id in s.past.book && Accounted(s, id)
    ensures Accounted(s', id)
  {
    var k := s.past.book[id].kind;
    if InList(s, k, id) {
      var m :| m in L(s, k) && m.id == id;
      if k == Available {
        var j :| 0 <= j < |s.lists.available| && s.lists.available[j] == m;
        assert L(s', k)[j].id == id && L(s', k)[j] in L(s', k);
      } else {
        assert m in L(s', k);
      }
    }
  }

  lemma CoreParts(s: State)
    requires Core(s)
    ensures PoolsOk(s) && AllListed(s)
  {
  }

  lemma TurnKeeps(cfg: Config, s: State, k: Kind, r: Rule, i: nat)
    requires Core(s) && i < |L(s, k)| && (r.ByOffer? ==> k == Available)
    ensures Core(Turn(cfg, s, k, r, i)) && Shrinks(s, Turn(cfg, s, k, r, i), k)
  {
    hide Core, Shrinks, EraseAt;
    var s' := Turn(cfg, s, k, r, i);
    match Act(cfg, s, r, L(s, k)[i])
    case Keep =>
      ShrinksRefl(s, k);
    case Silence =>
      SilenceKeepsCore(s, i, s');
      SilenceShrinks(s, i, s');
    case _ =>
      EraseKeepsCore(s, k, i, s');
      assert PoolsOk(s) && AllListed(s) by { CoreParts(s); }
      EraseShrinks(s, k, i, s');
  }

  /** A notification that a rule keeps is still kept after others were erased. */
  lemma KeepStable(cfg: Config, s: State, s': State, k: Kind, r: Rule, m: Notification)
    requires Shrinks(s, s', k) && Act(cfg, s, r, m) == Keep
    ensures Act(cfg, s', r, m) == Keep
  {
  }

  lemma SilencedKeep(cfg: Config, s: State, s': State, r: Rule, n: Notification)
    requires Act(cfg, s, r, n) == Silence
    ensures Act(cfg, s', r, n.(active := false)) == Keep
  {
  }

  /** Everything in the result that was in reach of the sweep is kept by the rule. */
  ghost predicate Settled(cfg: Config, s': State, k: Kind, r: Rule, i: nat) {
    forall j :: i <= j < |L(s', k)| ==> Act(cfg, s', r, L(s', k)[j]) == Keep
  }

  /** What the rule keeps, the sweep spares. */
  ghost predicate Spared(cfg: Config, s: State, s': State, k: Kind, r: Rule) {
    forall m :: m in L(s, k) && Act(cfg, s, r, m) == Keep ==> m in L(s', k)
  }

  /** One whole sweep: the invariant is kept, everything the rule keeps is spared,
      and everything left behind is something the rule keeps. */
  lemma {:induction false} SweepKeeps(cfg: Config, s: State, k: Kind, r: Rule, i: nat)
    requires Core(s) && i <= |L(s, k)| && (r.ByOffer? ==> k == Available)
    ensures var s' := Sweep(cfg, s, k, r, i);
            Core(s') && Shrinks(s, s', k) && i <= |L(s', k)| && L(s', k)[..i] == L(s, k)[..i]
    ensures Settled(cfg, Sweep(cfg, s, k, r, i), k, r, i)
    ensures Spared(cfg, s, Sweep(cfg, s, k, r, i), k, r)
    decreases |L(s, k)| - i
  {
    if i == |L(s, k)| {
      ShrinksRefl(s, k);
    } else {
      hide Core, Shrinks, Settled, Spared, Turn, Act;
      var s1 := Turn(cfg, s, k, r, i);
      var s' := Sweep(cfg, s, k, r, i);
      TurnKeeps(cfg, s, k, r, i);
      TurnList(cfg, s, k, r, i);
      var i' := if Erases(Act(cfg, s, r, L(s, k)[i])) then i else i + 1;
      assert s' == Sweep(cfg, s1, k, r, i');
      SweepKeeps(cfg, s1, k, r, i');
      ShrinksTrans(s, s1, s', k);
      SweepJoin(cfg, s, s1, s', k, r, i);
      SparedJoin(cfg, s, s1, s', k, r, i);
    }
  }

  /** The list after one turn. */
  lemma TurnList(cfg: Config, s: State, k: Kind, r: Rule, i: nat)
    requires i < |L(s, k)|
    ensures var a := Act(cfg, s, r, L(s, k)[i]);
            var s1 := Turn(cfg, s, k, r, i);
            && (Erases(a) ==> L(s1, k) == Cut(L(s, k), i))
            && (a == Keep ==> s1 == s)
            && (a == Silence ==> L(s1, k) == L(s, k)[i := L(s, k)[i].(active := false)])
  {
    hide Act, Drop;
  }

  lemma CutFacts<T>(l: seq<T>, i: nat)
    requires i < |l|
    ensures |Cut(l, i)| == |l| - 1 && Cut(l, i)[..i] == l[..i]
    ensures forall j :: 0 <= j < |l| && j != i ==> l[j] in Cut(l, i)
  {
    var r := Cut(l, i);
    assert forall j :: 0 <= j < i ==> r[j] == l[j];
    assert forall j :: i < j < |l| ==> r[j - 1] == l[j];
  }

  lemma PrefixOf<T>(a: seq<T>, b: seq<T>, i: nat, j: nat)
    requires i <= j <= |a| && j <= |b| && a[..j] == b[..j]
    ensures a[..i] == b[..i] && (i < j ==> a[i] == b[i])
  {
    assert a[..i] == a[..j][..i] && b[..i] == b[..j][..i];
    if i < j { assert a[i] == a[..j][i] && b[i] == b[..j][i]; }
  }

  lemma SweepJoin(cfg: Config, s: State, s1: State, s': State, k: Kind, r: Rule, i: nat)
    requires i < |L(s, k)| && s1 == Turn(cfg, s, k, r, i) && Shrinks(s, s1, k) && Shrinks(s1, s', k)
    requires var i' := if Erases(Act(cfg, s, r, L(s, k)[i])) then i else i + 1;
             && i' <= |L(s1, k)| && i' <= |L(s', k)| && L(s', k)[..i'] == L(s1, k)[..i']
             && Settled(cfg, s', k, r, i')
    ensures L(s', k)[..i] == L(s, k)[..i]
    ensures Settled(cfg, s', k, r, i)
  {
    hide Shrinks, Act, Turn, L, Cut;
    var a := Act(cfg, s, r, L(s, k)[i]);
    var l, l1, l' := L(s, k), L(s1, k), L(s', k);
    var i' := if Erases(a) then i else i + 1;
    TurnList(cfg, s, k, r, i);
    CutFacts(l, i);
    PrefixOf(l', l1, i, i');
    if !Erases(a) {
      ShrinksTrans(s, s1, s', k);
      if a == Keep {
        KeepStable(cfg, s, s', k, r, l[i]);
      } else {
        SilencedKeep(cfg, s, s', r, l[i]);
      }
      assert Act(cfg, s', r, l'[i]) == Keep;
    }
  }

  lemma SparedOne(cfg: Config, s: State, s1: State, k: Kind, r: Rule, i: nat, m: Notification)
    requires i < |L(s, k)| && s1 == Turn(cfg, s, k, r, i) && Shrinks(s, s1, k)
    requires m in L(s, k) && Act(cfg, s, r, m) == Keep
    ensures m in L(s1, k) && Act(cfg, s1, r, m) == Keep
  {
    hide Shrinks, Act, Turn, L, Cut;
    KeepStable(cfg, s, s1, k, r, m);
    TurnList(cfg, s, k, r, i);
    var l, l1 := L(s, k), L(s1, k);
    var j :| 0 <= j < |l| && l[j] == m;
    if Erases(Act(cfg, s, r, l[i])) {
      CutFacts(l, i);
    } else {
      assert l1[j] == m;
    }
  }

  lemma SparedJoin(cfg: Config, s: State, s1: State, s': State, k: Kind, r: Rule, i: nat)
    requires i < |L(s, k)| && s1 == Turn(cfg, s, k, r, i) && Shrinks(s, s1, k)
    requires Spared(cfg, s1, s', k, r)
    ensures Spared(cfg, s, s', k, r)
  {
    hide Shrinks, Act, Turn, L;
    forall m | m in L(s, k) && Act(cfg, s, r, m) == Keep ensures m in L(s', k) {
      SparedOne(cfg, s, s1, k, r, i, m);
    }
  }
}
