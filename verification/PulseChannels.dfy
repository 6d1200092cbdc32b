/** The reference-counted pool of pulse connections, and the notification objects
    that hold its descriptors across creation, moving, lazy connects and destruction. */
module PulseChannels {

  datatype Key = Key(nid: int, pid: int, chid: int)

  datatype Channel = Channel(key: Key, fd: int, refCount: nat)

  function KeyAt(l: seq<Channel>, key: Key): (i: int)
    ensures -1 <= i < |l|
    ensures i >= 0 ==> l[i].key == key
    ensures i < 0 ==> forall j :: 0 <= j < |l| ==> l[j].key != key
  {
    if l == [] then -1
    else if l[0].key == key then 0
    else var i := KeyAt(l[1..], key); if i < 0 then -1 else i + 1
  }

  function FdAt(l: seq<Channel>, fd: int): (i: int)
    ensures -1 <= i < |l|
    ensures i >= 0 ==> l[i].fd == fd
    ensures i < 0 ==> forall j :: 0 <= j < |l| ==> l[j].fd != fd
  {
    if l == [] then -1
    else if l[0].fd == fd then 0
    else var i := FdAt(l[1..], fd); if i < 0 then -1 else i + 1
  }

  /** attach; `os` is the descriptor of the new connection, or -1. */
  function Attached(l: seq<Channel>, key: Key, os: int): (seq<Channel>, int) {
    var i := KeyAt(l, key);
    if i >= 0 then (l[i := l[i].(refCount := l[i].refCount + 1)], l[i].fd)
    else if os >= 0 then (l + [Channel(key, os, 1)], os)
    else (l, -1)
  }

  /** release; also tells whether the descriptor is closed. */
  function Released(l: seq<Channel>, fd: int): (seq<Channel>, bool) {
    var i := FdAt(l, fd);
    if i < 0 then (l, false)
    else if l[i].refCount <= 1 then (l[..i] + l[i + 1..], true)
    else (l[i := l[i].(refCount := l[i].refCount - 1)], false)
  }

  // ---------------------------------------------------------------- objects and steps

  /** Live notification objects by address, with the descriptor each holds (coid). The
      histories count how often a descriptor was opened and closed. */
  datatype State = State(sockets: seq<Channel>, coid: map<nat, int>, opens: multiset<int>, closes: multiset<int>)

  datatype Event =
    | Create(o: nat)
    | Move(from: nat, to: nat)
    | Connect(o: nat, key: Key, os: int)
    | Destroy(o: nat)

  predicate Pooled(l: seq<Channel>, fd: int) {
    FdAt(l, fd) >= 0
  }

  /** Objects are created and moved into unused memory; only an unconnected object
      connects; the operating system returns -1 or a descriptor that is not in use. */
  predicate Enabled(s: State, e: Event) {
    match e
    case Create(o) => o !in s.coid
    case Move(from, to) => from in s.coid && to !in s.coid
    case Connect(o, _, os) => o in s.coid && s.coid[o] < 0 && os >= -1 && !Pooled(s.sockets, os)
    case Destroy(o) => o in s.coid
  }

  function Step(s: State, e: Event): State
    requires Enabled(s, e)
  {
    match e
    case Create(o) => s.(coid := s.coid[o := -1])
    case Move(from, to) => s.(coid := s.coid[to := s.coid[from]][from := -1])
    case Connect(o, key, os) =>
      var (l, fd) := Attached(s.sockets, key, os);
      State(l, s.coid[o := fd],
            if KeyAt(s.sockets, key) < 0 && os >= 0 then s.opens + multiset{os} else s.opens, s.closes)
    case Destroy(o) =>
      if s.coid[o] == -1 then s.(coid := s.coid - {o}) else
      var (l, last) := Released(s.sockets, s.coid[o]);
      State(l, s.coid - {o}, s.opens, if last then s.closes + multiset{s.coid[o]} else s.closes)
  }

  // ---------------------------------------------------------------- what every step keeps

  ghost function Holders(coid: map<nat, int>, fd: int): set<nat> {
    set o | o in coid && coid[o] == fd
  }

  ghost predicate UniqueKeys(l: seq<Channel>) {
    forall i, j :: 0 <= i < j < |l| ==> l[i].key != l[j].key && l[i].fd != l[j].fd
  }

  ghost predicate Counted(l: seq<Channel>, coid: map<nat, int>) {
    forall i :: 0 <= i < |l| ==> l[i].fd >= 0 && l[i].refCount == |Holders(coid, l[i].fd)| && l[i].refCount > 0
  }

  ghost predicate HeldArePooled(l: seq<Channel>, coid: map<nat, int>) {
    forall o :: o in coid ==> coid[o] == -1 || Pooled(l, coid[o])
  }

  ghost predicate Balanced(s: State) {
    forall fd :: s.opens[fd] == s.closes[fd] + (if Pooled(s.sockets, fd) then 1 else 0)
  }

  ghost predicate Inv(s: State) {
    UniqueKeys(s.sockets) && Counted(s.sockets, s.coid) && HeldArePooled(s.sockets, s.coid) && Balanced(s)
  }

  lemma PooledIff(l: seq<Channel>, fd: int)
    ensures Pooled(l, fd) <==> exists i :: 0 <= i < |l| && l[i].fd == fd
  {
  }

  /** One object changes what it holds. */
  lemma HoldersChange(coid: map<nat, int>, coid': map<nat, int>, o: nat, fd: int)
    requires forall x :: x != o ==> (x in coid <==> x in coid') && (x in coid ==> coid'[x] == coid[x])
    ensures |Holders(coid', fd)| == |Holders(coid, fd)|
              - (if o in coid && coid[o] == fd then 1 else 0) + (if o in coid' && coid'[o] == fd then 1 else 0)
  {
    var a, b := Holders(coid, fd), Holders(coid', fd);
    assert a - {o} == b - {o};
    assert |a - {o}| == |a| - (if o in a then 1 else 0);
    assert |b - {o}| == |b| - (if o in b then 1 else 0);
  }

  lemma CreateInv(s: State, o: nat)
    requires Inv(s) && o !in s.coid
    ensures Inv(Step(s, Create(o)))
  {
    var coid' := s.coid[o := -1];
    forall i | 0 <= i < |s.sockets| ensures |Holders(coid', s.sockets[i].fd)| == |Holders(s.coid, s.sockets[i].fd)| {
      HoldersChange(s.coid, coid', o, s.sockets[i].fd);
    }
  }

  /** A moving copy hands the descriptor over: the counts do not change. */
  lemma MoveInv(s: State, from: nat, to: nat)
    requires Inv(s) && from in s.coid && to !in s.coid
    ensures Inv(Step(s, Move(from, to)))
  {
    var mid := s.coid[to := s.coid[from]];
    var coid' := mid[from := -1];
    forall i | 0 <= i < |s.sockets| ensures |Holders(coid', s.sockets[i].fd)| == |Holders(s.coid, s.sockets[i].fd)| {
      HoldersChange(s.coid, mid, to, s.sockets[i].fd);
      HoldersChange(mid, coid', from, s.sockets[i].fd);
    }
  }

  ghost predicate SameChannels(l: seq<Channel>, l': seq<Channel>) {
    |l'| == |l| && forall i :: 0 <= i < |l| ==> l'[i].fd == l[i].fd && l'[i].key == l[i].key
  }

  lemma SamePooled(l: seq<Channel>, l': seq<Channel>)
    requires SameChannels(l, l')
    ensures UniqueKeys(l) ==> UniqueKeys(l')
    ensures forall x :: Pooled(l', x) <==> Pooled(l, x)
  {
    forall x ensures Pooled(l', x) <==> Pooled(l, x) {
      var i, j := FdAt(l, x), FdAt(l', x);
      hide FdAt;
      if i >= 0 { assert l'[i].fd == x; }
      if j >= 0 { assert l[j].fd == x; }
    }
  }

  lemma GrowPooled(l: seq<Channel>, c: Channel)
    requires UniqueKeys(l) && !Pooled(l, c.fd) && KeyAt(l, c.key) < 0
    ensures UniqueKeys(l + [c])
    ensures forall x :: Pooled(l + [c], x) <==> Pooled(l, x) || x == c.fd
  {
    hide FdAt, KeyAt;
    var l' := l + [c];
    forall x ensures Pooled(l', x) <==> Pooled(l, x) || x == c.fd {
      var i, j := FdAt(l, x), FdAt(l', x);
      if i >= 0 { assert l'[i].fd == x; }
      if x == c.fd { assert l'[|l|].fd == x; }
    }
  }

  lemma CutPooled(l: seq<Channel>, i: nat)
    requires UniqueKeys(l) && i < |l|
    ensures UniqueKeys(l[..i] + l[i + 1..])
    ensures forall x :: Pooled(l[..i] + l[i + 1..], x) <==> Pooled(l, x) && x != l[i].fd
  {
    hide FdAt;
    var l' := l[..i] + l[i + 1..];
    assert forall j :: 0 <= j < |l'| ==> l'[j] == (if j < i then l[j] else l[j + 1]);
    forall x ensures Pooled(l', x) <==> Pooled(l, x) && x != l[i].fd {
      var k, j := FdAt(l, x), FdAt(l', x);
      if k >= 0 && x != l[i].fd { assert l'[if k < i then k else k - 1].fd == x; }
      if j >= 0 { assert l[if j < i then j else j + 1].fd == x; }
    }
  }

  /** Connecting to a pooled key: one more holder. */
  lemma ConnectOld(s: State, o: nat, key: Key, os: int)
    requires Inv(s) && Enabled(s, Connect(o, key, os)) && KeyAt(s.sockets, key) >= 0
    ensures Inv(Step(s, Connect(o, key, os)))
  {
    hide FdAt, KeyAt, Holders;
    var s' := Step(s, Connect(o, key, os));
    var l, l' := s.sockets, s'.sockets;
    SamePooled(l, l');
    forall i | 0 <= i < |l'| ensures l'[i].refCount == |Holders(s'.coid, l'[i].fd)| {
      HoldersChange(s.coid, s'.coid, o, l'[i].fd);
    }
    var i := KeyAt(l, key);
    assert Pooled(l, l[i].fd);
  }

  lemma NotHeld(s: State, fd: int)
    requires HeldArePooled(s.sockets, s.coid) && fd != -1 && !Pooled(s.sockets, fd)
    ensures Holders(s.coid, fd) == {}
  {
  }

  lemma ConnectNew(s: State, o: nat, key: Key, os: int)
    requires Inv(s) && Enabled(s, Connect(o, key, os)) && KeyAt(s.sockets, key) < 0 && os >= 0
    ensures Inv(Step(s, Connect(o, key, os)))
  {
    hide FdAt, KeyAt, Holders;
    var s' := Step(s, Connect(o, key, os));
    var l, l' := s.sockets, s'.sockets;
    NotHeld(s, os);
    GrowPooled(l, Channel(key, os, 1));
    hide Pooled;
    forall i | 0 <= i < |l'| ensures l'[i].fd >= 0 && l'[i].refCount == |Holders(s'.coid, l'[i].fd)| && l'[i].refCount > 0 {
      HoldersChange(s.coid, s'.coid, o, l'[i].fd);
      if i < |l| { assert l'[i] == l[i]; NotThere(l, os, i); }
    }
  }

  lemma NotThere(l: seq<Channel>, fd: int, i: nat)
    requires !Pooled(l, fd) && i < |l|
    ensures l[i].fd != fd
  {
    hide FdAt;
  }

  lemma ConnectInv(s: State, o: nat, key: Key, os: int)
    requires Inv(s) && Enabled(s, Connect(o, key, os))
    ensures Inv(Step(s, Connect(o, key, os)))
  {
    if KeyAt(s.sockets, key) >= 0 {
      ConnectOld(s, o, key, os);
    } else if os >= 0 {
      ConnectNew(s, o, key, os);
    } else {
      hide FdAt;
      var s' := Step(s, Connect(o, key, os));
      assert s'.coid[o] == -1 == s.coid[o] by { assert s.coid[o] == -1 || Pooled(s.sockets, s.coid[o]); }
      assert s'.coid == s.coid;
    }
  }

  // ---------------------------------------------------------------- what each step does

  /** A new object holds nothing; a moving copy takes over what the old object held. */
  lemma CreatedAndMoved(s: State, a: nat, b: nat)
    ensures a !in s.coid ==> Step(s, Create(a)) == s.(coid := s.coid[a := -1])
    ensures a in s.coid && b !in s.coid ==>
              var s' := Step(s, Move(a, b));
              s' == s.(coid := s'.coid) && s'.coid.Keys == s.coid.Keys + {b} && s'.coid[b] == s.coid[a] && s'.coid[a] == -1
              && forall o :: o in s.coid && o != a ==> s'.coid[o] == s.coid[o]
  {
  }

  /** A key that is in the pool: the object gets its descriptor, which counts one more; nothing is
      opened. */
  lemma ConnectShares(s: State, o: nat, key: Key, os: int, i: nat)
    requires Inv(s) && Enabled(s, Connect(o, key, os)) && i < |s.sockets| && s.sockets[i].key == key
    ensures var s' := Step(s, Connect(o, key, os));
            && s'.coid == s.coid[o := s.sockets[i].fd] && s'.opens == s.opens && s'.closes == s.closes
            && s'.sockets == s.sockets[i := s.sockets[i].(refCount := s.sockets[i].refCount + 1)]
  {
    var k := KeyAt(s.sockets, key);
    hide KeyAt, FdAt, Counted, HeldArePooled, Balanced;
    assert k >= 0 && k == i;
  }

  /** A new key: the object gets the descriptor that was opened, which enters the pool with one
      reference; if opening failed, nothing changes. */
  lemma ConnectOpens(s: State, o: nat, key: Key, os: int)
    requires Enabled(s, Connect(o, key, os)) && forall i :: 0 <= i < |s.sockets| ==> s.sockets[i].key != key
    ensures var s' := Step(s, Connect(o, key, os));
            && s'.coid == s.coid[o := if os >= 0 then os else -1] && s'.closes == s.closes
            && s'.opens == (if os >= 0 then s.opens + multiset{os} else s.opens)
            && s'.sockets == s.sockets + if os >= 0 then [Channel(key, os, 1)] else []
  {
    var k := KeyAt(s.sockets, key);
    hide KeyAt, FdAt;
    assert k < 0 && s.sockets + [] == s.sockets;
  }

  /** Destroying an object that holds descriptor i of the pool: it counts one less, or goes and is
      closed if this was the last reference. One that holds none just goes. */
  lemma Destroyed(s: State, o: nat, i: nat)
    requires Inv(s) && o in s.coid
    ensures s.coid[o] == -1 ==> Step(s, Destroy(o)) == s.(coid := s.coid - {o})
    ensures i < |s.sockets| && s.coid[o] == s.sockets[i].fd && s.sockets[i].refCount > 1 ==>
              Step(s, Destroy(o)) == s.(coid := s.coid - {o}, sockets := s.sockets[i := s.sockets[i].(refCount := s.sockets[i].refCount - 1)])
    ensures i < |s.sockets| && s.coid[o] == s.sockets[i].fd && s.sockets[i].refCount <= 1 ==>
              Step(s, Destroy(o))
              == s.(coid := s.coid - {o}, sockets := s.sockets[..i] + s.sockets[i + 1..], closes := s.closes + multiset{s.coid[o]})
  {
    var k := FdAt(s.sockets, s.coid[o]);
    hide KeyAt, FdAt, HeldArePooled, Balanced, Holders;
    if i < |s.sockets| && s.coid[o] == s.sockets[i].fd { assert k >= 0 && k == i && s.sockets[i].fd >= 0; }
  }

  lemma DestroyHeld(s: State, o: nat)
    requires Inv(s) && o in s.coid && s.coid[o] != -1
    ensures var i := FdAt(s.sockets, s.coid[o]);
            i >= 0 && s.sockets[i].refCount == |Holders(s.coid, s.coid[o])| && UniqueKeys(s.sockets)
    ensures Holders(s.coid - {o}, s.coid[o]) == Holders(s.coid, s.coid[o]) - {o}
  {
    assert Pooled(s.sockets, s.coid[o]);
  }

  lemma DestroyInv(s: State, o: nat)
    requires Inv(s) && o in s.coid
    ensures Inv(Step(s, Destroy(o)))
  {
    var s' := Step(s, Destroy(o));
    var l, l' := s.sockets, s'.sockets;
    var fd := s.coid[o];
    if fd == -1 {
      forall i | 0 <= i < |l| ensures |Holders(s'.coid, l[i].fd)| == |Holders(s.coid, l[i].fd)| {
        HoldersChange(s.coid, s'.coid, o, l[i].fd);
      }
    } else {
      DestroyHeld(s, o);
      var i := FdAt(l, fd);
      HoldersChange(s.coid, s'.coid, o, fd);
      if l[i].refCount == 1 {
        LastHolder(s, o, i);
      } else {
        OtherHolders(s, o, i);
      }
    }
  }

  lemma LastHolder(s: State, o: nat, i: nat)
    requires Inv(s) && o in s.coid && i < |s.sockets| && s.coid[o] == s.sockets[i].fd && s.sockets[i].refCount == 1
    requires i == FdAt(s.sockets, s.coid[o])
    ensures Inv(Step(s, Destroy(o)))
  {
    hide FdAt;
    var s' := Step(s, Destroy(o));
    var l, l' := s.sockets, s'.sockets;
    var fd := l[i].fd;
    CutPooled(l, i);
    HoldersChange(s.coid, s'.coid, o, fd);
    assert Holders(s'.coid, fd) == {};
    assert HeldArePooled(l', s'.coid) by {
      forall x | x in s'.coid ensures s'.coid[x] == -1 || Pooled(l', s'.coid[x]) {
        assert x !in Holders(s'.coid, fd);
      }
    }
    hide Pooled, Holders;
    forall j | 0 <= j < |l'| ensures l'[j].fd >= 0 && l'[j].refCount == |Holders(s'.coid, l'[j].fd)| && l'[j].refCount > 0 {
      assert l'[j] == (if j < i then l[j] else l[j + 1]);
      HoldersChange(s.coid, s'.coid, o, l'[j].fd);
    }
  }

  lemma OtherHolders(s: State, o: nat, i: nat)
    requires Inv(s) && o in s.coid && i < |s.sockets| && s.coid[o] == s.sockets[i].fd && s.sockets[i].refCount > 1
    requires i == FdAt(s.sockets, s.coid[o])
    ensures Inv(Step(s, Destroy(o)))
  {
    hide FdAt, Holders;
    var s' := Step(s, Destroy(o));
    var l, l' := s.sockets, s'.sockets;
    SamePooled(l, l');
    hide Pooled;
    forall j | 0 <= j < |l'| ensures l'[j].refCount == |Holders(s'.coid, l'[j].fd)| {
      HoldersChange(s.coid, s'.coid, o, l'[j].fd);
    }
  }

  lemma StepKeepsInv(s: State, e: Event)
    requires Inv(s) && Enabled(s, e)
    ensures Inv(Step(s, e))
  {
    hide Inv;
    match e
    case Create(o) => CreateInv(s, o);
    case Move(from, to) => MoveInv(s, from, to);
    case Connect(o, key, os) => ConnectInv(s, o, key, os);
    case Destroy(o) => DestroyInv(s, o);
  }

  // ---------------------------------------------------------------- whole runs

  const INITIAL := State([], map[], multiset{}, multiset{})

  ghost predicate IsRun(es: seq<Event>)
    decreases |es|, 0
  {
    es == [] || (IsRun(es[..|es| - 1]) && Enabled(After(es[..|es| - 1]), es[|es| - 1]))
  }

  ghost function After(es: seq<Event>): State
    requires IsRun(es)
    decreases |es|, 1
  {
    if es == [] then INITIAL else Step(After(es[..|es| - 1]), es[|es| - 1])
  }

  lemma {:induction false} RunKeepsInv(es: seq<Event>)
    requires IsRun(es)
    ensures Inv(After(es))
  {
    if es != [] {
      RunKeepsInv(es[..|es| - 1]);
      StepKeepsInv(After(es[..|es| - 1]), es[|es| - 1]);
    }
  }

  /** Conservation: each pooled descriptor counts exactly the live objects that hold it,
      keys and descriptors are unique, nothing held is closed, and every descriptor was
      opened as often as it was closed, once more while it is pooled. */
  lemma SocketsConserved(es: seq<Event>)
    requires IsRun(es)
    ensures var s := After(es);
            && (forall i :: 0 <= i < |s.sockets| ==> s.sockets[i].refCount == |Holders(s.coid, s.sockets[i].fd)| > 0)
            && (forall i, j :: 0 <= i < j < |s.sockets| ==> s.sockets[i].key != s.sockets[j].key && s.sockets[i].fd != s.sockets[j].fd)
            && (forall o :: o in s.coid && s.coid[o] != -1 ==> exists i :: 0 <= i < |s.sockets| && s.sockets[i].fd == s.coid[o])
            && (forall fd :: s.opens[fd] == s.closes[fd] + if exists i :: 0 <= i < |s.sockets| && s.sockets[i].fd == fd then 1 else 0)
  {
    RunKeepsInv(es);
    var s := After(es);
    hide IsRun, After;
    forall o | o in s.coid && s.coid[o] != -1 ensures exists i :: 0 <= i < |s.sockets| && s.sockets[i].fd == s.coid[o] {
      PooledIff(s.sockets, s.coid[o]);
    }
    forall fd ensures s.opens[fd] == s.closes[fd] + if exists i :: 0 <= i < |s.sockets| && s.sockets[i].fd == fd then 1 else 0 {
      PooledIff(s.sockets, fd);
    }
  }

  /** A step closes a descriptor exactly when it destroys the last object that holds it. */
  lemma ClosedByTheLastHolder(es: seq<Event>, e: Event, fd: int)
    requires IsRun(es) && Enabled(After(es), e)
    ensures var s, s' := After(es), Step(After(es), e);
            s'.closes[fd] == s.closes[fd] + if e.Destroy? && fd != -1 && Holders(s.coid, fd) == {e.o} then 1 else 0
  {
    RunKeepsInv(es);
    var s := After(es);
    hide IsRun, After;
    if e.Destroy? && fd != -1 {
      if s.coid[e.o] == fd {
        DestroyHeld(s, e.o);
        assert e.o in Holders(s.coid, fd);
        var h := Holders(s.coid, fd);
        assert |h - {e.o}| == |h| - 1;
        assert |h| == 1 <==> h - {e.o} == {};
        assert h - {e.o} == {} <==> h == {e.o};
      } else {
        assert e.o !in Holders(s.coid, fd) && e.o in {e.o};
      }
    }
  }

  // ---------------------------------------------------------------- the pool object

  class PulseChannelManager {
    var sockets: seq<Channel>

    constructor ()
      ensures sockets == []
    {
      sockets := [];
    }

    method FindKey(key: Key) returns (i: int)
      ensures i == KeyAt(sockets, key)
    {
      i := 0;
      while i < |sockets|
        invariant 0 <= i <= |sockets|
        invariant KeyAt(sockets, key) == (var r := KeyAt(sockets[i..], key); if r < 0 then -1 else r + i)
      {
        assert sockets[i..][0] == sockets[i] && sockets[i..][1..] == sockets[i + 1..];
        if sockets[i].key == key { return; }
        i := i + 1;
      }
      i := -1;
    }

    method FindFd(fd: int) returns (i: int)
      ensures i == FdAt(sockets, fd)
    {
      i := 0;
      while i < |sockets|
        invariant 0 <= i <= |sockets|
        invariant FdAt(sockets, fd) == (var r := FdAt(sockets[i..], fd); if r < 0 then -1 else r + i)
      {
        assert sockets[i..][0] == sockets[i] && sockets[i..][1..] == sockets[i + 1..];
        if sockets[i].fd == fd { return; }
        i := i + 1;
      }
      i := -1;
    }

    method TryAddRef(key: Key) returns (fd: int)
      modifies this
      ensures KeyAt(old(sockets), key) < 0 ==> fd == -1 && sockets == old(sockets)
      ensures KeyAt(old(sockets), key) >= 0 ==> (sockets, fd) == Attached(old(sockets), key, -1)
    {
      var i := FindKey(key);
      if i >= 0 {
        sockets := sockets[i := sockets[i].(refCount := sockets[i].refCount + 1)];
        return sockets[i].fd;
      }
      return -1;
    }

    /** attach, given the answer of the operating system to a new connection. */
    method Attach(key: Key, os: int) returns (fd: int)
      requires os >= -1 && forall i :: 0 <= i < |sockets| ==> sockets[i].fd >= 0
      modifies this
      ensures (sockets, fd) == Attached(old(sockets), key, os)
    {
      fd := TryAddRef(key);
      if fd != -1 { return; }
      fd := os;
      if fd >= 0 {
        sockets := sockets + [Channel(key, fd, 1)];
      }
    }

    method Detach(fd: int) returns (closed: bool)
      modifies this
      ensures (sockets, closed) == Released(old(sockets), fd)
    {
      closed := false;
      var i := FindFd(fd);
      if i >= 0 {
        if sockets[i].refCount <= 1 {
          closed := true;
          sockets := sockets[..i] + sockets[i + 1..];
        } else {
          sockets := sockets[i := sockets[i].(refCount := sockets[i].refCount - 1)];
        }
      }
    }
  }
}
