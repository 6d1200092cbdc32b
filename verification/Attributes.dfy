/** Vector attributes with partial updates: the server changes its vector, sends the
    changed part, and the client repeats the change on its copy. */
module Attributes {
  import opened Utf8
  import opened Wire
  import opened WireReader
  import opened WireRoundTrip
  import opened Packets
  import opened Streams
  import opened Transport

  datatype UpdateType = NoUpdate | Complete | Insert | Replace | Delete

  /** The enumeration as the 32 bits that are sent; UPDATE_NONE is -1. */
  function Code(t: UpdateType): nat {
    match t
    case NoUpdate => 0xFFFF_FFFF
    case Complete => 0
    case Insert => 1
    case Replace => 2
    case Delete => 3
  }

  function Decoded(x: nat): UpdateType {
    if x == 0 then Complete else if x == 1 then Insert else if x == 2 then Replace
    else if x == 3 then Delete else NoUpdate
  }

  /** Conversion to int16_t, and the bits of one. */
  function Trunc16(n: int): (r: int)
    ensures -0x8000 <= r < 0x8000
    ensures -0x8000 <= n < 0x8000 ==> r == n
  {
    (n + 0x8000) % 0x1_0000 - 0x8000
  }

  function Bits16(n: int): (r: nat)
    requires -0x8000 <= n < 0x8000
    ensures r < 0x1_0000
  {
    if n < 0 then n + 0x1_0000 else n
  }

  function Signed16(x: nat): int {
    if x < 0x8000 then x else x - 0x1_0000
  }

  predicate Int16(n: int) {
    -0x8000 <= n < 0x8000
  }

  const MAX16: nat := 0x7FFF

  /** The elements from p to q make room for others. */
  function Splice<T>(v: seq<T>, p: nat, q: nat, x: seq<T>): (r: seq<T>)
    requires p <= q <= |v|
    ensures |r| == |v| - (q - p) + |x|
  {
    v[..p] + x + v[q..]
  }

  lemma SpliceMid<T>(v: seq<T>, p: nat, q: nat, x: seq<T>, n: nat)
    requires p <= q <= |v| && n <= |x|
    ensures Splice(v, p, q, x)[p..p + n] == x[..n]
  {}

  // ---------------------------------------------------------------- the server's side

  /** The arguments of ServerAttribute::set. */
  datatype Update = Update(kind: UpdateType, from: seq<Item>, position: int, count: int)

  function SetPosition(u: Update): (p: int)
    ensures p >= 0
  {
    if u.kind == Complete || u.position < 0 then 0 else u.position
  }

  function SetCount(v: seq<Item>, u: Update): int {
    match u.kind
    case NoUpdate => u.count
    case Delete => if u.count < 0 then Trunc16(|v| - SetPosition(u)) else u.count
    case _ => Trunc16(|u.from|)
  }

  /** The iterator arithmetic of set stays inside the vector. */
  predicate Applicable(v: seq<Item>, u: Update) {
    var p := SetPosition(u);
    match u.kind
    case Insert => p <= |v|
    case Replace => p + |u.from| <= |v|
    case Delete => SetCount(v, u) >= 0 && p + SetCount(v, u) <= |v|
    case _ => true
  }

  function SetValue(v: seq<Item>, u: Update): seq<Item>
    requires Applicable(v, u)
  {
    var p := SetPosition(u);
    match u.kind
    case NoUpdate => v
    case Complete => u.from
    case Insert => Splice(v, p, p, u.from)
    case Replace => Splice(v, p, p + |u.from|, u.from)
    case Delete => Splice(v, p, p + SetCount(v, u), [])
  }

  /** The counts that writePartialAttribute sends and uses, for a vector of length n. */
  function SentPosition(position: int): int {
    if position < 0 then 0 else position
  }

  function SentCount(n: nat, position: int, count: int): int {
    if count < 0 then Trunc16(n - SentPosition(position)) else count
  }

  function SentSize(n: nat, kind: UpdateType, position: int, count: int): int {
    if kind == Delete then 0 else SentCount(n, position, count)
  }

  /** The elements it addresses lie inside the vector. */
  predicate Addressable(n: nat, kind: UpdateType, position: int, count: int) {
    var size := SentSize(n, kind, position, count);
    size > 0 ==> SentPosition(position) + size <= n
  }

  /** The item behind the counts: the elements, or a bare negative size. */
  function SizedElements(t: seq<Item>, p: nat, size: int): Item
    requires -0x8000 <= size < 0x8000 && (size > 0 ==> p + size <= |t|)
  {
    if size < 0 then IScalar(4, size + TWO32) else IVector(if size == 0 then [] else t[p..p + size])
  }

  /** What writePartialAttribute puts on the stream. A negative size is sent as it is. */
  function PartialItems(t: seq<Item>, kind: UpdateType, position: int, count: int): (ws: seq<Item>)
    requires Int16(position) && Int16(count) && Addressable(|t|, kind, position, count)
    ensures |ws| == 4
  {
    var p := SentPosition(position);
    var size := SentSize(|t|, kind, position, count);
    [IScalar(4, Code(kind)), IScalar(2, Bits16(p)), IScalar(2, Bits16(SentCount(|t|, position, count))),
     SizedElements(t, p, size)]
  }

  /** What one call of the generated setter sends: set, then write the new value. */
  function UpdateItems(v: seq<Item>, u: Update): seq<Item>
    requires Int16(u.position) && Int16(u.count) && Applicable(v, u)
    requires Addressable(|SetValue(v, u)|, u.kind, SetPosition(u), SetCount(v, u))
  {
    PartialItems(SetValue(v, u), u.kind, SetPosition(u), SetCount(v, u))
  }

  // ---------------------------------------------------------------- the client's side

  /** The edit of readPartialAttribute; None where its iterators leave the vector. */
  datatype Replica = Holds(value: seq<Val>) | Undefined

  function Apply(t: seq<Val>, kind: UpdateType, p: int, count: int, vec: seq<Val>): Replica {
    match kind
    case NoUpdate => Holds(t)
    case Complete => Holds(vec)
    case Insert => if 0 <= p <= |t| then Holds(Splice(t, p, p, vec)) else Undefined
    case Replace => if 0 <= p && p + |vec| <= |t| then Holds(Splice(t, p, p + |vec|, vec)) else Undefined
    case Delete => if 0 <= p && 0 <= count && p + count <= |t| then Holds(Splice(t, p, p + count, [])) else Undefined
  }

  function PartialTypes(e: Ty): seq<Ty> {
    [TScalar(4), TScalar(2), TScalar(2), TVector(e)]
  }

  function Number(v: Val): nat {
    if v.VScalar? then v.bits else 0
  }

  /** readPartialAttribute. An exception leaves the copy alone; after a stream error the
      local variables are not initialised. */
  function ReadPartial(e: Ty, t: seq<Val>, b: seq<Byte>, c: Cursor): (Replica, Cursor)
    requires WfTy(e)
  {
    var (vs, c1) := ReadList(PartialTypes(e), b, c);
    if c1.status == Threw then (Holds(t), c1)
    else if c1.status == Range || |vs| != 4 then (Undefined, c1)
    else (Apply(t, Decoded(Number(vs[0])), Signed16(Number(vs[1])), Signed16(Number(vs[2])), Elems(vs[3])), c1)
  }

  // ---------------------------------------------------------------- what an edit is, element by element

  /** The place an edit works on lies inside a vector of length n. */
  ghost predicate Editable(kind: UpdateType, p: int, count: int, parts: nat, n: nat) {
    match kind
    case Insert => 0 <= p <= n
    case Replace => 0 <= p && p + parts <= n
    case Delete => 0 <= p && 0 <= count && p + count <= n
    case _ => true
  }

  /** COMPLETE replaces everything; INSERT puts the new elements before position p; REPLACE overwrites
      as many elements from p on; DELETE takes `count` elements from p on. All others keep their value
      and their order. */
  ghost predicate EditedTo<T>(kind: UpdateType, p: int, count: int, parts: seq<T>, v: seq<T>, v': seq<T>)
    requires Editable(kind, p, count, |parts|, |v|)
  {
    match kind
    case NoUpdate => v' == v
    case Complete => v' == parts
    case Insert =>
      && |v'| == |v| + |parts| && (forall i :: 0 <= i < p ==> v'[i] == v[i])
      && (forall i :: 0 <= i < |parts| ==> v'[p + i] == parts[i]) && (forall i :: p <= i < |v| ==> v'[i + |parts|] == v[i])
    case Replace =>
      && |v'| == |v| && (forall i :: 0 <= i < p ==> v'[i] == v[i])
      && (forall i :: 0 <= i < |parts| ==> v'[p + i] == parts[i]) && (forall i :: p + |parts| <= i < |v| ==> v'[i] == v[i])
    case Delete =>
      && |v'| == |v| - count && (forall i :: 0 <= i < p ==> v'[i] == v[i])
      && (forall i :: p <= i < |v'| ==> v'[i] == v[i + count])
  }

  /** An edit has one result. */
  lemma EditedOnce<T>(kind: UpdateType, p: int, count: int, parts: seq<T>, v: seq<T>, a: seq<T>, b: seq<T>)
    requires Editable(kind, p, count, |parts|, |v|) && EditedTo(kind, p, count, parts, v, a) && EditedTo(kind, p, count, parts, v, b)
    ensures a == b
  {
    forall i | 0 <= i < |a| ensures a[i] == b[i] {
      if kind == Insert {
        if p <= i < p + |parts| { assert a[p + (i - p)] == parts[i - p] == b[p + (i - p)]; }
        if i >= p + |parts| { assert a[(i - |parts|) + |parts|] == v[i - |parts|] == b[(i - |parts|) + |parts|]; }
      }
      if kind == Replace && p <= i < p + |parts| { assert a[p + (i - p)] == parts[i - p] == b[p + (i - p)]; }
    }
  }

  lemma SplicedElements<T>(v: seq<T>, p: nat, q: nat, x: seq<T>)
    requires p <= q <= |v|
    ensures var r := Splice(v, p, q, x);
            && |r| == |v| - (q - p) + |x| && (forall i :: 0 <= i < p ==> r[i] == v[i])
            && (forall i :: 0 <= i < |x| ==> r[p + i] == x[i]) && (forall i :: q <= i < |v| ==> r[i + |x| - (q - p)] == v[i])
  {
  }

  /** The server's edit, and where it cannot be made. */
  lemma SetEdits(v: seq<Item>, u: Update)
    ensures Applicable(v, u) <==> Editable(u.kind, SetPosition(u), SetCount(v, u), |u.from|, |v|)
    ensures Applicable(v, u) ==> EditedTo(u.kind, SetPosition(u), SetCount(v, u), u.from, v, SetValue(v, u))
  {
    if Applicable(v, u) {
      var p := SetPosition(u);
      match u.kind
      case Insert => SplicedElements(v, p, p, u.from);
      case Replace => SplicedElements(v, p, p + |u.from|, u.from);
      case Delete =>
        SplicedElements(v, p, p + SetCount(v, u), []);
        TailMoves(v, SetValue(v, u), p, SetCount(v, u));
      case _ =>
    }
  }

  /** Elements behind a gap, counted from either side. */
  lemma TailMoves<T>(v: seq<T>, r: seq<T>, p: nat, count: nat)
    requires p + count <= |v| && |r| == |v| - count && forall i :: p + count <= i < |v| ==> r[i - count] == v[i]
    ensures forall i :: p <= i < |r| ==> r[i] == v[i + count]
  {
    forall i | p <= i < |r| ensures r[i] == v[i + count] { assert r[(i + count) - count] == v[i + count]; }
  }

  /** The client's edit, and where it cannot be made. */
  lemma ApplyEdits(t: seq<Val>, kind: UpdateType, p: int, count: int, vec: seq<Val>)
    ensures Apply(t, kind, p, count, vec).Holds? <==> Editable(kind, p, count, |vec|, |t|)
    ensures Editable(kind, p, count, |vec|, |t|) ==> EditedTo(kind, p, count, vec, t, Apply(t, kind, p, count, vec).value)
  {
    if Editable(kind, p, count, |vec|, |t|) {
      match kind
      case Insert => SplicedElements(t, p, p, vec);
      case Replace => SplicedElements(t, p, p + |vec|, vec);
      case Delete =>
        SplicedElements(t, p, p + count, []);
        TailMoves(t, Apply(t, kind, p, count, vec).value, p, count);
      case _ =>
    }
  }

  // ---------------------------------------------------------------- one update

  ghost predicate Elements(e: Ty, ws: seq<Item>) {
    WfTy(e) && forall i :: 0 <= i < |ws| ==> Sendable(e, ws[i])
  }

  /** A valid update: indices in range and sizes within int16_t. */
  ghost predicate ValidUpdate(e: Ty, v: seq<Item>, u: Update) {
    && Int16(u.position) && Int16(u.count) && Elements(e, u.from) && Applicable(v, u)
    && u.kind != NoUpdate && (u.kind != Delete ==> |u.from| <= MAX16)
  }

  lemma {:induction false} AbsAllJoin(a: seq<Item>, b: seq<Item>)
    ensures AbsAll(a + b) == AbsAll(a) + AbsAll(b)
  {
    hide Abs;
    if a == [] {
      assert a + b == b;
    } else {
      assert (a + b)[1..] == a[1..] + b;
      AbsAllJoin(a[1..], b);
    }
  }

  lemma SplitVector(v: seq<Item>, p: nat)
    requires p <= |v|
    ensures AbsAll(v[..p]) == AbsAll(v)[..p] && AbsAll(v[p..]) == AbsAll(v)[p..]
  {
    hide AbsAll;
    AbsAllJoin(v[..p], v[p..]);
    assert v[..p] + v[p..] == v;
  }

  lemma SpliceVector(v: seq<Item>, p: nat, q: nat, x: seq<Item>)
    requires p <= q <= |v|
    ensures AbsAll(Splice(v, p, q, x)) == Splice(AbsAll(v), p, q, AbsAll(x))
  {
    hide AbsAll;
    SplitVector(v, p);
    SplitVector(v, q);
    AbsAllJoin(v[..p], x);
    AbsAllJoin(v[..p] + x, v[q..]);
  }

  lemma PartOf(v: seq<Item>, p: nat, q: nat)
    requires p <= q <= |v|
    ensures AbsAll(v[p..q]) == AbsAll(v)[p..q]
  {
    hide AbsAll;
    SplitVector(v, q);
    SplitVector(v[..q], p);
    assert v[..q][p..] == v[p..q];
  }

  lemma VectorSendable(e: Ty, ws: seq<Item>)
    requires Elements(e, ws) && |ws| < TWO31
    ensures Sendable(TVector(e), IVector(ws))
  {
    var ty := TVector(e);
    var places := Resize([], |ws|, Default(e));
    VectorTyped(e, ws);
    hide HasType, Portable;
    EachCovers(ty, places, ws);
  }

  lemma VectorTyped(e: Ty, ws: seq<Item>)
    requires Elements(e, ws) && |ws| < TWO31
    ensures HasType(IVector(ws), TVector(e)) && Portable(IVector(ws))
    ensures EachTyped(TVector(e), ws)
  {
    hide Covers;
  }

  lemma {:induction false} EachCovers(ty: Ty, places: seq<Val>, ws: seq<Item>)
    requires EachTyped(ty, ws) && |places| == |ws|
    requires forall i :: 0 <= i < |ws| ==> places[i] == Default(ty.elem) && Sendable(ty.elem, ws[i])
    ensures CoversEach(ty, places, ws)
  {
    hide HasType, Covers, Portable;
    if ws != [] {
      assert Sendable(ty.elem, ws[0]);
      EachCovers(ty, places[1..], ws[1..]);
    }
  }

  lemma NumberSendable(n: nat, x: nat)
    requires IsSize(n) && x < Limit(n)
    ensures Sendable(TScalar(n), IScalar(n, x)) && Abs(IScalar(n, x)) == VScalar(x)
  {
  }

  /** The elements an update carries. */
  function Carried(u: Update): seq<Item> {
    if u.kind == Delete then [] else u.from
  }

  lemma NewElements(v: seq<Item>, u: Update, n: nat)
    requires Applicable(v, u) && (u.kind == Complete || u.kind == Insert || u.kind == Replace) && n <= |u.from|
    ensures var p := SetPosition(u); p + n <= |SetValue(v, u)| && SetValue(v, u)[p..p + n] == u.from[..n]
  {
    hide Splice;
    var p := SetPosition(u);
    if u.kind == Insert { SpliceMid(v, p, p, u.from, n); }
    if u.kind == Replace { SpliceMid(v, p, p + |u.from|, u.from, n); }
  }

  /** The four items of a valid update say exactly which edit it was. */
  lemma UpdateIs(e: Ty, v: seq<Item>, u: Update)
    requires WfTy(e) && ValidUpdate(e, v, u)
    ensures 0 <= SetPosition(u) <= MAX16 && 0 <= SetCount(v, u) <= MAX16
    ensures Addressable(|SetValue(v, u)|, u.kind, SetPosition(u), SetCount(v, u))
    ensures UpdateItems(v, u)
         == [IScalar(4, Code(u.kind)), IScalar(2, SetPosition(u)), IScalar(2, SetCount(v, u)), IVector(Carried(u))]
  {
    hide Elements;
    if u.kind != Delete && u.from != [] {
      var p := SetPosition(u);
      assert SetCount(v, u) == |u.from|;
      NewElements(v, u, |u.from|);
      assert u.from[..|u.from|] == u.from;
    }
  }

  /** The client's edit mirrors the server's. */
  lemma ApplyMirrors(e: Ty, v: seq<Item>, u: Update)
    requires ValidUpdate(e, v, u)
    ensures Apply(AbsAll(v), u.kind, SetPosition(u), SetCount(v, u), AbsAll(Carried(u))) == Holds(AbsAll(SetValue(v, u)))
  {
    hide Elements, AbsAll, Splice;
    var p := SetPosition(u);
    if u.kind == Insert {
      SpliceVector(v, p, p, u.from);
    } else if u.kind == Replace {
      SpliceVector(v, p, p + |u.from|, u.from);
    } else if u.kind == Delete {
      SpliceVector(v, p, p + SetCount(v, u), []);
      NoneAbs();
    }
  }

  lemma NoneAbs()
    ensures AbsAll([]) == []
  {}

  lemma FourRead(a: Item, b: Item, c: Item, d: Item)
    ensures AbsAll([a, b, c, d]) == [Abs(a), Abs(b), Abs(c), Abs(d)]
  {
    hide Abs;
    assert [a, b, c, d][1..] == [b, c, d] && [b, c, d][1..] == [c, d] && [c, d][1..] == [d];
    assert AbsAll([d]) == [Abs(d)];
    assert AbsAll([c, d]) == [Abs(c), Abs(d)];
    assert AbsAll([b, c, d]) == [Abs(b), Abs(c), Abs(d)];
  }

  /** One update: a client equal to the server before is equal to it afterwards. */
  lemma UpdateConverges(e: Ty, v: seq<Item>, u: Update, b: seq<Byte>, o: nat)
    requires WfTy(e) && ValidUpdate(e, v, u)
    requires Addressable(|SetValue(v, u)|, u.kind, SetPosition(u), SetCount(v, u)) && ImageAll(UpdateItems(v, u), b, o)
    ensures ReadPartial(e, AbsAll(v), b, Cursor(o, Fine))
         == (Holds(AbsAll(SetValue(v, u))), Cursor(EndAll(UpdateItems(v, u), o), Fine))
  {
    UpdateIs(e, v, u);
    ApplyMirrors(e, v, u);
    hide ReadPartial, UpdateItems, Apply, ImageAll, EndAll, AbsAll, SetValue;
    CarriedElements(e, v, u);
    FourReads(e, u.kind, SetPosition(u), SetCount(v, u), Carried(u), b, o, AbsAll(v));
  }

  lemma CarriedElements(e: Ty, v: seq<Item>, u: Update)
    requires ValidUpdate(e, v, u)
    ensures Elements(e, Carried(u)) && |Carried(u)| <= MAX16
  {
    hide Sendable;
  }

  /** What the client makes of the four items. */
  lemma FourReads(e: Ty, kind: UpdateType, p: nat, n: nat, part: seq<Item>, b: seq<Byte>, o: nat, t: seq<Val>)
    requires WfTy(e) && p <= MAX16 && n <= MAX16 && |part| <= MAX16 && Elements(e, part)
    requires ImageAll([IScalar(4, Code(kind)), IScalar(2, p), IScalar(2, n), IVector(part)], b, o)
    ensures ReadPartial(e, t, b, Cursor(o, Fine))
         == (Apply(t, kind, p, n, AbsAll(part)),
             Cursor(EndAll([IScalar(4, Code(kind)), IScalar(2, p), IScalar(2, n), IVector(part)], o), Fine))
  {
    var ws := [IScalar(4, Code(kind)), IScalar(2, p), IScalar(2, n), IVector(part)];
    FourSendable(e, kind, p, n, part);
    hide AllSendable, ImageAll, EndAll, ReadList, Apply, ReadPartial, Elements;
    ListReads(PartialTypes(e), ws, b, o);
    FourRead(IScalar(4, Code(kind)), IScalar(2, p), IScalar(2, n), IVector(part));
    ReadsAs(e, t, b, Cursor(o, Fine), kind, p, n, AbsAll(part), Cursor(EndAll(ws, o), Fine));
  }

  lemma FourSendable(e: Ty, kind: UpdateType, p: nat, n: nat, part: seq<Item>)
    requires WfTy(e) && p <= MAX16 && n <= MAX16 && |part| <= MAX16 && Elements(e, part)
    ensures AllSendable(PartialTypes(e), [IScalar(4, Code(kind)), IScalar(2, p), IScalar(2, n), IVector(part)])
  {
    Limits();
    hide Limit;
    NumberSendable(4, Code(kind));
    NumberSendable(2, p);
    NumberSendable(2, n);
    VectorSendable(e, part);
    hide Sendable, Elements;
    var ws, tys := [IScalar(4, Code(kind)), IScalar(2, p), IScalar(2, n), IVector(part)], PartialTypes(e);
    assert Sendable(tys[0], ws[0]) && Sendable(tys[1], ws[1]) && Sendable(tys[2], ws[2]) && Sendable(tys[3], ws[3]);
  }

  lemma ReadsAs(e: Ty, t: seq<Val>, b: seq<Byte>, c: Cursor, kind: UpdateType, p: nat, n: nat, vec: seq<Val>, c': Cursor)
    requires WfTy(e) && p <= MAX16 && n <= MAX16 && c'.status == Fine
    requires ReadList(PartialTypes(e), b, c) == ([VScalar(Code(kind)), VScalar(p), VScalar(n), VVector(vec)], c')
    ensures ReadPartial(e, t, b, c) == (Apply(t, kind, p, n, vec), c')
  {
    hide ReadList, Apply;
    assert Decoded(Code(kind)) == kind;
  }

  // ---------------------------------------------------------------- whole runs

  /** An update and the message that carries it. */
  datatype Trip = Trip(update: Update, message: Message)

  ghost predicate Carries(m: Message, v: seq<Item>, u: Update) {
    && Int16(u.position) && Int16(u.count) && Applicable(v, u)
    && Addressable(|SetValue(v, u)|, u.kind, SetPosition(u), SetCount(v, u))
    && WfMessage(m) && m.data && ImageAll(UpdateItems(v, u), m.mem[..m.size], 0)
  }

  /** A run of updates, each valid where it is applied and sent as it is applied. */
  ghost predicate ValidRun(e: Ty, v: seq<Item>, ts: seq<Trip>)
    decreases |ts|
  {
    ts == [] || (ValidTrip(e, v, ts[0]) && ValidRun(e, SetValue(v, ts[0].update), ts[1..]))
  }

  ghost predicate ValidTrip(e: Ty, v: seq<Item>, t: Trip) {
    ValidUpdate(e, v, t.update) && Carries(t.message, v, t.update)
  }

  ghost function ServerAfter(e: Ty, v: seq<Item>, ts: seq<Trip>): seq<Item>
    requires ValidRun(e, v, ts)
    decreases |ts|
  {
    if ts == [] then v else ServerAfter(e, SetValue(v, ts[0].update), ts[1..])
  }

  /** What the server puts on the channel, one message after the other. */
  ghost function Stream(e: Ty, v: seq<Item>, ts: seq<Trip>): seq<Byte>
    requires ValidRun(e, v, ts)
    decreases |ts|
  {
    if ts == [] then [] else Flushed(ts[0].message) + Stream(e, SetValue(v, ts[0].update), ts[1..])
  }

  /** The client takes n messages off the channel and applies each of them. */
  ghost function ClientReads(e: Ty, t: seq<Val>, n: nat, stream: seq<Byte>): (Replica, seq<Byte>)
    requires WfTy(e)
    decreases n
  {
    if n == 0 then (Holds(t), stream) else
    var r := Receive(stream);
    if r.Failed? || |r.body| < INFO_SIZE then (Undefined, stream) else
    var now := ReadPartial(e, t, r.body[INFO_SIZE..], Cursor(0, Fine)).0;
    if now.Undefined? then (Undefined, r.rest) else ClientReads(e, now.value, n - 1, r.rest)
  }

  /** Replica convergence: after any run of valid updates, all sent over one channel, each in
      any number of packets, the client's vector is the server's and the channel is left at
      whatever follows. */
  lemma {:induction false} ReplicasConverge(e: Ty, v: seq<Item>, ts: seq<Trip>, tail: seq<Byte>)
    requires WfTy(e) && ValidRun(e, v, ts)
    ensures ClientReads(e, AbsAll(v), |ts|, Stream(e, v, ts) + tail) == (Holds(AbsAll(ServerAfter(e, v, ts))), tail)
    decreases |ts|
  {
    hide ValidTrip, SetValue, Applicable, Receive, Flushed, Readable, ReadPartial, AbsAll, WfTy;
    if ts == [] {
      assert [] + tail == tail;
    } else {
      hide ClientReads;
      TripParts(e, v, ts[0]);
      var next := SetValue(v, ts[0].update);
      var rest := Stream(e, next, ts[1..]) + tail;
      MessageConverges(e, v, ts[0], rest);
      assert Stream(e, v, ts) + tail == Flushed(ts[0].message) + rest;
      OneRead(e, AbsAll(v), |ts|, Stream(e, v, ts) + tail, AbsAll(next));
      ReplicasConverge(e, next, ts[1..], tail);
    }
  }

  lemma TripParts(e: Ty, v: seq<Item>, t: Trip)
    requires ValidTrip(e, v, t)
    ensures Applicable(v, t.update) && Readable(t.message) && |t.message.info| == INFO_SIZE
  {
    hide ValidUpdate, ImageAll, UpdateItems;
  }

  lemma OneRead(e: Ty, t: seq<Val>, n: nat, stream: seq<Byte>, now: seq<Val>)
    requires WfTy(e) && n > 0
    requires var r := Receive(stream);
             r.Received? && |r.body| >= INFO_SIZE && ReadPartial(e, t, r.body[INFO_SIZE..], Cursor(0, Fine)).0 == Holds(now)
    ensures ClientReads(e, t, n, stream) == ClientReads(e, now, n - 1, Receive(stream).rest)
  {
    hide Receive, ReadPartial;
  }

  /** One message, with everything that follows it on the channel. */
  lemma MessageConverges(e: Ty, v: seq<Item>, t: Trip, rest: seq<Byte>)
    requires WfTy(e) && ValidTrip(e, v, t)
    ensures var r := Receive(Flushed(t.message) + rest);
            && r.Received? && r.rest == rest && |r.body| >= INFO_SIZE
            && ReadPartial(e, AbsAll(v), r.body[INFO_SIZE..], Cursor(0, Fine)).0 == Holds(AbsAll(SetValue(v, t.update)))
  {
    hide ValidUpdate, ReadPartial, ImageAll, Delivered, UpdateItems, Receive, Flushed;
    var m := t.message;
    Arrives(m, rest);
    DeliveredImage(m, UpdateItems(v, t.update));
    UpdateConverges(e, v, t.update, Delivered(m)[INFO_SIZE..], 0);
  }

  // ---------------------------------------------------------------- the limit of int16_t

  lemma TruncAtMost(n: nat)
    ensures Trunc16(n) <= n && (n > MAX16 ==> Trunc16(n) < n)
  {}

  /** How many elements are really sent: the 16-bit count, or what follows from a negative one. */
  function Sent(v: seq<Item>, u: Update): int
    requires Applicable(v, u)
  {
    SentCount(|SetValue(v, u)|, SetPosition(u), SetCount(v, u))
  }

  predicate Edits(u: Update) {
    u.kind == Complete || u.kind == Insert || u.kind == Replace
  }

  lemma SentBounds(v: seq<Item>, u: Update)
    requires Int16(u.position) && Int16(u.count) && Edits(u) && Applicable(v, u)
    ensures Sent(v, u) <= MAX16 && Sent(v, u) <= |u.from| && -0x8000 <= Sent(v, u)
    ensures |u.from| <= MAX16 ==> Sent(v, u) == |u.from|
  {
    TruncAtMost(|u.from|);
    hide Trunc16, Splice;
  }

  /** What is sent for any complete update, insertion or replacement: a prefix of the new
      elements, or a negative size. */
  lemma SentIs(v: seq<Item>, u: Update)
    requires Int16(u.position) && Int16(u.count) && Edits(u) && Applicable(v, u)
    ensures Sent(v, u) <= MAX16 && Sent(v, u) <= |u.from| && -0x8000 <= Sent(v, u)
    ensures |u.from| <= MAX16 ==> Sent(v, u) == |u.from|
    ensures Addressable(|SetValue(v, u)|, u.kind, SetPosition(u), SetCount(v, u))
    ensures var n := Sent(v, u);
            UpdateItems(v, u) == [IScalar(4, Code(u.kind)), IScalar(2, SetPosition(u)), IScalar(2, Bits16(n)),
                                  if n < 0 then IScalar(4, n + TWO32) else IVector(u.from[..n])]
  {
    SentBounds(v, u);
    TruncAtMost(|u.from|);
    var p, n := SetPosition(u), Sent(v, u);
    hide Trunc16, Splice;
    if n > 0 { NewElements(v, u, n); }
  }

  /** When the client's copy follows: an insertion or a complete update must fit the 16-bit
      count; a replacement may exceed it as far as what is not sent does not change. */
  ghost predicate Follows(v: seq<Item>, u: Update)
    requires Applicable(v, u) && Edits(u) && Sent(v, u) <= |u.from|
  {
    if u.kind == Replace then
      Sent(v, u) >= 0 &&
      AbsAll(u.from[Sent(v, u)..]) == AbsAll(v[SetPosition(u) + Sent(v, u)..SetPosition(u) + |u.from|])
    else |u.from| <= MAX16
  }

  /** The exact 16-bit condition: an update reaches the client, without an exception and with
      the server's vector as the result, exactly when it follows. */
  lemma FollowsIff(e: Ty, v: seq<Item>, u: Update, b: seq<Byte>, o: nat)
    requires WfTy(e) && Elements(e, u.from) && Int16(u.position) && Int16(u.count) && Edits(u) && Applicable(v, u)
    requires Addressable(|SetValue(v, u)|, u.kind, SetPosition(u), SetCount(v, u)) && ImageAll(UpdateItems(v, u), b, o)
    ensures Sent(v, u) <= |u.from|
    ensures ReadPartial(e, AbsAll(v), b, Cursor(o, Fine)) == (Holds(AbsAll(SetValue(v, u))), Cursor(EndAll(UpdateItems(v, u), o), Fine))
       <==> Follows(v, u)
  {
    SentIs(v, u);
    var n := Sent(v, u);
    hide ReadPartial, UpdateItems, ImageAll, EndAll, Apply, Follows, SetValue, AbsAll, Sent, Addressable;
    if n < 0 {
      ReadThrows(e, Code(u.kind), SetPosition(u), n, b, o, AbsAll(v));
      NeverFollows(v, u);
    } else {
      PrefixElements(e, u.from, n);
      FourReads(e, u.kind, SetPosition(u), n, u.from[..n], b, o, AbsAll(v));
      PrefixMirrors(v, u);
    }
  }

  lemma NeverFollows(v: seq<Item>, u: Update)
    requires Int16(u.position) && Int16(u.count) && Edits(u) && Applicable(v, u) && Sent(v, u) < 0
    ensures Sent(v, u) <= |u.from| && !Follows(v, u)
  {
    SentBounds(v, u);
  }

  lemma PrefixElements(e: Ty, ws: seq<Item>, n: nat)
    requires Elements(e, ws) && n <= |ws|
    ensures Elements(e, ws[..n])
  {
    hide Sendable;
  }

  /** The client's edit with the elements that were sent gives the server's vector exactly
      when the update follows. */
  lemma PrefixMirrors(v: seq<Item>, u: Update)
    requires Int16(u.position) && Int16(u.count) && Edits(u) && Applicable(v, u) && 0 <= Sent(v, u) <= |u.from|
    ensures Apply(AbsAll(v), u.kind, SetPosition(u), Sent(v, u), AbsAll(u.from[..Sent(v, u)])) == Holds(AbsAll(SetValue(v, u)))
       <==> Follows(v, u)
  {
    SentBounds(v, u);
    hide AbsAll, Sent, Splice, Apply, SetValue, SetCount;
    if u.kind == Complete {
      CompleteMirrors(v, u, Sent(v, u));
    } else if u.kind == Insert {
      InsertedMirrors(v, u, Sent(v, u));
    } else {
      ReplacedMirrors(v, u, Sent(v, u));
    }
  }

  lemma CompleteMirrors(v: seq<Item>, u: Update, n: nat)
    requires u.kind == Complete && n <= |u.from| && n <= MAX16 && (|u.from| <= MAX16 ==> n == |u.from|)
    ensures Apply(AbsAll(v), u.kind, SetPosition(u), n, AbsAll(u.from[..n])) == Holds(AbsAll(SetValue(v, u))) <==> |u.from| <= MAX16
  {
    hide AbsAll;
    WholeMirrors(u.from, n);
  }

  lemma InsertedMirrors(v: seq<Item>, u: Update, n: nat)
    requires u.kind == Insert && Applicable(v, u) && n <= |u.from| && n <= MAX16 && (|u.from| <= MAX16 ==> n == |u.from|)
    ensures Apply(AbsAll(v), u.kind, SetPosition(u), n, AbsAll(u.from[..n])) == Holds(AbsAll(SetValue(v, u))) <==> |u.from| <= MAX16
  {
    hide AbsAll, Splice;
    InsertMirrors(v, u.from, SetPosition(u), n);
  }

  lemma ReplacedMirrors(v: seq<Item>, u: Update, n: nat)
    requires u.kind == Replace && Applicable(v, u) && n <= |u.from|
    ensures var p := SetPosition(u);
            Apply(AbsAll(v), u.kind, p, n, AbsAll(u.from[..n])) == Holds(AbsAll(SetValue(v, u)))
            <==> AbsAll(u.from[n..]) == AbsAll(v[p + n..p + |u.from|])
  {
    hide AbsAll, Splice;
    var p := SetPosition(u);
    assert Apply(AbsAll(v), u.kind, p, n, AbsAll(u.from[..n])) == Holds(Splice(AbsAll(v), p, p + n, AbsAll(u.from[..n])));
    assert SetValue(v, u) == Splice(v, p, p + |u.from|, u.from);
    hide Apply, SetValue;
    ReplaceMirrors(v, u.from, p, n);
  }

  lemma WholeMirrors(from: seq<Item>, n: nat)
    requires n <= |from| && n <= MAX16 && (|from| <= MAX16 ==> n == |from|)
    ensures AbsAll(from[..n]) == AbsAll(from) <==> |from| <= MAX16
  {
    hide AbsAll;
    assert n == |from| ==> from[..n] == from;
  }

  lemma InsertMirrors(v: seq<Item>, from: seq<Item>, p: nat, n: nat)
    requires p <= |v| && n <= |from| && n <= MAX16 && (|from| <= MAX16 ==> n == |from|)
    ensures Splice(AbsAll(v), p, p, AbsAll(from[..n])) == AbsAll(Splice(v, p, p, from)) <==> |from| <= MAX16
  {
    hide AbsAll, Splice;
    SpliceVector(v, p, p, from);
    if n == |from| { assert from[..n] == from; }
  }

  lemma SpliceIff(a: seq<Val>, f: seq<Val>, p: nat, n: nat)
    requires p + |f| <= |a| && n <= |f|
    ensures Splice(a, p, p + n, f[..n]) == Splice(a, p, p + |f|, f) <==> f[n..] == a[p + n..p + |f|]
  {
    var k := |f|;
    var x, y := Splice(a, p, p + n, f[..n]), Splice(a, p, p + k, f);
    assert |x| == |y| == |a|;
    if x == y {
      forall i | 0 <= i < k - n ensures f[n..][i] == a[p + n..p + k][i] {
        assert x[p + n + i] == a[p + n + i] && y[p + n + i] == f[n + i];
      }
    }
    if f[n..] == a[p + n..p + k] {
      forall i | 0 <= i < |a| ensures x[i] == y[i] {
        if p + n <= i < p + k {
          assert x[i] == a[i] == a[p + n..p + k][i - p - n] && y[i] == f[i - p] == f[n..][i - p - n];
        }
      }
    }
  }

  lemma ReplaceMirrors(v: seq<Item>, from: seq<Item>, p: nat, n: nat)
    requires p + |from| <= |v| && n <= |from|
    ensures Splice(AbsAll(v), p, p + n, AbsAll(from[..n])) == AbsAll(Splice(v, p, p + |from|, from))
       <==> AbsAll(from[n..]) == AbsAll(v[p + n..p + |from|])
  {
    hide AbsAll, Splice;
    SpliceVector(v, p, p + |from|, from);
    SplitVector(from, n);
    PartOf(v, p + n, p + |from|);
    SpliceIff(AbsAll(v), AbsAll(from), p, n);
  }

  /** Deleting with a negative count is meant to delete all the rest; it does exactly when the
      rest fits the 16-bit count. From there to 0xFFFF the truncated count is negative and the
      iterators passed to erase are reversed; beyond that it is either so again, or at least 65536
      elements of the rest stay. */
  lemma DeleteRestIff(v: seq<Item>, u: Update)
    requires u.kind == Delete && u.count < 0 && SetPosition(u) <= |v|
    ensures Applicable(v, u) && SetValue(v, u) == v[..SetPosition(u)] <==> |v| - SetPosition(u) <= MAX16
    ensures 0x8000 <= |v| - SetPosition(u) <= 0xFFFF ==> !Applicable(v, u)
    ensures Applicable(v, u) && |v| - SetPosition(u) > MAX16 ==> |SetValue(v, u)| >= SetPosition(u) + 0x1_0000
  {
    var p := SetPosition(u);
    TruncAtMost(|v| - p);
    assert |v[..p]| == p;
  }

  lemma ReadListHead(ty: Ty, tys: seq<Ty>, b: seq<Byte>, c: Cursor)
    requires WfTy(ty) && forall i :: 0 <= i < |tys| ==> WfTy(tys[i])
    ensures ReadList([ty] + tys, b, c).1 == ReadList(tys, b, Read(ty, Default(ty), b, c).1).1
  {
    hide Read;
    assert ([ty] + tys)[0] == ty && ([ty] + tys)[1..] == tys;
  }

  lemma ImageHead(w: Item, ws: seq<Item>, b: seq<Byte>, o: nat)
    requires ImageAll([w] + ws, b, o)
    ensures Image(w, b, o) && ImageAll(ws, b, End(w, o))
  {
    hide Image;
    assert ([w] + ws)[0] == w && ([w] + ws)[1..] == ws;
  }

  /** A negative size makes the vector throw. */
  lemma VectorThrows(e: Ty, x: nat, b: seq<Byte>, o: nat)
    requires WfTy(e) && TWO31 <= x < TWO32 && Image(IScalar(4, x), b, o)
    ensures Read(TVector(e), Default(TVector(e)), b, Cursor(o, Fine)).1.status == Threw
  {
    Limits();
    ScalarRead(b, o, 4, x, 0);
  }

  lemma NumberReads(n: nat, x: nat, tys: seq<Ty>, ws: seq<Item>, b: seq<Byte>, o: nat)
    requires IsSize(n) && x < Limit(n) && (forall i :: 0 <= i < |tys| ==> WfTy(tys[i])) && ImageAll([IScalar(n, x)] + ws, b, o)
    ensures ImageAll(ws, b, End(IScalar(n, x), o))
    ensures ReadList([TScalar(n)] + tys, b, Cursor(o, Fine)).1 == ReadList(tys, b, Cursor(End(IScalar(n, x), o), Fine)).1
  {
    hide ImageAll, ReadList, Read, Limit, Image;
    ImageHead(IScalar(n, x), ws, b, o);
    NumberSendable(n, x);
    SendableReads(TScalar(n), IScalar(n, x), b, o);
    ReadListHead(TScalar(n), tys, b, Cursor(o, Fine));
  }

  lemma ReadThrows(e: Ty, x: nat, p: nat, n: int, b: seq<Byte>, o: nat, t: seq<Val>)
    requires WfTy(e) && x < TWO32 && p <= MAX16 && -0x8000 <= n < 0
    requires ImageAll([IScalar(4, x), IScalar(2, p), IScalar(2, Bits16(n)), IScalar(4, n + TWO32)], b, o)
    ensures ReadPartial(e, t, b, Cursor(o, Fine)).1.status == Threw
  {
    Limits();
    hide ImageAll, ReadList, Read, Limit, End, Image;
    var w1, w2 := [IScalar(2, Bits16(n)), IScalar(4, n + TWO32)], [IScalar(4, n + TWO32)];
    var t1, t2 := [TScalar(2), TVector(e)], [TVector(e)];
    var o1 := End(IScalar(4, x), o);
    var o2 := End(IScalar(2, p), o1);
    var o3 := End(IScalar(2, Bits16(n)), o2);
    assert [IScalar(4, x), IScalar(2, p), IScalar(2, Bits16(n)), IScalar(4, n + TWO32)] == [IScalar(4, x)] + ([IScalar(2, p)] + w1);
    assert w1 == [IScalar(2, Bits16(n))] + w2;
    assert PartialTypes(e) == [TScalar(4)] + ([TScalar(2)] + t1) && t1 == [TScalar(2)] + t2;
    NumberReads(4, x, [TScalar(2)] + t1, [IScalar(2, p)] + w1, b, o);
    NumberReads(2, p, t1, w1, b, o1);
    NumberReads(2, Bits16(n), t2, w2, b, o2);
    assert w2 == [IScalar(4, n + TWO32)] + [] && t2 == [TVector(e)] + [];
    ImageHead(IScalar(4, n + TWO32), [], b, o3);
    VectorThrows(e, n + TWO32, b, o3);
    ReadListHead(TVector(e), [], b, Cursor(o3, Fine));
    NoneRead(b, Read(TVector(e), Default(TVector(e)), b, Cursor(o3, Fine)).1);
  }

  lemma NoneRead(b: seq<Byte>, c: Cursor)
    ensures ReadList([], b, c) == ([], c)
  {
  }

  // ---------------------------------------------------------------- the objects

  /** ServerAttribute<std::vector<T>>. */
  class ServerAttribute {
    var value: seq<Item>

    constructor ()
      ensures value == []
    {
      value := [];
    }

    /** ServerAttribute::set; the position and the count are also results. */
    method Set(u: Update) returns (position: int, count: int)
      requires Applicable(value, u)
      modifies this
      ensures position == (if u.kind == Complete || u.position < 0 then 0 else u.position)
      ensures count == match u.kind
                       case NoUpdate => u.count
                       case Delete => if u.count < 0 then Trunc16(|old(value)| - position) else u.count
                       case _ => Trunc16(|u.from|)
      ensures Editable(u.kind, position, count, |u.from|, |old(value)|)
      ensures EditedTo(u.kind, position, count, u.from, old(value), value)
      ensures value == SetValue(old(value), u) && position == SetPosition(u) && count == SetCount(old(value), u)
    {
      ghost var was := value;
      SetEdits(value, u);
      hide EditedTo, Trunc16;
      position, count := u.position, u.count;
      if position < 0 { position := 0; }
      match u.kind
      case NoUpdate =>
      case Complete =>
        position, count := 0, Trunc16(|u.from|);
        value := u.from;
      case Insert =>
        count := Trunc16(|u.from|);
        value := value[..position] + u.from + value[position..];
      case Replace =>
        count := Trunc16(|u.from|);
        Overwrite(position, u.from);
      case Delete =>
        if count < 0 { count := Trunc16(|value| - position); }
        value := value[..position] + value[position + count..];
        assert value == SetValue(was, u);
    }

    /** std::copy into the vector. */
    method Overwrite(p: nat, from: seq<Item>)
      requires p + |from| <= |value|
      modifies this
      ensures value == old(value)[..p] + from + old(value)[p + |from|..]
    {
      for i := 0 to |from|
        invariant value == old(value)[..p] + from[..i] + old(value)[p + i..]
      {
        value := value[p + i := from[i]];
      }
    }
  }

  /** The bits of the size field. */
  function SizeBits(size: int): nat
    requires -0x8000 <= size < 0x8000
  {
    if size < 0 then size + TWO32 else size
  }

  /** writePartialAttribute. */
  method WritePartialAttribute(out: OutStream, t: seq<Item>, kind: UpdateType, position: int, count: int, ghost e: Ty)
    requires out.Valid() && Elements(e, t)
    requires Int16(position) && Int16(count) && Addressable(|t|, kind, position, count)
    modifies out, out.buf
    ensures out.Valid() && (out.buf == old(out.buf) || fresh(out.buf))
    ensures Prefix(old(out.Contents()), out.Contents())
    ensures ImageAll(PartialItems(t, kind, position, count), out.Contents(), old(out.size))
    ensures out.size == EndAll(PartialItems(t, kind, position, count), old(out.size))
  {
    hide Image, ImageAll, EndAll, Prefix, ScalarAt, Elements, ScalarEnd, Wrote, End, Trunc16, Pad, Le, Bits16, Code, Grown;
    ghost var b0 := out.Contents();
    ghost var ws := PartialItems(t, kind, position, count);
    ItemsAre(t, kind, position, count);
    hide PartialItems, SizedElements, Addressable;
    var p, c := position, count;
    if p < 0 { p := 0; }
    if c < 0 { c := Trunc16(|t| - p); }
    out.WriteScalar(4, Code(kind));
    ghost var b1 := out.Contents();
    ScalarWrote(b0, b1, 4, Code(kind));
    out.WriteScalar(2, Bits16(p));
    ghost var b2 := out.Contents();
    ScalarWrote(b1, b2, 2, Bits16(p));
    out.WriteScalar(2, Bits16(c));
    ghost var b3 := out.Contents();
    ScalarWrote(b2, b3, 2, Bits16(c));
    var size := if kind == Delete then 0 else c;
    WriteElements(out, t, p, size, e);
    FourWrites(b0, b1, b2, b3, out.Contents(), ws);
  }

  lemma ItemsAre(t: seq<Item>, kind: UpdateType, position: int, count: int)
    requires Int16(position) && Int16(count) && Addressable(|t|, kind, position, count)
    ensures var p, c := SentPosition(position), SentCount(|t|, position, count);
            var size := if kind == Delete then 0 else c;
            && 0 <= p <= MAX16 && Int16(c) && (size > 0 ==> p + size <= |t|)
            && PartialItems(t, kind, position, count) == [IScalar(4, Code(kind)), IScalar(2, Bits16(p)), IScalar(2, Bits16(c)), SizedElements(t, p, size)]
  {
    hide Trunc16, Bits16, SizedElements;
  }

  lemma FourWrites(b0: seq<Byte>, b1: seq<Byte>, b2: seq<Byte>, b3: seq<Byte>, b4: seq<Byte>, ws: seq<Item>)
    requires |ws| == 4 && Wrote(b0, b1, ws[0]) && Wrote(b1, b2, ws[1]) && Wrote(b2, b3, ws[2]) && Wrote(b3, b4, ws[3])
    ensures Prefix(b0, b4) && |b4| == EndAll(ws, |b0|) && ImageAll(ws, b4, |b0|)
  {
    hide Image, ImageAll, EndAll, Prefix, Wrote, End;
    NoneWritten(b0);
    PrefixRefl(b0);
    NextImage(b0, b1, [], ws[0], b0);
    assert [] + [ws[0]] == ws[..1];
    NextImage(b1, b2, ws[..1], ws[1], b0);
    assert ws[..1] + [ws[1]] == ws[..2];
    NextImage(b2, b3, ws[..2], ws[2], b0);
    assert ws[..2] + [ws[2]] == ws[..3];
    NextImage(b3, b4, ws[..3], ws[3], b0);
    assert ws[..3] + [ws[3]] == ws;
  }

  lemma ScalarWrote(before: seq<Byte>, after: seq<Byte>, n: nat, x: nat)
    requires IsSize(n) && Prefix(before, after) && |after| == ScalarEnd(|before|, n) && ScalarAt(after, |before|, n, x)
    ensures Wrote(before, after, IScalar(n, x))
  {
  }

  method WriteElements(out: OutStream, t: seq<Item>, p: nat, size: int, ghost e: Ty)
    requires out.Valid() && Elements(e, t) && -0x8000 <= size < 0x8000 && (size > 0 ==> p + size <= |t|)
    modifies out, out.buf
    ensures out.Valid() && (out.buf == old(out.buf) || fresh(out.buf))
    ensures Wrote(old(out.Contents()), out.Contents(), SizedElements(t, p, size))
  {
    hide Image, ImageAll, EndAll, Prefix, ScalarAt, ScalarEnd, Sendable;
    out.WriteScalar(4, SizeBits(size));
    ghost var mid := out.Contents();
    if size < 0 {
      ScalarWrote(old(out.Contents()), mid, 4, SizeBits(size));
    } else {
      var ws := if size == 0 then [] else t[p..p + size];
      PrefixRefl(mid);
      NoneWritten(mid);
      assert ws[..0] == [];
      for i := 0 to |ws|
        invariant out.Valid() && (out.buf == old(out.buf) || fresh(out.buf))
        invariant Prefix(mid, out.Contents()) && out.size == EndAll(ws[..i], |mid|) && ImageAll(ws[..i], out.Contents(), |mid|)
      {
        assert Sendable(e, t[p + i]);
        SendableTyped(e, ws[i]);
        out.WriteNext(ws, i, e, mid);
      }
      assert ws[..|ws|] == ws;
      VectorImage(old(out.Contents()), mid, out.Contents(), ws);
    }
  }

  /** readPartialAttribute on the client's vector. */
  method ReadPartialAttribute(input: InStream, e: Ty, t: seq<Val>) returns (r: Replica)
    requires WfTy(e)
    modifies input
    ensures (r, input.At()) == ReadPartial(e, t, input.data, old(input.At()))
    ensures var (vs, c) := ReadList(PartialTypes(e), input.data, old(input.At()));
            if c.status == Fine && |vs| == 4
            then var kind, p, count, vec := Decoded(Number(vs[0])), Signed16(Number(vs[1])), Signed16(Number(vs[2])), Elems(vs[3]);
                 (r.Holds? <==> Editable(kind, p, count, |vec|, |t|)) && (r.Holds? ==> EditedTo(kind, p, count, vec, t, r.value))
            else r.Undefined? || r.value == t
  {
    ghost var said := ReadList(PartialTypes(e), input.data, input.At()).0;
    if |said| == 4 { ApplyEdits(t, Decoded(Number(said[0])), Signed16(Number(said[1])), Signed16(Number(said[2])), Elems(said[3])); }
    hide ReadList, EditedTo;
    var vs := ReadValues(PartialTypes(e), input);
    if input.status == Threw { return Holds(t); }
    if input.status == Range || |vs| != 4 { return Undefined; }
    var kind, p, count, vec := Decoded(Number(vs[0])), Signed16(Number(vs[1])), Signed16(Number(vs[2])), Elems(vs[3]);
    match kind
    case NoUpdate => r := Holds(t);
    case Complete => r := Holds(vec);
    case Insert => r := if 0 <= p <= |t| then Holds(t[..p] + vec + t[p..]) else Undefined;
    case Replace => r := if 0 <= p && p + |vec| <= |t| then Holds(t[..p] + vec + t[p + |vec|..]) else Undefined;
    case Delete =>
      assert p >= 0 && p <= |t| ==> t[..p] + [] == t[..p];
      r := if 0 <= p && 0 <= count && p + count <= |t| then Holds(t[..p] + t[p + count..]) else Undefined;
  }
}
