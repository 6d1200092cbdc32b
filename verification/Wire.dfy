/** The serialized form of values: types, what the writer visits, what the reader
    builds, and where the bytes of a value lie in a message. */
module Wire {
  import opened Utf8

  // ---------------------------------------------------------------- numbers

  function Limit(n: nat): (r: nat)
    ensures r > 0
  {
    if n == 0 then 1 else 256 * Limit(n - 1)
  }

  /** The n bytes of a number in memory, least significant first. */
  function Le(n: nat, x: nat): (r: seq<Byte>)
    ensures |r| == n
  {
    if n == 0 then [] else [x % 256] + Le(n - 1, x / 256)
  }

  function FromLe(b: seq<Byte>): nat {
    if b == [] then 0 else b[0] + 256 * FromLe(b[1..])
  }

  lemma {:induction false} LeRoundTrip(n: nat, x: nat)
    requires x < Limit(n)
    ensures FromLe(Le(n, x)) == x
  {
    if n > 0 {
      LeRoundTrip(n - 1, x / 256);
      assert Le(n, x)[1..] == Le(n - 1, x / 256);
    }
  }

  /** Four bytes, one by one. */
  lemma LeFour(x: nat)
    ensures Le(4, x) == [x % 256, x / 0x100 % 256, x / 0x1_0000 % 256, x / 0x100_0000 % 256]
  {
    assert Le(0, x / 0x100 / 0x100 / 0x100 / 0x100) == [];
    assert Le(1, x / 0x100 / 0x100 / 0x100) == [x / 0x100_0000 % 256];
    assert Le(2, x / 0x100 / 0x100) == [x / 0x1_0000 % 256, x / 0x100_0000 % 256];
    assert Le(3, x / 0x100) == [x / 0x100 % 256, x / 0x1_0000 % 256, x / 0x100_0000 % 256];
  }

  const TWO31: nat := 0x8000_0000
  const TWO32: nat := 0x1_0000_0000

  lemma Limits()
    ensures Limit(1) == 256 && Limit(2) == 0x1_0000 && Limit(4) == TWO32
  {
    assert Limit(2) == 256 * Limit(1);
    assert Limit(4) == 256 * Limit(3) && Limit(3) == 256 * Limit(2);
  }

  /** Two's complement reading of 32 bits. */
  function Signed(x: nat): int {
    if x < TWO31 then x else x - TWO32
  }

  /** The sizes of the scalar types. */
  predicate IsSize(n: nat) {
    n == 1 || n == 2 || n == 4 || n == 8
  }

  /** (-o) & (n - 1): the distance to the next multiple of n. */
  function Pad(o: nat, n: nat): (r: nat)
    requires IsSize(n)
    ensures r < n && (o + r) % n == 0
  {
    if n == 1 then 0
    else if n == 2 then o % 2
    else if n == 4 then (if o % 4 == 0 then 0 else 4 - o % 4)
    else if o % 8 == 0 then 0 else 8 - o % 8
  }

  // ---------------------------------------------------------------- types and values

  /** Enumerations travel as 4-byte scalars. */
  datatype Ty =
    | TScalar(size: nat)
    | TBool
    | TString
    | TWide
    | TVector(elem: Ty)
    | TMap(key: Ty, value: Ty)
    | TVariant(alts: seq<Ty>)

  /** Types without a map anywhere inside; map keys are of such types. */
  predicate NoMaps(ty: Ty) {
    match ty
    case TMap(_, _) => false
    case TVector(e) => NoMaps(e)
    case TVariant(alts) => forall i :: 0 <= i < |alts| ==> NoMaps(alts[i])
    case _ => true
  }

  const MAX_ALTERNATIVES: nat := 15

  predicate WfTy(ty: Ty) {
    match ty
    case TScalar(n) => IsSize(n)
    case TVector(e) => WfTy(e)
    case TMap(k, v) => WfTy(k) && WfTy(v) && NoMaps(k)
    case TVariant(alts) => |alts| <= MAX_ALTERNATIVES && forall i :: 0 <= i < |alts| ==> WfTy(alts[i])
    case _ => true
  }

  /** A value as the writer's iterators visit it. Scalars are bit patterns; a map is
      visited key, value, key, value. */
  datatype Item =
    | IScalar(size: nat, bits: nat)
    | IBool(flag: bool)
    | IString(bytes: seq<Byte>)
    | IWide(chars: seq<Wide>)
    | IVector(elems: seq<Item>)
    | IMap(kvs: seq<Item>)
    | IVariant(id: nat, content: Item)
    | IUnset

  /** A value as an object in memory. */
  datatype Val =
    | VScalar(bits: nat)
    | VBool(flag: bool)
    | VString(bytes: seq<Byte>)
    | VWide(chars: seq<int>)
    | VVector(elems: seq<Val>)
    | VMap(entries: map<Val, Val>)
    | VVariant(id: nat, content: Val)
    | VUnset

  function Default(ty: Ty): Val {
    match ty
    case TScalar(_) => VScalar(0)
    case TBool => VBool(false)
    case TString => VString([])
    case TWide => VWide([])
    case TVector(_) => VVector([])
    case TMap(_, _) => VMap(map[])
    case TVariant(_) => VUnset
  }

  function Elems(v: Val): seq<Val> {
    if v.VVector? then v.elems else []
  }

  function Entries(v: Val): map<Val, Val> {
    if v.VMap? then v.entries else map[]
  }

  /** The object that an item describes. */
  function Abs(w: Item): Val {
    match w
    case IScalar(_, x) => VScalar(x)
    case IBool(f) => VBool(f)
    case IString(s) => VString(s)
    case IWide(s) => VWide(s)
    case IVector(ws) => VVector(AbsAll(ws))
    case IMap(kvs) => VMap(AbsPairs(kvs))
    case IVariant(id, c) => VVariant(id, Abs(c))
    case IUnset => VUnset
  }

  function AbsAll(ws: seq<Item>): (r: seq<Val>)
    ensures |r| == |ws|
  {
    if ws == [] then [] else [Abs(ws[0])] + AbsAll(ws[1..])
  }

  function AbsPairs(kvs: seq<Item>): map<Val, Val> {
    if |kvs| < 2 then map[] else AbsPairs(kvs[2..])[Abs(kvs[0]) := Abs(kvs[1])]
  }

  /** Keys and values alternate. */
  function PairTy(ty: Ty, i: nat): Ty
    requires ty.TMap?
  {
    if i % 2 == 0 then ty.key else ty.value
  }

  /** Which items a variable of a type can hold and the format can carry: sizes fit
      the length fields, map keys are distinct. */
  ghost predicate HasType(w: Item, ty: Ty)
    decreases w
  {
    match w
    case IScalar(n, x) => ty == TScalar(n) && x < Limit(n)
    case IBool(_) => ty == TBool
    case IString(s) => ty == TString && |s| < TWO32
    case IWide(s) => ty == TWide && |Encode(s)| + 1 < TWO32
    case IVector(ws) =>
      ty.TVector? && |ws| < TWO31 && forall i :: 0 <= i < |ws| ==> HasType(ws[i], ty.elem)
    case IMap(kvs) =>
      && ty.TMap? && |kvs| % 2 == 0 && |kvs| / 2 < TWO31
      && (forall i :: 0 <= i < |kvs| ==> HasType(kvs[i], PairTy(ty, i)))
      && DistinctKeys(kvs)
    case IVariant(id, c) => ty.TVariant? && 1 <= id <= |ty.alts| && HasType(c, ty.alts[id - 1])
    case IUnset => ty.TVariant?
  }

  ghost predicate DistinctKeys(kvs: seq<Item>) {
    forall i, j :: 0 <= i < j < |kvs| && i % 2 == 0 && j % 2 == 0 ==> Abs(kvs[i]) != Abs(kvs[j])
  }

  /** What the format carries faithfully: characters within Unicode, and no variant
      alternative whose entry in the reader's table is off. */
  ghost predicate Portable(w: Item)
    decreases w
  {
    match w
    case IWide(s) => Scalars(s)
    case IVector(ws) => forall i :: 0 <= i < |ws| ==> Portable(ws[i])
    case IMap(kvs) => forall i :: 0 <= i < |kvs| ==> Portable(kvs[i])
    case IVariant(id, c) => id != 9 && id != 10 && Portable(c)
    case _ => true
  }

  // ---------------------------------------------------------------- layout

  function ScalarEnd(o: nat, n: nat): nat
    requires IsSize(n)
  {
    o + Pad(o, n) + n
  }

  /** A scalar lies behind the padding that aligns it; the padding is arbitrary. */
  ghost predicate ScalarAt(b: seq<Byte>, o: nat, n: nat, x: nat)
    requires IsSize(n)
  {
    ScalarEnd(o, n) <= |b| && b[o + Pad(o, n)..ScalarEnd(o, n)] == Le(n, x)
  }

  ghost predicate BytesAt(b: seq<Byte>, o: nat, s: seq<Byte>) {
    o + |s| <= |b| && b[o..o + |s|] == s
  }

  /** The bytes of a wide string, with its terminating zero; the empty one has none. */
  function WideBytes(s: seq<Wide>): seq<Byte> {
    if s == [] then [] else Encode(s) + [0]
  }

  /** Where an item that starts at offset o ends. */
  function End(w: Item, o: nat): nat
    decreases w, 0
  {
    match w
    case IScalar(n, _) => if IsSize(n) then ScalarEnd(o, n) else o
    case IString(s) => ScalarEnd(o, 4) + |s|
    case IWide(s) => ScalarEnd(o, 4) + |WideBytes(s)|
    case IVector(ws) => EndAll(ws, ScalarEnd(o, 4))
    case IMap(kvs) => EndAll(kvs, ScalarEnd(o, 4))
    case IVariant(_, c) => End(c, ScalarEnd(o, 4))
    case _ => ScalarEnd(o, 4)
  }

  function EndAll(ws: seq<Item>, o: nat): nat
    decreases ws, 0
  {
    if ws == [] then o else EndAll(ws[1..], End(ws[0], o))
  }

  /** Do the bytes hold the item at offset o? */
  ghost predicate Image(w: Item, b: seq<Byte>, o: nat)
    decreases w, 0
  {
    match w
    case IScalar(n, x) => IsSize(n) && ScalarAt(b, o, n, x)
    case IBool(f) => ScalarAt(b, o, 4, if f then 1 else 0)
    case IString(s) => ScalarAt(b, o, 4, |s|) && BytesAt(b, ScalarEnd(o, 4), s)
    case IWide(s) => ScalarAt(b, o, 4, |WideBytes(s)|) && BytesAt(b, ScalarEnd(o, 4), WideBytes(s))
    case IVector(ws) => ScalarAt(b, o, 4, |ws|) && ImageAll(ws, b, ScalarEnd(o, 4))
    case IMap(kvs) => ScalarAt(b, o, 4, |kvs| / 2) && ImageAll(kvs, b, ScalarEnd(o, 4))
    case IVariant(id, c) => ScalarAt(b, o, 4, id) && Image(c, b, ScalarEnd(o, 4))
    case IUnset => ScalarAt(b, o, 4, 0)
  }

  ghost predicate ImageAll(ws: seq<Item>, b: seq<Byte>, o: nat)
    decreases ws, 0
  {
    ws == [] || (Image(ws[0], b, o) && ImageAll(ws[1..], b, End(ws[0], o)))
  }

  /** The next multiple of n. */
  function Aligned(o: nat, n: nat): (p: nat)
    requires n > 0
  {
    (o + n - 1) / n * n
  }

  /** Four bytes at p hold a number, least significant first. */
  ghost predicate FourAt(b: seq<Byte>, p: nat, x: nat) {
    p + 4 <= |b| && b[p] == x % 256 && b[p + 1] == x / 0x100 % 256 && b[p + 2] == x / 0x1_0000 % 256 && b[p + 3] == x / 0x100_0000 % 256
  }

  lemma FourLies(b: seq<Byte>, o: nat, x: nat)
    ensures ScalarAt(b, o, 4, x) <==> FourAt(b, Aligned(o, 4), x)
    ensures ScalarEnd(o, 4) == Aligned(o, 4) + 4
  {
    LeFour(x);
    hide Le;
    var p := Aligned(o, 4);
    assert p == o + Pad(o, 4);
    hide Pad;
    if p + 4 <= |b| { assert b[p..p + 4] == [b[p], b[p + 1], b[p + 2], b[p + 3]]; }
  }

  /** The format, byte by byte: a flag, a size, a count and an ID are four aligned bytes; contents
      follow their size or count at once, elements and pairs in their order. */
  lemma FormatOf(w: Item, b: seq<Byte>, o: nat)
    ensures var p := Aligned(o, 4);
            && (w.IBool? ==> (Image(w, b, o) <==> FourAt(b, p, if w.flag then 1 else 0)) && End(w, o) == p + 4)
            && (w.IString? ==> (Image(w, b, o) <==> FourAt(b, p, |w.bytes|) && p + 4 + |w.bytes| <= |b| && b[p + 4..p + 4 + |w.bytes|] == w.bytes)
                               && End(w, o) == p + 4 + |w.bytes|)
            && (w.IVector? ==> (Image(w, b, o) <==> FourAt(b, p, |w.elems|) && ImageAll(w.elems, b, p + 4)) && End(w, o) == EndAll(w.elems, p + 4))
            && (w.IMap? ==> (Image(w, b, o) <==> FourAt(b, p, |w.kvs| / 2) && ImageAll(w.kvs, b, p + 4)) && End(w, o) == EndAll(w.kvs, p + 4))
            && (w.IVariant? ==> (Image(w, b, o) <==> FourAt(b, p, w.id) && Image(w.content, b, p + 4)) && End(w, o) == End(w.content, p + 4))
            && (w.IUnset? ==> (Image(w, b, o) <==> FourAt(b, p, 0)) && End(w, o) == p + 4)
            && (w.IScalar? && w.size == 4 ==> (Image(w, b, o) <==> FourAt(b, p, w.bits)) && End(w, o) == p + 4)
  {
    FourLies(b, o, if w.IBool? && w.flag then 1 else 0);
    match w
    case IString(s) => FourLies(b, o, |s|);
    case IVector(ws) => FourLies(b, o, |ws|);
    case IMap(kvs) => FourLies(b, o, |kvs| / 2);
    case IVariant(id, c) => FourLies(b, o, id);
    case IScalar(n, x) => FourLies(b, o, x);
    case _ =>
  }

  lemma LeTwo(x: nat)
    ensures Le(2, x) == [x % 256, x / 256 % 256] && Le(1, x) == [x % 256]
  {
    var y := x / 256;
    assert Le(0, y) == [] && Le(0, y / 256) == [];
    assert Le(1, y) == [y % 256];
  }

  lemma TwoAligned(o: nat)
    ensures Aligned(o, 2) == o + Pad(o, 2)
  {
  }

  /** Shorter numbers likewise, aligned to their size. */
  lemma TwoBytesFormat(b: seq<Byte>, o: nat, x: nat)
    ensures var p := Aligned(o, 2);
            (Image(IScalar(2, x), b, o) <==> p + 2 <= |b| && b[p] == x % 256 && b[p + 1] == x / 256 % 256) && End(IScalar(2, x), o) == p + 2
  {
    hide Le, Pad, Aligned;
    LeTwo(x);
    TwoAligned(o);
    var p := Aligned(o, 2);
    if p + 2 <= |b| { assert b[p..p + 2] == [b[p], b[p + 1]]; }
  }

  lemma OneByteFormat(b: seq<Byte>, o: nat, x: nat)
    ensures (Image(IScalar(1, x), b, o) <==> o < |b| && b[o] == x % 256) && End(IScalar(1, x), o) == o + 1
  {
    hide Le;
    LeTwo(x);
    if o < |b| { assert b[o..o + 1] == [b[o]]; }
  }

  ghost predicate Prefix(a: seq<Byte>, b: seq<Byte>) {
    |a| <= |b| && b[..|a|] == a
  }

  lemma SliceExtends(b: seq<Byte>, b': seq<Byte>, p: nat, q: nat)
    requires Prefix(b, b') && p <= q <= |b|
    ensures b'[p..q] == b[p..q]
  {
    assert forall i :: 0 <= i < |b| ==> b'[i] == b'[..|b|][i];
  }

  lemma ScalarExtends(b: seq<Byte>, b': seq<Byte>, o: nat, n: nat, x: nat)
    requires IsSize(n) && ScalarAt(b, o, n, x) && Prefix(b, b')
    ensures ScalarAt(b', o, n, x)
  {
    hide Pad, Le;
    SliceExtends(b, b', o + Pad(o, n), ScalarEnd(o, n));
  }

  lemma BytesExtend(b: seq<Byte>, b': seq<Byte>, o: nat, s: seq<Byte>)
    requires BytesAt(b, o, s) && Prefix(b, b')
    ensures BytesAt(b', o, s)
  {
    SliceExtends(b, b', o, o + |s|);
  }

  /** Whatever follows in the message has no effect on what is already there. */
  lemma {:induction false} ImageExtends(w: Item, b: seq<Byte>, b': seq<Byte>, o: nat)
    requires Image(w, b, o) && Prefix(b, b')
    ensures Image(w, b', o)
    decreases w, 0
  {
    hide ScalarAt, BytesAt, Prefix;
    match w
    case IScalar(n, x) => ScalarExtends(b, b', o, n, x);
    case IBool(f) => ScalarExtends(b, b', o, 4, if f then 1 else 0);
    case IString(s) =>
      ScalarExtends(b, b', o, 4, |s|);
      BytesExtend(b, b', ScalarEnd(o, 4), s);
    case IWide(s) =>
      ScalarExtends(b, b', o, 4, |WideBytes(s)|);
      BytesExtend(b, b', ScalarEnd(o, 4), WideBytes(s));
    case IVector(ws) =>
      ScalarExtends(b, b', o, 4, |ws|);
      ImageAllExtends(ws, b, b', ScalarEnd(o, 4));
    case IMap(kvs) =>
      ScalarExtends(b, b', o, 4, |kvs| / 2);
      ImageAllExtends(kvs, b, b', ScalarEnd(o, 4));
    case IVariant(id, c) =>
      ScalarExtends(b, b', o, 4, id);
      ImageExtends(c, b, b', ScalarEnd(o, 4));
    case IUnset => ScalarExtends(b, b', o, 4, 0);
  }

  lemma {:induction false} ImageAllExtends(ws: seq<Item>, b: seq<Byte>, b': seq<Byte>, o: nat)
    requires ImageAll(ws, b, o) && Prefix(b, b')
    ensures ImageAll(ws, b', o)
    decreases ws, 0
  {
    hide Image, Prefix;
    if ws != [] {
      ImageExtends(ws[0], b, b', o);
      ImageAllExtends(ws[1..], b, b', End(ws[0], o));
    }
  }

  lemma {:induction false} ImageAllSnoc(ws: seq<Item>, w: Item, b: seq<Byte>, o: nat)
    requires ImageAll(ws, b, o) && Image(w, b, EndAll(ws, o))
    ensures ImageAll(ws + [w], b, o) && EndAll(ws + [w], o) == End(w, EndAll(ws, o))
    decreases ws
  {
    hide Image;
    if ws != [] {
      assert (ws + [w])[1..] == ws[1..] + [w];
      ImageAllSnoc(ws[1..], w, b, End(ws[0], o));
    } else {
      assert ([w])[1..] == [] && ws + [w] == [w];
      assert EndAll([w], o) == EndAll([], End(w, o));
    }
  }
}
