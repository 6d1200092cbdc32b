/** What a reader finds after a writer: first in general, for whatever the target
    object held before, then exactly when it is the value that was written. */
module WireRoundTrip {
  import opened Utf8
  import opened Wire
  import opened WireReader

  // ---------------------------------------------------------------- what is read

  /** What an object that held `prior` holds after an item was read into it. */
  ghost function Merge(ty: Ty, prior: Val, w: Item): Val
    requires HasType(w, ty)
    decreases w, 1, 0
  {
    match w
    case IVector(ws) => VVector(MergeEach(ty, Resize(Elems(prior), |ws|, Default(ty.elem)), ws))
    case IMap(kvs) => VMap(MergePairs(ty, Default(ty.key), Default(ty.value), Entries(prior), kvs))
    case IVariant(id, c) => VVariant(id, Merge(ty.alts[id - 1], Default(ty.alts[id - 1]), c))
    case _ => Abs(w)
  }

  ghost predicate EachTyped(ty: Ty, ws: seq<Item>) {
    ty.TVector? && forall i :: 0 <= i < |ws| ==> HasType(ws[i], ty.elem)
  }

  ghost predicate PairsTyped(ty: Ty, kvs: seq<Item>) {
    ty.TMap? && |kvs| % 2 == 0 &&
    forall i :: 0 <= i < |kvs| ==> HasType(kvs[i], PairTy(ty, i))
  }

  ghost function MergeEach(ty: Ty, places: seq<Val>, ws: seq<Item>): (r: seq<Val>)
    requires EachTyped(ty, ws) && |places| == |ws|
    ensures |r| == |ws|
    decreases ws, 0, 0
  {
    if ws == [] then []
    else [Merge(ty.elem, places[0], ws[0])] + MergeEach(ty, places[1..], ws[1..])
  }

  ghost function MergePairs(ty: Ty, key: Val, value: Val, m: map<Val, Val>, kvs: seq<Item>): map<Val, Val>
    requires PairsTyped(ty, kvs)
    decreases kvs, 0, 0
  {
    if kvs == [] then m else
    PairsNext(ty, kvs);
    var k := Merge(ty.key, key, kvs[0]);
    var v := Merge(ty.value, value, kvs[1]);
    MergePairs(ty, k, v, m[k := v], kvs[2..])
  }

  lemma PairsNext(ty: Ty, kvs: seq<Item>)
    requires PairsTyped(ty, kvs) && kvs != []
    ensures |kvs| >= 2 && HasType(kvs[0], ty.key) && HasType(kvs[1], ty.value) && PairsTyped(ty, kvs[2..])
  {
    var rest := kvs[2..];
    assert HasType(kvs[0], PairTy(ty, 0)) && HasType(kvs[1], PairTy(ty, 1));
    forall i | 0 <= i < |rest| ensures HasType(rest[i], PairTy(ty, i)) {
      assert rest[i] == kvs[i + 2] && (i + 2) % 2 == i % 2;
    }
  }

  lemma ScalarRead(b: seq<Byte>, o: nat, n: nat, x: nat, prior: nat)
    requires IsSize(n) && ScalarAt(b, o, n, x) && x < Limit(n)
    ensures ReadScalar(b, Cursor(o, Fine), n, prior) == (x, Cursor(ScalarEnd(o, n), Fine))
  {
    LeRoundTrip(n, x);
  }

  lemma WordRead(b: seq<Byte>, o: nat, x: nat)
    requires ScalarAt(b, o, 4, x) && x < TWO32
    ensures ReadScalar(b, Cursor(o, Fine), 4, 0) == (x, Cursor(ScalarEnd(o, 4), Fine))
    ensures x < TWO31 ==> Signed(x) == x
  {
    Limits();
    ScalarRead(b, o, 4, x, 0);
  }

  lemma WideRead(b: seq<Byte>, o: nat, s: seq<Wide>, prior: seq<int>)
    requires Image(IWide(s), b, o) && |Encode(s)| + 1 < TWO32 && Scalars(s)
    ensures ReadWide(b, Cursor(o, Fine), prior) == (s, Cursor(End(IWide(s), o), Fine))
  {
    hide Encode, Decode, ReadScalar, ScalarAt;
    var n := |WideBytes(s)|;
    WordRead(b, o, n);
    if s != [] {
      var p := ScalarEnd(o, 4);
      assert b[p..p + n - 1] == b[p..p + n][..n - 1] == Encode(s);
      RoundTrip(s);
    }
  }

  /** Reading finds what was written, wherever it lies and whatever follows it. */
  lemma {:induction false} ReadBack(ty: Ty, prior: Val, w: Item, b: seq<Byte>, o: nat)
    requires WfTy(ty) && HasType(w, ty) && Portable(w) && Image(w, b, o)
    ensures Read(ty, prior, b, Cursor(o, Fine)) == (Merge(ty, prior, w), Cursor(End(w, o), Fine))
    decreases w, 1, 0
  {
    hide Read, Merge, Image, End, HasType, Portable, WfTy;
    match w
    case IVector(ws) => ReadBackVector(ty, prior, ws, b, o);
    case IMap(kvs) => ReadBackMap(ty, prior, kvs, b, o);
    case IVariant(id, c) => ReadBackVariant(ty, prior, id, c, b, o);
    case _ => ReadBackPlain(ty, prior, w, b, o);
  }

  lemma {:induction false} ReadBackVector(ty: Ty, prior: Val, ws: seq<Item>, b: seq<Byte>, o: nat)
    requires WfTy(ty) && HasType(IVector(ws), ty) && Portable(IVector(ws)) && Image(IVector(ws), b, o)
    ensures Read(ty, prior, b, Cursor(o, Fine)) == (Merge(ty, prior, IVector(ws)), Cursor(End(IVector(ws), o), Fine))
    decreases ws, 1, 0
  {
    hide ReadScalar, ScalarAt, ScalarEnd, ReadEach, MergeEach, ImageAll, EndAll, Resize, Limit;
    WordRead(b, o, |ws|);
    ReadBackEach(ty, Resize(Elems(prior), |ws|, Default(ty.elem)), ws, b, ScalarEnd(o, 4));
  }

  lemma {:induction false} ReadBackMap(ty: Ty, prior: Val, kvs: seq<Item>, b: seq<Byte>, o: nat)
    requires WfTy(ty) && HasType(IMap(kvs), ty) && Portable(IMap(kvs)) && Image(IMap(kvs), b, o)
    ensures Read(ty, prior, b, Cursor(o, Fine)) == (Merge(ty, prior, IMap(kvs)), Cursor(End(IMap(kvs), o), Fine))
    decreases kvs, 1, 0
  {
    hide ReadScalar, ScalarAt, ScalarEnd, ReadPairs, MergePairs, ImageAll, EndAll, Limit;
    WordRead(b, o, |kvs| / 2);
    ReadBackPairs(ty, Default(ty.key), Default(ty.value), Entries(prior), kvs, b, ScalarEnd(o, 4));
  }

  lemma {:induction false} ReadBackVariant(ty: Ty, prior: Val, id: nat, c: Item, b: seq<Byte>, o: nat)
    requires WfTy(ty) && HasType(IVariant(id, c), ty) && Portable(IVariant(id, c)) && Image(IVariant(id, c), b, o)
    ensures Read(ty, prior, b, Cursor(o, Fine))
         == (Merge(ty, prior, IVariant(id, c)), Cursor(End(IVariant(id, c), o), Fine))
    decreases c, 2, 0
  {
    hide ReadScalar, ScalarAt, ScalarEnd, Limit;
    WordRead(b, o, id);
    ReadBack(ty.alts[id - 1], Default(ty.alts[id - 1]), c, b, ScalarEnd(o, 4));
  }

  lemma ReadBackPlain(ty: Ty, prior: Val, w: Item, b: seq<Byte>, o: nat)
    requires WfTy(ty) && HasType(w, ty) && Portable(w) && Image(w, b, o)
    requires !w.IVector? && !w.IMap? && !w.IVariant?
    ensures Read(ty, prior, b, Cursor(o, Fine)) == (Merge(ty, prior, w), Cursor(End(w, o), Fine))
  {
    hide ReadScalar, ScalarAt, ScalarEnd, ReadWide, Encode, WideBytes, Scalars;
    match w
    case IScalar(n, x) => ScalarRead(b, o, n, x, if prior.VScalar? then prior.bits else 0);
    case IBool(f) => WordRead(b, o, if f then 1 else 0);
    case IString(s) => WordRead(b, o, |s|);
    case IWide(s) => WideRead(b, o, s, if prior.VWide? then prior.chars else []);
    case IUnset => WordRead(b, o, 0);
  }

  lemma {:induction false} ReadBackEach(ty: Ty, places: seq<Val>, ws: seq<Item>, b: seq<Byte>, o: nat)
    requires WfTy(ty) && EachTyped(ty, ws) && |places| == |ws|
    requires (forall i :: 0 <= i < |ws| ==> Portable(ws[i])) && ImageAll(ws, b, o)
    ensures ReadEach(ty, places, b, Cursor(o, Fine)) == (MergeEach(ty, places, ws), Cursor(EndAll(ws, o), Fine))
    decreases ws, 0, 0
  {
    hide Image, HasType, Portable, Read, Merge;
    if ws != [] {
      ReadBack(ty.elem, places[0], ws[0], b, o);
      ReadBackEach(ty, places[1..], ws[1..], b, End(ws[0], o));
    }
  }

  lemma {:induction false} ReadBackPairs(ty: Ty, key: Val, value: Val, m: map<Val, Val>, kvs: seq<Item>, b: seq<Byte>, o: nat)
    requires WfTy(ty) && PairsTyped(ty, kvs)
    requires (forall i :: 0 <= i < |kvs| ==> Portable(kvs[i])) && ImageAll(kvs, b, o)
    ensures ReadPairs(ty, |kvs| / 2, key, value, m, b, Cursor(o, Fine))
         == (MergePairs(ty, key, value, m, kvs), Cursor(EndAll(kvs, o), Fine))
    decreases kvs, 0, 0
  {
    hide Image, HasType, Portable, Read, Merge, PairsTyped;
    if kvs != [] {
      PairsNext(ty, kvs);
      var rest := kvs[2..];
      assert kvs[1..][0] == kvs[1] && kvs[1..][1..] == rest;
      assert ImageAll(kvs[1..], b, End(kvs[0], o));
      var mid := End(kvs[0], o);
      ReadBack(ty.key, key, kvs[0], b, o);
      ReadBack(ty.value, value, kvs[1], b, mid);
      var k, v := Merge(ty.key, key, kvs[0]), Merge(ty.value, value, kvs[1]);
      ReadBackPairs(ty, k, v, m[k := v], rest, b, End(kvs[1], mid));
      assert |rest| / 2 == |kvs| / 2 - 1;
      assert EndAll(kvs, o) == EndAll(kvs[1..], mid) == EndAll(rest, End(kvs[1], mid));
    } else {
      assert |kvs| / 2 == 0;
    }
  }

  // ---------------------------------------------------------------- exactly when it is what was written

  /** The map reader adds to what is there, resized vectors keep their elements, and
      the map reader's value object is used again for the next entry. So a value comes
      back unharmed exactly when every map in it has all the keys of the map that the
      same object held just before. */
  ghost predicate Covers(ty: Ty, prior: Val, w: Item)
    requires HasType(w, ty)
    decreases w, 1, 0
  {
    match w
    case IVector(ws) => CoversEach(ty, Resize(Elems(prior), |ws|, Default(ty.elem)), ws)
    case IMap(kvs) => Entries(prior).Keys <= AbsPairs(kvs).Keys && CoversChain(ty, Default(ty.value), kvs)
    case IVariant(id, c) => Covers(ty.alts[id - 1], Default(ty.alts[id - 1]), c)
    case _ => true
  }

  ghost predicate CoversEach(ty: Ty, places: seq<Val>, ws: seq<Item>)
    requires EachTyped(ty, ws) && |places| == |ws|
    decreases ws, 0, 0
  {
    ws == [] || (Covers(ty.elem, places[0], ws[0]) && CoversEach(ty, places[1..], ws[1..]))
  }

  ghost predicate CoversChain(ty: Ty, before: Val, kvs: seq<Item>)
    requires PairsTyped(ty, kvs)
    decreases kvs, 0, 0
  {
    kvs == [] ||
    (PairsNext(ty, kvs); Covers(ty.value, before, kvs[1]) && CoversChain(ty, Abs(kvs[1]), kvs[2..]))
  }

  lemma {:induction false} NoMapsExact(ty: Ty, prior: Val, w: Item)
    requires HasType(w, ty) && NoMaps(ty)
    ensures Merge(ty, prior, w) == Abs(w)
    decreases w, 1, 0
  {
    match w
    case IVector(ws) => NoMapsExactEach(ty, Resize(Elems(prior), |ws|, Default(ty.elem)), ws);
    case IVariant(id, c) => NoMapsExact(ty.alts[id - 1], Default(ty.alts[id - 1]), c);
    case _ =>
  }

  lemma {:induction false} NoMapsExactEach(ty: Ty, places: seq<Val>, ws: seq<Item>)
    requires EachTyped(ty, ws) && |places| == |ws| && NoMaps(ty.elem)
    ensures MergeEach(ty, places, ws) == AbsAll(ws)
    decreases ws, 0, 0
  {
    hide HasType, Merge, Abs;
    if ws != [] {
      NoMapsExact(ty.elem, places[0], ws[0]);
      NoMapsExactEach(ty, places[1..], ws[1..]);
    }
  }

  lemma KeysNext(kvs: seq<Item>)
    requires DistinctKeys(kvs) && |kvs| >= 2
    ensures DistinctKeys(kvs[2..]) && Abs(kvs[0]) !in AbsPairs(kvs[2..])
  {
    hide Abs;
    var rest := kvs[2..];
    forall i, j | 0 <= i < j < |rest| && i % 2 == 0 && j % 2 == 0 ensures Abs(rest[i]) != Abs(rest[j]) {
      assert rest[i] == kvs[i + 2] && rest[j] == kvs[j + 2] && (i + 2) % 2 == 0 && (j + 2) % 2 == 0;
    }
    forall i | 0 <= i < |rest| && i % 2 == 0 ensures Abs(rest[i]) != Abs(kvs[0]) {
      assert rest[i] == kvs[i + 2] && (i + 2) % 2 == 0;
    }
    if Abs(kvs[0]) in AbsPairs(rest) {
      KeyAt(rest, Abs(kvs[0]));
    }
  }

  lemma {:induction false} KeyAt(kvs: seq<Item>, x: Val)
    requires x in AbsPairs(kvs)
    ensures exists i :: 0 <= i < |kvs| && i % 2 == 0 && Abs(kvs[i]) == x
    decreases |kvs|
  {
    hide Abs;
    if |kvs| >= 2 && x != Abs(kvs[0]) {
      KeyAt(kvs[2..], x);
      var i :| 0 <= i < |kvs[2..]| && i % 2 == 0 && Abs(kvs[2..][i]) == x;
      assert kvs[2..][i] == kvs[i + 2] && (i + 2) % 2 == 0;
    } else {
      assert Abs(kvs[0]) == x;
    }
  }

  /** The entries left by the map reader: those of the item over those that were there. */
  lemma {:induction false} PairsKeys(ty: Ty, key: Val, value: Val, m: map<Val, Val>, kvs: seq<Item>)
    requires WfTy(ty) && PairsTyped(ty, kvs)
    ensures MergePairs(ty, key, value, m, kvs).Keys == m.Keys + AbsPairs(kvs).Keys
    ensures forall x :: x in m && x !in AbsPairs(kvs) ==> MergePairs(ty, key, value, m, kvs)[x] == m[x]
    decreases |kvs|
  {
    hide HasType, Merge, Abs, PairsTyped, NoMaps;
    if kvs != [] {
      PairsNext(ty, kvs);
      NoMapsExact(ty.key, key, kvs[0]);
      var k, v := Merge(ty.key, key, kvs[0]), Merge(ty.value, value, kvs[1]);
      PairsKeys(ty, k, v, m[k := v], kvs[2..]);
    }
  }

  /** A value survives being read into an object exactly when it covers what was there. */
  lemma {:induction false} SurvivesIff(ty: Ty, prior: Val, w: Item)
    requires WfTy(ty) && HasType(w, ty)
    ensures Merge(ty, prior, w) == Abs(w) <==> Covers(ty, prior, w)
    decreases w, 1, 0
  {
    hide MergeEach, MergePairs, CoversEach, CoversChain, Resize, NoMaps, AbsAll, AbsPairs, Limit, Encode;
    match w
    case IVector(ws) => SurvivesEach(ty, Resize(Elems(prior), |ws|, Default(ty.elem)), ws);
    case IMap(kvs) => SurvivesMap(ty, Default(ty.key), Default(ty.value), Entries(prior), kvs);
    case IVariant(id, c) => SurvivesIff(ty.alts[id - 1], Default(ty.alts[id - 1]), c);
    case _ =>
  }

  lemma {:induction false} SurvivesEach(ty: Ty, places: seq<Val>, ws: seq<Item>)
    requires WfTy(ty) && EachTyped(ty, ws) && |places| == |ws|
    ensures MergeEach(ty, places, ws) == AbsAll(ws) <==> CoversEach(ty, places, ws)
    decreases ws, 0, 0
  {
    hide HasType, Merge, Abs, Covers;
    if ws != [] {
      SurvivesIff(ty.elem, places[0], ws[0]);
      SurvivesEach(ty, places[1..], ws[1..]);
      var r, a := MergeEach(ty, places, ws), AbsAll(ws);
      assert r == [r[0]] + r[1..] && a == [a[0]] + a[1..];
      assert r[1..] == MergeEach(ty, places[1..], ws[1..]) && a[1..] == AbsAll(ws[1..]);
    }
  }

  lemma {:induction false} SurvivesMap(ty: Ty, key: Val, value: Val, m: map<Val, Val>, kvs: seq<Item>)
    requires WfTy(ty) && PairsTyped(ty, kvs) && DistinctKeys(kvs)
    ensures MergePairs(ty, key, value, m, kvs) == AbsPairs(kvs)
       <==> m.Keys <= AbsPairs(kvs).Keys && CoversChain(ty, value, kvs)
    decreases kvs, 1, 0
  {
    hide MergePairs, CoversChain, AbsPairs, PairsTyped, DistinctKeys, WfTy;
    PairsKeys(ty, key, value, m, kvs);
    var r, a := MergePairs(ty, key, value, m, kvs), AbsPairs(kvs);
    SurvivesPairs(ty, key, value, m, kvs, a);
    if Agree(r, a, a.Keys) && m.Keys <= a.Keys {
      assert r.Keys == a.Keys;
    }
  }

  ghost predicate Agree(a: map<Val, Val>, b: map<Val, Val>, keys: set<Val>) {
    forall x :: x in keys ==> x in a && x in b && a[x] == b[x]
  }

  lemma {:induction false} SurvivesPairs(ty: Ty, key: Val, value: Val, m: map<Val, Val>, kvs: seq<Item>, all: map<Val, Val>)
    requires WfTy(ty) && PairsTyped(ty, kvs) && DistinctKeys(kvs) && Agree(all, AbsPairs(kvs), AbsPairs(kvs).Keys)
    ensures Agree(MergePairs(ty, key, value, m, kvs), all, AbsPairs(kvs).Keys) <==> CoversChain(ty, value, kvs)
    decreases kvs, 0, 0
  {
    hide HasType, Merge, Abs, Covers, PairsTyped, DistinctKeys, NoMaps;
    if kvs != [] {
      PairsNext(ty, kvs);
      KeysNext(kvs);
      NoMapsExact(ty.key, key, kvs[0]);
      SurvivesIff(ty.value, value, kvs[1]);
      var k, v := Merge(ty.key, key, kvs[0]), Merge(ty.value, value, kvs[1]);
      var rest := kvs[2..];
      PairsKeys(ty, k, v, m[k := v], rest);
      var r := MergePairs(ty, k, v, m[k := v], rest);
      assert r == MergePairs(ty, key, value, m, kvs);
      assert r[k] == v;
      assert all[k] == Abs(kvs[1]);
      assert AbsPairs(kvs).Keys == AbsPairs(rest).Keys + {k};
      assert Agree(all, AbsPairs(rest), AbsPairs(rest).Keys);
      SurvivesPairs(ty, k, v, m[k := v], rest, all);
      assert Agree(r, all, AbsPairs(kvs).Keys) <==> v == Abs(kvs[1]) && Agree(r, all, AbsPairs(rest).Keys);
    }
  }

  /** Reading into an object that holds something returns the value written, with no error
      and at the writer's offset, exactly when the value covers what was held. This is how an
      attribute without partial updates reaches a client that has an older value. */
  lemma RoundTripIff(ty: Ty, held: Val, w: Item, b: seq<Byte>, o: nat)
    requires WfTy(ty) && HasType(w, ty) && Portable(w) && Image(w, b, o)
    ensures Read(ty, held, b, Cursor(o, Fine)) == (Abs(w), Cursor(End(w, o), Fine)) <==> Covers(ty, held, w)
  {
    hide Read, Merge, Covers, Image, HasType, Portable;
    ReadBack(ty, held, w, b, o);
    SurvivesIff(ty, held, w);
  }

  /** Does reading into an object of this type keep part of what it held? */
  predicate Accumulates(ty: Ty) {
    match ty
    case TMap(_, _) => true
    case TVector(e) => Accumulates(e)
    case _ => false
  }

  /** Types in which no value object of a map reader keeps anything. */
  predicate Tidy(ty: Ty) {
    match ty
    case TVector(e) => Tidy(e)
    case TMap(_, v) => Tidy(v) && !Accumulates(v)
    case TVariant(alts) => forall i :: 0 <= i < |alts| ==> Tidy(alts[i])
    case _ => true
  }

  lemma {:induction false} TidyCovers(ty: Ty, prior: Val, w: Item)
    requires HasType(w, ty) && Tidy(ty) && (Accumulates(ty) ==> prior == Default(ty))
    ensures Covers(ty, prior, w)
    decreases w, 1, 0
  {
    match w
    case IVector(ws) => TidyCoversEach(ty, Resize(Elems(prior), |ws|, Default(ty.elem)), ws);
    case IMap(kvs) => TidyCoversChain(ty, Default(ty.value), kvs);
    case IVariant(id, c) => TidyCovers(ty.alts[id - 1], Default(ty.alts[id - 1]), c);
    case _ =>
  }

  lemma {:induction false} TidyCoversEach(ty: Ty, places: seq<Val>, ws: seq<Item>)
    requires EachTyped(ty, ws) && |places| == |ws| && Tidy(ty.elem)
    requires Accumulates(ty.elem) ==> forall i :: 0 <= i < |places| ==> places[i] == Default(ty.elem)
    ensures CoversEach(ty, places, ws)
    decreases ws, 0, 0
  {
    hide HasType, Covers;
    if ws != [] {
      TidyCovers(ty.elem, places[0], ws[0]);
      TidyCoversEach(ty, places[1..], ws[1..]);
    }
  }

  lemma {:induction false} TidyCoversChain(ty: Ty, before: Val, kvs: seq<Item>)
    requires PairsTyped(ty, kvs) && Tidy(ty.value) && !Accumulates(ty.value)
    ensures CoversChain(ty, before, kvs)
    decreases kvs, 0, 0
  {
    hide HasType, Covers, PairsTyped;
    if kvs != [] {
      PairsNext(ty, kvs);
      TidyCovers(ty.value, before, kvs[1]);
      TidyCoversChain(ty, Abs(kvs[1]), kvs[2..]);
    }
  }

  /** Every value of a tidy type comes back: no error, same offset, whatever follows. */
  lemma TidyRoundTrip(ty: Ty, w: Item, b: seq<Byte>, o: nat)
    requires WfTy(ty) && Tidy(ty) && HasType(w, ty) && Portable(w) && Image(w, b, o)
    ensures Read(ty, Default(ty), b, Cursor(o, Fine)) == (Abs(w), Cursor(End(w, o), Fine))
  {
    RoundTripIff(ty, Default(ty), w, b, o);
    TidyCovers(ty, Default(ty), w);
  }

  /** Two maps within a map come back exactly when the second has all keys of the first. */
  lemma TwoInnerMaps(ty: Ty, kvs: seq<Item>, b: seq<Byte>, o: nat)
    requires WfTy(ty) && ty.TMap? && ty.value.TMap? && NoMaps(ty.value.value)
    requires |kvs| == 4 && HasType(IMap(kvs), ty) && Portable(IMap(kvs)) && Image(IMap(kvs), b, o)
    ensures kvs[1].IMap? && kvs[3].IMap?
    ensures Read(ty, Default(ty), b, Cursor(o, Fine)) == (Abs(IMap(kvs)), Cursor(End(IMap(kvs), o), Fine))
       <==> AbsPairs(kvs[1].kvs).Keys <= AbsPairs(kvs[3].kvs).Keys
  {
    RoundTripIff(ty, Default(ty), IMap(kvs), b, o);
    TwoChain(ty, kvs);
  }

  lemma TwoChain(ty: Ty, kvs: seq<Item>)
    requires ty.TMap? && ty.value.TMap? && NoMaps(ty.value.value) && |kvs| == 4 && PairsTyped(ty, kvs)
    ensures kvs[1].IMap? && kvs[3].IMap?
    ensures CoversChain(ty, Default(ty.value), kvs) <==> AbsPairs(kvs[1].kvs).Keys <= AbsPairs(kvs[3].kvs).Keys
  {
    PairsNext(ty, kvs);
    PairsNext(ty, kvs[2..]);
    var rest := kvs[2..];
    assert rest[1] == kvs[3] && rest[2..] == [];
    InnerCovers(ty.value, Default(ty.value), kvs[1]);
    InnerCovers(ty.value, Abs(kvs[1]), kvs[3]);
    assert Entries(Abs(kvs[1])) == AbsPairs(kvs[1].kvs);
    hide HasType, PairsTyped, AbsPairs, Covers, NoMaps, Abs;
    assert CoversChain(ty, Abs(kvs[1]), rest) <==> Covers(ty.value, Abs(kvs[1]), rest[1]) && CoversChain(ty, Abs(rest[1]), rest[2..]);
    assert CoversChain(ty, Default(ty.value), kvs) <==> Covers(ty.value, Default(ty.value), kvs[1]) && CoversChain(ty, Abs(kvs[1]), rest);
  }

  lemma InnerCovers(ty: Ty, prior: Val, w: Item)
    requires ty.TMap? && NoMaps(ty.value) && HasType(w, ty)
    ensures w.IMap? && (Covers(ty, prior, w) <==> Entries(prior).Keys <= AbsPairs(w.kvs).Keys)
  {
    NoMapsTidy(ty.value);
    TidyCoversChain(ty, Default(ty.value), w.kvs);
  }

  lemma NoMapsTidy(ty: Ty)
    requires NoMaps(ty)
    ensures Tidy(ty) && !Accumulates(ty)
  {
  }

  function Leaf(a: nat, x: nat): Item {
    IMap([IScalar(1, a), IScalar(1, x)])
  }

  const LEAVES := TMap(TScalar(1), TScalar(1))

  lemma LeafTyped(a: nat, x: nat)
    requires a < 256 && x < 256
    ensures HasType(Leaf(a, x), LEAVES) && Portable(Leaf(a, x))
    ensures AbsPairs(Leaf(a, x).kvs) == map[VScalar(a) := VScalar(x)]
  {
    Limits();
    hide Limit;
    var kvs := Leaf(a, x).kvs;
    assert HasType(kvs[0], TScalar(1)) && HasType(kvs[1], TScalar(1));
    assert kvs[2..] == [];
  }

  function TwoLeaves(x: Item, y: Item): Item {
    IMap([IScalar(1, 1), x, IScalar(1, 2), y])
  }

  lemma TwoLeavesTyped(x: Item, y: Item)
    requires HasType(x, LEAVES) && HasType(y, LEAVES) && Portable(x) && Portable(y)
    ensures HasType(TwoLeaves(x, y), TMap(TScalar(1), LEAVES)) && Portable(TwoLeaves(x, y))
  {
    Limits();
    hide Limit;
    var kvs := TwoLeaves(x, y).kvs;
    var ty := TMap(TScalar(1), LEAVES);
    assert HasType(kvs[0], TScalar(1)) && HasType(kvs[2], TScalar(1));
    assert Portable(kvs[0]) && Portable(kvs[2]);
    assert Abs(kvs[0]) != Abs(kvs[2]);
    hide HasType, Portable, Abs;
    assert forall i :: 0 <= i < |kvs| ==> HasType(kvs[i], PairTy(ty, i));
    assert DistinctKeys(kvs);
  }

  /** Such a loss: {1: {10: 1}, 2: {20: 2}} is read back with key 10 in both inner maps. */
  lemma StaleKeysReturn(b: seq<Byte>, o: nat)
    requires Image(TwoLeaves(Leaf(10, 1), Leaf(20, 2)), b, o)
    ensures var w := TwoLeaves(Leaf(10, 1), Leaf(20, 2));
            Read(TMap(TScalar(1), LEAVES), VMap(map[]), b, Cursor(o, Fine)) != (Abs(w), Cursor(End(w, o), Fine))
  {
    var ty := TMap(TScalar(1), LEAVES);
    var x, y := Leaf(10, 1), Leaf(20, 2);
    LeafTyped(10, 1);
    LeafTyped(20, 2);
    TwoLeavesTyped(x, y);
    assert VScalar(10) in AbsPairs(x.kvs).Keys && VScalar(10) !in AbsPairs(y.kvs).Keys;
    hide Image, AbsPairs, Read, End, HasType, Portable, Abs, Leaf;
    TwoInnerMaps(ty, TwoLeaves(x, y).kvs, b, o);
  }

  /** A variant comes back exactly when its alternative is not the ninth or tenth. */
  lemma VariantSurvives(ty: Ty, prior: Val, id: nat, c: Item, b: seq<Byte>, o: nat)
    requires WfTy(ty) && HasType(IVariant(id, c), ty) && Portable(c) && Image(IVariant(id, c), b, o)
    requires Covers(ty.alts[id - 1], Default(ty.alts[id - 1]), c)
    ensures Read(ty, prior, b, Cursor(o, Fine)).0 == Abs(IVariant(id, c)) <==> id != 9 && id != 10
  {
    WordRead(b, o, id);
    var i := TableIndex(id);
    if i + 1 == id {
      hide Read;
      ReadBack(ty, prior, IVariant(id, c), b, o);
      SurvivesIff(ty, prior, IVariant(id, c));
    } else {
      assert Read(ty, prior, b, Cursor(o, Fine)).0.id == i + 1;
    }
  }
}
