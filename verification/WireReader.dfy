/** The deserializer: what each read makes of the bytes, on any bytes at all. */
module WireReader {
  import opened Utf8
  import opened Wire

  /** No error, ERANGE, or an exception thrown by a container asked for a negative size. */
  datatype Status = Fine | Range | Threw

  datatype Cursor = Cursor(offset: nat, status: Status)

  /** CIStream::read<T>: a failing read still moves to the aligned offset. */
  function ReadScalar(b: seq<Byte>, c: Cursor, n: nat, prior: nat): (r: (nat, Cursor))
    requires IsSize(n)
    ensures c.status == Fine && r.1.status == Fine ==> r.1.offset <= |b|
  {
    if c.status != Fine then (prior, c) else
    var p := c.offset + Pad(c.offset, n);
    if p + n <= |b| then (FromLe(b[p..p + n]), Cursor(p + n, Fine)) else (prior, Cursor(p, Range))
  }

  function ReadString(b: seq<Byte>, c: Cursor, prior: seq<Byte>): (seq<Byte>, Cursor) {
    if c.status != Fine then (prior, c) else
    var (n, c1) := ReadScalar(b, c, 4, 0);
    if c1.status != Fine || n == 0 then ([], c1)
    else if n <= |b| - c1.offset then (b[c1.offset..c1.offset + n], Cursor(c1.offset + n, Fine))
    else (prior, Cursor(c1.offset, Range))
  }

  /** The last of the counted bytes is the terminating zero. */
  function ReadWide(b: seq<Byte>, c: Cursor, prior: seq<int>): (seq<int>, Cursor) {
    if c.status != Fine then (prior, c) else
    var (n, c1) := ReadScalar(b, c, 4, 0);
    if c1.status != Fine || n == 0 then ([], c1)
    else if n <= |b| - c1.offset then (Decode(b[c1.offset..c1.offset + n - 1]), Cursor(c1.offset + n, Fine))
    else (prior, Cursor(c1.offset, Range))
  }

  /** std::vector::resize. */
  function Resize(s: seq<Val>, n: nat, fill: Val): (r: seq<Val>)
    ensures |r| == n
  {
    if n <= |s| then s[..n] else s + seq(n - |s|, _ => fill)
  }

  /** The table of the variant reader: its entries for 9 and 10 are off by one. */
  function TableIndex(id: nat): (i: nat)
    requires 1 <= id <= MAX_ALTERNATIVES
    ensures i < id
    ensures i + 1 == id <==> id != 9 && id != 10
  {
    if id == 9 then 7 else if id == 10 then 8 else id - 1
  }

  /** Reading into an object that holds `prior`. */
  function Read(ty: Ty, prior: Val, b: seq<Byte>, c: Cursor): (Val, Cursor)
    requires WfTy(ty)
    decreases ty, 1, 0
  {
    match ty
    case TScalar(n) =>
      var (x, c1) := ReadScalar(b, c, n, if prior.VScalar? then prior.bits else 0);
      (VScalar(x), c1)
    case TBool =>
      var (x, c1) := ReadScalar(b, c, 4, 0);
      (VBool(x != 0), c1)
    case TString =>
      var (s, c1) := ReadString(b, c, if prior.VString? then prior.bytes else []);
      (VString(s), c1)
    case TWide =>
      var (s, c1) := ReadWide(b, c, if prior.VWide? then prior.chars else []);
      (VWide(s), c1)
    case TVector(e) =>
      var (x, c1) := ReadScalar(b, c, 4, 0);
      if Signed(x) < 0 then (prior, c1.(status := Threw)) else
      var (vs, c2) := ReadEach(ty, Resize(Elems(prior), Signed(x), Default(e)), b, c1);
      (VVector(vs), c2)
    case TMap(k, v) =>
      var (x, c1) := ReadScalar(b, c, 4, 0);
      var (m, c2) := ReadPairs(ty, if Signed(x) < 0 then 0 else Signed(x), Default(k), Default(v), Entries(prior), b, c1);
      (VMap(m), c2)
    case TVariant(alts) =>
      var (x, c1) := ReadScalar(b, c, 4, 0);
      if 0 < Signed(x) <= |alts| then
        var i := TableIndex(Signed(x));
        var (v, c2) := Read(alts[i], Default(alts[i]), b, c1);
        (VVariant(i + 1, v), c2)
      else (VUnset, c1)
  }

  /** The loop of the vector reader: each element is read into its place. */
  function ReadEach(ty: Ty, places: seq<Val>, b: seq<Byte>, c: Cursor): (r: (seq<Val>, Cursor))
    requires WfTy(ty) && ty.TVector?
    ensures |r.0| == |places|
    decreases ty, 0, |places|
  {
    if places == [] then ([], c) else
    var (v, c1) := Read(ty.elem, places[0], b, c);
    var (vs, c2) := ReadEach(ty, places[1..], b, c1);
    ([v] + vs, c2)
  }

  /** The loop of the map reader: one key object and one value object serve all entries. */
  function ReadPairs(ty: Ty, n: nat, key: Val, value: Val, m: map<Val, Val>, b: seq<Byte>, c: Cursor): (map<Val, Val>, Cursor)
    requires WfTy(ty) && ty.TMap?
    decreases ty, 0, n
  {
    if n == 0 then (m, c) else
    var (k, c1) := Read(ty.key, key, b, c);
    var (v, c2) := Read(ty.value, value, b, c1);
    ReadPairs(ty, n - 1, k, v, m[k := v], b, c2)
  }

  // ---------------------------------------------------------------- reads that fail

  lemma ShortScalar(b: seq<Byte>, o: nat, n: nat, prior: nat)
    requires IsSize(n)
    ensures ScalarEnd(o, n) > |b| ==> ReadScalar(b, Cursor(o, Fine), n, prior) == (prior, Cursor(o + Pad(o, n), Range))
  {
    hide Pad, FromLe;
  }

  lemma CountRead(b: seq<Byte>, o: nat, len: nat)
    requires ScalarAt(b, o, 4, len) && len < TWO32
    ensures ReadScalar(b, Cursor(o, Fine), 4, 0) == (len, Cursor(ScalarEnd(o, 4), Fine))
  {
    Limits();
    LeRoundTrip(4, len);
    hide Pad, FromLe, Le;
  }

  /** Where the data ends too early for a number, or for the contents of a string, the target keeps
      what it held. */
  lemma ShortReads(b: seq<Byte>, o: nat, n: nat, x: nat, len: nat, s: seq<Byte>, cs: seq<int>)
    requires IsSize(n)
    ensures ScalarEnd(o, n) > |b| ==> Read(TScalar(n), VScalar(x), b, Cursor(o, Fine)) == (VScalar(x), Cursor(o + Pad(o, n), Range))
    ensures ScalarAt(b, o, 4, len) && 0 < len < TWO32 && ScalarEnd(o, 4) + len > |b| ==>
              && Read(TString, VString(s), b, Cursor(o, Fine)) == (VString(s), Cursor(ScalarEnd(o, 4), Range))
              && Read(TWide, VWide(cs), b, Cursor(o, Fine)) == (VWide(cs), Cursor(ScalarEnd(o, 4), Range))
  {
    ShortScalar(b, o, n, x);
    if ScalarAt(b, o, 4, len) && len < TWO32 { CountRead(b, o, len); }
    hide Pad, ScalarAt, ReadScalar, Decode;
  }

  /** A string whose size is missing, or zero, is cleared. */
  lemma NoCount(b: seq<Byte>, o: nat, s: seq<Byte>, cs: seq<int>)
    ensures ScalarEnd(o, 4) > |b| ==>
              && Read(TString, VString(s), b, Cursor(o, Fine)) == (VString([]), Cursor(o + Pad(o, 4), Range))
              && Read(TWide, VWide(cs), b, Cursor(o, Fine)) == (VWide([]), Cursor(o + Pad(o, 4), Range))
    ensures ScalarAt(b, o, 4, 0) ==>
              && Read(TString, VString(s), b, Cursor(o, Fine)) == (VString([]), Cursor(ScalarEnd(o, 4), Fine))
              && Read(TWide, VWide(cs), b, Cursor(o, Fine)) == (VWide([]), Cursor(ScalarEnd(o, 4), Fine))
  {
    ShortScalar(b, o, 4, 0);
    if ScalarAt(b, o, 4, 0) { CountRead(b, o, 0); }
    hide Pad, ScalarAt, ReadScalar, Decode;
  }

  // ---------------------------------------------------------------- safety on arbitrary bytes

  /** From c to c': nothing happens after an error; the offset never goes back, stays
      within the data while there is no error, and at most one alignment beyond it. */
  ghost predicate Advances(b: seq<Byte>, c: Cursor, c': Cursor) {
    && (c.status != Fine ==> c' == c)
    && c.offset <= c'.offset
    && (c.offset <= |b| && c'.status == Fine ==> c'.offset <= |b|)
    && (c.offset <= |b| ==> c'.offset < |b| + 8)
  }

  lemma {:induction false} ReadSafe(ty: Ty, prior: Val, b: seq<Byte>, c: Cursor)
    requires WfTy(ty)
    ensures Advances(b, c, Read(ty, prior, b, c).1)
    decreases ty, 1, 0
  {
    match ty
    case TVector(e) =>
      var (x, c1) := ReadScalar(b, c, 4, 0);
      if Signed(x) >= 0 { ReadEachSafe(ty, Resize(Elems(prior), Signed(x), Default(e)), b, c1); }
    case TMap(k, v) =>
      var (x, c1) := ReadScalar(b, c, 4, 0);
      ReadPairsSafe(ty, if Signed(x) < 0 then 0 else Signed(x), Default(k), Default(v), Entries(prior), b, c1);
    case TVariant(alts) =>
      var (x, c1) := ReadScalar(b, c, 4, 0);
      if 0 < Signed(x) <= |alts| {
        var i := TableIndex(Signed(x));
        ReadSafe(alts[i], Default(alts[i]), b, c1);
      }
    case _ =>
  }

  lemma {:induction false} ReadEachSafe(ty: Ty, places: seq<Val>, b: seq<Byte>, c: Cursor)
    requires WfTy(ty) && ty.TVector?
    ensures Advances(b, c, ReadEach(ty, places, b, c).1)
    decreases ty, 0, |places|
  {
    hide Read;
    if places != [] {
      ReadSafe(ty.elem, places[0], b, c);
      ReadEachSafe(ty, places[1..], b, Read(ty.elem, places[0], b, c).1);
    }
  }

  lemma {:induction false} ReadPairsSafe(ty: Ty, n: nat, key: Val, value: Val, m: map<Val, Val>, b: seq<Byte>, c: Cursor)
    requires WfTy(ty) && ty.TMap?
    ensures Advances(b, c, ReadPairs(ty, n, key, value, m, b, c).1)
    decreases ty, 0, n
  {
    hide Read;
    if n > 0 {
      var (k, c1) := Read(ty.key, key, b, c);
      var (v, c2) := Read(ty.value, value, b, c1);
      ReadSafe(ty.key, key, b, c);
      ReadSafe(ty.value, value, b, c1);
      ReadPairsSafe(ty, n - 1, k, v, m[k := v], b, c2);
    }
  }

  datatype Request = Request(ty: Ty, prior: Val)

  /** Where a stream stands after a sequence of reads. */
  function CursorAfter(reqs: seq<Request>, b: seq<Byte>): Cursor
    requires forall i :: 0 <= i < |reqs| ==> WfTy(reqs[i].ty)
  {
    if reqs == [] then Cursor(0, Fine) else
    var last := reqs[|reqs| - 1];
    Read(last.ty, last.prior, b, CursorAfter(reqs[..|reqs| - 1], b)).1
  }

  /** For every byte string and every sequence of reads: an error is final, and until
      then the offset only grows and stays inside the data. */
  lemma {:induction false} ReadsAreSafe(reqs: seq<Request>, b: seq<Byte>, i: nat)
    requires (forall j :: 0 <= j < |reqs| ==> WfTy(reqs[j].ty)) && i <= |reqs|
    ensures var c, d := CursorAfter(reqs[..i], b), CursorAfter(reqs, b);
            && (c.status != Fine ==> d == c)
            && (d.status == Fine ==> c.status == Fine && c.offset <= d.offset <= |b|)
            && c.offset <= d.offset < |b| + 8
    decreases |reqs|
  {
    hide Read;
    var n := |reqs|;
    if n > 0 {
      var last := reqs[n - 1];
      ReadSafe(last.ty, last.prior, b, CursorAfter(reqs[..n - 1], b));
      if i < n {
        assert reqs[..n - 1][..i] == reqs[..i];
        ReadsAreSafe(reqs[..n - 1], b, i);
      } else {
        assert reqs[..i] == reqs && reqs[..n - 1][..n - 1] == reqs[..n - 1];
        ReadsAreSafe(reqs[..n - 1], b, n - 1);
      }
    }
  }
}
