/** The two stream objects: a writer over a growing buffer and a reader over a message. */
module Streams {
  import opened Utf8
  import opened Wire
  import opened WireReader

  /** sizeof(mBuffer): a packet of 4096 bytes less its header of 40. */
  const STATIC_SIZE: nat := 4056

  function Doubled(k: nat): nat {
    if k == 0 then STATIC_SIZE else 2 * Doubled(k - 1)
  }

  /** CBuffer::powerOf2: the least doubling of the static size that is large enough. */
  method PowerOf2(n: nat) returns (rc: nat, ghost k: nat)
    ensures rc == Doubled(k) && rc >= n
    ensures forall j :: 0 <= j < k ==> Doubled(j) < n
  {
    rc, k := STATIC_SIZE, 0;
    while rc < n
      invariant rc == Doubled(k) && rc > 0
      invariant forall j :: 0 <= j < k ==> Doubled(j) < n
      decreases n - rc
    {
      rc, k := 2 * rc, k + 1;
    }
  }

  /** How a capacity of `was` answers a request for n. */
  ghost predicate Grown(n: nat, was: nat, now: nat, doubling: bool) {
    if n <= STATIC_SIZE || n <= was then now == was
    else if doubling then exists k :: k > 0 && now == Doubled(k) && Doubled(k - 1) < n <= now
    else now == n
  }

  ghost predicate MapTyped(kvs: seq<Item>, ty: Ty) {
    WfTy(ty) && HasType(IMap(kvs), ty)
  }

  lemma MapParts(kvs: seq<Item>, ty: Ty)
    requires MapTyped(kvs, ty)
    ensures ty.TMap? && WfTy(ty.key) && WfTy(ty.value) && |kvs| % 2 == 0
  {}

  lemma PairTyped(kvs: seq<Item>, ty: Ty, i: nat)
    requires MapTyped(kvs, ty) && i < |kvs| && i % 2 == 0
    ensures i + 1 < |kvs| && HasType(kvs[i], ty.key) && HasType(kvs[i + 1], ty.value)
  {
    assert HasType(kvs[i], PairTy(ty, i)) && HasType(kvs[i + 1], PairTy(ty, i + 1));
  }

  lemma NoneWritten(mid: seq<Byte>)
    ensures EndAll([], |mid|) == |mid| && ImageAll([], mid, |mid|)
  {}

  /** What a write leaves: everything before is unchanged, the item lies behind it. */
  ghost predicate Wrote(before: seq<Byte>, after: seq<Byte>, w: Item) {
    Prefix(before, after) && |after| == End(w, |before|) && Image(w, after, |before|)
  }

  /** COStream on a CRequestWriter and its CBuffer. */
  class OutStream {
    var buf: array<Byte>
    var size: nat
    const own: array<Byte>
    const doubling: bool

    ghost predicate Valid()
      reads this
    {
      own.Length == STATIC_SIZE && size <= buf.Length && (buf == own || buf.Length > STATIC_SIZE)
    }

    ghost function Contents(): (s: seq<Byte>)
      requires Valid()
      reads this, buf
      ensures |s| == size
    {
      buf[..size]
    }

    constructor (doubling: bool)
      ensures Valid() && Contents() == [] && this.doubling == doubling && fresh(buf) && buf.Length == STATIC_SIZE
    {
      this.doubling := doubling;
      var a := new Byte[STATIC_SIZE];
      own, buf, size := a, a, 0;
    }

    /** CBuffer::setCapacity: only grows, and carries the data over from static or heap memory. */
    method SetCapacity(n: nat)
      requires Valid()
      modifies this
      ensures Valid() && Contents() == old(Contents()) && (buf == old(buf) || fresh(buf))
      ensures buf.Length >= n && Grown(n, old(buf.Length), buf.Length, doubling)
      ensures n <= old(buf.Length) ==> buf == old(buf)
    {
      if n > STATIC_SIZE && n > buf.Length {
        var actual := n;
        if doubling {
          ghost var k;
          actual, k := PowerOf2(n);
          assert k > 0 && Doubled(k - 1) < n;
        }
        var a := new Byte[actual];
        for i := 0 to size
          invariant Valid() && size == old(size) && buf == old(buf)
          invariant a[..i] == buf[..i]
        {
          a[i] := buf[i];
        }
        buf := a;
      }
    }

    /** COStream::write<T>: room for twice the size covers the padding. */
    method WriteScalar(n: nat, x: nat)
      requires Valid() && IsSize(n)
      modifies this, buf
      ensures Valid() && (buf == old(buf) || fresh(buf))
      ensures Prefix(old(Contents()), Contents()) && size == ScalarEnd(old(size), n)
      ensures ScalarAt(Contents(), old(size), n, x)
      ensures if 2 * n < old(buf.Length) - old(size) then buf == old(buf)
              else Grown(old(buf.Length) + 2 * n, old(buf.Length), buf.Length, doubling)
    {
      hide Pad, Le, Doubled;
      if !(2 * n < buf.Length - size) {
        SetCapacity(buf.Length + 2 * n);
      }
      assert Contents() == old(Contents());
      Place(size + Pad(size, n), Le(n, x));
    }

    /** Skip to p and put the bytes there; the bytes skipped are whatever they were. */
    method Place(p: nat, bytes: seq<Byte>)
      requires Valid() && size <= p && p + |bytes| <= buf.Length
      modifies this`size, buf
      ensures Valid() && Prefix(old(Contents()), Contents())
      ensures size == p + |bytes| && Contents()[p..] == bytes
    {
      Store(p, bytes);
      assert buf[..size] == buf[..p][..size];
      size := p + |bytes|;
      assert Contents()[..old(size)] == buf[..old(size)];
      assert Contents()[p..] == buf[p..size];
    }

    method Store(p: nat, bytes: seq<Byte>)
      requires p + |bytes| <= buf.Length
      modifies buf
      ensures buf[p..p + |bytes|] == bytes && buf[..p] == old(buf[..p])
    {
      for i := 0 to |bytes|
        invariant buf[p..p + i] == bytes[..i] && buf[..p] == old(buf[..p])
      {
        buf[p + i] := bytes[i];
      }
      assert bytes[..|bytes|] == bytes;
    }

    /** COStream::write(const void*, size_t). */
    method WriteBytes(bytes: seq<Byte>)
      requires Valid()
      modifies this, buf
      ensures Valid() && (buf == old(buf) || fresh(buf))
      ensures Contents() == old(Contents()) + bytes
    {
      if !(|bytes| < buf.Length - size) {
        SetCapacity(buf.Length + |bytes|);
      }
      Store(size, bytes);
      size := size + |bytes|;
      assert buf[..size] == buf[..old(size)] + buf[old(size)..size];
    }

    /** A length, then the bytes, as every kind of string is written. */
    method WriteCounted(bytes: seq<Byte>)
      requires Valid()
      modifies this, buf
      ensures Valid() && (buf == old(buf) || fresh(buf))
      ensures Prefix(old(Contents()), Contents()) && size == ScalarEnd(old(size), 4) + |bytes|
      ensures ScalarAt(Contents(), old(size), 4, |bytes|) && BytesAt(Contents(), ScalarEnd(old(size), 4), bytes)
    {
      hide Le, Pad;
      WriteScalar(4, |bytes|);
      ghost var mid := Contents();
      if |bytes| != 0 {
        WriteBytes(bytes);
      }
      assert Contents() == mid + bytes;
      ScalarExtends(mid, Contents(), old(size), 4, |bytes|);
    }

    /** The serializing operators. */
    method Write(w: Item, ghost ty: Ty)
      requires Valid() && WfTy(ty) && HasType(w, ty)
      modifies this, buf
      ensures Valid() && (buf == old(buf) || fresh(buf))
      ensures Wrote(old(Contents()), Contents(), w)
      decreases w, 1
    {
      hide ScalarAt, BytesAt, Prefix, ScalarEnd, Encode, Limit;
      match w
      case IScalar(n, x) => WriteScalar(n, x);
      case IBool(f) => WriteScalar(4, if f then 1 else 0);
      case IString(s) => WriteCounted(s);
      case IWide(s) =>
        if |s| != 0 {
          var temp, _ := ToUtf8(s);
          WriteCounted(temp + [0]);
        } else {
          WriteCounted([]);
        }
      case IVector(ws) => WriteVector(ws, ty);
      case IMap(kvs) => WriteMap(kvs, ty);
      case IVariant(id, c) =>
        WriteScalar(4, id);
        ghost var mid := Contents();
        Write(c, ty.alts[id - 1]);
        JoinWrites(old(Contents()), mid, Contents(), 4, id, c);
      case IUnset => WriteScalar(4, 0);
    }

    /** One more item behind those already written from |mid| on. */
    method WriteNext(ws: seq<Item>, i: nat, ghost ty: Ty, ghost mid: seq<Byte>)
      requires Valid() && i < |ws| && WfTy(ty) && HasType(ws[i], ty)
      requires Prefix(mid, Contents()) && size == EndAll(ws[..i], |mid|) && ImageAll(ws[..i], Contents(), |mid|)
      modifies this, buf
      ensures Valid() && (buf == old(buf) || fresh(buf))
      ensures Prefix(mid, Contents()) && size == EndAll(ws[..i + 1], |mid|) && ImageAll(ws[..i + 1], Contents(), |mid|)
      decreases ws, 0
    {
      hide Prefix, Image, EndAll, ImageAll, HasType, WfTy, End;
      Write(ws[i], ty);
      NextImage(old(Contents()), Contents(), ws[..i], ws[i], mid);
      assert ws[..i + 1] == ws[..i] + [ws[i]];
    }

    method WriteVector(ws: seq<Item>, ghost ty: Ty)
      requires Valid() && WfTy(ty) && HasType(IVector(ws), ty)
      modifies this, buf
      ensures Valid() && (buf == old(buf) || fresh(buf))
      ensures Wrote(old(Contents()), Contents(), IVector(ws))
      decreases ws, 1
    {
      hide ScalarAt, Prefix, ScalarEnd, Image;
      WriteScalar(4, |ws|);
      ghost var mid := Contents();
      PrefixRefl(mid);
      for i := 0 to |ws|
        invariant Valid() && (buf == old(buf) || fresh(buf))
        invariant Prefix(mid, Contents()) && size == EndAll(ws[..i], |mid|)
        invariant ImageAll(ws[..i], Contents(), |mid|)
      {
        WriteNext(ws, i, ty.elem, mid);
      }
      assert ws[..|ws|] == ws;
      VectorImage(old(Contents()), mid, Contents(), ws);
    }

    method WriteMap(kvs: seq<Item>, ghost ty: Ty)
      requires Valid() && MapTyped(kvs, ty)
      modifies this, buf
      ensures Valid() && (buf == old(buf) || fresh(buf))
      ensures Wrote(old(Contents()), Contents(), IMap(kvs))
      decreases kvs, 1
    {
      hide ScalarAt, Prefix, ScalarEnd, Image, Wrote, WfTy, MapTyped, HasType, EndAll, ImageAll;
      MapParts(kvs, ty);
      WriteScalar(4, |kvs| / 2);
      ghost var mid := Contents();
      PrefixRefl(mid);
      NoneWritten(mid);
      assert kvs[..0] == [];
      var i := 0;
      while i < |kvs|
        invariant i <= |kvs| && i % 2 == 0
        invariant Valid() && (buf == old(buf) || fresh(buf))
        invariant Prefix(mid, Contents()) && size == EndAll(kvs[..i], |mid|)
        invariant ImageAll(kvs[..i], Contents(), |mid|)
        decreases |kvs| - i
      {
        PairTyped(kvs, ty, i);
        WriteNext(kvs, i, ty.key, mid);
        WriteNext(kvs, i + 1, ty.value, mid);
        i := i + 2;
      }
      assert kvs[..|kvs|] == kvs;
      MapImage(old(Contents()), mid, Contents(), kvs);
    }
  }

  lemma PrefixRefl(a: seq<Byte>)
    ensures Prefix(a, a)
  {}

  lemma PrefixTrans(a: seq<Byte>, b: seq<Byte>, c: seq<Byte>)
    requires Prefix(a, b) && Prefix(b, c)
    ensures Prefix(a, c)
  {
    assert c[..|a|] == c[..|b|][..|a|];
  }

  lemma JoinWrites(before: seq<Byte>, mid: seq<Byte>, after: seq<Byte>, n: nat, id: nat, c: Item)
    requires n == 4 && Prefix(before, mid) && |mid| == ScalarEnd(|before|, 4) && ScalarAt(mid, |before|, 4, id)
    requires Wrote(mid, after, c)
    ensures Wrote(before, after, IVariant(id, c))
  {
    PrefixTrans(before, mid, after);
    ScalarExtends(mid, after, |before|, 4, id);
  }

  lemma NextImage(before: seq<Byte>, after: seq<Byte>, done: seq<Item>, w: Item, mid: seq<Byte>)
    requires Prefix(mid, before) && |before| == EndAll(done, |mid|) && ImageAll(done, before, |mid|) && Wrote(before, after, w)
    ensures Prefix(mid, after) && |after| == EndAll(done + [w], |mid|) && ImageAll(done + [w], after, |mid|)
  {
    hide Prefix, Image, ImageAll, EndAll;
    PrefixTrans(mid, before, after);
    ImageAllExtends(done, before, after, |mid|);
    ImageAllSnoc(done, w, after, |mid|);
  }

  lemma VectorImage(before: seq<Byte>, mid: seq<Byte>, after: seq<Byte>, ws: seq<Item>)
    requires Prefix(before, mid) && |mid| == ScalarEnd(|before|, 4) && ScalarAt(mid, |before|, 4, |ws|)
    requires Prefix(mid, after) && |after| == EndAll(ws, |mid|) && ImageAll(ws, after, |mid|)
    ensures Wrote(before, after, IVector(ws))
  {
    PrefixTrans(before, mid, after);
    ScalarExtends(mid, after, |before|, 4, |ws|);
  }

  lemma MapImage(before: seq<Byte>, mid: seq<Byte>, after: seq<Byte>, kvs: seq<Item>)
    requires Prefix(before, mid) && |mid| == ScalarEnd(|before|, 4) && ScalarAt(mid, |before|, 4, |kvs| / 2)
    requires Prefix(mid, after) && |after| == EndAll(kvs, |mid|) && ImageAll(kvs, after, |mid|)
    ensures Wrote(before, after, IMap(kvs))
  {
    PrefixTrans(before, mid, after);
    ScalarExtends(mid, after, |before|, 4, |kvs| / 2);
  }

  /** CIStream. */
  class InStream {
    const data: seq<Byte>
    var offset: nat
    var status: Status

    ghost function At(): Cursor
      reads this
    {
      Cursor(offset, status)
    }

    constructor (data: seq<Byte>)
      ensures this.data == data && At() == Cursor(0, Fine)
    {
      this.data, offset, status := data, 0, Fine;
    }

    method ReadNumber(n: nat, prior: nat) returns (x: nat)
      requires IsSize(n)
      modifies this
      ensures (x, At()) == ReadScalar(data, old(At()), n, prior)
    {
      x := prior;
      if status == Fine {
        offset := offset + Pad(offset, n);
        if offset + n <= |data| {
          x := FromLe(data[offset..offset + n]);
          offset := offset + n;
        } else {
          status := Range;
        }
      }
    }

    method ReadBytes(prior: seq<Byte>) returns (s: seq<Byte>)
      modifies this
      ensures (s, At()) == ReadString(data, old(At()), prior)
    {
      hide ReadScalar;
      s := prior;
      if status == Fine {
        var n := ReadNumber(4, 0);
        if status == Fine && n > 0 {
          if n <= |data| - offset {
            s := data[offset..offset + n];
            offset := offset + n;
          } else {
            status := Range;
          }
        } else {
          s := [];
        }
      }
    }

    method ReadWideChars(prior: seq<int>) returns (s: seq<int>)
      modifies this
      ensures (s, At()) == ReadWide(data, old(At()), prior)
    {
      hide ReadScalar, Decode;
      s := prior;
      if status == Fine {
        var n := ReadNumber(4, 0);
        if status == Fine && n > 0 {
          if n <= |data| - offset {
            s := FromUtf8(data[offset..offset + n - 1]);
            offset := offset + n;
          } else {
            status := Range;
          }
        } else {
          s := [];
        }
      }
    }

    /** The deserializing operators, into an object that holds `prior`. */
    method Get(ty: Ty, prior: Val) returns (v: Val)
      requires WfTy(ty)
      modifies this
      ensures (v, At()) == Read(ty, prior, data, old(At()))
      decreases ty, 1
    {
      hide ReadScalar, ReadString, ReadWide, ReadEach, ReadPairs, Resize;
      match ty
      case TScalar(n) =>
        var x := ReadNumber(n, if prior.VScalar? then prior.bits else 0);
        v := VScalar(x);
      case TBool =>
        var x := ReadNumber(4, 0);
        v := VBool(x != 0);
      case TString =>
        var s := ReadBytes(if prior.VString? then prior.bytes else []);
        v := VString(s);
      case TWide =>
        var s := ReadWideChars(if prior.VWide? then prior.chars else []);
        v := VWide(s);
      case TVector(e) =>
        var x := ReadNumber(4, 0);
        if Signed(x) < 0 {
          v, status := prior, Threw;
        } else {
          var vs := GetEach(ty, Resize(Elems(prior), Signed(x), Default(e)));
          v := VVector(vs);
        }
      case TMap(k, w) =>
        var x := ReadNumber(4, 0);
        var m := GetPairs(ty, if Signed(x) < 0 then 0 else Signed(x), Entries(prior));
        v := VMap(m);
      case TVariant(alts) =>
        var x := ReadNumber(4, 0);
        if 0 < Signed(x) <= |alts| {
          var i := TableIndex(Signed(x));
          var c := Get(alts[i], Default(alts[i]));
          v := VVariant(i + 1, c);
        } else {
          v := VUnset;
        }
    }

    method GetEach(ty: Ty, places: seq<Val>) returns (vs: seq<Val>)
      requires WfTy(ty) && ty.TVector?
      modifies this
      ensures (vs, At()) == ReadEach(ty, places, data, old(At()))
      decreases ty, 0
    {
      hide Read;
      vs := places;
      ghost var done: seq<Val> := [];
      assert places[0..] == places && done + ReadEach(ty, places, data, At()).0 == ReadEach(ty, places, data, At()).0;
      for i := 0 to |places|
        invariant |vs| == |places| && done == vs[..i] && vs[i..] == places[i..]
        invariant var r := ReadEach(ty, places[i..], data, At());
                  (done + r.0, r.1) == ReadEach(ty, places, data, old(At()))
      {
        ghost var was := At();
        assert vs[i] == vs[i..][0] == places[i];
        assert places[i..][0] == places[i] && places[i..][1..] == places[i + 1..];
        var v := Get(ty.elem, vs[i]);
        vs := vs[i := v];
        ghost var r := ReadEach(ty, places[i + 1..], data, At());
        assert done + ([v] + r.0) == done + [v] + r.0;
        done := done + [v];
      }
      assert places[|places|..] == [] && done == vs && done + [] == done;
    }

    method GetPairs(ty: Ty, n: nat, held: map<Val, Val>) returns (m: map<Val, Val>)
      requires WfTy(ty) && ty.TMap?
      modifies this
      ensures (m, At()) == ReadPairs(ty, n, Default(ty.key), Default(ty.value), held, data, old(At()))
      decreases ty, 0
    {
      hide Read;
      m := held;
      var key, value := Default(ty.key), Default(ty.value);
      var left := n;
      while left > 0
        invariant ReadPairs(ty, left, key, value, m, data, At())
               == ReadPairs(ty, n, Default(ty.key), Default(ty.value), held, data, old(At()))
      {
        key := Get(ty.key, key);
        value := Get(ty.value, value);
        m := m[key := value];
        left := left - 1;
      }
    }
  }
}
