/** A whole message: values written, cut into packets, put together and read back. */
module Transport {
  import opened Utf8
  import opened Wire
  import opened WireReader
  import opened WireRoundTrip
  import opened Packets
  import opened Streams

  /** A value that comes back when it is read into a fresh object of its type. */
  ghost predicate Sendable(ty: Ty, w: Item) {
    WfTy(ty) && HasType(w, ty) && Portable(w) && Covers(ty, Default(ty), w)
  }

  ghost predicate AllSendable(tys: seq<Ty>, ws: seq<Item>) {
    |tys| == |ws| && forall i :: 0 <= i < |ws| ==> Sendable(tys[i], ws[i])
  }

  /** Reading one fresh object after the other. */
  function ReadList(tys: seq<Ty>, b: seq<Byte>, c: Cursor): (seq<Val>, Cursor)
    requires forall i :: 0 <= i < |tys| ==> WfTy(tys[i])
  {
    if tys == [] then ([], c) else
    var (v, c1) := Read(tys[0], Default(tys[0]), b, c);
    var (vs, c2) := ReadList(tys[1..], b, c1);
    ([v] + vs, c2)
  }

  lemma SendableReads(ty: Ty, w: Item, b: seq<Byte>, o: nat)
    requires Sendable(ty, w) && Image(w, b, o)
    ensures WfTy(ty) && Read(ty, Default(ty), b, Cursor(o, Fine)) == (Abs(w), Cursor(End(w, o), Fine))
  {
    RoundTripIff(ty, Default(ty), w, b, o);
  }

  lemma SendableTyped(ty: Ty, w: Item)
    requires Sendable(ty, w)
    ensures WfTy(ty) && HasType(w, ty)
  {
  }

  lemma {:induction false} ListReads(tys: seq<Ty>, ws: seq<Item>, b: seq<Byte>, o: nat)
    requires AllSendable(tys, ws) && ImageAll(ws, b, o)
    ensures forall i :: 0 <= i < |tys| ==> WfTy(tys[i])
    ensures ReadList(tys, b, Cursor(o, Fine)) == (AbsAll(ws), Cursor(EndAll(ws, o), Fine))
  {
    hide Read, Sendable, Image;
    if ws != [] {
      SendableReads(tys[0], ws[0], b, o);
      ListReads(tys[1..], ws[1..], b, End(ws[0], o));
      assert forall i :: 1 <= i < |tys| ==> tys[i] == tys[1..][i - 1];
    }
  }

  /** What a data message carries is found in what is delivered, behind EventInfo,
      however many packets it took and whatever was appended. */
  lemma DeliveredImage(m: Message, ws: seq<Item>)
    requires WfMessage(m) && m.data && ImageAll(ws, m.mem[..m.size], 0)
    ensures |Delivered(m)| >= INFO_SIZE && Delivered(m)[..INFO_SIZE] == m.info
    ensures ImageAll(ws, Delivered(m)[INFO_SIZE..], 0)
  {
    hide ImageAll;
    var payload := m.mem[..m.size];
    var d := Delivered(m);
    DeliveredExactly(m);
    assert d[..|Meant(m)|] == Meant(m) && Meant(m) == m.info + payload;
    assert d[..INFO_SIZE] == d[..|Meant(m)|][..INFO_SIZE];
    assert d[INFO_SIZE..][..m.size] == d[..|Meant(m)|][INFO_SIZE..] == payload;
    ImageAllExtends(ws, payload, d[INFO_SIZE..], 0);
  }

  /** End to end: for every list of values, every payload length and everything else on
      the channel, the receiver reads exactly the values that were written. */
  lemma EndToEnd(tys: seq<Ty>, ws: seq<Item>, m: Message, tail: seq<Byte>)
    requires AllSendable(tys, ws)
    requires WfMessage(m) && m.data && ImageAll(ws, m.mem[..m.size], 0) && m.size == EndAll(ws, 0)
    ensures forall i :: 0 <= i < |tys| ==> WfTy(tys[i])
    ensures var r := Receive(Flushed(m) + tail);
            && r.Received? && r.rest == tail && |r.body| >= INFO_SIZE && r.body[..INFO_SIZE] == m.info
            && ReadList(tys, r.body[INFO_SIZE..], Cursor(0, Fine)) == (AbsAll(ws), Cursor(m.size, Fine))
  {
    hide AllSendable, ImageAll, Flushed, Receive, EndAll, ReadList;
    Arrives(m, tail);
    DeliveredImage(m, ws);
    ListReads(tys, ws, Delivered(m)[INFO_SIZE..], 0);
  }

  /** The same with the objects themselves: a writer, a channel and a reader. The message
      is sent from the writer's own buffer; where flush reads on behind that, `beyond` is
      what the memory happens to hold there. */
  method SendAndReceive(tys: seq<Ty>, ws: seq<Item>, header: Header, info: seq<Byte>, beyond: seq<Byte>)
    returns (vs: seq<Val>)
    requires AllSendable(tys, ws) && WfHeader(header) && |info| == INFO_SIZE == |beyond|
    requires EndAll(ws, 0) + INFO_SIZE < TWO32
    ensures vs == AbsAll(ws)
  {
    hide Sendable, ImageAll, Image, Flushed, Receive, WfMessage;
    var out := new OutStream(true);
    ghost var start: seq<Byte> := [];
    NoneWritten(start);
    PrefixRefl(start);
    assert ws[..0] == [];
    for i := 0 to |ws|
      invariant out.Valid() && fresh(out) && fresh(out.buf)
      invariant out.size == EndAll(ws[..i], 0) && ImageAll(ws[..i], out.Contents(), 0)
    {
      hide EndAll;
      SendableTyped(tys[i], ws[i]);
      out.WriteNext(ws, i, tys[i], start);
    }
    assert ws[..|ws|] == ws;
    var mem := out.buf[..];
    if PAYLOAD_SIZE < out.size + INFO_SIZE && out.buf.Length < out.size + INFO_SIZE { mem := mem + beyond; }
    var m := Message(header, true, info, mem, out.size);
    assert m.mem[..m.size] == out.Contents();
    MessageWf(m);
    var ch := new Channel();
    Flush(m, ch);
    assert ch.stream == Flushed(m) + [];
    EndToEnd(tys, ws, m, []);
    var ok, body := ReceiveMessage(ch);
    var input := new InStream(body[INFO_SIZE..]);
    vs := ReadValues(tys, input);
  }

  lemma MessageWf(m: Message)
    requires m.data && WfHeader(m.header) && |m.info| == INFO_SIZE && m.size + INFO_SIZE < TWO32
    requires m.size <= |m.mem| && (m.size + INFO_SIZE <= PAYLOAD_SIZE || m.size + INFO_SIZE <= |m.mem|)
    ensures WfMessage(m)
  {
  }

  method ReadValues(tys: seq<Ty>, input: InStream) returns (vs: seq<Val>)
    requires forall i :: 0 <= i < |tys| ==> WfTy(tys[i])
    modifies input
    ensures (vs, input.At()) == ReadList(tys, input.data, old(input.At()))
  {
    hide Read;
    vs := [];
    assert vs + ReadList(tys, input.data, input.At()).0 == ReadList(tys, input.data, input.At()).0;
    for i := 0 to |tys|
      invariant var r := ReadList(tys[i..], input.data, input.At());
                (vs + r.0, r.1) == ReadList(tys, input.data, old(input.At()))
    {
      assert tys[i..][0] == tys[i] && tys[i..][1..] == tys[i + 1..];
      var v := input.Get(tys[i], Default(tys[i]));
      ghost var r := ReadList(tys[i + 1..], input.data, input.At());
      assert vs + ([v] + r.0) == vs + [v] + r.0;
      vs := vs + [v];
    }
    assert vs + [] == vs;
  }

  /** The capacity behind which flush can read: a vector of 8106 bytes ends two bytes before
      the end of its buffer. */
  method TightBuffer() returns (out: OutStream)
    ensures fresh(out) && out.Valid() && out.size == 8110 && out.buf.Length == 8112
    ensures !Inside(Reads(out.size, true), out.buf.Length)
  {
    hide ScalarAt, Pad, Prefix, Grown;
    out := new OutStream(true);
    FirstEnd();
    out.WriteScalar(4, 8106);
    for i := 0 to 8106
      invariant out.Valid() && fresh(out) && fresh(out.buf) && out.doubling
      invariant out.size == 4 + i && out.buf.Length == (if out.size <= 4054 then 4056 else 8112)
    {
      ByteEnd(out.size);
      ghost var cap := out.buf.Length;
      out.WriteScalar(1, 0);
      NextCapacity(cap, 4 + i, out.buf.Length);
    }
    FlushInsideIff(8110, true, 8112);
  }

  lemma FirstEnd()
    ensures ScalarEnd(0, 4) == 4
  {}

  lemma ByteEnd(o: nat)
    ensures ScalarEnd(o, 1) == o + 1
  {}

  lemma NextCapacity(cap: nat, size: nat, now: nat)
    requires 4 <= size < 8110 && cap == (if size <= 4054 then 4056 else 8112)
    requires if 2 < cap - size then now == cap else Grown(cap + 2, cap, now, true)
    ensures now == (if size + 1 <= 4054 then 4056 else 8112)
  {
    if size == 4054 {
      var k: nat :| k > 0 && now == Doubled(k) && Doubled(k - 1) < 4058 <= now;
      if k > 1 { DoubledUp(k - 1); }
    }
  }

  lemma {:induction false} DoubledUp(k: nat)
    requires k > 0
    ensures Doubled(k) >= 8112
  {
    if k > 1 { DoubledUp(k - 1); }
  }
}
