/** Cutting a message into packets and putting it together again, over a reliable
    channel of bytes. */
module Packets {
  import opened Utf8
  import opened Wire

  const HEADER_SIZE: nat := 40
  const INFO_SIZE: nat := 16
  const PAYLOAD_SIZE: nat := 4056

  /** MessageHeader: 28 bytes of addressing, the flags, the packet length, and the
      reserved word. Bit 0 of the flags announces another packet. */
  datatype Header = Header(front: seq<Byte>, flags: nat, length: nat, reserved: seq<Byte>)

  ghost predicate WfHeader(h: Header) {
    |h.front| == 28 && |h.reserved| == 4 && h.flags < TWO32
  }

  function Marked(h: Header, length: nat, more: bool): Header {
    h.(length := length, flags := h.flags - h.flags % 2 + (if more then 1 else 0))
  }

  function HeaderBytes(h: Header): seq<Byte> {
    h.front + Le(4, h.flags) + Le(4, h.length) + h.reserved
  }

  function ParseHeader(b: seq<Byte>): Header
    requires |b| == HEADER_SIZE
  {
    Header(b[..28], FromLe(b[28..32]), FromLe(b[32..36]), b[36..])
  }

  lemma HeaderRoundTrip(h: Header)
    requires WfHeader(h) && h.length < TWO32
    ensures |HeaderBytes(h)| == HEADER_SIZE && ParseHeader(HeaderBytes(h)) == h
  {
    hide Le, FromLe;
    Limits();
    LeRoundTrip(4, h.flags);
    LeRoundTrip(4, h.length);
    var b := HeaderBytes(h);
    assert b[..28] == h.front && b[28..32] == Le(4, h.flags) && b[32..36] == Le(4, h.length) && b[36..] == h.reserved;
  }

  /** Where the header's fields lie: behind 28 bytes of addressing the flags, then the length, both
      least significant byte first, then the reserved word. */
  lemma HeaderLayout(h: Header)
    requires WfHeader(h)
    ensures var b := HeaderBytes(h);
            && |b| == 40 && b[..28] == h.front && b[36..] == h.reserved
            && b[28..32] == [h.flags % 256, h.flags / 0x100 % 256, h.flags / 0x1_0000 % 256, h.flags / 0x100_0000 % 256]
            && b[32..36] == [h.length % 256, h.length / 0x100 % 256, h.length / 0x1_0000 % 256, h.length / 0x100_0000 % 256]
  {
    LeFour(h.flags);
    LeFour(h.length);
    hide Le;
    var b := HeaderBytes(h);
    assert b[28..32] == Le(4, h.flags) && b[32..36] == Le(4, h.length);
  }

  // ---------------------------------------------------------------- the message as it leaves

  /** A message before it is flushed: `mem` is what the memory holds from the start of the
      buffer on, of which the first `size` bytes are the payload and the rest is arbitrary. */
  datatype Message = Message(header: Header, data: bool, info: seq<Byte>, mem: seq<Byte>, size: nat)

  function Total(m: Message): nat {
    m.size + (if m.data then INFO_SIZE else 0)
  }

  /** The buffer holds the payload, and everything that flush reads (see FlushInsideIff). */
  predicate Readable(m: Message) {
    m.size <= |m.mem| && (Total(m) <= PAYLOAD_SIZE || Total(m) <= |m.mem|)
  }

  ghost predicate WfMessage(m: Message) {
    WfHeader(m.header) && |m.info| == INFO_SIZE && Readable(m) && Total(m) < TWO32
  }

  function Front(m: Message): seq<Byte> {
    if m.data then m.info else []
  }

  /** What the sender means to say. */
  function Meant(m: Message): seq<Byte>
    requires m.size <= |m.mem|
  {
    Front(m) + m.mem[..m.size]
  }

  function FirstLength(m: Message): nat {
    if Total(m) > PAYLOAD_SIZE then PAYLOAD_SIZE else Total(m)
  }

  function FirstBody(m: Message): seq<Byte>
    requires Readable(m) && |m.info| == INFO_SIZE
  {
    Front(m) + m.mem[..FirstLength(m) - |Front(m)|]
  }

  function FirstPacket(m: Message): seq<Byte>
    requires Readable(m) && |m.info| == INFO_SIZE
  {
    HeaderBytes(Marked(m.header, FirstLength(m), Total(m) > PAYLOAD_SIZE)) + FirstBody(m)
  }

  /** The packets of the loop; `sent` counts payload bytes, the total counts EventInfo too. */
  function Rest(h: Header, mem: seq<Byte>, total: nat, sent: nat): seq<Byte>
    requires total <= |mem|
    decreases if sent < total then total - sent else 0
  {
    if sent >= total then [] else
    var more := total - sent > PAYLOAD_SIZE;
    var n := if more then PAYLOAD_SIZE else total - sent;
    HeaderBytes(Marked(h, n, more)) + mem[sent..sent + n] + Rest(h, mem, total, sent + PAYLOAD_SIZE)
  }

  function Flushed(m: Message): seq<Byte>
    requires Readable(m) && |m.info| == INFO_SIZE
  {
    FirstPacket(m) +
    if Total(m) > PAYLOAD_SIZE then Rest(m.header, m.mem, Total(m), PAYLOAD_SIZE - INFO_SIZE) else []
  }

  // ---------------------------------------------------------------- what flush reads

  /** The ranges of the buffer that the loop hands to the channel. */
  function LoopReads(total: nat, sent: nat): seq<(nat, nat)>
    decreases if sent < total then total - sent else 0
  {
    if sent >= total then [] else
    [(sent, if total - sent > PAYLOAD_SIZE then sent + PAYLOAD_SIZE else total)] + LoopReads(total, sent + PAYLOAD_SIZE)
  }

  /** All ranges that flush hands over, for a payload of a given size. */
  function Reads(size: nat, data: bool): seq<(nat, nat)> {
    var total := size + (if data then INFO_SIZE else 0);
    if total <= PAYLOAD_SIZE then [(0, size)]
    else [(0, PAYLOAD_SIZE - (if data then INFO_SIZE else 0))] + LoopReads(total, PAYLOAD_SIZE - INFO_SIZE)
  }

  ghost predicate Inside(ranges: seq<(nat, nat)>, capacity: nat) {
    forall r :: r in ranges ==> r.1 <= capacity
  }

  lemma {:induction false} LoopInside(total: nat, sent: nat, capacity: nat)
    requires sent < total
    ensures Inside(LoopReads(total, sent), capacity) <==> total <= capacity
    decreases total - sent
  {
    var ranges := LoopReads(total, sent);
    assert ranges[0] in ranges;
    if total - sent > PAYLOAD_SIZE {
      LoopInside(total, sent + PAYLOAD_SIZE, capacity);
      var rest := LoopReads(total, sent + PAYLOAD_SIZE);
      assert ranges[1..] == rest;
      forall r | r in rest ensures r in ranges {}
    } else {
      assert ranges == [(sent, total)];
    }
  }

  /** flush stays inside a buffer that holds the payload exactly when the message is a control
      message, fits one packet, or leaves room for another EventInfo. */
  lemma FlushInsideIff(size: nat, data: bool, capacity: nat)
    requires size <= capacity
    ensures Inside(Reads(size, data), capacity) <==> !data || size + INFO_SIZE <= PAYLOAD_SIZE || size + INFO_SIZE <= capacity
  {
    var total := size + (if data then INFO_SIZE else 0);
    if total > PAYLOAD_SIZE {
      var rest := LoopReads(total, PAYLOAD_SIZE - INFO_SIZE);
      LoopInside(total, PAYLOAD_SIZE - INFO_SIZE, capacity);
      forall r | r in rest ensures r in Reads(size, data) {}
    }
  }

  function Slices(mem: seq<Byte>, ranges: seq<(nat, nat)>): seq<Byte>
    requires forall r :: r in ranges ==> r.0 <= r.1 <= |mem|
  {
    if ranges == [] then [] else mem[ranges[0].0..ranges[0].1] + Slices(mem, ranges[1..])
  }

  lemma {:induction false} LoopSlices(mem: seq<Byte>, total: nat, sent: nat)
    requires sent < total <= |mem|
    ensures forall r :: r in LoopReads(total, sent) ==> r.0 <= r.1 <= |mem|
    ensures Slices(mem, LoopReads(total, sent)) == mem[sent..total]
    decreases total - sent
  {
    if total - sent > PAYLOAD_SIZE {
      LoopSlices(mem, total, sent + PAYLOAD_SIZE);
      assert LoopReads(total, sent)[1..] == LoopReads(total, sent + PAYLOAD_SIZE);
      assert mem[sent..total] == mem[sent..sent + PAYLOAD_SIZE] + mem[sent + PAYLOAD_SIZE..total];
    } else {
      assert LoopReads(total, sent) == [(sent, total)];
    }
  }

  /** These ranges are what is delivered, behind EventInfo. */
  lemma DeliveredFromReads(m: Message)
    requires WfMessage(m)
    ensures forall r :: r in Reads(m.size, m.data) ==> r.0 <= r.1 <= |m.mem|
    ensures Delivered(m) == Front(m) + Slices(m.mem, Reads(m.size, m.data))
  {
    var ranges := Reads(m.size, m.data);
    if Total(m) > PAYLOAD_SIZE {
      var rest := LoopReads(Total(m), PAYLOAD_SIZE - INFO_SIZE);
      LoopSlices(m.mem, Total(m), PAYLOAD_SIZE - INFO_SIZE);
      assert ranges[1..] == rest;
      DeliveredSplit(m);
      hide Delivered;
      assert Front(m) + m.mem[..PAYLOAD_SIZE - |Front(m)|] + m.mem[PAYLOAD_SIZE - INFO_SIZE..Total(m)]
          == Front(m) + (m.mem[0..PAYLOAD_SIZE - |Front(m)|] + m.mem[PAYLOAD_SIZE - INFO_SIZE..Total(m)]);
    } else {
      assert ranges[1..] == [] && m.mem[0..m.size] + [] == m.mem[..m.size];
    }
  }

  // ---------------------------------------------------------------- the message as it arrives

  datatype Received = Received(body: seq<Byte>, rest: seq<Byte>) | Failed

  /** The loop of receiveAll, while the flags of the current header ask for more. Each
      further header is read into the reader's own header object; `own` tells whether that
      is the current header. It becomes so with the first packet that carries data, so an
      empty packet's flags count from then on and not before. */
  function ReceiveMore(flags: nat, own: bool, stream: seq<Byte>, body: seq<Byte>): Received
    decreases |stream|
  {
    if flags % 2 == 0 then Received(body, stream)
    else if |stream| < HEADER_SIZE then Failed
    else
      var h := ParseHeader(stream[..HEADER_SIZE]);
      var rest := stream[HEADER_SIZE..];
      if h.length == 0 then ReceiveMore(if own then h.flags else flags, own, rest, body)
      else if |rest| < h.length then Failed
      else ReceiveMore(h.flags, true, rest[h.length..], body + rest[..h.length])
  }

  /** receiveAll, behind the header that the caller has read. */
  function ReceiveAll(h: Header, stream: seq<Byte>): Received {
    if h.length == 0 then Received([], stream)
    else if |stream| < h.length then Failed
    else ReceiveMore(h.flags, false, stream[h.length..], stream[..h.length])
  }

  function Receive(stream: seq<Byte>): Received {
    if |stream| < HEADER_SIZE then Failed
    else ReceiveAll(ParseHeader(stream[..HEADER_SIZE]), stream[HEADER_SIZE..])
  }

  // ---------------------------------------------------------------- what is delivered

  /** What arrives: a single packet exactly; in several packets the bytes from offset
      P - 16 on are sent up to the total, so that a data message gets 16 bytes too many
      at its end and a control message 16 bytes twice in its middle. */
  function Delivered(m: Message): seq<Byte>
    requires Readable(m) && |m.info| == INFO_SIZE
  {
    if Total(m) <= PAYLOAD_SIZE then Meant(m)
    else if m.data then m.info + m.mem[..m.size + INFO_SIZE]
    else m.mem[..PAYLOAD_SIZE] + m.mem[PAYLOAD_SIZE - INFO_SIZE..m.size]
  }

  /** One further packet is taken off the channel. */
  lemma PacketArrives(h: Header, more: bool, own: bool, chunk: seq<Byte>, rest: seq<Byte>, tail: seq<Byte>, body: seq<Byte>)
    requires WfHeader(h) && 0 < |chunk| < TWO32
    ensures ReceiveMore(1, own, HeaderBytes(Marked(h, |chunk|, more)) + chunk + rest + tail, body)
         == ReceiveMore(if more then 1 else 0, true, rest + tail, body + chunk)
  {
    hide HeaderBytes, ParseHeader;
    var h1 := Marked(h, |chunk|, more);
    MarkedWf(h, |chunk|, more);
    HeaderRoundTrip(h1);
    Framing(HeaderBytes(h1), chunk, rest, tail);
    OnlyTheBit(h1.flags, true, rest + tail, body + chunk);
  }

  lemma RestStep(h: Header, mem: seq<Byte>, total: nat, sent: nat, more: bool, n: nat)
    requires sent < total <= |mem| && more == (total - sent > PAYLOAD_SIZE) && n == (if more then PAYLOAD_SIZE else total - sent)
    ensures Rest(h, mem, total, sent) == HeaderBytes(Marked(h, n, more)) + mem[sent..sent + n] + Rest(h, mem, total, sent + PAYLOAD_SIZE)
    ensures !more ==> Rest(h, mem, total, sent + PAYLOAD_SIZE) == []
  {
    hide HeaderBytes, Marked;
  }

  lemma NothingMore(own: bool, stream: seq<Byte>, body: seq<Byte>)
    ensures ReceiveMore(0, own, stream, body) == Received(body, stream)
  {
  }

  lemma {:induction false} RestArrives(h: Header, mem: seq<Byte>, total: nat, sent: nat, own: bool, body: seq<Byte>, tail: seq<Byte>)
    requires WfHeader(h) && sent < total <= |mem| && total < TWO32
    ensures ReceiveMore(1, own, Rest(h, mem, total, sent) + tail, body) == Received(body + mem[sent..total], tail)
    decreases total - sent
  {
    hide HeaderBytes, Marked, Rest, ReceiveMore;
    var more := total - sent > PAYLOAD_SIZE;
    var n := if more then PAYLOAD_SIZE else total - sent;
    var chunk := mem[sent..sent + n];
    var rest := Rest(h, mem, total, sent + PAYLOAD_SIZE);
    RestStep(h, mem, total, sent, more, n);
    PacketArrives(h, more, own, chunk, rest, tail, body);
    if more {
      RestArrives(h, mem, total, sent + PAYLOAD_SIZE, true, body + chunk, tail);
      assert body + mem[sent..total] == body + chunk + mem[sent + PAYLOAD_SIZE..total];
    } else {
      assert rest + tail == tail;
      NothingMore(true, tail, body + chunk);
    }
  }

  lemma MarkedWf(h: Header, n: nat, more: bool)
    requires WfHeader(h)
    ensures WfHeader(Marked(h, n, more)) && Marked(h, n, more).flags % 2 == (if more then 1 else 0)
  {
  }

  lemma Framing(head: seq<Byte>, chunk: seq<Byte>, rest: seq<Byte>, tail: seq<Byte>)
    ensures var stream := head + chunk + rest + tail;
            && stream[..|head|] == head && stream[|head|..][..|chunk|] == chunk
            && stream[|head|..][|chunk|..] == rest + tail
  {
    var stream := head + chunk + rest + tail;
    assert stream[|head|..] == chunk + (rest + tail);
  }

  /** The first packet: the caller reads its header, then its body. */
  lemma FirstArrives(m: Message, rest: seq<Byte>, tail: seq<Byte>)
    requires WfMessage(m)
    ensures Receive(FirstPacket(m) + rest + tail) == (
        if FirstLength(m) == 0 then Received([], rest + tail)
        else ReceiveMore(if Total(m) > PAYLOAD_SIZE then 1 else 0, false, rest + tail, FirstBody(m)))
  {
    hide HeaderBytes, ParseHeader, ReceiveMore;
    var h1 := Marked(m.header, FirstLength(m), Total(m) > PAYLOAD_SIZE);
    var body := FirstBody(m);
    MarkedWf(m.header, FirstLength(m), Total(m) > PAYLOAD_SIZE);
    HeaderRoundTrip(h1);
    Framing(HeaderBytes(h1), body, rest, tail);
    assert FirstPacket(m) + rest + tail == HeaderBytes(h1) + body + rest + tail;
    hide Marked;
    OnlyTheBit(h1.flags, false, rest + tail, body);
  }

  lemma OnlyTheBit(flags: nat, own: bool, stream: seq<Byte>, body: seq<Byte>)
    ensures ReceiveMore(flags, own, stream, body) == ReceiveMore(flags % 2, own, stream, body)
    decreases |stream|
  {
    if !own && flags % 2 == 1 && |stream| >= HEADER_SIZE && ParseHeader(stream[..HEADER_SIZE]).length == 0 {
      OnlyTheBit(flags, own, stream[HEADER_SIZE..], body);
    }
  }

  /** Every message arrives, with nothing lost from what follows it on the channel. */
  lemma Arrives(m: Message, tail: seq<Byte>)
    requires WfMessage(m)
    ensures Receive(Flushed(m) + tail) == Received(Delivered(m), tail)
  {
    hide Rest, FirstPacket, Receive;
    var body := FirstBody(m);
    if Total(m) > PAYLOAD_SIZE {
      var from := PAYLOAD_SIZE - INFO_SIZE;
      FirstArrives(m, Rest(m.header, m.mem, Total(m), from), tail);
      RestArrives(m.header, m.mem, Total(m), from, false, body, tail);
      DeliveredSplit(m);
    } else {
      FirstArrives(m, [], tail);
      assert [] + tail == tail && body == Meant(m);
    }
  }

  lemma DeliveredSplit(m: Message)
    requires WfMessage(m) && Total(m) > PAYLOAD_SIZE
    ensures Delivered(m) == Front(m) + m.mem[..PAYLOAD_SIZE - |Front(m)|] + m.mem[PAYLOAD_SIZE - INFO_SIZE..Total(m)]
  {
    if m.data {
      var from := PAYLOAD_SIZE - INFO_SIZE;
      assert m.mem[..from] + m.mem[from..Total(m)] == m.mem[..Total(m)];
    }
  }

  /** A data message always arrives as a prefix of what is delivered; exactly one
      packet is the exact condition for nothing to be added. */
  lemma DeliveredExactly(m: Message)
    requires WfMessage(m)
    ensures Delivered(m) == Meant(m) <==> Total(m) <= PAYLOAD_SIZE
    ensures m.data ==> Prefix(Meant(m), Delivered(m))
    ensures Total(m) > PAYLOAD_SIZE ==> |Delivered(m)| == |Meant(m)| + INFO_SIZE
  {
    if m.data && Total(m) > PAYLOAD_SIZE {
      assert Delivered(m)[..|Meant(m)|] == Meant(m);
    }
  }

  /** What the receiver gets is what the sender meant exactly when the message fits one packet;
      otherwise it is sizeof(EventInfo) bytes longer, and for a data message these are at the end. */
  lemma ArrivesExactlyIff(m: Message, tail: seq<Byte>)
    requires WfMessage(m)
    ensures Receive(Flushed(m) + tail) == Received(Meant(m), tail) <==> Total(m) <= PAYLOAD_SIZE
    ensures var r := Receive(Flushed(m) + tail);
            r.Received? && r.rest == tail && (m.data ==> Prefix(Meant(m), r.body))
            && |r.body| == |Meant(m)| + (if Total(m) <= PAYLOAD_SIZE then 0 else INFO_SIZE)
  {
    hide Receive, Flushed;
    Arrives(m, tail);
    DeliveredExactly(m);
  }

  // ---------------------------------------------------------------- the packets one by one

  /** The packets on a channel, as their headers divide it. */
  ghost function Chop(stream: seq<Byte>): seq<(Header, seq<Byte>)>
    decreases |stream|
  {
    if |stream| < HEADER_SIZE then [] else
    var h, rest := ParseHeader(stream[..HEADER_SIZE]), stream[HEADER_SIZE..];
    if |rest| < h.length then [] else [(h, rest[..h.length])] + Chop(rest[h.length..])
  }

  /** Every header is the message's, but for the packet's length and bit 0 of the flags, which is set
      in all packets but the last; and no packet is longer than the payload size. */
  ghost predicate WellCut(h: Header, ps: seq<(Header, seq<Byte>)>) {
    forall i :: 0 <= i < |ps| ==>
      && ps[i].0.front == h.front && ps[i].0.reserved == h.reserved
      && ps[i].0.flags == h.flags - h.flags % 2 + (if i < |ps| - 1 then 1 else 0)
      && ps[i].0.length == |ps[i].1| <= PAYLOAD_SIZE && (i < |ps| - 1 ==> |ps[i].1| == PAYLOAD_SIZE)
  }

  ghost function Bodies(ps: seq<(Header, seq<Byte>)>): seq<Byte> {
    if ps == [] then [] else ps[0].1 + Bodies(ps[1..])
  }

  lemma ChopNext(h: Header, body: seq<Byte>, rest: seq<Byte>)
    requires WfHeader(h) && h.length == |body| < TWO32
    ensures Chop(HeaderBytes(h) + body + rest) == [(h, body)] + Chop(rest)
  {
    HeaderRoundTrip(h);
    hide HeaderBytes, ParseHeader;
    var stream := HeaderBytes(h) + body + rest;
    assert stream[..HEADER_SIZE] == HeaderBytes(h) && stream[HEADER_SIZE..] == body + rest;
    assert (body + rest)[..h.length] == body && (body + rest)[h.length..] == rest;
  }

  lemma WellCutNext(h: Header, n: nat, more: bool, body: seq<Byte>, ps: seq<(Header, seq<Byte>)>)
    requires WfHeader(h) && WellCut(h, ps) && n == |body| <= PAYLOAD_SIZE && (more <==> ps != []) && (more ==> n == PAYLOAD_SIZE)
    ensures WellCut(h, [(Marked(h, n, more), body)] + ps) && Bodies([(Marked(h, n, more), body)] + ps) == body + Bodies(ps)
  {
    var all := [(Marked(h, n, more), body)] + ps;
    assert all[1..] == ps && forall i :: 0 < i < |all| ==> all[i] == ps[i - 1];
    hide Bodies;
  }

  lemma {:induction false} RestCut(h: Header, mem: seq<Byte>, total: nat, sent: nat)
    requires WfHeader(h) && sent < total <= |mem| && total < TWO32
    ensures var ps := Chop(Rest(h, mem, total, sent));
            ps != [] && WellCut(h, ps) && Bodies(ps) == mem[sent..total]
    decreases total - sent
  {
    hide HeaderBytes, Marked, WellCut, Bodies, Chop;
    var more := total - sent > PAYLOAD_SIZE;
    var n := if more then PAYLOAD_SIZE else total - sent;
    var chunk := mem[sent..sent + n];
    var rest := Rest(h, mem, total, sent + PAYLOAD_SIZE);
    RestStep(h, mem, total, sent, more, n);
    MarkedWf(h, n, more);
    LengthMarked(h, n, more);
    ChopNext(Marked(h, n, more), chunk, rest);
    NothingChopped(h);
    if more {
      RestCut(h, mem, total, sent + PAYLOAD_SIZE);
      assert mem[sent..total] == chunk + mem[sent + PAYLOAD_SIZE..total];
    } else {
      assert rest == [] && chunk + [] == mem[sent..total];
    }
    WellCutNext(h, n, more, chunk, Chop(rest));
  }

  lemma LengthMarked(h: Header, n: nat, more: bool)
    ensures Marked(h, n, more).length == n
  {
  }

  lemma NothingChopped(h: Header)
    ensures Chop([]) == [] && WellCut(h, []) && Bodies([]) == []
  {
  }

  /** What flush sends, packet by packet: one packet if everything fits, else full packets and a last
      one. Their bodies are the event info, if any, and the payload; but in several packets a data
      message goes on for sizeof(EventInfo) bytes behind its payload, and a control message repeats
      as many in the middle. */
  lemma PacketsSent(m: Message)
    requires WfMessage(m)
    ensures var ps, all := Chop(Flushed(m)), m.size + (if m.data then INFO_SIZE else 0);
            && WellCut(m.header, ps) && ps != [] && (|ps| == 1 <==> all <= PAYLOAD_SIZE)
            && Bodies(ps) == if m.data then m.info + m.mem[..if all <= PAYLOAD_SIZE then m.size else m.size + INFO_SIZE]
                             else if all <= PAYLOAD_SIZE then m.mem[..m.size]
                             else m.mem[..PAYLOAD_SIZE] + m.mem[PAYLOAD_SIZE - INFO_SIZE..m.size]
  {
    PacketsDelivered(m);
    hide HeaderBytes, WellCut, Bodies, Chop, ParseHeader, Rest, Flushed;
    assert !m.data ==> [] + m.mem[..m.size] == m.mem[..m.size];
  }

  lemma PacketsDelivered(m: Message)
    requires WfMessage(m)
    ensures var ps := Chop(Flushed(m));
            && WellCut(m.header, ps) && Bodies(ps) == Delivered(m)
            && (|ps| == 1 <==> Total(m) <= PAYLOAD_SIZE) && ps != []
  {
    hide HeaderBytes, WellCut, Bodies, Chop, ParseHeader, Rest;
    var n, more, body := FirstLength(m), Total(m) > PAYLOAD_SIZE, FirstBody(m);
    MarkedWf(m.header, n, more);
    LengthMarked(m.header, n, more);
    NothingChopped(m.header);
    if more {
      var from := PAYLOAD_SIZE - INFO_SIZE;
      var rest := Rest(m.header, m.mem, Total(m), from);
      RestCut(m.header, m.mem, Total(m), from);
      ChopNext(Marked(m.header, n, more), body, rest);
      WellCutNext(m.header, n, more, body, Chop(rest));
      DeliveredSplit(m);
      assert Flushed(m) == HeaderBytes(Marked(m.header, n, more)) + body + rest;
    } else {
      ChopNext(Marked(m.header, n, more), body, []);
      WellCutNext(m.header, n, more, body, []);
      assert Flushed(m) == HeaderBytes(Marked(m.header, n, more)) + body + [];
      assert body + [] == body == Meant(m);
    }
  }

  // ---------------------------------------------------------------- the objects

  /** A channel: what was sent and not yet received. */
  class Channel {
    var stream: seq<Byte>

    constructor ()
      ensures stream == []
    {
      stream := [];
    }

    method SendAll(bytes: seq<Byte>)
      modifies this
      ensures stream == old(stream) + bytes
    {
      stream := stream + bytes;
    }

    method RecvAll(n: nat) returns (ok: bool, bytes: seq<Byte>)
      modifies this
      ensures ok == (n <= |old(stream)|)
      ensures ok ==> bytes == old(stream)[..n] && stream == old(stream)[n..]
      ensures !ok ==> bytes == []
    {
      ok, bytes := n <= |stream|, [];
      if ok {
        bytes, stream := stream[..n], stream[n..];
      }
    }
  }

  /** CRequestWriter::flush. */
  method Flush(m: Message, ch: Channel)
    requires WfMessage(m)
    modifies ch
    ensures ch.stream == old(ch.stream) + Flushed(m)
  {
    hide HeaderBytes, Marked;
    var total := m.size;
    if m.data { total := total + INFO_SIZE; }
    var h := m.header;
    if total > PAYLOAD_SIZE {
      h := Marked(h, PAYLOAD_SIZE, true);
    } else {
      h := Marked(h, total, false);
    }
    Remark(m.header, 0, false, FirstLength(m), total > PAYLOAD_SIZE);
    var n := h.length;
    if m.data { n := n - INFO_SIZE; }
    ch.SendAll(HeaderBytes(h) + (if m.data then m.info else []) + m.mem[..n]);
    assert ch.stream == old(ch.stream) + FirstPacket(m);
    hide FirstPacket, Rest;
    if total > PAYLOAD_SIZE {
      h := FlushRest(m.header, h, m.mem, total, ch);
    }
  }

  /** The loop of flush. */
  method FlushRest(ghost h0: Header, h1: Header, mem: seq<Byte>, total: nat, ch: Channel) returns (h: Header)
    requires total <= |mem| && h1 == Marked(h0, h1.length, true)
    modifies ch
    ensures ch.stream == old(ch.stream) + Rest(h0, mem, total, PAYLOAD_SIZE - INFO_SIZE)
  {
    hide HeaderBytes, Marked, Rest;
    h := h1;
    ghost var marked := true;
    ghost var done: seq<Byte> := [];
    var dataSent := PAYLOAD_SIZE - INFO_SIZE;
    while dataSent < total
      invariant h == Marked(h0, h.length, marked)
      invariant ch.stream == old(ch.stream) + done
      invariant done + Rest(h0, mem, total, dataSent) == Rest(h0, mem, total, PAYLOAD_SIZE - INFO_SIZE)
      decreases total - dataSent
    {
      ghost var more := total - dataSent > PAYLOAD_SIZE;
      ghost var n := if more then PAYLOAD_SIZE else total - dataSent;
      Remark(h0, h.length, marked, n, more);
      if total - dataSent > PAYLOAD_SIZE {
        h := Marked(h, PAYLOAD_SIZE, true);
      } else {
        h := Marked(h, total - dataSent, false);
      }
      marked := more;
      ch.SendAll(HeaderBytes(h) + mem[dataSent..dataSent + h.length]);
      ghost var packet := HeaderBytes(h) + mem[dataSent..dataSent + n];
      RestStep(h0, mem, total, dataSent, more, n);
      Regroup3(done, packet, Rest(h0, mem, total, dataSent + PAYLOAD_SIZE));
      Regroup3(old(ch.stream), done, packet);
      done := done + packet;
      dataSent := dataSent + PAYLOAD_SIZE;
    }
    RestEnd(h0, mem, total, dataSent);
    assert done + [] == done;
  }

  lemma RestEnd(h: Header, mem: seq<Byte>, total: nat, sent: nat)
    requires total <= |mem| && sent >= total
    ensures Rest(h, mem, total, sent) == []
  {
  }

  lemma Regroup3(a: seq<Byte>, b: seq<Byte>, c: seq<Byte>)
    ensures a + (b + c) == a + b + c
  {
  }

  lemma Remark(h: Header, a: nat, p: bool, n: nat, q: bool)
    ensures Marked(Marked(h, a, p), n, q) == Marked(h, n, q) && Marked(h, n, q).length == n
  {
  }

  /** CRequestReader::receiveAll, with mCurrent either the caller's header or mHdr. */
  method ReceiveMessage(ch: Channel) returns (ok: bool, body: seq<Byte>)
    modifies ch
    ensures Receive(old(ch.stream)) == if ok then Received(body, ch.stream) else Failed
  {
    hide ParseHeader;
    body := [];
    var first;
    ok, first := ch.RecvAll(HEADER_SIZE);
    if !ok { return; }
    var hdr := ParseHeader(first);
    var given, own := hdr, false;
    if given.length > 0 {
      ok, body := ch.RecvAll(given.length);
      if !ok { return; }
      while (if own then hdr.flags else given.flags) % 2 == 1
        invariant ok && ReceiveMore(if own then hdr.flags else given.flags, own, ch.stream, body) == Receive(old(ch.stream))
        decreases |ch.stream|
      {
        var bytes;
        ok, bytes := ch.RecvAll(HEADER_SIZE);
        if !ok { return; }
        hdr := ParseHeader(bytes);
        if hdr.length > 0 {
          own := true;
          ok, bytes := ch.RecvAll(hdr.length);
          if !ok { return; }
          body := body + bytes;
        }
      }
    }
  }
}
