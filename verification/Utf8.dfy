/** The UTF-8 codec of the wire format. Shifts by six bits are division by 64; a
    mask applied to a byte of known range is the subtraction of its marker bits. */
module Utf8 {

  type Byte = x: int | 0 <= x < 256

  /** wchar_t, a signed 32-bit integer on the supported platforms. */
  type Wide = w: int | -0x8000_0000 <= w < 0x8000_0000

  const QUESTION: Byte := 63
  const MAX_SCALAR: int := 0x10FFFF

  // ---------------------------------------------------------------- encoding

  /** w >> 6 and w & 0x3f. */
  function Hi(w: nat): (r: nat)
    ensures r * 64 <= w < r * 64 + 64
  {
    w / 64
  }

  function Lo(w: nat): (r: nat)
    ensures r == w - Hi(w) * 64
  {
    w % 64
  }

  function EncodeChar(w: Wide): (r: seq<Byte>)
    ensures 1 <= |r| <= 4
  {
    hide Hi, Lo;
    if w <= 0x7F then [w % 256]
    else if w <= 0x7FF then [0xC0 + Hi(w), 0x80 + Lo(w)]
    else if w <= 0xFFFF then [0xE0 + Hi(Hi(w)), 0x80 + Lo(Hi(w)), 0x80 + Lo(w)]
    else if w <= MAX_SCALAR then
      [0xF0 + Hi(Hi(Hi(w))), 0x80 + Lo(Hi(Hi(w))), 0x80 + Lo(Hi(w)), 0x80 + Lo(w)]
    else [QUESTION]
  }

  function Encode(s: seq<Wide>): seq<Byte> {
    if s == [] then [] else EncodeChar(s[0]) + Encode(s[1..])
  }

  lemma {:induction false} EncodeSnoc(s: seq<Wide>, w: Wide)
    ensures Encode(s + [w]) == Encode(s) + EncodeChar(w)
  {
    if s != [] {
      assert (s + [w])[1..] == s[1..] + [w];
      EncodeSnoc(s[1..], w);
    }
  }

  /** toUTF8: the first loop computes the length, the second fills exactly that much. */
  method ToUtf8(src: seq<Wide>) returns (dest: seq<Byte>, reserved: nat)
    ensures dest == Encode(src)
    ensures reserved == |dest|
  {
    reserved := 0;
    for i := 0 to |src|
      invariant reserved == |Encode(src[..i])|
    {
      var w := src[i];
      EncodeSnoc(src[..i], w);
      assert src[..i + 1] == src[..i] + [w];
      if w <= 0x7F {
        reserved := reserved + 1;
      } else if w <= 0x7FF {
        reserved := reserved + 2;
      } else if w <= 0xFFFF {
        reserved := reserved + 3;
      } else if w <= MAX_SCALAR {
        reserved := reserved + 4;
      } else {
        reserved := reserved + 1;
      }
    }
    dest := [];
    for i := 0 to |src|
      invariant dest == Encode(src[..i])
    {
      EncodeSnoc(src[..i], src[i]);
      assert src[..i + 1] == src[..i] + [src[i]];
      dest := dest + EncodeChar(src[i]);
    }
    assert src[..|src|] == src;
  }

  // ---------------------------------------------------------------- decoding

  /** One byte: what is appended, and the value and the count still pending. */
  function Take(c: Byte, w: nat, k: nat): (r: (seq<nat>, nat, nat))
    ensures Pending(w, k) ==> Pending(r.1, r.2)
  {
    if c <= 0x7F then (if k > 0 then [QUESTION, c] else [c], 0, 0)
    else if c <= 0xBF then
      if k == 0 then ([QUESTION], 0, 0)
      else if k == 1 then ([w * 64 + (c - 0x80)], 0, 0)
      else ([], w * 64 + (c - 0x80), k - 1)
    else if c <= 0xDF then ([], c - 0xC0, 1)
    else if c <= 0xEF then ([], c - 0xE0, 2)
    else if c <= 0xF7 then ([], c - 0xF0, 3)
    else ([QUESTION], 0, 0)
  }

  /** What the decoder appends to its output from here on, with `k` bytes of a
      sequence still to come and their value so far in `w`. */
  function Run(b: seq<Byte>, w: nat, k: nat): seq<nat> {
    if b == [] then (if k > 0 then [QUESTION] else [])
    else
      var (out, w', k') := Take(b[0], w, k);
      out + Run(b[1..], w', k')
  }

  function Decode(b: seq<Byte>): seq<nat> {
    Run(b, 0, 0)
  }

  /** The value collected so far leaves room for the bytes still to come. */
  predicate Pending(w: nat, k: nat) {
    (k == 0) || (k == 1 && w < 0x8000) || (k == 2 && w < 0x200) || (k == 3 && w < 8)
  }

  /** On any bytes at all: no more characters than bytes, and every value below 2^21. */
  lemma {:induction false} RunBounded(b: seq<Byte>, w: nat, k: nat)
    requires Pending(w, k)
    ensures |Run(b, w, k)| <= |b| + (if k > 0 then 1 else 0)
    ensures forall i :: 0 <= i < |Run(b, w, k)| ==> Run(b, w, k)[i] < 0x20_0000
  {
    if b != [] {
      var (out, w', k') := Take(b[0], w, k);
      RunBounded(b[1..], w', k');
    }
  }

  /** fromUTF8, whose reserved length is the number of bytes. */
  method FromUtf8(src: seq<Byte>) returns (dest: seq<nat>)
    ensures dest == Decode(src)
    ensures |dest| <= |src|
    ensures forall i :: 0 <= i < |dest| ==> dest[i] < 0x20_0000
  {
    hide Pending, Run, Take;
    dest := [];
    var w: nat, bytes: nat := 0, 0;
    for i := 0 to |src|
      invariant dest + Run(src[i..], if bytes == 0 then 0 else w, bytes) == Decode(src)
    {
      ghost var before, w0, k0 := dest, (if bytes == 0 then 0 else w), bytes;
      RunStep(src, i, w0, k0);
      dest, w, bytes := Consume(src[i], dest, w, bytes);
      Join(before, Take(src[i], w0, k0).0, Run(src[i + 1..], if bytes == 0 then 0 else w, bytes));
    }
    RunEnd(src, if bytes == 0 then 0 else w, bytes);
    if bytes > 0 { dest := dest + [QUESTION]; }
    DecodeBounded(src);
  }

  lemma Join(a: seq<nat>, b: seq<nat>, c: seq<nat>)
    ensures a + (b + c) == a + b + c
  {
  }

  /** The body of the loop; the value is stale while no byte is pending. */
  method Consume(c: Byte, out: seq<nat>, w0: nat, bytes0: nat) returns (dest: seq<nat>, w: nat, bytes: nat)
    ensures var (more, w1, k1) := Take(c, if bytes0 == 0 then 0 else w0, bytes0);
            dest == out + more && bytes == k1 && (bytes > 0 ==> w == w1)
  {
    dest, w, bytes := out, w0, bytes0;
    if c <= 0x7F {
      if bytes > 0 {
        dest := dest + [QUESTION];
        bytes := 0;
      }
      dest := dest + [c];
    } else if c <= 0xBF {
      if bytes > 0 {
        w := w * 64 + (c - 0x80);
        bytes := bytes - 1;
        if bytes == 0 { dest := dest + [w]; }
      } else {
        dest := dest + [QUESTION];
      }
    } else if c <= 0xDF {
      bytes, w := 1, c - 0xC0;
    } else if c <= 0xEF {
      bytes, w := 2, c - 0xE0;
    } else if c <= 0xF7 {
      bytes, w := 3, c - 0xF0;
    } else {
      dest := dest + [QUESTION];
      bytes := 0;
    }
  }

  lemma DecodeBounded(b: seq<Byte>)
    ensures |Decode(b)| <= |b|
    ensures forall i :: 0 <= i < |Decode(b)| ==> Decode(b)[i] < 0x20_0000
  {
    RunBounded(b, 0, 0);
  }

  lemma RunStep(b: seq<Byte>, i: nat, w: nat, k: nat)
    requires i < |b|
    ensures var (out, w', k') := Take(b[i], w, k);
            Run(b[i..], w, k) == out + Run(b[i + 1..], w', k') && (k' == 0 ==> w' == 0)
  {
    assert b[i..][0] == b[i] && b[i..][1..] == b[i + 1..];
  }

  lemma RunEnd(b: seq<Byte>, w: nat, k: nat)
    ensures Run(b[|b|..], w, k) == if k > 0 then [QUESTION] else []
  {
  }

  // ---------------------------------------------------------------- round trip

  predicate Scalar(w: int) {
    0 <= w <= MAX_SCALAR
  }

  predicate Scalars(s: seq<int>) {
    forall i :: 0 <= i < |s| ==> Scalar(s[i])
  }

  lemma RunLead(c: Byte, rest: seq<Byte>)
    ensures 0xC0 <= c <= 0xDF ==> Run([c] + rest, 0, 0) == Run(rest, c - 0xC0, 1)
    ensures 0xE0 <= c <= 0xEF ==> Run([c] + rest, 0, 0) == Run(rest, c - 0xE0, 2)
    ensures 0xF0 <= c <= 0xF7 ==> Run([c] + rest, 0, 0) == Run(rest, c - 0xF0, 3)
  {
    assert ([c] + rest)[0] == c && ([c] + rest)[1..] == rest;
  }

  lemma RunAscii(c: Byte, rest: seq<Byte>)
    requires c <= 0x7F
    ensures Run([c] + rest, 0, 0) == [c] + Run(rest, 0, 0)
  {
    assert ([c] + rest)[0] == c && ([c] + rest)[1..] == rest;
  }

  lemma RunTail(c: Byte, rest: seq<Byte>, w: nat, k: nat)
    requires 0x80 <= c <= 0xBF
    ensures k == 1 ==> Run([c] + rest, w, k) == [w * 64 + (c - 0x80)] + Run(rest, 0, 0)
    ensures k > 1 ==> Run([c] + rest, w, k) == Run(rest, w * 64 + (c - 0x80), k - 1)
  {
    assert ([c] + rest)[0] == c && ([c] + rest)[1..] == rest;
  }

  lemma OneCharacter(w: Wide, rest: seq<Byte>)
    requires Scalar(w)
    ensures Run(EncodeChar(w) + rest, 0, 0) == [w] + Run(rest, 0, 0)
  {
    hide Run, Hi, Lo;
    var e := EncodeChar(w);
    if |e| == 1 {
      RunAscii(w, rest);
    } else if |e| == 2 {
      assert e + rest == [e[0]] + ([e[1]] + rest);
      RunLead(e[0], [e[1]] + rest);
      RunTail(e[1], rest, Hi(w), 1);
    } else if |e| == 3 {
      assert e + rest == [e[0]] + ([e[1]] + ([e[2]] + rest));
      RunLead(e[0], [e[1]] + ([e[2]] + rest));
      RunTail(e[1], [e[2]] + rest, Hi(Hi(w)), 2);
      RunTail(e[2], rest, Hi(w), 1);
    } else {
      assert e + rest == [e[0]] + ([e[1]] + ([e[2]] + ([e[3]] + rest)));
      RunLead(e[0], [e[1]] + ([e[2]] + ([e[3]] + rest)));
      RunTail(e[1], [e[2]] + ([e[3]] + rest), Hi(Hi(Hi(w))), 3);
      RunTail(e[2], [e[3]] + rest, Hi(Hi(w)), 2);
      RunTail(e[3], rest, Hi(w), 1);
    }
  }

  /** A first byte and fewer of the following bytes than it announces. */
  predicate Cut(t: seq<Byte>) {
    t != [] && 0xC0 <= t[0] <= 0xF7 && (forall i :: 0 < i < |t| ==> 0x80 <= t[i] <= 0xBF)
    && |t| < (if t[0] <= 0xDF then 2 else if t[0] <= 0xEF then 3 else 4)
  }

  lemma {:induction false} TailsPend(ts: seq<Byte>, rest: seq<Byte>, w: nat, k: nat) returns (w': nat)
    requires (forall i :: 0 <= i < |ts| ==> 0x80 <= ts[i] <= 0xBF) && |ts| < k
    ensures Run(ts + rest, w, k) == Run(rest, w', k - |ts|)
  {
    hide Run;
    if ts == [] {
      assert ts + rest == rest;
      return w;
    }
    RunTail(ts[0], ts[1..] + rest, w, k);
    assert [ts[0]] + (ts[1..] + rest) == ts + rest;
    w' := TailsPend(ts[1..], rest, w * 64 + (ts[0] - 0x80), k - 1);
  }

  lemma CutPends(t: seq<Byte>, rest: seq<Byte>) returns (w: nat, k: nat)
    requires Cut(t)
    ensures k > 0 && Decode(t + rest) == Run(rest, w, k)
  {
    hide Run;
    RunLead(t[0], t[1..] + rest);
    assert [t[0]] + (t[1..] + rest) == t + rest;
    var n := if t[0] <= 0xDF then 1 else if t[0] <= 0xEF then 2 else 3;
    w := TailsPend(t[1..], rest, t[0] - (if n == 1 then 0xC0 else if n == 2 then 0xE0 else 0xF0), n);
    k := n - (|t| - 1);
  }

  /** A character that is cut short becomes one question mark at the end of the input and before an
      ASCII character, and disappears before anything but these and the bytes it lacks. */
  lemma CutShort(t: seq<Byte>, rest: seq<Byte>)
    requires Cut(t)
    ensures Decode(t) == [QUESTION]
    ensures rest != [] && rest[0] <= 0x7F ==> Decode(t + rest) == [QUESTION] + Decode(rest)
    ensures rest != [] && rest[0] >= 0xC0 ==> Decode(t + rest) == Decode(rest)
  {
    var w, k := CutPends(t, []);
    assert t + [] == t;
    w, k := CutPends(t, rest);
  }

  /** A byte that follows no first byte, or none of the grammar, becomes a question mark. */
  lemma StrayByte(c: Byte, rest: seq<Byte>)
    requires 0x80 <= c <= 0xBF || c >= 0xF8
    ensures Decode([c] + rest) == [QUESTION] + Decode(rest)
  {
    assert ([c] + rest)[0] == c && ([c] + rest)[1..] == rest;
  }

  lemma {:induction false} DecodeJoin(s: seq<Wide>, rest: seq<Byte>)
    requires Scalars(s)
    ensures Decode(Encode(s) + rest) == s + Decode(rest)
  {
    hide Run, EncodeChar;
    if s == [] {
      assert Encode(s) + rest == rest;
    } else {
      assert Encode(s) + rest == EncodeChar(s[0]) + (Encode(s[1..]) + rest);
      OneCharacter(s[0], Encode(s[1..]) + rest);
      DecodeJoin(s[1..], rest);
    }
  }

  /** What toUTF8 makes of a character outside the range: a question mark. */
  function Clamp(s: seq<Wide>): seq<Wide> {
    seq(|s|, i requires 0 <= i < |s| => if s[i] > MAX_SCALAR then QUESTION else s[i])
  }

  lemma ClampOne(w: Wide)
    ensures w > MAX_SCALAR ==> EncodeChar(QUESTION) == EncodeChar(w)
  {
    hide Hi, Lo;
  }

  lemma {:induction false} ClampEncodes(s: seq<Wide>)
    ensures Encode(Clamp(s)) == Encode(s)
  {
    hide EncodeChar;
    if s != [] {
      ClampOne(s[0]);
      ClampEncodes(s[1..]);
      assert Clamp(s)[1..] == Clamp(s[1..]);
    }
  }

  lemma ClampFixed(s: seq<Wide>)
    requires Decode(Encode(s)) == s
    ensures Scalars(s)
  {
    ClampEncodes(s);
    assert forall i :: 0 <= i < |s| ==> s[i] == Decode(Encode(s))[i];
    DecodeJoin(Clamp(s), []);
    assert Encode(Clamp(s)) + [] == Encode(s);
    assert Clamp(s) == s;
    assert forall i :: 0 <= i < |s| ==> s[i] == Clamp(s)[i];
  }

  /** A wide string survives the wire exactly when every character is in 0..0x10FFFF. */
  lemma RoundTrip(s: seq<Wide>)
    ensures Decode(Encode(s)) == s <==> Scalars(s)
  {
    if Scalars(s) {
      DecodeJoin(s, []);
      assert Encode(s) + [] == Encode(s);
    }
    if Decode(Encode(s)) == s {
      ClampFixed(s);
    }
  }

  // ---------------------------------------------------------------- the standard's grammar

  predicate Tail(c: Byte) {
    0x80 <= c <= 0xBF
  }

  /** UTF8-char of section 4 of RFC 3629, except that the surrogates ED A0..BF are
      admitted, as the codec admits them. */
  predicate IsChar(b: seq<Byte>) {
    || (|b| == 1 && b[0] <= 0x7F)
    || (|b| == 2 && 0xC2 <= b[0] <= 0xDF && Tail(b[1]))
    || (|b| == 3 && ((b[0] == 0xE0 && 0xA0 <= b[1] <= 0xBF) || (0xE1 <= b[0] <= 0xEF && Tail(b[1]))) && Tail(b[2]))
    || (|b| == 4 && ((b[0] == 0xF0 && 0x90 <= b[1] <= 0xBF) || (0xF1 <= b[0] <= 0xF3 && Tail(b[1]))
                     || (b[0] == 0xF4 && 0x80 <= b[1] <= 0x8F)) && Tail(b[2]) && Tail(b[3]))
  }

  /** The number a sequence stands for, section 3 of RFC 3629. */
  function Value(b: seq<Byte>): int
    requires IsChar(b)
  {
    var first: int := b[0];
    if |b| == 1 then first
    else if |b| == 2 then Extend(first - 0xC0, b[1])
    else if |b| == 3 then Extend(Extend(first - 0xE0, b[1]), b[2])
    else Extend(Extend(Extend(first - 0xF0, b[1]), b[2]), b[3])
  }

  function Extend(w: int, c: Byte): int {
    w * 64 + (c - 0x80)
  }

  lemma EncodesChar(w: Wide)
    requires Scalar(w)
    ensures IsChar(EncodeChar(w)) && Value(EncodeChar(w)) == w
  {
    hide Hi, Lo;
  }

  lemma ExtendSplit(w: nat, c: Byte)
    requires Tail(c)
    ensures Extend(w, c) >= 0 && Hi(Extend(w, c)) == w && Lo(Extend(w, c)) == c - 0x80
  {
  }

  lemma TwoDigits(w: nat, c: Byte)
    requires 2 <= w < 32 && Tail(c)
    ensures var x := Extend(w, c); 0x80 <= x <= 0x7FF && Hi(x) == w && Lo(x) == c - 0x80
  {
    hide Hi, Lo;
    ExtendSplit(w, c);
  }

  lemma ThreeDigits(w: nat, b: Byte, c: Byte)
    requires w < 16 && Tail(b) && Tail(c) && (w == 0 ==> b >= 0xA0)
    ensures var x := Extend(Extend(w, b), c);
            0x800 <= x <= 0xFFFF && Hi(Hi(x)) == w && Lo(Hi(x)) == b - 0x80 && Lo(x) == c - 0x80
  {
    hide Hi, Lo;
    ExtendSplit(w, b);
    ExtendSplit(Extend(w, b), c);
  }

  lemma FourDigits(w: nat, b: Byte, c: Byte, d: Byte)
    requires w <= 4 && Tail(b) && Tail(c) && Tail(d) && (w == 0 ==> b >= 0x90) && (w == 4 ==> b <= 0x8F)
    ensures var x := Extend(Extend(Extend(w, b), c), d);
            && 0x1_0000 <= x <= MAX_SCALAR
            && Hi(Hi(Hi(x))) == w && Lo(Hi(Hi(x))) == b - 0x80 && Lo(Hi(x)) == c - 0x80 && Lo(x) == d - 0x80
  {
    hide Hi, Lo;
    ExtendSplit(w, b);
    ExtendSplit(Extend(w, b), c);
    ExtendSplit(Extend(Extend(w, b), c), d);
    assert 16 <= Extend(w, b) < 272;
  }

  lemma CharEncodes(b: seq<Byte>)
    requires IsChar(b)
    ensures Scalar(Value(b)) && EncodeChar(Value(b)) == b
  {
    hide Hi, Lo, Extend;
    var first: int := b[0];
    if |b| == 2 {
      TwoDigits(first - 0xC0, b[1]);
    } else if |b| == 3 {
      ThreeDigits(first - 0xE0, b[1], b[2]);
    } else if |b| == 4 {
      FourDigits(first - 0xF0, b[1], b[2], b[3]);
    }
  }

  /** The encoder emits the one sequence of the grammar, hence the shortest form. */
  lemma ShortestForm(w: Wide, b: seq<Byte>)
    requires Scalar(w)
    ensures (IsChar(b) && Value(b) == w) <==> b == EncodeChar(w)
  {
    EncodesChar(w);
    if IsChar(b) {
      CharEncodes(b);
    }
  }

  /** The length a first byte announces; 0 for bytes that cannot come first. */
  function CharLength(c: Byte): nat {
    if c <= 0x7F then 1 else if c < 0xC2 then 0 else if c <= 0xDF then 2
    else if c <= 0xEF then 3 else if c <= 0xF4 then 4 else 0
  }

  predicate WellFormed(b: seq<Byte>)
    decreases |b|
  {
    b == [] ||
    (var n := CharLength(b[0]); 0 < n <= |b| && IsChar(b[..n]) && WellFormed(b[n..]))
  }

  lemma {:induction false} EncodesWellFormed(s: seq<Wide>)
    requires Scalars(s)
    ensures WellFormed(Encode(s))
  {
    if s != [] {
      EncodesChar(s[0]);
      EncodesWellFormed(s[1..]);
      var e := EncodeChar(s[0]);
      assert Encode(s)[..|e|] == e && Encode(s)[|e|..] == Encode(s[1..]);
    }
  }

  lemma {:induction false} WellFormedDecodes(b: seq<Byte>)
    requires WellFormed(b)
    ensures Scalars(Decode(b)) && Encode(Decode(b)) == b
    decreases |b|
  {
    if b != [] {
      var n := CharLength(b[0]);
      CharEncodes(b[..n]);
      WellFormedDecodes(b[n..]);
      OneCharacter(Value(b[..n]), b[n..]);
      assert b[..n] + b[n..] == b;
      var s := Decode(b);
      assert s[1..] == Decode(b[n..]);
    }
  }

  /** Decoding loses nothing exactly on the sequences of the grammar. */
  lemma ReencodesExactly(b: seq<Byte>)
    ensures (forall i :: 0 <= i < |Decode(b)| ==> Decode(b)[i] < 0x20_0000)
    ensures Encode(Decode(b)) == b <==> WellFormed(b)
  {
    DecodeBounded(b);
    if WellFormed(b) {
      WellFormedDecodes(b);
    } else if Encode(Decode(b)) == b {
      ClampEncodes(Decode(b));
      EncodesWellFormed(Clamp(Decode(b)));
    }
  }
}
