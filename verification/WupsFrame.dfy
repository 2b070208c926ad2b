/** The WUPS frame: its Fletcher-8 checksum, the encoder and the decoder. */
module WupsFrame {
  import opened Wrappers

  type Byte = b: nat | b < 256

  const SYNC1: Byte := 0xAA
  const SYNC2: Byte := 0x55
  const END1: Byte := 0x55
  const END2: Byte := 0xAA
  const HEADER: nat := 10
  const TRAILER: nat := 4
  const MAX_PAYLOAD: nat := 240

  // The checksum.

  datatype Check = Check(a: Byte, b: Byte)

  function Sum(s: seq<Byte>): nat { if s == [] then 0 else Sum(s[..|s| - 1]) + s[|s| - 1] }

  /** The sum of all prefix sums. */
  function SumOfSums(s: seq<Byte>): nat { if s == [] then 0 else SumOfSums(s[..|s| - 1]) + Sum(s) }

  function Fletcher(s: seq<Byte>): Check { Check(Sum(s) % 256, SumOfSums(s) % 256) }

  lemma ModAdd(a: nat, b: nat)
    ensures (a % 256 + b) % 256 == (a + b) % 256
  {
    WholeTurns(a % 256 + b, a / 256);
  }

  lemma WholeTurns(x: nat, q: nat)
    ensures (x + 256 * q) % 256 == x % 256
  {
  }

  lemma NextSum(sums: nat, sum: nat)
    ensures (sums % 256 + sum % 256) % 256 == (sums + sum) % 256
  {
    ModAdd(sums, sum % 256);
    ModAdd(sum, sums);
  }

  method Fletcher8(data: seq<Byte>) returns (c: Check)
    ensures c == Fletcher(data)
  {
    var a: Byte, b: Byte := 0, 0;
    for i := 0 to |data|
      invariant a == Sum(data[..i]) % 256 && b == SumOfSums(data[..i]) % 256
    {
      assert data[..i + 1][..i] == data[..i];
      ModAdd(Sum(data[..i]), data[i]);
      a := (a + data[i]) % 256;
      NextSum(SumOfSums(data[..i]), Sum(data[..i + 1]));
      b := (b + a) % 256;
    }
    assert data[..|data|] == data;
    return Check(a, b);
  }

  /** Each byte counted once for itself and once for every byte behind it. */
  function PositionWeighted(s: seq<Byte>): nat {
    if s == [] then 0 else |s| * s[0] + PositionWeighted(s[1..])
  }

  lemma {:induction false} WeightedSnoc(s: seq<Byte>, x: Byte)
    ensures PositionWeighted(s + [x]) == PositionWeighted(s) + Sum(s) + x
    ensures s != [] ==> Sum(s) == s[0] + Sum(s[1..])
  {
    if s == [] {
      assert (s + [x])[1..] == [];
    } else {
      WeightedSnoc(s[1..], x);
      assert (s + [x])[1..] == s[1..] + [x];
      SumCons(s);
      assert (|s| + 1) * s[0] == |s| * s[0] + s[0];
    }
  }

  lemma {:induction false} SumCons(s: seq<Byte>)
    requires s != []
    ensures Sum(s) == s[0] + Sum(s[1..])
  {
    if |s| > 1 {
      SumCons(s[..|s| - 1]);
      assert s[..|s| - 1][1..] == s[1..][..|s| - 2];
    }
  }

  /** The second check byte weighs every byte by its distance from the end. */
  lemma {:induction false} SecondByteIsWeighted(s: seq<Byte>)
    ensures SumOfSums(s) == PositionWeighted(s)
  {
    if s != [] {
      SecondByteIsWeighted(s[..|s| - 1]);
      WeightedSnoc(s[..|s| - 1], s[|s| - 1]);
      assert s == s[..|s| - 1] + [s[|s| - 1]];
    }
  }

  lemma OneMoreTime(k: int, d: int)
    ensures (k + 1) * d == k * d + d
  {
  }

  lemma {:induction false} SumUpdate(s: seq<Byte>, i: nat, x: Byte)
    requires i < |s|
    ensures Sum(s[i := x]) == Sum(s) + x - s[i]
    ensures SumOfSums(s[i := x]) == SumOfSums(s) + (|s| - i) * (x - s[i])
  {
    var n := |s| - 1;
    if i == n {
      assert s[i := x][..n] == s[..n];
    } else {
      SumUpdate(s[..n], i, x);
      assert s[i := x][..n] == s[..n][i := x];
      OneMoreTime(n - i, x - s[i]);
    }
  }

  lemma SameResidue(a: nat, d: int)
    requires 0 <= a + d
    ensures (a + d) % 256 == a % 256 <==> d % 256 == 0
  {
  }

  /** Any change of one byte is seen. */
  lemma {:induction false} OneByteDetected(s: seq<Byte>, i: nat, x: Byte)
    requires i < |s| && x != s[i]
    ensures Fletcher(s[i := x]).a != Fletcher(s).a
  {
    SumUpdate(s, i, x);
    SameResidue(Sum(s), x - s[i]);
  }

  /** A change of two bytes goes unseen exactly when the changes cancel and the distance
      times either of them is a multiple of 256. */
  lemma {:induction false} TwoBytesUndetectedExactly(s: seq<Byte>, i: nat, x: Byte, j: nat, y: Byte)
    requires i < j < |s|
    ensures Fletcher(s[i := x][j := y]) == Fletcher(s) <==>
      (x - s[i] + (y - s[j])) % 256 == 0 && ((j - i) * (x - s[i])) % 256 == 0
  {
    var d, e, n := x - s[i], y - s[j], |s|;
    SumUpdate(s, i, x);
    SumUpdate(s[i := x], j, y);
    SameResidue(Sum(s), d + e);
    SameResidue(SumOfSums(s), (n - i) * d + (n - j) * e);
    WeightsSplit(n - j, j - i, d, e);
    if (d + e) % 256 == 0 { MultipleDropped((j - i) * d, n - j, (d + e) / 256); }
  }

  lemma WeightsSplit(far: int, gap: int, d: int, e: int)
    ensures (far + gap) * d + far * e == far * (d + e) + gap * d
  {
  }

  lemma MultipleDropped(r: int, f: int, q: int)
    ensures (f * (256 * q) + r) % 256 == 0 <==> r % 256 == 0
  {
    assert f * (256 * q) == 256 * (f * q);
    WholeTurnsOf(r, f * q);
  }

  lemma WholeTurnsOf(r: int, q: int)
    ensures (256 * q + r) % 256 == 0 <==> r % 256 == 0
  {
  }

  function Pow2(k: nat): (p: nat)
    ensures p > 0
  {
    if k == 0 then 1 else 2 * Pow2(k - 1)
  }

  /** An odd factor takes no power of two with it. */
  lemma {:induction false} OddFactor(d: int, x: int, k: nat, q: int) returns (z: int)
    requires d % 2 == 1 && d * x == Pow2(k) * q
    ensures x == Pow2(k) * z
    decreases k
  {
    if k == 0 {
      z := x;
    } else {
      Twice(Pow2(k - 1), q);
      if x % 2 == 1 { OddProduct(d, x); }
      Twice(x / 2, d);
      z := OddFactor(d, x / 2, k - 1, q);
      Twice(Pow2(k - 1), z);
    }
  }

  lemma Twice(a: int, b: int)
    ensures (2 * a) * b == 2 * (a * b) && b * (2 * a) == 2 * (b * a)
  {
  }

  lemma OddProduct(d: int, x: int)
    requires d % 2 == 1 && x % 2 == 1
    ensures (d * x) % 2 == 1
  {
    var a, b := d / 2, x / 2;
    OddForm(a, b, d, x);
    OddIs(2 * (a * b) + a + b, d * x);
  }

  lemma OddForm(a: int, b: int, d: int, x: int)
    requires d == 2 * a + 1 && x == 2 * b + 1
    ensures d * x == 2 * (2 * (a * b) + a + b) + 1
  {
    assert d * x == 2 * (a * x) + x && a * x == 2 * (a * b) + a by {
      Spread(2 * a, x);
      Twice(a, x);
      Twice(b, a);
      Spread(2 * b, a);
    }
  }

  lemma Spread(c: int, x: int)
    ensures (c + 1) * x == c * x + x && x * (c + 1) == x * c + x
  {
  }

  lemma OddIs(m: int, p: int)
    requires p == 2 * m + 1
    ensures p % 2 == 1
  {
  }

  lemma OddMultiple(d: int, e: int, p: int)
    requires d % 2 == 1 && -256 < e < 256 && p == d * e && p % 256 == 0
    ensures e == 0
  {
    assert Pow2(8) == 256 by { assert Pow2(4) == 16; }
    var z := OddFactor(d, e, 8, p / 256);
  }

  /** Two changed bytes an odd distance apart are always seen. */
  lemma {:induction false} OddDistanceDetected(s: seq<Byte>, i: nat, x: Byte, j: nat, y: Byte)
    requires i < j < |s| && (j - i) % 2 == 1 && x != s[i]
    ensures Fletcher(s[i := x][j := y]) != Fletcher(s)
  {
    var e := x - s[i];
    var p := (j - i) * e;
    TwoBytesUndetectedExactly(s, i, x, j, y);
    if p % 256 == 0 { OddMultiple(j - i, e, p); }
  }

  // The frame.

  datatype Head = Head(dst: Byte, src: Byte, cls: Byte, op: Byte, flags: Byte, seq8: Byte)

  function HeaderOf(h: Head, len: nat): (r: seq<Byte>)
    requires len < 0x10000
    ensures |r| == HEADER
  {
    [SYNC1, SYNC2, h.dst, h.src, h.cls, h.op, h.flags, h.seq8, len % 256, len / 256]
  }

  /** A payload whose length does not fit 16 bits cannot be framed. */
  function BuildFrame(h: Head, payload: seq<Byte>): Option<seq<Byte>> {
    if 0x10000 <= |payload| then None
    else
      var hdr := HeaderOf(h, |payload|);
      var c := Fletcher(hdr[2..] + payload);
      Some(hdr + payload + [c.a, c.b, END1, END2])
  }

  function LengthOf(low: nat, high: nat): nat { low + 256 * high }

  datatype Decoded =
    | TooShort
    | BadSync
    | Truncated
    | Frame(head: Head, payload: seq<Byte>, ckOk: bool, endOk: bool, trailing: nat)

  function DecodeFrame(buf: seq<Byte>): Decoded {
    if |buf| < HEADER + TRAILER then TooShort
    else if buf[0] != SYNC1 || buf[1] != SYNC2 then BadSync
    else
      var len := LengthOf(buf[8], buf[9]);
      var total := HEADER + len + TRAILER;
      if |buf| < total then Truncated
      else
        var c := Fletcher(buf[2..HEADER + len]);
        Frame(Head(buf[2], buf[3], buf[4], buf[5], buf[6], buf[7]), buf[HEADER..HEADER + len],
              c.a == buf[HEADER + len] && c.b == buf[HEADER + len + 1],
              buf[HEADER + len + 2] == END1 && buf[HEADER + len + 3] == END2,
              |buf| - total)
  }

  /** Decoding gives back exactly what was framed. */
  lemma DecodeInvertsBuild(h: Head, payload: seq<Byte>)
    requires |payload| < 0x10000
    ensures DecodeFrame(BuildFrame(h, payload).value) == Frame(h, payload, true, true, 0)
  {
    var hdr := HeaderOf(h, |payload|);
    var c := Fletcher(hdr[2..] + payload);
    var buf := hdr + payload + [c.a, c.b, END1, END2];
    assert LengthOf(buf[8], buf[9]) == |payload|;
    assert buf[HEADER..HEADER + |payload|] == payload;
    assert buf[2..HEADER + |payload|] == hdr[2..] + payload;
  }

  lemma HeaderRead(buf: seq<Byte>)
    requires |buf| >= HEADER && buf[0] == SYNC1 && buf[1] == SYNC2
    ensures HeaderOf(Head(buf[2], buf[3], buf[4], buf[5], buf[6], buf[7]), LengthOf(buf[8], buf[9])) == buf[..HEADER]
  {
  }

  /** Whatever decodes cleanly is, up to what trails it, the frame that would be built from it. */
  lemma BuildInvertsDecode(buf: seq<Byte>)
    requires DecodeFrame(buf).Frame? && DecodeFrame(buf).ckOk && DecodeFrame(buf).endOk
    ensures var f := DecodeFrame(buf);
            BuildFrame(f.head, f.payload) == Some(buf[..|buf| - f.trailing])
  {
    HeaderRead(buf);
    Reassembled(buf, LengthOf(buf[8], buf[9]));
  }

  lemma Reassembled(buf: seq<Byte>, len: nat)
    requires HEADER + len + TRAILER <= |buf|
    ensures var c := Fletcher(buf[2..HEADER + len]);
            && buf[..HEADER][2..] + buf[HEADER..HEADER + len] == buf[2..HEADER + len]
            && buf[..HEADER] + buf[HEADER..HEADER + len] + buf[HEADER + len..HEADER + len + TRAILER]
               == buf[..HEADER + len + TRAILER]
            && buf[HEADER + len..HEADER + len + TRAILER]
               == [buf[HEADER + len], buf[HEADER + len + 1], buf[HEADER + len + 2], buf[HEADER + len + 3]]
  {
  }

  /** Where a byte of the addressing or the payload stands in a frame. */
  predicate Inner(payload: seq<Byte>, i: nat) { 2 <= i < 8 || HEADER <= i < HEADER + |payload| }

  /** A frame changed there decodes as one, its check good exactly when the sums stayed the same. */
  lemma InnerChange(h: Head, payload: seq<Byte>, buf: seq<Byte>)
    requires |payload| < 0x10000 && |buf| == HEADER + |payload| + TRAILER
    requires forall i :: 0 <= i < |buf| && !Inner(payload, i) ==> buf[i] == BuildFrame(h, payload).value[i]
    ensures var f := DecodeFrame(buf);
            && f.Frame? && f.endOk && f.trailing == 0
            && f.ckOk == (Fletcher(buf[2..HEADER + |payload|]) == Fletcher(BuildFrame(h, payload).value[2..HEADER + |payload|]))
  {
    var frame := BuildFrame(h, payload).value;
    assert LengthOf(frame[8], frame[9]) == |payload|;
    assert frame[2..HEADER + |payload|] == HeaderOf(h, |payload|)[2..] + payload;
  }

  /** One corrupted byte of the addressing or the payload never passes the check. */
  lemma CorruptedFrameFails(h: Head, payload: seq<Byte>, i: nat, x: Byte)
    requires |payload| < 0x10000 && Inner(payload, i)
    requires BuildFrame(h, payload).value[i] != x
    ensures var f := DecodeFrame(BuildFrame(h, payload).value[i := x]); f.Frame? && !f.ckOk
  {
    var buf := BuildFrame(h, payload).value;
    var covered := buf[2..HEADER + |payload|];
    InnerChange(h, payload, buf[i := x]);
    assert buf[i := x][2..HEADER + |payload|] == covered[i - 2 := x];
    OneByteDetected(covered, i - 2, x);
  }

  /** A frame with one corrupted byte, whichever, never decodes as one clean frame: sync and check
      fail, the trailer is wrong, or the length leaves bytes missing or trailing. */
  lemma CorruptedFrameNeverClean(h: Head, payload: seq<Byte>, i: nat, x: Byte)
    requires |payload| < 0x10000 && i < HEADER + |payload| + TRAILER
    requires BuildFrame(h, payload).value[i] != x
    ensures var f := DecodeFrame(BuildFrame(h, payload).value[i := x]);
            !(f.Frame? && f.ckOk && f.endOk && f.trailing == 0)
  {
    var buf := BuildFrame(h, payload).value;
    var n := HEADER + |payload|;
    if Inner(payload, i) {
      CorruptedFrameFails(h, payload, i, x);
    } else if i == 8 || i == 9 {
      assert LengthOf(buf[i := x][8], buf[i := x][9]) != |payload|;
    } else if n <= i {
      assert LengthOf(buf[8], buf[9]) == |payload|;
      assert buf[i := x][2..n] == buf[2..n] == HeaderOf(h, |payload|)[2..] + payload;
    }
  }

  /** Two changes `d` and `e` so far apart leave both sums as they were. */
  predicate Unseen(gap: nat, d: int, e: int) { (d + e) % 256 == 0 && (gap * d) % 256 == 0 }

  lemma {:induction false} UnseenExactly(s: seq<Byte>, i: nat, x: Byte, gap: nat, y: Byte, same: bool)
    requires 0 < gap && i + gap < |s| && same == (Fletcher(s[i := x][i + gap := y]) == Fletcher(s))
    ensures same <==> Unseen(gap, x - s[i], y - s[i + gap])
  {
    TwoBytesUndetectedExactly(s, i, x, i + gap, y);
  }

  lemma {:induction false} TwoCovered(frame: seq<Byte>, n: nat, i: nat, x: Byte, j: nat, y: Byte)
    requires 2 <= i < j < n <= |frame|
    ensures (Fletcher(frame[i := x][j := y][2..n]) == Fletcher(frame[2..n])) == Unseen(j - i, x - frame[i], y - frame[j])
  {
    var covered := frame[2..n];
    assert frame[i := x][j := y][2..n] == covered[i - 2 := x][j - 2 := y];
    var same := Fletcher(covered[i - 2 := x][j - 2 := y]) == Fletcher(covered);
    UnseenExactly(covered, i - 2, x, j - i, y, same);
  }

  /** Two corrupted bytes of the addressing or the payload pass the check exactly when their
      changes cancel and the distance times either of them is a multiple of 256. */
  lemma {:induction false} TwoCorruptedBytesPassExactly(h: Head, payload: seq<Byte>, i: nat, x: Byte, j: nat, y: Byte)
    requires |payload| < 0x10000 && i < j && Inner(payload, i) && Inner(payload, j)
    ensures var buf := BuildFrame(h, payload).value;
            var f := DecodeFrame(buf[i := x][j := y]);
            f.Frame? && f.endOk && f.trailing == 0 && f.ckOk == Unseen(j - i, x - buf[i], y - buf[j])
  {
    var frame := BuildFrame(h, payload).value;
    InnerChange(h, payload, frame[i := x][j := y]);
    TwoCovered(frame, HEADER + |payload|, i, x, j, y);
  }

  /** At an odd distance they never pass. */
  lemma TwoCorruptedBytesFailAtOddDistance(h: Head, payload: seq<Byte>, i: nat, x: Byte, j: nat, y: Byte)
    requires |payload| < 0x10000 && i < j && Inner(payload, i) && Inner(payload, j) && (j - i) % 2 == 1
    requires BuildFrame(h, payload).value[i] != x
    ensures !DecodeFrame(BuildFrame(h, payload).value[i := x][j := y]).ckOk
  {
    TwoCorruptedBytesPassExactly(h, payload, i, x, j, y);
    var e := x - BuildFrame(h, payload).value[i];
    if ((j - i) * e) % 256 == 0 { OddMultiple(j - i, e, (j - i) * e); }
  }

  /** Two places apart, the top bit of both bytes goes unseen. */
  lemma TwoCorruptedBytesCanPass(h: Head)
    ensures var f := DecodeFrame(BuildFrame(h, [0, 0, 0]).value[HEADER := 128][HEADER + 2 := 128]);
            f.Frame? && f.ckOk && f.endOk && f.trailing == 0
  {
    TwoCorruptedBytesPassExactly(h, [0, 0, 0], HEADER, 128, HEADER + 2, 128);
  }

  /** The check bytes over a stretch of a buffer. */
  method CheckOver(out: array<Byte>, from: nat, to: nat) returns (c: Check)
    requires from <= to <= out.Length
    ensures c == Fletcher(out[from..to])
  {
    var a: Byte, b: Byte := 0, 0;
    ghost var s := out[from..to];
    for i := from to to
      invariant a == Sum(s[..i - from]) % 256 && b == SumOfSums(s[..i - from]) % 256
    {
      assert out[i] == s[i - from];
      assert s[..i + 1 - from][..i - from] == s[..i - from];
      ModAdd(Sum(s[..i - from]), out[i]);
      a := (a + out[i]) % 256;
      NextSum(SumOfSums(s[..i - from]), Sum(s[..i + 1 - from]));
      b := (b + a) % 256;
    }
    assert s[..to - from] == s;
    return Check(a, b);
  }

  /** The firmware's encoder, into a caller's buffer; zero when it does not fit. */
  method EncodeFrame(out: array<Byte>, h: Head, payload: seq<Byte>) returns (total: nat)
    requires |payload| < 0x10000
    modifies out
    ensures total == if HEADER + |payload| + TRAILER <= out.Length && |payload| <= MAX_PAYLOAD
                     then HEADER + |payload| + TRAILER else 0
    ensures total > 0 ==> Some(out[..total]) == BuildFrame(h, payload) && out[total..] == old(out[total..])
    ensures total == 0 ==> out[..] == old(out[..])
  {
    var plen := |payload|;
    total := (HEADER + plen + TRAILER) % 0x10000;   // 16 bits wide
    if total > out.Length || plen > MAX_PAYLOAD { return 0; }
    PutHeader(out, h, plen);
    assert forall k :: HEADER <= k < out.Length ==> out[k] == out[HEADER..][k - HEADER];
    forall k | 0 <= k < plen { out[HEADER + k] := payload[k]; }
    ghost var covered := HeaderOf(h, plen) + payload;
    assert out[..HEADER + plen] == covered;
    assert out[2..HEADER + plen] == covered[2..] == HeaderOf(h, plen)[2..] + payload;
    assert out[total..] == old(out[HEADER..])[plen + TRAILER..] == old(out[total..]);
    var c := CheckOver(out, 2, HEADER + plen);
    PutTrailer(out, HEADER + plen, c);
  }

  method PutHeader(out: array<Byte>, h: Head, plen: nat)
    requires HEADER <= out.Length && plen < 0x10000
    modifies out
    ensures out[..HEADER] == HeaderOf(h, plen) && out[HEADER..] == old(out[HEADER..])
  {
    out[0], out[1], out[2], out[3], out[4] := SYNC1, SYNC2, h.dst, h.src, h.cls;
    out[5], out[6], out[7], out[8], out[9] := h.op, h.flags, h.seq8, plen % 256, plen / 256;
  }

  method PutTrailer(out: array<Byte>, at: nat, c: Check)
    requires at + TRAILER <= out.Length
    modifies out
    ensures out[..at + TRAILER] == old(out[..at]) + [c.a, c.b, END1, END2]
    ensures out[at + TRAILER..] == old(out[at + TRAILER..])
  {
    out[at], out[at + 1], out[at + 2], out[at + 3] := c.a, c.b, END1, END2;
  }
}
