/** Which responses a firmware download accepts, read from the header text: sections 8.6
    (Content-Length) and 14.4 (Content-Range) of RFC 9110.

    A C string is its characters; the character behind the last is NUL. */
module FwHttpPolicy {

  const UINT32_MAX: nat := 0xFFFF_FFFF
  const RESUME_MIN: nat := 1024
  const MAX_ATTEMPTS: nat := 5

  // Reading text.

  function At(s: string, i: nat): char { if i < |s| then s[i] else '\0' }

  predicate Space(c: char) { c == ' ' || c == '\t' }
  predicate Digit(c: char) { '0' <= c <= '9' }

  function DigitValue(c: char): nat
    requires Digit(c)
  {
    c as nat - '0' as nat
  }

  predicate Spaces(s: string) { forall i :: 0 <= i < |s| ==> Space(s[i]) }
  predicate Digits(s: string) { s != "" && forall i :: 0 <= i < |s| ==> Digit(s[i]) }

  function SkipSpace(s: string, i: nat): (j: nat)
    requires i <= |s|
    ensures i <= j <= |s| && Spaces(s[i..j]) && !Space(At(s, j))
    decreases |s| - i
  {
    if i < |s| && Space(s[i]) then SkipSpace(s, i + 1) else i
  }

  /** The number a run of digits writes. */
  function ValueOf(digits: string): nat
    requires forall i :: 0 <= i < |digits| ==> Digit(digits[i])
  {
    if digits == "" then 0 else 10 * ValueOf(digits[..|digits| - 1]) + DigitValue(digits[|digits| - 1])
  }

  function RunEnd(s: string, i: nat): (j: nat)
    requires i <= |s|
    ensures i <= j <= |s| && (forall k :: i <= k < j ==> Digit(s[k])) && !Digit(At(s, j))
    decreases |s| - i
  {
    if i < |s| && Digit(s[i]) then RunEnd(s, i + 1) else i
  }

  datatype Number = Number(value: nat, next: nat) | NotANumber

  /** A number that fits 32 bits, and where the text goes on behind it. */
  function Decimal(s: string, i: nat): (n: Number)
    requires i <= |s|
    ensures n.Number? ==> i < n.next <= |s|
  {
    var j := RunEnd(s, i);
    if i == j || UINT32_MAX < ValueOf(s[i..j]) then NotANumber else Number(ValueOf(s[i..j]), j)
  }

  lemma {:induction false} LongerIsLarger(s: string, j: nat)
    requires (forall i :: 0 <= i < |s| ==> Digit(s[i])) && j <= |s|
    ensures ValueOf(s[..j]) <= ValueOf(s)
  {
    if j < |s| {
      LongerIsLarger(s[..|s| - 1], j);
      assert s[..|s| - 1][..j] == s[..j];
    } else {
      assert s[..j] == s;
    }
  }

  /** The loop that reads a number, refusing just before it would overflow. */
  method ReadDecimal(s: string, i: nat) returns (n: Number)
    requires i <= |s|
    ensures n == Decimal(s, i)
  {
    var p := i;
    if !Digit(At(s, p)) { return NotANumber; }
    var v := 0;
    ghost var end := RunEnd(s, i);
    while p == i || Digit(At(s, p))
      invariant i <= p <= end && p <= |s| && (p == i ==> p < end)
      invariant v == ValueOf(s[i..p]) && v <= UINT32_MAX
      decreases |s| - p
    {
      var d := DigitValue(s[p]);
      assert s[i..p + 1][..p - i] == s[i..p];
      p := p + 1;
      assert ValueOf(s[i..p]) == 10 * v + d;
      if v > (UINT32_MAX - d) / 10 {
        assert s[i..end][..p - i] == s[i..p];
        LongerIsLarger(s[i..end], p - i);
        return NotANumber;
      }
      v := v * 10 + d;
    }
    assert p == end;
    return Number(v, p);
  }

  /** A number, and whether the character given ends it. */
  method ReadUpTo(s: string, i: nat, end: char) returns (n: Number, ok: bool)
    requires i <= |s| && end != '\0'
    ensures n == Decimal(s, i) && ok == (n.Number? && At(s, n.next) == end)
    ensures ok ==> n.next < |s|
  {
    n := ReadDecimal(s, i);
    ok := n.Number? && At(s, n.next) == end;
  }

  function LowerChar(c: char): char {
    if 'A' <= c <= 'Z' then c - 'A' + 'a' else c
  }

  function Lower(s: string): (r: string)
    ensures |r| == |s| && forall i :: 0 <= i < |s| ==> r[i] == LowerChar(s[i])
  {
    if s == "" then "" else [LowerChar(s[0])] + Lower(s[1..])
  }

  // The metadata of one response.

  datatype Response = Response(status: nat, invalid: bool, lengths: nat, ranges: nat,
                               length: nat, first: nat, last: nat, total: nat)

  datatype Header = Header(key: string, value: string) | NullHeader

  function Fresh(status: nat): Response { Response(status, false, 0, 0, 0, 0, 0, 0) }

  /** Nothing but white space may follow what was read. */
  function AtEnd(r: Response, value: string, p: nat): Response
    requires p <= |value|
  {
    if SkipSpace(value, p) == |value| then r else r.(invalid := true)
  }

  function TakeLength(r: Response, value: string, p: nat): Response
    requires p <= |value|
  {
    var counted := r.(lengths := r.lengths + 1);
    var n := Decimal(value, p);
    if counted.lengths != 1 || n.NotANumber? then counted.(invalid := true)
    else AtEnd(counted.(length := n.value), value, n.next)
  }

  const BYTES: string := "bytes "

  predicate StartsAt(s: string, p: nat, prefix: string) { p + |prefix| <= |s| && s[p..p + |prefix|] == prefix }

  datatype Fields = Fields(r: Response, next: nat)   // `next` is zero when the text is no range

  function Refused(r: Response): Fields { Fields(r.(invalid := true), 0) }

  function TotalField(r: Response, value: string, p: nat): (f: Fields)
    requires p <= |value|
    ensures f.next <= |value| && (f.next == 0 ==> f.r.invalid)
  {
    var c := Decimal(value, p);
    if c.NotANumber? then Refused(r) else Fields(r.(total := c.value), c.next)
  }

  function LastField(r: Response, value: string, p: nat): (f: Fields)
    requires p <= |value|
    ensures f.next <= |value| && (f.next == 0 ==> f.r.invalid)
  {
    var b := Decimal(value, p);
    if b.NotANumber? then Refused(r)
    else if At(value, b.next) != '/' then Refused(r.(last := b.value))
    else TotalField(r.(last := b.value), value, b.next + 1)
  }

  /** The three numbers of a range, as far as the text has them. */
  function RangeFields(r: Response, value: string, p: nat): (f: Fields)
    requires p <= |value|
    ensures f.next <= |value| && (f.next == 0 ==> f.r.invalid)
  {
    if r.ranges != 1 || !StartsAt(value, p, BYTES) then Refused(r)
    else
      var a := Decimal(value, p + |BYTES|);
      if a.NotANumber? then Refused(r)
      else if At(value, a.next) != '-' then Refused(r.(first := a.value))
      else LastField(r.(first := a.value), value, a.next + 1)
  }

  function TakeRange(r: Response, value: string, p: nat): Response
    requires p <= |value|
  {
    var f := RangeFields(r.(ranges := r.ranges + 1), value, p);
    if f.next == 0 then f.r else AtEnd(f.r, value, f.next)
  }

  const IDENTITY: string := "identity"

  function TakeEncoding(r: Response, value: string, p: nat): Response
    requires p <= |value|
  {
    if p + |IDENTITY| <= |value| && Lower(value[p..p + |IDENTITY|]) == IDENTITY then AtEnd(r, value, p + |IDENTITY|)
    else r.(invalid := true)
  }

  function OnHeader(r: Response, h: Header): Response {
    if h.NullHeader? then r.(invalid := true)
    else
      var p := SkipSpace(h.value, 0);
      var key := Lower(h.key);
      if key == "content-length" then TakeLength(r, h.value, p)
      else if key == "content-range" then TakeRange(r, h.value, p)
      else if key == "content-encoding" then TakeEncoding(r, h.value, p)
      else if key == "transfer-encoding" then r.(invalid := true)
      else r
  }

  function OnHeaders(r: Response, hs: seq<Header>): Response {
    if hs == [] then r else OnHeader(OnHeaders(r, hs[..|hs| - 1]), hs[|hs| - 1])
  }

  /** Whether a response stands for exactly the bytes from `offset` to the end of the image. */
  predicate ResponseValid(r: Response, offset: nat, imageLen: nat) {
    && !r.invalid && imageLen != 0 && offset < imageLen
    && r.lengths == 1 && r.length == imageLen - offset
    && if offset == 0 then r.status == 200 && r.ranges == 0
       else RESUME_MIN <= offset && r.status == 206 && r.ranges == 1
            && r.first == offset && r.last == imageLen - 1 && r.total == imageLen
  }

  predicate StatusRetryable(status: nat) {
    status == 408 || status == 429 || status == 500 || status == 502 || status == 503 || status == 504
  }

  const DELAYS: seq<nat> := [5, 15, 30, 60]

  function RetryDelay(completed: nat): nat {
    if completed != 0 && completed < MAX_ATTEMPTS then DELAYS[completed - 1] else 0
  }

  /** The record the HTTP callbacks fill in, header by header. */
  class Metadata {
    var r: Response

    constructor ()
      ensures r == Fresh(0)
    {
      r := Fresh(0);
    }

    method OnStatus(status: nat)
      modifies this
      ensures r == Fresh(status)
    {
      r := Fresh(status);
    }

    method Header(h: Header)
      modifies this
      ensures r == OnHeader(old(r), h)
    {
      if h.NullHeader? {
        r := r.(invalid := true);
        return;
      }
      var p := SkipSpace(h.value, 0);
      var key := Lower(h.key);
      if key == "content-length" {
        r := r.(lengths := r.lengths + 1);
        var n := ReadDecimal(h.value, p);
        if r.lengths != 1 || n.NotANumber? {
          r := r.(invalid := true);
          return;
        }
        r := r.(length := n.value);
        p := n.next;
      } else if key == "content-range" {
        r := r.(ranges := r.ranges + 1);
        p := ReadRange(h.value, p);
        if p == 0 { return; }
      } else if key == "content-encoding" {
        if !(p + 8 <= |h.value| && Lower(h.value[p..p + 8]) == IDENTITY) {
          r := r.(invalid := true);
          return;
        }
        p := p + 8;
      } else {
        if key == "transfer-encoding" { r := r.(invalid := true); }
        return;
      }
      if SkipSpace(h.value, p) != |h.value| { r := r.(invalid := true); }
    }

    method Refuse() returns (next: nat)
      modifies this
      ensures Fields(r, next) == Refused(old(r))
    {
      r := r.(invalid := true);
      return 0;
    }

    method ReadTotal(value: string, p: nat) returns (next: nat)
      requires p <= |value|
      modifies this
      ensures Fields(r, next) == TotalField(old(r), value, p)
    {
      var c := ReadDecimal(value, p);
      if c.NotANumber? {
        next := Refuse();
        return;
      }
      r := r.(total := c.value);
      return c.next;
    }

    method ReadLast(value: string, p: nat) returns (next: nat)
      requires p <= |value|
      modifies this
      ensures Fields(r, next) == LastField(old(r), value, p)
    {
      var b, slash := ReadUpTo(value, p, '/');
      if b.Number? { r := r.(last := b.value); }
      if slash { next := ReadTotal(value, b.next + 1); } else { next := Refuse(); }
    }

    method ReadRange(value: string, p: nat) returns (next: nat)
      requires p <= |value|
      modifies this
      ensures Fields(r, next) == RangeFields(old(r), value, p)
    {
      if r.ranges != 1 || !StartsAt(value, p, BYTES) {
        next := Refuse();
        return;
      }
      var a, dash := ReadUpTo(value, p + 6, '-');
      if a.Number? { r := r.(first := a.value); }
      if dash { next := ReadLast(value, a.next + 1); } else { next := Refuse(); }
    }
  }
}
