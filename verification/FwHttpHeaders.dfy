/** What an accepted response says, in terms of the header text alone: one length, one
    range exactly when resuming, both naming the commanded bytes, nothing transformed. */
module FwHttpHeaders {
  import opened FwHttpPolicy

  predicate Writes(s: string, i: nat, j: nat, n: nat) {
    i < j <= |s| && Digits(s[i..j]) && ValueOf(s[i..j]) == n && n <= UINT32_MAX
  }

  /** White space, a number, white space. */
  predicate LengthTextAt(v: string, i: nat, j: nat, n: nat) {
    i < j <= |v| && Spaces(v[..i]) && Writes(v, i, j, n) && Spaces(v[j..])
  }

  /** White space, `bytes first-last/total`, white space; the cuts are where the text changes. */
  predicate RangeTextAt(v: string, i: nat, cut: (nat, nat, nat), first: nat, last: nat, total: nat) {
    var (a, b, c) := cut;
    && i + |BYTES| < a < b < c <= |v|
    && Spaces(v[..i]) && v[i..i + |BYTES|] == BYTES
    && Writes(v, i + |BYTES|, a, first) && v[a] == '-'
    && Writes(v, a + 1, b, last) && v[b] == '/'
    && Writes(v, b + 1, c, total) && Spaces(v[c..])
  }

  predicate IdentityTextAt(v: string, i: nat) {
    i + |IDENTITY| <= |v| && Spaces(v[..i]) && Lower(v[i..i + |IDENTITY|]) == IDENTITY && Spaces(v[i + |IDENTITY|..])
  }

  ghost predicate LengthText(v: string, n: nat) { exists i, j :: LengthTextAt(v, i, j, n) }

  ghost predicate RangeText(v: string, first: nat, last: nat, total: nat) {
    exists i, cut :: RangeTextAt(v, i, cut, first, last, total)
  }

  ghost predicate IdentityText(v: string) { exists i :: IdentityTextAt(v, i) }

  // The scanner against these.

  lemma {:induction false} SkipExact(s: string, i: nat, j: nat)
    requires i <= j <= |s| && Spaces(s[i..j]) && !Space(At(s, j))
    ensures SkipSpace(s, i) == j
    decreases j - i
  {
    if i < j {
      assert s[i] == s[i..j][0];
      assert s[i + 1..j] == s[i..j][1..];
      SkipExact(s, i + 1, j);
    }
  }

  lemma {:induction false} RunExact(s: string, i: nat, j: nat)
    requires i <= j <= |s| && (forall k :: i <= k < j ==> Digit(s[k])) && !Digit(At(s, j))
    ensures RunEnd(s, i) == j
    decreases j - i
  {
    if i < j { RunExact(s, i + 1, j); }
  }

  lemma DecimalReads(s: string, i: nat, j: nat, n: nat)
    requires Writes(s, i, j, n) && !Digit(At(s, j))
    ensures Decimal(s, i) == Number(n, j)
  {
    forall k | i <= k < j ensures Digit(s[k]) { assert s[k] == s[i..j][k - i]; }
    RunExact(s, i, j);
  }

  lemma DecimalWrites(s: string, i: nat)
    requires i <= |s| && Decimal(s, i).Number?
    ensures Writes(s, i, Decimal(s, i).next, Decimal(s, i).value) && !Digit(At(s, Decimal(s, i).next))
  {
  }

  lemma LeadingSpaces(v: string, i: nat)
    requires i <= |v| && Spaces(v[..i]) && !Space(At(v, i))
    ensures SkipSpace(v, 0) == i
  {
    assert v[0..i] == v[..i];
    SkipExact(v, 0, i);
  }

  lemma TrailingSpaces(v: string, j: nat)
    requires j <= |v|
    ensures SkipSpace(v, j) == |v| <==> Spaces(v[j..])
  {
    assert v[j..|v|] == v[j..];
    if Spaces(v[j..]) { SkipExact(v, j, |v|); }
  }

  lemma LengthForward(r: Response, v: string)
    requires r.lengths == 0 && !TakeLength(r, v, SkipSpace(v, 0)).invalid
    ensures LengthText(v, TakeLength(r, v, SkipSpace(v, 0)).length)
  {
    var p := SkipSpace(v, 0);
    assert v[0..p] == v[..p];
    var d := Decimal(v, p);
    DecimalWrites(v, p);
    TrailingSpaces(v, d.next);
    assert LengthTextAt(v, p, d.next, d.value);
  }

  lemma LengthBackward(r: Response, v: string, i: nat, j: nat, n: nat)
    requires r.lengths == 0 && LengthTextAt(v, i, j, n)
    ensures TakeLength(r, v, SkipSpace(v, 0)) == r.(lengths := 1, length := n)
  {
    assert v[i] == v[i..j][0];
    LeadingSpaces(v, i);
    assert j < |v| ==> v[j] == v[j..][0];
    DecimalReads(v, i, j, n);
    TrailingSpaces(v, j);
  }

  /** A first Content-Length is taken exactly when its text is one number. */
  lemma LengthExact(r: Response, v: string)
    requires r.lengths == 0
    ensures var r' := TakeLength(r, v, SkipSpace(v, 0));
            && (!r'.invalid ==> LengthText(v, r'.length))
            && forall n :: LengthText(v, n) ==> r' == r.(lengths := 1, length := n)
  {
    if !TakeLength(r, v, SkipSpace(v, 0)).invalid { LengthForward(r, v); }
    forall n | LengthText(v, n) ensures TakeLength(r, v, SkipSpace(v, 0)) == r.(lengths := 1, length := n) {
      var i, j :| LengthTextAt(v, i, j, n);
      LengthBackward(r, v, i, j, n);
    }
  }

  lemma RangeForward(r: Response, v: string)
    requires r.ranges == 0 && !TakeRange(r, v, SkipSpace(v, 0)).invalid
    ensures var r' := TakeRange(r, v, SkipSpace(v, 0)); RangeText(v, r'.first, r'.last, r'.total)
  {
    var p := SkipSpace(v, 0);
    assert v[0..p] == v[..p];
    var f := RangeFields(r.(ranges := 1), v, p);
    TrailingSpaces(v, f.next);
    FieldsWritten(r.(ranges := 1), v, p);
  }

  lemma FieldsWritten(r: Response, v: string, p: nat)
    requires p <= |v| && Spaces(v[..p]) && RangeFields(r, v, p).next != 0 && Spaces(v[RangeFields(r, v, p).next..])
    ensures var f := RangeFields(r, v, p).r; RangeText(v, f.first, f.last, f.total)
  {
    var a, b, c := FieldsRead(r, v, p);
    WrittenAt(v, p, a, b, c);
  }

  lemma FieldsRead(r: Response, v: string, p: nat) returns (a: Number, b: Number, c: Number)
    requires p <= |v| && RangeFields(r, v, p).next != 0
    ensures StartsAt(v, p, BYTES) && a == Decimal(v, p + |BYTES|) && a.Number? && a.next < |v| && At(v, a.next) == '-'
    ensures b == Decimal(v, a.next + 1) && b.Number? && b.next < |v| && At(v, b.next) == '/'
    ensures c == Decimal(v, b.next + 1) && c.Number?
    ensures RangeFields(r, v, p) == Fields(r.(first := a.value, last := b.value, total := c.value), c.next)
  {
    a := Decimal(v, p + |BYTES|);
    b := Decimal(v, a.next + 1);
    c := Decimal(v, b.next + 1);
  }

  lemma WrittenAt(v: string, p: nat, a: Number, b: Number, c: Number)
    requires p <= |v| && Spaces(v[..p]) && StartsAt(v, p, BYTES)
    requires a == Decimal(v, p + |BYTES|) && a.Number? && At(v, a.next) == '-' && a.next < |v|
    requires b == Decimal(v, a.next + 1) && b.Number? && At(v, b.next) == '/' && b.next < |v|
    requires c == Decimal(v, b.next + 1) && c.Number? && Spaces(v[c.next..])
    ensures RangeText(v, a.value, b.value, c.value)
  {
    DecimalWrites(v, p + |BYTES|);
    DecimalWrites(v, a.next + 1);
    DecimalWrites(v, b.next + 1);
    Assembled(v, p, a, b, c);
  }

  lemma Assembled(v: string, p: nat, a: Number, b: Number, c: Number)
    requires p + |BYTES| <= |v| && Spaces(v[..p]) && StartsAt(v, p, BYTES) && a.Number? && b.Number? && c.Number?
    requires Writes(v, p + |BYTES|, a.next, a.value) && a.next < |v| && v[a.next] == '-'
    requires Writes(v, a.next + 1, b.next, b.value) && b.next < |v| && v[b.next] == '/'
    requires Writes(v, b.next + 1, c.next, c.value) && Spaces(v[c.next..])
    ensures RangeText(v, a.value, b.value, c.value)
  {
    assert RangeTextAt(v, p, (a.next, b.next, c.next), a.value, b.value, c.value);
  }

  lemma LastReads(r: Response, v: string, p: nat, b: nat, c: nat, last: nat, total: nat)
    requires p < b < c <= |v| && Decimal(v, p) == Number(last, b) && v[b] == '/'
    requires Decimal(v, b + 1) == Number(total, c)
    ensures LastField(r, v, p) == Fields(r.(last := last, total := total), c)
  {
  }

  lemma RangeReads(r: Response, v: string, i: nat, a: nat, b: nat, c: nat, first: nat, last: nat, total: nat)
    requires r.ranges == 0 && i + |BYTES| < a < b < c <= |v| && v[i..i + |BYTES|] == BYTES
    requires Decimal(v, i + |BYTES|) == Number(first, a) && v[a] == '-'
    requires a + 1 < b && Decimal(v, a + 1) == Number(last, b) && v[b] == '/'
    requires Decimal(v, b + 1) == Number(total, c) && SkipSpace(v, c) == |v|
    ensures TakeRange(r, v, i) == r.(ranges := 1, first := first, last := last, total := total)
  {
    LastReads(r.(ranges := 1, first := first), v, a + 1, b, c, last, total);
  }

  lemma RangeBackward(r: Response, v: string, i: nat, cut: (nat, nat, nat), first: nat, last: nat, total: nat)
    requires r.ranges == 0 && RangeTextAt(v, i, cut, first, last, total)
    ensures TakeRange(r, v, SkipSpace(v, 0)) == r.(ranges := 1, first := first, last := last, total := total)
  {
    var (a, b, c) := cut;
    assert v[i] == v[i..i + |BYTES|][0];
    LeadingSpaces(v, i);
    DecimalReads(v, i + |BYTES|, a, first);
    DecimalReads(v, a + 1, b, last);
    assert c < |v| ==> v[c] == v[c..][0];
    DecimalReads(v, b + 1, c, total);
    TrailingSpaces(v, c);
    RangeReads(r, v, i, a, b, c, first, last, total);
  }

  lemma IdentityForward(r: Response, v: string)
    requires !TakeEncoding(r, v, SkipSpace(v, 0)).invalid
    ensures IdentityText(v)
  {
    var p := SkipSpace(v, 0);
    assert v[0..p] == v[..p];
    TrailingSpaces(v, p + |IDENTITY|);
    assert IdentityTextAt(v, p);
  }

  lemma IdentityBackward(r: Response, v: string, i: nat)
    requires !r.invalid && IdentityTextAt(v, i)
    ensures !TakeEncoding(r, v, SkipSpace(v, 0)).invalid
  {
    var word := v[i..i + |IDENTITY|];
    assert IDENTITY[0] == 'i' && |IDENTITY| == 8;
    assert LowerChar(word[0]) == 'i' && v[i] == word[0];
    LeadingSpaces(v, i);
    TrailingSpaces(v, i + |IDENTITY|);
  }

  lemma IdentityExact(r: Response, v: string)
    requires !r.invalid
    ensures !TakeEncoding(r, v, SkipSpace(v, 0)).invalid <==> IdentityText(v)
  {
    if !TakeEncoding(r, v, SkipSpace(v, 0)).invalid { IdentityForward(r, v); }
    if IdentityText(v) {
      var i :| IdentityTextAt(v, i);
      IdentityBackward(r, v, i);
    }
  }

  // Whole responses.

  predicate Named(h: Header, key: string) { h.Header? && Lower(h.key) == key }

  function CountNamed(hs: seq<Header>, key: string): nat {
    if hs == [] then 0
    else CountNamed(hs[..|hs| - 1], key) + if Named(hs[|hs| - 1], key) then 1 else 0
  }

  ghost predicate WellFormed(h: Header) {
    && h.Header?
    && (Named(h, "content-length") ==> exists n :: LengthText(h.value, n))
    && (Named(h, "content-range") ==> exists f, l, t :: RangeText(h.value, f, l, t))
    && (Named(h, "content-encoding") ==> IdentityText(h.value))
    && !Named(h, "transfer-encoding")
  }

  ghost predicate AllWellFormed(hs: seq<Header>) {
    hs == [] || (AllWellFormed(hs[..|hs| - 1]) && WellFormed(hs[|hs| - 1]))
  }

  /** Every Content-Length writes `n`. */
  ghost predicate EveryLength(hs: seq<Header>, n: nat) {
    hs == [] || (EveryLength(hs[..|hs| - 1], n)
                 && (Named(hs[|hs| - 1], "content-length") ==> LengthText(hs[|hs| - 1].value, n)))
  }

  /** Every Content-Range writes these three. */
  ghost predicate EveryRange(hs: seq<Header>, f: nat, l: nat, t: nat) {
    hs == [] || (EveryRange(hs[..|hs| - 1], f, l, t)
                 && (Named(hs[|hs| - 1], "content-range") ==> RangeText(hs[|hs| - 1].value, f, l, t)))
  }

  /** What the record holds after some headers, in terms of their text. */
  ghost predicate Reflects(r: Response, status: nat, hs: seq<Header>) {
    && r.status == status
    && r.lengths == CountNamed(hs, "content-length") && r.ranges == CountNamed(hs, "content-range")
    && (!r.invalid <==> AllWellFormed(hs) && r.lengths <= 1 && r.ranges <= 1)
    && (!r.invalid ==> EveryLength(hs, r.length) && EveryRange(hs, r.first, r.last, r.total))
  }

  lemma {:induction false} NoneNamed(hs: seq<Header>)
    ensures CountNamed(hs, "content-length") == 0 ==> forall n :: EveryLength(hs, n)
    ensures CountNamed(hs, "content-range") == 0 ==> forall f, l, t :: EveryRange(hs, f, l, t)
  {
    if hs != [] { NoneNamed(hs[..|hs| - 1]); }
  }

  lemma RangeExact(r: Response, v: string)
    requires r.ranges == 0
    ensures var r' := TakeRange(r, v, SkipSpace(v, 0));
            && (!r'.invalid ==> RangeText(v, r'.first, r'.last, r'.total))
            && forall f, l, t :: RangeText(v, f, l, t) ==> r' == r.(ranges := 1, first := f, last := l, total := t)
  {
    if !TakeRange(r, v, SkipSpace(v, 0)).invalid { RangeForward(r, v); }
    forall f, l, t | RangeText(v, f, l, t)
      ensures TakeRange(r, v, SkipSpace(v, 0)) == r.(ranges := 1, first := f, last := l, total := t)
    {
      var i, cut :| RangeTextAt(v, i, cut, f, l, t);
      RangeBackward(r, v, i, cut, f, l, t);
    }
  }

  // The four kinds of header that matter, and the rest, each keep the record true to the text.

  lemma OneMoreReflects(r: Response, r': Response, status: nat, hs: seq<Header>, h: Header)
    requires Reflects(r, status, hs)
    requires r'.status == status
    requires r'.lengths == r.lengths + (if Named(h, "content-length") then 1 else 0)
    requires r'.ranges == r.ranges + if Named(h, "content-range") then 1 else 0
    requires !r'.invalid <==> !r.invalid && WellFormed(h) && r'.lengths <= 1 && r'.ranges <= 1
    requires !r'.invalid ==>
      if Named(h, "content-length") then LengthText(h.value, r'.length) else r'.length == r.length
    requires !r'.invalid ==>
      if Named(h, "content-range") then RangeText(h.value, r'.first, r'.last, r'.total)
      else r'.first == r.first && r'.last == r.last && r'.total == r.total
    ensures Reflects(r', status, hs + [h])
  {
    assert (hs + [h])[..|hs|] == hs;
    NoneNamed(hs);
  }

  lemma LengthHeader(r: Response, h: Header)
    requires Named(h, "content-length")
    ensures var r' := OnHeader(r, h);
            && r'.lengths == r.lengths + 1 && r'.status == r.status
            && (!r'.invalid ==> !r.invalid && LengthText(h.value, r'.length) && r.lengths == 0)
            && (r.lengths == 0 && (exists n :: LengthText(h.value, n)) && !r.invalid ==> !r'.invalid)
            && r'.ranges == r.ranges && r'.first == r.first && r'.last == r.last && r'.total == r.total
  {
    if r.lengths == 0 { LengthExact(r, h.value); }
  }

  lemma RangeHeader(r: Response, h: Header)
    requires Named(h, "content-range")
    ensures var r' := OnHeader(r, h);
            && r'.ranges == r.ranges + 1 && r'.status == r.status && r'.lengths == r.lengths && r'.length == r.length
            && (!r'.invalid ==> !r.invalid && RangeText(h.value, r'.first, r'.last, r'.total) && r.ranges == 0)
            && (r.ranges == 0 && (exists f, l, t :: RangeText(h.value, f, l, t)) && !r.invalid ==> !r'.invalid)
  {
    if r.ranges == 0 { RangeExact(r, h.value); }
  }

  lemma EncodingHeader(r: Response, h: Header)
    requires Named(h, "content-encoding")
    ensures OnHeader(r, h) == r.(invalid := r.invalid || !IdentityText(h.value))
  {
    if !r.invalid { IdentityExact(r, h.value); }
  }

  lemma OneMoreHeader(r: Response, status: nat, hs: seq<Header>, h: Header)
    requires Reflects(r, status, hs)
    ensures Reflects(OnHeader(r, h), status, hs + [h])
  {
    var r' := OnHeader(r, h);
    if Named(h, "content-length") { LengthHeader(r, h); }
    else if Named(h, "content-range") { RangeHeader(r, h); }
    else if Named(h, "content-encoding") { EncodingHeader(r, h); }
    OneMoreReflects(r, r', status, hs, h);
  }

  lemma {:induction false} HeadersReflect(status: nat, hs: seq<Header>)
    ensures Reflects(OnHeaders(Fresh(status), hs), status, hs)
  {
    if hs != [] {
      HeadersReflect(status, hs[..|hs| - 1]);
      OneMoreHeader(OnHeaders(Fresh(status), hs[..|hs| - 1]), status, hs[..|hs| - 1], hs[|hs| - 1]);
      assert hs == hs[..|hs| - 1] + [hs[|hs| - 1]];
    }
  }

  /** The response as text names exactly the bytes from `offset` to the end of the image. */
  ghost predicate Names(status: nat, hs: seq<Header>, offset: nat, imageLen: nat) {
    && offset < imageLen
    && AllWellFormed(hs)
    && CountNamed(hs, "content-length") == 1 && EveryLength(hs, imageLen - offset)
    && if offset == 0 then status == 200 && CountNamed(hs, "content-range") == 0
       else RESUME_MIN <= offset && status == 206 && CountNamed(hs, "content-range") == 1
            && EveryRange(hs, offset, imageLen - 1, imageLen)
  }

  lemma LengthUnique(v: string, n: nat, m: nat)
    requires LengthText(v, n) && LengthText(v, m)
    ensures n == m
  {
    LengthExact(Fresh(0), v);
  }

  lemma RangeUnique(v: string, f: nat, l: nat, t: nat, f': nat, l': nat, t': nat)
    requires RangeText(v, f, l, t) && RangeText(v, f', l', t')
    ensures f == f' && l == l' && t == t'
  {
    RangeExact(Fresh(0), v);
  }

  lemma {:induction false} EveryLengthUnique(hs: seq<Header>, n: nat, m: nat)
    requires CountNamed(hs, "content-length") > 0 && EveryLength(hs, n) && EveryLength(hs, m)
    ensures n == m
  {
    var h := hs[|hs| - 1];
    if Named(h, "content-length") { LengthUnique(h.value, n, m); } else { EveryLengthUnique(hs[..|hs| - 1], n, m); }
  }

  lemma {:induction false} EveryRangeUnique(hs: seq<Header>, f: nat, l: nat, t: nat, f': nat, l': nat, t': nat)
    requires CountNamed(hs, "content-range") > 0 && EveryRange(hs, f, l, t) && EveryRange(hs, f', l', t')
    ensures f == f' && l == l' && t == t'
  {
    var h := hs[|hs| - 1];
    if Named(h, "content-range") { RangeUnique(h.value, f, l, t, f', l', t'); }
    else { EveryRangeUnique(hs[..|hs| - 1], f, l, t, f', l', t'); }
  }

  /** The record accepts a response exactly when its text names the commanded bytes. */
  lemma AcceptedExactlyWhenNamed(status: nat, hs: seq<Header>, offset: nat, imageLen: nat)
    ensures ResponseValid(OnHeaders(Fresh(status), hs), offset, imageLen) <==> Names(status, hs, offset, imageLen)
  {
    HeadersReflect(status, hs);
    AcceptedWhenReflected(OnHeaders(Fresh(status), hs), status, hs, offset, imageLen);
  }

  lemma AcceptedWhenReflected(r: Response, status: nat, hs: seq<Header>, offset: nat, imageLen: nat)
    requires Reflects(r, status, hs)
    ensures ResponseValid(r, offset, imageLen) <==> Names(status, hs, offset, imageLen)
  {
    if offset < imageLen && !r.invalid {
      if r.lengths == 1 && EveryLength(hs, imageLen - offset) { EveryLengthUnique(hs, r.length, imageLen - offset); }
      if r.ranges == 1 && EveryRange(hs, offset, imageLen - 1, imageLen) {
        EveryRangeUnique(hs, r.first, r.last, r.total, offset, imageLen - 1, imageLen);
      }
    }
  }
}
