/** The claim code: eleven-bit word indices out of a digest, and the same bits packed.
    Bits are numbered from the top of the first byte. */
module Bip39 {

  const BITS_PER_WORD: nat := 11
  const WORD_COUNT: nat := 2048

  type Bytes = seq<bv8>

  /** Bit `k` of a byte, counted from the top. */
  function Bit(x: bv8, k: nat): bv8
    requires k < 8
  {
    (x >> (7 - k)) & 1
  }

  function Value(bit: bv8): nat { if bit == 0 then 0 else 1 }

  function BitAt(data: Bytes, i: nat): nat
    requires i < 8 * |data|
  {
    Value(Bit(data[i / 8], i % 8))
  }

  /** The number that `n` bits from `off` on write. */
  function Field(data: Bytes, off: nat, n: nat): (v: nat)
    requires off + n <= 8 * |data|
  {
    if n == 0 then 0 else 2 * Field(data, off, n - 1) + BitAt(data, off + n - 1)
  }

  function Pow2(n: nat): nat { if n == 0 then 1 else 2 * Pow2(n - 1) }

  lemma {:induction false} FieldBounded(data: Bytes, off: nat, n: nat)
    requires off + n <= 8 * |data|
    ensures Field(data, off, n) < Pow2(n)
  {
    if n > 0 { FieldBounded(data, off, n - 1); }
  }

  lemma Pow11()
    ensures Pow2(BITS_PER_WORD) == WORD_COUNT
  {
    assert Pow2(3) == 8;
    assert Pow2(6) == 64;
    assert Pow2(9) == 512;
  }

  method Take11(data: Bytes, off: nat) returns (v: nat)
    requires off + BITS_PER_WORD <= 8 * |data|
    ensures v == Field(data, off, BITS_PER_WORD) && v < WORD_COUNT
  {
    v := 0;
    for i := 0 to BITS_PER_WORD
      invariant v == Field(data, off, i)
    {
      var b := off + i;
      var bit := (data[b / 8] >> (7 - b % 8)) & 1;
      v := 2 * v + if bit == 0 then 0 else 1;
    }
    FieldBounded(data, off, BITS_PER_WORD);
    Pow11();
  }

  // Packing.

  function Put(x: bv8, k: nat, bit: bv8): bv8
    requires k < 8
  {
    x | (bit << (7 - k))
  }

  lemma PutShifted(x: bv8, b: bv8, s: bv8, t: bv8)
    requires b <= 1 && s < 8 && t < 8
    ensures ((x | (b << s)) >> t) & 1 == if s == t then ((x >> t) & 1) | b else (x >> t) & 1
  {
  }

  lemma PutBit(x: bv8, k: nat, b: bv8, m: nat)
    requires k < 8 && m < 8 && b <= 1
    ensures Bit(Put(x, k, b), m) == if m == k then Bit(x, m) | b else Bit(x, m)
  {
    PutShifted(x, b, (7 - k) as bv8, (7 - m) as bv8);
  }

  lemma BitsMakeByte(x: bv8, y: bv8)
    requires forall k :: 0 <= k < 8 ==> Bit(x, k) == Bit(y, k)
    ensures x == y
  {
    assert Bit(x, 0) == Bit(y, 0) && Bit(x, 1) == Bit(y, 1) && Bit(x, 2) == Bit(y, 2) && Bit(x, 3) == Bit(y, 3);
    assert Bit(x, 4) == Bit(y, 4) && Bit(x, 5) == Bit(y, 5) && Bit(x, 6) == Bit(y, 6) && Bit(x, 7) == Bit(y, 7);
  }

  lemma BitIsSmall(x: bv8, k: nat)
    requires k < 8
    ensures Bit(x, k) <= 1
  {
  }

  /** The first `done` bits are the digest's, the rest zero. */
  predicate BitsDone(out: Bytes, digest: Bytes, done: nat) {
    && done <= 8 * |digest|
    && forall j, k :: 0 <= j < |out| && 0 <= k < 8 ==>
         Bit(out[j], k) == if 8 * j + k < done then Bit(digest[j], k) else 0
  }

  /** Exactly as many bytes as the bits need, unused low bits zero. */
  predicate PackedAs(out: Bytes, digest: Bytes, nbits: nat) {
    |out| == (nbits + 7) / 8 && BitsDone(out, digest, nbits)
  }

  lemma OneMoreBit(out: Bytes, digest: Bytes, i: nat)
    requires i < 8 * |digest| && i / 8 < |out| && BitsDone(out, digest, i)
    ensures BitsDone(out[i / 8 := Put(out[i / 8], i % 8, Bit(digest[i / 8], i % 8))], digest, i + 1)
  {
    var at, bit := i / 8, Bit(digest[i / 8], i % 8);
    var x := Put(out[at], i % 8, bit);
    BitIsSmall(digest[at], i % 8);
    forall k | 0 <= k < 8 ensures Bit(x, k) == if 8 * at + k < i + 1 then Bit(digest[at], k) else 0 {
      PutBit(out[at], i % 8, bit, k);
    }
  }

  method PackTopBits(digest: Bytes, nbits: int, out: array<bv8>) returns (n: int)
    modifies out
    ensures n == if nbits <= 0 || 8 * |digest| < nbits || out.Length < (nbits + 7) / 8 then -1 else (nbits + 7) / 8
    ensures n >= 0 ==> PackedAs(out[..n], digest, nbits) && out[n..] == old(out[n..])
    ensures n < 0 ==> out[..] == old(out[..])
  {
    if nbits <= 0 { return -1; }
    var nbytes := (nbits + 7) / 8;
    if 8 * |digest| < nbits || out.Length < nbytes { return -1; }
    for i := 0 to nbytes
      invariant forall j :: 0 <= j < i ==> out[j] == 0
      invariant out[nbytes..] == old(out[nbytes..])
    {
      out[i] := 0;
    }
    assert forall k :: 0 <= k < 8 ==> Bit(0, k) == 0 by { ZeroBits(); }
    for i := 0 to nbits
      invariant BitsDone(out[..nbytes], digest, i)
      invariant out[nbytes..] == old(out[nbytes..])
    {
      var bit := (digest[i / 8] >> (7 - i % 8)) & 1;
      OneMoreBit(out[..nbytes], digest, i);
      ghost var was := out[..nbytes];
      out[i / 8] := out[i / 8] | (bit << (7 - i % 8));
      assert out[..nbytes] == was[i / 8 := Put(was[i / 8], i % 8, bit)];
    }
    return nbytes;
  }

  lemma ZeroBits()
    ensures forall k :: 0 <= k < 8 ==> Bit(0, k) == 0
  {
    forall k | 0 <= k < 8 ensures Bit(0, k) == 0 {
      var s := (7 - k) as bv8;
      assert (0 as bv8) >> s == 0;
    }
  }

  // The two readings of a digest agree.

  lemma PackedBit(out: Bytes, digest: Bytes, nbits: nat, i: nat)
    requires PackedAs(out, digest, nbits) && i < 8 * |out|
    ensures BitAt(out, i) == if i < nbits then BitAt(digest, i) else 0
  {
    assert i == 8 * (i / 8) + i % 8;
    assert Bit(out[i / 8], i % 8) == if i < nbits then Bit(digest[i / 8], i % 8) else 0;
  }

  lemma {:induction false} SameBitsSameField(a: Bytes, b: Bytes, off: nat, n: nat)
    requires off + n <= 8 * |a| && off + n <= 8 * |b|
    requires forall i :: off <= i < off + n ==> BitAt(a, i) == BitAt(b, i)
    ensures Field(a, off, n) == Field(b, off, n)
  {
    if n > 0 { SameBitsSameField(a, b, off, n - 1); }
  }

  lemma {:induction false} SameFieldSameBits(a: Bytes, b: Bytes, off: nat, n: nat)
    requires off + n <= 8 * |a| && off + n <= 8 * |b| && Field(a, off, n) == Field(b, off, n)
    ensures forall i :: off <= i < off + n ==> BitAt(a, i) == BitAt(b, i)
  {
    if n > 0 { SameFieldSameBits(a, b, off, n - 1); }
  }

  /** The index of the `w`-th word. */
  function WordIndex(data: Bytes, w: nat): nat
    requires BITS_PER_WORD * (w + 1) <= 8 * |data|
  {
    Field(data, BITS_PER_WORD * w, BITS_PER_WORD)
  }

  predicate SameWords(a: Bytes, b: Bytes, n: nat)
    requires BITS_PER_WORD * n <= 8 * |a| && BITS_PER_WORD * n <= 8 * |b|
  {
    forall w :: 0 <= w < n ==> WordIndex(a, w) == WordIndex(b, w)
  }

  /** The packed bytes give the same words as the digest they came from. */
  lemma PackedWordsAgree(out: Bytes, digest: Bytes, n: nat)
    requires BITS_PER_WORD * n <= 8 * |digest| && PackedAs(out, digest, BITS_PER_WORD * n)
    ensures SameWords(out, digest, n)
  {
    forall w | 0 <= w < n ensures WordIndex(out, w) == WordIndex(digest, w) {
      var off := BITS_PER_WORD * w;
      forall i | off <= i < off + BITS_PER_WORD ensures BitAt(out, i) == BitAt(digest, i) {
        PackedBit(out, digest, BITS_PER_WORD * n, i);
      }
      SameBitsSameField(out, digest, off, BITS_PER_WORD);
    }
  }

  lemma PackedEqual(p: Bytes, q: Bytes, a: Bytes, b: Bytes, nbits: nat)
    requires PackedAs(p, a, nbits) && PackedAs(q, b, nbits)
    requires forall i :: 0 <= i < nbits ==> BitAt(a, i) == BitAt(b, i)
    ensures p == q
  {
    forall j | 0 <= j < |p| ensures p[j] == q[j] {
      forall k | 0 <= k < 8 ensures Bit(p[j], k) == Bit(q[j], k) {
        if 8 * j + k < nbits {
          assert BitAt(a, 8 * j + k) == BitAt(b, 8 * j + k);
          BitIsSmall(a[j], k);
          BitIsSmall(b[j], k);
        }
      }
      BitsMakeByte(p[j], q[j]);
    }
  }

  /** Two digests pack to the same bytes exactly when they give the same words. */
  lemma SamePackExactlySameWords(p: Bytes, q: Bytes, a: Bytes, b: Bytes, n: nat)
    requires BITS_PER_WORD * n <= 8 * |a| && BITS_PER_WORD * n <= 8 * |b|
    requires PackedAs(p, a, BITS_PER_WORD * n) && PackedAs(q, b, BITS_PER_WORD * n)
    ensures p == q <==> SameWords(a, b, n)
  {
    PackedWordsAgree(p, a, n);
    PackedWordsAgree(q, b, n);
    if SameWords(a, b, n) {
      forall i | 0 <= i < BITS_PER_WORD * n ensures BitAt(a, i) == BitAt(b, i) {
        var w := i / BITS_PER_WORD;
        assert WordIndex(a, w) == WordIndex(b, w);
        SameFieldSameBits(a, b, BITS_PER_WORD * w, BITS_PER_WORD);
      }
      PackedEqual(p, q, a, b, BITS_PER_WORD * n);
    }
  }

  // The spoken code.

  function Indices(data: Bytes, n: nat): (r: seq<nat>)
    requires BITS_PER_WORD * n <= 8 * |data|
    ensures |r| == n
  {
    if n == 0 then [] else Indices(data, n - 1) + [WordIndex(data, n - 1)]
  }

  lemma {:induction false} IndexAt(data: Bytes, n: nat, w: nat)
    requires BITS_PER_WORD * n <= 8 * |data| && w < n
    ensures Indices(data, n)[w] == WordIndex(data, w) && Indices(data, n)[w] < WORD_COUNT
  {
    if w < n - 1 {
      IndexAt(data, n - 1, w);
    } else {
      FieldBounded(data, BITS_PER_WORD * w, BITS_PER_WORD);
      Pow11();
    }
  }

  /** Distinct words without spaces. */
  predicate WordList(words: seq<string>) {
    && |words| == WORD_COUNT
    && (forall i :: 0 <= i < |words| ==> ' ' !in words[i])
    && forall i, j :: 0 <= i < j < |words| ==> words[i] != words[j]
  }

  function Spoken(words: seq<string>, indices: seq<nat>): string
    requires forall i :: 0 <= i < |indices| ==> indices[i] < |words|
  {
    if indices == [] then ""
    else if |indices| == 1 then words[indices[0]]
    else Spoken(words, indices[..|indices| - 1]) + " " + words[indices[|indices| - 1]]
  }

  lemma IndicesInList(data: Bytes, n: nat)
    requires BITS_PER_WORD * n <= 8 * |data|
    ensures forall w :: 0 <= w < n ==> Indices(data, n)[w] < WORD_COUNT
  {
    forall w | 0 <= w < n ensures Indices(data, n)[w] < WORD_COUNT { IndexAt(data, n, w); }
  }

  function WordsOf(words: seq<string>, data: Bytes, n: nat): string
    requires |words| == WORD_COUNT && BITS_PER_WORD * n <= 8 * |data|
  {
    IndicesInList(data, n);
    Spoken(words, Indices(data, n))
  }

  lemma WordsStep(words: seq<string>, data: Bytes, w: nat)
    requires |words| == WORD_COUNT && BITS_PER_WORD * (w + 1) <= 8 * |data|
    ensures WordIndex(data, w) < WORD_COUNT
    ensures WordsOf(words, data, w + 1)
         == WordsOf(words, data, w) + (if w > 0 then " " else "") + words[WordIndex(data, w)]
  {
    IndicesInList(data, w + 1);
    IndexAt(data, w + 1, w);
    var all := Indices(data, w + 1);
    assert all[..w] == Indices(data, w);
    if w == 0 { assert "" + "" + words[all[0]] == words[all[0]]; }
  }

  lemma {:induction false} WordsGrow(words: seq<string>, data: Bytes, k: nat, n: nat)
    requires |words| == WORD_COUNT && BITS_PER_WORD * n <= 8 * |data| && k <= n
    ensures |WordsOf(words, data, k)| <= |WordsOf(words, data, n)|
    decreases n
  {
    if k < n {
      WordsGrow(words, data, k, n - 1);
      WordsStep(words, data, n - 1);
    }
  }

  /** The first `k` words and the terminator fit a buffer of that size, one word more does not. */
  predicate LastFit(words: seq<string>, data: Bytes, n: nat, k: nat, size: nat)
    requires |words| == WORD_COUNT && BITS_PER_WORD * n <= 8 * |data|
  {
    k < n && |WordsOf(words, data, k)| < size <= |WordsOf(words, data, k + 1)|
  }

  /** A buffer with a text and its terminator written at the front. */
  function Written(buffer: string, text: string): (r: string)
    requires |text| < |buffer|
    ensures |r| == |buffer|
  {
    text + ['\0'] + buffer[|text| + 1..]
  }

  lemma Assembled(buffer: string, front: string, word: string, r: string)
    requires |front| + |word| < |buffer| == |r| && r[..|front|] == front
    requires forall i :: 0 <= i < |word| ==> r[|front| + i] == word[i]
    requires r[|front| + |word|] == '\0'
    requires forall i :: |front| + |word| < i < |r| ==> r[i] == buffer[i]
    ensures r == Written(buffer, front + word)
  {
  }

  /** A word, with a space in front of all but the first, and the terminator behind it. */
  method PutWord(out: array<char>, pos: nat, word: string, spaced: bool, ghost buffer: string, ghost text: string)
    returns (end: nat)
    requires pos == |text| < |buffer| == out.Length && out[..] == Written(buffer, text)
    requires pos + (if spaced then 1 else 0) + |word| < out.Length
    modifies out
    ensures end == pos + (if spaced then 1 else 0) + |word|
    ensures out[..] == Written(buffer, text + (if spaced then " " else "") + word)
  {
    ghost var front := text + if spaced then " " else "";
    assert forall i :: pos < i < |buffer| ==> out[..][i] == buffer[i];
    var from := pos;
    if spaced {
      out[from] := ' ';
      from := from + 1;
    }
    assert out[..from] == front;
    end := from + |word|;
    forall i | 0 <= i < |word| { out[from + i] := word[i]; }
    out[end] := '\0';
    assert out[..from] == front;
    Assembled(buffer, front, word, out[..]);
  }

  /** The words of a digest in a caller's buffer, terminator included; when the text is too
      long for it, as many words as fit. */
  method WordsFromBits(words: seq<string>, data: Bytes, nwords: int, out: array<char>) returns (n: int)
    requires |words| == WORD_COUNT
    modifies out
    ensures nwords <= 0 || out.Length == 0 || 8 * |data| < BITS_PER_WORD * nwords ==>
      n == -1 && out[..] == old(out[..])
    ensures nwords > 0 && out.Length > 0 && BITS_PER_WORD * nwords <= 8 * |data| ==>
      var text := WordsOf(words, data, nwords);
      if |text| < out.Length then n == |text| && out[..] == Written(old(out[..]), text)
      else
        && n == -1
        && exists k: nat ::
             LastFit(words, data, nwords, k, out.Length) && out[..] == Written(old(out[..]), WordsOf(words, data, k))
  {
    if nwords <= 0 || out.Length == 0 || 8 * |data| < BITS_PER_WORD * nwords { return -1; }
    ghost var buffer := out[..];
    var pos := 0;
    out[0] := '\0';
    for w := 0 to nwords
      invariant pos == |WordsOf(words, data, w)| < out.Length
      invariant out[..] == Written(buffer, WordsOf(words, data, w))
    {
      var idx := Take11(data, w * BITS_PER_WORD);
      WordsStep(words, data, w);
      var word := words[idx];
      if pos + |word| + (if w > 0 then 1 else 0) + 1 > out.Length {
        WordsGrow(words, data, w + 1, nwords);
        assert LastFit(words, data, nwords, w, out.Length);
        return -1;
      }
      pos := PutWord(out, pos, word, w > 0, buffer, WordsOf(words, data, w));
    }
    return pos;
  }

  lemma LongerHeadCutsWord(a: string, x: string, b: string, y: string)
    requires a + " " + x == b + " " + y && |a| < |b|
    ensures ' ' in x
  {
    assert (b + " " + y)[|b|] == ' ';
    assert (a + " " + x)[|b|] == x[|b| - |a| - 1];
  }

  lemma LastWordUnique(a: string, x: string, b: string, y: string)
    requires ' ' !in x && ' ' !in y && a + " " + x == b + " " + y
    ensures a == b && x == y
  {
    if |a| < |b| {
      LongerHeadCutsWord(a, x, b, y);
    } else if |b| < |a| {
      LongerHeadCutsWord(b, y, a, x);
    } else {
      assert a == (a + " " + x)[..|a|] && b == (b + " " + y)[..|b|];
      assert x == (a + " " + x)[|a| + 1..] && y == (b + " " + y)[|b| + 1..];
    }
  }

  /** Different indices are spoken differently: the code text names the packed bits. */
  lemma {:induction false} SpokenInjective(words: seq<string>, a: seq<nat>, b: seq<nat>)
    requires WordList(words) && |a| == |b|
    requires (forall i :: 0 <= i < |a| ==> a[i] < |words|) && forall i :: 0 <= i < |b| ==> b[i] < |words|
    requires Spoken(words, a) == Spoken(words, b)
    ensures a == b
  {
    if |a| == 1 {
      assert words[a[0]] == words[b[0]];
    } else if |a| > 1 {
      var k := |a| - 1;
      LastWordUnique(Spoken(words, a[..k]), words[a[k]], Spoken(words, b[..k]), words[b[k]]);
      SpokenInjective(words, a[..k], b[..k]);
      assert a == a[..k] + [a[k]] && b == b[..k] + [b[k]];
    }
  }

  /** Two digests are spoken alike exactly when they pack alike. */
  lemma SpokenExactlyPacked(words: seq<string>, p: Bytes, q: Bytes, a: Bytes, b: Bytes, n: nat)
    requires WordList(words) && BITS_PER_WORD * n <= 8 * |a| && BITS_PER_WORD * n <= 8 * |b|
    requires PackedAs(p, a, BITS_PER_WORD * n) && PackedAs(q, b, BITS_PER_WORD * n)
    ensures p == q <==> WordsOf(words, a, n) == WordsOf(words, b, n)
  {
    IndicesInList(a, n);
    IndicesInList(b, n);
    SamePackExactlySameWords(p, q, a, b, n);
    if Spoken(words, Indices(a, n)) == Spoken(words, Indices(b, n)) {
      SpokenInjective(words, Indices(a, n), Indices(b, n));
      forall w | 0 <= w < n ensures WordIndex(a, w) == WordIndex(b, w) {
        IndexAt(a, n, w);
        IndexAt(b, n, w);
      }
    }
    if SameWords(a, b, n) {
      forall w | 0 <= w < n ensures Indices(a, n)[w] == Indices(b, n)[w] {
        IndexAt(a, n, w);
        IndexAt(b, n, w);
      }
      assert Indices(a, n) == Indices(b, n);
    }
  }
}
