/** Image fingerprints: the 256-bit difference hash (dHash) printed as 64
    lower-case hex digits, and the Hamming similarity of two hex hashes.

    The source goes through Python integers in both directions: the dHash
    is `hex(int(bits, 2))[2:].zfill(64)` and the similarity reads each hash
    back with `bin(int(h, 16))[2:].zfill(4 * len(h))`. Those conversions
    are modelled here as they are written (HexValue, BinValue, HexDigits,
    BinDigits) and the round trips between them are proved. */
module Fingerprint {

  function Pow2(n: nat): (p: nat)
    ensures p >= 1
  {
    if n == 0 then 1 else 2 * Pow2(n - 1)
  }

  lemma Pow2Add4(n: nat)
    ensures Pow2(n + 4) == 16 * Pow2(n)
  {
    calc {
      Pow2(n + 4);
      2 * Pow2(n + 3);
      2 * (2 * Pow2(n + 2));
      2 * (2 * (2 * Pow2(n + 1)));
      2 * (2 * (2 * (2 * Pow2(n))));
    }
  }

  // ---------------------------------------------------------------------
  // Hex digits

  /** A digit `int(_, 16)` accepts. */
  predicate IsHexDigit(c: char) {
    ('0' <= c <= '9') || ('a' <= c <= 'f') || ('A' <= c <= 'F')
  }

  /** A digit `hex()` prints. */
  predicate IsLowerHexDigit(c: char) {
    ('0' <= c <= '9') || ('a' <= c <= 'f')
  }

  predicate IsHex(s: string) {
    forall i :: 0 <= i < |s| ==> IsHexDigit(s[i])
  }

  predicate IsLowerHex(s: string) {
    forall i :: 0 <= i < |s| ==> IsLowerHexDigit(s[i])
  }

  function DigitValue(c: char): (v: nat)
    requires IsHexDigit(c)
    ensures v < 16
    ensures '0' <= c <= '9' ==> v < 10
    ensures ('a' <= c <= 'f') || ('A' <= c <= 'F') ==> 10 <= v
  {
    if '0' <= c <= '9' then c as int - '0' as int
    else if 'a' <= c <= 'f' then c as int - 'a' as int + 10
    else c as int - 'A' as int + 10
  }

  /** The lower-case digit `hex()` prints for a value below 16. */
  function HexChar(d: nat): (c: char)
    requires d < 16
    ensures IsLowerHexDigit(c) && DigitValue(c) == d
  {
    if d < 10 then ('0' as int + d) as char else ('a' as int + d - 10) as char
  }

  /** `int(s, 16)` for a string made of hex digits. */
  function HexValue(s: string): (v: nat)
    requires IsHex(s)
    ensures v < Pow2(4 * |s|)
    decreases |s|
  {
    if s == [] then 0
    else
      Pow2Add4(4 * (|s| - 1));
      16 * HexValue(s[..|s| - 1]) + DigitValue(s[|s| - 1])
  }

  /** `hex(n)[2:].zfill(w)` for `n < 16**w`: exactly w lower-case digits. */
  function HexDigits(n: nat, w: nat): (s: string)
    requires n < Pow2(4 * w)
    ensures |s| == w && IsLowerHex(s) && IsHex(s)
  {
    if w == 0 then ""
    else
      Pow2Add4(4 * (w - 1));
      HexDigits(n / 16, w - 1) + [HexChar(n % 16)]
  }

  // ---------------------------------------------------------------------
  // Binary digits (a bit is `true` for '1'), most significant first

  /** `int(b, 2)`. */
  function BinValue(b: seq<bool>): (v: nat)
    ensures v < Pow2(|b|)
  {
    if b == [] then 0 else 2 * BinValue(b[..|b| - 1]) + (if b[|b| - 1] then 1 else 0)
  }

  /** `bin(n)[2:].zfill(w)` for `n < 2**w`: exactly w bits. */
  function BinDigits(n: nat, w: nat): (b: seq<bool>)
    requires n < Pow2(w)
    ensures |b| == w
  {
    if w == 0 then [] else BinDigits(n / 2, w - 1) + [n % 2 == 1]
  }

  lemma {:induction false} BinValueOfDigits(n: nat, w: nat)
    requires n < Pow2(w)
    ensures BinValue(BinDigits(n, w)) == n
  {
    if w > 0 {
      var b := BinDigits(n, w);
      assert b[..w - 1] == BinDigits(n / 2, w - 1);
      BinValueOfDigits(n / 2, w - 1);
    }
  }

  lemma {:induction false} BinDigitsOfValue(b: seq<bool>)
    ensures BinDigits(BinValue(b), |b|) == b
  {
    if b != [] {
      var n := |b|;
      var v := BinValue(b);
      assert v / 2 == BinValue(b[..n - 1]);
      BinDigitsOfValue(b[..n - 1]);
      assert b == b[..n - 1] + [b[n - 1]];
    }
  }

  lemma {:induction false} HexValueOfDigits(n: nat, w: nat)
    requires n < Pow2(4 * w)
    ensures HexValue(HexDigits(n, w)) == n
  {
    if w > 0 {
      Pow2Add4(4 * (w - 1));
      var s := HexDigits(n, w);
      assert s[..w - 1] == HexDigits(n / 16, w - 1);
      HexValueOfDigits(n / 16, w - 1);
    }
  }

  /** A base-16 digit split is unique. */
  lemma SplitDigit(a: nat, d: nat, b: nat, e: nat)
    requires d < 16 && e < 16
    requires 16 * a + d == 16 * b + e
    ensures a == b && d == e
  {
  }

  /** A lower-case hex digit is determined by its value. */
  lemma LowerDigitInjective(c: char, c': char)
    requires IsLowerHexDigit(c) && IsLowerHexDigit(c') && IsHexDigit(c) && IsHexDigit(c')
    requires DigitValue(c) == DigitValue(c')
    ensures c == c'
  {
  }

  /** Two lower-case hex strings of one length with one value are equal. */
  lemma {:induction false} HexValueInjective(s: string, t: string)
    requires IsLowerHex(s) && IsLowerHex(t) && |s| == |t|
    requires IsHex(s) && IsHex(t)
    requires HexValue(s) == HexValue(t)
    ensures s == t
  {
    if s != [] {
      var n := |s|;
      var s', t' := s[..n - 1], t[..n - 1];
      assert IsLowerHex(s') && IsLowerHex(t') && IsHex(s') && IsHex(t') by {
        assert forall i :: 0 <= i < n - 1 ==> s'[i] == s[i] && t'[i] == t[i];
      }
      SplitDigit(HexValue(s'), DigitValue(s[n - 1]), HexValue(t'), DigitValue(t[n - 1]));
      LowerDigitInjective(s[n - 1], t[n - 1]);
      HexValueInjective(s', t');
      assert s == s' + [s[n - 1]] && t == t' + [t[n - 1]];
    }
  }

  // ---------------------------------------------------------------------
  // Hamming similarity (_hash_similarity)

  /** The bit string the similarity compares: `bin(int(h, 16))[2:].zfill(4 * len(h))`. */
  function HashBits(h: string): (b: seq<bool>)
    requires IsHex(h)
    ensures |b| == 4 * |h|
  {
    BinDigits(HexValue(h), 4 * |h|)
  }

  /** Number of positions where two equally long bit strings differ. */
  function Diff(a: seq<bool>, b: seq<bool>): (d: nat)
    requires |a| == |b|
    ensures d <= |a|
    ensures d == 0 <==> a == b
  {
    if a == [] then 0
    else
      assert a == [a[0]] + a[1..] && b == [b[0]] + b[1..];
      (if a[0] != b[0] then 1 else 0) + Diff(a[1..], b[1..])
  }

  /** `_hash_similarity`: 0.0 when either hash is empty, the lengths differ
      or a hash is not hexadecimal (the `int(_, 16)` exception path);
      otherwise one minus the fraction of differing bits. */
  function HashSimilarity(h1: string, h2: string): (r: real)
    ensures 0.0 <= r <= 1.0
    ensures h1 == [] || h2 == [] || |h1| != |h2| ==> r == 0.0
  {
    if h1 == [] || h2 == [] || |h1| != |h2| then 0.0
    else if !IsHex(h1) || !IsHex(h2) then 0.0
    else
      var d, n := Diff(HashBits(h1), HashBits(h2)), 4 * |h1|;
      RatioInUnit(d, n);
      1.0 - (d as real) / (n as real)
  }

  lemma RatioInUnit(d: nat, n: nat)
    requires 0 < n && d <= n
    ensures 0.0 <= (d as real) / (n as real) <= 1.0
    ensures (d as real) / (n as real) == 0.0 <==> d == 0
    ensures d == n ==> (d as real) / (n as real) == 1.0
  {
    var q := (d as real) / (n as real);
    assert q * (n as real) == d as real;
  }

  lemma {:induction false} DiffSymmetric(a: seq<bool>, b: seq<bool>)
    requires |a| == |b|
    ensures Diff(a, b) == Diff(b, a)
  {
    if a != [] {
      DiffSymmetric(a[1..], b[1..]);
    }
  }

  lemma HashSimilaritySymmetric(h1: string, h2: string)
    ensures HashSimilarity(h1, h2) == HashSimilarity(h2, h1)
  {
    if h1 != [] && h2 != [] && |h1| == |h2| && IsHex(h1) && IsHex(h2) {
      DiffSymmetric(HashBits(h1), HashBits(h2));
    }
  }

  /** Similarity is exactly 1.0 iff both hashes are non-empty hex strings of
      one length denoting the same number. */
  lemma HashSimilarityOne(h1: string, h2: string)
    ensures HashSimilarity(h1, h2) == 1.0 <==>
      h1 != [] && |h1| == |h2| && IsHex(h1) && IsHex(h2) && HexValue(h1) == HexValue(h2)
  {
    if h1 != [] && h2 != [] && |h1| == |h2| && IsHex(h1) && IsHex(h2) {
      var b1, b2 := HashBits(h1), HashBits(h2);
      var d, n := Diff(b1, b2), 4 * |h1|;
      RatioInUnit(d, n);
      if HexValue(h1) != HexValue(h2) {
        BinValueOfDigits(HexValue(h1), n);
        BinValueOfDigits(HexValue(h2), n);
        assert b1 != b2;
      }
    }
  }

  /** For lower-case hashes, as the dHash prints them, similarity 1.0 means
      the very same non-empty string. */
  lemma HashSimilarityOneLower(h1: string, h2: string)
    requires IsLowerHex(h1) && IsLowerHex(h2)
    ensures HashSimilarity(h1, h2) == 1.0 <==> h1 != [] && h1 == h2
  {
    HashSimilarityOne(h1, h2);
    if HashSimilarity(h1, h2) == 1.0 {
      HexValueInjective(h1, h2);
    }
  }

  lemma {:induction false} DiffComplement(a: seq<bool>, b: seq<bool>)
    requires |a| == |b|
    requires forall i :: 0 <= i < |a| ==> b[i] == !a[i]
    ensures Diff(a, b) == |a|
  {
    if a != [] {
      DiffComplement(a[1..], b[1..]);
    }
  }

  /** Bit-complementary hashes have similarity 0.0. */
  lemma HashSimilarityComplement(h1: string, h2: string)
    requires h1 != [] && |h1| == |h2| && IsHex(h1) && IsHex(h2)
    requires forall i :: 0 <= i < 4 * |h1| ==> HashBits(h2)[i] == !HashBits(h1)[i]
    ensures HashSimilarity(h1, h2) == 0.0
  {
    DiffComplement(HashBits(h1), HashBits(h2));
    RatioInUnit(4 * |h1|, 4 * |h1|);
  }

  // ---------------------------------------------------------------------
  // Difference hash (_compute_image_hash, the part after decoding)

  /** Width and height of the grayscale grid the image is resized to. */
  const GridWidth: nat := 17
  const GridHeight: nat := 16

  /** The 256 dHash bits of a 17x16 grid stored row by row: bit
      `row * 16 + col` is set iff the pixel is brighter than its right
      neighbour. */
  function DHashBits(pixels: seq<int>): (b: seq<bool>)
    requires |pixels| == GridWidth * GridHeight
    ensures |b| == 256
  {
    seq(256, k requires 0 <= k < 256 =>
      pixels[(k / 16) * 17 + k % 16] > pixels[(k / 16) * 17 + k % 16 + 1])
  }

  lemma DHashBitAt(pixels: seq<int>, row: nat, col: nat)
    requires |pixels| == GridWidth * GridHeight
    requires row < 16 && col < 16
    ensures DHashBits(pixels)[row * 16 + col] ==
      (pixels[row * 17 + col] > pixels[row * 17 + col + 1])
  {
    var k := row * 16 + col;
    assert k / 16 == row && k % 16 == col;
  }

  /** `_compute_image_hash` once PIL has produced the 17x16 grayscale grid:
      64 lower-case hex digits whose bits, read back as the similarity
      reads them, are exactly the dHash bits of the grid. */
  method ComputeDHash(pixels: seq<int>) returns (h: string)
    requires |pixels| == GridWidth * GridHeight
    ensures |h| == 64 && IsLowerHex(h) && IsHex(h)
    ensures HashBits(h) == DHashBits(pixels)
  {
    var bits: seq<bool> := [];
    for row := 0 to 16
      invariant |bits| == row * 16
      invariant forall k :: 0 <= k < |bits| ==> bits[k] == DHashBits(pixels)[k]
    {
      for col := 0 to 16
        invariant |bits| == row * 16 + col
        invariant forall k :: 0 <= k < |bits| ==> bits[k] == DHashBits(pixels)[k]
      {
        DHashBitAt(pixels, row, col);
        bits := bits + [pixels[row * 17 + col] > pixels[row * 17 + col + 1]];
      }
    }
    var value := BinValue(bits);
    h := HexDigits(value, 64);
    HexValueOfDigits(value, 64);
    BinDigitsOfValue(bits);
  }
}
