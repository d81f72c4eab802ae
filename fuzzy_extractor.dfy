/**
 * The code-offset fuzzy extractor (`fuzzy_extractor.py`): a biometric reading is turned
 * into a bit vector of the code length n, the helper data is that vector plus (over
 * GF(2)) the BCH codeword of a random key, and a later reading close enough to the first
 * recovers the key by decoding. The BCH code itself (Sage) is an oracle.
 */
module FuzzyExtraction {
  import opened Wrappers
  import opened Octets

  type Bit = b: int | 0 <= b < 2

  function Pow2(k: nat): (r: nat)
    ensures r >= 1
  {
    if k == 0 then 1 else 2 * Pow2(k - 1)
  }

  /** `x >> n` on a non-negative integer. */
  function Shr(x: nat, n: nat): nat
  {
    if n == 0 then x else Shr(x, n - 1) / 2
  }

  /** The k low-order bits of x, most significant first. */
  function Binary(x: nat, k: nat): (r: seq<Bit>)
    ensures |r| == k
  {
    if k == 0 then [] else Binary(x / 2, k - 1) + [x % 2]
  }

  /** The number a bit sequence spells, most significant bit first. */
  function Value(bits: seq<Bit>): (r: nat)
    ensures r < Pow2(|bits|)
  {
    if |bits| == 0 then 0 else 2 * Value(bits[..|bits| - 1]) + bits[|bits| - 1]
  }

  lemma {:induction false} ShrHalf(x: nat, m: nat)
    ensures Shr(x / 2, m) == Shr(x, m + 1)
  {
    if m > 0 {
      ShrHalf(x, m - 1);
    }
  }

  /** Bit i of Binary(x, k) is the one `(x >> (k - 1 - i)) & 1` extracts. */
  lemma {:induction false} BinaryShr(x: nat, k: nat, i: nat)
    requires i < k
    ensures Binary(x, k)[i] == Shr(x, k - 1 - i) % 2
  {
    if i < k - 1 {
      BinaryShr(x / 2, k - 1, i);
      ShrHalf(x, k - 2 - i);
    }
  }

  /** Writing x in k bits loses nothing when x fits. */
  lemma {:induction false} ValueBinary(x: nat, k: nat)
    requires x < Pow2(k)
    ensures Value(Binary(x, k)) == x
  {
    if k > 0 {
      var b := Binary(x, k);
      assert b[..k - 1] == Binary(x / 2, k - 1);
      ValueBinary(x / 2, k - 1);
    }
  }

  /** Reading k bits as a number and writing it back in k bits gives the same bits. */
  lemma {:induction false} BinaryValue(g: seq<Bit>)
    ensures Binary(Value(g), |g|) == g
  {
    if |g| > 0 {
      var v := Value(g[..|g| - 1]);
      assert Value(g) / 2 == v && Value(g) % 2 == g[|g| - 1];
      BinaryValue(g[..|g| - 1]);
      assert g == g[..|g| - 1] + [g[|g| - 1]];
    }
  }

  /** The bits of a byte string, eight per byte, each byte most significant bit first. */
  function BitsOf(b: seq<byte>): (r: seq<Bit>)
    ensures |r| == 8 * |b|
  {
    if |b| == 0 then [] else BitsOf(b[..|b| - 1]) + Binary(b[|b| - 1], 8)
  }

  lemma {:induction false} BitsOfAt(b: seq<byte>, t: nat, j: nat)
    requires t < |b| && j < 8
    ensures BitsOf(b)[8 * t + j] == Binary(b[t], 8)[j]
  {
    if t < |b| - 1 {
      BitsOfAt(b[..|b| - 1], t, j);
    }
  }

  /** `bytes_to_bits` yields 8 bits per byte, bit j of byte t being `(b[t] >> (7 - j)) & 1`. */
  lemma BytesToBitsMeaning(b: seq<byte>, t: nat, j: nat)
    requires t < |b| && j < 8
    ensures |BitsOf(b)| == 8 * |b|
    ensures BitsOf(b)[8 * t + j] == Shr(b[t], 7 - j) % 2
  {
    BitsOfAt(b, t, j);
    BinaryShr(b[t], 8, j);
  }

  /** `bytes_to_bits`. */
  method BytesToBits(b: seq<byte>) returns (bits: seq<Bit>)
    ensures bits == BitsOf(b)
  {
    bits := [];
    for t := 0 to |b|
      invariant bits == BitsOf(b[..t])
    {
      ghost var before := bits;
      for i := 0 to 8
        invariant bits == before + Binary(b[t], 8)[..i]
      {
        BinaryShr(b[t], 8, i);
        bits := bits + [Shr(b[t], 7 - i) % 2];
      }
      assert b[..t + 1][..t] == b[..t];
    }
    assert b[..|b|] == b;
  }

  /** Group t of eight bits, positions past the end read as 0. */
  function Group(bits: seq<Bit>, t: nat): (g: seq<Bit>)
    ensures |g| == 8
  {
    seq(8, j requires 0 <= j < 8 => if 8 * t + j < |bits| then bits[8 * t + j] else 0)
  }

  /** The bytes `bits_to_bytes` packs: one per started group of eight bits. */
  function Packed(bits: seq<Bit>): (r: seq<byte>)
    ensures |r| == (|bits| + 7) / 8
  {
    assert Pow2(8) == 256;
    seq((|bits| + 7) / 8, t requires 0 <= t => Value(Group(bits, t)))
  }

  /** `bits_to_bytes`: shift in eight bits per byte, zeros past the end. */
  method BitsToBytes(bits: seq<Bit>) returns (b: seq<byte>)
    ensures b == Packed(bits)
  {
    b := [];
    var i := 0;
    while i < |bits|
      invariant i == 8 * |b| && i <= |bits| + 7
      invariant forall s | 0 <= s < |b| :: b[s] == Value(Group(bits, s))
      decreases |bits| - i
    {
      ghost var g := Group(bits, |b|);
      var v: nat := 0;
      for j := 0 to 8
        invariant v == Value(g[..j])
      {
        assert g[..j + 1][..j] == g[..j];
        // `byte <<= 1; byte |= bit`: the shifted value is even, so the or adds the bit
        v := 2 * v + (if i + j < |bits| then bits[i + j] else 0);
      }
      assert g[..8] == g;
      assert Pow2(8) == 256;
      b := b + [v];
      i := i + 8;
    }
  }

  function Zeros(m: nat): (r: seq<Bit>)
    ensures |r| == m && forall i | 0 <= i < m :: r[i] == 0
  {
    seq(m, _ => 0)
  }

  lemma {:induction false} ValueZeros(g: seq<Bit>, m: nat)
    ensures Value(g + Zeros(m)) == Value(g) * Pow2(m)
  {
    if m > 0 {
      var h := g + Zeros(m);
      var shorter := g + Zeros(m - 1);
      assert h[..|h| - 1] == shorter;
      assert h[|h| - 1] == 0;
      assert Value(h) == 2 * Value(shorter);
      ValueZeros(g, m - 1);
      DoubleProduct(Value(g), Pow2(m - 1));
    } else {
      assert g + Zeros(0) == g;
    }
  }

  lemma DoubleProduct(x: nat, y: nat)
    ensures 2 * (x * y) == x * (2 * y)
  {
  }

  /**
   * A trailing partial group of r bits, after q full groups, becomes the last byte: its
   * bits in the high positions, zero-filled in the low 8 - r.
   */
  lemma PackedLastByte(bits: seq<Bit>, q: nat, r: nat)
    requires |bits| == 8 * q + r && 0 < r < 8
    ensures |Packed(bits)| == q + 1
    ensures Packed(bits)[q] == Value(bits[8 * q..]) * Pow2(8 - r)
  {
    var tail := bits[8 * q..];
    assert (|bits| + 7) / 8 == q + 1;
    GroupOfTail(bits, q, r);
    ValueZeros(tail, 8 - r);
    assert Packed(bits)[q] == Value(tail + Zeros(8 - r));
  }

  /** The group starting r bits before the end holds those bits and then zeros. */
  lemma GroupOfTail(bits: seq<Bit>, q: nat, r: nat)
    requires |bits| == 8 * q + r && 0 < r < 8
    ensures Group(bits, q) == bits[8 * q..] + Zeros(8 - r)
  {
    var tail := bits[8 * q..];
    var g := Group(bits, q);
    forall j | 0 <= j < 8
      ensures g[j] == (tail + Zeros(8 - r))[j]
    {
      if j < r {
        assert g[j] == tail[j];
      }
    }
  }

  /** `bits_to_bytes(bytes_to_bits(b)) == b`. */
  lemma BitsRoundTrip(b: seq<byte>)
    ensures Packed(BitsOf(b)) == b
  {
    var p := Packed(BitsOf(b));
    forall t | 0 <= t < |b|
      ensures p[t] == b[t]
    {
      forall j | 0 <= j < 8
        ensures Group(BitsOf(b), t)[j] == Binary(b[t], 8)[j]
      {
        BitsOfAt(b, t, j);
      }
      assert Group(BitsOf(b), t) == Binary(b[t], 8);
      ValueBinary(b[t], 8);
    }
  }

  /** Unpacking packed bits gives them back, followed by the zero fill. */
  lemma PackedPrefix(bits: seq<Bit>)
    ensures BitsOf(Packed(bits))[..|bits|] == bits
  {
    var p := Packed(bits);
    forall i | 0 <= i < |bits|
      ensures BitsOf(p)[i] == bits[i]
    {
      var t, j := i / 8, i % 8;
      BitsOfAt(p, t, j);
      BinaryValue(Group(bits, t));
    }
  }

  /** The bits zero-padded or truncated to exactly n (`generate`, `reproduce`). */
  function Fit(bits: seq<Bit>, n: nat): (r: seq<Bit>)
    ensures |r| == n
    ensures forall i | 0 <= i < n && i < |bits| :: r[i] == bits[i]
    ensures forall i | |bits| <= i < n :: r[i] == 0
  {
    if |bits| < n then bits + Zeros(n - |bits|) else bits[..n]
  }

  /** Helper data of n bits survives its round trip through bytes. */
  lemma FitPacked(bits: seq<Bit>)
    ensures Fit(BitsOf(Packed(bits)), |bits|) == bits
  {
    PackedPrefix(bits);
  }

  /** Addition of bit vectors over GF(2). */
  function Xor(a: seq<Bit>, b: seq<Bit>): (r: seq<Bit>)
    requires |a| == |b|
    ensures |r| == |a|
  {
    seq(|a|, i requires 0 <= i < |a| => if a[i] == b[i] then 0 else 1)
  }

  lemma XorCancel(w: seq<Bit>, c: seq<Bit>)
    requires |w| == |c|
    ensures Xor(w, Xor(w, c)) == c
  {
  }

  /** The number of ones: the Hamming weight. */
  function Weight(e: seq<Bit>): (r: nat)
    ensures r <= |e|
  {
    if |e| == 0 then 0 else Weight(e[..|e| - 1]) + e[|e| - 1]
  }

  /** A BCH code over GF(2) of length n and designed distance d, with dimension k. */
  datatype BchCode = BchCode(n: nat, d: nat, k: nat,
                             encode: seq<Bit> -> seq<Bit>,                 // message of k bits to codeword
                             decodeToMessage: seq<Bit> -> Option<seq<Bit>>) // None when decoding raises

  /** The reading's bits in the code's length. */
  function Reading(code: BchCode, w: seq<byte>): (r: seq<Bit>)
    ensures |r| == code.n
  {
    Fit(BitsOf(w), code.n)
  }

  /** The helper data P = w + codeword as bytes. */
  function HelperData(code: BchCode, w: seq<byte>, keyBits: seq<Bit>): (r: seq<byte>)
    requires |code.encode(keyBits)| == code.n
    ensures |r| == (code.n + 7) / 8
  {
    Packed(Xor(Reading(code, w), code.encode(keyBits)))
  }

  /** The key `reproduce` recovers from a reading and helper data. */
  function Recovered(code: BchCode, wPrime: seq<byte>, helper: seq<byte>): Option<seq<byte>>
  {
    match code.decodeToMessage(Xor(Reading(code, wPrime), Fit(BitsOf(helper), code.n)))
    case None => None
    case Some(keyBits) => Some(Packed(keyBits))
  }

  /** `generate`: the key drawn as k random bits is a parameter. */
  method Generate(code: BchCode, wBytes: seq<byte>, keyBits: seq<Bit>) returns (kBytes: seq<byte>, pBytes: seq<byte>)
    requires |keyBits| == code.k
    requires |code.encode(keyBits)| == code.n
    ensures kBytes == Packed(keyBits)
    ensures pBytes == HelperData(code, wBytes, keyBits)
  {
    var wBits := BytesToBits(wBytes);
    if |wBits| < code.n {
      wBits := wBits + Zeros(code.n - |wBits|);
    } else if |wBits| > code.n {
      wBits := wBits[..code.n];
    }
    assert wBits == Reading(code, wBytes);
    kBytes := BitsToBytes(keyBits);
    var codeword := code.encode(keyBits);
    var pBits := Xor(wBits, codeword);
    pBytes := BitsToBytes(pBits);
  }

  /** `reproduce`: None when decoding raises. */
  method Reproduce(code: BchCode, wPrimeBytes: seq<byte>, pBytes: seq<byte>) returns (kBytes: Option<seq<byte>>)
    ensures kBytes == Recovered(code, wPrimeBytes, pBytes)
  {
    var wPrimeBits := BytesToBits(wPrimeBytes);
    var pBits := BytesToBits(pBytes);
    if |wPrimeBits| < code.n {
      wPrimeBits := wPrimeBits + Zeros(code.n - |wPrimeBits|);
    } else if |wPrimeBits| > code.n {
      wPrimeBits := wPrimeBits[..code.n];
    }
    if |pBits| < code.n {
      pBits := pBits + Zeros(code.n - |pBits|);
    } else if |pBits| > code.n {
      pBits := pBits[..code.n];
    }
    assert wPrimeBits == Reading(code, wPrimeBytes) && pBits == Fit(BitsOf(pBytes), code.n);
    var codeword := Xor(wPrimeBits, pBits);
    var decoded := code.decodeToMessage(codeword);
    if decoded.None? {
      return None;
    }
    var keyBytes := BitsToBytes(decoded.value);
    return Some(keyBytes);
  }

  /** Reproducing with the enrolment reading hands the decoder the key's codeword exactly. */
  lemma ReproduceSameReading(code: BchCode, w: seq<byte>, keyBits: seq<Bit>)
    requires |code.encode(keyBits)| == code.n
    requires code.decodeToMessage(code.encode(keyBits)) == Some(keyBits)
    ensures Recovered(code, w, HelperData(code, w, keyBits)) == Some(Packed(keyBits))
  {
    var pBits := Xor(Reading(code, w), code.encode(keyBits));
    FitPacked(pBits);
    XorCancel(Reading(code, w), code.encode(keyBits));
  }

  lemma XorRegroup(c: seq<Bit>, w: seq<Bit>, v: seq<Bit>)
    requires |c| == |w| == |v|
    ensures Xor(v, Xor(w, c)) == Xor(c, Xor(w, v))
  {
  }

  /**
   * A later reading within t bit flips of the enrolment (after fitting to n bits) recovers
   * the key, for a decoder that corrects up to t errors around the key's codeword.
   */
  lemma ReproduceNearbyReading(code: BchCode, w: seq<byte>, wPrime: seq<byte>, keyBits: seq<Bit>, t: nat)
    requires |code.encode(keyBits)| == code.n
    requires forall e | |e| == code.n && Weight(e) <= t ::
      code.decodeToMessage(Xor(code.encode(keyBits), e)) == Some(keyBits)
    requires Weight(Xor(Reading(code, w), Reading(code, wPrime))) <= t
    ensures Recovered(code, wPrime, HelperData(code, w, keyBits)) == Some(Packed(keyBits))
  {
    var c := code.encode(keyBits);
    var pBits := Xor(Reading(code, w), c);
    FitPacked(pBits);
    XorRegroup(c, Reading(code, w), Reading(code, wPrime));
    assert Xor(Reading(code, wPrime), pBits) == Xor(c, Xor(Reading(code, w), Reading(code, wPrime)));
  }
}
