/** Bytes, byte order and the result types shared by every other module. */
module Bytes {

  type Byte = x: int | 0 <= x < 256

  type Bytes = seq<Byte>

  datatype Option<+T> = None | Some(value: T)

  datatype Result<+T, +E> = Ok(value: T) | Err(error: E)

  function Zeros(n: nat): (b: Bytes)
    ensures |b| == n && forall i :: 0 <= i < n ==> b[i] == 0
  {
    seq(n, _ => 0)
  }

  /** Go's string order: bytewise lexicographic. */
  predicate Less(s: Bytes, t: Bytes) {
    if t == [] then false
    else if s == [] then true
    else s[0] < t[0] || (s[0] == t[0] && Less(s[1..], t[1..]))
  }

  lemma {:induction false} LessTrichotomy(s: Bytes, t: Bytes)
    ensures Less(s, t) ==> s != t && !Less(t, s)
    ensures s == t || Less(s, t) || Less(t, s)
  {
    if s != [] && t != [] {
      LessTrichotomy(s[1..], t[1..]);
      assert s == [s[0]] + s[1..] && t == [t[0]] + t[1..];
    }
  }

  lemma {:induction false} LessTransitive(s: Bytes, t: Bytes, u: Bytes)
    requires Less(s, t) && Less(t, u)
    ensures Less(s, u)
  {
    if s != [] && s[0] == t[0] && t[0] == u[0] {
      LessTransitive(s[1..], t[1..], u[1..]);
    }
  }

  /** s and t agree up to k, where s ends or has the smaller byte. */
  predicate LessAt(s: Bytes, t: Bytes, k: nat) {
    k <= |s| && k < |t| && s[..k] == t[..k] && (k == |s| || s[k] < t[k])
  }

  lemma {:induction false} LessIsLexicographic(s: Bytes, t: Bytes)
    ensures Less(s, t) <==> exists k: nat :: LessAt(s, t, k)
  {
    if s == [] || t == [] || s[0] != t[0] {
      if s != [] && t != [] {
        assert forall k: nat :: LessAt(s, t, k) && k > 0 ==> s[..k][0] == t[..k][0];
      }
      assert Less(s, t) ==> LessAt(s, t, 0);
    } else {
      LessIsLexicographic(s[1..], t[1..]);
      if Less(s[1..], t[1..]) {
        var k: nat :| LessAt(s[1..], t[1..], k);
        assert s[..k + 1] == [s[0]] + s[1..][..k] && t[..k + 1] == [t[0]] + t[1..][..k];
        assert LessAt(s, t, k + 1);
      }
      if k: nat :| LessAt(s, t, k) {
        assert s[1..][..k - 1] == s[..k][1..] && t[1..][..k - 1] == t[..k][1..];
        assert LessAt(s[1..], t[1..], k - 1);
      }
    }
  }

  /** Big-endian encoding on exactly `width` bytes, dropping higher bits as Go's conversions do. */
  function BigEndian(v: nat, width: nat): (b: Bytes)
    ensures |b| == width
  {
    if width == 0 then [] else BigEndian(v / 256, width - 1) + [v % 256]
  }

  function FromBigEndian(b: Bytes): (v: nat) {
    if b == [] then 0 else FromBigEndian(b[..|b| - 1]) * 256 + b[|b| - 1]
  }

  function Pow256(n: nat): (p: nat)
    ensures p > 0
  {
    if n == 0 then 1 else 256 * Pow256(n - 1)
  }

  lemma {:induction false} BigEndianRoundTrip(v: nat, width: nat)
    requires v < Pow256(width)
    ensures FromBigEndian(BigEndian(v, width)) == v
  {
    if width > 0 {
      BigEndianRoundTrip(v / 256, width - 1);
      var b := BigEndian(v, width);
      assert b[..|b| - 1] == BigEndian(v / 256, width - 1);
    }
  }

  /** High bytes come first. */
  lemma {:induction false} BigEndianDigit(v: nat, width: nat, i: nat)
    requires i < width
    ensures BigEndian(v, width)[i] == v / Pow256(width - 1 - i) % 256
    decreases width
  {
    if i < width - 1 {
      BigEndianDigit(v / 256, width - 1, i);
      DivideTwice(v, Pow256(width - 2 - i));
    }
  }

  lemma DivideTwice(v: nat, d: nat)
    requires d > 0
    ensures v / 256 / d == v / (256 * d)
  {
    var q, r := v / 256 / d, v / 256 % d;
    assert v / 256 == q * d + r;
    assert v == (q * d + r) * 256 + v % 256;
    assert v == q * (256 * d) + (r * 256 + v % 256);
    assert r * 256 + v % 256 < 256 * d;
    QuotientIs(v, 256 * d, q, r * 256 + v % 256);
  }

  lemma QuotientIs(v: nat, d: nat, q: nat, r: nat)
    requires d > 0 && r < d && v == q * d + r
    ensures v / d == q
  {
    SameQuotient(d, v / d, v % d, q, r);
  }

  lemma SameQuotient(d: nat, p: nat, s: nat, q: nat, r: nat)
    requires s < d && r < d && p * d + s == q * d + r
    ensures p == q
  {
    var x, y := p * d, q * d;
    assert (q - p) * d == y - x;
    if p < q {
      Multiplied(q - p, d);
    } else if q < p {
      Multiplied(p - q, d);
    }
  }

  lemma Multiplied(k: nat, d: nat)
    requires k >= 1
    ensures k * d >= d
  {
  }
}
