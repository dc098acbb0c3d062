/** Shared vocabulary: optional values, results, bytes and the big-endian
    integer encoding used by every length field on the wire. */
module Common {

  datatype Option<+T> = None | Some(value: T)

  datatype Result<+T, +E> = Ok(value: T) | Err(error: E) {
    predicate IsFailure() { Err? }
    function PropagateFailure<U>(): (r: Result<U, E>)
      requires Err?
    {
      Err(error)
    }
    function Extract(): (v: T)
      requires Ok?
    {
      value
    }
  }

  /** Outcome of a step that produces no value but may fail. */
  datatype Outcome<+E> = Pass | Fail(error: E)

  /** One octet, as an unsigned value. */
  type Byte = b: int | 0 <= b < 256

  function Min(a: int, b: int): (m: int) { if a <= b then a else b }

  function Pow256(n: nat): (r: nat)
    ensures r > 0
  {
    if n == 0 then 1 else 256 * Pow256(n - 1)
  }

  function Zeros(n: nat): (r: seq<Byte>)
    ensures |r| == n && forall i :: 0 <= i < n ==> r[i] == 0
  {
    seq(n, _ => 0)
  }

  /** The unsigned big-endian value of a byte string (how a parser reads an
      integer field of |s| bytes). */
  function DecodeUint(s: seq<Byte>): (v: nat)
    ensures v < Pow256(|s|)
  {
    if s == [] then 0 else DecodeUint(s[..|s| - 1]) * 256 + s[|s| - 1]
  }

  /** The n low-order bytes of v, most significant first (how a serializer
      writes an integer into an n-byte field; higher bytes are dropped and a
      negative value is written in two's complement). */
  function EncodeUint(v: int, n: nat): (s: seq<Byte>)
    ensures |s| == n
    decreases n
  {
    if n == 0 then [] else EncodeUint(v / 256, n - 1) + [v % 256]
  }

  lemma MulAtLeast(d: int, m: int)
    requires d >= 1 && m > 0
    ensures d * m >= m
  {
    assert d * m == (d - 1) * m + m;
  }

  lemma MulSub(a: int, b: int, m: int)
    ensures (a - b) * m == a * m - b * m
  {
  }

  /** Euclidean division is determined by its defining equation. */
  lemma ModUnique(x: int, m: int, k: int, r: int)
    requires m > 0 && 0 <= r < m && x == k * m + r
    ensures x % m == r && x / m == k
  {
    var q, s := x / m, x % m;
    assert x == q * m + s;
    assert 0 <= s < m;
    if q > k {
      MulSub(q, k, m);
      MulAtLeast(q - k, m);
      assert false;
    } else if q < k {
      MulSub(k, q, m);
      MulAtLeast(k - q, m);
      assert false;
    }
  }

  /** Splitting off the lowest byte commutes with reduction modulo 256^(n+1). */
  lemma ModSplit(v: int, p: nat)
    requires p > 0
    ensures ((v / 256) % p) * 256 + v % 256 == v % (256 * p)
  {
    var q, r := v / 256, v % 256;
    var a, b := q / p, q % p;
    assert v == 256 * q + r;
    assert q == a * p + b;
    assert v == a * (256 * p) + (b * 256 + r) by {
      assert 256 * q == 256 * (a * p) + 256 * b;
      assert 256 * (a * p) == a * (256 * p);
    }
    assert 0 <= b * 256 + r < 256 * p by {
      assert b <= p - 1;
      assert b * 256 <= (p - 1) * 256;
    }
    ModUnique(v, 256 * p, a, b * 256 + r);
  }

  /** Reading back a written field yields the value modulo the field's range. */
  lemma {:induction false} DecodeEncode(v: int, n: nat)
    ensures DecodeUint(EncodeUint(v, n)) == v % Pow256(n)
    decreases n
  {
    if n > 0 {
      var s := EncodeUint(v, n);
      assert s[..n - 1] == EncodeUint(v / 256, n - 1);
      DecodeEncode(v / 256, n - 1);
      ModSplit(v, Pow256(n - 1));
    }
  }

  /** Writing back a read field reproduces its bytes. */
  lemma {:induction false} EncodeDecode(s: seq<Byte>)
    ensures EncodeUint(DecodeUint(s), |s|) == s
  {
    if s != [] {
      var n := |s|;
      var init, last := s[..n - 1], s[n - 1];
      var v := DecodeUint(s);
      assert v == DecodeUint(init) * 256 + last;
      ModUnique(v, 256, DecodeUint(init), last);
      EncodeDecode(init);
      assert s == init + [last];
    }
  }

  /** Java's Arrays.copyOfRange: the bytes s[from..to], padded with zero
      bytes where `to` runs past the end of s. */
  function CopyOfRange(s: seq<Byte>, from: nat, to: nat): (r: seq<Byte>)
    requires from <= |s| && from <= to
    ensures |r| == to - from
    ensures to <= |s| ==> r == s[from..to]
    ensures forall i :: 0 <= i < to - from ==> r[i] == if from + i < |s| then s[from + i] else 0
  {
    if to <= |s| then s[from..to] else s[from..] + Zeros(to - |s|)
  }
}
