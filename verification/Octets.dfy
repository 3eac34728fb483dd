/** Bytes, and integers laid out low-order byte first as the file and the digest have them. */
module Octets {

  type byte = n: int | 0 <= n < 256

  function Power(k: nat): (p: nat)
    ensures p > 0
  {
    if k == 0 then 1 else 256 * Power(k - 1)
  }

  /** The `k` low-order bytes of `n`. */
  function Lay(n: nat, k: nat): (b: seq<byte>)
    ensures |b| == k
  {
    if k == 0 then [] else [n % 256] + Lay(n / 256, k - 1)
  }

  function Unsigned(b: seq<byte>): (n: nat) {
    if b == [] then 0 else b[0] + 256 * Unsigned(b[1..])
  }

  lemma {:induction false} UnsignedLay(n: nat, k: nat)
    requires n < Power(k)
    ensures Unsigned(Lay(n, k)) == n
  {
    if k > 0 {
      UnsignedLay(n / 256, k - 1);
    }
  }

  /** A signed field of `k` bytes, two's complement. */
  function LaySigned(n: int, k: nat): (b: seq<byte>)
    ensures |b| == k
  {
    Lay(n % Power(k), k)
  }

  function Signed(b: seq<byte>): int {
    var n := Unsigned(b);
    if 2 * n < Power(|b|) then n else n - Power(|b|)
  }

  predicate Fits(n: int, k: nat) { -2 * n <= Power(k) && 2 * n < Power(k) }

  lemma SignedLay(n: int, k: nat)
    requires Fits(n, k)
    ensures Signed(LaySigned(n, k)) == n
  {
    var p := Power(k);
    Residue(n, p);
    UnsignedLay(n % p, k);
  }

  lemma Residue(n: int, p: nat)
    requires 0 - p < n < p
    ensures n % p == if n < 0 then n + p else n
  {
    var k := n / p - if n < 0 then -1 else 0;
    assert p * k == (if n < 0 then n + p else n) - n % p;
    if k != 0 {
      Stretch(p, k);
    }
  }

  lemma Stretch(p: nat, k: int)
    requires k != 0
    ensures p * k >= p || p * k + p <= 0
  {
  }
}
