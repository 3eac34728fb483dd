/** MD5 (secure/md5.c) against RFC 1321. Words are 32 bits wide. */
module Md5 {
  import opened Octets

  type word = n: int | 0 <= n < 0x1_0000_0000

  function Wrap(n: int): word { n % 0x1_0000_0000 }

  /** Addition of words, modulo 2^32. */
  function Add(x: int, y: int): word { Wrap(x + y) }

  function Sum(a: int, b: int, c: int, d: int): word { Wrap(a + b + c + d) }

  // ----- words as bits: bit 0 is the remainder by two -----

  function Pow2(n: nat): (p: nat)
    ensures p > 0
  {
    if n == 0 then 1 else 2 * Pow2(n - 1)
  }

  /** A low bit below the bits of `high`. */
  function Push(high: nat, low: bool): (r: nat)
    ensures r / 2 == high && (r % 2 == 1 <==> low)
    ensures r <= 2 * high + 1
  {
    if low then 2 * high + 1 else 2 * high
  }

  function AndBits(x: nat, y: nat, n: nat): (r: nat)
    ensures r < Pow2(n)
  {
    if n == 0 then 0 else Push(AndBits(x / 2, y / 2, n - 1), x % 2 == 1 && y % 2 == 1)
  }

  function OrBits(x: nat, y: nat, n: nat): (r: nat)
    ensures r < Pow2(n)
  {
    if n == 0 then 0 else Push(OrBits(x / 2, y / 2, n - 1), x % 2 == 1 || y % 2 == 1)
  }

  function XorBits(x: nat, y: nat, n: nat): (r: nat)
    ensures r < Pow2(n)
  {
    if n == 0 then 0 else Push(XorBits(x / 2, y / 2, n - 1), x % 2 != y % 2)
  }

  function NotBits(x: nat, n: nat): (r: nat)
    ensures r < Pow2(n)
  {
    if n == 0 then 0 else Push(NotBits(x / 2, n - 1), x % 2 == 0)
  }

  lemma Pow2Values()
    ensures Pow2(8) == 0x100 && Pow2(16) == 0x1_0000 && Pow2(24) == 0x100_0000 && Pow2(32) == 0x1_0000_0000
  {
    assert Pow2(4) == 16;
    assert Pow2(8) == 256;
    assert Pow2(12) == 0x1000;
    assert Pow2(16) == 0x1_0000;
    assert Pow2(20) == 0x10_0000;
    assert Pow2(24) == 0x100_0000;
    assert Pow2(28) == 0x1000_0000;
  }

  function And(x: word, y: word): word { Pow2Values(); AndBits(x, y, 32) }

  function Or(x: word, y: word): word { Pow2Values(); OrBits(x, y, 32) }

  function Xor(x: word, y: word): word { Pow2Values(); XorBits(x, y, 32) }

  function Not(x: word): word { Pow2Values(); NotBits(x, 32) }

  function RotateLeft(x: word, s: nat): word
    requires s <= 32
  {
    Or(Wrap(x * Pow2(s)), Wrap(x / Pow2(32 - s)))
  }

  // ----- section 3.4 of RFC 1321 -----

  function F(x: word, y: word, z: word): word { Or(And(x, y), And(Not(x), z)) }

  function G(x: word, y: word, z: word): word { Or(And(x, z), And(y, Not(z))) }

  function H(x: word, y: word, z: word): word { Xor(Xor(x, y), z) }

  function I(x: word, y: word, z: word): word { Xor(y, Or(x, Not(z))) }

  // The table T of the RFC, one function a round.

  function T1(i: nat): word {
    if i == 0 then 0xd76aa478 else if i == 1 then 0xe8c7b756 else
    if i == 2 then 0x242070db else if i == 3 then 0xc1bdceee else
    if i == 4 then 0xf57c0faf else if i == 5 then 0x4787c62a else
    if i == 6 then 0xa8304613 else if i == 7 then 0xfd469501 else
    if i == 8 then 0x698098d8 else if i == 9 then 0x8b44f7af else
    if i == 10 then 0xffff5bb1 else if i == 11 then 0x895cd7be else
    if i == 12 then 0x6b901122 else if i == 13 then 0xfd987193 else
    if i == 14 then 0xa679438e else 0x49b40821
  }

  function T2(i: nat): word {
    if i == 16 then 0xf61e2562 else if i == 17 then 0xc040b340 else
    if i == 18 then 0x265e5a51 else if i == 19 then 0xe9b6c7aa else
    if i == 20 then 0xd62f105d else if i == 21 then 0x02441453 else
    if i == 22 then 0xd8a1e681 else if i == 23 then 0xe7d3fbc8 else
    if i == 24 then 0x21e1cde6 else if i == 25 then 0xc33707d6 else
    if i == 26 then 0xf4d50d87 else if i == 27 then 0x455a14ed else
    if i == 28 then 0xa9e3e905 else if i == 29 then 0xfcefa3f8 else
    if i == 30 then 0x676f02d9 else 0x8d2a4c8a
  }

  function T3(i: nat): word {
    if i == 32 then 0xfffa3942 else if i == 33 then 0x8771f681 else
    if i == 34 then 0x6d9d6122 else if i == 35 then 0xfde5380c else
    if i == 36 then 0xa4beea44 else if i == 37 then 0x4bdecfa9 else
    if i == 38 then 0xf6bb4b60 else if i == 39 then 0xbebfbc70 else
    if i == 40 then 0x289b7ec6 else if i == 41 then 0xeaa127fa else
    if i == 42 then 0xd4ef3085 else if i == 43 then 0x04881d05 else
    if i == 44 then 0xd9d4d039 else if i == 45 then 0xe6db99e5 else
    if i == 46 then 0x1fa27cf8 else 0xc4ac5665
  }

  function T4(i: nat): word {
    if i == 48 then 0xf4292244 else if i == 49 then 0x432aff97 else
    if i == 50 then 0xab9423a7 else if i == 51 then 0xfc93a039 else
    if i == 52 then 0x655b59c3 else if i == 53 then 0x8f0ccc92 else
    if i == 54 then 0xffeff47d else if i == 55 then 0x85845dd1 else
    if i == 56 then 0x6fa87e4f else if i == 57 then 0xfe2ce6e0 else
    if i == 58 then 0xa3014314 else if i == 59 then 0x4e0811a1 else
    if i == 60 then 0xf7537e82 else if i == 61 then 0xbd3af235 else
    if i == 62 then 0x2ad7d2bb else 0xeb86d391
  }

  function T(i: nat): word {
    if i < 16 then T1(i) else if i < 32 then T2(i) else if i < 48 then T3(i) else T4(i)
  }

  /** How far operation `i` rotates. */
  function Shift(i: nat): (s: nat)
    ensures 0 < s < 32
  {
    if i < 16 then Pick(i, 7, 12, 17, 22)
    else if i < 32 then Pick(i, 5, 9, 14, 20)
    else if i < 48 then Pick(i, 4, 11, 16, 23)
    else Pick(i, 6, 10, 15, 21)
  }

  function Pick(i: nat, s: nat, t: nat, u: nat, v: nat): nat {
    if i % 4 == 0 then s else if i % 4 == 1 then t else if i % 4 == 2 then u else v
  }

  /** Which word of the block operation `i` reads. */
  function Index(i: nat): (k: nat)
    ensures k < 16
  {
    if i < 16 then i else if i < 32 then (5 * i + 1) % 16 else if i < 48 then (3 * i + 5) % 16 else 7 * i % 16
  }

  function Mix(i: nat, x: word, y: word, z: word): word {
    if i < 16 then F(x, y, z) else if i < 32 then G(x, y, z) else if i < 48 then H(x, y, z) else I(x, y, z)
  }

  /** What [abcd k s i] assigns to its first register. */
  function Assigned(i: nat, a: word, b: word, c: word, d: word, block: seq<word>): word
    requires |block| == 16
  {
    Add(b, RotateLeft(Sum(a, Mix(i, b, c, d), block[Index(i)], T(i)), Shift(i)))
  }

  datatype Registers = Registers(a: word, b: word, c: word, d: word)

  /** Operation `i`, with the registers in the order the RFC lists them: ABCD, DABC, CDAB, BCDA. */
  function Operation(r: Registers, block: seq<word>, i: nat): Registers
    requires |block| == 16
  {
    if i % 4 == 0 then r.(a := Assigned(i, r.a, r.b, r.c, r.d, block))
    else if i % 4 == 1 then r.(d := Assigned(i, r.d, r.a, r.b, r.c, block))
    else if i % 4 == 2 then r.(c := Assigned(i, r.c, r.d, r.a, r.b, block))
    else r.(b := Assigned(i, r.b, r.c, r.d, r.a, block))
  }

  function Operations(r: Registers, block: seq<word>, n: nat): Registers
    requires |block| == 16
  {
    if n == 0 then r else Operation(Operations(r, block, n - 1), block, n - 1)
  }

  lemma NoOperations(r: Registers, block: seq<word>)
    requires |block| == 16
    ensures Operations(r, block, 0) == r
  {
  }

  /** The four rounds on one block, and the final additions. */
  function Transform(r: Registers, block: seq<word>): Registers
    requires |block| == 16
  {
    var q := Operations(r, block, 64);
    Registers(Add(r.a, q.a), Add(r.b, q.b), Add(r.c, q.c), Add(r.d, q.d))
  }

  // ----- the code -----

  function F1(x: word, y: word, z: word): word { Xor(z, And(x, Xor(y, z))) }

  function F2(x: word, y: word, z: word): word { F1(z, x, y) }

  function F3(x: word, y: word, z: word): word { Xor(Xor(x, y), z) }

  function F4(x: word, y: word, z: word): word { Xor(y, Or(x, Not(z))) }

  /** The central step: add, rotate, add. */
  function Md5Step(f: word, w: word, x: word, data: word, s: nat): word
    requires 0 < s < 32
  {
    Add(RotateLeft(Add(w, Add(f, data)), s), x)
  }

  lemma {:induction false} SelectBits(x: nat, y: nat, z: nat, n: nat)
    ensures XorBits(z, AndBits(x, XorBits(y, z, n), n), n) ==
            OrBits(AndBits(x, y, n), AndBits(NotBits(x, n), z, n), n)
  {
    hide Push;
    if n > 0 {
      SelectBits(x / 2, y / 2, z / 2, n - 1);
    }
  }

  lemma {:induction false} SelectBitsSwapped(x: nat, y: nat, z: nat, n: nat)
    ensures XorBits(y, AndBits(z, XorBits(x, y, n), n), n) ==
            OrBits(AndBits(x, z, n), AndBits(y, NotBits(z, n), n), n)
  {
    hide Push;
    if n > 0 {
      SelectBitsSwapped(x / 2, y / 2, z / 2, n - 1);
    }
  }

  lemma SumIsAdds(a: int, f: int, m: int, t: int)
    ensures Add(a, Add(f, Add(m, t))) == Sum(a, f, m, t)
  {
  }

  /** The function the code uses in operation `i`. */
  function Select(i: nat, x: word, y: word, z: word): word {
    if i < 16 then F1(x, y, z) else if i < 32 then F2(x, y, z) else if i < 48 then F3(x, y, z) else F4(x, y, z)
  }

  /** The cheaper F1 and F2 are the RFC's F and G. */
  lemma F1IsF(x: word, y: word, z: word)
    ensures F1(x, y, z) == F(x, y, z)
  {
    SelectBits(x, y, z, 32);
  }

  lemma F2IsG(x: word, y: word, z: word)
    ensures F2(x, y, z) == G(x, y, z)
  {
    SelectBitsSwapped(x, y, z, 32);
  }

  lemma OptimisedFunctions(i: nat, x: word, y: word, z: word)
    ensures Select(i, x, y, z) == Mix(i, x, y, z)
  {
    hide F1, F2, F, G;
    F1IsF(x, y, z);
    F2IsG(x, y, z);
  }

  /** One unrolled step, for operation `i`. */
  function Step(i: nat, a: word, b: word, c: word, d: word, block: seq<word>): word
    requires |block| == 16
  {
    Md5Step(Select(i, b, c, d), a, b, Add(block[Index(i)], T(i)), Shift(i))
  }

  lemma StepIsAssigned(i: nat, a: word, b: word, c: word, d: word, block: seq<word>)
    requires |block| == 16
    ensures Step(i, a, b, c, d, block) == Assigned(i, a, b, c, d, block)
  {
    hide Select, Mix, T, RotateLeft, Index, Shift, Sum;
    OptimisedFunctions(i, b, c, d);
    SumIsAdds(a, Mix(i, b, c, d), block[Index(i)], T(i));
  }

  /** Four unrolled steps, ABCD, DABC, CDAB, BCDA, are four operations. */
  lemma FourSteps(r: Registers, block: seq<word>, i: nat, a: word, b: word, c: word, d: word)
    requires |block| == 16 && i % 4 == 0
    requires Registers(a, b, c, d) == Operations(r, block, i)
    ensures
      var a' := Step(i, a, b, c, d, block);
      var d' := Step(i + 1, d, a', b, c, block);
      var c' := Step(i + 2, c, d', a', b, block);
      var b' := Step(i + 3, b, c', d', a', block);
      Registers(a', b', c', d') == Operations(r, block, i + 4)
  {
    hide Step, Assigned;
    var a' := Step(i, a, b, c, d, block);
    StepIsAssigned(i, a, b, c, d, block);
    assert Registers(a', b, c, d) == Operations(r, block, i + 1);
    var d' := Step(i + 1, d, a', b, c, block);
    StepIsAssigned(i + 1, d, a', b, c, block);
    assert Registers(a', b, c, d') == Operations(r, block, i + 2);
    var c' := Step(i + 2, c, d', a', b, block);
    StepIsAssigned(i + 2, c, d', a', b, block);
    assert Registers(a', b, c', d') == Operations(r, block, i + 3);
    StepIsAssigned(i + 3, b, c', d', a', block);
  }

  method Round1(ghost r: Registers, a0: word, b0: word, c0: word, d0: word, input: seq<word>)
    returns (a: word, b: word, c: word, d: word)
    requires |input| == 16
    requires Registers(a0, b0, c0, d0) == Operations(r, input, 0)
    ensures Registers(a, b, c, d) == Operations(r, input, 16)
  {
    hide Operations, Md5Step, F1, F2, F3, F4, Add, T2, T3, T4;
    a, b, c, d := a0, b0, c0, d0;
    ghost var q0 := Registers(a, b, c, d);
    a := Md5Step(F1(b, c, d), a, b, Add(input[0], 0xd76aa478), 7);
    d := Md5Step(F1(a, b, c), d, a, Add(input[1], 0xe8c7b756), 12);
    c := Md5Step(F1(d, a, b), c, d, Add(input[2], 0x242070db), 17);
    b := Md5Step(F1(c, d, a), b, c, Add(input[3], 0xc1bdceee), 22);
    assert Registers(a, b, c, d) == Operations(r, input, 4) by {
      FourSteps(r, input, 0, q0.a, q0.b, q0.c, q0.d);
    }
    ghost var q4 := Registers(a, b, c, d);
    a := Md5Step(F1(b, c, d), a, b, Add(input[4], 0xf57c0faf), 7);
    d := Md5Step(F1(a, b, c), d, a, Add(input[5], 0x4787c62a), 12);
    c := Md5Step(F1(d, a, b), c, d, Add(input[6], 0xa8304613), 17);
    b := Md5Step(F1(c, d, a), b, c, Add(input[7], 0xfd469501), 22);
    assert Registers(a, b, c, d) == Operations(r, input, 8) by {
      FourSteps(r, input, 4, q4.a, q4.b, q4.c, q4.d);
    }
    ghost var q8 := Registers(a, b, c, d);
    a := Md5Step(F1(b, c, d), a, b, Add(input[8], 0x698098d8), 7);
    d := Md5Step(F1(a, b, c), d, a, Add(input[9], 0x8b44f7af), 12);
    c := Md5Step(F1(d, a, b), c, d, Add(input[10], 0xffff5bb1), 17);
    b := Md5Step(F1(c, d, a), b, c, Add(input[11], 0x895cd7be), 22);
    assert Registers(a, b, c, d) == Operations(r, input, 12) by {
      FourSteps(r, input, 8, q8.a, q8.b, q8.c, q8.d);
    }
    ghost var q12 := Registers(a, b, c, d);
    a := Md5Step(F1(b, c, d), a, b, Add(input[12], 0x6b901122), 7);
    d := Md5Step(F1(a, b, c), d, a, Add(input[13], 0xfd987193), 12);
    c := Md5Step(F1(d, a, b), c, d, Add(input[14], 0xa679438e), 17);
    b := Md5Step(F1(c, d, a), b, c, Add(input[15], 0x49b40821), 22);
    assert Registers(a, b, c, d) == Operations(r, input, 16) by {
      FourSteps(r, input, 12, q12.a, q12.b, q12.c, q12.d);
    }
  }

  /** The operations of the second round: which word, which constant, how far. */
  lemma Round2Table()
    ensures Index(16) == 1 && T(16) == 0xf61e2562 && Shift(16) == 5
    ensures Index(17) == 6 && T(17) == 0xc040b340 && Shift(17) == 9
    ensures Index(18) == 11 && T(18) == 0x265e5a51 && Shift(18) == 14
    ensures Index(19) == 0 && T(19) == 0xe9b6c7aa && Shift(19) == 20
    ensures Index(20) == 5 && T(20) == 0xd62f105d && Shift(20) == 5
    ensures Index(21) == 10 && T(21) == 0x02441453 && Shift(21) == 9
    ensures Index(22) == 15 && T(22) == 0xd8a1e681 && Shift(22) == 14
    ensures Index(23) == 4 && T(23) == 0xe7d3fbc8 && Shift(23) == 20
    ensures Index(24) == 9 && T(24) == 0x21e1cde6 && Shift(24) == 5
    ensures Index(25) == 14 && T(25) == 0xc33707d6 && Shift(25) == 9
    ensures Index(26) == 3 && T(26) == 0xf4d50d87 && Shift(26) == 14
    ensures Index(27) == 8 && T(27) == 0x455a14ed && Shift(27) == 20
    ensures Index(28) == 13 && T(28) == 0xa9e3e905 && Shift(28) == 5
    ensures Index(29) == 2 && T(29) == 0xfcefa3f8 && Shift(29) == 9
    ensures Index(30) == 7 && T(30) == 0x676f02d9 && Shift(30) == 14
    ensures Index(31) == 12 && T(31) == 0x8d2a4c8a && Shift(31) == 20
  {
  }

  method Round2(ghost r: Registers, a0: word, b0: word, c0: word, d0: word, input: seq<word>)
    returns (a: word, b: word, c: word, d: word)
    requires |input| == 16
    requires Registers(a0, b0, c0, d0) == Operations(r, input, 16)
    ensures Registers(a, b, c, d) == Operations(r, input, 32)
  {
    hide Operations, Md5Step, F1, F2, F3, F4, Add, T, Index, Shift;
    Round2Table();
    a, b, c, d := a0, b0, c0, d0;
    ghost var q16 := Registers(a, b, c, d);
    a := Md5Step(F2(b, c, d), a, b, Add(input[1], 0xf61e2562), 5);
    d := Md5Step(F2(a, b, c), d, a, Add(input[6], 0xc040b340), 9);
    c := Md5Step(F2(d, a, b), c, d, Add(input[11], 0x265e5a51), 14);
    b := Md5Step(F2(c, d, a), b, c, Add(input[0], 0xe9b6c7aa), 20);
    assert Registers(a, b, c, d) == Operations(r, input, 20) by {
      FourSteps(r, input, 16, q16.a, q16.b, q16.c, q16.d);
    }
    ghost var q20 := Registers(a, b, c, d);
    a := Md5Step(F2(b, c, d), a, b, Add(input[5], 0xd62f105d), 5);
    d := Md5Step(F2(a, b, c), d, a, Add(input[10], 0x02441453), 9);
    c := Md5Step(F2(d, a, b), c, d, Add(input[15], 0xd8a1e681), 14);
    b := Md5Step(F2(c, d, a), b, c, Add(input[4], 0xe7d3fbc8), 20);
    assert Registers(a, b, c, d) == Operations(r, input, 24) by {
      FourSteps(r, input, 20, q20.a, q20.b, q20.c, q20.d);
    }
    ghost var q24 := Registers(a, b, c, d);
    a := Md5Step(F2(b, c, d), a, b, Add(input[9], 0x21e1cde6), 5);
    d := Md5Step(F2(a, b, c), d, a, Add(input[14], 0xc33707d6), 9);
    c := Md5Step(F2(d, a, b), c, d, Add(input[3], 0xf4d50d87), 14);
    b := Md5Step(F2(c, d, a), b, c, Add(input[8], 0x455a14ed), 20);
    assert Registers(a, b, c, d) == Operations(r, input, 28) by {
      FourSteps(r, input, 24, q24.a, q24.b, q24.c, q24.d);
    }
    ghost var q28 := Registers(a, b, c, d);
    a := Md5Step(F2(b, c, d), a, b, Add(input[13], 0xa9e3e905), 5);
    d := Md5Step(F2(a, b, c), d, a, Add(input[2], 0xfcefa3f8), 9);
    c := Md5Step(F2(d, a, b), c, d, Add(input[7], 0x676f02d9), 14);
    b := Md5Step(F2(c, d, a), b, c, Add(input[12], 0x8d2a4c8a), 20);
    assert Registers(a, b, c, d) == Operations(r, input, 32) by {
      FourSteps(r, input, 28, q28.a, q28.b, q28.c, q28.d);
    }
  }

  method Round3(ghost r: Registers, a0: word, b0: word, c0: word, d0: word, input: seq<word>)
    returns (a: word, b: word, c: word, d: word)
    requires |input| == 16
    requires Registers(a0, b0, c0, d0) == Operations(r, input, 32)
    ensures Registers(a, b, c, d) == Operations(r, input, 48)
  {
    hide Operations, Md5Step, F1, F2, F3, F4, Add, T1, T2, T4;
    a, b, c, d := a0, b0, c0, d0;
    ghost var q32 := Registers(a, b, c, d);
    a := Md5Step(F3(b, c, d), a, b, Add(input[5], 0xfffa3942), 4);
    d := Md5Step(F3(a, b, c), d, a, Add(input[8], 0x8771f681), 11);
    c := Md5Step(F3(d, a, b), c, d, Add(input[11], 0x6d9d6122), 16);
    b := Md5Step(F3(c, d, a), b, c, Add(input[14], 0xfde5380c), 23);
    assert Registers(a, b, c, d) == Operations(r, input, 36) by {
      FourSteps(r, input, 32, q32.a, q32.b, q32.c, q32.d);
    }
    ghost var q36 := Registers(a, b, c, d);
    a := Md5Step(F3(b, c, d), a, b, Add(input[1], 0xa4beea44), 4);
    d := Md5Step(F3(a, b, c), d, a, Add(input[4], 0x4bdecfa9), 11);
    c := Md5Step(F3(d, a, b), c, d, Add(input[7], 0xf6bb4b60), 16);
    b := Md5Step(F3(c, d, a), b, c, Add(input[10], 0xbebfbc70), 23);
    assert Registers(a, b, c, d) == Operations(r, input, 40) by {
      FourSteps(r, input, 36, q36.a, q36.b, q36.c, q36.d);
    }
    ghost var q40 := Registers(a, b, c, d);
    a := Md5Step(F3(b, c, d), a, b, Add(input[13], 0x289b7ec6), 4);
    d := Md5Step(F3(a, b, c), d, a, Add(input[0], 0xeaa127fa), 11);
    c := Md5Step(F3(d, a, b), c, d, Add(input[3], 0xd4ef3085), 16);
    b := Md5Step(F3(c, d, a), b, c, Add(input[6], 0x04881d05), 23);
    assert Registers(a, b, c, d) == Operations(r, input, 44) by {
      FourSteps(r, input, 40, q40.a, q40.b, q40.c, q40.d);
    }
    ghost var q44 := Registers(a, b, c, d);
    a := Md5Step(F3(b, c, d), a, b, Add(input[9], 0xd9d4d039), 4);
    d := Md5Step(F3(a, b, c), d, a, Add(input[12], 0xe6db99e5), 11);
    c := Md5Step(F3(d, a, b), c, d, Add(input[15], 0x1fa27cf8), 16);
    b := Md5Step(F3(c, d, a), b, c, Add(input[2], 0xc4ac5665), 23);
    assert Registers(a, b, c, d) == Operations(r, input, 48) by {
      FourSteps(r, input, 44, q44.a, q44.b, q44.c, q44.d);
    }
  }

  method Round4(ghost r: Registers, a0: word, b0: word, c0: word, d0: word, input: seq<word>)
    returns (a: word, b: word, c: word, d: word)
    requires |input| == 16
    requires Registers(a0, b0, c0, d0) == Operations(r, input, 48)
    ensures Registers(a, b, c, d) == Operations(r, input, 64)
  {
    hide Operations, Md5Step, F1, F2, F3, F4, Add, T1, T2, T3;
    a, b, c, d := a0, b0, c0, d0;
    ghost var q48 := Registers(a, b, c, d);
    a := Md5Step(F4(b, c, d), a, b, Add(input[0], 0xf4292244), 6);
    d := Md5Step(F4(a, b, c), d, a, Add(input[7], 0x432aff97), 10);
    c := Md5Step(F4(d, a, b), c, d, Add(input[14], 0xab9423a7), 15);
    b := Md5Step(F4(c, d, a), b, c, Add(input[5], 0xfc93a039), 21);
    assert Registers(a, b, c, d) == Operations(r, input, 52) by {
      FourSteps(r, input, 48, q48.a, q48.b, q48.c, q48.d);
    }
    ghost var q52 := Registers(a, b, c, d);
    a := Md5Step(F4(b, c, d), a, b, Add(input[12], 0x655b59c3), 6);
    d := Md5Step(F4(a, b, c), d, a, Add(input[3], 0x8f0ccc92), 10);
    c := Md5Step(F4(d, a, b), c, d, Add(input[10], 0xffeff47d), 15);
    b := Md5Step(F4(c, d, a), b, c, Add(input[1], 0x85845dd1), 21);
    assert Registers(a, b, c, d) == Operations(r, input, 56) by {
      FourSteps(r, input, 52, q52.a, q52.b, q52.c, q52.d);
    }
    ghost var q56 := Registers(a, b, c, d);
    a := Md5Step(F4(b, c, d), a, b, Add(input[8], 0x6fa87e4f), 6);
    d := Md5Step(F4(a, b, c), d, a, Add(input[15], 0xfe2ce6e0), 10);
    c := Md5Step(F4(d, a, b), c, d, Add(input[6], 0xa3014314), 15);
    b := Md5Step(F4(c, d, a), b, c, Add(input[13], 0x4e0811a1), 21);
    assert Registers(a, b, c, d) == Operations(r, input, 60) by {
      FourSteps(r, input, 56, q56.a, q56.b, q56.c, q56.d);
    }
    ghost var q60 := Registers(a, b, c, d);
    a := Md5Step(F4(b, c, d), a, b, Add(input[4], 0xf7537e82), 6);
    d := Md5Step(F4(a, b, c), d, a, Add(input[11], 0xbd3af235), 10);
    c := Md5Step(F4(d, a, b), c, d, Add(input[2], 0x2ad7d2bb), 15);
    b := Md5Step(F4(c, d, a), b, c, Add(input[9], 0xeb86d391), 21);
    assert Registers(a, b, c, d) == Operations(r, input, 64) by {
      FourSteps(r, input, 60, q60.a, q60.b, q60.c, q60.d);
    }
  }

  function Read(buf: seq<word>): Registers
    requires |buf| == 4
  {
    Registers(buf[0], buf[1], buf[2], buf[3])
  }

  method MD5Transform(buf: array<word>, input: seq<word>)
    requires buf.Length == 4 && |input| == 16
    modifies buf
    ensures Read(buf[..]) == Transform(old(Read(buf[..])), input)
  {
    hide Operations;
    ghost var r := Read(buf[..]);
    NoOperations(r, input);
    var a, b, c, d := buf[0], buf[1], buf[2], buf[3];
    a, b, c, d := Round1(r, a, b, c, d, input);
    a, b, c, d := Round2(r, a, b, c, d, input);
    a, b, c, d := Round3(r, a, b, c, d, input);
    a, b, c, d := Round4(r, a, b, c, d, input);
    buf[0], buf[1], buf[2], buf[3] := Add(buf[0], a), Add(buf[1], b), Add(buf[2], c), Add(buf[3], d);
  }

  // ----- sections 3.1 to 3.5 of RFC 1321: padding, blocks, digest -----

  /** Four bytes as a word, low-order byte first. */
  function Word(b0: byte, b1: byte, b2: byte, b3: byte): word {
    b0 + 0x100 * b1 + 0x1_0000 * b2 + 0x100_0000 * b3
  }

  function Bytes(w: word): (b: seq<byte>)
    ensures |b| == 4
    ensures Word(b[0], b[1], b[2], b[3]) == w
  {
    var w1 := w / 0x100;
    var w2 := w1 / 0x100;
    [w % 0x100, w1 % 0x100, w2 % 0x100, w2 / 0x100]
  }

  /** A word has one layout. */
  lemma BytesOf(w: word, b0: byte, b1: byte, b2: byte, b3: byte)
    requires w == Word(b0, b1, b2, b3)
    ensures Bytes(w) == [b0, b1, b2, b3]
  {
    hide Bytes;
    var b := Bytes(w);
    assert b == [b[0], b[1], b[2], b[3]];
  }

  function Words(block: seq<byte>): (words: seq<word>)
    requires |block| == 64
    ensures |words| == 16
  {
    seq(16, k requires 0 <= k < 16 =>
      Word(block[4 * k], block[4 * k + 1], block[4 * k + 2], block[4 * k + 3]))
  }

  const START := Registers(0x67452301, 0xefcdab89, 0x98badcfe, 0x10325476)

  /** The first registers, low-order byte first. */
  function StartBytes(): seq<byte> {
    [0x01, 0x23, 0x45, 0x67, 0x89, 0xab, 0xcd, 0xef, 0xfe, 0xdc, 0xba, 0x98, 0x76, 0x54, 0x32, 0x10]
  }

  lemma StartLaidOut()
    ensures Encode(START) == StartBytes()
  {
    hide Bytes;
    BytesOf(START.a, 0x01, 0x23, 0x45, 0x67);
    BytesOf(START.b, 0x89, 0xab, 0xcd, 0xef);
    BytesOf(START.c, 0xfe, 0xdc, 0xba, 0x98);
    BytesOf(START.d, 0x76, 0x54, 0x32, 0x10);
  }

  /** The registers after a whole number of blocks. */
  function Hash(m: seq<byte>): Registers {
    if |m| < 64 then START else Transform(Hash(m[..|m| - 64]), Words(m[|m| - 64..]))
  }

  function Zeros(n: nat): (z: seq<byte>)
    ensures |z| == n
  {
    seq(n, _ => 0)
  }

  /** The length in bits as two words, low-order word first, modulo 2^64. */
  function LengthBytes(n: nat): (b: seq<byte>)
    ensures |b| == 8
  {
    var bits := 8 * n % 0x1_0000_0000_0000_0000;
    Bytes(bits % 0x1_0000_0000) + Bytes(bits / 0x1_0000_0000)
  }

  /** A one bit, zeros up to 56 modulo 64, the length. */
  function Padding(n: nat): seq<byte> {
    [0x80] + Zeros((55 - n) % 64) + LengthBytes(n)
  }

  function Pad(m: seq<byte>): seq<byte> { m + Padding(|m|) }

  lemma PadIsAligned(m: seq<byte>)
    ensures |Pad(m)| % 64 == 0
  {
    hide LengthBytes, Zeros;
    PaddedLength(|m|);
  }

  lemma PaddedLength(n: nat)
    ensures (n + 1 + (55 - n) % 64 + 8) % 64 == 0
  {
  }

  function Encode(r: Registers): (digest: seq<byte>)
    ensures |digest| == 16
  {
    Bytes(r.a) + Bytes(r.b) + Bytes(r.c) + Bytes(r.d)
  }

  function Digest(m: seq<byte>): (digest: seq<byte>)
    ensures |digest| == 16
  {
    Encode(Hash(Pad(m)))
  }

  /** Padding loses nothing: two messages below 2^61 bytes with the same padding are the same. */
  lemma PadIsInjective(m: seq<byte>, n: seq<byte>)
    requires |m| < 0x2000_0000_0000_0000 && |n| < 0x2000_0000_0000_0000
    requires Pad(m) == Pad(n)
    ensures m == n
  {
    hide LengthBytes, Zeros;
    var p := Pad(m);
    assert LengthBytes(|m|) == p[|p| - 8..] == LengthBytes(|n|);
    LengthIsInjective(|m|, |n|);
    assert m == p[..|m|] == p[..|n|] == n;
  }

  lemma LengthIsInjective(m: nat, n: nat)
    requires m < 0x2000_0000_0000_0000 && n < 0x2000_0000_0000_0000
    requires LengthBytes(m) == LengthBytes(n)
    ensures m == n
  {
    hide Bytes, Word;
    var mLow, mHigh := 8 * m % 0x1_0000_0000, 8 * m / 0x1_0000_0000;
    var nLow, nHigh := 8 * n % 0x1_0000_0000, 8 * n / 0x1_0000_0000;
    var b := LengthBytes(m);
    assert Bytes(mLow) == b[..4] == Bytes(nLow);
    assert Bytes(mHigh) == b[4..] == Bytes(nHigh);
    assert mLow == nLow && mHigh == nHigh;
  }

  /** Where the blocks of a padded message fall: one more block when the rest, the one bit and the
      length fit in 64 bytes, two otherwise. */
  lemma PadBlocks(m: seq<byte>)
    ensures
      var t := |m| % 64;
      var start, tail := m[..|m| - t], m[|m| - t..] + [0x80];
      Pad(m) == if 63 - t >= 8
                then start + (tail + Zeros(55 - t) + LengthBytes(|m|))
                else start + (tail + Zeros(63 - t)) + (Zeros(56) + LengthBytes(|m|))
  {
    hide LengthBytes;
    var t := |m| % 64;
    if 63 - t >= 8 {
      assert (55 - |m|) % 64 == 55 - t;
    } else {
      assert (55 - |m|) % 64 == 63 - t + 56;
      assert Zeros(63 - t) + Zeros(56) == Zeros(63 - t + 56);
    }
  }

  lemma HashAppend(m: seq<byte>, block: seq<byte>)
    requires |block| == 64
    ensures Hash(m + block) == Transform(Hash(m), Words(block))
  {
    hide Transform, Words;
    assert (m + block)[..|m + block| - 64] == m;
    assert (m + block)[|m + block| - 64..] == block;
  }

  // ----- streaming -----

  const WORDS := 0x1_0000_0000

  const COUNTS := 0x1_0000_0000_0000_0000

  /** The two words count the bits of `n` bytes, modulo 2^64. */
  predicate Counts(bits0: word, bits1: word, n: nat) {
    bits0 + WORDS * bits1 == 8 * n % COUNTS
  }

  lemma CountedBytes(bits0: word, bits1: word, n: nat)
    requires Counts(bits0, bits1, n)
    ensures bits0 / 8 % 64 == n % 64
  {
    var q := Quotient(n);
    var k := -(0x80_0000 * bits1 + 0x80_0000_0000_0000 * q);
    Eighth(bits0, n + 64 * k);
    Multiples(n, k);
  }

  function Quotient(n: nat): (q: nat)
    ensures 8 * n == COUNTS * q + 8 * n % COUNTS
  {
    8 * n / COUNTS
  }

  lemma Eighth(b: nat, m: int)
    requires b == 8 * m
    ensures b / 8 == m
  {
  }

  lemma Multiples(n: int, k: int)
    ensures (n + 64 * k) % 64 == n % 64
  {
  }

  lemma CountedWords(bits0: word, bits1: word, n: nat)
    requires Counts(bits0, bits1, n)
    ensures LengthBytes(n) == Bytes(bits0) + Bytes(bits1)
  {
    hide Bytes;
    LowAndHigh(bits0, bits1);
  }

  lemma LowAndHigh(low: word, high: word)
    ensures (low + WORDS * high) % WORDS == low && (low + WORDS * high) / WORDS == high
  {
  }

  lemma SplitRemainder(low: word, high: nat)
    ensures (low + WORDS * high) % COUNTS == low + WORDS * (high % WORDS)
  {
    var q := high / WORDS;
    assert low + WORDS * high == COUNTS * q + (low + WORDS * (high % WORDS));
  }

  lemma RemainderOfSum(m: nat, n: nat)
    ensures (m % COUNTS + n) % COUNTS == (m + n) % COUNTS
  {
  }

  /** The carry into the high word is noticed because the low word went down. */
  lemma BitCount(bits0: word, bits1: word, n: nat, len: nat)
    requires len < WORDS && Counts(bits0, bits1, n)
    ensures
      var low := Add(bits0, Wrap(8 * len));
      Counts(low, Add(if low < bits0 then Add(bits1, 1) else bits1, len / 0x2000_0000), n + len)
  {
    hide Add, Wrap;
    var low, more := Add(bits0, Wrap(8 * len)), len / 0x2000_0000;
    var carry := if low < bits0 then 1 else 0;
    LowWord(bits0, len);
    HighWord(bits1, carry, more);
    SplitRemainder(low, bits1 + carry + more);
    RemainderOfSum(8 * n, 8 * len);
  }

  lemma LowWord(bits0: word, len: nat)
    ensures
      var low := Add(bits0, Wrap(8 * len));
      bits0 + 8 * len == low + WORDS * ((if low < bits0 then 1 else 0) + len / 0x2000_0000)
  {
    var more := len / 0x2000_0000;
    ShiftedLength(len);
    Carry(bits0, 8 * (len - 0x2000_0000 * more));
  }

  lemma ShiftedLength(len: nat)
    ensures Wrap(8 * len) == 8 * (len - 0x2000_0000 * (len / 0x2000_0000))
  {
    var more := len / 0x2000_0000;
    assert 8 * len == WORDS * more + 8 * (len - 0x2000_0000 * more);
  }

  lemma Carry(a: word, b: word)
    ensures a + b == Add(a, b) + if Add(a, b) < a then WORDS else 0
  {
  }

  lemma HighWord(bits1: word, carry: nat, more: nat)
    requires carry <= 1
    ensures Add(if carry == 1 then Add(bits1, 1) else bits1, more) == (bits1 + carry + more) % WORDS
  {
  }

  predicate Aligned(n: nat) { n % 64 == 0 }

  lemma NextBoundary(n: nat, t: nat)
    requires t == n % 64
    ensures Aligned(n + if t == 0 then 0 else 64 - t)
    ensures Aligned(n - t)
  {
  }

  lemma NextBlock(n: nat)
    requires Aligned(n)
    ensures Aligned(n + 64)
  {
  }

  lemma TailGrows(m: seq<byte>, more: seq<byte>)
    requires |m| % 64 + |more| < 64
    ensures
      var t := |m| % 64;
      && |m + more| % 64 == t + |more|
      && (m + more)[..|m| - t] == m[..|m| - t]
      && (m + more)[|m| - t..] == m[|m| - t..] + more
  {
  }

  lemma TailIsRest(m: seq<byte>, more: seq<byte>, done: nat)
    requires done <= |more| < done + 64 && Aligned(|m| + done)
    ensures
      && |m + more| % 64 == |more| - done
      && (m + more)[..|m| + done] == m + more[..done]
      && (m + more)[|m| + done..] == more[done..]
  {
  }

  method Copy(dst: array<byte>, at: nat, src: seq<byte>)
    requires at + |src| <= dst.Length
    modifies dst
    ensures dst[..] == old(dst[..at]) + src + old(dst[at + |src|..])
  {
    forall i | 0 <= i < |src| {
      dst[at + i] := src[i];
    }
  }

  class MD5Context {
    const buf: array<word>
    var bits0: word
    var bits1: word
    const pending: array<byte>
    /** Everything handed to MD5Update so far. */
    ghost var absorbed: seq<byte>

    ghost predicate Shape()
      reads this
    {
      buf.Length == 4 && pending.Length == 64
    }

    /** The registers cover the whole blocks, `pending` starts with the rest, and the two words
        count the bits modulo 2^64. */
    ghost predicate Valid()
      reads this, buf, pending
    {
      var whole := |absorbed| - |absorbed| % 64;
      && Shape()
      && Read(buf[..]) == Hash(absorbed[..whole])
      && pending[..|absorbed| % 64] == absorbed[whole..]
      && Counts(bits0, bits1, |absorbed|)
    }

    /** MD5Init. */
    constructor ()
      ensures Valid() && absorbed == []
      ensures fresh(buf) && fresh(pending)
      ensures Encode(Read(buf[..])) == StartBytes()
    {
      hide Bytes;
      StartLaidOut();
      buf := new word[4] [0x67452301, 0xefcdab89, 0x98badcfe, 0x10325476];
      pending := new byte[64];
      bits0, bits1 := 0, 0;
      absorbed := [];
    }

    method TransformPending(ghost start: seq<byte>)
      requires Shape() && Read(buf[..]) == Hash(start)
      modifies buf
      ensures Read(buf[..]) == Hash(start + pending[..])
    {
      hide Hash, Transform, Words;
      HashAppend(start, pending[..]);
      MD5Transform(buf, Words(pending[..]));
    }

    /** Counts `len` more bytes and says how many bytes were pending. */
    method CountBytes(ghost n: nat, len: nat) returns (t: nat)
      requires Counts(bits0, bits1, n) && len < 0x1_0000_0000
      modifies `bits0, `bits1
      ensures Counts(bits0, bits1, n + len)
      ensures t == n % 64
    {
      hide Counts, Add, Wrap;
      CountedBytes(bits0, bits1, n);
      BitCount(bits0, bits1, n, len);
      var low := bits0;
      bits0 := Add(low, Wrap(8 * len));
      if bits0 < low {
        bits1 := Add(bits1, 1);
      }
      bits1 := Add(bits1, len / 0x2000_0000);
      t := low / 8 % 64;
    }

    /** The whole blocks of `input` from `start` on; returns where the rest begins. */
    method TransformBlocks(ghost before: seq<byte>, input: seq<byte>, start: nat) returns (done: nat)
      requires Shape() && start <= |input| && Aligned(|before| + start)
      requires Read(buf[..]) == Hash(before + input[..start])
      modifies buf, pending
      ensures start <= done <= |input| < done + 64
      ensures Aligned(|before| + done)
      ensures Read(buf[..]) == Hash(before + input[..done])
    {
      hide Hash, Read, Aligned;
      done := start;
      while |input| - done >= 64
        invariant start <= done <= |input|
        invariant Aligned(|before| + done)
        invariant Read(buf[..]) == Hash(before + input[..done])
      {
        Copy(pending, 0, input[done..done + 64]);
        assert before + input[..done] + pending[..] == before + input[..done + 64];
        TransformPending(before + input[..done]);
        NextBlock(|before| + done);
        done := done + 64;
      }
    }

    /** Completes and transforms the odd-sized chunk at the front. */
    method FillPending(ghost before: seq<byte>, input: seq<byte>, t: nat) returns (done: nat)
      requires Shape() && t <= |before| && t < 64 <= t + |input|
      requires Read(buf[..]) == Hash(before[..|before| - t])
      requires pending[..t] == before[|before| - t..]
      modifies buf, pending
      ensures done == 64 - t
      ensures Read(buf[..]) == Hash(before + input[..done])
    {
      hide Hash, Read;
      done := 64 - t;
      Copy(pending, t, input[..done]);
      assert before[..|before| - t] + pending[..] == before + input[..done];
      TransformPending(before[..|before| - t]);
    }

    /** What is left after the whole blocks waits for more. */
    method KeepRest(ghost before: seq<byte>, input: seq<byte>, done: nat)
      requires Shape() && absorbed == before + input && Counts(bits0, bits1, |absorbed|)
      requires done <= |input| < done + 64 && Aligned(|before| + done)
      requires Read(buf[..]) == Hash(before + input[..done])
      modifies pending
      ensures Valid()
    {
      hide Hash, Read, Counts, Aligned;
      Copy(pending, 0, input[done..]);
      TailIsRest(before, input, done);
    }

    method MD5Update(input: seq<byte>)
      requires Valid()
      requires |input| < 0x1_0000_0000
      modifies this, buf, pending
      ensures Valid()
      ensures absorbed == old(absorbed) + input
    {
      hide Hash, Read, Counts, Aligned;
      ghost var before := absorbed;
      var t := CountBytes(|before|, |input|);
      absorbed := before + input;
      var done := 0;
      ghost var whole := |before| - t;
      NextBoundary(|before|, t);
      if t != 0 {
        if |input| < 64 - t {
          Copy(pending, t, input);
          TailGrows(before, input);
          return;
        }
        done := FillPending(before, input, t);
      } else {
        assert before[..whole] == before + input[..0];
      }
      done := TransformBlocks(before, input, done);
      KeepRest(before, input, done);
    }

    /** The one bit and the zeros, up to 56 modulo 64; `start` is what the registers then cover. */
    method PadOut(ghost m: seq<byte>, t: nat) returns (ghost start: seq<byte>)
      requires Shape() && t == |m| % 64
      requires Read(buf[..]) == Hash(m[..|m| - t])
      requires pending[..t] == m[|m| - t..]
      modifies buf, pending
      ensures Read(buf[..]) == Hash(start)
      ensures Pad(m) == start + (pending[..56] + LengthBytes(|m|))
    {
      hide Hash, Read, LengthBytes, Pad;
      PadBlocks(m);
      start := m[..|m| - t];
      ghost var tail := m[|m| - t..] + [0x80];
      pending[t] := 0x80;
      assert pending[..t + 1] == tail;
      var count := 64 - 1 - t;
      if count < 8 {
        Copy(pending, t + 1, Zeros(count));
        assert pending[..] == tail + Zeros(count);
        TransformPending(start);
        start := start + pending[..];
        Copy(pending, 0, Zeros(56));
        assert pending[..56] == Zeros(56);
      } else {
        Copy(pending, t + 1, Zeros(count - 8));
        assert pending[..56] == tail + Zeros(count - 8);
      }
    }

    /** Afterwards the context is not to be used: only part of it is cleared. */
    method MD5Final() returns (digest: seq<byte>)
      requires Valid()
      modifies this, buf, pending
      ensures digest == Digest(old(absorbed))
    {
      hide Hash, Bytes, LengthBytes, Counts, Pad;
      ghost var m := absorbed;
      CountedBytes(bits0, bits1, |m|);
      CountedWords(bits0, bits1, |m|);
      ghost var start := PadOut(m, bits0 / 8 % 64);
      ghost var front := pending[..56];
      Copy(pending, 56, Bytes(bits0));
      Copy(pending, 60, Bytes(bits1));
      assert pending[..] == front + LengthBytes(|m|);
      TransformPending(start);
      digest := Bytes(buf[0]) + Bytes(buf[1]) + Bytes(buf[2]) + Bytes(buf[3]);
    }
  }

  function Concat(parts: seq<seq<byte>>): seq<byte> {
    if parts == [] then [] else Concat(parts[..|parts| - 1]) + parts[|parts| - 1]
  }

  /** Any split of any input: the digest is that of the concatenation. */
  method DigestOf(parts: seq<seq<byte>>) returns (digest: seq<byte>)
    requires forall p :: p in parts ==> |p| < 0x1_0000_0000
    ensures digest == Digest(Concat(parts))
  {
    hide Digest, Hash, Transform, Encode, Read, StartBytes;
    var context := new MD5Context();
    var i := 0;
    while i < |parts|
      invariant i <= |parts|
      invariant context.Valid() && context.absorbed == Concat(parts[..i])
      invariant fresh(context) && fresh(context.buf) && fresh(context.pending)
    {
      context.MD5Update(parts[i]);
      assert parts[..i + 1][..i] == parts[..i];
      i := i + 1;
    }
    assert parts[..i] == parts;
    digest := context.MD5Final();
  }
}
