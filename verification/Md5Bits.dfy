/** MD5's operations on bit vectors, as a machine with 32-bit words does them, are those of RFC 1321 on numbers. */
module Md5Bits {
  import opened Md5

  // ----- the functions of section 3.4, one bit at a time -----

  /** What operation `i` makes of three bits. */
  function Choose(i: nat, x: bool, y: bool, z: bool): bool {
    if i < 16 then (if x then y else z)
    else if i < 32 then (if z then x else y)
    else if i < 48 then (x != y) != z
    else y != (x || !z)
  }

  function MixBits(i: nat, x: nat, y: nat, z: nat, n: nat): (r: nat)
    ensures r < Pow2(n)
  {
    if n == 0 then 0 else Push(MixBits(i, x / 2, y / 2, z / 2, n - 1), Choose(i, x % 2 == 1, y % 2 == 1, z % 2 == 1))
  }

  lemma {:induction false} FBits(i: nat, x: nat, y: nat, z: nat, n: nat)
    requires i < 16
    ensures OrBits(AndBits(x, y, n), AndBits(NotBits(x, n), z, n), n) == MixBits(i, x, y, z, n)
  {
    hide Push;
    if n > 0 {
      FBits(i, x / 2, y / 2, z / 2, n - 1);
    }
  }

  lemma {:induction false} GBits(i: nat, x: nat, y: nat, z: nat, n: nat)
    requires 16 <= i < 32
    ensures OrBits(AndBits(x, z, n), AndBits(y, NotBits(z, n), n), n) == MixBits(i, x, y, z, n)
  {
    hide Push;
    if n > 0 {
      GBits(i, x / 2, y / 2, z / 2, n - 1);
    }
  }

  lemma {:induction false} HBits(i: nat, x: nat, y: nat, z: nat, n: nat)
    requires 32 <= i < 48
    ensures XorBits(XorBits(x, y, n), z, n) == MixBits(i, x, y, z, n)
  {
    hide Push;
    if n > 0 {
      HBits(i, x / 2, y / 2, z / 2, n - 1);
    }
  }

  lemma {:induction false} IBits(i: nat, x: nat, y: nat, z: nat, n: nat)
    requires 48 <= i
    ensures XorBits(y, OrBits(x, NotBits(z, n), n), n) == MixBits(i, x, y, z, n)
  {
    hide Push;
    if n > 0 {
      IBits(i, x / 2, y / 2, z / 2, n - 1);
    }
  }

  /** Bit by bit the functions of the four rounds choose between `y` and `z`, choose between `x` and `y`, add
      without carry, and invert `y`. */
  lemma MixIsBits(i: nat, x: word, y: word, z: word)
    ensures Mix(i, x, y, z) == MixBits(i, x, y, z, 32)
  {
    hide AndBits, OrBits, XorBits, NotBits, MixBits;
    if i < 16 {
      FBits(i, x, y, z, 32);
    } else if i < 32 {
      GBits(i, x, y, z, 32);
    } else if i < 48 {
      HBits(i, x, y, z, 32);
    } else {
      IBits(i, x, y, z, 32);
    }
  }

  // ----- the bits of a vector and its number -----

  function Value(x: bv32): word { x as int }

  function Bit(x: bv32): nat { if x & 1 == 1 then 1 else 0 }

  function Up(x: bv32): bv32 { x << 1 }

  function Down(x: bv32): bv32 { x >> 1 }

  function Low31(x: bv32): bv32 { x & 0x7fff_ffff }

  predicate Has(x: bv32, m: bv32) { x & m != 0 }

  function Without(x: bv32, m: bv32): bv32 { x & !m }

  predicate Single(m: bv32) { m != 0 && m & (m - 1) == 0 }

  lemma Top(x: bv32)
    ensures Value(x) == (if Has(x, 0x8000_0000) then 0x8000_0000 else 0) + Value(Low31(x))
  {
  }

  lemma Doubled(x: bv32)
    ensures Value(Up(x)) == 2 * Value(Low31(x))
  {
  }

  lemma SingleUp(x: bv32, m: bv32)
    requires Single(m) && m != 0x8000_0000
    ensures Low31(m) == m && Single(Up(m))
    ensures Without(Up(x), Up(m)) == Up(Without(x, m)) && (Has(Up(x), Up(m)) <==> Has(x, m))
    ensures Has(Without(x, m), 0x8000_0000) == Has(x, 0x8000_0000)
  {
  }

  lemma TopBit(x: bv32)
    ensures Low31(x) == Without(x, 0x8000_0000) && Value(0x8000_0000) == 0x8000_0000
  {
  }

  lemma SingleValue(m: bv32)
    requires Single(m)
    ensures 0 < Value(m) <= 0x8000_0000
  {
  }

  /** Every bit counts for its own value. */
  lemma {:induction false} Drop(x: bv32, m: bv32)
    requires Single(m)
    ensures Value(x) == Value(Without(x, m)) + if Has(x, m) then Value(m) else 0
    decreases 0x8000_0000 - Value(m)
  {
    hide *;
    if m == 0x8000_0000 {
      Top(x);
      TopBit(x);
    } else {
      SingleUp(x, m);
      Doubled(m);
      SingleValue(m);
      Drop(Up(x), Up(m));
      Doubled(x);
      Doubled(Without(x, m));
      Top(x);
      Top(Without(x, m));
    }
  }

  lemma DownUp(x: bv32)
    ensures Up(Down(x)) == Without(x, 1) && Low31(Down(x)) == Down(x)
    ensures (Has(x, 1) <==> Bit(x) == 1) && Value(1) == 1 && Single(1)
  {
  }

  lemma LowBit(x: bv32)
    ensures Value(x) == 2 * Value(Down(x)) + Bit(x)
    ensures Value(x) / 2 == Value(Down(x)) && Value(x) % 2 == Bit(x)
  {
    hide Value;
    Drop(x, 1);
    Doubled(Down(x));
    DownUp(x);
  }

  lemma BitIs(c: bv32)
    ensures Bit(c) <= 1
  {
  }

  // ----- bitwise operations -----

  predicate Within(n: bv32, m: bv32) { n & !m == 0 }

  /** `m` is `n` ones. */
  predicate Ones(m: bv32, n: nat) {
    if n == 0 then m == 0 else Bit(m) == 1 && Within(Down(m), m) && Ones(Down(m), n - 1)
  }

  lemma AllOnes()
    ensures Ones(0xffff_ffff, 32)
  {
    assert Ones(0xff, 8);
    assert Ones(0xffff, 16);
    assert Ones(0xff_ffff, 24);
  }

  function And32(x: bv32, y: bv32): bv32 { x & y }

  function Or32(x: bv32, y: bv32): bv32 { x | y }

  function Xor32(x: bv32, y: bv32): bv32 { x ^ y }

  function Not32(x: bv32): bv32 { !x }

  function Under(x: bv32, m: bv32): bv32 { x & m }

  lemma DownAnd(x: bv32, y: bv32, m: bv32)
    ensures Down(Under(And32(x, y), m)) == Under(And32(Down(x), Down(y)), Down(m))
    ensures Bit(m) == 1 ==> Bit(Under(And32(x, y), m)) == if Bit(x) == 1 && Bit(y) == 1 then 1 else 0
  {
  }

  lemma DownOr(x: bv32, y: bv32, m: bv32)
    ensures Down(Under(Or32(x, y), m)) == Under(Or32(Down(x), Down(y)), Down(m))
    ensures Bit(m) == 1 ==> Bit(Under(Or32(x, y), m)) == if Bit(x) == 1 || Bit(y) == 1 then 1 else 0
  {
  }

  lemma DownXor(x: bv32, y: bv32, m: bv32)
    ensures Down(Under(Xor32(x, y), m)) == Under(Xor32(Down(x), Down(y)), Down(m))
    ensures Bit(m) == 1 ==> Bit(Under(Xor32(x, y), m)) == if Bit(x) != Bit(y) then 1 else 0
  {
  }

  lemma DownOfNot(x: bv32, m: bv32)
    ensures Down(Under(Not32(x), m)) == Under(Not32(Down(x)), Down(m))
  {
  }

  lemma BitOfNot(x: bv32, m: bv32)
    ensures Bit(m) == 1 ==> Bit(Under(Not32(x), m)) == if Bit(x) == 0 then 1 else 0
  {
  }

  lemma UnderNone(x: bv32)
    ensures Value(Under(x, 0)) == 0 && Under(x, 0xffff_ffff) == x
  {
  }

  /** On the low `n` bits. */
  lemma {:induction false} AndIs(x: bv32, y: bv32, m: bv32, n: nat)
    requires Ones(m, n)
    ensures AndBits(Value(x), Value(y), n) == Value(Under(And32(x, y), m))
    decreases n
  {
    hide Value, Bit, Down, And32, Under, Push;
    if n == 0 {
      UnderNone(And32(x, y));
    } else {
      AndIs(Down(x), Down(y), Down(m), n - 1);
      LowBit(x);
      LowBit(y);
      LowBit(Under(And32(x, y), m));
      DownAnd(x, y, m);
      BitIs(x);
      BitIs(y);
    }
  }

  lemma {:induction false} OrIs(x: bv32, y: bv32, m: bv32, n: nat)
    requires Ones(m, n)
    ensures OrBits(Value(x), Value(y), n) == Value(Under(Or32(x, y), m))
    decreases n
  {
    hide Value, Bit, Down, Or32, Under, Push;
    if n == 0 {
      UnderNone(Or32(x, y));
    } else {
      OrIs(Down(x), Down(y), Down(m), n - 1);
      LowBit(x);
      LowBit(y);
      LowBit(Under(Or32(x, y), m));
      DownOr(x, y, m);
      BitIs(x);
      BitIs(y);
    }
  }

  lemma {:induction false} XorIs(x: bv32, y: bv32, m: bv32, n: nat)
    requires Ones(m, n)
    ensures XorBits(Value(x), Value(y), n) == Value(Under(Xor32(x, y), m))
    decreases n
  {
    hide Value, Bit, Down, Xor32, Under, Push;
    if n == 0 {
      UnderNone(Xor32(x, y));
    } else {
      XorIs(Down(x), Down(y), Down(m), n - 1);
      LowBit(x);
      LowBit(y);
      LowBit(Under(Xor32(x, y), m));
      DownXor(x, y, m);
      BitIs(x);
      BitIs(y);
    }
  }

  lemma {:induction false} NotIs(x: bv32, m: bv32, n: nat)
    requires Ones(m, n)
    ensures NotBits(Value(x), n) == Value(Under(Not32(x), m))
    decreases n
  {
    hide Value, Bit, Down, Not32, Under, Push;
    if n == 0 {
      UnderNone(Not32(x));
    } else {
      NotIs(Down(x), Down(m), n - 1);
      LowBit(x);
      LowBit(Under(Not32(x), m));
      DownOfNot(x, m);
      BitOfNot(x, m);
      BitIs(x);
    }
  }

  lemma Bitwise(x: bv32, y: bv32)
    ensures And(Value(x), Value(y)) == Value(And32(x, y)) && Or(Value(x), Value(y)) == Value(Or32(x, y))
    ensures Xor(Value(x), Value(y)) == Value(Xor32(x, y)) && Not(Value(x)) == Value(Not32(x))
  {
    hide Value, AndBits, OrBits, XorBits, NotBits, And32, Or32, Xor32, Not32, Under, Ones;
    AllOnes();
    AndIs(x, y, 0xffff_ffff, 32);
    OrIs(x, y, 0xffff_ffff, 32);
    XorIs(x, y, 0xffff_ffff, 32);
    NotIs(x, 0xffff_ffff, 32);
    UnderNone(And32(x, y));
    UnderNone(Or32(x, y));
    UnderNone(Xor32(x, y));
    UnderNone(Not32(x));
  }

  function F32(x: bv32, y: bv32, z: bv32): bv32 { Or32(And32(x, y), And32(Not32(x), z)) }

  function G32(x: bv32, y: bv32, z: bv32): bv32 { Or32(And32(x, z), And32(y, Not32(z))) }

  function H32(x: bv32, y: bv32, z: bv32): bv32 { Xor32(Xor32(x, y), z) }

  function I32(x: bv32, y: bv32, z: bv32): bv32 { Xor32(y, Or32(x, Not32(z))) }

  function Mix32(i: nat, x: bv32, y: bv32, z: bv32): bv32 {
    if i < 16 then F32(x, y, z) else if i < 32 then G32(x, y, z) else if i < 48 then H32(x, y, z) else I32(x, y, z)
  }

  lemma MixIs(i: nat, x: bv32, y: bv32, z: bv32)
    ensures Mix(i, Value(x), Value(y), Value(z)) == Value(Mix32(i, x, y, z))
  {
    hide Value, And, Or, Xor, Not, And32, Or32, Xor32, Not32;
    if i < 16 {
      Bitwise(x, y);
      Bitwise(Not32(x), z);
      Bitwise(And32(x, y), And32(Not32(x), z));
    } else if i < 32 {
      Bitwise(x, z);
      Bitwise(z, z);
      Bitwise(y, Not32(z));
      Bitwise(And32(x, z), And32(y, Not32(z)));
    } else if i < 48 {
      Bitwise(x, y);
      Bitwise(Xor32(x, y), z);
    } else {
      Bitwise(z, z);
      Bitwise(x, Not32(z));
      Bitwise(y, Or32(x, Not32(z)));
    }
  }

  // ----- addition: the carries are `c` -----

  function Plus32(x: bv32, y: bv32): bv32 { x + y }

  function Majority(x: bv32, y: bv32, c: bv32): bv32 { (x & y) | (x & c) | (y & c) }

  predicate Disjoint(x: bv32, m: bv32) { x & m == 0 }

  /** What `x`, `y` and the carries add up to without carrying. */
  function Sum3(x: bv32, y: bv32, c: bv32): bv32 { Xor32(Xor32(x, y), c) }

  /** Under the mask, `s` is that. */
  predicate Sums(x: bv32, y: bv32, c: bv32, s: bv32, m: bv32) { Disjoint(Xor32(s, Sum3(x, y, c)), m) }

  /** Under the mask, what is carried in is what the place below, in `g`, carries out. */
  predicate Carried(c: bv32, g: bv32, m: bv32) { Disjoint(Xor32(c, Up(g)), m) }

  lemma Carries8(x: bv32, y: bv32, c: bv32)
    requires Plus32(x, y) == Sum3(x, y, c)
    ensures Carried(c, Majority(x, y, c), 0xff)
  {
  }

  lemma Carries16(x: bv32, y: bv32, c: bv32)
    requires Plus32(x, y) == Sum3(x, y, c) && Carried(c, Majority(x, y, c), 0xff)
    ensures Carried(c, Majority(x, y, c), 0xffff)
  {
  }

  lemma Carries24(x: bv32, y: bv32, c: bv32)
    requires Plus32(x, y) == Sum3(x, y, c) && Carried(c, Majority(x, y, c), 0xffff)
    ensures Carried(c, Majority(x, y, c), 0xff_ffff)
  {
  }

  lemma Carries32(x: bv32, y: bv32, c: bv32)
    requires Plus32(x, y) == Sum3(x, y, c) && Carried(c, Majority(x, y, c), 0xff_ffff)
    ensures Carried(c, Majority(x, y, c), 0xffff_ffff)
  {
  }

  lemma Twice(p: bv32, s: bv32)
    ensures Xor32(p, Xor32(p, s)) == s
  {
  }

  lemma WithItself(s: bv32)
    ensures Disjoint(Xor32(s, s), 0xffff_ffff)
  {
  }

  lemma Cancelled(x: bv32, y: bv32, s: bv32)
    ensures s == Sum3(x, y, Sum3(x, y, s)) && Sums(x, y, Sum3(x, y, s), s, 0xffff_ffff)
  {
    hide Xor32, Disjoint;
    Twice(Xor32(x, y), s);
    WithItself(s);
  }

  /** The same, from the place below. */
  predicate Carries(c: bv32, g: bv32, m: bv32) { Disjoint(Xor32(Down(c), g), Down(m)) }

  lemma Lifted(c: bv32, g: bv32)
    requires Carried(c, g, 0xffff_ffff)
    ensures Carries(c, g, 0xffff_ffff) && Bit(c) == 0
  {
  }

  lemma SumsDown(x: bv32, y: bv32, c: bv32, g: bv32, s: bv32, m: bv32)
    requires Sums(x, y, c, s, m) && Carries(c, g, m)
    ensures Sums(Down(x), Down(y), g, Down(s), Down(m))
  {
  }

  lemma MajorityDown(x: bv32, y: bv32, c: bv32)
    ensures Down(Majority(x, y, c)) == Majority(Down(x), Down(y), Down(c))
  {
  }

  lemma MajorityUnder(x: bv32, y: bv32, c: bv32, g: bv32, m: bv32)
    requires Disjoint(Xor32(c, g), m)
    ensures Disjoint(Xor32(Majority(x, y, c), Majority(x, y, g)), m)
  {
  }

  lemma Narrower(c: bv32, m: bv32, n: bv32)
    requires Disjoint(c, m) && Within(n, m)
    ensures Disjoint(c, n)
  {
  }

  lemma DownNarrower(m: bv32)
    requires Within(Down(m), m)
    ensures Within(Down(Down(m)), Down(m))
  {
  }

  lemma CarriesDown(x: bv32, y: bv32, c: bv32, g: bv32, m: bv32)
    requires Carries(c, g, m) && g == Majority(x, y, c) && Within(Down(m), m)
    ensures Carries(g, Majority(Down(x), Down(y), g), Down(m))
  {
    hide Down, Majority, Disjoint, Xor32, Within;
    DownNarrower(m);
    Narrower(Xor32(Down(c), g), Down(m), Down(Down(m)));
    MajorityDown(x, y, c);
    MajorityUnder(Down(x), Down(y), Down(c), g, Down(Down(m)));
  }

  lemma OneBit(x: bv32, y: bv32, c: bv32, s: bv32, m: bv32)
    requires Sums(x, y, c, s, m) && Bit(m) == 1
    ensures Bit(x) + Bit(y) + Bit(c) == Bit(s) + 2 * Bit(Majority(x, y, c))
  {
  }

  lemma PlusAdds(x: bv32, y: bv32, c: bv32)
    requires c == Sum3(x, y, Plus32(x, y))
    ensures Sums(x, y, c, Plus32(x, y), 0xffff_ffff) && Carries(c, Majority(x, y, c), 0xffff_ffff) && Bit(c) == 0
  {
    hide Majority, Sum3, Sums, Carried, Bit, Carries, Plus32;
    Cancelled(x, y, Plus32(x, y));
    Carries8(x, y, c);
    Carries16(x, y, c);
    Carries24(x, y, c);
    Carries32(x, y, c);
    Lifted(c, Majority(x, y, c));
  }

  lemma UnderBits(x: bv32, m: bv32)
    ensures Down(Under(x, m)) == Under(Down(x), Down(m)) && (Bit(m) == 1 ==> Bit(Under(x, m)) == Bit(x))
  {
  }

  lemma UnderDown(x: bv32, m: bv32)
    requires Bit(m) == 1
    ensures Value(Under(x, m)) == 2 * Value(Under(Down(x), Down(m))) + Bit(x)
  {
    hide *;
    LowBit(Under(x, m));
    UnderBits(x, m);
  }

  /** Ripple carry: the carry out of the low `n` bits is what their sum lacks. */
  lemma {:induction false} Ripple(x: bv32, y: bv32, c: bv32, s: bv32, m: bv32, n: nat) returns (carry: bool)
    requires Ones(m, n) && Sums(x, y, c, s, m) && Carries(c, Majority(x, y, c), m)
    ensures Value(Under(x, m)) + Value(Under(y, m)) + Bit(c) == Value(Under(s, m)) + if carry then Pow2(n) else 0
    decreases n
  {
    hide Value, Bit, Down, Under, Sums, Carries, Majority, Within;
    if n == 0 {
      BitIs(c);
      carry := Bit(c) == 1;
      UnderNone(x);
      UnderNone(y);
      UnderNone(s);
    } else {
      var g := Majority(x, y, c);
      SumsDown(x, y, c, g, s, m);
      CarriesDown(x, y, c, g, m);
      OneBit(x, y, c, s, m);
      carry := Ripple(Down(x), Down(y), g, Down(s), Down(m), n - 1);
      UnderDown(x, m);
      UnderDown(y, m);
      UnderDown(s, m);
    }
  }

  /** Vectors add modulo 2^32. */
  lemma PlusIs(x: bv32, y: bv32)
    ensures Add(Value(x), Value(y)) == Value(Plus32(x, y))
  {
    hide Value, Bit, Under, Sum3, Sums, Carries, Majority, Ones, Pow2, Plus32;
    AllOnes();
    var s := Plus32(x, y);
    var c := Sum3(x, y, s);
    PlusAdds(x, y, c);
    var carry := Ripple(x, y, c, s, 0xffff_ffff, 32);
    UnderNone(x);
    UnderNone(y);
    UnderNone(s);
    Pow2Values();
  }

  // ----- rotation -----

  function Ups(x: bv32, n: nat): bv32
    decreases n
  {
    if n == 0 then x else Up(Ups(x, n - 1))
  }

  function Downs(x: bv32, n: nat): bv32
    decreases n
  {
    if n == 0 then x else Down(Downs(x, n - 1))
  }

  lemma UpIs(x: bv32)
    ensures Value(Up(x)) == Wrap(2 * Value(x))
  {
    hide Value, Up, Low31, Has;
    Doubled(x);
    Top(x);
  }

  lemma WrapTwice(n: int)
    ensures Wrap(2 * Wrap(n)) == Wrap(2 * n)
  {
    assert 2 * n == 2 * Wrap(n) + 0x1_0000_0000 * (2 * (n / 0x1_0000_0000));
    WrapMore(2 * Wrap(n), 2 * (n / 0x1_0000_0000));
  }

  lemma WrapMore(n: int, k: int)
    ensures Wrap(n + 0x1_0000_0000 * k) == Wrap(n)
  {
  }

  lemma {:induction false} UpsIs(x: bv32, n: nat)
    ensures Value(Ups(x, n)) == Wrap(Value(x) * Pow2(n))
    decreases n
  {
    hide Value, Up, Wrap;
    if n == 0 {
      Small(Value(x));
    } else {
      UpsIs(x, n - 1);
      UpIs(Ups(x, n - 1));
      WrapTwice(Value(x) * Pow2(n - 1));
      assert Value(x) * Pow2(n) == 2 * (Value(x) * Pow2(n - 1));
    }
  }

  lemma Small(x: word)
    ensures Wrap(x) == x
  {
  }

  lemma {:induction false} DownsIs(x: bv32, n: nat)
    ensures Value(Downs(x, n)) == Value(x) / Pow2(n)
    decreases n
  {
    hide Value, Down;
    if n > 0 {
      DownsIs(x, n - 1);
      LowBit(Downs(x, n - 1));
      Halved(Value(x), Pow2(n - 1));
    }
  }

  lemma Halved(x: nat, p: nat)
    requires p > 0
    ensures x / p / 2 == x / (2 * p)
  {
    var q, r := x / p, x % p;
    assert p * q == 2 * p * (q / 2) + p * (q % 2) by {
      assert q == 2 * (q / 2) + q % 2;
    }
    Quotient(x, 2 * p, q / 2, if q % 2 == 1 then p + r else r);
  }

  lemma Quotient(x: nat, p: nat, q: nat, r: nat)
    requires r < p && x == p * q + r
    ensures x / p == q
  {
    var d := x / p - q;
    assert p * d == r - x % p;
    Multiple(p, d);
  }

  lemma Multiple(p: nat, d: int)
    ensures d == 0 || p * d >= p || p * d + p <= 0
  {
  }

  // The rotations of the four rounds.

  function Turn1(i: nat, x: bv32): bv32 {
    if i % 4 == 0 then Or32(x << 7, x >> 25) else if i % 4 == 1 then Or32(x << 12, x >> 20)
    else if i % 4 == 2 then Or32(x << 17, x >> 15) else Or32(x << 22, x >> 10)
  }

  function Turn2(i: nat, x: bv32): bv32 {
    if i % 4 == 0 then Or32(x << 5, x >> 27) else if i % 4 == 1 then Or32(x << 9, x >> 23)
    else if i % 4 == 2 then Or32(x << 14, x >> 18) else Or32(x << 20, x >> 12)
  }

  function Turn3(i: nat, x: bv32): bv32 {
    if i % 4 == 0 then Or32(x << 4, x >> 28) else if i % 4 == 1 then Or32(x << 11, x >> 21)
    else if i % 4 == 2 then Or32(x << 16, x >> 16) else Or32(x << 23, x >> 9)
  }

  function Turn4(i: nat, x: bv32): bv32 {
    if i % 4 == 0 then Or32(x << 6, x >> 26) else if i % 4 == 1 then Or32(x << 10, x >> 22)
    else if i % 4 == 2 then Or32(x << 15, x >> 17) else Or32(x << 21, x >> 11)
  }

  function Turn(i: nat, x: bv32): bv32 {
    if i < 16 then Turn1(i, x) else if i < 32 then Turn2(i, x) else if i < 48 then Turn3(i, x) else Turn4(i, x)
  }

  lemma UpSteps(x: bv32)
    ensures Up(x) == x << 1 && Up(x << 1) == x << 2 && Up(x << 2) == x << 3 && Up(x << 3) == x << 4
    ensures Up(x << 4) == x << 5 && Up(x << 5) == x << 6 && Up(x << 6) == x << 7 && Up(x << 7) == x << 8
    ensures Up(x << 8) == x << 9 && Up(x << 9) == x << 10 && Up(x << 10) == x << 11 && Up(x << 11) == x << 12
    ensures Up(x << 12) == x << 13 && Up(x << 13) == x << 14 && Up(x << 14) == x << 15 && Up(x << 15) == x << 16
    ensures Up(x << 16) == x << 17 && Up(x << 17) == x << 18 && Up(x << 18) == x << 19 && Up(x << 19) == x << 20
    ensures Up(x << 20) == x << 21 && Up(x << 21) == x << 22 && Up(x << 22) == x << 23
  {
  }

  lemma DownSteps(x: bv32)
    ensures Down(x) == x >> 1 && Down(x >> 1) == x >> 2 && Down(x >> 2) == x >> 3 && Down(x >> 3) == x >> 4
    ensures Down(x >> 4) == x >> 5 && Down(x >> 5) == x >> 6 && Down(x >> 6) == x >> 7 && Down(x >> 7) == x >> 8
    ensures Down(x >> 8) == x >> 9 && Down(x >> 9) == x >> 10 && Down(x >> 10) == x >> 11 && Down(x >> 11) == x >> 12
    ensures Down(x >> 12) == x >> 13 && Down(x >> 13) == x >> 14 && Down(x >> 14) == x >> 15 && Down(x >> 15) == x >> 16
    ensures Down(x >> 16) == x >> 17 && Down(x >> 17) == x >> 18 && Down(x >> 18) == x >> 19 && Down(x >> 19) == x >> 20
    ensures Down(x >> 20) == x >> 21 && Down(x >> 21) == x >> 22 && Down(x >> 22) == x >> 23 && Down(x >> 23) == x >> 24
    ensures Down(x >> 24) == x >> 25 && Down(x >> 25) == x >> 26 && Down(x >> 26) == x >> 27 && Down(x >> 27) == x >> 28
  {
  }

  lemma Shifts1(x: bv32)
    ensures Ups(x, 7) == x << 7 && Ups(x, 12) == x << 12 && Ups(x, 17) == x << 17 && Ups(x, 22) == x << 22
    ensures Downs(x, 25) == x >> 25 && Downs(x, 20) == x >> 20 && Downs(x, 15) == x >> 15 && Downs(x, 10) == x >> 10
  {
    hide Up, Down;
    UpSteps(x);
    DownSteps(x);
    assert Ups(x, 2) == x << 2;
    assert Ups(x, 6) == x << 6;
    assert Ups(x, 10) == x << 10;
    assert Ups(x, 14) == x << 14;
    assert Ups(x, 18) == x << 18;
    assert Downs(x, 2) == x >> 2;
    assert Downs(x, 6) == x >> 6;
    assert Downs(x, 10) == x >> 10;
    assert Downs(x, 14) == x >> 14;
    assert Downs(x, 18) == x >> 18;
    assert Downs(x, 22) == x >> 22;
  }

  lemma Shifts2(x: bv32)
    ensures Ups(x, 5) == x << 5 && Ups(x, 9) == x << 9 && Ups(x, 14) == x << 14 && Ups(x, 20) == x << 20
    ensures Downs(x, 27) == x >> 27 && Downs(x, 23) == x >> 23 && Downs(x, 18) == x >> 18 && Downs(x, 12) == x >> 12
  {
    hide Up, Down;
    UpSteps(x);
    DownSteps(x);
    assert Ups(x, 2) == x << 2;
    assert Ups(x, 6) == x << 6;
    assert Ups(x, 10) == x << 10;
    assert Ups(x, 14) == x << 14;
    assert Ups(x, 18) == x << 18;
    assert Downs(x, 2) == x >> 2;
    assert Downs(x, 6) == x >> 6;
    assert Downs(x, 10) == x >> 10;
    assert Downs(x, 14) == x >> 14;
    assert Downs(x, 18) == x >> 18;
    assert Downs(x, 22) == x >> 22;
    assert Downs(x, 26) == x >> 26;
  }

  lemma Shifts3(x: bv32)
    ensures Ups(x, 4) == x << 4 && Ups(x, 11) == x << 11 && Ups(x, 16) == x << 16 && Ups(x, 23) == x << 23
    ensures Downs(x, 28) == x >> 28 && Downs(x, 21) == x >> 21 && Downs(x, 16) == x >> 16 && Downs(x, 9) == x >> 9
  {
    hide Up, Down;
    UpSteps(x);
    DownSteps(x);
    assert Ups(x, 2) == x << 2;
    assert Ups(x, 6) == x << 6;
    assert Ups(x, 10) == x << 10;
    assert Ups(x, 14) == x << 14;
    assert Ups(x, 18) == x << 18;
    assert Ups(x, 22) == x << 22;
    assert Downs(x, 2) == x >> 2;
    assert Downs(x, 6) == x >> 6;
    assert Downs(x, 10) == x >> 10;
    assert Downs(x, 14) == x >> 14;
    assert Downs(x, 18) == x >> 18;
    assert Downs(x, 22) == x >> 22;
    assert Downs(x, 26) == x >> 26;
  }

  lemma Shifts4(x: bv32)
    ensures Ups(x, 6) == x << 6 && Ups(x, 10) == x << 10 && Ups(x, 15) == x << 15 && Ups(x, 21) == x << 21
    ensures Downs(x, 26) == x >> 26 && Downs(x, 22) == x >> 22 && Downs(x, 17) == x >> 17 && Downs(x, 11) == x >> 11
  {
    hide Up, Down;
    UpSteps(x);
    DownSteps(x);
    assert Ups(x, 2) == x << 2;
    assert Ups(x, 6) == x << 6;
    assert Ups(x, 10) == x << 10;
    assert Ups(x, 14) == x << 14;
    assert Ups(x, 18) == x << 18;
    assert Downs(x, 2) == x >> 2;
    assert Downs(x, 6) == x >> 6;
    assert Downs(x, 10) == x >> 10;
    assert Downs(x, 14) == x >> 14;
    assert Downs(x, 18) == x >> 18;
    assert Downs(x, 22) == x >> 22;
  }

  lemma Turn1Is(i: nat, x: bv32)
    requires i < 16
    ensures Turn1(i, x) == Or32(Ups(x, Shift(i)), Downs(x, 32 - Shift(i)))
  {
    hide Ups, Downs, Or32;
    Shifts1(x);
  }

  lemma Turn2Is(i: nat, x: bv32)
    requires 16 <= i < 32
    ensures Turn2(i, x) == Or32(Ups(x, Shift(i)), Downs(x, 32 - Shift(i)))
  {
    hide Ups, Downs, Or32;
    Shifts2(x);
  }

  lemma Turn3Is(i: nat, x: bv32)
    requires 32 <= i < 48
    ensures Turn3(i, x) == Or32(Ups(x, Shift(i)), Downs(x, 32 - Shift(i)))
  {
    hide Ups, Downs, Or32;
    Shifts3(x);
  }

  lemma Turn4Is(i: nat, x: bv32)
    requires 48 <= i
    ensures Turn4(i, x) == Or32(Ups(x, Shift(i)), Downs(x, 32 - Shift(i)))
  {
    hide Ups, Downs, Or32;
    Shifts4(x);
  }

  lemma TurnParts(i: nat, x: bv32)
    ensures Turn(i, x) == Or32(Ups(x, Shift(i)), Downs(x, 32 - Shift(i)))
  {
    hide Ups, Downs, Shift, Or32, Turn1, Turn2, Turn3, Turn4;
    if i < 16 {
      Turn1Is(i, x);
    } else if i < 32 {
      Turn2Is(i, x);
    } else if i < 48 {
      Turn3Is(i, x);
    } else {
      Turn4Is(i, x);
    }
  }

  lemma TurnIs(i: nat, x: bv32)
    ensures RotateLeft(Value(x), Shift(i)) == Value(Turn(i, x))
  {
    hide Value, Ups, Downs, Shift, Turn, Or, Or32, Pow2, Wrap;
    TurnParts(i, x);
    UpsIs(x, Shift(i));
    DownsIs(x, 32 - Shift(i));
    Bitwise(Ups(x, Shift(i)), Downs(x, 32 - Shift(i)));
    Small(Value(Downs(x, 32 - Shift(i))));
  }

  // ----- the operations -----

  // The table as vectors.

  function Table1(i: nat): bv32 {
    if i == 0 then 0xd76aa478 else if i == 1 then 0xe8c7b756 else
    if i == 2 then 0x242070db else if i == 3 then 0xc1bdceee else
    if i == 4 then 0xf57c0faf else if i == 5 then 0x4787c62a else
    if i == 6 then 0xa8304613 else if i == 7 then 0xfd469501 else
    if i == 8 then 0x698098d8 else if i == 9 then 0x8b44f7af else
    if i == 10 then 0xffff5bb1 else if i == 11 then 0x895cd7be else
    if i == 12 then 0x6b901122 else if i == 13 then 0xfd987193 else
    if i == 14 then 0xa679438e else 0x49b40821
  }

  function Table2(i: nat): bv32 {
    if i == 16 then 0xf61e2562 else if i == 17 then 0xc040b340 else
    if i == 18 then 0x265e5a51 else if i == 19 then 0xe9b6c7aa else
    if i == 20 then 0xd62f105d else if i == 21 then 0x02441453 else
    if i == 22 then 0xd8a1e681 else if i == 23 then 0xe7d3fbc8 else
    if i == 24 then 0x21e1cde6 else if i == 25 then 0xc33707d6 else
    if i == 26 then 0xf4d50d87 else if i == 27 then 0x455a14ed else
    if i == 28 then 0xa9e3e905 else if i == 29 then 0xfcefa3f8 else
    if i == 30 then 0x676f02d9 else 0x8d2a4c8a
  }

  function Table3(i: nat): bv32 {
    if i == 32 then 0xfffa3942 else if i == 33 then 0x8771f681 else
    if i == 34 then 0x6d9d6122 else if i == 35 then 0xfde5380c else
    if i == 36 then 0xa4beea44 else if i == 37 then 0x4bdecfa9 else
    if i == 38 then 0xf6bb4b60 else if i == 39 then 0xbebfbc70 else
    if i == 40 then 0x289b7ec6 else if i == 41 then 0xeaa127fa else
    if i == 42 then 0xd4ef3085 else if i == 43 then 0x04881d05 else
    if i == 44 then 0xd9d4d039 else if i == 45 then 0xe6db99e5 else
    if i == 46 then 0x1fa27cf8 else 0xc4ac5665
  }

  function Table4(i: nat): bv32 {
    if i == 48 then 0xf4292244 else if i == 49 then 0x432aff97 else
    if i == 50 then 0xab9423a7 else if i == 51 then 0xfc93a039 else
    if i == 52 then 0x655b59c3 else if i == 53 then 0x8f0ccc92 else
    if i == 54 then 0xffeff47d else if i == 55 then 0x85845dd1 else
    if i == 56 then 0x6fa87e4f else if i == 57 then 0xfe2ce6e0 else
    if i == 58 then 0xa3014314 else if i == 59 then 0x4e0811a1 else
    if i == 60 then 0xf7537e82 else if i == 61 then 0xbd3af235 else
    if i == 62 then 0x2ad7d2bb else 0xeb86d391
  }

  function T32(i: nat): bv32 {
    if i < 16 then Table1(i) else if i < 32 then Table2(i) else if i < 48 then Table3(i) else Table4(i)
  }

  lemma Table1Values()
    ensures Value(0xd76aa478) == 0xd76aa478 && Value(0xe8c7b756) == 0xe8c7b756
    ensures Value(0x242070db) == 0x242070db && Value(0xc1bdceee) == 0xc1bdceee
    ensures Value(0xf57c0faf) == 0xf57c0faf && Value(0x4787c62a) == 0x4787c62a
    ensures Value(0xa8304613) == 0xa8304613 && Value(0xfd469501) == 0xfd469501
    ensures Value(0x698098d8) == 0x698098d8 && Value(0x8b44f7af) == 0x8b44f7af
    ensures Value(0xffff5bb1) == 0xffff5bb1 && Value(0x895cd7be) == 0x895cd7be
    ensures Value(0x6b901122) == 0x6b901122 && Value(0xfd987193) == 0xfd987193
    ensures Value(0xa679438e) == 0xa679438e && Value(0x49b40821) == 0x49b40821
  {
  }

  lemma Table2Values()
    ensures Value(0xf61e2562) == 0xf61e2562 && Value(0xc040b340) == 0xc040b340
    ensures Value(0x265e5a51) == 0x265e5a51 && Value(0xe9b6c7aa) == 0xe9b6c7aa
    ensures Value(0xd62f105d) == 0xd62f105d && Value(0x02441453) == 0x02441453
    ensures Value(0xd8a1e681) == 0xd8a1e681 && Value(0xe7d3fbc8) == 0xe7d3fbc8
    ensures Value(0x21e1cde6) == 0x21e1cde6 && Value(0xc33707d6) == 0xc33707d6
    ensures Value(0xf4d50d87) == 0xf4d50d87 && Value(0x455a14ed) == 0x455a14ed
    ensures Value(0xa9e3e905) == 0xa9e3e905 && Value(0xfcefa3f8) == 0xfcefa3f8
    ensures Value(0x676f02d9) == 0x676f02d9 && Value(0x8d2a4c8a) == 0x8d2a4c8a
  {
  }

  lemma Table3Values()
    ensures Value(0xfffa3942) == 0xfffa3942 && Value(0x8771f681) == 0x8771f681
    ensures Value(0x6d9d6122) == 0x6d9d6122 && Value(0xfde5380c) == 0xfde5380c
    ensures Value(0xa4beea44) == 0xa4beea44 && Value(0x4bdecfa9) == 0x4bdecfa9
    ensures Value(0xf6bb4b60) == 0xf6bb4b60 && Value(0xbebfbc70) == 0xbebfbc70
    ensures Value(0x289b7ec6) == 0x289b7ec6 && Value(0xeaa127fa) == 0xeaa127fa
    ensures Value(0xd4ef3085) == 0xd4ef3085 && Value(0x04881d05) == 0x04881d05
    ensures Value(0xd9d4d039) == 0xd9d4d039 && Value(0xe6db99e5) == 0xe6db99e5
    ensures Value(0x1fa27cf8) == 0x1fa27cf8 && Value(0xc4ac5665) == 0xc4ac5665
  {
  }

  lemma Table4Values()
    ensures Value(0xf4292244) == 0xf4292244 && Value(0x432aff97) == 0x432aff97
    ensures Value(0xab9423a7) == 0xab9423a7 && Value(0xfc93a039) == 0xfc93a039
    ensures Value(0x655b59c3) == 0x655b59c3 && Value(0x8f0ccc92) == 0x8f0ccc92
    ensures Value(0xffeff47d) == 0xffeff47d && Value(0x85845dd1) == 0x85845dd1
    ensures Value(0x6fa87e4f) == 0x6fa87e4f && Value(0xfe2ce6e0) == 0xfe2ce6e0
    ensures Value(0xa3014314) == 0xa3014314 && Value(0x4e0811a1) == 0x4e0811a1
    ensures Value(0xf7537e82) == 0xf7537e82 && Value(0xbd3af235) == 0xbd3af235
    ensures Value(0x2ad7d2bb) == 0x2ad7d2bb && Value(0xeb86d391) == 0xeb86d391
  {
  }

  lemma TableIs(i: nat)
    ensures Value(T32(i)) == T(i)
  {
    hide Value;
    if i < 16 {
      Table1Values();
    } else if i < 32 {
      Table2Values();
    } else if i < 48 {
      Table3Values();
    } else {
      Table4Values();
    }
  }

  function Assigned32(i: nat, a: bv32, b: bv32, c: bv32, d: bv32, m: bv32): bv32 {
    Plus32(b, Turn(i, Plus32(Plus32(a, Mix32(i, b, c, d)), Plus32(m, T32(i)))))
  }

  lemma TwoAndTwo(a: int, f: int, m: int, t: int)
    ensures Add(Add(a, f), Add(m, t)) == Sum(a, f, m, t)
  {
  }

  lemma SumIs(a: bv32, f: bv32, m: bv32, t: bv32)
    ensures Sum(Value(a), Value(f), Value(m), Value(t)) == Value(Plus32(Plus32(a, f), Plus32(m, t)))
  {
    hide Value, Plus32, Add, Sum;
    PlusIs(a, f);
    PlusIs(m, t);
    PlusIs(Plus32(a, f), Plus32(m, t));
    TwoAndTwo(Value(a), Value(f), Value(m), Value(t));
  }

  function Values(block: seq<bv32>): (v: seq<word>)
    ensures |v| == |block|
  {
    seq(|block|, k requires 0 <= k < |block| => Value(block[k]))
  }

  /** What an operation assigns on a machine is what it assigns in section 3.4. */
  lemma AssignedIs(i: nat, a: bv32, b: bv32, c: bv32, d: bv32, block: seq<bv32>)
    requires |block| == 16
    ensures Assigned(i, Value(a), Value(b), Value(c), Value(d), Values(block)) ==
            Value(Assigned32(i, a, b, c, d, block[Index(i)]))
  {
    hide Value, Plus32, Turn, Mix32, T32, Index, Shift, T, Mix, RotateLeft, Sum;
    var m := block[Index(i)];
    MixIs(i, b, c, d);
    TableIs(i);
    SumIs(a, Mix32(i, b, c, d), m, T32(i));
    TurnIs(i, Plus32(Plus32(a, Mix32(i, b, c, d)), Plus32(m, T32(i))));
    PlusIs(b, Turn(i, Plus32(Plus32(a, Mix32(i, b, c, d)), Plus32(m, T32(i)))));
  }

  /** One operation on literals: the function makes `f`, the sum is `s`, and `v` is assigned. */
  predicate Makes(i: nat, a: bv32, b: bv32, c: bv32, d: bv32, m: bv32, t: bv32, f: bv32, s: bv32, v: bv32) {
    Mix32(i, b, c, d) == f && Plus32(Plus32(a, f), Plus32(m, t)) == s && Plus32(b, Turn(i, s)) == v
  }

  /** The registers after `n` operations on a block, the one to be assigned next first. */
  predicate After(block: seq<bv32>, n: nat, a: bv32, b: bv32, c: bv32, d: bv32)
    requires |block| == 16
  {
    Operations(START, Values(block), n) == Ordered(n, Value(a), Value(b), Value(c), Value(d))
  }

  /** Operation `n` has the order ABCD, DABC, CDAB or BCDA. */
  function Ordered(n: nat, a: word, b: word, c: word, d: word): Registers {
    if n % 4 == 0 then Registers(a, b, c, d) else if n % 4 == 1 then Registers(b, c, d, a)
    else if n % 4 == 2 then Registers(c, d, a, b) else Registers(d, a, b, c)
  }

  lemma NextOperation(r: Registers, block: seq<word>, i: nat)
    requires |block| == 16
    ensures Operations(r, block, i + 1) == Operation(Operations(r, block, i), block, i)
  {
    hide Operation;
  }

  lemma Next(block: seq<bv32>, i: nat, a: bv32, b: bv32, c: bv32, d: bv32, m: bv32, t: bv32, f: bv32, s: bv32, v: bv32)
    requires |block| == 16 && block[Index(i)] == m && T32(i) == t
    requires Makes(i, a, b, c, d, m, t, f, s, v) && After(block, i, a, b, c, d)
    ensures After(block, i + 1, d, v, b, c)
  {
    hide Operations, Assigned, Plus32, Mix32, Turn, Value, Values, Index, T32;
    AssignedIs(i, a, b, c, d, block);
    NextOperation(START, Values(block), i);
  }
}
