/** Decimal numbers as `%d`, `%lld`, `atoi` and `atoll` write and read them. */
module Numbers {
  import opened Text

  const INT_MIN := -0x8000_0000
  const INT_MAX := 0x7fff_ffff
  const INT64_MIN := -0x8000_0000_0000_0000
  const INT64_MAX := 0x7fff_ffff_ffff_ffff

  predicate IsInt(n: int) { INT_MIN <= n <= INT_MAX }

  predicate IsInt64(n: int) { INT64_MIN <= n <= INT64_MAX }

  predicate IsDigit(c: char) { '0' as int <= c as int <= '9' as int }

  function Digits(n: nat): (r: string)
    ensures r != "" && forall c :: c in r ==> IsDigit(c)
  {
    var last := [(n % 10) as char + '0'];
    if n < 10 then last else Digits(n / 10) + last
  }

  function Decimal(n: int): string {
    if n < 0 then "-" + Digits(-n) else Digits(n)
  }

  function Value(s: string): nat
    requires forall c :: c in s ==> IsDigit(c)
  {
    if s == "" then 0
    else
      var last := s[|s| - 1];
      assert last in s && IsDigit(last);
      Value(s[..|s| - 1]) * 10 + (last as int - '0' as int)
  }

  /** Length of the run of leading characters that satisfy `p`. */
  function Span(s: string, p: char -> bool): (r: nat)
    ensures r <= |s| && (forall j :: 0 <= j < r ==> p(s[j])) && (r < |s| ==> !p(s[r]))
  {
    if s == "" || !p(s[0]) then 0 else 1 + Span(s[1..], p)
  }

  function Clamp(n: int, lo: int, hi: int): int {
    if n < lo then lo else if n > hi then hi else n
  }

  /** Optional white space, an optional sign, digits; saturated to 64 bits. */
  function Atoll(s: string): (r: int)
    ensures IsInt64(r)
  {
    var t := s[Span(s, IsSpace)..];
    var signed := t != "" && t[0] in "+-";
    var u := if signed then t[1..] else t;
    var v: int := Value(u[..Span(u, IsDigit)]);
    Clamp(if signed && t[0] == '-' then -v else v, INT64_MIN, INT64_MAX)
  }

  /** The low 32 bits of the 64-bit reading. */
  function Atoi(s: string): (r: int)
    ensures IsInt(r)
  {
    (Atoll(s) - INT_MIN) % 0x1_0000_0000 + INT_MIN
  }

  lemma {:induction false} ValueOfDigits(n: nat)
    ensures Value(Digits(n)) == n
  {
    if n >= 10 {
      ValueOfDigits(n / 10);
      var d := Digits(n);
      assert d[..|d| - 1] == Digits(n / 10);
    }
  }

  lemma SpanAll(s: string, p: char -> bool)
    requires forall c :: c in s ==> p(c)
    ensures Span(s, p) == |s|
  {
    assert forall j :: 0 <= j < |s| ==> s[j] in s;
  }

  lemma AtollOfDigits(ds: string, negative: bool)
    requires ds != "" && forall c :: c in ds ==> IsDigit(c)
    ensures Atoll(if negative then "-" + ds else ds) ==
      Clamp(if negative then 0 - Value(ds) else Value(ds), INT64_MIN, INT64_MAX)
  {
    hide Value, Clamp;
    var s := if negative then "-" + ds else ds;
    assert ds[0] in ds && IsDigit(ds[0]);
    NoSpaceFirst(s);
    assert s[0..] == s;
    assert negative ==> s[1..] == ds;
    SpanAll(ds, IsDigit);
    assert ds[..|ds|] == ds;
  }

  lemma NoSpaceFirst(s: string)
    requires s != "" && !IsSpace(s[0])
    ensures Span(s, IsSpace) == 0
  {
  }

  /** Reading back what was printed. */
  lemma AtollReadsDecimal(n: int)
    requires IsInt64(n)
    ensures Atoll(Decimal(n)) == n
    ensures IsInt(n) ==> Atoi(Decimal(n)) == n
  {
    hide Atoll, Value, Digits;
    var m: nat := if n < 0 then -n else n;
    AtollOfDigits(Digits(m), n < 0);
    ValueOfDigits(m);
  }

  /** A printed number holds nothing that ends a header line or a C string. */
  lemma DecimalIsPlain(n: int)
    ensures forall c :: c in Decimal(n) ==> IsDigit(c) || c == '-'
  {
  }

  lemma SpaceIs(c: char)
    ensures IsSpace(c) <==> c == ' ' || 9 <= c as int <= 13
  {
  }

  lemma SpanIs(front: string, rest: string, p: char -> bool)
    requires (forall c :: c in front ==> p(c)) && (rest == "" || !p(rest[0]))
    ensures Span(front + rest, p) == |front|
  {
    var s := front + rest;
    assert forall j :: 0 <= j < |front| ==> s[j] == front[j] && front[j] in front;
    if rest != "" {
      assert s[|front|] == rest[0];
    }
  }

  /** A sign, if there is one, and digits. */
  lemma SignedIs(s: string, k: nat, sign: string, ds: string, rest: string)
    requires k == Span(s, IsSpace) && s[k..] == sign + (ds + rest)
    requires sign == "" || sign == "+" || sign == "-"
    requires (forall c :: c in ds ==> IsDigit(c)) && (rest == "" || !IsDigit(rest[0]))
    requires sign == "" && ds == "" && rest != "" ==> rest[0] != '+' && rest[0] != '-'
    ensures Atoll(s) == Clamp(if sign == "-" then 0 - Value(ds) else Value(ds), INT64_MIN, INT64_MAX)
  {
    hide Value, Clamp, Span, IsSpace;
    var t, u := s[k..], ds + rest;
    SpanIs(ds, rest, IsDigit);
    assert u[..|ds|] == ds;
    if sign == "" {
      assert t == u;
      if ds != "" {
        assert t[0] == ds[0] && ds[0] in ds;
      }
    } else {
      assert t[0] == sign[0] && t[1..] == u;
    }
    var signed := t != "" && t[0] in "+-";
    assert signed <==> sign != "";
    assert signed && t[0] == '-' <==> sign == "-";
    assert (if signed then t[1..] else t) == u;
  }

  /** Any text is read as the number its digits make after white space and one sign, none being 0; what follows the
      digits is left; and what does not fit in 64 bits is the nearest that does. */
  lemma AtollMeaning(spaces: string, sign: string, ds: string, rest: string)
    requires forall c :: c in spaces ==> c == ' ' || 9 <= c as int <= 13
    requires sign == "" || sign == "+" || sign == "-"
    requires (forall c :: c in ds ==> IsDigit(c)) && (rest == "" || !IsDigit(rest[0]))
    requires sign == "" && ds == "" && rest != "" ==> !IsSpace(rest[0]) && rest[0] != '+' && rest[0] != '-'
    ensures var n := if sign == "-" then 0 - Value(ds) else Value(ds);
      Atoll(spaces + sign + ds + rest) ==
      if n < -0x8000_0000_0000_0000 then -0x8000_0000_0000_0000
      else if n > 0x7fff_ffff_ffff_ffff then 0x7fff_ffff_ffff_ffff else n
  {
    hide Value, IsSpace, Atoll, Span;
    var t := sign + (ds + rest);
    var s := spaces + t;
    assert s == spaces + sign + ds + rest && s[|spaces|..] == t;
    forall c | c in spaces
      ensures IsSpace(c)
    {
      SpaceIs(c);
    }
    if t != "" {
      SpaceIs(t[0]);
      if sign == "" && ds != "" {
        assert t[0] == ds[0] && ds[0] in ds;
      }
    }
    SpanIs(spaces, t, IsSpace);
    SignedIs(s, |spaces|, sign, ds, rest);
  }

  /** What does not fit in 32 bits wraps around. */
  lemma AtoiMeaning(s: string)
    ensures -0x8000_0000 <= Atoi(s) <= 0x7fff_ffff && (Atoi(s) - Atoll(s)) % 0x1_0000_0000 == 0
  {
    hide Atoll;
  }
}
