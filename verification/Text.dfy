/** C strings and the searches the parser makes in them (util/util.c). A byte is a `char`. */
module Text {

  datatype Option<+T> = None | Some(value: T)

  /** The bytes before the first NUL. */
  function CString(s: string): (r: string)
    ensures '\0' !in r
  {
    if s == "" || s[0] == '\0' then "" else [s[0]] + CString(s[1..])
  }

  lemma {:induction false} CStringWhole(s: string)
    requires '\0' !in s
    ensures CString(s) == s
  {
    if s != "" {
      CStringWhole(s[1..]);
    }
  }

  predicate At(s: string, pat: string, i: nat) {
    i + |pat| <= |s| && s[i..i + |pat|] == pat
  }

  /** The first place `pat` occurs in `s`. */
  function Find(s: string, pat: string): (r: Option<nat>)
    ensures r.Some? ==> At(s, pat, r.value) && forall j :: 0 <= j < r.value ==> !At(s, pat, j)
    ensures r.None? ==> forall j :: 0 <= j <= |s| ==> !At(s, pat, j)
  {
    if At(s, pat, 0) then Some(0)
    else if s == "" then None
    else
      var r := Find(s[1..], pat);
      assert forall j :: 0 < j ==> (At(s, pat, j) <==> At(s[1..], pat, j - 1));
      if r.Some? then Some(r.value + 1) else None
  }

  lemma FindIs(s: string, pat: string, i: nat)
    requires At(s, pat, i) && forall j :: 0 <= j < i ==> !At(s, pat, j)
    ensures Find(s, pat) == Some(i)
  {
  }

  /** The first index of `c`, or the length. */
  function IndexOf(s: string, c: char): (r: nat)
    ensures r <= |s| && (r < |s| ==> s[r] == c) && forall j :: 0 <= j < r ==> s[j] != c
  {
    if s == "" || s[0] == c then 0 else 1 + IndexOf(s[1..], c)
  }

  /** Bounded substring search: a window slides over the text until it matches or no
      longer fits. The empty pattern is found at once. */
  method Strnstr(s1: string, s2: string, len: nat) returns (r: Option<nat>)
    requires len <= |s1|
    ensures r == Find(s1[..len], s2)
  {
    var t := s1[..len];
    if |s2| == 0 {
      FindIs(t, s2, 0);
      return Some(0);
    }
    var left, i := len, 0;
    while left >= |s2|
      invariant 0 <= i && left + i == len
      invariant forall j :: 0 <= j < i ==> !At(t, s2, j)
    {
      left := left - 1;
      assert t[i..i + |s2|] == s1[i..i + |s2|];
      if s1[i..i + |s2|] == s2 {
        FindIs(t, s2, i);
        return Some(i);
      }
      i := i + 1;
    }
    r := None;
  }

  predicate IsSpace(c: char) {
    c in " \t\n\r" || c == 11 as char || c == 12 as char
  }

  /** Nothing but white space. */
  predicate IsBlank(s: string) {
    forall c :: c in s ==> IsSpace(c)
  }
}
