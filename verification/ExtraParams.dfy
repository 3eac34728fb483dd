/** The `name[value]` parameter strings of parser/net_message.c. */
module ExtraParams {
  import opened Text

  datatype Pair = Pair(key: string, value: string)

  predicate Plain(s: string) {
    '[' !in s && ']' !in s
  }

  predicate CleanName(s: string) {
    s != "" && Plain(s)
  }

  predicate Clean(ps: seq<Pair>) {
    forall p :: p in ps ==> CleanName(p.key) && Plain(p.value)
  }

  function Group(p: Pair): string {
    p.key + "[" + p.value + "]"
  }

  function Render(ps: seq<Pair>): string {
    if ps == [] then "" else Group(ps[0]) + Render(ps[1..])
  }

  // ----- the format check -----

  /** The group at the start of `s`, if there is one, and its length. */
  function FirstGroup(s: string): (r: Option<(Pair, nat)>)
    ensures r.Some? ==> 0 < r.value.1 <= |s|
  {
    var k := IndexOf(s, '[');
    if k == |s| || k == 0 || IndexOf(s[..k], ']') < k then None
    else
      var t := s[k + 1..];
      var v := IndexOf(t, ']');
      if v == |t| || IndexOf(t[..v], '[') < v then None
      else Some((Pair(s[..k], t[..v]), k + v + 2))
  }

  /** The groups the checking loop accepts, one per turn. */
  function Groups(s: string): (r: Option<seq<Pair>>)
    decreases |s|
  {
    match FirstGroup(s)
    case None => None
    case Some((g, n)) =>
      if n == |s| then Some([g])
      else
        match Groups(s[n..])
        case None => None
        case Some(more) => Some([g] + more)
  }

  lemma FirstGroupSound(s: string)
    ensures FirstGroup(s).Some? ==>
      var (g, n) := FirstGroup(s).value; CleanName(g.key) && Plain(g.value) && s[..n] == Group(g)
  {
    hide IndexOf;
    if FirstGroup(s).Some? {
      var k := IndexOf(s, '[');
      var t := s[k + 1..];
      var v := IndexOf(t, ']');
      IndexOfAbsent(s[..k], ']');
      IndexOfAbsent(t[..v], '[');
      IndexOfBefore(s, '[');
      IndexOfBefore(t, ']');
      assert s[..k + v + 2] == s[..k] + "[" + t[..v] + "]";
    }
  }

  lemma IndexOfAbsent(s: string, c: char)
    ensures IndexOf(s, c) == |s| <==> c !in s
  {
  }

  lemma IndexOfBefore(s: string, c: char)
    ensures c !in s[..IndexOf(s, c)]
  {
  }

  lemma FirstGroupComplete(g: Pair, rest: string)
    requires CleanName(g.key) && Plain(g.value)
    ensures FirstGroup(Group(g) + rest) == Some((g, |Group(g)|))
  {
    hide IndexOf, FirstGroup;
    var s := Group(g) + rest;
    var k, v := |g.key|, |g.value|;
    assert s == g.key + ['['] + (g.value + [']'] + rest);
    IndexAfter(g.key, '[', g.value + [']'] + rest);
    assert s[..k] == g.key && s[k + 1..] == g.value + [']'] + rest;
    IndexAfter(g.value, ']', rest);
    assert s[k + 1..][..v] == g.value;
    IndexOfAbsent(g.key, ']');
    IndexOfAbsent(g.value, '[');
    GroupAt(s, k, v);
  }

  lemma IndexAfter(a: string, c: char, b: string)
    requires c !in a
    ensures IndexOf(a + [c] + b, c) == |a|
  {
    hide IndexOf;
    var s := a + [c] + b;
    assert s[..|a|] == a && s[|a|] == c;
    IndexOfIs(s, c, |a|);
  }

  lemma GroupAt(s: string, k: nat, v: nat)
    requires 0 < k < |s| && IndexOf(s, '[') == k && IndexOf(s[..k], ']') == k
    requires v < |s[k + 1..]| && IndexOf(s[k + 1..], ']') == v && IndexOf(s[k + 1..][..v], '[') == v
    ensures FirstGroup(s) == Some((Pair(s[..k], s[k + 1..][..v]), k + v + 2))
  {
    hide IndexOf;
  }

  /** What is accepted is one or more clean groups and nothing else. */
  lemma {:induction false} GroupsSound(s: string)
    ensures Groups(s).Some? ==>
      var ps := Groups(s).value; ps != [] && Clean(ps) && Render(ps) == s
    decreases |s|
  {
    FirstGroupSound(s);
    if Groups(s).Some? {
      var (g, n) := FirstGroup(s).value;
      assert s == s[..n] + s[n..];
      if n == |s| {
        assert Render([g]) == Group(g) + Render([]);
      } else {
        GroupsSound(s[n..]);
        var more := Groups(s[n..]).value;
        assert ([g] + more)[1..] == more;
      }
    }
  }

  lemma GroupsFirst(g: Pair, rest: string)
    requires CleanName(g.key) && Plain(g.value)
    ensures Groups(Group(g) + rest) ==
      if rest == "" then Some([g])
      else match Groups(rest) case None => None case Some(more) => Some([g] + more)
  {
    hide FirstGroup, Group;
    FirstGroupComplete(g, rest);
    var s := Group(g) + rest;
    assert s[|Group(g)|..] == rest;
  }

  /** Every rendering of clean groups is accepted, and read back as those groups. */
  lemma {:induction false} GroupsComplete(ps: seq<Pair>)
    requires ps != [] && Clean(ps)
    ensures Groups(Render(ps)) == Some(ps)
    decreases |ps|
  {
    hide Groups, Group;
    var g, rest := ps[0], Render(ps[1..]);
    assert g in ps;
    GroupsFirst(g, rest);
    assert ps == [g] + ps[1..];
    if |ps| == 1 {
      assert ps[1..] == [] && ps == [g];
    } else {
      GroupsComplete(ps[1..]);
      GroupsOfNothing();
    }
  }

  lemma GroupsOfNothing()
    ensures Groups("") == None
  {
  }

  lemma IndexOfIs(s: string, c: char, i: nat)
    requires i <= |s| && c !in s[..i] && (i < |s| ==> s[i] == c)
    ensures IndexOf(s, c) == i
  {
    assert forall j :: 0 <= j < i ==> s[j] == s[..i][j];
  }

  ghost predicate WellFormed(s: string) {
    IsBlank(s) || exists ps :: ps != [] && Clean(ps) && s == Render(ps)
  }

  lemma FormatMeaning(s: string)
    ensures WellFormed(s) <==> IsBlank(s) || Groups(s).Some?
  {
    GroupsSound(s);
    forall ps | ps != [] && Clean(ps) && s == Render(ps)
      ensures Groups(s).Some?
    {
      GroupsComplete(ps);
    }
  }

  /** Accepts exactly the blank strings and the non-empty renderings of clean groups. */
  method IsExtraParamFormatRight(buf: string) returns (result: bool)
    ensures result <==> WellFormed(buf)
  {
    hide WellFormed, FirstGroup;
    FormatMeaning(buf);
    if IsBlank(buf) {
      return true;
    }
    var ptr := 0;
    while ptr < |buf|
      invariant 0 <= ptr <= |buf|
      invariant Groups(buf).Some? <==> ptr == |buf| > 0 || Groups(buf[ptr..]).Some?
    {
      var n := ScanGroup(buf[ptr..]);
      if n == 0 {
        return false;
      }
      assert buf[ptr..][n..] == buf[ptr + n..];
      ptr := ptr + n;
    }
    result := true;
  }

  /** One turn of the checking loop: the length of the group at the start, or 0. */
  method ScanGroup(key: string) returns (n: nat)
    ensures n == match FirstGroup(key) case None => 0 case Some((_, m)) => m
  {
    var split1 := IndexOf(key, '[');
    if split1 == |key| || split1 == 0 {
      return 0;
    }
    if IndexOf(key[..split1], ']') < split1 {
      return 0;
    }
    var value := key[split1 + 1..];
    if value == "" {
      return 0;
    }
    var split2 := IndexOf(value, ']');
    if split2 == |value| || IndexOf(value[..split2], '[') < split2 {
      return 0;
    }
    n := split1 + split2 + 2;
  }

  // ----- reading and setting one parameter -----

  /** Where the bracketed value of the first occurrence of `name` starts and its length. */
  function Locate(s: string, name: string): (r: Option<(nat, nat)>)
    ensures r.Some? ==>
      var (v, n) := r.value; 0 < v && v + n < |s| && s[v - 1] == '[' && s[v + n] == ']' && ']' !in s[v..v + n]
  {
    match Find(s, name)
    case None => None
    case Some(i) =>
      var v := i + |name| + 1;
      if v > |s| || s[v - 1] != '[' then None
      else
        var n := IndexOf(s[v..], ']');
        IndexOfBefore(s[v..], ']');
        assert n < |s| - v ==> s[v..][n] == s[v + n] && s[v..][..n] == s[v..v + n];
        if v + n < |s| then Some((v, n)) else None
  }

  /** `findParamValueByString`: the value after the first occurrence of the name. */
  function Get(s: Option<string>, name: string): Option<string> {
    match s
    case None => None
    case Some(t) =>
      match Locate(t, name)
      case None => None
      case Some((v, n)) => Some(t[v..v + n])
  }

  /** `setParamByValue`: overwrite the value where the name is found, else append a group. */
  function Set(s: Option<string>, name: string, value: string): string {
    match s
    case None => name + "[" + value + "]"
    case Some(t) =>
      match Locate(t, name)
      case None => t + name + "[" + value + "]"
      case Some((v, n)) => t[..v] + value + t[v + n..]
  }

  /** The value of the first group with this key. */
  function Lookup(ps: seq<Pair>, name: string): Option<string> {
    if ps == [] then None
    else if ps[0].key == name then Some(ps[0].value)
    else Lookup(ps[1..], name)
  }

  function Put(ps: seq<Pair>, name: string, value: string): seq<Pair> {
    if ps == [] then [Pair(name, value)]
    else if ps[0].key == name then [Pair(name, value)] + ps[1..]
    else [ps[0]] + Put(ps[1..], name, value)
  }

  ghost predicate Occurs(pat: string, s: string) {
    exists j :: 0 <= j <= |s| && At(s, pat, j)
  }

  /** The name occurs only as a whole key. */
  ghost predicate Isolated(ps: seq<Pair>, name: string) {
    forall p :: p in ps ==> (p.key == name || !Occurs(name, p.key)) && !Occurs(name, p.value)
  }

  lemma CoversChar(s: string, pat: string, j: nat, i: nat)
    requires At(s, pat, j) && j <= i < j + |pat|
    ensures s[i] in pat
  {
    assert s[j..j + |pat|][i - j] == s[i];
  }

  lemma NoOccurrence(s: string, pat: string, j: nat)
    requires !Occurs(pat, s) && j <= |s|
    ensures !At(s, pat, j)
  {
  }

  lemma KeyWindow(g: Pair, rest: string, j: nat, e: nat)
    requires j <= e <= |g.key|
    ensures (Group(g) + rest)[j..e] == g.key[j..e]
  {
  }

  lemma ValueWindow(g: Pair, rest: string, j: nat, e: nat)
    requires |g.key| < j <= e < |Group(g)|
    ensures (Group(g) + rest)[j..e] == g.value[j - |g.key| - 1..e - |g.key| - 1]
  {
  }

  lemma BracketsAt(g: Pair, rest: string)
    ensures (Group(g) + rest)[|g.key|] == '[' && (Group(g) + rest)[|Group(g)| - 1] == ']'
    ensures |Group(g)| == |g.key| + |g.value| + 2
  {
  }

  lemma NotInGroup(g: Pair, rest: string, name: string, j: nat)
    requires CleanName(name) && !Occurs(name, g.key) && !Occurs(name, g.value) && j < |Group(g)|
    ensures !At(Group(g) + rest, name, j)
  {
    hide Occurs, Group;
    var s, k, n, e := Group(g) + rest, |g.key|, |Group(g)|, j + |name|;
    BracketsAt(g, rest);
    if e <= k {
      NoOccurrence(g.key, name, j);
      KeyWindow(g, rest, j, e);
    } else if j > k && e < n {
      NoOccurrence(g.value, name, j - k - 1);
      ValueWindow(g, rest, j, e);
    } else if At(s, name, j) {
      CoversChar(s, name, j, if j <= k then k else n - 1);
    }
  }

  lemma AtAfter(pre: string, rest: string, name: string, j: nat)
    requires |pre| <= j
    ensures At(pre + rest, name, j) <==> At(rest, name, j - |pre|)
  {
    if j + |name| <= |pre + rest| {
      assert (pre + rest)[j..j + |name|] == rest[j - |pre|..j - |pre| + |name|];
    }
  }

  /** A bracket-free pattern that is in neither part of a group first occurs after it. */
  lemma FindSkipsGroup(g: Pair, rest: string, name: string)
    requires CleanName(name) && !Occurs(name, g.key) && !Occurs(name, g.value)
    ensures Find(Group(g) + rest, name) ==
      match Find(rest, name) case None => None case Some(i) => Some(|Group(g)| + i)
  {
    hide Find, Group, Occurs;
    var s, n := Group(g) + rest, |Group(g)|;
    var q, r := Find(s, name), Find(rest, name);
    if q.Some? {
      if q.value < n {
        NotInGroup(g, rest, name, q.value);
      } else {
        AtAfter(Group(g), rest, name, q.value);
      }
    }
    if r.Some? {
      AtAfter(Group(g), rest, name, n + r.value);
    }
  }

  lemma LocateHere(g: Pair, rest: string)
    requires Plain(g.value)
    ensures Locate(Group(g) + rest, g.key) == Some((|g.key| + 1, |g.value|))
  {
    var s, v := Group(g) + rest, |g.key| + 1;
    assert s[0..|g.key|] == g.key;
    assert At(s, g.key, 0);
    assert s[v..] == g.value + "]" + rest && s[v..][..|g.value|] == g.value;
    IndexOfIs(s[v..], ']', |g.value|);
  }

  lemma LocateSkips(g: Pair, rest: string, name: string)
    requires CleanName(name) && !Occurs(name, g.key) && !Occurs(name, g.value)
    ensures Locate(Group(g) + rest, name) ==
      match Locate(rest, name) case None => None case Some((v, n)) => Some((|Group(g)| + v, n))
  {
    hide Find, Occurs, Group, IndexOf;
    FindSkipsGroup(g, rest, name);
    var r := Find(rest, name);
    if r.Some? && r.value + |name| + 1 <= |rest| {
      var v := r.value + |name| + 1;
      assert (Group(g) + rest)[|Group(g)| + v..] == rest[v..];
    }
  }

  lemma GetSkips(g: Pair, rest: string, name: string)
    requires CleanName(name) && !Occurs(name, g.key) && !Occurs(name, g.value)
    ensures Get(Some(Group(g) + rest), name) == Get(Some(rest), name)
  {
    hide Occurs, Group, Locate;
    LocateSkips(g, rest, name);
    var l := Locate(rest, name);
    if l.Some? {
      var (v, n) := l.value;
      var s, k := Group(g) + rest, |Group(g)|;
      assert s[k + v..k + v + n] == rest[v..v + n];
    }
  }

  /** Reading a parameter out of the string reads the first group with that key. */
  lemma {:induction false} GetIsLookup(ps: seq<Pair>, name: string)
    requires Clean(ps) && CleanName(name) && Isolated(ps, name)
    ensures Get(Some(Render(ps)), name) == Lookup(ps, name)
    decreases |ps|
  {
    if ps == [] {
      assert Find("", name).None?;
    } else {
      hide Occurs, Locate;
      var g, rest := ps[0], Render(ps[1..]);
      assert g in ps;
      if g.key == name {
        LocateHere(g, rest);
        assert Render(ps)[|name| + 1..|name| + 1 + |g.value|] == g.value;
      } else {
        GetSkips(g, rest, name);
        GetIsLookup(ps[1..], name);
      }
    }
  }

  lemma SetHere(g: Pair, rest: string, value: string)
    requires Plain(g.value)
    ensures Set(Some(Group(g) + rest), g.key, value) == Group(Pair(g.key, value)) + rest
  {
    hide Locate;
    LocateHere(g, rest);
    var s, v := Group(g) + rest, |g.key| + 1;
    assert s[..v] == g.key + "[" && s[v + |g.value|..] == "]" + rest;
    assert (g.key + "[") + value + ("]" + rest) == Group(Pair(g.key, value)) + rest;
  }

  /** Setting a parameter in the string overwrites the first group with that key, or adds
      a group at the end. */
  lemma {:induction false} SetIsPut(ps: seq<Pair>, name: string, value: string)
    requires Clean(ps) && CleanName(name) && Isolated(ps, name)
    ensures Set(Some(Render(ps)), name, value) == Render(Put(ps, name, value))
    decreases |ps|
  {
    if ps == [] {
      assert Find("", name).None?;
      assert Render([Pair(name, value)]) == Group(Pair(name, value)) + Render([]);
    } else {
      hide Occurs, Locate, Set, Group;
      var g, rest := ps[0], Render(ps[1..]);
      assert g in ps;
      if g.key == name {
        SetHere(g, rest, value);
        assert ([Pair(name, value)] + ps[1..])[1..] == ps[1..];
      } else {
        SetIsPut(ps[1..], name, value);
        var put := Put(ps[1..], name, value);
        assert ([g] + put)[1..] == put;
        SetSkips(g, rest, name, value);
      }
    }
  }

  lemma AfterPrefix(pre: string, rest: string, v: nat, w: nat, value: string)
    requires v <= w <= |rest|
    ensures (pre + rest)[..|pre| + v] + value + (pre + rest)[|pre| + w..] == pre + (rest[..v] + value + rest[w..])
  {
  }

  lemma SetFound(t: string, name: string, value: string, v: nat, n: nat)
    requires Locate(t, name) == Some((v, n))
    ensures v + n <= |t| && Set(Some(t), name, value) == t[..v] + value + t[v + n..]
  {
    hide Locate;
  }

  lemma SetMissing(t: string, name: string, value: string)
    requires Locate(t, name) == None
    ensures Set(Some(t), name, value) == t + name + "[" + value + "]"
  {
    hide Locate;
  }

  lemma SetSkips(g: Pair, rest: string, name: string, value: string)
    requires CleanName(name) && !Occurs(name, g.key) && !Occurs(name, g.value)
    ensures Set(Some(Group(g) + rest), name, value) == Group(g) + Set(Some(rest), name, value)
  {
    hide Occurs, Group, Locate, Set;
    LocateSkips(g, rest, name);
    match Locate(rest, name)
    case Some((v, n)) =>
      SetFound(rest, name, value, v, n);
      SetFound(Group(g) + rest, name, value, |Group(g)| + v, n);
      AfterPrefix(Group(g), rest, v, v + n, value);
    case None =>
      SetMissing(rest, name, value);
      SetMissing(Group(g) + rest, name, value);
      AddedAfter(Group(g), rest, name, value);
  }

  lemma AddedAfter(pre: string, rest: string, name: string, value: string)
    ensures pre + rest + name + "[" + value + "]" == pre + (rest + name + "[" + value + "]")
  {
  }

  lemma {:induction false} PutClean(ps: seq<Pair>, name: string, value: string)
    requires Clean(ps) && CleanName(name) && Plain(value)
    ensures Clean(Put(ps, name, value)) && Put(ps, name, value) != []
    ensures forall p :: p in Put(ps, name, value) ==> p in ps || p == Pair(name, value)
  {
    if ps != [] && ps[0].key != name {
      PutClean(ps[1..], name, value);
    }
  }

  lemma {:induction false} LookupPut(ps: seq<Pair>, name: string, value: string, other: string)
    ensures Lookup(Put(ps, name, value), other) == if other == name then Some(value) else Lookup(ps, other)
  {
    if ps != [] && ps[0].key != name {
      LookupPut(ps[1..], name, value, other);
      var put := Put(ps[1..], name, value);
      assert ([ps[0]] + put)[1..] == put;
    } else if ps != [] {
      assert ([Pair(name, value)] + ps[1..])[1..] == ps[1..];
    }
  }

  /** Setting one parameter is what reading it then returns, leaves every other one as it
      was, and keeps the string well formed. */
  lemma SetThenGet(ps: seq<Pair>, name: string, value: string, other: string)
    requires Clean(ps) && CleanName(name) && Plain(value) && CleanName(other)
    requires Isolated(ps, name) && Isolated(ps, other)
    requires !Occurs(name, value) && !Occurs(other, value) && (other != name ==> !Occurs(other, name))
    ensures var s, t := Some(Render(ps)), Some(Set(Some(Render(ps)), name, value));
      && Get(t, name) == Some(value)
      && (other != name ==> Get(t, other) == Get(s, other))
      && WellFormed(t.value)
  {
    var put := Put(ps, name, value);
    SetIsPut(ps, name, value);
    PutClean(ps, name, value);
    GetIsLookup(put, name);
    GetIsLookup(put, other);
    GetIsLookup(ps, other);
    LookupPut(ps, name, value, name);
    LookupPut(ps, name, value, other);
  }

  predicate Followed(s: string, i: nat) {
    i < |s| && s[i] == '['
  }

  lemma AtPrefix(s: string, t: string, pat: string, m: nat, j: nat)
    requires m <= |s| && m <= |t| && s[..m] == t[..m] && j + |pat| <= m
    ensures At(s, pat, j) <==> At(t, pat, j)
  {
    assert s[j..j + |pat|] == s[..m][j..j + |pat|] == t[..m][j..j + |pat|] == t[j..j + |pat|];
  }

  /** The first occurrence stays first when the text changes only after it. */
  lemma FindPrefix(s: string, t: string, pat: string, m: nat)
    requires Find(s, pat).Some? && Find(s, pat).value + |pat| <= m
    requires m <= |s| && m <= |t| && s[..m] == t[..m]
    ensures Find(t, pat) == Find(s, pat)
  {
    hide Find, At;
    var i := Find(s, pat).value;
    AtPrefix(s, t, pat, m, i);
    forall j: nat | j < i
      ensures !At(t, pat, j)
    {
      AtPrefix(s, t, pat, m, j);
    }
    AtBound(t, pat, i);
    FindIs(t, pat, i);
  }

  lemma AtBound(s: string, pat: string, i: nat)
    requires At(s, pat, i)
    ensures i + |pat| <= |s|
  {
  }

  lemma ReadsUpToBracket(t: string, name: string, v: nat)
    requires 0 < v <= |t| && Find(t, name).Some? && Find(t, name).value + |name| + 1 == v
    requires t[v - 1] == '[' && v + IndexOf(t[v..], ']') < |t|
    ensures Locate(t, name) == Some((v, IndexOf(t[v..], ']')))
  {
    hide Find, IndexOf;
  }

  lemma GetAt(t: string, name: string, v: nat, n: nat)
    requires Locate(t, name) == Some((v, n))
    ensures v + n <= |t| && Get(Some(t), name) == Some(t[v..][..n])
  {
    hide Locate;
    assert t[v..][..n] == t[v..v + n];
  }

  lemma WindowFrom(t: string, v: nat, value: string)
    requires v + |value| < |t| && t[v..v + |value|] == value
    ensures t[v..][..|value|] == value && t[v..][|value|] == t[v + |value|]
  {
  }

  /** A bracketed value is read back unless a closing bracket inside it cuts it short. */
  lemma ReadsBack(t: string, name: string, v: nat, value: string)
    requires 0 < v && v + |value| < |t| && Find(t, name).Some? && Find(t, name).value + |name| + 1 == v
    requires t[v - 1] == '[' && t[v..v + |value|] == value && t[v + |value|] == ']'
    ensures Get(Some(t), name) == Some(value) <==> ']' !in value
  {
    hide Find, IndexOf, Locate, Get;
    WindowFrom(t, v, value);
    CutAtBracket(t[v..], value);
    ReadsUpToBracket(t, name, v);
    GetAt(t, name, v, IndexOf(t[v..], ']'));
  }

  lemma CutAtBracket(s: string, value: string)
    requires |value| < |s| && s[..|value|] == value && s[|value|] == ']'
    ensures IndexOf(s, ']') <= |value| && (s[..IndexOf(s, ']')] == value <==> ']' !in value)
  {
    hide IndexOf;
    IndexOfBefore(s, ']');
    if ']' !in value {
      IndexOfIs(s, ']', |value|);
    }
  }

  lemma {:induction false} RenderCloses(ps: seq<Pair>)
    requires ps != []
    ensures Render(ps) != "" && Render(ps)[|Render(ps)| - 1] == ']'
    decreases |ps|
  {
    if |ps| > 1 {
      RenderCloses(ps[1..]);
    }
  }

  /** In a rendering every opening bracket has a closing one after it. */
  lemma RenderedCloses(ps: seq<Pair>, v: nat)
    requires 0 < v <= |Render(ps)| && Render(ps)[v - 1] == '['
    ensures IndexOf(Render(ps)[v..], ']') < |Render(ps)| - v
  {
    hide IndexOf;
    var s := Render(ps);
    RenderCloses(ps);
    assert s[v..][|s| - 1 - v] == ']';
  }

  /** Every opening bracket has a closing one after it. */
  ghost predicate Closes(s: string) {
    forall v: nat {:trigger s[v..]} :: 0 < v <= |s| && s[v - 1] == '[' ==> IndexOf(s[v..], ']') < |s| - v
  }

  lemma WellFormedCloses(s: string)
    requires WellFormed(s)
    ensures Closes(s)
  {
    hide IndexOf, Render, Clean, Groups;
    if !IsBlank(s) {
      var ps :| ps != [] && Clean(ps) && s == Render(ps);
      forall v: nat {:trigger s[v..]} | 0 < v <= |s| && s[v - 1] == '['
        ensures IndexOf(s[v..], ']') < |s| - v
      {
        RenderedCloses(ps, v);
      }
    } else {
      assert forall j :: 0 <= j < |s| ==> s[j] in s;
    }
  }

  lemma LocateClosed(s: string, name: string)
    requires Closes(s)
    ensures Locate(s, name).Some? <==> Find(s, name).Some? && Followed(s, Find(s, name).value + |name|)
  {
    hide Find, IndexOf;
    if Find(s, name).Some? && Followed(s, Find(s, name).value + |name|) {
      var v := Find(s, name).value + |name| + 1;
      assert s[v..] == s[v..];
    }
  }

  lemma Overwritten(s: string, name: string, value: string)
    requires Locate(s, name).Some?
    ensures Get(Some(Set(Some(s), name, value)), name) == Some(value) <==> ']' !in value
  {
    hide Find, IndexOf;
    var (v, n) := Locate(s, name).value;
    var t := s[..v] + value + s[v + n..];
    FindPrefix(s, t, name, v);
    ReadsBack(t, name, v, value);
  }

  /** The name is there once it is appended. */
  lemma FindWithName(s: string, name: string)
    ensures Find(s + name, name).Some? && Find(s + name, name).value <= |s|
    ensures Find(s, name).Some? ==> Find(s + name, name) == Find(s, name)
    ensures Find(s, name).None? ==> |s| < Find(s + name, name).value + |name|
  {
    hide Find;
    var t := s + name;
    assert t[|s|..|s| + |name|] == name;
    assert At(t, name, |s|);
    if Find(s, name).Some? {
      FindPrefix(s, t, name, |s|);
    } else {
      var i := Find(t, name).value;
      if i + |name| <= |s| {
        AtPrefix(s, t, name, |s|, i);
      }
    }
  }

  lemma GetBlocked(t: string, name: string, i: nat)
    requires Find(t, name) == Some(i) && i + |name| < |t| && t[i + |name|] != '['
    ensures Get(Some(t), name) == None
  {
    hide Find, IndexOf;
  }

  lemma Joined(s: string, name: string, value: string)
    ensures var t := s + name + "[" + value + "]"; var v := |s| + |name| + 1;
      && t[..v - 1] == s + name && t[v - 1] == '[' && t[v..v + |value|] == value && |t| == v + |value| + 1
      && t[v + |value|] == ']'
  {
  }

  lemma Appended(s: string, name: string, value: string)
    requires CleanName(name) && Closes(s) && Locate(s, name).None?
    ensures Find(s + name, name).Some?
    ensures Get(Some(Set(Some(s), name, value)), name) == Some(value) <==>
            ']' !in value && Find(s + name, name).value == |s|
  {
    hide Find, IndexOf, Locate, Get, Set, Closes;
    var t := s + name + "[" + value + "]";
    FindWithName(s, name);
    SetMissing(s, name, value);
    Joined(s, name, value);
    var i := Find(s + name, name).value;
    FindPrefix(s + name, t, name, |s + name|);
    if i == |s| {
      ReadsBack(t, name, |s| + |name| + 1, value);
    } else {
      NotBefore(s, name, i);
      assert t[i + |name|] == t[..|s + name|][i + |name|];
      GetBlocked(t, name, i);
    }
  }

  /** Where the name stood before, and was not found with its value, no bracket follows. */
  lemma NotBefore(s: string, name: string, i: nat)
    requires CleanName(name) && Closes(s) && Locate(s, name).None?
    requires Find(s + name, name) == Some(i) && i < |s|
    ensures i + |name| < |s + name| && (s + name)[i + |name|] != '['
  {
    hide Find, IndexOf, Locate, Closes;
    FindWithName(s, name);
    LocateClosed(s, name);
    if i + |name| >= |s| {
      assert (s + name)[i + |name|] == name[i + |name| - |s|];
      assert name[i + |name| - |s|] in name;
    }
  }

  function TextOf(s: Option<string>): string {
    if s.None? then "" else s.value
  }

  lemma SetNone(name: string, value: string)
    requires name != ""
    ensures Set(None, name, value) == Set(Some(""), name, value)
  {
    hide Find;
    assert Find("", name).None?;
    assert "" + name == name;
  }

  /** On any parameter string, well formed, blank or missing, reading back what was just set works exactly
      when the value has no closing bracket and the name, looked for in the string with the name behind it,
      first occurs at the end or before an opening bracket. */
  lemma SetThenGetExactly(s: Option<string>, name: string, value: string)
    requires (s.Some? ==> WellFormed(s.value)) && CleanName(name)
    ensures Find(TextOf(s) + name, name).Some?
    ensures var i := Find(TextOf(s) + name, name).value;
      Get(Some(Set(s, name, value)), name) == Some(value) <==>
      ']' !in value && (i == |TextOf(s)| || Followed(TextOf(s), i + |name|))
  {
    hide Set, Get, Find, WellFormed, Locate;
    var t := TextOf(s);
    if s.None? {
      SetNone(name, value);
      BlankIsWellFormed();
    }
    WellFormedCloses(t);
    LocateClosed(t, name);
    FindWithName(t, name);
    if Locate(t, name).Some? {
      Overwritten(t, name, value);
    } else {
      Appended(t, name, value);
    }
  }

  lemma BlankIsWellFormed()
    ensures WellFormed("")
  {
  }

  /** Without isolation the laws fail: a name that ends another group's key, as the first place it occurs,
      takes over that group's value, */
  lemma NameEndsAnotherKey(before: string, g: Pair, rest: string, name: string, value: string)
    requires Plain(g.value) && |name| < |g.key|
    requires Find(before + Group(g) + rest, name) == Some(|before| + |g.key| - |name|)
    ensures Set(Some(before + Group(g) + rest), name, value) == before + Group(Pair(g.key, value)) + rest
  {
    hide Find, Set, Group;
    GroupAmid(before, g, rest);
    GroupAmid(before, Pair(g.key, value), rest);
    TakenOver(before + g.key, g.value, rest, name, value);
  }

  lemma TakenOver(x: string, was: string, rest: string, name: string, value: string)
    requires Plain(was) && |name| <= |x| && Find(x + "[" + (was + "]" + rest), name) == Some(|x| - |name|)
    ensures Set(Some(x + "[" + (was + "]" + rest)), name, value) == x + "[" + (value + "]" + rest)
  {
    hide Find, IndexOf, Set, Locate;
    var y := was + "]" + rest;
    var s, v := x + "[" + y, |x| + 1;
    Split(x, y);
    Closed(was, rest);
    ReadsUpToBracket(s, name, v);
    SetFound(s, name, value, v, |was|);
    DropTwice(s, v, |was|);
    Grouped(value, "]", rest);
    Grouped(x + "[", value, "]" + rest);
  }

  lemma Closed(was: string, rest: string)
    requires Plain(was)
    ensures IndexOf(was + "]" + rest, ']') == |was| && (was + "]" + rest)[|was|..] == "]" + rest
  {
    hide IndexOf;
    IndexAfter(was, ']', rest);
    Grouped(was, "]", rest);
    Halves(was, "]" + rest);
  }

  lemma Halves(a: string, b: string)
    ensures (a + b)[..|a|] == a && (a + b)[|a|..] == b
  {
  }

  lemma Grouped(a: string, b: string, c: string)
    ensures a + b + c == a + (b + c)
  {
  }

  lemma DropTwice(s: string, v: nat, n: nat)
    requires v + n <= |s|
    ensures s[v + n..] == s[v..][n..]
  {
  }

  lemma GroupAmid(before: string, g: Pair, rest: string)
    ensures before + Group(g) + rest == before + g.key + "[" + (g.value + "]" + rest)
  {
  }

  lemma Split(x: string, y: string)
    ensures var s := x + "[" + y; s[..|x| + 1] == x + "[" && s[|x| + 1..] == y && s[|x|] == '['
  {
  }

  /** and a name that occurs in a value hides the group added for it. */
  lemma NameOccursInValue()
    ensures Get(Some(Set(Some("a[b]"), "b", "y")), "b").None?
  {
    hide Find, IndexOf;
    var t := "a[b]";
    var u := t + "b" + "[" + "y" + "]";
    FirstB(t);
    FirstB(u);
  }

  lemma FirstB(s: string)
    requires |s| > 3 && s[0] == 'a' && s[1] == '[' && s[2] == 'b'
    ensures Find(s, "b") == Some(2)
  {
    hide Find;
    assert s[0..1][0] == 'a' && s[1..2][0] == '[';
    assert s[2..3] == "b";
    FindIs(s, "b", 2);
  }

  // ----- the C functions -----

  /** Walks to the closing bracket: the length of the value at `v`, if it is closed. */
  method ScanValue(s: string, v: nat) returns (n: nat)
    requires v <= |s|
    ensures n == IndexOf(s[v..], ']')
  {
    n := 0;
    while v + n < |s| && s[v + n] != ']'
      invariant v + n <= |s|
      invariant forall j :: 0 <= j < n ==> s[v..][j] != ']'
    {
      n := n + 1;
    }
    IndexOfIs(s[v..], ']', n);
  }

  method FindParamValueByString(s: Option<string>, name: string) returns (r: Option<string>)
    ensures r == Get(s, name)
  {
    hide Find, IndexOf;
    if s.None? {
      return None;
    }
    var t := s.value;
    var p := Find(t, name);
    if p.None? {
      return None;
    }
    var b := p.value + |name|;
    if b < |t| && t[b] == '[' {
      var n := ScanValue(t, b + 1);
      if b + 1 + n < |t| {
        return Some(t[b + 1..b + 1 + n]);
      }
    }
    r := None;
  }

  method SetParamByValue(s: Option<string>, name: string, value: string) returns (r: string)
    ensures r == Set(s, name, value)
  {
    hide Find, IndexOf;
    if s.None? {
      return name + "[" + value + "]";
    }
    var t := s.value;
    var p := Find(t, name);
    if p.Some? {
      var b := p.value + |name|;
      if b < |t| && t[b] == '[' {
        var n := ScanValue(t, b + 1);
        if b + 1 + n < |t| {
          return t[..b + 1] + value + t[b + 1 + n..];
        }
      }
    }
    r := t + name + "[" + value + "]";
  }
}
