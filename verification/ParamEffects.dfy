/** What setting one parameter does to another (parser/net_message.c): exactly when it reads differently. */
module ParamEffects {
  import opened Text
  import opened ExtraParams

  // ----- brackets in a well-formed string -----

  /** After every opening bracket there is a closing one, and none is opened before it. */
  ghost predicate Flat(s: string) {
    forall v: nat {:trigger s[v..]} :: 0 < v <= |s| && s[v - 1] == '[' ==> Shut(s[v..])
  }

  ghost predicate Shut(s: string) {
    IndexOf(s, ']') < |s| && '[' !in s[..IndexOf(s, ']')]
  }

  lemma ShutAhead(w: string, rest: string)
    requires Plain(w)
    ensures Shut(w + "]" + rest)
  {
    hide IndexOf;
    var s := w + "]" + rest;
    IndexOfIs(s, ']', |w|);
    assert s[..|w|] == w;
  }

  lemma {:induction false} RenderedFlat(ps: seq<Pair>)
    requires Clean(ps)
    ensures Flat(Render(ps))
    decreases |ps|
  {
    hide Shut;
    if ps != [] {
      var g, rest := ps[0], Render(ps[1..]);
      RenderedFlat(ps[1..]);
      var s, k := Render(ps), |g.key|;
      BracketsAt(g, rest);
      forall v: nat {:trigger s[v..]} | 0 < v <= |s| && s[v - 1] == '['
        ensures Shut(s[v..])
      {
        assert g in ps;
        GroupBrackets(g, rest, v);
        if v == k + 1 {
          ShutAhead(g.value, rest);
          assert s[v..] == g.value + "]" + rest;
        } else {
          var w := v - |Group(g)|;
          assert s[v..] == rest[w..] && rest[w - 1] == '[';
        }
      }
    }
  }

  /** The only opening bracket of a group is behind its key. */
  lemma GroupBrackets(g: Pair, rest: string, v: nat)
    requires CleanName(g.key) && Plain(g.value)
    requires 0 < v <= |Group(g) + rest| && (Group(g) + rest)[v - 1] == '['
    ensures v == |g.key| + 1 || v > |Group(g)|
  {
    var s, k := Group(g) + rest, |g.key|;
    assert forall j :: 0 <= j < k ==> s[j] == g.key[j];
    assert forall j :: k < j < |Group(g)| - 1 ==> s[j] == g.value[j - k - 1];
  }

  lemma WellFormedFlat(s: string)
    requires WellFormed(s)
    ensures Flat(s)
  {
    hide Render, Clean, Shut;
    if !IsBlank(s) {
      var ps :| ps != [] && Clean(ps) && s == Render(ps);
      RenderedFlat(ps);
    } else {
      assert forall j :: 0 <= j < |s| ==> s[j] in s;
    }
  }

  lemma FlatCloses(s: string)
    requires Flat(s)
    ensures Closes(s)
  {
    hide IndexOf;
    forall v: nat {:trigger s[v..]} | 0 < v <= |s| && s[v - 1] == '['
      ensures IndexOf(s[v..], ']') < |s| - v
    {
      assert Shut(s[v..]);
    }
  }

  /** Before an opening bracket all the others are closed. */
  lemma FlatBefore(s: string, m: nat)
    requires Flat(s) && m < |s| && s[m] == '['
    ensures Closes(s[..m])
  {
    hide IndexOf;
    var x := s[..m];
    forall v: nat {:trigger x[v..]} | 0 < v <= |x| && x[v - 1] == '['
      ensures IndexOf(x[v..], ']') < |x| - v
    {
      var n := IndexOf(s[v..], ']');
      assert Shut(s[v..]) && s[v..][n] == ']' && s[v + n] == ']';
      assert forall j :: v <= j < v + n ==> s[j] == s[v..][..n][j - v];
      assert x[v..][n] == ']';
      IndexOfAtMost(x[v..], ']', n);
    }
  }

  lemma IndexOfAtMost(s: string, c: char, n: nat)
    requires n < |s| && s[n] == c
    ensures IndexOf(s, c) <= n
  {
  }

  // ----- reading a name out of a longer text -----

  /** What is read inside a text with its brackets closed is read in every longer one. */
  lemma SameRead(x: string, u: string, name: string)
    requires |x| <= |u| && u[..|x|] == x && Closes(x)
    requires Find(x, name).Some? && Find(x, name).value + |name| < |x|
    ensures Get(Some(u), name) == Get(Some(x), name)
  {
    hide Find, IndexOf, Get, Locate, Closes;
    var i := Find(x, name).value;
    FindPrefix(x, u, name, |x|);
    assert u[i + |name|] == u[..|x|][i + |name|] == x[i + |name|];
    if x[i + |name|] != '[' {
      GetBlocked(x, name, i);
      GetBlocked(u, name, i);
    } else {
      var v := i + |name| + 1;
      ClosedAt(x, v);
      var n := IndexOf(x[v..], ']');
      LongerIndex(x, u, v);
      ReadsUpToBracket(x, name, v);
      ReadsUpToBracket(u, name, v);
      GetAt(x, name, v, n);
      GetAt(u, name, v, n);
    }
  }

  lemma ClosedAt(x: string, v: nat)
    requires Closes(x) && 0 < v <= |x| && x[v - 1] == '['
    ensures IndexOf(x[v..], ']') < |x| - v
  {
    hide IndexOf;
  }

  lemma LongerIndex(x: string, u: string, v: nat)
    requires |x| <= |u| && u[..|x|] == x && v <= |x| && IndexOf(x[v..], ']') < |x| - v
    ensures var n := IndexOf(x[v..], ']'); IndexOf(u[v..], ']') == n && u[v..][..n] == x[v..][..n]
  {
    hide IndexOf;
    var n := IndexOf(x[v..], ']');
    assert forall j :: 0 <= j < |x| - v ==> u[v..][j] == u[..|x|][v + j] == x[v..][j];
    IndexOfIs(u[v..], ']', n);
  }

  /** A name that is not in a part of the text, nor contains what ends that part, is read behind it. */
  lemma SkipPart(part: string, c: char, rest: string, name: string)
    requires name != "" && c !in name && !Occurs(name, part)
    ensures Find(part + [c] + rest, name) ==
      match Find(rest, name) case None => None case Some(i) => Some(|part| + 1 + i)
  {
    hide Find, Occurs;
    var s, pre := part + [c] + rest, part + [c];
    var q, r := Find(s, name), Find(rest, name);
    if q.Some? {
      if q.value <= |part| {
        NotInPart(part, c, rest, name, q.value);
      } else {
        AtAfter(pre, rest, name, q.value);
      }
    }
    if r.Some? {
      AtAfter(pre, rest, name, |pre| + r.value);
    }
  }

  lemma NotInPart(part: string, c: char, rest: string, name: string, j: nat)
    requires name != "" && c !in name && !Occurs(name, part) && j <= |part|
    ensures !At(part + [c] + rest, name, j)
  {
    hide Occurs;
    var s := part + [c] + rest;
    if At(s, name, j) {
      if j + |name| <= |part| {
        assert s[j..j + |name|] == part[j..j + |name|];
        NoOccurrence(part, name, j);
      } else {
        CoversChar(s, name, j, |part|);
      }
    }
  }

  /** And the same is read. */
  lemma ReadBehind(pre: string, rest: string, name: string)
    requires Find(pre + rest, name) == match Find(rest, name) case None => None case Some(i) => Some(|pre| + i)
    ensures Get(Some(pre + rest), name) == Get(Some(rest), name)
  {
    hide Find, IndexOf, Locate;
    var s := pre + rest;
    LocateBehind(pre, rest, name);
    if Locate(rest, name).Some? {
      var (v, n) := Locate(rest, name).value;
      assert s[|pre| + v..|pre| + v + n] == rest[v..v + n];
    }
  }

  lemma LocateBehind(pre: string, rest: string, name: string)
    requires Find(pre + rest, name) == match Find(rest, name) case None => None case Some(i) => Some(|pre| + i)
    ensures Locate(pre + rest, name) == match Locate(rest, name) case None => None case Some((v, n)) => Some((|pre| + v, n))
  {
    hide Find, IndexOf;
    if Find(rest, name).Some? {
      var v := Find(rest, name).value + |name| + 1;
      if v <= |rest| {
        assert (pre + rest)[|pre| + v..] == rest[v..];
      }
    }
  }

  /** A name that is in a value is not read there. */
  lemma NotReadInValue(w: string, rest: string, name: string)
    requires Plain(w) && Occurs(name, w)
    ensures Get(Some(w + "]" + rest), name) == None
  {
    hide Find, Get;
    var u := w + "]" + rest;
    var j :| 0 <= j <= |w| && At(w, name, j);
    assert u[..|w|] == w;
    AtPrefix(w, u, name, |w|, j);
    var i := Find(u, name).value;
    assert i <= j;
    if i + |name| < |w| {
      assert u[i + |name|] == w[i + |name|] && w[i + |name|] in w;
    }
    GetBlocked(u, name, i);
  }

  /** The name first occurs at the very end. */
  ghost predicate EndsWithFirst(x: string, name: string) {
    Find(x, name).Some? && Find(x, name).value + |name| == |x|
  }

  /** What a name reads in a text around one bracketed value. */
  lemma ReadAround(x: string, w: string, b: string, name: string)
    requires CleanName(name) && Plain(w) && Closes(x)
    ensures Get(Some(x + "[" + (w + "]" + b)), name) ==
      if EndsWithFirst(x, name) then Some(w)
      else if Find(x, name).Some? then Get(Some(x), name)
      else if Occurs(name, w) then None
      else Get(Some(b), name)
  {
    hide Find, Get, Closes, Occurs;
    var y := w + "]" + b;
    var u := x + "[" + y;
    Split(x, y);
    if Find(x, name).Some? {
      var i := Find(x, name).value;
      AtBound(x, name, i);
      assert u[..|x|] == x;
      if i + |name| == |x| {
        FindPrefix(x, u, name, |x|);
        assert u[|x| + 1..][..|w|] == w && u[|x| + 1 + |w|] == ']';
        ReadsBack(u, name, |x| + 1, w);
      } else {
        SameRead(x, u, name);
      }
    } else {
      NotThere(x, name);
      SkipPart(x, '[', y, name);
      ReadBehind(x + "[", y, name);
      if Occurs(name, w) {
        NotReadInValue(w, b, name);
      } else {
        SkipPart(w, ']', b, name);
        ReadBehind(w + "]", b, name);
      }
    }
  }

  lemma NotThere(x: string, name: string)
    requires Find(x, name).None?
    ensures !Occurs(name, x)
  {
    hide Find;
  }

  // ----- the two ways of setting -----

  /** Overwriting the value behind `x`: another name reads differently exactly when it is read there too and
      the value is another one, or when it is read only behind the value and is hidden by exactly one of the
      old value and the new. */
  lemma OverwriteEffect(x: string, was: string, b: string, value: string, other: string)
    requires CleanName(other) && Plain(was) && Plain(value) && Closes(x)
    ensures Get(Some(x + "[" + (value + "]" + b)), other) != Get(Some(x + "[" + (was + "]" + b)), other) <==>
      || (EndsWithFirst(x, other) && value != was)
      || (Find(x, other).None? && Get(Some(b), other).Some? && (Occurs(other, value) <==> !Occurs(other, was)))
  {
    hide Find, Get, Closes, Occurs;
    ReadAround(x, was, b, other);
    ReadAround(x, value, b, other);
  }

  lemma NothingRead(name: string)
    requires name != ""
    ensures Get(Some(""), name) == None
  {
  }

  /** A name that is found in the text before is read there as before, and no other is, unless it ends what
      was added. */
  lemma BeforeAdded(s: string, name: string, other: string)
    requires CleanName(name) && CleanName(other) && Closes(s) && Closes(s + name)
    ensures EndsWithFirst(s + name, other) ==> Get(Some(s), other) == None
    ensures !EndsWithFirst(s + name, other) ==>
      Get(Some(s), other) == if Find(s + name, other).Some? then Get(Some(s + name), other) else None
  {
    hide Find, Get, Closes;
    var x := s + name;
    assert x[..|s|] == s;
    if Find(s, other).Some? {
      var i := Find(s, other).value;
      AtBound(s, other, i);
      FindPrefix(s, x, other, |s|);
      if i + |other| < |s| {
        SameRead(s, x, other);
      } else {
        EndUnread(s, other, i);
        assert x[|s|] == name[0] && name[0] in name;
        GetBlocked(x, other, i);
      }
    } else {
      Unread(s, other);
      if Find(x, other).Some? {
        var i := Find(x, other).value;
        AtBound(x, other, i);
        if i + |other| <= |s| {
          AtPrefix(s, x, other, |s|, i);
        } else if i + |other| < |x| {
          assert x[i + |other|] == name[i + |other| - |s|] && name[i + |other| - |s|] in name;
          GetBlocked(x, other, i);
        }
      }
    }
  }

  lemma EndUnread(s: string, name: string, i: nat)
    requires Find(s, name) == Some(i) && i + |name| == |s|
    ensures Get(Some(s), name) == None
  {
    hide Find;
  }

  lemma Unread(s: string, name: string)
    requires Find(s, name).None?
    ensures Get(Some(s), name) == None
  {
    hide Find;
  }

  lemma NotAdded(s: string, name: string, v: nat)
    requires Plain(name) && 0 < v <= |s + name| && (s + name)[v - 1] == '['
    ensures v <= |s|
  {
    assert forall j :: |s| <= j < |s + name| ==> (s + name)[j] == name[j - |s|];
  }

  lemma AddedCloses(s: string, name: string)
    requires Closes(s) && Plain(name)
    ensures Closes(s + name)
  {
    hide IndexOf;
    var x := s + name;
    forall v: nat {:trigger x[v..]} | 0 < v <= |x| && x[v - 1] == '['
      ensures IndexOf(x[v..], ']') < |x| - v
    {
      assert v <= |s| by { NotAdded(s, name, v); }
      ClosedAt(s, v);
      assert x[..|s|] == s;
      LongerIndex(s, x, v);
    }
  }

  /** Adding a group: another name reads differently exactly when its first occurrence in the text with the
      new key behind it is at the end. */
  lemma AddEffect(s: string, name: string, value: string, other: string)
    requires CleanName(name) && CleanName(other) && Plain(value) && Closes(s)
    ensures Get(Some(s + name + "[" + (value + "]" + "")), other) != Get(Some(s), other) <==>
      EndsWithFirst(s + name, other)
  {
    hide Find, Get, Closes, Occurs;
    AddedCloses(s, name);
    ReadAround(s + name, value, "", other);
    BeforeAdded(s, name, other);
    NothingRead(other);
  }

  /** Exactly when setting one parameter changes what another reads, on any well-formed, blank or missing
      string. Where the value is overwritten: the other name is read at that value and the value changes, or
      it is read only further on and is a part of exactly one of the two values. Where a group is added: the
      other name ends the new key, and is not there before. */
  lemma OthersChange(s: Option<string>, name: string, value: string, other: string)
    requires (s.Some? ==> WellFormed(s.value)) && CleanName(name) && CleanName(other) && Plain(value)
    ensures var t := TextOf(s);
      Get(Some(Set(s, name, value)), other) != Get(s, other) <==>
      match Locate(t, name)
      case None => EndsWithFirst(t + name, other)
      case Some((v, n)) =>
        var x, was, b := t[..v - 1], t[v..v + n], t[v + n + 1..];
        || (EndsWithFirst(x, other) && value != was)
        || (Find(x, other).None? && Get(Some(b), other).Some? && (Occurs(other, value) <==> !Occurs(other, was)))
  {
    hide Find, Get, Closes, Occurs, Set, Locate, WellFormed, EndsWithFirst, Flat;
    var t := TextOf(s);
    if s.None? {
      SetNone(name, value);
      BlankIsWellFormed();
      NothingGot(other);
    }
    WellFormedFlat(t);
    FlatCloses(t);
    match Locate(t, name)
    case None =>
      SetMissing(t, name, value);
      assert value + "]" + "" == value + "]";
      assert t + name + "[" + value + "]" == t + name + "[" + (value + "]" + "");
      AddEffect(t, name, value, other);
    case Some((v, n)) =>
      Located(t, name, v, n);
      FlatBefore(t, v - 1);
      SetFound(t, name, value, v, n);
      var x, was, b := t[..v - 1], t[v..v + n], t[v + n + 1..];
      assert t == x + "[" + (was + "]" + b);
      assert t[..v] + value + t[v + n..] == x + "[" + (value + "]" + b);
      OverwriteEffect(x, was, b, value, other);
  }

  lemma NothingGot(name: string)
    requires name != ""
    ensures Get(None, name) == Get(Some(""), name)
  {
    NothingRead(name);
  }

  /** The value found is between brackets and has none. */
  lemma Located(t: string, name: string, v: nat, n: nat)
    requires Flat(t) && Locate(t, name) == Some((v, n))
    ensures 0 < v && v + n < |t| && t[v - 1] == '[' && t[v + n] == ']' && Plain(t[v..v + n])
  {
    hide Find, IndexOf;
    var u := t[v..];
    assert Shut(u);
    assert IndexOf(u, ']') == n by { LocatedLength(t, name, v, n); }
    assert t[v..v + n] == u[..n];
  }

  lemma LocatedLength(t: string, name: string, v: nat, n: nat)
    requires Locate(t, name) == Some((v, n))
    ensures IndexOf(t[v..], ']') == n
  {
    hide Find, IndexOf;
  }
}
