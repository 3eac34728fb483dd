/** What the JCQ parser accepts, as a grammar: which bytes are a whole message, and which are refused
    (parser/jcq.c). */
module JcqGrammar {
  import opened Text
  import opened NetMessages
  import opened Jcq

  /** A header line. */
  datatype Header = Header(name: string, value: string)

  function Written(h: Header): string {
    h.name + ":" + h.value + "\r\n"
  }

  function Lines(hs: seq<Header>): string {
    if hs == [] then "" else Written(hs[0]) + Lines(hs[1..])
  }

  /** A name ends at its colon and a value at its carriage return; the name of the body is not a line's. */
  predicate IsHeader(h: Header) {
    ':' !in h.name && '\r' !in h.value && h.name != "data"
  }

  /** What the line makes of the fields; names and values end at a NUL. */
  ghost function Set(f: Fields, h: Header): (Fields, SetResult) {
    SetParam(f, CString(h.name), CString(h.value))
  }

  ghost function SetAll(f: Fields, hs: seq<Header>): Fields
    decreases |hs|
  {
    if hs == [] then f else SetAll(Set(f, hs[0]).0, hs[1..])
  }

  /** Every line sets a field. */
  ghost predicate Accepted(f: Fields, hs: seq<Header>)
    decreases |hs|
  {
    hs == [] || (IsHeader(hs[0]) && Set(f, hs[0]).1 == SetOk && Accepted(Set(f, hs[0]).0, hs[1..]))
  }

  /** Anything up to the first flag, the flag, and lines that are accepted; then `tail`. */
  ghost predicate Opens(f: Fields, s: string, before: string, hs: seq<Header>, tail: string) {
    && s == before + "jcq 1.0\r\n" + Lines(hs) + tail
    && (forall j :: 0 <= j < |before| ==> !At(s, "jcq 1.0\r\n", j))
    && Accepted(f, hs)
  }

  /** The body, as long as the fields say, between its mark and the closing mark; then `rest`. */
  predicate Closes(f: Fields, tail: string, body: string, rest: string) {
    tail == "data:" + body + "\r\n\r\n" + rest && |body| == f.length
  }

  /** A line that sets no field. */
  ghost predicate RefusedLine(f: Fields, tail: string, h: Header, rest: string) {
    tail == Written(h) + rest && IsHeader(h) && Set(f, h).1 != SetOk
  }

  /** A body of less than no bytes. */
  predicate NegativeBody(f: Fields, tail: string) {
    At(tail, "data:", 0) && f.length < 0
  }

  /** A body with something behind it that does not begin with the closing mark. */
  predicate Unclosed(f: Fields, tail: string, body: string, more: string) {
    tail == "data:" + body + more && |body| == f.length && more != "" && !At(more, "\r\n\r\n", 0)
  }

  ghost predicate Refuses(f: Fields, tail: string) {
    || (exists h, rest :: RefusedLine(f, tail, h, rest))
    || NegativeBody(f, tail)
    || (exists body, more :: Unclosed(f, tail, body, more))
  }

  // ----- the header -----

  lemma FlagSkipped(f: Fields, d: Option<string>, s: string, before: string, hs: seq<Header>, tail: string)
    requires Opens(f, s, before, hs, tail)
    ensures Parse(Core(f, Wait, d), s) == Parse(Core(f, Param, d), Lines(hs) + tail)
  {
    hide Find, Accepted, Lines;
    var n := |before|;
    assert s[n..n + 9] == "jcq 1.0\r\n" && s[n + 9..] == Lines(hs) + tail;
    FindIs(s, FLAG, n);
  }

  lemma LineOf(h: Header, rest: string)
    requires IsHeader(h)
    ensures var s, i := Written(h) + rest, |h.name|;
      var j := i + 1 + |h.value|;
      && Line(s) == Some((i, j)) && s[..i] == h.name && s[i + 1..j] == h.value && s[j + 2..] == rest
      && !StartsWith(s, DATA)
  {
    hide IndexOf;
    var s, i := Written(h) + rest, |h.name|;
    var j := i + 1 + |h.value|;
    assert forall k :: 0 <= k < i ==> s[k] == h.name[k];
    assert s[i] == ':' && s[j] == '\r' && s[j + 1] == '\n';
    assert IndexOf(s, ':') == i;
    var t := s[i..];
    assert t[0] == ':' && forall k :: 0 < k < 1 + |h.value| ==> t[k] == h.value[k - 1];
    assert IndexOf(t, '\r') == 1 + |h.value|;
    if StartsWith(s, DATA) {
      MarkHasName(s, i);
    }
  }

  /** The mark of the body is the line name `data`. */
  lemma MarkHasName(s: string, i: nat)
    requires StartsWith(s, DATA) && i < |s| && s[i] == ':' && forall k :: 0 <= k < i ==> s[k] != ':'
    ensures i == 4 && s[..i] == "data"
  {
    var m := s[..5];
    assert m == DATA && m[4] == ':' && m[0] == 'd' && m[1] == 'a' && m[2] == 't' && m[3] == 'a';
    assert s[0] == m[0] && s[1] == m[1] && s[2] == m[2] && s[3] == m[3] && s[4] == m[4];
  }

  lemma LineTaken(f: Fields, d: Option<string>, h: Header, rest: string)
    requires IsHeader(h)
    ensures Parse(Core(f, Param, d), Written(h) + rest) ==
      if Set(f, h).1 == SetOk then Parse(Core(Set(f, h).0, Param, d), rest)
      else Result(Core(Set(f, h).0, Param, d), rest, FormatError)
  {
    hide SetParam, Line, StartsWith;
    LineOf(h, rest);
  }

  lemma {:induction false} LinesTaken(f: Fields, d: Option<string>, hs: seq<Header>, tail: string)
    requires Accepted(f, hs)
    ensures Parse(Core(f, Param, d), Lines(hs) + tail) == Parse(Core(SetAll(f, hs), Param, d), tail)
    decreases |hs|
  {
    hide Parse, Set, Written, IsHeader;
    if hs == [] {
      assert "" + tail == tail;
    } else {
      assert Lines(hs) + tail == Written(hs[0]) + (Lines(hs[1..]) + tail);
      LineTaken(f, d, hs[0], Lines(hs[1..]) + tail);
      LinesTaken(Set(f, hs[0]).0, d, hs[1..], tail);
    }
  }

  /** No further line is accepted. */
  ghost predicate Stuck(f: Fields, tail: string) {
    || StartsWith(tail, DATA) || Line(tail) == None
    || exists h, rest :: RefusedLine(f, tail, h, rest)
  }

  lemma NameIsMark(s: string)
    requires |s| >= 5
    ensures s[..4] == "data" && s[4] == ':' ==> StartsWith(s, DATA)
  {
    assert s[..5] == s[..4] + [s[4]];
  }

  lemma Pieces(s: string, i: nat, j: nat)
    requires i < j && j + 2 <= |s|
    ensures s == s[..i] + [s[i]] + s[i + 1..j] + [s[j], s[j + 1]] + s[j + 2..]
  {
  }

  lemma LineSigns(s: string, i: nat, j: nat)
    requires Line(s) == Some((i, j))
    ensures i < j && j + 2 <= |s| && s[i] == ':' && s[j] == '\r' && s[j + 1] == '\n'
    ensures ':' !in s[..i] && '\r' !in s[i + 1..j]
  {
    hide IndexOf;
    var t := s[i..];
    assert t[j - i] == '\r';
    forall k | i <= k < j
      ensures s[k] != '\r'
    {
      assert t[k - i] == s[k];
    }
  }

  lemma LineParts(s: string, i: nat, j: nat)
    requires Line(s) == Some((i, j)) && !StartsWith(s, DATA)
    ensures i < j && j + 2 <= |s|
    ensures var h := Header(s[..i], s[i + 1..j]);
      IsHeader(h) && s == Written(h) + s[j + 2..]
  {
    hide Line, StartsWith;
    LineSigns(s, i, j);
    Pieces(s, i, j);
    if i == 4 {
      NameIsMark(s);
    }
  }

  /** As many lines as are accepted. */
  lemma {:induction false} SplitLines(f: Fields, s: string) returns (hs: seq<Header>, tail: string)
    ensures s == Lines(hs) + tail && Accepted(f, hs) && Stuck(SetAll(f, hs), tail)
    decreases |s|
  {
    hide Set, Line, StartsWith, IsHeader;
    hs, tail := [], s;
    assert "" + s == s;
    if !StartsWith(s, DATA) && Line(s).Some? {
      var (i, j) := Line(s).value;
      LineParts(s, i, j);
      var h, rest := Header(s[..i], s[i + 1..j]), s[j + 2..];
      if Set(f, h).1 == SetOk {
        hs, tail := SplitLines(Set(f, h).0, rest);
        assert Written(h) + (Lines(hs) + tail) == Written(h) + Lines(hs) + tail;
        assert ([h] + hs)[1..] == hs;
        hs := [h] + hs;
      } else {
        assert RefusedLine(f, s, h, rest);
      }
    }
  }

  // ----- the body -----

  /** Nothing behind the body, the closing mark, or something else. */
  lemma EndOf(g: Fields, d: Option<string>, more: string)
    ensures Parse(Core(g, End, d), more) ==
      if more == "" then Result(Core(g, End, d), "", Success)
      else if StartsWith(more, CLOSE) then Result(Core(g, Finish, d), more[4..], Success)
      else Result(Core(g, End, d), more, FormatError)
  {
  }

  lemma MarkTurn(g: Fields, d: Option<string>, tail: string)
    requires StartsWith(tail, DATA)
    ensures Parse(Core(g, Param, d), tail) == Parse(Core(g, Data, None), tail)
  {
    assert tail[0..] == tail;
  }

  lemma BodyOf(g: Fields, tail: string)
    requires StartsWith(tail, DATA) && 0 <= g.length <= |tail| - 5
    ensures var body, more := tail[5..5 + g.length], tail[5 + g.length..];
      Parse(Core(g, Data, None), tail) == Parse(Core(g, End, if body == "" then None else Some(body)), more)
  {
    var body, n := tail[5..5 + g.length], 5 + g.length;
    assert "" + body == body;
    if g.length > 0 {
      assert Step(Core(g, Data, None), tail) == Go(Core(g, End, Some(body)), n);
    }
  }

  lemma NoBody(g: Fields, tail: string)
    requires StartsWith(tail, DATA) && !(0 <= g.length <= |tail| - 5)
    ensures var r := Parse(Core(g, Data, None), tail);
      r.core.state == Data && r.code == if g.length < 0 then FormatError else NeedMore
  {
  }

  /** What follows the lines decides. */
  ghost predicate Decided(g: Fields, tail: string, r: Result) {
    && (r.core.state == Finish <==> exists body, rest :: Closes(g, tail, body, rest))
    && (r.code == FormatError <==> Refuses(g, tail))
    && (r.code == FormatError || r.code == NeedMore || r.code == Success)
  }

  lemma MarkIs(tail: string)
    ensures StartsWith(tail, DATA) <==> At(tail, "data:", 0)
    ensures StartsWith(tail, CLOSE) <==> At(tail, "\r\n\r\n", 0)
  {
    if |tail| >= 5 {
      assert tail[0..5] == tail[..5];
    }
    if |tail| >= 4 {
      assert tail[0..4] == tail[..4];
    }
  }

  /** A body is where its length says, and what is behind it behind that. */
  lemma BodyIsThere(g: Fields, tail: string, body: string, more: string)
    requires tail == "data:" + body + more && |body| == g.length
    ensures StartsWith(tail, DATA) && 5 + g.length <= |tail|
    ensures body == tail[5..5 + g.length] && more == tail[5 + g.length..]
  {
  }

  lemma ClosesThere(g: Fields, tail: string, body: string, rest: string)
    requires Closes(g, tail, body, rest)
    ensures StartsWith(tail, DATA) && 0 <= g.length <= |tail| - 5
    ensures body == tail[5..5 + g.length] && StartsWith(tail[5 + g.length..], CLOSE)
  {
    assert tail == "data:" + body + ("\r\n\r\n" + rest);
    BodyIsThere(g, tail, body, "\r\n\r\n" + rest);
    assert ("\r\n\r\n" + rest)[..4] == CLOSE;
  }

  /** No line is refused at the mark of the body, nor where there is no line. */
  lemma OnlyLinesRefused(g: Fields, tail: string)
    requires StartsWith(tail, DATA) || Line(tail) == None
    ensures forall h, rest :: !RefusedLine(g, tail, h, rest)
  {
    hide Line, StartsWith, Set;
    forall h, rest | RefusedLine(g, tail, h, rest)
      ensures false
    {
      LineOf(h, rest);
    }
  }

  lemma NotMarked(g: Fields, tail: string)
    requires !StartsWith(tail, DATA)
    ensures forall body, rest :: !Closes(g, tail, body, rest)
    ensures !NegativeBody(g, tail) && forall body, more :: !Unclosed(g, tail, body, more)
  {
    hide StartsWith;
    MarkIs(tail);
    forall body, rest | Closes(g, tail, body, rest)
      ensures false
    {
      ClosesThere(g, tail, body, rest);
    }
    forall body, more | Unclosed(g, tail, body, more)
      ensures false
    {
      BodyIsThere(g, tail, body, more);
    }
  }

  /** A body that is not there yet, or cannot be. */
  lemma Bodyless(g: Fields, tail: string)
    requires StartsWith(tail, DATA) && !(0 <= g.length <= |tail| - 5)
    ensures forall body, rest :: !Closes(g, tail, body, rest)
    ensures Refuses(g, tail) <==> g.length < 0
  {
    hide StartsWith, Set;
    MarkIs(tail);
    OnlyLinesRefused(g, tail);
    forall body, rest | Closes(g, tail, body, rest)
      ensures false
    {
      ClosesThere(g, tail, body, rest);
    }
    forall body, more | Unclosed(g, tail, body, more)
      ensures false
    {
      BodyIsThere(g, tail, body, more);
    }
  }

  lemma BodyDecides(g: Fields, tail: string)
    requires StartsWith(tail, DATA) && 0 <= g.length <= |tail| - 5
    ensures var more := tail[5 + g.length..];
      && ((exists body, rest :: Closes(g, tail, body, rest)) <==> StartsWith(more, CLOSE))
      && (Refuses(g, tail) <==> more != "" && !StartsWith(more, CLOSE))
      && (StartsWith(more, CLOSE) ==> more != "")
  {
    hide Set;
    var at, more := tail[5..5 + g.length], tail[5 + g.length..];
    MarkIs(more);
    OnlyLinesRefused(g, tail);
    assert tail == tail[..5] + at + more;
    if StartsWith(more, CLOSE) {
      assert more == more[..4] + more[4..];
      assert tail == "data:" + at + "\r\n\r\n" + more[4..];
      assert Closes(g, tail, at, more[4..]);
    } else if more != "" {
      assert Unclosed(g, tail, at, more);
    }
    forall body, rest | Closes(g, tail, body, rest)
      ensures StartsWith(more, CLOSE)
    {
      ClosesThere(g, tail, body, rest);
    }
    forall body, m | Unclosed(g, tail, body, m)
      ensures more == m
    {
      BodyIsThere(g, tail, body, m);
    }
  }

  lemma MarkDecides(g: Fields, d: Option<string>, tail: string)
    requires StartsWith(tail, DATA)
    ensures Decided(g, tail, Parse(Core(g, Param, d), tail))
  {
    hide Parse, Step, StartsWith, Refuses, Closes;
    MarkTurn(g, d, tail);
    if 0 <= g.length <= |tail| - 5 {
      BodyOf(g, tail);
      var body, more := tail[5..5 + g.length], tail[5 + g.length..];
      EndOf(g, if body == "" then None else Some(body), more);
      BodyDecides(g, tail);
    } else {
      NoBody(g, tail);
      Bodyless(g, tail);
    }
  }

  lemma LineDecides(g: Fields, d: Option<string>, tail: string, h: Header, rest: string)
    requires RefusedLine(g, tail, h, rest)
    ensures Decided(g, tail, Parse(Core(g, Param, d), tail))
  {
    hide Parse, Step, StartsWith, Closes, Set;
    LineTaken(g, d, h, rest);
    LineOf(h, rest);
    NotMarked(g, tail);
  }

  lemma NothingDecides(g: Fields, d: Option<string>, tail: string)
    requires Line(tail) == None && !StartsWith(tail, DATA)
    ensures Decided(g, tail, Parse(Core(g, Param, d), tail))
  {
    hide Line, StartsWith, Closes, Set;
    NotMarked(g, tail);
    OnlyLinesRefused(g, tail);
  }

  lemma TailDecides(g: Fields, d: Option<string>, tail: string)
    requires Stuck(g, tail)
    ensures Decided(g, tail, Parse(Core(g, Param, d), tail))
  {
    hide Parse, Line, StartsWith, Decided, RefusedLine;
    if StartsWith(tail, DATA) {
      MarkDecides(g, d, tail);
    } else if Line(tail) == None {
      NothingDecides(g, d, tail);
    } else {
      var h, rest :| RefusedLine(g, tail, h, rest);
      LineDecides(g, d, tail, h, rest);
    }
  }

  // ----- whole messages -----

  /** A whole message: what is read of it is the fields its lines set and its body, and what follows is left
      over. */
  lemma WholeRead(f: Fields, d: Option<string>, s: string, before: string, hs: seq<Header>, body: string, rest: string)
    requires Opens(f, s, before, hs, "data:" + body + "\r\n\r\n" + rest) && |body| == SetAll(f, hs).length
    ensures Parse(Core(f, Wait, d), s) ==
      Result(Core(SetAll(f, hs), Finish, if body == "" then None else Some(body)), rest, Success)
  {
    hide Parse, Step, Opens, SetAll;
    var g, more := SetAll(f, hs), "\r\n\r\n" + rest;
    var tail := "data:" + body + more;
    assert tail == "data:" + body + "\r\n\r\n" + rest;
    FlagSkipped(f, d, s, before, hs, tail);
    OpensAccepted(f, s, before, hs, tail);
    LinesTaken(f, d, hs, tail);
    BodyIsThere(g, tail, body, more);
    MarkTurn(g, d, tail);
    BodyOf(g, tail);
    EndOf(g, if body == "" then None else Some(body), more);
    assert more[..4] == "\r\n\r\n" && more[4..] == rest;
  }

  lemma OpensAccepted(f: Fields, s: string, before: string, hs: seq<Header>, tail: string)
    requires Opens(f, s, before, hs, tail)
    ensures Accepted(f, hs)
  {
  }

  lemma Opened(f: Fields, d: Option<string>, s: string, before: string, hs: seq<Header>, tail: string)
    requires Opens(f, s, before, hs, tail)
    ensures Parse(Core(f, Wait, d), s) == Parse(Core(SetAll(f, hs), Param, d), tail)
  {
    hide Parse, SetAll, Opens;
    FlagSkipped(f, d, s, before, hs, tail);
    OpensAccepted(f, s, before, hs, tail);
    LinesTaken(f, d, hs, tail);
  }

  /** The flag is found, and as many lines as are accepted are taken. */
  lemma Unfold(f: Fields, s: string) returns (before: string, hs: seq<Header>, tail: string)
    requires Find(s, FLAG).Some?
    ensures Opens(f, s, before, hs, tail) && Stuck(SetAll(f, hs), tail)
  {
    hide Accepted, Stuck, Lines, SetAll;
    var p := Find(s, FLAG).value;
    before := s[..p];
    hs, tail := SplitLines(f, s[p + 9..]);
    assert s == s[..p] + s[p..p + 9] + s[p + 9..];
    assert s == before + "jcq 1.0\r\n" + (Lines(hs) + tail);
  }

  lemma OpensFlag(f: Fields, s: string, before: string, hs: seq<Header>, tail: string)
    requires Opens(f, s, before, hs, tail)
    ensures Find(s, FLAG).Some?
  {
    hide Accepted, Lines, Find;
    assert s == before + "jcq 1.0\r\n" + (Lines(hs) + tail);
    assert At(s, FLAG, |before|);
  }

  lemma NoFlag(f: Fields, d: Option<string>, s: string)
    requires Find(s, FLAG).None?
    ensures var r := Parse(Core(f, Wait, d), s);
      r.core.state == Wait && (r.code == NeedMore || r.code == Success)
    ensures forall before, hs, tail :: !Opens(f, s, before, hs, tail)
  {
    hide Accepted, Lines;
    forall before, hs, tail | Opens(f, s, before, hs, tail)
      ensures false
    {
      OpensFlag(f, s, before, hs, tail);
    }
  }

  /** A whole message is read to its end exactly when there is one: a flag, lines that each set a field, and a
      body as long as the fields then say, between its mark and the closing mark. */
  lemma FinishedExactly(f: Fields, d: Option<string>, s: string)
    ensures Parse(Core(f, Wait, d), s).core.state == Finish <==>
      exists before, hs, tail ::
        Opens(f, s, before, hs, tail) && exists body, rest :: Closes(SetAll(f, hs), tail, body, rest)
  {
    hide Parse, Opens, SetAll, Closes, Find, Stuck, Refuses;
    if Find(s, FLAG).Some? {
      var before, hs, tail := Unfold(f, s);
      Opened(f, d, s, before, hs, tail);
      TailDecides(SetAll(f, hs), d, tail);
    } else {
      NoFlag(f, d, s);
    }
    forall before, hs, tail, body, rest | Opens(f, s, before, hs, tail) && Closes(SetAll(f, hs), tail, body, rest)
      ensures Parse(Core(f, Wait, d), s).core.state == Finish
    {
      ClosesRead(f, d, s, before, hs, tail, body, rest);
    }
  }

  lemma ClosesRead(f: Fields, d: Option<string>, s: string, before: string, hs: seq<Header>, tail: string, body: string,
                   rest: string)
    requires Opens(f, s, before, hs, tail) && Closes(SetAll(f, hs), tail, body, rest)
    ensures Parse(Core(f, Wait, d), s).core.state == Finish
  {
    hide Parse, Opens, SetAll;
    WholeRead(f, d, s, before, hs, body, rest);
  }

  /** And it is refused exactly when a line sets no field, the body is to be shorter than nothing, or what is
      behind it does not begin with the closing mark. Otherwise more is asked for, or the bytes are used up. */
  lemma RefusedExactly(f: Fields, d: Option<string>, s: string)
    ensures Parse(Core(f, Wait, d), s).code == FormatError <==>
      exists before, hs, tail :: Opens(f, s, before, hs, tail) && Refuses(SetAll(f, hs), tail)
    ensures Parse(Core(f, Wait, d), s).code in {FormatError, NeedMore, Success}
  {
    hide Parse, Opens, SetAll, Closes, Find, Stuck, Refuses;
    if Find(s, FLAG).Some? {
      var before, hs, tail := Unfold(f, s);
      Opened(f, d, s, before, hs, tail);
      TailDecides(SetAll(f, hs), d, tail);
    } else {
      NoFlag(f, d, s);
    }
    forall before, hs, tail | Opens(f, s, before, hs, tail) && Refuses(SetAll(f, hs), tail)
      ensures Parse(Core(f, Wait, d), s).code == FormatError
    {
      Opened(f, d, s, before, hs, tail);
      RefusesStuck(SetAll(f, hs), tail);
      TailDecides(SetAll(f, hs), d, tail);
    }
  }

  lemma RefusesStuck(g: Fields, tail: string)
    requires Refuses(g, tail)
    ensures Stuck(g, tail)
  {
    hide RefusedLine, Line, StartsWith;
    if (exists body, more :: Unclosed(g, tail, body, more)) {
      var body, more :| Unclosed(g, tail, body, more);
      BodyIsThere(g, tail, body, more);
    }
    MarkIs(tail);
  }
}
