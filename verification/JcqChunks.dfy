/** Feeding the JCQ parser a stream in pieces (parser/jcq.c:8-218). */
module JcqChunks {
  import opened Text
  import opened NetMessages
  import opened Jcq

  /** Where, from here on, the body starts (0 once it has) and where the closing mark starts. */
  datatype Layout = Layout(body: nat, close: int)

  ghost function LayoutOf(core: Core, rest: string): Layout
    decreases |rest|, Rank(core.state)
  {
    match core.state
    case Data =>
      Layout(MarkLength(core), MarkLength(core) + core.fields.length - ReadLength(core))
    case End => Layout(0, 0)
    case Finish => Layout(0, 0)
    case _ =>
      if rest == "" then Layout(0, 0)
      else
        match Step(core, rest)
        case Halt(_, _, _) => Layout(0, 0)
        case Go(next, n) =>
          var l := LayoutOf(next, rest[n..]);
          Layout(l.body + n, l.close + n)
  }

  /** The layout seen from `k` bytes further on. */
  function Later(l: Layout, k: nat): Layout {
    Layout(if l.body <= k then 0 else l.body - k, l.close - k)
  }

  /** Not right after `data:` of a non-empty body, and not strictly inside the closing mark. */
  predicate GoodCut(l: Layout, p: nat) {
    !(0 < l.body == p < l.close) && !(l.close < p < l.close + |CLOSE|)
  }

  ghost predicate Finishes(core: Core, s: string) {
    core.state != Finish && Parse(core, s).core.state == Finish
  }

  /** How a message stands between two calls: past `data:` only with part of the body. */
  predicate Between(core: Core) {
    core.state != Finish && (core.state == Data ==> 0 < ReadLength(core) < core.fields.length)
  }

  /** Carried bytes are bytes the parser has looked at and found too few. */
  ghost predicate Waiting(core: Core, carry: string) {
    carry == "" || Step(core, carry) == Halt(core, carry, NeedMore)
  }

  predicate InTurn(core: Core, a: string) {
    core.state == Data ==>
      if ReadLength(core) == 0 then StartsWith(a, DATA)
      else ReadLength(core) < core.fields.length
  }

  // ----- one cut -----

  /** What feeding the first piece leaves when the cut is good. */
  ghost predicate Resumes(core: Core, a: string, b: string) {
    var r, w, l := Parse(core, a), Parse(core, a + b), LayoutOf(core, a + b);
    if l.close + |CLOSE| <= |a| then
      r.core == w.core && r.code == Success && r.carry + b == w.carry
    else
      && Between(r.core) && r.code in {Success, NeedMore} && |r.carry| <= |a| && Waiting(r.core, r.carry)
      && Parse(r.core, r.carry + b) == w
      && LayoutOf(r.core, r.carry + b) == Later(l, |a| - |r.carry|)
  }

  lemma IndexOfPrefix(a: string, b: string, c: char)
    ensures IndexOf(a, c) < |a| ==> IndexOf(a + b, c) == IndexOf(a, c)
    ensures IndexOf(a, c) == |a| ==> IndexOf(a + b, c) >= |a|
  {
    var i, k := IndexOf(a, c), IndexOf(a + b, c);
    assert forall j :: 0 <= j < |a| ==> (a + b)[j] == a[j];
  }

  lemma LinePrefix(a: string, b: string)
    ensures Line(a + b).Some? && Line(a + b).value.1 + 2 <= |a| ==> Line(a) == Line(a + b)
    ensures Line(a + b).Some? && Line(a + b).value.1 + 2 > |a| ==> Line(a).None?
  {
    hide IndexOf;
    IndexOfPrefix(a, b, ':');
    var i := IndexOf(a, ':');
    if i < |a| {
      assert (a + b)[i..] == a[i..] + b;
      IndexOfPrefix(a[i..], b, '\r');
    }
  }

  lemma FindFlagPrefix(a: string, b: string)
    requires Find(a + b, FLAG).Some?
    ensures var p := Find(a + b, FLAG).value;
      Find(a, FLAG) == if p + |FLAG| <= |a| then Some(p) else None
  {
    hide Find;
    var p := Find(a + b, FLAG).value;
    forall j: nat | j + |FLAG| <= |a|
      ensures At(a, FLAG, j) <==> At(a + b, FLAG, j)
    {
      assert a[j..j + |FLAG|] == (a + b)[j..j + |FLAG|];
    }
  }

  lemma MarkPrefix(a: string, b: string)
    ensures |DATA| <= |a| ==> (StartsWith(a, DATA) <==> StartsWith(a + b, DATA))
    ensures |a| < |DATA| && StartsWith(a + b, DATA) ==> Line(a).None?
  {
    if |DATA| <= |a| {
      assert a[..|DATA|] == (a + b)[..|DATA|];
    } else if StartsWith(a + b, DATA) {
      assert forall j :: 0 <= j < |a| ==> a[j] == (a + b)[..|DATA|][j];
      assert IndexOf(a, ':') == |a|;
    }
  }

  lemma ParamTurn(core: Core, a: string, b: string)
    requires core.state == Param && a != "" && Step(core, a + b).Go?
    ensures var n := Step(core, a + b).n;
      Step(core, a) == if n <= |a| && (n == 0 ==> |DATA| <= |a|) then Step(core, a + b) else Halt(core, a, NeedMore)
  {
    hide IndexOf, SetParam, CString, Line;
    LinePrefix(a, b);
    MarkPrefix(a, b);
    var l := Line(a + b);
    if l.Some? && l.value.1 + 2 <= |a| {
      var (i, j) := l.value;
      assert a[..i] == (a + b)[..i] && a[i + 1..j] == (a + b)[i + 1..j];
    }
  }

  /** A header turn on the whole is the same turn on the first piece, or waits for more. */
  lemma HeaderTurn(core: Core, a: string, b: string)
    requires core.state in {Wait, Param} && a != "" && Step(core, a + b).Go?
    ensures var n := Step(core, a + b).n;
      Step(core, a) == if n <= |a| && (n == 0 ==> |DATA| <= |a|) then Step(core, a + b) else Halt(core, a, NeedMore)
  {
    hide Find;
    if core.state == Wait {
      FindFlagPrefix(a, b);
    } else {
      ParamTurn(core, a, b);
    }
  }

  // The end of a message: `data:`, the body and the closing mark.

  lemma CutClose(core: Core, a: string, b: string)
    requires core.state == End && a != "" && Finishes(core, a + b) && GoodCut(Layout(0, 0), |a|)
    ensures Resumes(core, a, b)
  {
    assert a[..|CLOSE|] == (a + b)[..|CLOSE|];
    assert (a + b)[|CLOSE|..] == a[|CLOSE|..] + b;
  }

  /** A body turn takes all that is missing, or all there is. */
  lemma BodyTurn(core: Core, s: string)
    requires core.state == Data && InTurn(core, s) && s != "" && core.fields.length > 0
    ensures var start, got := MarkLength(core), BodySoFar(core);
      var missing := core.fields.length - |got|;
      start <= |s| && missing > 0 &&
      Step(core, s) ==
        if |s| - start < missing then Halt(core.(data := Some(got + s[start..])), "", NeedMore)
        else Go(core.(data := Some(got + s[start..start + missing]), state := End), start + missing)
  {
    var start := MarkLength(core);
    assert s[start..start + (|s| - start)] == s[start..];
  }

  lemma CutEmptyBody(core: Core, a: string, b: string)
    requires core.state == Data && core.fields.length == 0 && InTurn(core, a) && a != ""
    requires Finishes(core, a + b) && GoodCut(LayoutOf(core, a + b), |a|)
    ensures Resumes(core, a, b)
  {
    var end := core.(state := End);
    MarkPrefix(a, b);
    assert Step(core, a) == Step(core, a + b) == Go(end, |DATA|);
    assert (a + b)[|DATA|..] == a[|DATA|..] + b;
    if a[|DATA|..] == "" {
      assert "" + b == b;
    } else {
      CutClose(end, a[|DATA|..], b);
    }
  }

  lemma CutInsideBody(core: Core, a: string, b: string)
    requires core.state == Data && core.fields.length > 0 && InTurn(core, a) && a != ""
    requires Finishes(core, a + b) && GoodCut(LayoutOf(core, a + b), |a|)
    requires |a| < MarkLength(core) + core.fields.length - ReadLength(core)
    ensures Resumes(core, a, b)
  {
    hide Step;
    var start, got := MarkLength(core), BodySoFar(core);
    var n := start + core.fields.length - |got|;
    MarkPrefix(a, b);
    BodyTurn(core, a);
    BodyTurn(core, a + b);
    var next := core.(data := Some(got + a[start..]));
    assert Parse(core, a) == Result(next, "", NeedMore);
    ResumeBody(core, a, b, next);
    assert "" + b == b;
  }

  lemma ResumeBody(core: Core, a: string, b: string, next: Core)
    requires core.state == Data && core.fields.length > 0 && InTurn(core, a) && InTurn(core, a + b) && a != ""
    requires Finishes(core, a + b) && MarkLength(core) < |a| < MarkLength(core) + core.fields.length - ReadLength(core)
    requires next == core.(data := Some(BodySoFar(core) + a[MarkLength(core)..]))
    ensures Parse(next, b) == Parse(core, a + b)
  {
    hide Step;
    var start, got := MarkLength(core), BodySoFar(core);
    var n := start + core.fields.length - |got|;
    var m := n - |a|;
    BodyTurn(core, a + b);
    assert |a + b| >= n;
    var end := core.(data := Some(got + (a + b)[start..n]), state := End);
    assert Parse(core, a + b) == Parse(end, (a + b)[n..]);
    BodyTurn(next, b);
    assert BodySoFar(next) + b[..m] == got + (a + b)[start..n];
    assert b[0..m] == b[..m];
    assert Parse(next, b) == Parse(end, b[m..]);
    assert (a + b)[n..] == b[m..];
  }

  lemma CutNothing(core: Core, b: string)
    requires core.state == End
    ensures Resumes(core, "", b)
  {
    hide Step;
    assert "" + b == b;
  }

  /** A turn that takes the body resumes as what follows it does. */
  lemma ResumesLater(core: Core, a: string, b: string, end: Core, n: nat)
    requires end.state == End && n <= |a| && LayoutOf(core, a + b).body <= n == LayoutOf(core, a + b).close
    requires Parse(core, a) == Parse(end, a[n..]) && Parse(core, a + b) == Parse(end, a[n..] + b)
    requires Resumes(end, a[n..], b)
    ensures Resumes(core, a, b)
  {
    hide Step, Parse, Between, Waiting;
    assert LayoutOf(end, a[n..] + b) == Layout(0, 0);
  }

  lemma CutAfterBody(core: Core, a: string, b: string)
    requires core.state == Data && core.fields.length > 0 && InTurn(core, a) && a != ""
    requires Finishes(core, a + b) && GoodCut(LayoutOf(core, a + b), |a|)
    requires MarkLength(core) + core.fields.length - ReadLength(core) <= |a|
    ensures Resumes(core, a, b)
  {
    hide Step, Resumes;
    var start, got := MarkLength(core), BodySoFar(core);
    var n := start + core.fields.length - |got|;
    MarkPrefix(a, b);
    BodyTurn(core, a);
    BodyTurn(core, a + b);
    var end := core.(data := Some(got + a[start..n]), state := End);
    assert a[start..n] == (a + b)[start..n];
    assert Parse(core, a) == Parse(end, a[n..]);
    assert (a + b)[n..] == a[n..] + b;
    assert Parse(core, a + b) == Parse(end, a[n..] + b);
    if a[n..] == "" {
      CutNothing(end, b);
    } else {
      CutClose(end, a[n..], b);
    }
    ResumesLater(core, a, b, end, n);
  }

  lemma FinishTurn(core: Core, s: string)
    requires Finishes(core, s) && core.state in {Wait, Param}
    ensures s != "" && Step(core, s).Go?
    ensures Finishes(Step(core, s).core, s[Step(core, s).n..]) && InTurn(Step(core, s).core, s[Step(core, s).n..])
    ensures Parse(core, s) == Parse(Step(core, s).core, s[Step(core, s).n..])
  {
  }

  lemma {:induction false} LayoutAhead(core: Core, s: string)
    requires Finishes(core, s) && InTurn(core, s)
    ensures LayoutOf(core, s).body <= LayoutOf(core, s).close <= |s| - |CLOSE|
    ensures core.state in {Wait, Param} ==> |DATA| <= LayoutOf(core, s).body
    decreases |s|, Rank(core.state)
  {
    if core.state in {Wait, Param} {
      FinishTurn(core, s);
      var t := Step(core, s);
      LayoutAhead(t.core, s[t.n..]);
    } else if core.state == Data {
      var t := Step(core, s);
      assert t.Go? && t.core.state == End;
      ClosingIsThere(t.core, s[t.n..]);
    } else {
      ClosingIsThere(core, s);
    }
  }

  lemma ClosingIsThere(core: Core, s: string)
    requires core.state == End && Finishes(core, s)
    ensures StartsWith(s, CLOSE) && Parse(core, s).core.data == core.data
  {
  }

  lemma LayoutTurn(core: Core, s: string)
    requires Finishes(core, s) && core.state in {Wait, Param}
    ensures var t := Step(core, s); var l, k := LayoutOf(core, s), LayoutOf(t.core, s[t.n..]);
      && l == Layout(k.body + t.n, k.close + t.n) && |DATA| <= k.body <= k.close
  {
    FinishTurn(core, s);
    var t := Step(core, s);
    LayoutAhead(t.core, s[t.n..]);
  }

  /** The cut falls in or right after the header turn at hand. */
  lemma CutInTurn(core: Core, a: string, b: string)
    requires core.state in {Wait, Param} && a != "" && Finishes(core, a + b)
    requires Step(core, a) != Step(core, a + b) || Step(core, a + b).n == |a|
    ensures Resumes(core, a, b)
  {
    hide Step;
    FinishTurn(core, a + b);
    HeaderTurn(core, a, b);
    LayoutTurn(core, a + b);
    var t := Step(core, a + b);
    if Step(core, a) == t {
      assert a[t.n..] == "" && (a + b)[t.n..] == b && "" + b == b;
      TurnState(core, a + b);
      assert Parse(core, a) == Parse(t.core, "") == Result(t.core, "", Success);
    } else {
      assert Parse(core, a) == Result(core, a, NeedMore);
    }
  }

  lemma TurnState(core: Core, s: string)
    requires core.state in {Wait, Param} && s != "" && Step(core, s).Go? && Step(core, s).n > 0
    ensures Step(core, s).core.state == Param
  {
  }

  lemma CutLater(core: Core, a: string, b: string)
    requires core.state in {Wait, Param} && a != "" && Finishes(core, a + b)
    requires Step(core, a) == Step(core, a + b) && Step(core, a).Go? && Step(core, a).n < |a|
    requires var t := Step(core, a); Finishes(t.core, a[t.n..] + b) && Resumes(t.core, a[t.n..], b)
    ensures Resumes(core, a, b)
  {
    hide Step;
    LayoutTurn(core, a + b);
    var t := Step(core, a);
    assert (a + b)[t.n..] == a[t.n..] + b;
    assert Parse(core, a) == Parse(t.core, a[t.n..]);
    assert Parse(core, a + b) == Parse(t.core, a[t.n..] + b);
  }

  lemma EnterTurn(core: Core, a: string, b: string)
    requires core.state in {Wait, Param} && a != "" && Finishes(core, a + b)
    requires Step(core, a) == Step(core, a + b) && Step(core, a).Go? && Step(core, a).n < |a|
    requires GoodCut(LayoutOf(core, a + b), |a|)
    ensures var t := Step(core, a);
      && Finishes(t.core, a[t.n..] + b) && InTurn(t.core, a[t.n..])
      && GoodCut(LayoutOf(t.core, a[t.n..] + b), |a[t.n..]|)
  {
    hide Step;
    FinishTurn(core, a + b);
    LayoutTurn(core, a + b);
    assert (a + b)[Step(core, a).n..] == a[Step(core, a).n..] + b;
    TurnInto(core, a);
  }

  lemma TurnInto(core: Core, s: string)
    requires core.state in {Wait, Param} && s != "" && Step(core, s).Go?
    ensures InTurn(Step(core, s).core, s[Step(core, s).n..])
  {
  }

  /** A good cut anywhere in a message that parses whole is harmless. */
  lemma {:induction false} CutOnce(core: Core, a: string, b: string)
    requires a != "" && Finishes(core, a + b) && InTurn(core, a)
    requires GoodCut(LayoutOf(core, a + b), |a|)
    ensures Resumes(core, a, b)
    decreases |a|, Rank(core.state)
  {
    if core.state == End {
      CutClose(core, a, b);
    } else if core.state == Data {
      CutData(core, a, b);
    } else {
      hide Step, LayoutOf, Resumes;
      FinishTurn(core, a + b);
      HeaderTurn(core, a, b);
      var t := Step(core, a + b);
      if Step(core, a) == t && t.n < |a| {
        EnterTurn(core, a, b);
        CutOnce(t.core, a[t.n..], b);
        CutLater(core, a, b);
      } else {
        CutInTurn(core, a, b);
      }
    }
  }

  lemma CutData(core: Core, a: string, b: string)
    requires core.state == Data && a != "" && Finishes(core, a + b) && InTurn(core, a)
    requires GoodCut(LayoutOf(core, a + b), |a|)
    ensures Resumes(core, a, b)
  {
    hide Resumes;
    MarkPrefix(a, b);
    assert Step(core, a + b).Go?;
    if core.fields.length == 0 {
      CutEmptyBody(core, a, b);
    } else if |a| < MarkLength(core) + core.fields.length - ReadLength(core) {
      CutInsideBody(core, a, b);
    } else {
      CutAfterBody(core, a, b);
    }
  }

  // ----- any number of cuts -----

  function Concat(chunks: seq<string>): string {
    if chunks == [] then "" else chunks[0] + Concat(chunks[1..])
  }

  /** Calls the parser on one piece after another until a message is finished or refused;
      answers the message and the pieces not looked at. */
  ghost function Stream(m: Msg, chunks: seq<string>): (Msg, seq<string>)
    decreases |chunks|
  {
    if chunks == [] || m.core.state == Finish then (m, chunks)
    else
      var (next, code) := Feed(m, chunks[0]);
      if code in {Success, NeedMore} then Stream(next, chunks[1..]) else (next, chunks[1..])
  }

  ghost predicate GoodCuts(l: Layout, p: nat, chunks: seq<string>) {
    forall k :: 0 <= k < |chunks| ==> GoodCut(l, p + |Concat(chunks[..k])|)
  }

  lemma GoodCutsLater(l: Layout, p: nat, chunks: seq<string>, d: nat, q: nat)
    requires chunks != [] && GoodCuts(l, p, chunks) && q + d == p + |chunks[0]|
    ensures |chunks| > 1 ==> GoodCut(l, p + |chunks[0]|)
    ensures GoodCuts(Later(l, d), q, chunks[1..])
  {
    forall k | 0 <= k < |chunks| - 1
      ensures GoodCut(l, q + d + |Concat(chunks[1..][..k])|)
    {
      assert chunks[..k + 1][0] == chunks[0] && chunks[..k + 1][1..] == chunks[1..][..k];
    }
    assert Concat(chunks[1..][..0]) == "";
  }

  /** However a stream is cut, apart from the two kinds of bad cut, the message read and the
      bytes left over are those of one call on the whole. */
  lemma {:induction false} ChunkingIndependence(m: Msg, chunks: seq<string>)
    requires Between(m.core) && Waiting(m.core, m.carry) && Finishes(m.core, m.carry + Concat(chunks))
    requires GoodCuts(LayoutOf(m.core, m.carry + Concat(chunks)), |m.carry|, chunks)
    ensures var w, (n, unread) := Parse(m.core, m.carry + Concat(chunks)), Stream(m, chunks);
      n.core == w.core && n.carry + Concat(unread) == w.carry
    decreases |chunks|
  {
    hide Step, LayoutOf, GoodCuts;
    if chunks == [] {
      assert m.carry + "" == m.carry;
      WaitingStaysUnfinished(m);
      assert false;
    }
    var a, b := m.carry + chunks[0], Concat(chunks[1..]);
    var l := LayoutOf(m.core, m.carry + Concat(chunks));
    assert m.carry + Concat(chunks) == a + b;
    if a == "" {
      GoodCutsLater(l, 0, chunks, 0, 0);
      assert a + b == m.carry + b;
      ChunkingIndependence(m, chunks[1..]);
    } else {
      var r := Parse(m.core, a);
      GoodCutsLater(l, |m.carry|, chunks, if |r.carry| <= |a| then |a| - |r.carry| else 0,
                    if |r.carry| <= |a| then |r.carry| else |a|);
      LayoutAhead(m.core, a + b);
      assert |chunks| == 1 ==> b == "";
      CutOnce(m.core, a, b);
      if l.close + |CLOSE| > |a| {
        ChunkingIndependence(Msg(r.core, r.carry), chunks[1..]);
      }
    }
  }

  lemma WaitingStaysUnfinished(m: Msg)
    requires Between(m.core) && Waiting(m.core, m.carry)
    ensures !Finishes(m.core, m.carry)
  {
  }

  // ----- the two kinds of bad cut -----

  /** What the first piece leaves when the cut is bad: refusal inside the closing mark, or a
      message waiting at the start of a body whose mark has been used up. */
  ghost predicate Derailed(core: Core, a: string, b: string) {
    var r, w := Parse(core, a), Parse(core, a + b);
    var n := r.core.fields.length;
    || (r.code == FormatError && r.core.state != Finish)
    || (&& r.code == NeedMore && r.carry == "" && r.core.state == Data && ReadLength(r.core) == 0
        && 0 < n && n + |CLOSE| <= |b| && w.core.data == Some(b[..n]) && b[n..n + |CLOSE|] == CLOSE)
  }

  lemma DerailClose(core: Core, a: string, b: string)
    requires core.state == End && a != "" && Finishes(core, a + b) && !GoodCut(Layout(0, 0), |a|)
    ensures Derailed(core, a, b)
  {
  }

  lemma DerailBody(core: Core, a: string, b: string)
    requires core.state == Data && core.fields.length > 0 && InTurn(core, a) && a != ""
    requires Finishes(core, a + b) && !GoodCut(LayoutOf(core, a + b), |a|)
    ensures Derailed(core, a, b)
  {
    hide Step;
    var start, got := MarkLength(core), BodySoFar(core);
    var n := start + core.fields.length - |got|;
    MarkPrefix(a, b);
    BodyTurn(core, a);
    BodyTurn(core, a + b);
    var end := core.(data := Some(got + (a + b)[start..n]), state := End);
    assert Parse(core, a + b) == Parse(end, (a + b)[n..]);
    ClosingIsThere(end, (a + b)[n..]);
    if |a| == start {
      WindowsBeyond(a, b, n);
      assert a[start..] == "" && got + a[start..] == "";
      assert got + b[..n - start] == b[..n - start];
    } else {
      WindowsWithin(a, b, start, n);
      DerailClose(end, a[n..], b);
    }
  }

  lemma WindowsBeyond(a: string, b: string, n: nat)
    requires |a| <= n && n + |CLOSE| <= |a + b|
    ensures (a + b)[|a|..n] == b[..n - |a|]
    ensures (a + b)[n..][..|CLOSE|] == b[n - |a|..n - |a| + |CLOSE|]
  {
  }

  lemma WindowsWithin(a: string, b: string, start: nat, n: nat)
    requires start <= n <= |a|
    ensures (a + b)[start..n] == a[start..n] && (a + b)[n..] == a[n..] + b
  {
  }

  lemma DerailData(core: Core, a: string, b: string)
    requires core.state == Data && a != "" && Finishes(core, a + b) && InTurn(core, a)
    requires !GoodCut(LayoutOf(core, a + b), |a|)
    ensures Derailed(core, a, b)
  {
    MarkPrefix(a, b);
    assert Step(core, a + b).Go?;
    if core.fields.length == 0 {
      var end := core.(state := End);
      assert Step(core, a) == Step(core, a + b) == Go(end, |DATA|);
      assert (a + b)[|DATA|..] == a[|DATA|..] + b;
      DerailClose(end, a[|DATA|..], b);
    } else {
      DerailBody(core, a, b);
    }
  }

  /** In the header every cut is good. */
  lemma HeaderCutIsGood(core: Core, a: string, b: string)
    requires core.state in {Wait, Param} && a != "" && Finishes(core, a + b)
    requires !GoodCut(LayoutOf(core, a + b), |a|)
    ensures Step(core, a) == Step(core, a + b) && Step(core, a).Go? && Step(core, a).n < |a|
    ensures var t := Step(core, a);
      && Finishes(t.core, a[t.n..] + b) && InTurn(t.core, a[t.n..])
      && !GoodCut(LayoutOf(t.core, a[t.n..] + b), |a[t.n..]|)
  {
    hide Step;
    FinishTurn(core, a + b);
    HeaderTurn(core, a, b);
    LayoutTurn(core, a + b);
    TurnInto(core, a);
    assert (a + b)[Step(core, a).n..] == a[Step(core, a).n..] + b;
  }

  lemma DerailLater(core: Core, a: string, b: string)
    requires core.state in {Wait, Param} && a != "" && Finishes(core, a + b)
    requires Step(core, a) == Step(core, a + b) && Step(core, a).Go? && Step(core, a).n < |a|
    requires Derailed(Step(core, a).core, a[Step(core, a).n..], b)
    ensures Derailed(core, a, b)
  {
    hide Step;
    var t := Step(core, a);
    assert (a + b)[t.n..] == a[t.n..] + b;
    assert Parse(core, a) == Parse(t.core, a[t.n..]);
    assert Parse(core, a + b) == Parse(t.core, a[t.n..] + b);
  }

  lemma {:induction false} Derail(core: Core, a: string, b: string)
    requires a != "" && Finishes(core, a + b) && InTurn(core, a)
    requires !GoodCut(LayoutOf(core, a + b), |a|)
    ensures Derailed(core, a, b)
    decreases |a|, Rank(core.state)
  {
    if core.state == End {
      DerailClose(core, a, b);
    } else if core.state == Data {
      DerailData(core, a, b);
    } else {
      hide Step, LayoutOf, Derailed;
      HeaderCutIsGood(core, a, b);
      Derail(Step(core, a).core, a[Step(core, a).n..], b);
      DerailLater(core, a, b);
    }
  }

  // A body whose mark has been used up is looked for behind another mark, or behind several when a piece
  // ends after each of them.

  /** All of it comes from marks. */
  predicate Marks(s: string) { forall i :: 0 <= i < |s| ==> s[i] in DATA }

  /** A body read again from `t` bytes of marks further on is a different body: were it the same, the marks
      would repeat all the way into the closing mark. */
  lemma {:induction false} MarkRepeats(b: string, n: nat, t: nat, i: nat)
    requires 0 < t && n + t <= |b| && Marks(b[..t]) && i < n + t
    requires b[..n] == b[t..n + t]
    ensures b[i] in DATA
  {
    if i < t {
      assert b[i] == b[..t][i];
    } else {
      MarkRepeats(b, n, t, i - t);
      assert b[i] == b[t..n + t][i - t];
      assert b[i - t] == b[..n][i - t];
    }
  }

  lemma FeedEmpty(core: Core, chunk: string)
    requires chunk != ""
    ensures var r := Parse(core, chunk); Feed(Msg(core, ""), chunk) == (Msg(r.core, r.carry), r.code)
    ensures Feed(Msg(core, ""), "") == (Msg(core, ""), NeedMore)
  {
    hide Parse;
    assert "" + chunk == chunk;
  }

  lemma StreamOnce(m: Msg, chunks: seq<string>)
    requires chunks != [] && m.core.state != Finish
    ensures var (next, code) := Feed(m, chunks[0]);
      Stream(m, chunks) == if code in {Success, NeedMore} then Stream(next, chunks[1..]) else (next, chunks[1..])
  {
    hide Feed;
  }

  lemma CloseTurn(core: Core, c: string)
    requires core.state == End && c != ""
    ensures var r := Parse(core, c);
      r.core.data == core.data && (r.core.state == Finish || r.code == FormatError)
  {
  }

  /** From the closing mark on, the body does not change. */
  lemma {:induction false} CloseStream(core: Core, chunks: seq<string>)
    requires core.state == End
    ensures var n := Stream(Msg(core, ""), chunks).0.core; n.state == Finish ==> n.data == core.data
    decreases |chunks|
  {
    if chunks != [] {
      hide Stream, Parse, Feed;
      var m, c := Msg(core, ""), chunks[0];
      StreamOnce(m, chunks);
      if c == "" {
        FeedEmpty(core, "x");
        CloseStream(core, chunks[1..]);
      } else {
        FeedEmpty(core, c);
        CloseTurn(core, c);
        StreamDone(Msg(Parse(core, c).core, Parse(core, c).carry), chunks[1..]);
      }
    }
  }

  lemma StreamDone(m: Msg, chunks: seq<string>)
    ensures chunks == [] || m.core.state == Finish ==> Stream(m, chunks) == (m, chunks)
  {
  }

  /** What a piece of the body leaves. */
  lemma PartTurn(core: Core, c: string)
    requires core.state == Data && 0 < ReadLength(core) < core.fields.length && c != ""
    ensures var r := Parse(core, c);
      var got, missing := BodySoFar(core), core.fields.length - ReadLength(core);
      if |c| < missing then
        r == Result(core.(data := Some(got + c)), "", NeedMore)
      else
        r == Parse(core.(data := Some(got + c[..missing]), state := End), c[missing..])
  {
    hide Step;
    BodyTurn(core, c);
    var got, missing := BodySoFar(core), core.fields.length - ReadLength(core);
    assert c[0..] == c;
    assert missing <= |c| ==> c[0..0 + missing] == c[..missing];
  }

  /** Once part of the body is there, the rest of it is what comes next. */
  lemma {:induction false} PartStream(core: Core, chunks: seq<string>)
    requires core.state == Data && 0 < ReadLength(core) < core.fields.length
    ensures var n := Stream(Msg(core, ""), chunks).0.core;
      var missing := core.fields.length - ReadLength(core);
      n.state == Finish ==>
        missing <= |Concat(chunks)| && n.data == Some(BodySoFar(core) + Concat(chunks)[..missing])
    decreases |chunks|
  {
    if chunks != [] {
      hide Stream, Parse, Feed;
      var m, c := Msg(core, ""), chunks[0];
      var got, missing := BodySoFar(core), core.fields.length - ReadLength(core);
      StreamOnce(m, chunks);
      if c == "" {
        FeedEmpty(core, "x");
        PartStream(core, chunks[1..]);
        assert Concat(chunks) == Concat(chunks[1..]);
      } else {
        FeedEmpty(core, c);
        PartTurn(core, c);
        if |c| < missing {
          PartStream(core.(data := Some(got + c)), chunks[1..]);
          if missing <= |c| + |Concat(chunks[1..])| {
            JoinedPart(got, c, Concat(chunks[1..]), missing);
          }
        } else {
          var end := core.(data := Some(got + c[..missing]), state := End);
          EndOfBody(end, c[missing..], chunks[1..]);
          StartOfPiece(c, Concat(chunks[1..]), missing);
        }
      }
    } else {
      StreamDone(Msg(core, ""), chunks);
    }
  }

  lemma JoinedPart(got: string, c: string, more: string, missing: nat)
    requires |c| <= missing <= |c| + |more|
    ensures got + c + more[..missing - |c|] == got + (c + more)[..missing]
  {
  }

  lemma StartOfPiece(c: string, more: string, missing: nat)
    requires missing <= |c|
    ensures (c + more)[..missing] == c[..missing]
  {
  }

  /** What follows the body in the same piece. */
  lemma EndOfBody(end: Core, rest: string, chunks: seq<string>)
    requires end.state == End
    ensures var r := Parse(end, rest);
      var n := (if r.code in {Success, NeedMore} then Stream(Msg(r.core, r.carry), chunks).0 else Msg(r.core, r.carry)).core;
      n.state == Finish ==> n.data == end.data
  {
    hide Stream;
    if rest == "" {
      CloseStream(end, chunks);
    } else {
      CloseTurn(end, rest);
      var r := Parse(end, rest);
      StreamDone(Msg(r.core, r.carry), chunks);
    }
  }

  /** What a piece leaves of a body that has not begun. */
  lemma FirstTurn(core: Core, c: string)
    requires core.state == Data && ReadLength(core) == 0 && core.fields.length > 0 && c != ""
    ensures var r := Parse(core, c); var n := core.fields.length;
      if !StartsWith(c, DATA) then r.code == FormatError && r.core.state == Data
      else if |c| - |DATA| < n then r == Result(core.(data := Some(c[|DATA|..])), "", NeedMore)
      else r == Parse(core.(data := Some(c[|DATA|..|DATA| + n]), state := End), c[|DATA| + n..])
  {
    if StartsWith(c, DATA) {
      hide Step;
      BodyTurn(core, c);
      var n := core.fields.length;
      assert BodySoFar(core) == "";
      assert "" + c[|DATA|..] == c[|DATA|..];
      assert |c| - |DATA| >= n ==> "" + c[|DATA|..|DATA| + n] == c[|DATA|..|DATA| + n];
    }
  }

  /** The body that is read, when one is, lies behind one mark or more. */
  ghost predicate BehindMarks(core: Core, b: string, t: nat, n: nat) {
    core.state == Finish ==> 0 < t && t + n <= |b| && Marks(b[..t]) && core.data == Some(b[t..t + n])
  }

  lemma {:induction false} MisreadStream(core: Core, chunks: seq<string>) returns (t: nat)
    requires core.state == Data && ReadLength(core) == 0 && core.fields.length > 0
    ensures BehindMarks(Stream(Msg(core, ""), chunks).0.core, Concat(chunks), t, core.fields.length)
    decreases |chunks|
  {
    t := |DATA|;
    if chunks == [] {
      StreamDone(Msg(core, ""), chunks);
    } else {
      hide Stream, Parse, Feed, Marks, StartsWith, BehindMarks;
      var c := chunks[0];
      StreamOnce(Msg(core, ""), chunks);
      if c == "" {
        FeedEmpty(core, "x");
        t := MisreadStream(core, chunks[1..]);
        assert Concat(chunks) == Concat(chunks[1..]);
      } else if !StartsWith(c, DATA) {
        FeedEmpty(core, c);
        FirstTurn(core, c);
        NotRead(Parse(core, c).core, Concat(chunks), t, core.fields.length);
      } else {
        MarkLengths(c);
        if |c| > |DATA| {
          MisreadHere(core, chunks);
        } else {
          FeedEmpty(core, c);
          FirstTurn(core, c);
          var u := MisreadStream(core.(data := Some(c[|DATA|..])), chunks[1..]);
          t := |DATA| + u;
          BehindPiece(c, Concat(chunks[1..]), core.fields.length, u,
                      Stream(Msg(core.(data := Some(c[|DATA|..])), ""), chunks[1..]).0.core);
        }
      }
    }
  }

  lemma MarkLengths(c: string)
    requires StartsWith(c, DATA)
    ensures |c| >= |DATA|
  {
  }

  lemma NotRead(core: Core, b: string, t: nat, n: nat)
    requires core.state != Finish
    ensures BehindMarks(core, b, t, n)
  {
  }

  /** A piece with a mark and part of the body. */
  lemma MisreadHere(core: Core, chunks: seq<string>)
    requires core.state == Data && ReadLength(core) == 0 && core.fields.length > 0
    requires chunks != [] && StartsWith(chunks[0], DATA) && |chunks[0]| > |DATA|
    ensures BehindMarks(Stream(Msg(core, ""), chunks).0.core, Concat(chunks), |DATA|, core.fields.length)
  {
    hide Stream, Parse, Feed, Marks;
    var c, n, more := chunks[0], core.fields.length, Concat(chunks[1..]);
    StreamOnce(Msg(core, ""), chunks);
    FeedEmpty(core, c);
    FirstTurn(core, c);
    if |c| - |DATA| >= n {
      EndOfBody(core.(data := Some(c[|DATA|..|DATA| + n]), state := End), c[|DATA| + n..], chunks[1..]);
      WithinPiece(c, more, n);
    } else {
      PartStream(core.(data := Some(c[|DATA|..])), chunks[1..]);
      AcrossPieces(c, more, n);
    }
  }

  lemma WithinPiece(c: string, more: string, n: nat)
    requires StartsWith(c, DATA) && |DATA| + n <= |c|
    ensures Marks((c + more)[..|DATA|]) && (c + more)[|DATA|..|DATA| + n] == c[|DATA|..|DATA| + n]
  {
    MarkIsMarks(c, more);
  }

  lemma AcrossPieces(c: string, more: string, n: nat)
    requires StartsWith(c, DATA) && |c| < |DATA| + n
    ensures Marks((c + more)[..|DATA|])
    ensures var missing := n - (|c| - |DATA|);
      missing <= |more| ==> (c + more)[|DATA|..|DATA| + n] == c[|DATA|..] + more[..missing]
  {
    MarkIsMarks(c, more);
  }

  lemma BehindPiece(c: string, more: string, n: nat, u: nat, core: Core)
    requires StartsWith(c, DATA) && |c| == |DATA| && BehindMarks(core, more, u, n)
    ensures BehindMarks(core, c + more, |DATA| + u, n)
  {
    if core.state == Finish {
      assert c[..|DATA|] == c;
      MarksOn(c, more, u);
      assert (c + more)[|DATA| + u..|DATA| + u + n] == more[u..u + n];
    }
  }

  lemma MarkIsMarks(c: string, more: string)
    requires StartsWith(c, DATA)
    ensures Marks((c + more)[..|DATA|])
  {
    assert (c + more)[..|DATA|] == DATA;
  }

  lemma MarksOn(c: string, more: string, u: nat)
    requires c == DATA && u <= |more| && Marks(more[..u])
    ensures Marks((c + more)[..|DATA| + u])
  {
    assert (c + more)[..|DATA| + u] == DATA + more[..u];
  }

  lemma MisreadBody(core: Core, chunks: seq<string>)
    requires core.state == Data && ReadLength(core) == 0
    requires var b, n := Concat(chunks), core.fields.length; 0 < n && n + |CLOSE| <= |b| && b[n..n + |CLOSE|] == CLOSE
    ensures var m := Stream(Msg(core, ""), chunks).0.core;
      m.state == Finish ==> m.data != Some(Concat(chunks)[..core.fields.length])
  {
    hide Stream;
    var t := MisreadStream(core, chunks);
    var m, b, n := Stream(Msg(core, ""), chunks).0.core, Concat(chunks), core.fields.length;
    assert b[n] == b[n..n + |CLOSE|][0];
    if m.state == Finish && b[..n] == b[t..t + n] {
      MarkRepeats(b, n, t, n);
    }
  }

  // ----- all cuts -----

  lemma GoodCutsSplit(l: Layout, p: nat, chunks: seq<string>)
    requires chunks != []
    ensures GoodCuts(l, p, chunks) <==> GoodCut(l, p) && GoodCuts(l, p + |chunks[0]|, chunks[1..])
  {
    forall k | 0 <= k < |chunks| - 1
      ensures Concat(chunks[..k + 1]) == chunks[0] + Concat(chunks[1..][..k])
    {
      assert chunks[..k + 1][0] == chunks[0] && chunks[..k + 1][1..] == chunks[1..][..k];
    }
    assert Concat(chunks[..0]) == "";
    if GoodCut(l, p) && GoodCuts(l, p + |chunks[0]|, chunks[1..]) {
      forall k | 0 <= k < |chunks|
        ensures GoodCut(l, p + |Concat(chunks[..k])|)
      {
        if k > 0 {
          assert GoodCut(l, p + |chunks[0]| + |Concat(chunks[1..][..k - 1])|);
        }
      }
    }
    if GoodCuts(l, p, chunks) {
      forall k | 0 <= k < |chunks| - 1
        ensures GoodCut(l, p + |chunks[0]| + |Concat(chunks[1..][..k])|)
      {
        assert GoodCut(l, p + |Concat(chunks[..k + 1])|);
      }
    }
  }

  /** Seen from further on, a bad cut is still bad, unless it is where we are. */
  lemma StillBad(l: Layout, d: nat, p: nat, q: nat, chunks: seq<string>)
    requires q + d == p && GoodCut(l, p) && GoodCuts(Later(l, d), q, chunks)
    ensures GoodCuts(l, p, chunks)
  {
    forall k | 0 <= k < |chunks|
      ensures GoodCut(l, p + |Concat(chunks[..k])|)
    {
      assert GoodCut(Later(l, d), q + |Concat(chunks[..k])|);
    }
  }

  lemma BehindTheEnd(l: Layout, p: nat, chunks: seq<string>)
    requires l.close + |CLOSE| <= p && l.body <= l.close
    ensures GoodCuts(l, p, chunks)
  {
  }

  /** The same message and the same bytes left over as one call on the whole. */
  ghost predicate SameAsWhole(m: Msg, chunks: seq<string>) {
    var w, (n, unread) := Parse(m.core, m.carry + Concat(chunks)), Stream(m, chunks);
    n.core == w.core && n.carry + Concat(unread) == w.carry
  }

  lemma BadCutShows(m: Msg, chunks: seq<string>)
    requires chunks != [] && Between(m.core) && m.carry + chunks[0] != ""
    requires Finishes(m.core, m.carry + chunks[0] + Concat(chunks[1..]))
    requires !GoodCut(LayoutOf(m.core, m.carry + chunks[0] + Concat(chunks[1..])), |m.carry + chunks[0]|)
    ensures !SameAsWhole(m, chunks)
  {
    hide Step, LayoutOf, Stream, Parse;
    var a, b := m.carry + chunks[0], Concat(chunks[1..]);
    assert m.carry + Concat(chunks) == a + b;
    Derail(m.core, a, b);
    StreamOnce(m, chunks);
    var r := Parse(m.core, a);
    if r.code != FormatError {
      assert r.carry == "";
      MisreadBody(r.core, chunks[1..]);
    }
  }

  lemma {:induction false} BadCutsShow(m: Msg, chunks: seq<string>)
    requires Between(m.core) && Waiting(m.core, m.carry) && Finishes(m.core, m.carry + Concat(chunks))
    requires GoodCut(LayoutOf(m.core, m.carry + Concat(chunks)), |m.carry|)
    requires !GoodCuts(LayoutOf(m.core, m.carry + Concat(chunks)), |m.carry|, chunks)
    ensures !SameAsWhole(m, chunks)
    decreases |chunks|
  {
    hide Step, LayoutOf, GoodCuts, GoodCut, Stream, Parse, Later;
    var l := LayoutOf(m.core, m.carry + Concat(chunks));
    if chunks == [] {
      NoCuts(l, |m.carry|);
    } else {
      var a, b := m.carry + chunks[0], Concat(chunks[1..]);
      assert m.carry + Concat(chunks) == a + b;
      GoodCutsSplit(l, |m.carry|, chunks);
      StreamOnce(m, chunks);
      if a == "" {
        assert a + b == m.carry + b && |a| == |m.carry|;
        BadCutsShow(m, chunks[1..]);
      } else if GoodCut(l, |a|) {
        LayoutAhead(m.core, a + b);
        CutOnce(m.core, a, b);
        var r := Parse(m.core, a);
        if l.close + |CLOSE| <= |a| {
          BehindTheEnd(l, |a|, chunks[1..]);
        } else {
          var n, d := Msg(r.core, r.carry), |a| - |r.carry|;
          Resumed(m.core, a, b);
          GoodFrom(l, d, |a|, |r.carry|);
          if GoodCuts(Later(l, d), |r.carry|, chunks[1..]) {
            StillBad(l, d, |a|, |r.carry|, chunks[1..]);
          }
          BadCutsShow(n, chunks[1..]);
        }
      } else {
        BadCutShows(m, chunks);
      }
    }
  }

  lemma NoCuts(l: Layout, p: nat)
    ensures GoodCuts(l, p, [])
  {
  }

  lemma GoodFrom(l: Layout, d: nat, p: nat, q: nat)
    requires q + d == p && GoodCut(l, p)
    ensures GoodCut(Later(l, d), q)
  {
  }

  lemma Resumed(core: Core, a: string, b: string)
    requires Resumes(core, a, b) && LayoutOf(core, a + b).close + |CLOSE| > |a| && Finishes(core, a + b)
    ensures var r := Parse(core, a);
      && Between(r.core) && r.code in {Success, NeedMore} && |r.carry| <= |a| && Waiting(r.core, r.carry)
      && Parse(r.core, r.carry + b) == Parse(core, a + b) && Finishes(r.core, r.carry + b)
      && LayoutOf(r.core, r.carry + b) == Later(LayoutOf(core, a + b), |a| - |r.carry|)
  {
    hide Parse, LayoutOf, Step;
  }

  /** However a stream is cut, the message read and the bytes left over are those of one call on the whole
      exactly when no piece ends right behind the mark of a non-empty body or strictly inside the closing
      mark. */
  lemma CutsMatter(core: Core, chunks: seq<string>)
    requires core.state == Wait && Finishes(core, Concat(chunks))
    ensures SameAsWhole(Msg(core, ""), chunks) <==> GoodCuts(LayoutOf(core, Concat(chunks)), 0, chunks)
  {
    hide Step, LayoutOf, Stream, Parse, GoodCuts;
    var m := Msg(core, "");
    assert "" + Concat(chunks) == Concat(chunks);
    LayoutAhead(core, Concat(chunks));
    if GoodCuts(LayoutOf(core, Concat(chunks)), 0, chunks) {
      ChunkingIndependence(m, chunks);
    } else {
      BadCutsShow(m, chunks);
    }
  }
}
