/** Printing a JCQ message and reading it back (parser/jcq.c:219-260). */
module JcqPrint {
  import opened Text
  import opened Numbers
  import opened NetMessages
  import opened Jcq
  import opened JcqChunks

  const SEND_BUF_SIZE := 512
  const EOL: string := "\r\n"

  /** What the sender sets. Absent strings are printed empty. */
  datatype Outgoing = Outgoing(
    cmd: Option<string>, user: Option<string>, password: Option<string>, key: Option<string>,
    errcode: int, time: int, extraParam: Option<string>, data: string)

  function Shown(s: Option<string>): string {
    if s.Some? then s.value else ""
  }

  function HeaderLine(name: string, value: string): string {
    name + ":" + value + EOL
  }

  /** The header lines in front of `tail`. */
  function Lines(o: Outgoing, tail: string): string {
    HeaderLine("cmd", Shown(o.cmd)) + (HeaderLine("user", Shown(o.user)) +
    (HeaderLine("password", Shown(o.password)) + (HeaderLine("key", Shown(o.key)) +
    (HeaderLine("errcode", Decimal(o.errcode)) + (HeaderLine("timestamp", Decimal(o.time)) +
    (HeaderLine("extraParam", Shown(o.extraParam)) + (HeaderLine("length", Decimal(|o.data|)) + tail)))))))
  }

  /** The header, up to and including the mark of the body. */
  function Header(o: Outgoing): string {
    FLAG + Lines(o, DATA)
  }

  /** The header as the sender's protocol and version have it. */
  function HeaderAs(protocolType: string, version: string, o: Outgoing): string {
    protocolType + " " + version + EOL + Lines(o, DATA)
  }

  function Printed(o: Outgoing): string {
    Header(o) + o.data + CLOSE
  }

  /** A text field that a header line can carry. */
  predicate Printable(s: string) {
    '\r' !in s && '\0' !in s
  }

  /** What the sender may set: printable text, a well-formed parameter string, numbers in range. */
  ghost predicate Sendable(o: Outgoing) {
    && Printable(Shown(o.cmd)) && Printable(Shown(o.user)) && Printable(Shown(o.password))
    && Printable(Shown(o.key)) && Printable(Shown(o.extraParam)) && FormatRight(Shown(o.extraParam))
    && IsInt(o.errcode) && IsInt64(o.time) && IsInt(|o.data|)
  }

  /** The fields the receiver ends up with. */
  function WithHeader(f: Fields, o: Outgoing): Fields {
    f.(cmd := Some(Shown(o.cmd)), user := Some(Shown(o.user)), password := Some(Shown(o.password)),
       key := Some(Shown(o.key)), errcode := o.errcode, timestamp := o.time,
       extraParam := Some(Shown(o.extraParam)), length := |o.data|)
  }

  /** The printed message, byte for byte. */
  lemma PrintedText(o: Outgoing)
    ensures Printed(o) == "jcq 1.0\r\n" +
      ("cmd:" + Shown(o.cmd) + "\r\n") + ("user:" + Shown(o.user) + "\r\n") +
      ("password:" + Shown(o.password) + "\r\n") + ("key:" + Shown(o.key) + "\r\n") +
      ("errcode:" + Decimal(o.errcode) + "\r\n") + ("timestamp:" + Decimal(o.time) + "\r\n") +
      ("extraParam:" + Shown(o.extraParam) + "\r\n") + ("length:" + Decimal(|o.data|) + "\r\n") +
      "data:" + o.data + "\r\n\r\n"
  {
    hide Decimal, Shown, HeaderLine;
    LineText("cmd", "cmd:", Shown(o.cmd));
    LineText("user", "user:", Shown(o.user));
    LineText("password", "password:", Shown(o.password));
    LineText("key", "key:", Shown(o.key));
    LineText("errcode", "errcode:", Decimal(o.errcode));
    LineText("timestamp", "timestamp:", Decimal(o.time));
    LineText("extraParam", "extraParam:", Shown(o.extraParam));
    LineText("length", "length:", Decimal(|o.data|));
    Flat(HeaderLine("cmd", Shown(o.cmd)), HeaderLine("user", Shown(o.user)), HeaderLine("password", Shown(o.password)),
         HeaderLine("key", Shown(o.key)), HeaderLine("errcode", Decimal(o.errcode)),
         HeaderLine("timestamp", Decimal(o.time)), HeaderLine("extraParam", Shown(o.extraParam)),
         HeaderLine("length", Decimal(|o.data|)), DATA);
  }

  lemma LineText(name: string, named: string, value: string)
    requires named == name + ":"
    ensures HeaderLine(name, value) == named + value + "\r\n"
  {
  }

  lemma Flat(a: string, b: string, c: string, d: string, e: string, f: string, g: string, h: string, tail: string)
    ensures FLAG + (a + (b + (c + (d + (e + (f + (g + (h + tail)))))))) == FLAG + a + b + c + d + e + f + g + h + tail
  {
  }

  // ----- one line -----

  lemma LineFound(name: string, value: string, tail: string)
    requires ':' !in name && '\r' !in value
    ensures Line(HeaderLine(name, value) + tail) == Some((|name|, |name| + 1 + |value|))
  {
    var s, i := HeaderLine(name, value) + tail, |name|;
    var j := i + 1 + |value|;
    assert forall k :: 0 <= k < i ==> s[k] == name[k];
    assert s[i] == ':' && s[j] == '\r' && s[j + 1] == '\n';
    assert IndexOf(s, ':') == i;
    var t := s[i..];
    assert t[0] == ':' && forall k :: 0 < k < 1 + |value| ==> t[k] == value[k - 1];
    assert IndexOf(t, '\r') == 1 + |value|;
  }

  /** Parsing goes from `core` at `s` to `next` at its suffix `t` without an incident. */
  ghost predicate Moves(core: Core, s: string, next: Core, t: string) {
    && Parse(core, s) == Parse(next, t) && |t| <= |s|
    && LayoutOf(core, s) == Layout(LayoutOf(next, t).body + |s| - |t|, LayoutOf(next, t).close + |s| - |t|)
  }

  lemma MovesOn(c1: Core, s1: string, c2: Core, s2: string, c3: Core, s3: string)
    requires Moves(c1, s1, c2, s2) && Moves(c2, s2, c3, s3)
    ensures Moves(c1, s1, c3, s3)
  {
  }

  /** A header line is one turn that sets its field. */
  lemma LineTurn(core: Core, name: string, value: string, tail: string)
    requires core.state == Param && ':' !in name && name != "data"
    requires '\0' !in name && Printable(value) && SetParam(core.fields, name, value).1 == SetOk
    ensures Step(core, HeaderLine(name, value) + tail)
      == Go(core.(fields := SetParam(core.fields, name, value).0), |HeaderLine(name, value)|)
    ensures (HeaderLine(name, value) + tail)[|HeaderLine(name, value)|..] == tail
  {
    hide SetParam, IndexOf;
    var s, i := HeaderLine(name, value) + tail, |name|;
    LineFound(name, value, tail);
    assert s[..i] == name && s[i + 1..i + 1 + |value|] == value;
    CStringWhole(name);
    CStringWhole(value);
    if StartsWith(s, DATA) {
      MarkColon(s);
    }
  }

  lemma MarkColon(s: string)
    requires StartsWith(s, DATA)
    ensures IndexOf(s, ':') == 4 && s[..4] == "data"
  {
    assert s[..|DATA|][0] == 'd' && s[..|DATA|][1] == 'a' && s[..|DATA|][2] == 't' && s[..|DATA|][3] == 'a';
    assert s[..|DATA|][4] == ':';
    assert s[0] == 'd' && s[1] == 'a' && s[2] == 't' && s[3] == 'a' && s[4] == ':';
  }

  lemma LineStep(core: Core, name: string, value: string, tail: string)
    requires core.state == Param && ':' !in name && name != "data"
    requires '\0' !in name && Printable(value) && SetParam(core.fields, name, value).1 == SetOk
    ensures var s, next := HeaderLine(name, value) + tail, core.(fields := SetParam(core.fields, name, value).0);
      Moves(core, s, next, tail)
  {
    hide SetParam, Step;
    LineTurn(core, name, value, tail);
  }

  lemma DecimalPrintable(n: int)
    ensures Printable(Decimal(n))
  {
    DecimalIsPlain(n);
  }

  /** What the printed lines set. */
  lemma SetsFields(f: Fields, v: string)
    ensures SetParam(f, "cmd", v) == (f.(cmd := Some(v)), SetOk)
    ensures SetParam(f, "user", v) == (f.(user := Some(v)), SetOk)
    ensures SetParam(f, "password", v) == (f.(password := Some(v)), SetOk)
    ensures SetParam(f, "key", v) == (f.(key := Some(v)), SetOk)
    ensures SetParam(f, "errcode", v) == (f.(errcode := Atoi(v)), SetOk)
    ensures SetParam(f, "timestamp", v) == (f.(timestamp := Atoll(v)), SetOk)
    ensures SetParam(f, "length", v) == (f.(length := Atoi(v)), SetOk)
    ensures FormatRight(v) ==> SetParam(f, "extraParam", v) == (f.(extraParam := Some(v)), SetOk)
  {
  }

  predicate LineName(name: string) {
    ':' !in name && name != "data" && '\0' !in name
  }

  lemma LineNames()
    ensures LineName("cmd") && LineName("user") && LineName("password") && LineName("key")
    ensures LineName("errcode") && LineName("timestamp") && LineName("extraParam") && LineName("length")
  {
  }

  lemma TwoLines(core: Core, n1: string, v1: string, f1: Fields, n2: string, v2: string, f2: Fields, tail: string)
    requires core.state == Param && LineName(n1) && LineName(n2) && Printable(v1) && Printable(v2)
    requires SetParam(core.fields, n1, v1) == (f1, SetOk) && SetParam(f1, n2, v2) == (f2, SetOk)
    ensures Moves(core, HeaderLine(n1, v1) + (HeaderLine(n2, v2) + tail), core.(fields := f2), tail)
  {
    hide Moves, SetParam, HeaderLine;
    var c1, t1 := core.(fields := f1), HeaderLine(n2, v2) + tail;
    LineStep(core, n1, v1, t1);
    LineStep(c1, n2, v2, tail);
    MovesOn(core, HeaderLine(n1, v1) + t1, c1, t1, core.(fields := f2), tail);
  }

  lemma TextLines(core: Core, o: Outgoing, tail: string)
    requires core.state == Param && Sendable(o)
    ensures Moves(core, HeaderLine("cmd", Shown(o.cmd)) + (HeaderLine("user", Shown(o.user)) +
        (HeaderLine("password", Shown(o.password)) + (HeaderLine("key", Shown(o.key)) + tail))),
      core.(fields := core.fields.(cmd := Some(Shown(o.cmd)), user := Some(Shown(o.user)),
           password := Some(Shown(o.password)), key := Some(Shown(o.key)))), tail)
  {
    hide Moves, Parse, Step, LayoutOf, FormatRight, SetParam, Shown, HeaderLine, Decimal, Atoi, Atoll, LineName;
    LineNames();
    var t2 := HeaderLine("password", Shown(o.password)) + (HeaderLine("key", Shown(o.key)) + tail);
    var f1 := core.fields.(cmd := Some(Shown(o.cmd)));
    var f2 := f1.(user := Some(Shown(o.user)));
    var f3 := f2.(password := Some(Shown(o.password)));
    var f4 := f3.(key := Some(Shown(o.key)));
    SetsFields(core.fields, Shown(o.cmd));
    SetsFields(f1, Shown(o.user));
    SetsFields(f2, Shown(o.password));
    SetsFields(f3, Shown(o.key));
    TwoLines(core, "cmd", Shown(o.cmd), f1, "user", Shown(o.user), f2, t2);
    TwoLines(core.(fields := f2), "password", Shown(o.password), f3, "key", Shown(o.key), f4, tail);
    MovesOn(core, HeaderLine("cmd", Shown(o.cmd)) + (HeaderLine("user", Shown(o.user)) + t2),
      core.(fields := f2), t2, core.(fields := f4), tail);
  }

  lemma NumberLines(core: Core, o: Outgoing, tail: string)
    requires core.state == Param && Sendable(o)
    ensures Moves(core, HeaderLine("errcode", Decimal(o.errcode)) + (HeaderLine("timestamp", Decimal(o.time)) +
        (HeaderLine("extraParam", Shown(o.extraParam)) + (HeaderLine("length", Decimal(|o.data|)) + tail))),
      core.(fields := core.fields.(errcode := o.errcode, timestamp := o.time,
           extraParam := Some(Shown(o.extraParam)), length := |o.data|)), tail)
  {
    hide Moves, Parse, Step, LayoutOf, FormatRight, SetParam, Shown, HeaderLine, Decimal, Atoi, Atoll, LineName;
    LineNames();
    var e, t, x, n := Decimal(o.errcode), Decimal(o.time), Shown(o.extraParam), Decimal(|o.data|);
    NumberReadsBack(o.errcode);
    NumberReadsBack(o.time);
    NumberReadsBack(|o.data|);
    var t2 := HeaderLine("extraParam", x) + (HeaderLine("length", n) + tail);
    var f1 := core.fields.(errcode := o.errcode);
    var f2 := f1.(timestamp := o.time);
    var f3 := f2.(extraParam := Some(x));
    var f4 := f3.(length := |o.data|);
    SetsFields(core.fields, e);
    SetsFields(f1, t);
    SetsFields(f2, x);
    SetsFields(f3, n);
    TwoLines(core, "errcode", e, f1, "timestamp", t, f2, t2);
    TwoLines(core.(fields := f2), "extraParam", x, f3, "length", n, f4, tail);
    MovesOn(core, HeaderLine("errcode", e) + (HeaderLine("timestamp", t) + t2),
      core.(fields := f2), t2, core.(fields := f4), tail);
  }

  lemma NumberReadsBack(n: int)
    requires IsInt64(n)
    ensures Printable(Decimal(n)) && Atoll(Decimal(n)) == n && (IsInt(n) ==> Atoi(Decimal(n)) == n)
  {
    DecimalPrintable(n);
    AtollReadsDecimal(n);
  }

  lemma HeaderParse(core: Core, o: Outgoing, tail: string)
    requires core.state == Param && Sendable(o)
    ensures Moves(core, Lines(o, tail), core.(fields := WithHeader(core.fields, o)), tail)
  {
    hide Moves, Parse, FormatRight, Decimal, Shown, HeaderLine;
    var rest := HeaderLine("errcode", Decimal(o.errcode)) + (HeaderLine("timestamp", Decimal(o.time)) +
      (HeaderLine("extraParam", Shown(o.extraParam)) + (HeaderLine("length", Decimal(|o.data|)) + tail)));
    TextLines(core, o, rest);
    var middle := core.(fields := core.fields.(cmd := Some(Shown(o.cmd)), user := Some(Shown(o.user)),
      password := Some(Shown(o.password)), key := Some(Shown(o.key))));
    NumberLines(middle, o, tail);
    MovesOn(core, Lines(o, tail), middle, rest, core.(fields := WithHeader(core.fields, o)), tail);
  }

  // ----- a whole message -----

  lemma LinesTail(o: Outgoing, x: string, y: string)
    ensures Lines(o, x) + y == Lines(o, x + y)
  {
    hide Decimal, HeaderLine;
  }

  lemma FlagTurn(core: Core, tail: string)
    requires core.state == Wait
    ensures Moves(core, FLAG + tail, core.(state := Param), tail)
  {
    hide Find;
    var s := FLAG + tail;
    assert s[0..|FLAG|] == FLAG;
    FindIs(s, FLAG, 0);
    assert s[|FLAG|..] == tail;
  }

  lemma CloseParse(core: Core, extra: string)
    requires core.state == End
    ensures Parse(core, CLOSE + extra) == Result(core.(state := Finish), extra, Success)
  {
    var s := CLOSE + extra;
    assert s[..|CLOSE|] == CLOSE && s[|CLOSE|..] == extra;
  }

  /** The mark of the body changes the state and is read again. */
  lemma MarkParse(core: Core, s: string)
    requires core.state == Param && StartsWith(s, DATA) && core.fields.length >= 0
    ensures Parse(core, s) == Parse(core.(state := Data, data := None), s)
    ensures LayoutOf(core, s) == Layout(|DATA|, |DATA| + core.fields.length)
  {
    assert s[0..] == s;
  }

  lemma DataParse(core: Core, data: string, rest: string)
    requires core.state == Data && core.data == None && core.fields.length == |data|
    ensures Parse(core, DATA + data + rest) ==
      Parse(core.(state := End, data := if data == "" then None else Some(data)), rest)
  {
    var s := DATA + data + rest;
    var n := |DATA| + |data|;
    assert s[..|DATA|] == DATA && s[n..] == rest;
    if data != "" {
      BodyTurn(core, s);
      assert s[|DATA|..n] == data && "" + data == data;
    }
  }

  lemma BodyParse(core: Core, data: string, extra: string)
    requires core.state == Param && core.fields.length == |data|
    ensures Parse(core, DATA + data + CLOSE + extra)
      == Result(core.(state := Finish, data := if data == "" then None else Some(data)), extra, Success)
    ensures LayoutOf(core, DATA + data + CLOSE + extra) == Layout(|DATA|, |DATA| + |data|)
  {
    hide Parse, Step, LayoutOf;
    var s := DATA + data + CLOSE + extra;
    assert s[..|DATA|] == DATA && s == DATA + data + (CLOSE + extra);
    MarkParse(core, s);
    DataParse(core.(state := Data, data := None), data, CLOSE + extra);
    CloseParse(core.(state := End, data := if data == "" then None else Some(data)), extra);
  }

  lemma PrintedParse(core: Core, o: Outgoing, extra: string)
    requires core.state == Wait && Sendable(o)
    ensures Moves(core, Printed(o) + extra,
      core.(state := Param, fields := WithHeader(core.fields, o)), DATA + o.data + CLOSE + extra)
  {
    hide Moves, Parse, Step, FormatRight, Lines;
    var tail := DATA + o.data + CLOSE + extra;
    LinesTail(o, DATA, o.data + CLOSE + extra);
    assert DATA + (o.data + CLOSE + extra) == tail;
    assert Printed(o) + extra == FLAG + Lines(o, tail);
    var c1 := core.(state := Param);
    FlagTurn(core, Lines(o, tail));
    HeaderParse(c1, o, tail);
    MovesOn(core, Printed(o) + extra, c1, Lines(o, tail), c1.(fields := WithHeader(core.fields, o)), tail);
  }

  /** Reading what was printed gives every field and every byte of the body back, and leaves
      over exactly the bytes that follow it; the body may hold the closing mark. */
  lemma RoundTrip(core: Core, o: Outgoing, extra: string)
    requires core.state == Wait && Sendable(o)
    ensures Parse(core, Printed(o) + extra) ==
      Result(Core(WithHeader(core.fields, o), Finish, if o.data == "" then None else Some(o.data)), extra, Success)
    ensures LayoutOf(core, Printed(o) + extra) == Layout(|Header(o)|, |Header(o)| + |o.data|)
  {
    hide Parse, Step, LayoutOf, FormatRight, Header;
    PrintedParse(core, o, extra);
    BodyParse(core.(state := Param, fields := WithHeader(core.fields, o)), o.data, extra);
  }

  /** Where a printed message may be cut: not behind the header of a non-empty body, and not strictly inside
      the closing mark. */
  predicate CutsWell(o: Outgoing, p: nat) {
    (p == |Header(o)| ==> o.data == "") && !(|Printed(o)| - |CLOSE| < p < |Printed(o)|)
  }

  /** A printed message that arrives in pieces is read back, with nothing left over, exactly when every cut is
      at such a place. */
  lemma PiecewiseRoundTrip(core: Core, o: Outgoing, pieces: seq<string>)
    requires core.state == Wait && Sendable(o) && Concat(pieces) == Printed(o)
    ensures var (m, unread) := Stream(Msg(core, ""), pieces);
      (&& m.core == Core(WithHeader(core.fields, o), Finish, if o.data == "" then None else Some(o.data))
       && m.carry + Concat(unread) == "") <==>
      forall k :: 0 <= k < |pieces| ==> CutsWell(o, |Concat(pieces[..k])|)
  {
    hide Parse, Step, LayoutOf, FormatRight, Header, Stream;
    RoundTrip(core, o, "");
    assert Printed(o) + "" == Printed(o) && "" + Concat(pieces) == Printed(o);
    assert |Printed(o)| == |Header(o)| + |o.data| + |CLOSE|;
    HeaderIsLong(o);
    var l := LayoutOf(core, Printed(o));
    assert forall p: nat :: GoodCut(l, p) <==> CutsWell(o, p);
    CutsMatter(core, pieces);
    assert GoodCuts(l, 0, pieces) <==> forall k :: 0 <= k < |pieces| ==> CutsWell(o, |Concat(pieces[..k])|) by {
      assert forall k :: 0 <= k < |pieces| ==> 0 + |Concat(pieces[..k])| == |Concat(pieces[..k])|;
    }
  }

  lemma HeaderIsLong(o: Outgoing)
    ensures |Header(o)| > 0
  {
    hide Lines;
  }
}
