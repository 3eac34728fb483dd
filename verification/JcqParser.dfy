/** The network message object and the parser and printer that work on it (parser/jcq.c). */
module JcqParser {
  import opened Text
  import opened Numbers
  import ExtraParams
  import opened NetMessages
  import opened Jcq
  import JcqPrint

  class NetMessage {
    /** What header lines set. */
    var fields: Fields
    var data: Option<string>
    var readState: ReadState
    var readLength: nat
    /** Bytes carried over to the next call. */
    var lastParserBuf: string
    /** The send buffer, once there is one, and how much of it is used. */
    var sendBuf: array?<char>
    var sendBufLength: nat

    ghost function State(): Core
      reads this
    {
      Core(fields, readState, data)
    }

    ghost predicate Valid()
      reads this
    {
      readState == Data ==> readLength == ReadLength(State())
    }

    constructor ()
      ensures Valid() && readState == Wait && lastParserBuf == ""
    {
      fields := Fields(None, None, None, None, None, 0, 0, 0, None, None, None, None, None, None, None, None, None, 0, 0, 0, 0);
      data, readState, readLength, lastParserBuf := None, Wait, 0, "";
      sendBuf, sendBufLength := null, 0;
    }

    /** Sets the field with this name. */
    method SetNetMessageParam(name: string, value: string) returns (result: SetResult)
      modifies this`fields
      ensures (fields, result) == SetParam(old(fields), name, value)
    {
      hide ExtraParams.WellFormed;
      result := SetOk;
      if name == "cmd" {
        fields := fields.(cmd := Some(value));
      } else if name == "user" {
        fields := fields.(user := Some(value));
      } else if name == "password" {
        fields := fields.(password := Some(value));
      } else if name == "key" {
        fields := fields.(key := Some(value));
      } else if name == "extraParam" {
        fields := fields.(extraParam := None);
        var right := ExtraParams.IsExtraParamFormatRight(value);
        if right {
          fields := fields.(extraParam := Some(value));
        } else {
          result := ValueFormatError;
        }
      } else if name == "length" {
        fields := fields.(length := Atoi(value));
      } else if name == "version" {
        fields := fields.(version := Some(value));
      } else if name == "protocolType" {
        fields := fields.(protocolType := Some(value));
      } else if name == "timestamp" {
        fields := fields.(timestamp := Atoll(value));
      } else if name == "errcode" {
        fields := fields.(errcode := Atoi(value));
      } else if name == "host" {
        fields := fields.(host := Some(value));
      } else if name == "port" {
        fields := fields.(port := Some(value));
      } else {
        result := SetOutgoing(name, value);
      }
    }

    method SetOutgoing(name: string, value: string) returns (result: SetResult)
      modifies this`fields
      ensures (fields, result) == SetSendParam(old(fields), name, value)
    {
      hide ExtraParams.WellFormed;
      result := SetOk;
      if name == "sendCmd" {
        fields := fields.(sendCmd := Some(value));
      } else if name == "currentUserKey" {
        fields := fields.(currentUserKey := Some(value));
      } else if name == "currentUser" {
        fields := fields.(currentUser := Some(value));
      } else if name == "currentPassword" {
        fields := fields.(currentPassword := Some(value));
      } else if name == "sendExtraParam" {
        fields := fields.(sendExtraParam := None);
        var right := ExtraParams.IsExtraParamFormatRight(value);
        if right {
          fields := fields.(sendExtraParam := Some(value));
        } else {
          result := ValueFormatError;
        }
      } else if name == "sendLength" {
        fields := fields.(sendLength := Atoi(value));
      } else if name == "sendTime" {
        fields := fields.(sendTime := Atoll(value));
      } else if name == "sendState" {
        fields := fields.(sendState := Atoi(value));
      } else if name == "writedLength" {
        fields := fields.(writedLength := Atoi(value));
      } else {
        result := UnknownParam;
      }
    }

    /** Splits off a header line: its name, its value and how many bytes it takes. */
    method GetParamNameAndData(p: string) returns (r: Option<(string, string, nat)>)
      ensures r == match Line(p) case None => None
        case Some((i, j)) => Some((CString(p[..i]), CString(p[i + 1..j]), j + 2))
    {
      hide CString, Line;
      var i := 0;
      while i < |p| && p[i] != ':'
        invariant 0 <= i <= |p|
        invariant forall k :: 0 <= k < i ==> p[k] != ':'
      {
        i := i + 1;
      }
      if i == |p| {
        NoLine(p);
        return None;
      }
      var split := i;
      while i + 1 < |p| && p[i] != '\r'
        invariant split <= i < |p|
        invariant forall k :: split <= k < i ==> p[k] != '\r'
      {
        i := i + 1;
      }
      LineAt(p, split, i);
      if p[i] == '\r' && i + 1 < |p| && p[i + 1] == '\n' {
        r := Some((CString(p[..split]), CString(p[split + 1..i]), i + 2));
      } else {
        r := None;
      }
    }

    method IsMessageData(buf: string) returns (r: bool)
      ensures r == StartsWith(buf, DATA)
    {
      if |buf| < 5 {
        return false;
      }
      r := buf[..5] == "data:";
    }

    method IsMessageEnd(buf: string) returns (r: bool)
      ensures r == StartsWith(buf, CLOSE)
    {
      if |buf| < 4 {
        return false;
      }
      r := buf[..4] == "\r\n\r\n";
    }

    // One turn of the parsing loop, by read state. Each answers how many bytes it took and a
    // code; bytes it could not use go to the carry-over buffer.

    ghost predicate Turned(core: Core, carry: string, rest: string, n: nat, code: Code)
      requires rest != ""
      reads this
    {
      match Step(core, rest)
      case Go(next, k) => State() == next && n == k && code == Success && lastParserBuf == carry
      case Halt(next, k, c) => State() == next && lastParserBuf == k && code == c && n == |rest|
    }

    method WaitTurn(rest: string) returns (n: nat, code: Code)
      requires rest != "" && readState == Wait && Valid()
      modifies this
      ensures Valid() && Turned(old(State()), old(lastParserBuf), rest, n, code)
    {
      hide Find;
      var flag: Option<nat> := None;
      if |rest| >= |FLAG| {
        flag := Strnstr(rest, FLAG, |rest|);
        assert rest[..|rest|] == rest;
      }
      if flag.Some? {
        readState := Param;
        return flag.value + |FLAG|, Success;
      }
      lastParserBuf := rest;
      return |rest|, NeedMore;
    }

    method ParamTurn(rest: string) returns (n: nat, code: Code)
      requires rest != "" && readState == Param && Valid()
      modifies this
      ensures Valid() && Turned(old(State()), old(lastParserBuf), rest, n, code)
    {
      hide Line, SetParam, CString;
      var isData := IsMessageData(rest);
      if isData {
        readState, readLength, data := Data, 0, None;
        return 0, Success;
      }
      var param := GetParamNameAndData(rest);
      if param.None? {
        lastParserBuf := rest;
        return |rest|, NeedMore;
      }
      var (name, value, k) := param.value;
      var result := SetNetMessageParam(name, value);
      if result == SetOk {
        return k, Success;
      }
      lastParserBuf := rest[k..];
      return |rest|, FormatError;
    }

    method DataTurn(rest: string) returns (n: nat, code: Code)
      requires rest != "" && readState == Data && Valid()
      modifies this
      ensures Valid() && Turned(old(State()), old(lastParserBuf), rest, n, code)
    {
      var isData := IsMessageData(rest);
      if fields.length == 0 {
        if isData {
          readState := End;
          return 5, Success;
        }
        lastParserBuf := rest;
        return |rest|, FormatError;
      }
      if fields.length < 0 || (readLength == 0 && !isData) {
        lastParserBuf := rest;
        return |rest|, FormatError;
      }
      var start := 0;
      if readLength == 0 {
        data := Some("");
        start := 5;
      }
      var copyLength := 0;
      if readLength < fields.length {
        copyLength := if readLength + (|rest| - start) <= fields.length then |rest| - start else fields.length - readLength;
      }
      var got := if data.Some? then data.value else "";
      data := Some(got + rest[start..start + copyLength]);
      readLength := readLength + copyLength;
      if readLength < fields.length {
        lastParserBuf := "";
        return |rest|, NeedMore;
      } else if readLength == fields.length {
        readState := End;
        return start + copyLength, Success;
      } else {
        lastParserBuf := rest[start + copyLength..];
        return |rest|, OutOfLine;
      }
    }

    method EndTurn(rest: string) returns (n: nat, code: Code)
      requires rest != "" && readState == End && Valid()
      modifies this
      ensures Valid() && Turned(old(State()), old(lastParserBuf), rest, n, code)
    {
      var isEnd := IsMessageEnd(rest);
      if isEnd {
        lastParserBuf := rest[4..];
        readState := Finish;
        return |rest|, Success;
      }
      lastParserBuf := rest;
      return |rest|, FormatError;
    }

    method Turn(rest: string) returns (n: nat, code: Code)
      requires rest != "" && readState != Finish && Valid()
      modifies this
      ensures Valid() && Turned(old(State()), old(lastParserBuf), rest, n, code)
    {
      hide Step, Turned;
      match readState
      case Wait => n, code := WaitTurn(rest);
      case Param => n, code := ParamTurn(rest);
      case Data => n, code := DataTurn(rest);
      case End => n, code := EndTurn(rest);
    }

    /** The loop over the turns of one call. */
    method ParseLoop(temp: string) returns (code: Code)
      requires Valid() && lastParserBuf == ""
      modifies this
      ensures Valid() && Parse(old(State()), temp) == Result(State(), lastParserBuf, code)
    {
      hide Step;
      var pos := 0;
      code := Success;
      while pos < |temp| && code == Success && readState != Finish
        invariant 0 <= pos <= |temp| && Valid()
        invariant if code == Success && readState != Finish
          then lastParserBuf == "" && Parse(old(State()), temp) == Parse(State(), temp[pos..])
          else Parse(old(State()), temp) == Result(State(), lastParserBuf, code)
        decreases |temp| - pos, Rank(readState)
      {
        var rest := temp[pos..];
        ghost var core := State();
        var n;
        n, code := Turn(rest);
        TurnShrinks(core, rest);
        assert temp[pos + n..] == rest[n..];
        pos := pos + n;
      }
    }

    /** One call of the parser on `length` bytes of `buf`. */
    method ParserJCQMessage(buf: Option<string>, length: int) returns (code: Code)
      requires buf.Some? ==> length <= |buf.value|
      requires Valid()
      modifies this
      ensures Valid()
      ensures length < 0 || (buf.None? && length > 0) ==>
        code == ParamError && State() == old(State()) && lastParserBuf == old(lastParserBuf)
      ensures 0 <= length && (buf.None? ==> length == 0) ==>
        (Msg(State(), lastParserBuf), code) ==
          Feed(Msg(old(State()), old(lastParserBuf)), if buf.Some? then buf.value[..length] else "")
    {
      hide Parse;
      if length < 0 || (buf.None? && length > 0) {
        return ParamError;
      }
      var chunk := if buf.Some? then buf.value[..length] else "";
      var temp := lastParserBuf + chunk;
      if lastParserBuf != "" {
        lastParserBuf := "";
      } else if length == 0 {
        return NeedMore;
      }
      code := ParseLoop(temp);
    }

    /** A message whose header fits the send buffer is printed into it; when the body does not fit behind
        the header the buffer is replaced by a longer one, which later calls keep. Reading what was printed
        gives the fields and the body back. */
    method ReparserJCQMessage(o: JcqPrint.Outgoing, protocolType: string, version: string)
      requires |JcqPrint.HeaderAs(protocolType, version, o)| < JcqPrint.SEND_BUF_SIZE
      requires sendBuf != null ==> sendBuf.Length >= JcqPrint.SEND_BUF_SIZE
      modifies `sendBuf, `sendBufLength, if sendBuf != null then {sendBuf} else {}
      ensures sendBuf != null && sendBuf.Length >= JcqPrint.SEND_BUF_SIZE && sendBufLength <= sendBuf.Length
      ensures sendBuf == old(sendBuf) || fresh(sendBuf)
      ensures sendBuf[..sendBufLength] == JcqPrint.HeaderAs(protocolType, version, o) + o.data + CLOSE
      ensures protocolType == "jcq" && version == "1.0" && JcqPrint.Sendable(o) ==>
        forall core: Core, extra: string :: core.state == Wait ==>
          Parse(core, sendBuf[..sendBufLength] + extra) ==
            Result(Core(JcqPrint.WithHeader(core.fields, o), Finish, if o.data == "" then None else Some(o.data)), extra,
                   Success)
    {
      hide Parse, JcqPrint.HeaderAs, JcqPrint.Sendable;
      var header := PrintHeader(o, protocolType, version);
      FillSendBuf(header, o.data);
      ReadBack(o, protocolType, version, sendBuf[..sendBufLength]);
    }

    /** snprintf with the header's format. */
    static method PrintHeader(o: JcqPrint.Outgoing, protocolType: string, version: string) returns (header: string)
      ensures header == JcqPrint.HeaderAs(protocolType, version, o)
    {
      hide JcqPrint.HeaderLine, Decimal, JcqPrint.HeaderAs;
      header := protocolType + " " + version + JcqPrint.EOL;
      header := header + JcqPrint.HeaderLine("cmd", if o.cmd.Some? then o.cmd.value else "");
      header := header + JcqPrint.HeaderLine("user", if o.user.Some? then o.user.value else "");
      header := header + JcqPrint.HeaderLine("password", if o.password.Some? then o.password.value else "");
      header := header + JcqPrint.HeaderLine("key", if o.key.Some? then o.key.value else "");
      header := header + JcqPrint.HeaderLine("errcode", Decimal(o.errcode));
      header := header + JcqPrint.HeaderLine("timestamp", Decimal(o.time));
      header := header + JcqPrint.HeaderLine("extraParam", if o.extraParam.Some? then o.extraParam.value else "");
      header := header + JcqPrint.HeaderLine("length", Decimal(|o.data|));
      header := header + "data:";
      LinesInOrder(o, protocolType, version);
    }

    /** The header, the body and the closing mark, in the buffer there is or in a longer one. */
    method FillSendBuf(header: string, data: string)
      requires |header| < JcqPrint.SEND_BUF_SIZE
      requires sendBuf != null ==> sendBuf.Length >= JcqPrint.SEND_BUF_SIZE
      modifies `sendBuf, `sendBufLength, if sendBuf != null then {sendBuf} else {}
      ensures sendBuf != null && sendBuf.Length >= JcqPrint.SEND_BUF_SIZE && sendBufLength <= sendBuf.Length
      ensures sendBuf == old(sendBuf) || fresh(sendBuf)
      ensures sendBuf[..sendBufLength] == header + data + CLOSE
    {
      var buf: array<char>;
      if sendBuf == null {
        buf := new char[JcqPrint.SEND_BUF_SIZE];
      } else {
        buf := sendBuf;
      }
      CopyInto(buf, 0, header);
      var left := JcqPrint.SEND_BUF_SIZE - |header|;
      if left < |data| + |CLOSE| {
        var temp := new char[|header| + |data| + |CLOSE|];
        CopyInto(temp, 0, buf[..|header|]);
        buf := temp;
      }
      assert buf[0..|header|] == header;
      CopyInto(buf, |header|, data);
      CopyInto(buf, |header| + |data|, CLOSE);
      sendBuf, sendBufLength := buf, |header| + |data| + |CLOSE|;
      InParts(buf[..], header, data, CLOSE);
      assert buf[..][..sendBufLength] == buf[..sendBufLength];
    }

    static lemma InParts(buf: string, a: string, b: string, c: string)
      requires |a| + |b| + |c| <= |buf|
      requires buf[..|a| + |b|][..|a|] == a && buf[..|a| + |b|][|a|..] == b
      requires buf[|a| + |b|..|a| + |b| + |c|] == c
      ensures buf[..|a| + |b| + |c|] == a + b + c
    {
      assert buf[..|a| + |b| + |c|] == buf[..|a| + |b|] + c;
      assert buf[..|a| + |b|] == a + b;
    }

    static method CopyInto(buf: array<char>, at: nat, s: string)
      requires at + |s| <= buf.Length
      modifies buf
      ensures buf[at..at + |s|] == s && buf[..at] == old(buf[..at])
    {
      forall i | 0 <= i < |s| {
        buf[at + i] := s[i];
      }
    }
  }

  lemma LinesInOrder(o: JcqPrint.Outgoing, protocolType: string, version: string)
    ensures protocolType + " " + version + JcqPrint.EOL +
      JcqPrint.HeaderLine("cmd", JcqPrint.Shown(o.cmd)) + JcqPrint.HeaderLine("user", JcqPrint.Shown(o.user)) +
      JcqPrint.HeaderLine("password", JcqPrint.Shown(o.password)) + JcqPrint.HeaderLine("key", JcqPrint.Shown(o.key)) +
      JcqPrint.HeaderLine("errcode", Decimal(o.errcode)) + JcqPrint.HeaderLine("timestamp", Decimal(o.time)) +
      JcqPrint.HeaderLine("extraParam", JcqPrint.Shown(o.extraParam)) +
      JcqPrint.HeaderLine("length", Decimal(|o.data|)) + DATA == JcqPrint.HeaderAs(protocolType, version, o)
  {
    hide JcqPrint.HeaderLine, Decimal, JcqPrint.Shown;
  }

  lemma ReadBack(o: JcqPrint.Outgoing, protocolType: string, version: string, printed: string)
    requires printed == JcqPrint.HeaderAs(protocolType, version, o) + o.data + CLOSE
    ensures protocolType == "jcq" && version == "1.0" && JcqPrint.Sendable(o) ==>
      forall core: Core, extra: string :: core.state == Wait ==>
        Parse(core, printed + extra) ==
          Result(Core(JcqPrint.WithHeader(core.fields, o), Finish, if o.data == "" then None else Some(o.data)), extra,
                 Success)
  {
    hide Parse, JcqPrint.Lines, JcqPrint.Sendable;
    if protocolType == "jcq" && version == "1.0" && JcqPrint.Sendable(o) {
      assert "jcq" + " " + "1.0" + JcqPrint.EOL == FLAG;
      forall core: Core, extra: string | core.state == Wait
        ensures Parse(core, printed + extra) ==
          Result(Core(JcqPrint.WithHeader(core.fields, o), Finish, if o.data == "" then None else Some(o.data)), extra,
                 Success)
      {
        JcqPrint.RoundTrip(core, o, extra);
      }
    }
  }

  lemma TurnShrinks(core: Core, rest: string)
    requires rest != "" && core.state != Finish
    ensures Step(core, rest).Go? ==> Step(core, rest).n <= |rest| && Step(core, rest).core.state != Finish
    ensures Step(core, rest).Halt? && Step(core, rest).code == Success ==> Step(core, rest).core.state == Finish
    ensures Step(core, rest).Go? && Step(core, rest).n == 0 ==> Rank(Step(core, rest).core.state) < Rank(core.state)
  {
  }

  lemma NoLine(p: string)
    requires forall k :: 0 <= k < |p| ==> p[k] != ':'
    ensures Line(p).None?
  {
  }

  lemma LineAt(p: string, split: nat, i: nat)
    requires split <= i < |p| && p[split] == ':' && forall k :: 0 <= k < split ==> p[k] != ':'
    requires (p[i] == '\r' || i + 1 == |p|) && forall k :: split <= k < i ==> p[k] != '\r'
    ensures Line(p) == if p[i] == '\r' && i + 1 < |p| && p[i + 1] == '\n' then Some((split, i)) else None
  {
    var t := p[split..];
    assert forall k :: 0 <= k < |t| ==> t[k] == p[split + k];
    assert IndexOf(p, ':') == split;
    assert p[i] == '\r' ==> IndexOf(t, '\r') == i - split;
  }
}
