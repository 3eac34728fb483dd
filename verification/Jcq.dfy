/** The JCQ wire protocol (parser/jcq.c): what one call of the parser does to a message. */
module Jcq {
  import opened Text
  import opened NetMessages

  datatype ReadState = Wait | Param | Data | End | Finish

  datatype Code = Success | NeedMore | FormatError | OutOfLine | ParamError

  /** The message as read so far, without the carried bytes; `data` is the part of the body
      received so far. */
  datatype Core = Core(fields: Fields, state: ReadState, data: Option<string>)

  const FLAG: string := "jcq 1.0\r\n"
  const DATA: string := "data:"
  const CLOSE: string := "\r\n\r\n"

  predicate StartsWith(s: string, pat: string) {
    |pat| <= |s| && s[..|pat|] == pat
  }

  /** Where the colon of the next header line is, and its carriage return, if the whole
      line is there. */
  function Line(s: string): (r: Option<(nat, nat)>)
    ensures r.Some? ==> r.value.0 < r.value.1 && r.value.1 + 2 <= |s|
  {
    var i := IndexOf(s, ':');
    var j := i + IndexOf(s[i..], '\r');
    if i < |s| && j + 1 < |s| && s[j + 1] == '\n' then Some((i, j)) else None
  }

  /** The part of the body received so far. */
  function BodySoFar(core: Core): string {
    if core.data.Some? then core.data.value else ""
  }

  function ReadLength(core: Core): nat {
    |BodySoFar(core)|
  }

  /** Nothing received yet means that the bytes must start with the mark of the body. */
  function MarkLength(core: Core): nat {
    if ReadLength(core) == 0 then |DATA| else 0
  }

  /** Turns that consume nothing go down in rank. */
  function Rank(s: ReadState): nat {
    match s
    case Param => 2
    case Data => 1
    case _ => 0
  }

  datatype Turn = Go(core: Core, n: nat) | Halt(core: Core, carry: string, code: Code)

  function Min(a: nat, b: nat): nat {
    if a <= b then a else b
  }

  /** One turn of the parsing loop on the unread bytes: consume some and go on, or stop. */
  ghost function Step(core: Core, rest: string): (t: Turn)
    requires rest != ""
    ensures t.Go? ==> t.n <= |rest|
    ensures t.Go? && t.n == 0 ==> Rank(t.core.state) < Rank(core.state)
  {
    match core.state
    case Wait =>
      (match Find(rest, FLAG)
       case None => Halt(core, rest, NeedMore)
       case Some(p) => Go(core.(state := Param), p + |FLAG|))
    case Param =>
      if StartsWith(rest, DATA) then Go(core.(state := Data, data := None), 0)
      else
        (match Line(rest)
         case None => Halt(core, rest, NeedMore)
         case Some((i, j)) =>
           var (f, result) := SetParam(core.fields, CString(rest[..i]), CString(rest[i + 1..j]));
           if result == SetOk then Go(core.(fields := f), j + 2)
           else Halt(core.(fields := f), rest[j + 2..], FormatError))
    case Data =>
      var length := core.fields.length;
      if length == 0 then
        if StartsWith(rest, DATA) then Go(core.(state := End), |DATA|) else Halt(core, rest, FormatError)
      else if length < 0 || (ReadLength(core) == 0 && !StartsWith(rest, DATA)) then Halt(core, rest, FormatError)
      else
        var start, got := MarkLength(core), BodySoFar(core);
        var copied := if length < |got| then 0 else Min(|rest| - start, length - |got|);
        var next := core.(data := Some(got + rest[start..start + copied]));
        if |got| + copied < length then Halt(next, "", NeedMore)
        else if |got| + copied == length then Go(next.(state := End), start + copied)
        else Halt(next, rest[start + copied..], OutOfLine)
    case End =>
      if StartsWith(rest, CLOSE) then Halt(core.(state := Finish), rest[|CLOSE|..], Success)
      else Halt(core, rest, FormatError)
    case Finish => Halt(core, "", Success)
  }

  datatype Result = Result(core: Core, carry: string, code: Code)

  /** The parsing loop. */
  ghost function Parse(core: Core, rest: string): Result
    decreases |rest|, Rank(core.state)
  {
    if rest == "" || core.state == Finish then Result(core, "", Success)
    else
      match Step(core, rest)
      case Go(next, n) => Parse(next, rest[n..])
      case Halt(next, carry, code) => Result(next, carry, code)
  }

  /** A message with the bytes carried over from earlier calls. */
  datatype Msg = Msg(core: Core, carry: string)

  /** One call of the parser. */
  ghost function Feed(m: Msg, chunk: string): (Msg, Code) {
    if m.carry == "" && chunk == "" then (m, NeedMore)
    else
      var r := Parse(m.core, m.carry + chunk);
      (Msg(r.core, r.carry), r.code)
  }
}
