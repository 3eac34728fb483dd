/** The named fields of a network message (parser/net_message.c). */
module NetMessages {
  import opened Text
  import opened Numbers
  import ExtraParams

  /** The fields a header line can set. Absent strings are NULL in the original. */
  datatype Fields = Fields(
    cmd: Option<string>, user: Option<string>, password: Option<string>, key: Option<string>,
    extraParam: Option<string>, length: int, timestamp: int, errcode: int,
    version: Option<string>, protocolType: Option<string>, host: Option<string>, port: Option<string>,
    sendCmd: Option<string>, currentUserKey: Option<string>, currentUser: Option<string>,
    currentPassword: Option<string>, sendExtraParam: Option<string>,
    sendLength: int, sendTime: int, sendState: int, writedLength: int)

  datatype SetResult = SetOk | UnknownParam | ValueFormatError

  ghost predicate FormatRight(value: string) {
    ExtraParams.WellFormed(value)
  }

  /** One header line: an ill-formed parameter string drops the old one and is refused. */
  ghost function SetParam(f: Fields, name: string, value: string): (Fields, SetResult) {
    if name == "cmd" then (f.(cmd := Some(value)), SetOk)
    else if name == "user" then (f.(user := Some(value)), SetOk)
    else if name == "password" then (f.(password := Some(value)), SetOk)
    else if name == "key" then (f.(key := Some(value)), SetOk)
    else if name == "extraParam" then
      if FormatRight(value) then (f.(extraParam := Some(value)), SetOk)
      else (f.(extraParam := None), ValueFormatError)
    else if name == "length" then (f.(length := Atoi(value)), SetOk)
    else if name == "version" then (f.(version := Some(value)), SetOk)
    else if name == "protocolType" then (f.(protocolType := Some(value)), SetOk)
    else if name == "timestamp" then (f.(timestamp := Atoll(value)), SetOk)
    else if name == "errcode" then (f.(errcode := Atoi(value)), SetOk)
    else if name == "host" then (f.(host := Some(value)), SetOk)
    else if name == "port" then (f.(port := Some(value)), SetOk)
    else SetSendParam(f, name, value)
  }

  /** The fields of the answer being sent, which the same lines can set. */
  ghost function SetSendParam(f: Fields, name: string, value: string): (Fields, SetResult) {
    if name == "sendCmd" then (f.(sendCmd := Some(value)), SetOk)
    else if name == "currentUserKey" then (f.(currentUserKey := Some(value)), SetOk)
    else if name == "currentUser" then (f.(currentUser := Some(value)), SetOk)
    else if name == "currentPassword" then (f.(currentPassword := Some(value)), SetOk)
    else if name == "sendExtraParam" then
      if FormatRight(value) then (f.(sendExtraParam := Some(value)), SetOk)
      else (f.(sendExtraParam := None), ValueFormatError)
    else if name == "sendLength" then (f.(sendLength := Atoi(value)), SetOk)
    else if name == "sendTime" then (f.(sendTime := Atoll(value)), SetOk)
    else if name == "sendState" then (f.(sendState := Atoi(value)), SetOk)
    else if name == "writedLength" then (f.(writedLength := Atoi(value)), SetOk)
    else (f, UnknownParam)
  }

  // ----- what the fields are called -----

  datatype Reading = Words(words: Option<string>) | Number(number: int)

  /** The field with this name, if there is one. */
  function Field(f: Fields, name: string): Option<Reading> {
    if name == "cmd" then Some(Words(f.cmd)) else
    if name == "user" then Some(Words(f.user)) else
    if name == "password" then Some(Words(f.password)) else
    if name == "key" then Some(Words(f.key)) else
    if name == "extraParam" then Some(Words(f.extraParam)) else
    if name == "length" then Some(Number(f.length)) else
    if name == "version" then Some(Words(f.version)) else
    if name == "protocolType" then Some(Words(f.protocolType)) else
    if name == "timestamp" then Some(Number(f.timestamp)) else
    if name == "errcode" then Some(Number(f.errcode)) else
    if name == "host" then Some(Words(f.host)) else
    if name == "port" then Some(Words(f.port)) else
    SendField(f, name)
  }

  function SendField(f: Fields, name: string): Option<Reading> {
    if name == "sendCmd" then Some(Words(f.sendCmd)) else
    if name == "currentUserKey" then Some(Words(f.currentUserKey)) else
    if name == "currentUser" then Some(Words(f.currentUser)) else
    if name == "currentPassword" then Some(Words(f.currentPassword)) else
    if name == "sendExtraParam" then Some(Words(f.sendExtraParam)) else
    if name == "sendLength" then Some(Number(f.sendLength)) else
    if name == "sendTime" then Some(Number(f.sendTime)) else
    if name == "sendState" then Some(Number(f.sendState)) else
    if name == "writedLength" then Some(Number(f.writedLength)) else
    None
  }

  /** The names of numbers, and of numbers of 64 bits. */
  predicate NamesInt(name: string) {
    name == "length" || name == "errcode" || name == "sendLength" || name == "sendState" || name == "writedLength"
  }

  predicate NamesLong(name: string) { name == "timestamp" || name == "sendTime" }

  /** The names of parameter strings. */
  predicate NamesParams(name: string) { name == "extraParam" || name == "sendExtraParam" }

  /** What a header line that is accepted makes of its field. */
  function Meant(name: string, value: string): Reading {
    if NamesInt(name) then Number(Atoi(value)) else if NamesLong(name) then Number(Atoll(value)) else Words(Some(value))
  }

  lemma OwnSendField(f: Fields, name: string, value: string)
    ensures var (g, r) := SetSendParam(f, name, value);
      if SendField(f, name).None? then g == f && r == UnknownParam
      else if name == "sendExtraParam" && !FormatRight(value)
      then SendField(g, name) == Some(Words(None)) && r == ValueFormatError
      else SendField(g, name) == Some(Meant(name, value)) && r == SetOk
  {
    hide FormatRight, Atoi, Atoll;
  }

  lemma OwnField(f: Fields, name: string, value: string)
    ensures var (g, r) := SetParam(f, name, value);
      if Field(f, name).None? then g == f && r == UnknownParam
      else if NamesParams(name) && !FormatRight(value) then Field(g, name) == Some(Words(None)) && r == ValueFormatError
      else Field(g, name) == Some(Meant(name, value)) && r == SetOk
  {
    hide FormatRight, Atoi, Atoll, SetSendParam, SendField;
    OwnSendField(f, name, value);
  }

  lemma OtherSendField(f: Fields, name: string, value: string, other: string)
    requires other != name
    ensures SendField(SetSendParam(f, name, value).0, other) == SendField(f, other)
  {
    hide FormatRight, Atoi, Atoll;
  }

  /** The fields of the message itself. */
  predicate SameHead(f: Fields, g: Fields) {
    f == g.(sendCmd := f.sendCmd, currentUserKey := f.currentUserKey, currentUser := f.currentUser,
            currentPassword := f.currentPassword, sendExtraParam := f.sendExtraParam, sendLength := f.sendLength,
            sendTime := f.sendTime, sendState := f.sendState, writedLength := f.writedLength)
  }

  lemma SendFieldsOnly(f: Fields, name: string, value: string)
    ensures SameHead(f, SetSendParam(f, name, value).0)
  {
    hide FormatRight, Atoi, Atoll;
  }

  lemma SameHeadReads(f: Fields, g: Fields, other: string)
    requires SameHead(f, g) && SendField(f, other) == SendField(g, other)
    ensures Field(f, other) == Field(g, other)
  {
    hide SendField;
  }

  lemma OtherField(f: Fields, name: string, value: string, other: string)
    requires other != name
    ensures Field(SetParam(f, name, value).0, other) == Field(f, other)
  {
    hide FormatRight, Atoi, Atoll, SetSendParam, SendField, SameHead;
    OtherSendField(f, name, value, other);
    SendFieldsOnly(f, name, value);
    SameHeadReads(f, SetSendParam(f, name, value).0, other);
    HeadOnly(f, SetParam(f, name, value).0, name, value, other);
  }

  /** A name of the message itself leaves the answer's fields alone. */
  lemma HeadOnly(f: Fields, g: Fields, name: string, value: string, other: string)
    requires g == SetParam(f, name, value).0
    ensures g == SetSendParam(f, name, value).0 || SendField(g, other) == SendField(f, other)
  {
    hide FormatRight, Atoi, Atoll, SetSendParam;
  }

  /** A line sets the field it names, and no other: an accepted value reads back, an ill-formed parameter string
      leaves its field empty, and a name that no field has changes nothing. */
  lemma SetParamMeaning(f: Fields, name: string, value: string)
    ensures var (g, r) := SetParam(f, name, value);
      if Field(f, name).None? then g == f && r == UnknownParam
      else if NamesParams(name) && !FormatRight(value) then Field(g, name) == Some(Words(None)) && r == ValueFormatError
      else Field(g, name) == Some(Meant(name, value)) && r == SetOk
    ensures forall other :: other != name ==> Field(SetParam(f, name, value).0, other) == Field(f, other)
  {
    hide SetParam, Field, FormatRight, Meant, NamesParams;
    OwnField(f, name, value);
    forall other | other != name
      ensures Field(SetParam(f, name, value).0, other) == Field(f, other)
    {
      OtherField(f, name, value, other);
    }
  }

  lemma Reads1(f: Fields)
    ensures Field(f, "cmd") == Some(Words(f.cmd))
    ensures Field(f, "user") == Some(Words(f.user))
    ensures Field(f, "password") == Some(Words(f.password))
  {
  }

  lemma Reads2(f: Fields)
    ensures Field(f, "key") == Some(Words(f.key))
    ensures Field(f, "extraParam") == Some(Words(f.extraParam))
    ensures Field(f, "length") == Some(Number(f.length))
  {
  }

  lemma Reads3(f: Fields)
    ensures Field(f, "version") == Some(Words(f.version))
    ensures Field(f, "protocolType") == Some(Words(f.protocolType))
    ensures Field(f, "timestamp") == Some(Number(f.timestamp))
  {
  }

  lemma Reads4(f: Fields)
    ensures Field(f, "errcode") == Some(Number(f.errcode))
    ensures Field(f, "host") == Some(Words(f.host))
    ensures Field(f, "port") == Some(Words(f.port))
  {
  }

  lemma Reads5(f: Fields)
    ensures Field(f, "sendCmd") == Some(Words(f.sendCmd))
    ensures Field(f, "currentUserKey") == Some(Words(f.currentUserKey))
    ensures Field(f, "currentUser") == Some(Words(f.currentUser))
  {
  }

  lemma Reads6(f: Fields)
    ensures Field(f, "currentPassword") == Some(Words(f.currentPassword))
    ensures Field(f, "sendExtraParam") == Some(Words(f.sendExtraParam))
    ensures Field(f, "sendLength") == Some(Number(f.sendLength))
  {
  }

  lemma Reads7(f: Fields)
    ensures Field(f, "sendTime") == Some(Number(f.sendTime))
    ensures Field(f, "sendState") == Some(Number(f.sendState))
    ensures Field(f, "writedLength") == Some(Number(f.writedLength))
  {
  }

  /** Fields that read the same are the same. */
  lemma FieldsByName(f: Fields, g: Fields)
    requires forall name :: Field(f, name) == Field(g, name)
    ensures f == g
  {
    hide Field;
    Reads1(f);
    Reads1(g);
    Reads2(f);
    Reads2(g);
    Reads3(f);
    Reads3(g);
    Reads4(f);
    Reads4(g);
    Reads5(f);
    Reads5(g);
    Reads6(f);
    Reads6(g);
    Reads7(f);
    Reads7(g);
  }
}
