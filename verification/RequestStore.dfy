/** The request server in the store file (app_queue/request.c), on values: how it is stored over whatever
    earlier saves left of it, and what reading it back gives. */
module RequestStore {
  import opened Text
  import opened Octets
  import opened Disks
  import opened Kinds
  import opened RingImage
  import opened Listings
  import opened Stores

  // ----- a queued message -----

  const CMD_SIZE := 20
  const EXTRAPARAM_SIZE := 512

  datatype Micro = Micro(id: int, cmd: Chars, extraParam: Chars, data: seq<byte>, errcode: int)

  function MicroBytes(id: int, cmd: int, extraParam: int, data: int, length: int, errcode: int): (b: seq<byte>)
    ensures |b| == 40
  {
    LaySigned(id, 8) + LaySigned(cmd, 8) + LaySigned(extraParam, 8) + LaySigned(data, 8) +
    LaySigned(length, 4) + LaySigned(errcode, 4)
  }

  lemma MicroFields(id: int, cmd: int, extraParam: int, data: int, length: int, errcode: int)
    requires Fits(id, 8) && Position(cmd) && Position(extraParam) && Position(data)
    requires Fits(length, 4) && Fits(errcode, 4)
    ensures var b := MicroBytes(id, cmd, extraParam, data, length, errcode);
      && Signed(b[..8]) == id && Signed(b[8..16]) == cmd && Signed(b[16..24]) == extraParam
      && Signed(b[24..32]) == data && Signed(b[32..36]) == length && Signed(b[36..]) == errcode
  {
    hide LaySigned, Signed;
    var b := MicroBytes(id, cmd, extraParam, data, length, errcode);
    assert b[..8] == LaySigned(id, 8) && b[8..16] == LaySigned(cmd, 8) && b[16..24] == LaySigned(extraParam, 8);
    assert b[24..32] == LaySigned(data, 8) && b[32..36] == LaySigned(length, 4) && b[36..] == LaySigned(errcode, 4);
    PositionFits(cmd);
    PositionFits(extraParam);
    PositionFits(data);
    SignedLay(id, 8);
    SignedLay(cmd, 8);
    SignedLay(extraParam, 8);
    SignedLay(data, 8);
    SignedLay(length, 4);
    SignedLay(errcode, 4);
  }

  /** Where a message's strings and data are, as its record says; and how long the data are. */
  type MicroRefs = (int, (int, (int, int)))

  type MicroPlace = Place<MicroRefs>

  const NO_MICRO := Micro(0, None, None, [], 0)

  /** What the record of a message refers to. */
  function RefsOfMicro(b: seq<byte>): MicroRefs {
    if |b| != 40 then (0, (0, (0, 0))) else
      (Signed(b[8..16]), (Signed(b[16..24]), (Signed(b[24..32]), Signed(b[32..36]))))
  }

  function MicroAtHand(d: Disk, at: int): MicroRefs {
    if at > 0 && at in d.contents then RefsOfMicro(d.contents[at]) else (0, (0, (0, 0)))
  }

  /** storeMicroNetMessage: when there is a record, it says where the strings and the data go. */
  function StoreMicro(pad: Padding, d: Disk, m: Micro, p: MicroPlace): (Disk, MicroPlace) {
    var refs := MicroAtHand(d, p.at);
    var (d1, cmd) := PutText(pad, d, refs.0, m.cmd, CMD_SIZE);
    var (d2, extraParam) := PutText(pad, d1, refs.1.0, m.extraParam, EXTRAPARAM_SIZE);
    var (d3, data) := Put(d2, refs.1.1.0, m.data);
    var (e, at) := Put(d3, p.at, MicroBytes(m.id, cmd, extraParam, data, |m.data|, m.errcode));
    (e, Place(at, (cmd, (extraParam, (data, |m.data|)))))
  }

  /** restoreMicroNetMessage. */
  function RestoreMicro(d: Disk, at: int): Micro {
    if at <= 0 || at !in d.contents || |d.contents[at]| != 40 then NO_MICRO else
      var refs := RefsOfMicro(d.contents[at]);
      Micro(Signed(d.contents[at][..8]), GetText(d, refs.0), GetText(d, refs.1.0), GetBlob(d, refs.1.1),
            Signed(d.contents[at][36..]))
  }

  predicate Storable(m: Micro) {
    NoZero(m.cmd) && NoZero(m.extraParam) && Fits(m.id, 8) && Fits(|m.data|, 4) && Fits(m.errcode, 4)
  }

  function KeptMicro(m: Micro): Micro {
    m.(cmd := Kept(m.cmd, CMD_SIZE), extraParam := Kept(m.extraParam, EXTRAPARAM_SIZE))
  }

  // ----- messages are a lawful kind -----

  type MicroParts = (Chars, (Chars, seq<byte>))

  function EncodeMicro(m: Micro, r: MicroRefs): seq<byte> {
    MicroBytes(m.id, r.0, r.1.0, r.1.1.0, r.1.1.1, m.errcode)
  }

  function MakeMicro(b: seq<byte>, w: MicroParts): Micro {
    if |b| != 40 then NO_MICRO else Micro(Signed(b[..8]), w.0, w.1.0, w.1.1, Signed(b[36..]))
  }

  ghost function MicroLayout(): Layout<Micro, MicroParts, MicroRefs> {
    Layout(40, (m: Micro) => Fits(m.id, 8) && Fits(m.errcode, 4), (m: Micro) => (m.cmd, (m.extraParam, m.data)), EncodeMicro, RefsOfMicro,
           MakeMicro, (m: Micro, w: MicroParts) => Micro(m.id, w.0, w.1.0, w.1.1, m.errcode), (0, (0, (0, 0))), NO_MICRO)
  }

  ghost function MicroParted(): Kind<MicroParts, MicroRefs, MicroRefs> {
    Both(TextKind(CMD_SIZE), Both(TextKind(EXTRAPARAM_SIZE), BlobKind()))
  }

  ghost function MicroKind(): Kind<Micro, MicroPlace, int> { Recorded(MicroLayout(), MicroParted()) }

  lemma MicroWellLaid()
    ensures WellLaid(MicroLayout(), MicroParted())
  {
    hide Signed, Fits, MicroBytes, Position;
    var l, a := MicroLayout(), MicroParted();
    forall m, r | l.sound(m) && a.fine(r)
      ensures l.refs(l.encode(m, r)) == r
      ensures forall w {:trigger l.make(l.encode(m, r), w)} :: l.make(l.encode(m, r), w) == l.joined(m, w)
    {
      MicroFields(m.id, r.0, r.1.0, r.1.1.0, r.1.1.1, m.errcode);
    }
  }

  lemma MicroPartsLawful()
    ensures Lawful(MicroParted())
  {
    hide Lawful, TextKind, BlobKind, Both;
    TextLawful(CMD_SIZE);
    TextLawful(EXTRAPARAM_SIZE);
    BlobLawful();
    BothLawful(TextKind(EXTRAPARAM_SIZE), BlobKind());
    BothLawful(TextKind(CMD_SIZE), Both(TextKind(EXTRAPARAM_SIZE), BlobKind()));
  }

  lemma MicroLawful()
    ensures Lawful(MicroKind()) && Located(MicroKind())
  {
    hide Lawful, WellLaid, Located, Recorded, MicroLayout, MicroParted;
    MicroPartsLawful();
    MicroWellLaid();
    RecordLawful(MicroLayout(), MicroParted());
  }

  lemma PartsOfMicro(pad: Padding, d: Disk, m: Micro, p: MicroRefs, r: MicroRefs)
    ensures MicroParted().reload(p, r) == r
    ensures var (d1, cmd) := PutText(pad, d, r.0, m.cmd, CMD_SIZE);
      var (d2, extraParam) := PutText(pad, d1, r.1.0, m.extraParam, EXTRAPARAM_SIZE);
      var (d3, data) := Put(d2, r.1.1.0, m.data);
      MicroParted().store(pad, d, (m.cmd, (m.extraParam, m.data)), r) == (d3, (cmd, (extraParam, (data, |m.data|))))
  {
    hide PutText, Put;
    var rest := Both(TextKind(EXTRAPARAM_SIZE), BlobKind());
    var (d1, cmd) := TextKind(CMD_SIZE).store(pad, d, m.cmd, r.0);
    var (d2, extraParam) := TextKind(EXTRAPARAM_SIZE).store(pad, d1, m.extraParam, r.1.0);
    var (d3, data) := BlobKind().store(pad, d2, m.data, r.1.1);
    assert rest.store(pad, d1, (m.extraParam, m.data), r.1) == (d3, (extraParam, data));
  }

  /** The kind is what the code does. */
  lemma MicroIsKind(pad: Padding, d: Disk, m: Micro, p: MicroPlace)
    ensures MicroKind().store(pad, d, m, p) == StoreMicro(pad, d, m, p)
    ensures MicroKind().ref(p) == p.at
  {
    hide PutText, Put, MicroBytes, RefsOfMicro;
    PartsOfMicro(pad, d, m, p.inner, MicroAtHand(d, p.at));
  }

  lemma MicroReads(d: Disk, at: int, m: Micro)
    ensures MicroKind().restore(d, at) == RestoreMicro(d, at)
    ensures MicroKind().kept(m) == KeptMicro(m)
    ensures MicroKind().fits(m) == Storable(m)
  {
    hide Signed, Kept, Fits, NoZero, GetText, RefsOfMicro;
  }

  /** Storing a message, whatever is saved of it already, rewrites none but its own records, and what is
      restored is the message without the strings that are too long. */
  lemma MicroStored(pad: Padding, d: Disk, m: Micro, p: MicroPlace)
    requires Sane(d) && Storable(m) && MicroKind().placed(d, m, p) && d.end + MicroKind().cost(m) < BOUND
    ensures var (e, q) := StoreMicro(pad, d, m, p);
      && Spares(d, e, MicroKind().owns, p) && MicroKind().current(e, m, q)
      && RestoreMicro(e, q.at) == KeptMicro(m)
  {
    hide Lawful, Spares, Sane, Recorded, StoreMicro, RestoreMicro, KeptMicro, Storable;
    var (e, q) := StoreMicro(pad, d, m, p);
    MicroIsKind(pad, d, m, p);
    MicroIsKind(pad, e, m, q);
    MicroReads(e, q.at, m);
    MicroLawful();
    UseStores(MicroKind(), pad, d, m, p);
    SparesSane(d, e, MicroKind().owns, p);
    UseReads(MicroKind(), e, m, q);
  }

  // ----- a requester -----

  const HOST_SIZE := 124
  const PORT_SIZE := 20
  const PROTOCOL_SIZE := 20
  const VERSION_SIZE := 20

  /** `user` is where the user's own record is. */
  datatype Requester = Requester(id: int, user: int, messages: Listing<Micro>,
                                 host: Chars, port: Chars, protocol: Chars, version: Chars, state: int)

  function RequesterBytes(id: int, user: int, messages: int, host: int, port: int, protocol: int, version: int,
                          state: int):
    (b: seq<byte>)
    ensures |b| == 64
  {
    LaySigned(id, 4) + Lay(0, 4) + LaySigned(user, 8) + LaySigned(messages, 8) + LaySigned(host, 8) +
    LaySigned(port, 8) + LaySigned(protocol, 8) + LaySigned(version, 8) + LaySigned(state, 4) + Lay(0, 4)
  }

  lemma RequesterFields(id: int, user: int, messages: int, host: int, port: int, protocol: int, version: int,
                        state: int)
    requires Fits(id, 4) && Fits(user, 8) && Position(messages) && Position(host) && Position(port)
    requires Position(protocol) && Position(version) && Fits(state, 4)
    ensures var b := RequesterBytes(id, user, messages, host, port, protocol, version, state);
      && Signed(b[..4]) == id && Signed(b[8..16]) == user && Signed(b[16..24]) == messages
      && Signed(b[24..32]) == host && Signed(b[32..40]) == port && Signed(b[40..48]) == protocol
      && Signed(b[48..56]) == version && Signed(b[56..60]) == state
  {
    hide LaySigned, Signed;
    var b := RequesterBytes(id, user, messages, host, port, protocol, version, state);
    assert b[..4] == LaySigned(id, 4) && b[8..16] == LaySigned(user, 8) && b[16..24] == LaySigned(messages, 8);
    assert b[24..32] == LaySigned(host, 8) && b[32..40] == LaySigned(port, 8);
    assert b[40..48] == LaySigned(protocol, 8) && b[48..56] == LaySigned(version, 8) && b[56..60] == LaySigned(state, 4);
    PositionFits(messages);
    PositionFits(host);
    PositionFits(port);
    PositionFits(protocol);
    PositionFits(version);
    SignedLay(id, 4);
    SignedLay(user, 8);
    SignedLay(messages, 8);
    SignedLay(host, 8);
    SignedLay(port, 8);
    SignedLay(protocol, 8);
    SignedLay(version, 8);
    SignedLay(state, 4);
  }

  /** What the record of a requester refers to: its messages and its strings. */
  type RequesterRefs = (int, (int, (int, (int, int))))

  type RequesterPlace = Place<(ListPlace<MicroPlace>, (int, (int, (int, int))))>

  const NO_REQUESTER := Requester(0, 0, Listing(0, 0, 0, [], []), None, None, None, None, 0)

  function RefsOfRequester(b: seq<byte>): RequesterRefs {
    if |b| != 64 then (0, (0, (0, (0, 0)))) else
      (Signed(b[16..24]), (Signed(b[24..32]), (Signed(b[32..40]), (Signed(b[40..48]), Signed(b[48..56])))))
  }

  function RequesterAtHand(d: Disk, at: int): RequesterRefs {
    if at > 0 && at in d.contents then RefsOfRequester(d.contents[at]) else (0, (0, (0, (0, 0))))
  }

  /** storeRequester: the list where the list says, the strings where the record says, then the record. */
  ghost function StoreRequester(pad: Padding, d: Disk, r: Requester, p: RequesterPlace): (Disk, RequesterPlace) {
    var refs := RequesterAtHand(d, p.at).1;
    var (d1, messages) := PutList(MicroKind(), pad, d, r.messages, p.inner.0);
    var (d2, host) := PutText(pad, d1, refs.0, r.host, HOST_SIZE);
    var (d3, port) := PutText(pad, d2, refs.1.0, r.port, PORT_SIZE);
    var (d4, protocol) := PutText(pad, d3, refs.1.1.0, r.protocol, PROTOCOL_SIZE);
    var (d5, version) := PutText(pad, d4, refs.1.1.1, r.version, VERSION_SIZE);
    var b := RequesterBytes(r.id, r.user, messages.at, host, port, protocol, version, r.state);
    var (e, at) := Put(d5, p.at, b);
    (e, Place(at, (messages, (host, (port, (protocol, version))))))
  }

  /** restoreRequester. */
  function RestoreRequester(d: Disk, at: int): Requester {
    if at <= 0 || at !in d.contents || |d.contents[at]| != 64 then NO_REQUESTER else
      var b, refs := d.contents[at], RefsOfRequester(d.contents[at]);
      Requester(Signed(b[..4]), Signed(b[8..16]), GetList(RestoreMicro, d, refs.0), GetText(d, refs.1.0),
                GetText(d, refs.1.1.0), GetText(d, refs.1.1.1.0), GetText(d, refs.1.1.1.1), Signed(b[56..60]))
  }

  predicate Savable(r: Requester) {
    && NoZero(r.host) && NoZero(r.port) && NoZero(r.protocol) && NoZero(r.version)
    && Fits(r.id, 4) && Fits(r.user, 8) && Fits(r.state, 4)
    && ListFits(Storable, r.messages)
  }

  function KeptRequester(r: Requester): Requester {
    r.(messages := KeptListing(r.messages, KeptMicro),
       host := Kept(r.host, HOST_SIZE), port := Kept(r.port, PORT_SIZE),
       protocol := Kept(r.protocol, PROTOCOL_SIZE), version := Kept(r.version, VERSION_SIZE))
  }

  // ----- requesters are a lawful kind -----

  type RequesterParts = (Listing<Micro>, (Chars, (Chars, (Chars, Chars))))

  function PartsOfRequester(r: Requester): RequesterParts {
    (r.messages, (r.host, (r.port, (r.protocol, r.version))))
  }

  function EncodeRequester(r: Requester, s: RequesterRefs): seq<byte> {
    RequesterBytes(r.id, r.user, s.0, s.1.0, s.1.1.0, s.1.1.1.0, s.1.1.1.1, r.state)
  }

  function JoinRequester(r: Requester, w: RequesterParts): Requester {
    Requester(r.id, r.user, w.0, w.1.0, w.1.1.0, w.1.1.1.0, w.1.1.1.1, r.state)
  }

  function MakeRequester(b: seq<byte>, w: RequesterParts): Requester {
    if |b| != 64 then NO_REQUESTER else
      JoinRequester(Requester(Signed(b[..4]), Signed(b[8..16]), w.0, None, None, None, None, Signed(b[56..60])), w)
  }

  predicate RequesterSound(r: Requester) { Fits(r.id, 4) && Fits(r.user, 8) && Fits(r.state, 4) }

  ghost function RequesterLayout(): Layout<Requester, RequesterParts, RequesterRefs> {
    Layout(64, RequesterSound, PartsOfRequester, EncodeRequester, RefsOfRequester, MakeRequester, JoinRequester,
           (0, (0, (0, (0, 0)))), NO_REQUESTER)
  }

  ghost function StringsKind(): Kind<(Chars, (Chars, (Chars, Chars))), (int, (int, (int, int))), (int, (int, (int, int)))> {
    Both(TextKind(HOST_SIZE), Both(TextKind(PORT_SIZE), Both(TextKind(PROTOCOL_SIZE), TextKind(VERSION_SIZE))))
  }

  ghost function RequesterParted():
    Kind<RequesterParts, (ListPlace<MicroPlace>, (int, (int, (int, int)))), RequesterRefs>
  {
    Both(ListKind(MicroKind()), StringsKind())
  }

  ghost function RequesterKind(): Kind<Requester, RequesterPlace, int> {
    Recorded(RequesterLayout(), RequesterParted())
  }

  lemma RequesterWellLaid()
    ensures WellLaid(RequesterLayout(), RequesterParted())
  {
    hide Signed, Fits, RequesterBytes, Position, MicroKind;
    var l, a := RequesterLayout(), RequesterParted();
    forall r, s | l.sound(r) && a.fine(s)
      ensures l.refs(l.encode(r, s)) == s
      ensures forall w {:trigger l.make(l.encode(r, s), w)} :: l.make(l.encode(r, s), w) == l.joined(r, w)
    {
      RequesterFields(r.id, r.user, s.0, s.1.0, s.1.1.0, s.1.1.1.0, s.1.1.1.1, r.state);
    }
  }

  lemma StringsLawful()
    ensures Lawful(StringsKind())
  {
    hide Lawful, TextKind, Both;
    TextLawful(HOST_SIZE);
    TextLawful(PORT_SIZE);
    TextLawful(VERSION_SIZE);
    BothLawful(TextKind(PROTOCOL_SIZE), TextKind(VERSION_SIZE));
    BothLawful(TextKind(PORT_SIZE), Both(TextKind(PROTOCOL_SIZE), TextKind(VERSION_SIZE)));
    BothLawful(TextKind(HOST_SIZE), Both(TextKind(PORT_SIZE), Both(TextKind(PROTOCOL_SIZE), TextKind(VERSION_SIZE))));
  }

  lemma RequesterPartsLawful()
    ensures Lawful(RequesterParted())
  {
    hide Lawful, Located, Both, MicroKind, ListKind, StringsKind;
    StringsLawful();
    MicroLawful();
    ListLawful(MicroKind());
    BothLawful(ListKind(MicroKind()), StringsKind());
  }

  lemma RequesterLawful()
    ensures Lawful(RequesterKind()) && Located(RequesterKind())
  {
    hide Lawful, WellLaid, Located, Recorded, RequesterLayout, RequesterParted;
    RequesterPartsLawful();
    RequesterWellLaid();
    RecordLawful(RequesterLayout(), RequesterParted());
  }

  lemma StoreStrings(pad: Padding, d: Disk, r: Requester, p: (int, (int, (int, int))), s: (int, (int, (int, int))))
    ensures StringsKind().reload(p, s) == s
    ensures var (d2, host) := PutText(pad, d, s.0, r.host, HOST_SIZE);
      var (d3, port) := PutText(pad, d2, s.1.0, r.port, PORT_SIZE);
      var (d4, protocol) := PutText(pad, d3, s.1.1.0, r.protocol, PROTOCOL_SIZE);
      var (d5, version) := PutText(pad, d4, s.1.1.1, r.version, VERSION_SIZE);
      StringsKind().store(pad, d, PartsOfRequester(r).1, s) == (d5, (host, (port, (protocol, version))))
  {
    hide PutText;
    var last := Both(TextKind(PROTOCOL_SIZE), TextKind(VERSION_SIZE));
    var rest := Both(TextKind(PORT_SIZE), last);
    var (d2, host) := TextKind(HOST_SIZE).store(pad, d, r.host, s.0);
    var (d3, port) := TextKind(PORT_SIZE).store(pad, d2, r.port, s.1.0);
    var (d4, protocol) := TextKind(PROTOCOL_SIZE).store(pad, d3, r.protocol, s.1.1.0);
    var (d5, version) := TextKind(VERSION_SIZE).store(pad, d4, r.version, s.1.1.1);
    assert last.store(pad, d3, (r.protocol, r.version), s.1.1) == (d5, (protocol, version));
    assert rest.store(pad, d2, (r.port, (r.protocol, r.version)), s.1) == (d5, (port, (protocol, version)));
  }

  lemma RequesterIsKind(pad: Padding, d: Disk, r: Requester, p: RequesterPlace)
    ensures RequesterKind().store(pad, d, r, p) == StoreRequester(pad, d, r, p)
  {
    hide PutText, Put, RequesterBytes, PutList, MicroKind, StringsKind, RefsOfRequester;
    var s := RequesterAtHand(d, p.at);
    var (d1, messages) := ListKind(MicroKind()).store(pad, d, r.messages, p.inner.0);
    StoreStrings(pad, d1, r, p.inner.1, s.1);
    var (d5, strings) := StringsKind().store(pad, d1, PartsOfRequester(r).1, s.1);
    assert RequesterParted().reload(p.inner, s) == (p.inner.0, s.1);
    assert RequesterParted().store(pad, d, PartsOfRequester(r), (p.inner.0, s.1)) == (d5, (messages, strings));
    assert Found(RequesterLayout(), d, p.at) == s;
    assert StringsKind().ref(strings) == strings by { StringsRef(strings); }
    assert RequesterParted().ref((messages, strings)) == (messages.at, strings);
    assert RequesterLayout().encode(r, (messages.at, strings)) == EncodeRequester(r, (messages.at, strings));
  }

  lemma StringsRef(s: (int, (int, (int, int))))
    ensures StringsKind().ref(s) == s
  {
  }

  /** The handle that the last node of the list at `at` keeps. */
  function LastHandle(d: Disk, at: int): int { DataOf(NodeRecord(d.contents, Ends(d, at).1)) }

  lemma SameRead<T>(mine: (Disk, int) -> T, yours: (Disk, int) -> T, d: Disk, at: int)
    requires mine(d, LastHandle(d, at)) == yours(d, LastHandle(d, at))
    ensures GetList(mine, d, at) == GetList(yours, d, at)
  {
    hide Ends, IdOf, DataOf, Signed, NodeRecord;
  }

  lemma SameKept<T>(mine: T -> T, yours: T -> T, l: Listing<T>)
    requires l.items != [] ==> mine(l.items[|l.items| - 1]) == yours(l.items[|l.items| - 1])
    ensures KeptListing(l, mine) == KeptListing(l, yours)
  {
  }

  lemma SameFits<T>(mine: T -> bool, yours: T -> bool, l: Listing<T>)
    requires forall i :: 0 <= i < |l.items| ==> mine(l.items[i]) == yours(l.items[i])
    ensures ListFits(mine, l) == ListFits(yours, l)
  {
    hide Proper;
  }

  lemma MessagesRead(d: Disk, at: int, l: Listing<Micro>)
    ensures GetList(MicroKind().restore, d, at) == GetList(RestoreMicro, d, at)
    ensures KeptListing(l, MicroKind().kept) == KeptListing(l, KeptMicro)
    ensures ListFits(MicroKind().fits, l) == ListFits(Storable, l)
  {
    hide MicroKind, RestoreMicro, KeptMicro, Storable, GetList, KeptListing, LastHandle, ListFits;
    MicroReads(d, LastHandle(d, at), NO_MICRO);
    SameRead(MicroKind().restore, RestoreMicro, d, at);
    forall i | 0 <= i < |l.items|
      ensures MicroKind().kept(l.items[i]) == KeptMicro(l.items[i])
      ensures MicroKind().fits(l.items[i]) == Storable(l.items[i])
    {
      MicroReads(d, at, l.items[i]);
    }
    SameKept(MicroKind().kept, KeptMicro, l);
    SameFits(MicroKind().fits, Storable, l);
  }

  lemma RequesterReads(d: Disk, at: int, r: Requester)
    ensures RequesterKind().restore(d, at) == RestoreRequester(d, at)
    ensures RequesterKind().kept(r) == KeptRequester(r)
    ensures RequesterKind().fits(r) == Savable(r)
  {
    hide Signed, Kept, Fits, NoZero, GetText, MicroKind, GetList, KeptListing, RestoreMicro, KeptMicro, Storable, ListFits,
         RefsOfRequester;
    var at' := if at > 0 && at in d.contents then RefsOfRequester(d.contents[at]).0 else 0;
    MessagesRead(d, at', r.messages);
  }

  /** Storing a requester, whatever is saved of it already, rewrites none but its own records, and what is
      restored is the requester with the strings that are not too long and the last of its messages. */
  lemma RequesterStored(pad: Padding, d: Disk, r: Requester, p: RequesterPlace)
    requires Sane(d) && Savable(r) && RequesterKind().placed(d, r, p) && d.end + RequesterKind().cost(r) < BOUND
    ensures var (e, q) := StoreRequester(pad, d, r, p);
      && Spares(d, e, RequesterKind().owns, p) && RequesterKind().current(e, r, q)
      && RestoreRequester(e, q.at) == KeptRequester(r)
  {
    hide Lawful, Spares, Sane, Recorded, StoreRequester, RestoreRequester, KeptRequester, Savable;
    var (e, q) := StoreRequester(pad, d, r, p);
    RequesterIsKind(pad, d, r, p);
    RequesterReads(e, q.at, r);
    RequesterLawful();
    UseStores(RequesterKind(), pad, d, r, p);
    SparesSane(d, e, RequesterKind().owns, p);
    UseReads(RequesterKind(), e, r, q);
    RequesterRef(q);
  }

  lemma RequesterRef(q: RequesterPlace)
    ensures RequesterKind().ref(q) == q.at
  {
  }

  // ----- the server -----

  /** `current` is the place of the current requester in the list. */
  datatype RequestServer = RequestServer(serverId: int, requesters: Listing<Requester>, current: Option<nat>, appServer: int)

  function ServerBytes(serverId: int, requesters: int, current: int, appServer: int): (b: seq<byte>)
    ensures |b| == 32
  {
    LaySigned(serverId, 4) + Lay(0, 4) + LaySigned(requesters, 8) + LaySigned(current, 8) + LaySigned(appServer, 8)
  }

  lemma ServerFields(serverId: int, requesters: int, current: int, appServer: int)
    requires Fits(serverId, 4) && Position(requesters) && Position(current)
    ensures var b := ServerBytes(serverId, requesters, current, appServer);
      Signed(b[..4]) == serverId && Signed(b[8..16]) == requesters && Signed(b[16..24]) == current
  {
    hide LaySigned, Signed;
    var b := ServerBytes(serverId, requesters, current, appServer);
    assert b[..4] == LaySigned(serverId, 4) && b[8..16] == LaySigned(requesters, 8) && b[16..24] == LaySigned(current, 8);
    PositionFits(requesters);
    PositionFits(current);
    SignedLay(serverId, 4);
    SignedLay(requesters, 8);
    SignedLay(current, 8);
  }

  type ServerPlace = Place<ListPlace<RequesterPlace>>

  /** The position of the current requester's record, or 0. */
  function CurrentPosition(s: RequestServer, q: ListPlace<RequesterPlace>): int {
    if s.current.Some? && s.current.value < |q.items| then q.items[s.current.value].at else 0
  }

  /** storeRequestServer. */
  ghost function StoreServer(pad: Padding, d: Disk, s: RequestServer, p: ServerPlace): (Disk, ServerPlace) {
    var (d1, requesters) := PutList(RequesterKind(), pad, d, s.requesters, p.inner);
    var (e, at) := Put(d1, p.at, ServerBytes(s.serverId, requesters.at, CurrentPosition(s, requesters), s.appServer));
    (e, Place(at, requesters))
  }

  /** restoreRequestServer: the current requester is the restored one with the stored position. */
  function RestoreServer(d: Disk, at: int, appServer: int): RequestServer {
    if at <= 0 || at !in d.contents || |d.contents[at]| != 32 then
      RequestServer(0, Listing(0, 0, 0, [], []), None, appServer)
    else
      var b := d.contents[at];
      var list, current := Signed(b[8..16]), Signed(b[16..24]);
      var (header, last) := Ends(d, list);
      RequestServer(Signed(b[..4]), GetList(RestoreRequester, d, list),
                    if current > 0 && last != header && LastHandle(d, list) == current then Some(0) else None, appServer)
  }

  predicate SavableServer(s: RequestServer) {
    && ListFits(Savable, s.requesters) && Fits(s.serverId, 4)
    && (s.current.Some? ==> s.current.value < |s.requesters.items|)
  }

  function KeptServer(s: RequestServer): RequestServer {
    s.(requesters := KeptListing(s.requesters, KeptRequester),
       current := if s.current.Some? && s.current.value == |s.requesters.items| - 1 then Some(0) else None)
  }

  ghost function RequestersKind(): Kind<Listing<Requester>, ListPlace<RequesterPlace>, int> { ListKind(RequesterKind()) }

  ghost predicate ServerOwns(p: ServerPlace, o: int) { o == p.at > 0 || RequestersKind().owns(p.inner, o) }

  /** The strings of the server's requesters and messages. */
  ghost predicate ServerText(p: ServerPlace, o: int) { RequestersKind().text(p.inner, o) }

  /** The server can be stored over what is saved of it: some of its lists, nodes, requesters, messages and
      strings, or none, or all. */
  ghost predicate ServerPlaced(d: Disk, s: RequestServer, p: ServerPlace) {
    && RequestersKind().placed(d, s.requesters, p.inner)
    && (p.at > 0 ==> p.at in d.contents && |d.contents[p.at]| == 32 && !RequestersKind().owns(p.inner, p.at))
  }

  /** The server is on disk as it is. */
  ghost predicate ServerCurrent(d: Disk, s: RequestServer, q: ServerPlace) {
    && RequestersKind().current(d, s.requesters, q.inner)
    && q.at > 0 && q.at in d.contents && !RequestersKind().owns(q.inner, q.at)
    && d.contents[q.at] == ServerBytes(s.serverId, q.inner.at, CurrentPosition(s, q.inner), s.appServer)
  }

  ghost function ServerCost(s: RequestServer): nat { RequestersKind().cost(s.requesters) + 48 }

  lemma RequestersLawful()
    ensures Lawful(RequestersKind()) && Located(RequestersKind())
  {
    hide Lawful, Located, RequesterKind, ListKind;
    RequesterLawful();
    ListLawful(RequesterKind());
  }

  lemma RequestersRead(d: Disk, at: int, l: Listing<Requester>)
    ensures RequestersKind().restore(d, at) == GetList(RestoreRequester, d, at)
    ensures RequestersKind().kept(l) == KeptListing(l, KeptRequester)
    ensures RequestersKind().fits(l) == ListFits(Savable, l)
  {
    hide RequesterKind, RestoreRequester, KeptRequester, Savable, GetList, KeptListing, LastHandle, ListFits;
    RequesterReads(d, LastHandle(d, at), NO_REQUESTER);
    SameRead(RequesterKind().restore, RestoreRequester, d, at);
    forall i | 0 <= i < |l.items|
      ensures RequesterKind().kept(l.items[i]) == KeptRequester(l.items[i])
      ensures RequesterKind().fits(l.items[i]) == Savable(l.items[i])
    {
      RequesterReads(d, at, l.items[i]);
    }
    SameKept(RequesterKind().kept, KeptRequester, l);
    SameFits(RequesterKind().fits, Savable, l);
  }

  lemma RequestersRef(pad: Padding, d: Disk, l: Listing<Requester>, p: ListPlace<RequesterPlace>)
    ensures RequestersKind().store(pad, d, l, p) == PutList(RequesterKind(), pad, d, l, p)
    ensures RequestersKind().ref(p) == p.at
  {
    hide RequesterKind, PutList;
  }

  /** Where the list of requesters is, its last node, and the current requester. */
  lemma RequestersOnDisk(d: Disk, s: RequestServer, q: ListPlace<RequesterPlace>)
    requires Sane(d) && d.end < BOUND && SavableServer(s) && RequestersKind().current(d, s.requesters, q)
    ensures Position(q.at)
    ensures Ends(d, q.at).0 == Ends(d, q.at).1 <==> s.requesters.items == []
    ensures var current, n := CurrentPosition(s, q), |s.requesters.items|;
      && 0 <= current < d.end && (current > 0 <==> s.current.Some?)
      && (s.current.Some? ==> (current == LastHandle(d, q.at) <==> s.current.value == n - 1))
  {
    hide Lawful, Sane, RequesterKind, Ends, DataOf, Savable, Located, ListFits, ListCurrent, IdOf, Fits;
    var a, l := RequesterKind(), s.requesters;
    RequesterLawful();
    RequestersRead(d, q.at, l);
    FitsAll(a, l);
    HasRecord(a, d, l, q);
    SaneKeys(d);
    EndsRead(a, d, l, q);
    if l.items != [] {
      LastRead(a, d, l, q);
      LastCurrent(a, d, l, q);
      forall i | 0 <= i < |l.items|
        ensures a.ref(q.items[i]) == q.items[i].at
      {
        RequesterRef(q.items[i]);
      }
    }
  }

  lemma FitsAll<T(!new), Q(!new)>(a: Kind<T, Q, int>, l: Listing<T>)
    requires ListFits(a.fits, l)
    ensures Proper(l) && AllFit(a.fits, l.items)
  {
    hide Proper;
  }

  /** What is on disk of a current server is read back: its requesters as a list is, and the current one if
      it is the last. */
  lemma ServerRead(d: Disk, s: RequestServer, q: ServerPlace)
    requires Sane(d) && d.end < BOUND && SavableServer(s) && ServerCurrent(d, s, q)
    ensures RestoreServer(d, q.at, s.appServer) == KeptServer(s)
  {
    hide Lawful, Sane, RequesterKind, Signed, ServerBytes, Fits, Ends, GetList, KeptListing, KeptRequester, Savable,
         RestoreRequester, Located, RequestersKind, ListFits, LastHandle, CurrentPosition;
    var l := s.requesters;
    RequestersLawful();
    RequestersRead(d, q.inner.at, l);
    RequestersRef(NoPadding(), d, l, q.inner);
    UseReads(RequestersKind(), d, l, q.inner);
    RequestersOnDisk(d, s, q.inner);
    var current := CurrentPosition(s, q.inner);
    ServerFields(s.serverId, q.inner.at, current, s.appServer);
  }

  /** Storing a request server over whatever is saved of it rewrites no record but its own, appends at most
      its cost, and leaves it on disk as it is; what is read back is exactly what is kept of it. */
  lemma ServerStored(pad: Padding, d: Disk, s: RequestServer, p: ServerPlace)
    requires Sane(d) && SavableServer(s) && ServerPlaced(d, s, p) && d.end + ServerCost(s) < BOUND
    ensures var (e, q) := StoreServer(pad, d, s, p);
      && Spares(d, e, ServerOwns, p) && e.end <= d.end + ServerCost(s)
      && ServerCurrent(e, s, q) && ServerPlaced(e, s, q)
      && RestoreServer(e, q.at, s.appServer) == KeptServer(s)
  {
    hide Lawful, Sane, Located, RequestersKind, SavableServer, ServerBytes, Put, Spares, RestoreServer, KeptServer,
         CurrentPosition, Agrees, Newer;
    var a := RequestersKind();
    RequestersLawful();
    SavableFits(s);
    RequestersRead(d, 0, s.requesters);
    RequestersRef(pad, d, s.requesters, p.inner);
    UseStores(a, pad, d, s.requesters, p.inner);
    UseOwned(a, d, s.requesters, p.inner);
    var (d1, requesters) := a.store(pad, d, s.requesters, p.inner);
    SparesSane(d, d1, a.owns, p.inner);
    SparesKeeps(d, d1, a.owns, p.inner);
    SaneKeys(d);
    SaneKeys(d1);
    NewerAt(a.owns, p.inner, requesters, d.end, p.at);
    var b := ServerBytes(s.serverId, requesters.at, CurrentPosition(s, requesters), s.appServer);
    PutSpares(d1, p.at, b);
    var (e, at) := Put(d1, p.at, b);
    var q := Place(at, requesters);
    SparesSane(d1, e, IsAt, p.at);
    OthersAgree(d1, e, IsAt, p.at, a.owns, requesters);
    UseCurrentStays(a, d1, e, s.requesters, requesters);
    UseCurrent(a, e, s.requesters, requesters);
    SparesTwice(d, d1, e, a.owns, p.inner, IsAt, p.at, ServerOwns, p);
    ServerRead(e, s, q);
  }

  lemma SavableFits(s: RequestServer)
    requires SavableServer(s)
    ensures ListFits(Savable, s.requesters)
  {
  }

  lemma NewerAt<Q>(owns: (Q, int) -> bool, p: Q, q: Q, end: int, o: int)
    requires Newer(owns, p, q, end)
    ensures owns(q, o) ==> owns(p, o) || end <= o
  {
  }

  /** Storing a server that has not changed appends nothing, moves nothing, and changes nothing but the
      padding of strings, which still read the same. */
  lemma ServerStoredAgain(pad: Padding, d: Disk, s: RequestServer, q: ServerPlace)
    requires Sane(d) && d.end < BOUND && SavableServer(s) && ServerCurrent(d, s, q)
    ensures var (e, q') := StoreServer(pad, d, s, q);
      && q' == q && Quiet(d, e, ServerText, q) && ServerCurrent(e, s, q)
      && RestoreServer(e, q.at, s.appServer) == RestoreServer(d, q.at, s.appServer)
  {
    hide Lawful, Sane, Located, RequestersKind, SavableServer, ServerBytes, Put, RestoreServer, KeptServer,
         CurrentPosition, Quiet;
    var a := RequestersKind();
    RequestersLawful();
    SavableFits(s);
    RequestersRead(d, 0, s.requesters);
    RequestersRef(pad, d, s.requesters, q.inner);
    UseRepeats(a, pad, d, s.requesters, q.inner);
    var e := a.store(pad, d, s.requesters, q.inner).0;
    QuietKeys(d, e, a.text, q.inner);
    QuietKeeps(d, e, a.text, q.inner);
    PutAgain(e, q.at, ServerBytes(s.serverId, q.inner.at, CurrentPosition(s, q.inner), s.appServer));
    QuietAs(d, e, a.text, q.inner, ServerText, q);
    ServerRead(d, s, q);
    ServerRead(e, s, q);
  }

  // ----- when nothing is lost -----

  predicate TextFits(t: Chars, maximum: nat) { t == None || |t.value| < maximum }

  predicate MicroFits(m: Micro) { TextFits(m.cmd, CMD_SIZE) && TextFits(m.extraParam, EXTRAPARAM_SIZE) }

  /** The strings are within the declared sizes and at most one message waits. */
  predicate RequesterFits(r: Requester) {
    && TextFits(r.host, HOST_SIZE) && TextFits(r.port, PORT_SIZE)
    && TextFits(r.protocol, PROTOCOL_SIZE) && TextFits(r.version, VERSION_SIZE)
    && |r.messages.items| <= 1
    && forall m <- r.messages.items :: MicroFits(m)
  }

  lemma KeptMicroSame(m: Micro)
    ensures KeptMicro(m) == m <==> MicroFits(m)
  {
  }

  lemma KeptListingSame<T(!new)>(l: Listing<T>, kept: T -> T)
    requires |l.ids| == |l.items|
    ensures KeptListing(l, kept) == l <==> |l.items| <= 1 && forall x <- l.items :: kept(x) == x
  {
    if |l.items| == 1 {
      assert l.ids == [l.ids[0]];
      assert l.items == [l.items[0]];
      var k := KeptListing(l, kept);
      assert k.items[0] == kept(l.items[0]);
      if kept(l.items[0]) == l.items[0] {
        assert forall x <- l.items :: x == l.items[0];
      } else {
        assert l.items[0] in l.items;
      }
    }
  }

  lemma KeptRequesterSame(r: Requester)
    requires |r.messages.ids| == |r.messages.items|
    ensures KeptRequester(r) == r <==> RequesterFits(r)
  {
    hide KeptListing, KeptMicro, MicroFits;
    KeptListingSame(r.messages, KeptMicro);
    forall m | m in r.messages.items
      ensures KeptMicro(m) == m <==> MicroFits(m)
    {
      KeptMicroSame(m);
    }
  }

  /** The server is restored as it was saved. */
  predicate NothingLost(s: RequestServer) {
    |s.requesters.items| <= 1 && forall r <- s.requesters.items :: RequesterFits(r)
  }

  lemma KeptServerSame(s: RequestServer)
    requires SavableServer(s)
    ensures KeptServer(s) == s <==> NothingLost(s)
  {
    hide KeptListing, KeptRequester, RequesterFits, Fits, Savable;
    KeptListingSame(s.requesters, KeptRequester);
    forall r | r in s.requesters.items
      ensures KeptRequester(r) == r <==> RequesterFits(r)
    {
      SavableProper(r, s);
      KeptRequesterSame(r);
    }
  }

  lemma SavableProper(r: Requester, s: RequestServer)
    requires SavableServer(s) && r in s.requesters.items
    ensures |r.messages.ids| == |r.messages.items|
  {
    hide Storable, Fits;
    var i :| 0 <= i < |s.requesters.items| && s.requesters.items[i] == r;
    assert Savable(s.requesters.items[i]);
  }

  /** A request server survives being stored, over whatever was saved of it, and read back exactly when it
      has at most one requester, with at most one message, and no string is too long. */
  lemma ServerSurvives(pad: Padding, d: Disk, s: RequestServer, p: ServerPlace)
    requires Sane(d) && SavableServer(s) && ServerPlaced(d, s, p) && d.end + ServerCost(s) < BOUND
    ensures var (e, q) := StoreServer(pad, d, s, p);
      RestoreServer(e, q.at, s.appServer) == s <==> NothingLost(s)
  {
    hide StoreServer, RestoreServer, KeptServer, NothingLost, SavableServer, ServerPlaced, ServerCurrent, Spares, Sane;
    ServerStored(pad, d, s, p);
    KeptServerSame(s);
  }
}
