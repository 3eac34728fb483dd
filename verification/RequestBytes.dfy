/** Queued messages and requesters on the bytes of the store file (app_queue/request.c): the handle that is
    passed to storeList for messages, and the requester around it, do what the values say. */
module RequestBytes {
  import opened Text
  import opened Octets
  import opened Lists
  import opened Stores
  import opened Disks
  import opened Kinds
  import opened RingImage
  import opened Listings
  import opened ListStores
  import opened RequestStore

  // ----- one record on the bytes -----

  /** The payload of the record at `at`, as long as its header says. */
  function PayloadAt(bytes: seq<byte>, at: int): seq<byte> {
    if at < 0 || at + 16 > |bytes| then [] else
      var n := Unsigned(bytes[at..at + 16][12..]);
      if at + 16 + n > |bytes| then [] else bytes[at + 16..at + 16 + n]
  }

  /** store. */
  function StoreIn(bytes: seq<byte>, at: int, data: seq<byte>): (seq<byte>, int) {
    if data == [] then (bytes, -1)
    else if at <= 0 then (bytes + Record(|bytes|, Tile(USING, data)), |bytes|)
    else if |PayloadAt(bytes, at)| != |data| then (bytes, -2)
    else (Overlay(bytes, at + 16, data), at)
  }

  /** storeString, over a record with room enough or at the end. */
  function StoreTextIn(pad: Padding, bytes: seq<byte>, at: int, t: Chars, maximum: nat): (seq<byte>, int) {
    if Disks.Kept(t, maximum) == None then (bytes, -1)
    else if at <= 0 then
      StoreIn(bytes, at, Padded(t.value, PadBytes(pad, |bytes|, maximum), maximum))
    else
      var n := |PayloadAt(bytes, at)|;
      if n < maximum then (bytes, -1) else StoreIn(bytes, at, Padded(t.value, PadBytes(pad, at, n), n))
  }

  /** storeMicroNetMessage. */
  function StoreMicroIn(pad: Padding, bytes: seq<byte>, m: Micro, p: MicroPlace): (seq<byte>, MicroPlace) {
    var refs := if p.at > 0 then RefsOfMicro(PayloadAt(bytes, p.at)) else (0, (0, (0, 0)));
    var (b1, cmd) := StoreTextIn(pad, bytes, refs.0, m.cmd, CMD_SIZE);
    var (b2, extraParam) := StoreTextIn(pad, b1, refs.1.0, m.extraParam, EXTRAPARAM_SIZE);
    var (b3, data) := StoreIn(b2, refs.1.1.0, m.data);
    var (b, at) := StoreIn(b3, p.at, MicroBytes(m.id, cmd, extraParam, data, |m.data|, m.errcode));
    (b, Place(at, (cmd, (extraParam, (data, |m.data|)))))
  }

  lemma PayloadIs(bytes: seq<byte>, tiles: seq<Tile>, at: int)
    requires Tiled(bytes, tiles) && at in View(tiles)
    ensures 0 <= at && at + 16 + |View(tiles)[at]| <= |bytes| && PayloadAt(bytes, at) == View(tiles)[at]
  {
    hide Laid, View, Size, Unsigned;
    var k := RecordOf(tiles, at);
    FieldsOnDisk(bytes, tiles, k);
  }

  lemma StoreInIs(bytes: seq<byte>, tiles: seq<Tile>, at: int, data: seq<byte>)
    requires Tiled(bytes, tiles) && (at <= 0 || at in View(tiles))
    requires |data| < 0x8000_0000 && |bytes| + 16 + |data| < Stores.LIMIT
    ensures var (d, q) := Put(DiskAs(bytes, tiles), at, data);
      LaidAs(StoreIn(bytes, at, data).0, d) && StoreIn(bytes, at, data).1 == q
  {
    hide Laid, View, Size, Tiled, Record, Overlay, PayloadAt;
    if at > 0 {
      PayloadIs(bytes, tiles, at);
    }
    if data == [] || (at > 0 && |PayloadAt(bytes, at)| != |data|) {
      assert LaidAs(bytes, DiskAs(bytes, tiles));
    } else if at <= 0 {
      AppendKeepsTiling(bytes, tiles, Tile(USING, data));
      assert DiskAs(bytes + Record(|bytes|, Tile(USING, data)), tiles + [Tile(USING, data)]) ==
             Put(DiskAs(bytes, tiles), at, data).0;
    } else {
      var k := RecordOf(tiles, at);
      OverwriteKeepsTiling(bytes, tiles, k, data);
      ChangedInPlace(tiles, k, data);
      assert DiskAs(Overlay(bytes, at + 16, data), Changed(tiles, k, data)) == Put(DiskAs(bytes, tiles), at, data).0;
    }
  }

  lemma StoreTextInIs(pad: Padding, bytes: seq<byte>, tiles: seq<Tile>, at: int, t: Chars, maximum: nat)
    requires Tiled(bytes, tiles) && maximum < 0x8000_0000 && |bytes| + 16 + maximum < BOUND
    requires at > 0 ==> at in View(tiles) && |View(tiles)[at]| >= maximum
    ensures var (d, q) := PutText(pad, DiskAs(bytes, tiles), at, t, maximum);
      LaidAs(StoreTextIn(pad, bytes, at, t, maximum).0, d) && StoreTextIn(pad, bytes, at, t, maximum).1 == q
  {
    hide View, Tiled, Padded, PayloadAt, StoreIn, Put;
    if Disks.Kept(t, maximum) == None {
      assert LaidAs(bytes, DiskAs(bytes, tiles));
    } else {
      var n := if at <= 0 then maximum else |View(tiles)[at]|;
      if at > 0 {
        PayloadIs(bytes, tiles, at);
        PayloadSound(bytes, tiles, at);
      }
      var b := Padded(t.value, PadBytes(pad, if at <= 0 then |bytes| else at, n), n);
      TextIsPut(pad, DiskAs(bytes, tiles), at, t, maximum);
      StoreInIs(bytes, tiles, at, b);
    }
  }

  lemma PayloadSound(bytes: seq<byte>, tiles: seq<Tile>, at: int)
    requires Tiled(bytes, tiles) && at in View(tiles)
    ensures 0 < |View(tiles)[at]| < 0x8000_0000
  {
    hide Laid, View, Size;
    var k := RecordOf(tiles, at);
    assert Sound(tiles[k]);
  }

  /** Where no record is abandoned a string is stored as its padded bytes. */
  lemma TextIsPut(pad: Padding, d: Disk, at: int, t: Chars, maximum: nat)
    requires Disks.Kept(t, maximum) != None && (at > 0 ==> at in d.contents && |d.contents[at]| >= maximum)
    ensures var n := if at <= 0 then maximum else |d.contents[at]|;
      PutText(pad, d, at, t, maximum) == Put(d, at, Padded(t.value, PadBytes(pad, if at <= 0 then d.end else at, n), n))
  {
    hide Padded;
  }

  // ----- a message -----

  /** Records are added, and none goes or changes its length. */
  ghost predicate Grows(d: Disk, e: Disk, room: nat) {
    && d.end <= e.end <= d.end + room
    && forall o <- d.contents :: o in e.contents && |e.contents[o]| == |d.contents[o]|
  }

  lemma GrowsTwice(d: Disk, e: Disk, f: Disk, room: nat, more: nat)
    requires Grows(d, e, room) && Grows(e, f, more)
    ensures Grows(d, f, room + more)
  {
  }

  lemma PutGrows(d: Disk, at: int, b: seq<byte>)
    requires Sane(d)
    ensures Sane(Put(d, at, b).0) && Grows(d, Put(d, at, b).0, 16 + |b|)
  {
  }

  lemma TextGrows(pad: Padding, d: Disk, at: int, t: Chars, maximum: nat)
    requires Sane(d) && (at > 0 ==> at in d.contents && |d.contents[at]| >= maximum)
    ensures Sane(PutText(pad, d, at, t, maximum).0) && Grows(d, PutText(pad, d, at, t, maximum).0, 16 + maximum)
  {
    hide Padded;
  }

  lemma LaidSane(bytes: seq<byte>, tiles: seq<Tile>)
    requires Tiled(bytes, tiles)
    ensures Sane(DiskAs(bytes, tiles))
  {
    hide Laid, View, Size;
    forall o | o in View(tiles)
      ensures 0 < o < |bytes|
    {
      var k := RecordOf(tiles, o);
      FieldsOnDisk(bytes, tiles, k);
    }
  }

  /** Where the parts of a message may go. */
  lemma MicroSites(d: Disk, m: Micro, p: MicroPlace)
    requires MicroKind().placed(d, m, p)
    ensures var refs := MicroAtHand(d, p.at);
      && (refs.0 > 0 ==> refs.0 in d.contents && |d.contents[refs.0]| >= CMD_SIZE)
      && (refs.1.0 > 0 ==> refs.1.0 in d.contents && |d.contents[refs.1.0]| >= EXTRAPARAM_SIZE)
      && (refs.1.1.0 > 0 ==> refs.1.1.0 in d.contents)
      && (p.at > 0 ==> p.at in d.contents && |d.contents[p.at]| == 40)
    ensures MicroKind().cost(m) == 16 + CMD_SIZE + (16 + EXTRAPARAM_SIZE + (16 + |m.data|)) + 16 + 40
  {
    hide RefsOfMicro, EitherOwns, StartsAt, IsAt;
    var rest := Both(TextKind(EXTRAPARAM_SIZE), BlobKind());
    assert Found(MicroLayout(), d, p.at) == MicroAtHand(d, p.at);
    assert MicroParted().reload(p.inner, MicroAtHand(d, p.at)) == p.inner;
    assert rest.placed(d, (m.extraParam, m.data), p.inner.1);
  }

  /** The handle for messages, on the bytes, is the message on values. */
  lemma MicroInIs(pad: Padding, bytes: seq<byte>, tiles: seq<Tile>, m: Micro, p: MicroPlace)
    requires Tiled(bytes, tiles) && MicroKind().placed(DiskAs(bytes, tiles), m, p)
    requires Storable(m) && |bytes| + MicroKind().cost(m) < BOUND
    ensures var (e, q) := StoreMicro(pad, DiskAs(bytes, tiles), m, p);
      LaidAs(StoreMicroIn(pad, bytes, m, p).0, e) && StoreMicroIn(pad, bytes, m, p).1 == q
  {
    hide MicroKind, Tiled, View, PutText, Put, StoreTextIn, StoreIn, RefsOfMicro, MicroBytes, LaidAs, Sane, Grows, Fits,
         PayloadAt;
    var d := DiskAs(bytes, tiles);
    LaidSane(bytes, tiles);
    MicroSites(d, m, p);
    MicroRefsIn(bytes, tiles, p);
    DataSmall(m);
    var refs := MicroAtHand(d, p.at);
    var (d1, cmd) := PutText(pad, d, refs.0, m.cmd, CMD_SIZE);
    var (d2, extraParam) := PutText(pad, d1, refs.1.0, m.extraParam, EXTRAPARAM_SIZE);
    var (d3, data) := Put(d2, refs.1.1.0, m.data);
    StoreTextInIs(pad, bytes, tiles, refs.0, m.cmd, CMD_SIZE);
    TextGrows(pad, d, refs.0, m.cmd, CMD_SIZE);
    var b1 := StoreTextIn(pad, bytes, refs.0, m.cmd, CMD_SIZE).0;
    var t1 := TilesOf(b1, d1);
    GrowsAt(d, d1, 16 + CMD_SIZE, refs.1.0);
    StoreTextInIs(pad, b1, t1, refs.1.0, m.extraParam, EXTRAPARAM_SIZE);
    TextGrows(pad, d1, refs.1.0, m.extraParam, EXTRAPARAM_SIZE);
    GrowsTwice(d, d1, d2, 16 + CMD_SIZE, 16 + EXTRAPARAM_SIZE);
    var b2 := StoreTextIn(pad, b1, refs.1.0, m.extraParam, EXTRAPARAM_SIZE).0;
    var t2 := TilesOf(b2, d2);
    GrowsAt(d, d2, 32 + CMD_SIZE + EXTRAPARAM_SIZE, refs.1.1.0);
    StoreInIs(b2, t2, refs.1.1.0, m.data);
    PutGrows(d2, refs.1.1.0, m.data);
    GrowsTwice(d, d2, d3, 32 + CMD_SIZE + EXTRAPARAM_SIZE, 16 + |m.data|);
    var b3 := StoreIn(b2, refs.1.1.0, m.data).0;
    var t3 := TilesOf(b3, d3);
    GrowsAt(d, d3, 48 + CMD_SIZE + EXTRAPARAM_SIZE + |m.data|, p.at);
    StoreInIs(b3, t3, p.at, MicroBytes(m.id, cmd, extraParam, data, |m.data|, m.errcode));
  }

  /** The records of a file that lies as `d`. */
  lemma TilesOf(bytes: seq<byte>, d: Disk) returns (tiles: seq<Tile>)
    requires LaidAs(bytes, d)
    ensures Tiled(bytes, tiles) && DiskAs(bytes, tiles) == d
  {
    hide Tiled, View;
    tiles :| Tiled(bytes, tiles) && DiskAs(bytes, tiles) == d;
  }

  lemma GrowsAt(d: Disk, e: Disk, room: nat, o: int)
    requires Grows(d, e, room)
    ensures d.end <= e.end <= d.end + room
    ensures o in d.contents ==> o in e.contents && |e.contents[o]| == |d.contents[o]|
  {
  }

  lemma MicroRefsIn(bytes: seq<byte>, tiles: seq<Tile>, p: MicroPlace)
    requires Tiled(bytes, tiles) && (p.at > 0 ==> p.at in View(tiles))
    ensures (if p.at > 0 then RefsOfMicro(PayloadAt(bytes, p.at)) else (0, (0, (0, 0)))) ==
            MicroAtHand(DiskAs(bytes, tiles), p.at)
  {
    hide Tiled, View, RefsOfMicro, PayloadAt;
    if p.at > 0 {
      PayloadIs(bytes, tiles, p.at);
    }
  }

  lemma DataSmall(m: Micro)
    requires Storable(m)
    ensures |m.data| < 0x8000_0000
  {
    hide NoZero;
    assert Power(4) == 0x1_0000_0000 by { Powers(); }
  }

  // ----- the messages of a requester -----

  /** Where `x` first is in the list's data. */
  function PlaceOf(order: seq<Datum>, x: Datum): (k: nat)
    ensures k <= |order| && (k < |order| ==> order[k] == x)
    ensures forall j :: 0 <= j < k ==> order[j] != x
  {
    if order == [] || order[0] == x then 0 else 1 + PlaceOf(order[1..], x)
  }

  /** The data of the list are messages, each one once. */
  predicate Ordered(order: seq<Datum>, items: seq<Micro>) {
    && |order| == |items|
    && (forall i :: 0 <= i < |order| ==> order[i] != 0)
    && (forall i, j :: 0 <= i < j < |order| ==> order[i] != order[j])
  }

  /** The handle that storeRequester passes to storeList: messages by reference, and where they lie. */
  function MessageHandle(pad: Padding, order: seq<Datum>, items: seq<Micro>): StoreHandle<seq<MicroPlace>> {
    (bytes: seq<byte>, mem: seq<MicroPlace>, x: Datum) =>
      var k := PlaceOf(order, x);
      if k < |items| && k < |mem| then
        var (b, q) := StoreMicroIn(pad, bytes, items[k], mem[k]);
        (b, mem[k := q], q.at)
      else (bytes, mem, 0)
  }

  lemma MessageFollows(pad: Padding, order: seq<Datum>, items: seq<Micro>, bytes: seq<byte>, tiles: seq<Tile>,
                       mem: seq<MicroPlace>, k: nat)
    requires Ordered(order, items) && AllFit(Storable, items) && 0 < k <= |items|
    requires Tiled(bytes, tiles) && ItemsSound(MicroKind(), items, DiskAs(bytes, tiles), mem, k)
    requires |bytes| + RestFrom(MicroKind().cost, items, k) < BOUND
    ensures Follows(MessageHandle(pad, order, items), CargoOf(MicroKind(), pad, items), [0] + order, bytes, tiles, mem, k)
  {
    hide MicroKind, Tiled, View, StoreMicroIn, StoreMicro, Storable, Kinds.Apart, LaidAs;
    var x := ([0] + order)[k];
    assert x == order[k - 1] && PlaceOf(order, x) == k - 1;
    ItemsSize(MicroKind(), items, DiskAs(bytes, tiles), mem, k);
    assert MicroKind().placed(DiskAs(bytes, tiles), items[k - 1], mem[k - 1]) by {
      assert mem[k - 1] == mem[k - 1];
    }
    RestStep(MicroKind().cost, items, k);
    MicroInIs(pad, bytes, tiles, items[k - 1], mem[k - 1]);
    MicroIsKind(pad, DiskAs(bytes, tiles), items[k - 1], mem[k - 1]);
    MicroIsKind(pad, DiskAs(bytes, tiles), items[k - 1], StoreMicro(pad, DiskAs(bytes, tiles), items[k - 1], mem[k - 1]).1);
  }

  /** Saving messages on the bytes does what saving them on values says. */
  lemma MessagesHandled(pad: Padding, order: seq<Datum>, items: seq<Micro>)
    requires Ordered(order, items) && AllFit(Storable, items)
    ensures Handles(MessageHandle(pad, order, items), CargoOf(MicroKind(), pad, items), [0] + order)
  {
    hide MicroKind, Tiled, View, MessageHandle, Follows, StepLaw, OwnLaw, Storable, ItemsSound, Ordered, RestFrom, Lawful;
    var c, data := CargoOf(MicroKind(), pad, items), [0] + order;
    MicroLawful();
    MicroFitsAll(items);
    ItemsStepLaw(MicroKind(), pad, items);
    ItemsOwnLaw(MicroKind(), pad, items);
    OrderedSize(order, items);
    forall bytes, tiles, m, k |
      0 < k < |data| && Tiled(bytes, tiles) && c.sound(DiskAs(bytes, tiles), m, k) && |bytes| + c.rest(k) < BOUND
      ensures Follows(MessageHandle(pad, order, items), c, data, bytes, tiles, m, k)
    {
      MessageFollows(pad, order, items, bytes, tiles, m, k);
    }
  }

  lemma OrderedSize(order: seq<Datum>, items: seq<Micro>)
    requires Ordered(order, items)
    ensures |order| == |items|
  {
  }

  lemma MicroFitsAll(items: seq<Micro>)
    requires AllFit(Storable, items)
    ensures AllFit(MicroKind().fits, items)
  {
    hide MicroKind, Storable;
    forall i | 0 <= i < |items|
      ensures MicroKind().fits(items[i])
    {
      MicroReads(Disk(map[], 1), 0, items[i]);
      assert Storable(items[i]);
    }
  }

  /** A list object as a value, with these things in it. */
  ghost function ListingOf(list: List, items: seq<Micro>): Listing<Micro>
    reads list, list.ring
    requires |list.ring| > 0
  {
    Listing(list.listId, list.count, list.maxCount, IdsOf(list.ring)[1..], items)
  }

  /** Where it lies. */
  ghost function PlaceIn(file: StoreFile, list: List, mem: seq<MicroPlace>): ListPlace<MicroPlace>
    reads file`bytes, file`tiles, list, list.ring
  {
    ListPlace(list.storePosition, Snapshot(file, list.ring).pos, mem)
  }

  lemma RingOf(list: List, order: seq<Datum>, items: seq<Micro>)
    requires list.Loose() && list.header.id == -1 && DataIn(list.ring)[1..] == order
    ensures DataIn(list.ring) == [0] + order && RingIds(ListingOf(list, items)) == IdsOf(list.ring)
  {
    hide Ring;
    assert DataIn(list.ring)[0] == 0 && IdsOf(list.ring)[0] == -1;
  }

  lemma MessagesFit(l: Listing<Micro>)
    requires ListFits(Storable, l)
    ensures AllFit(Storable, l.items) && |l.ids| == |l.items|
  {
    hide Storable, Fits;
  }

  lemma OwnRecord(d: Disk, l: Listing<Micro>, p: ListPlace<MicroPlace>, pad: Padding)
    requires ListPlaced(MicroKind(), d, l, p)
    ensures |p.pos| == |l.ids| + 1
    ensures p.at > 0 ==>
      && p.at in d.contents && |d.contents[p.at]| == 24
      && !CargoOf(MicroKind(), pad, l.items).owns(p.items, p.at)
  {
    hide MicroKind, ItemsSound, Sited, NodesClear, SomeOwns;
    CargoOwns(MicroKind(), pad, l.items, p.items, p.at);
  }

  /** storeList with storeMicroNetMessage, on the ring and the bytes, is saving the list on values. `order`
      are the messages by reference. */
  method StoreMessages(file: StoreFile, list: List, order: seq<Datum>, items: seq<Micro>, mem: seq<MicroPlace>,
                       pad: Padding)
    returns (position: int, m: seq<MicroPlace>)
    requires list.Loose() && list.header.id == -1 && file.Valid()
    requires DataIn(list.ring)[1..] == order && Ordered(order, items) && ListFits(Storable, ListingOf(list, items))
    requires ListPlaced(MicroKind(), DiskIn(file), ListingOf(list, items), PlaceIn(file, list, mem))
    requires |file.bytes| + ListCost(MicroKind().cost, ListingOf(list, items)) < BOUND
    modifies file, list`storePosition, list.ring`storePosition
    ensures list.Loose() && file.Valid() && ListingOf(list, items) == old(ListingOf(list, items))
    ensures position == list.storePosition
    ensures (DiskIn(file), PlaceIn(file, list, m)) ==
      PutList(MicroKind(), pad, old(DiskIn(file)), ListingOf(list, items), old(PlaceIn(file, list, mem)))
  {
    hide MicroKind, ListPlaced, Ordered, Ring, StoreFile.Valid, StoreFile.Contents, Handles, Underway, MessageHandle,
         PutRing, CargoOf, Storable, Unchanged, ListFits;
    ghost var l, c, d := ListingOf(list, items), CargoOf(MicroKind(), pad, items), DiskIn(file);
    ghost var p := PlaceIn(file, list, mem);
    RingOf(list, order, items);
    MessagesFit(l);
    MessagesHandled(pad, order, items);
    ReadyToSave(MicroKind(), pad, d, l, p);
    CargoRest(MicroKind(), pad, items, 1);
    UnsavedFew(p.pos);
    OwnRecord(d, l, p, pad);
    assert Ringed(d, p) == Now(file, list.ring, mem);
    position, m := StoreList(list, file, MessageHandle(pad, order, items), mem, c);
  }

  // ----- a requester -----

  method StoreCharsAt(file: StoreFile, at: int, t: Chars, maximum: nat, pad: Padding) returns (position: int)
    requires file.Valid() && NoZero(t) && (at > 0 ==> at in file.Contents() && |file.Contents()[at]| >= maximum)
    requires maximum < 0x8000_0000 && |file.bytes| + 16 + maximum < Stores.LIMIT
    modifies file
    ensures file.Valid() && (DiskIn(file), position) == PutText(pad, old(DiskIn(file)), at, t, maximum)
  {
    hide StoreFile.Valid, StoreFile.Contents, Padded;
    if t.None? {
      position := -1;
    } else {
      position := StoreTextAt(file, at, t.value, maximum, pad);
    }
  }

  /** Where a string may go. */
  ghost predicate Site(d: Disk, at: int, maximum: nat) {
    at > 0 ==> at in d.contents && |d.contents[at]| >= maximum
  }

  lemma SiteGrows(d: Disk, e: Disk, room: nat, at: int, maximum: nat)
    requires Grows(d, e, room) && Site(d, at, maximum)
    ensures Site(e, at, maximum)
  {
  }

  /** Where a requester lies, as its record and its list say. */
  ghost function RequesterIn(file: StoreFile, list: List, mem: seq<MicroPlace>, at: int): RequesterPlace
    reads file`bytes, file`tiles, list, list.ring
  {
    Place(at, (PlaceIn(file, list, mem), RequesterAtHand(DiskIn(file), at).1))
  }

  ghost predicate StringSites(d: Disk, s: (int, (int, (int, int)))) {
    Site(d, s.0, HOST_SIZE) && Site(d, s.1.0, PORT_SIZE) && Site(d, s.1.1.0, PROTOCOL_SIZE) && Site(d, s.1.1.1, VERSION_SIZE)
  }

  lemma StringsSited(d: Disk, w: (Chars, (Chars, (Chars, Chars))), s: (int, (int, (int, int))))
    requires StringsKind().placed(d, w, s)
    ensures StringSites(d, s)
  {
  }

  /** What is left to do once the messages are saved can be done. */
  lemma AfterMessages(pad: Padding, d: Disk, r: Requester, p: RequesterPlace)
    requires Sane(d) && Savable(r) && RequesterKind().placed(d, r, p) && d.end + RequesterKind().cost(r) < BOUND
    ensures ListPlaced(MicroKind(), d, r.messages, p.inner.0) && d.end + ListCost(MicroKind().cost, r.messages) < BOUND
    ensures p.at > 0 ==> p.at in d.contents && |d.contents[p.at]| == 64
    ensures p.inner.1 == RequesterAtHand(d, p.at).1
    ensures var (d1, messages) := PutList(MicroKind(), pad, d, r.messages, p.inner.0);
      && Sane(d1) && StringSites(d1, p.inner.1)
      && d1.end + 64 + HOST_SIZE + PORT_SIZE + PROTOCOL_SIZE + VERSION_SIZE + 80 < BOUND
      && (p.at > 0 ==> p.at in d1.contents && |d1.contents[p.at]| == 64)
  {
    hide MicroKind, ListPlaced, PutList, Sane, Lawful, StringsKind, Agrees, Spares, Storable, Fits, NoZero, RefsOfRequester,
         Located, ListFits, StringSites, ListOwns;
    var a, b := ListKind(MicroKind()), StringsKind();
    MicroLawful();
    ListLawful(MicroKind());
    StringsLawful();
    StringsCost(PartsOfRequester(r).1);
    MessagesRead(d, 0, r.messages);
    PartsPlaced(d, r, p);
    UseStores(a, pad, d, r.messages, p.inner.0);
    var (d1, messages) := a.store(pad, d, r.messages, p.inner.0);
    SparesSane(d, d1, a.owns, p.inner.0);
    SparesKeeps(d, d1, a.owns, p.inner.0);
    OthersAgree(d, d1, a.owns, p.inner.0, b.owns, p.inner.1);
    UsePlacedStays(b, d, d1, PartsOfRequester(r).1, p.inner.1);
    StringsSited(d1, PartsOfRequester(r).1, p.inner.1);
  }

  lemma StringsCost(w: (Chars, (Chars, (Chars, Chars))))
    ensures StringsKind().cost(w) == 64 + HOST_SIZE + PORT_SIZE + PROTOCOL_SIZE + VERSION_SIZE
  {
  }

  lemma PartsPlaced(d: Disk, r: Requester, p: RequesterPlace)
    requires RequesterKind().placed(d, r, p)
    ensures ListKind(MicroKind()).placed(d, r.messages, p.inner.0)
    ensures StringsKind().placed(d, PartsOfRequester(r).1, p.inner.1)
    ensures forall o :: !(ListKind(MicroKind()).owns(p.inner.0, o) && StringsKind().owns(p.inner.1, o))
    ensures p.at > 0 ==>
      && p.at in d.contents && |d.contents[p.at]| == 64 && !ListKind(MicroKind()).owns(p.inner.0, p.at)
    ensures p.inner.1 == RequesterAtHand(d, p.at).1
    ensures RequesterKind().cost(r) == ListKind(MicroKind()).cost(r.messages) + StringsKind().cost(PartsOfRequester(r).1) + 80
  {
    hide MicroKind, StringsKind, ListPlaced, ListOwns, RefsOfRequester;
    var s := RequesterAtHand(d, p.at);
    assert Found(RequesterLayout(), d, p.at) == s;
    StoreStrings(NoPadding(), d, r, p.inner.1, s.1);
    assert RequesterParted().reload(p.inner, s) == (p.inner.0, s.1);
  }

  /** storeRequester, on the list of messages and the bytes, is saving the requester on values. */
  method StoreRequesterIn(file: StoreFile, list: List, order: seq<Datum>, r: Requester, mem: seq<MicroPlace>, at: int,
                          pad: Padding)
    returns (position: int, m: seq<MicroPlace>)
    requires list.Loose() && list.header.id == -1 && file.Valid()
    requires DataIn(list.ring)[1..] == order && Ordered(order, r.messages.items)
    requires r.messages == ListingOf(list, r.messages.items) && Savable(r)
    requires RequesterKind().placed(DiskIn(file), r, RequesterIn(file, list, mem, at))
    requires |file.bytes| + RequesterKind().cost(r) < BOUND
    modifies file, list`storePosition, list.ring`storePosition
    ensures list.Loose() && file.Valid() && r.messages == ListingOf(list, r.messages.items)
    ensures var (d, q) := StoreRequester(pad, old(DiskIn(file)), r, old(RequesterIn(file, list, mem, at)));
      && DiskIn(file) == d && position == q.at && PlaceIn(file, list, m) == q.inner.0
  {
    hide MicroKind, RequesterKind, ListPlaced, PutList, Sane, Ring, StoreFile.Valid, StoreFile.Contents, RefsOfRequester,
         PutText, Put, Ordered, Savable, RequesterBytes, Site, Grows;
    ghost var d, p := DiskIn(file), RequesterIn(file, list, mem, at);
    FileSane(file);
    AfterMessages(pad, d, r, p);
    SavableParts(r);
    var refs: RequesterRefs := (0, (0, (0, (0, 0))));
    if at > 0 {
      var code, record := file.Restore(at, 64);
      refs := RefsOfRequester(record);
    }
    assert refs.1 == p.inner.1;
    var messages;
    messages, m := StoreMessages(file, list, order, r.messages.items, mem, pad);
    ghost var d1 := DiskIn(file);
    var host, port, protocol, version, b;
    host, port, protocol, version := StoreRequesterStrings(file, r, refs.1, pad);
    StringsGrow(pad, d1, r, refs.1);
    b := RequesterBytes(r.id, r.user, messages, host, port, protocol, version, r.state);
    GrowsAt(d1, DiskIn(file), 64 + HOST_SIZE + PORT_SIZE + PROTOCOL_SIZE + VERSION_SIZE, at);
    position := StoreAt(file, at, b);
  }

  lemma FileSane(file: StoreFile)
    requires file.Valid()
    ensures Sane(DiskIn(file))
  {
    LaidSane(file.bytes, file.tiles);
  }

  lemma SavableParts(r: Requester)
    requires Savable(r)
    ensures NoZero(r.host) && NoZero(r.port) && NoZero(r.protocol) && NoZero(r.version) && ListFits(Storable, r.messages)
  {
    hide Storable, NoZero, Fits;
  }

  /** The strings of a requester, one after the other. */
  function PutStrings(pad: Padding, d: Disk, r: Requester, s: (int, (int, (int, int)))): (Disk, (int, (int, (int, int)))) {
    var (d2, host) := PutText(pad, d, s.0, r.host, HOST_SIZE);
    var (d3, port) := PutText(pad, d2, s.1.0, r.port, PORT_SIZE);
    var (d4, protocol) := PutText(pad, d3, s.1.1.0, r.protocol, PROTOCOL_SIZE);
    var (d5, version) := PutText(pad, d4, s.1.1.1, r.version, VERSION_SIZE);
    (d5, (host, (port, (protocol, version))))
  }

  lemma StringsGrow(pad: Padding, d: Disk, r: Requester, s: (int, (int, (int, int))))
    requires Sane(d) && StringSites(d, s)
    ensures Grows(d, PutStrings(pad, d, r, s).0, 64 + HOST_SIZE + PORT_SIZE + PROTOCOL_SIZE + VERSION_SIZE)
    ensures var (d2, host) := PutText(pad, d, s.0, r.host, HOST_SIZE);
      var (d3, port) := PutText(pad, d2, s.1.0, r.port, PORT_SIZE);
      var (d4, protocol) := PutText(pad, d3, s.1.1.0, r.protocol, PROTOCOL_SIZE);
      && Site(d2, s.1.0, PORT_SIZE) && Site(d3, s.1.1.0, PROTOCOL_SIZE) && Site(d4, s.1.1.1, VERSION_SIZE)
      && d.end <= d2.end <= d.end + 16 + HOST_SIZE && d2.end <= d3.end <= d2.end + 16 + PORT_SIZE
      && d3.end <= d4.end <= d3.end + 16 + PROTOCOL_SIZE
  {
    hide PutText, Sane, Grows, Site;
    var (d2, host) := PutText(pad, d, s.0, r.host, HOST_SIZE);
    var (d3, port) := PutText(pad, d2, s.1.0, r.port, PORT_SIZE);
    var (d4, protocol) := PutText(pad, d3, s.1.1.0, r.protocol, PROTOCOL_SIZE);
    var (d5, version) := PutText(pad, d4, s.1.1.1, r.version, VERSION_SIZE);
    SiteAt(d, s.0, HOST_SIZE);
    TextGrows(pad, d, s.0, r.host, HOST_SIZE);
    SitesGrow(d, d2, 16 + HOST_SIZE, s);
    SiteAt(d2, s.1.0, PORT_SIZE);
    TextGrows(pad, d2, s.1.0, r.port, PORT_SIZE);
    SitesGrow(d2, d3, 16 + PORT_SIZE, s);
    SiteAt(d3, s.1.1.0, PROTOCOL_SIZE);
    TextGrows(pad, d3, s.1.1.0, r.protocol, PROTOCOL_SIZE);
    SitesGrow(d3, d4, 16 + PROTOCOL_SIZE, s);
    SiteAt(d4, s.1.1.1, VERSION_SIZE);
    TextGrows(pad, d4, s.1.1.1, r.version, VERSION_SIZE);
    GrowsAt(d, d2, 16 + HOST_SIZE, 0);
    GrowsAt(d2, d3, 16 + PORT_SIZE, 0);
    GrowsAt(d3, d4, 16 + PROTOCOL_SIZE, 0);
    GrowsTwice(d, d2, d3, 16 + HOST_SIZE, 16 + PORT_SIZE);
    GrowsTwice(d, d3, d4, 32 + HOST_SIZE + PORT_SIZE, 16 + PROTOCOL_SIZE);
    GrowsTwice(d, d4, d5, 48 + HOST_SIZE + PORT_SIZE + PROTOCOL_SIZE, 16 + VERSION_SIZE);
  }

  lemma SiteAt(d: Disk, at: int, maximum: nat)
    ensures Site(d, at, maximum) <==> (at > 0 ==> at in d.contents && |d.contents[at]| >= maximum)
  {
  }

  lemma SitesGrow(d: Disk, e: Disk, room: nat, s: (int, (int, (int, int))))
    requires Grows(d, e, room) && StringSites(d, s)
    ensures StringSites(e, s)
  {
    hide Grows, Site;
    SiteGrows(d, e, room, s.0, HOST_SIZE);
    SiteGrows(d, e, room, s.1.0, PORT_SIZE);
    SiteGrows(d, e, room, s.1.1.0, PROTOCOL_SIZE);
    SiteGrows(d, e, room, s.1.1.1, VERSION_SIZE);
  }

  method StoreRequesterStrings(file: StoreFile, r: Requester, s: (int, (int, (int, int))), pad: Padding)
    returns (host: int, port: int, protocol: int, version: int)
    requires file.Valid() && StringSites(DiskIn(file), s)
    requires NoZero(r.host) && NoZero(r.port) && NoZero(r.protocol) && NoZero(r.version)
    requires |file.bytes| + 64 + HOST_SIZE + PORT_SIZE + PROTOCOL_SIZE + VERSION_SIZE < BOUND
    modifies file
    ensures file.Valid()
    ensures (DiskIn(file), (host, (port, (protocol, version)))) == PutStrings(pad, old(DiskIn(file)), r, s)
  {
    hide Sane, StoreFile.Valid, StoreFile.Contents, PutText, NoZero, Grows, Site;
    ghost var d := DiskIn(file);
    FileSane(file);
    StringsGrow(pad, d, r, s);
    SiteAt(d, s.0, HOST_SIZE);
    host := StoreCharsAt(file, s.0, r.host, HOST_SIZE, pad);
    SiteAt(DiskIn(file), s.1.0, PORT_SIZE);
    port := StoreCharsAt(file, s.1.0, r.port, PORT_SIZE, pad);
    SiteAt(DiskIn(file), s.1.1.0, PROTOCOL_SIZE);
    protocol := StoreCharsAt(file, s.1.1.0, r.protocol, PROTOCOL_SIZE, pad);
    SiteAt(DiskIn(file), s.1.1.1, VERSION_SIZE);
    version := StoreCharsAt(file, s.1.1.1, r.version, VERSION_SIZE, pad);
  }
}
