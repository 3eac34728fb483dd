/** Saving a list in the store file and reading it back (data/list.c, storeList and restoreList). */
module ListStores {
  import opened Octets
  import opened Lists
  import opened Stores
  import opened Disks
  import opened Kinds
  import opened RingImage
  import opened Listings

  // ----- the data's handles -----

  /** Stores some data, writing to the file as it likes: the bytes afterwards, where data lie now, and
      where this one lies. */
  type StoreHandle<!M> = (seq<byte>, M, Datum) -> (seq<byte>, M, int)

  /** The data for a position. */
  type RestoreHandle = (seq<byte>, int) -> Datum

  ghost function DiskAs(bytes: seq<byte>, tiles: seq<Tile>): Disk { Disk(View(tiles), |bytes|) }

  ghost function Snapshot(file: StoreFile, r: seq<ListNode>): (s: State)
    reads file`bytes, file`tiles, r
    ensures |s.pos| == |r|
  {
    State(file.Contents(), |file.bytes|, seq(|r|, i requires 0 <= i < |r| reads r => r[i].storePosition))
  }

  ghost function IdsOf(r: seq<ListNode>): (ids: seq<int>)
    reads r
    ensures |ids| == |r| && forall i :: 0 <= i < |r| ==> ids[i] == r[i].id
  {
    seq(|r|, i requires 0 <= i < |r| reads r => r[i].id)
  }

  ghost function DataIn(r: seq<ListNode>): (data: seq<Datum>)
    reads r
    ensures |data| == |r| && forall i :: 0 <= i < |r| ==> data[i] == r[i].data
  {
    seq(|r|, i requires 0 <= i < |r| reads r => r[i].data)
  }

  /** On these bytes the handle does what the cargo says of node `k`. */
  ghost predicate Follows<M(!new)>(handle: StoreHandle<M>, c: Cargo<M>, data: seq<Datum>, bytes: seq<byte>,
                                   tiles: seq<Tile>, m: M, k: nat)
    requires k < |data|
  {
    var (d, m') := c.step(DiskAs(bytes, tiles), m, k);
    if data[k] == 0 then d == DiskAs(bytes, tiles) && m' == m && c.ref(m', k) == 0 else
      && handle(bytes, m, data[k]).1 == m' && handle(bytes, m, data[k]).2 == c.ref(m', k)
      && LaidAs(handle(bytes, m, data[k]).0, d)
  }

  ghost predicate LaidAs(bytes: seq<byte>, d: Disk) {
    exists tiles :: Tiled(bytes, tiles) && DiskAs(bytes, tiles) == d
  }

  /** The handle on these data is what the cargo says. */
  ghost predicate Realises<M(!new)>(handle: StoreHandle<M>, c: Cargo<M>, data: seq<Datum>) {
    && (forall m {:trigger c.ref(m, 0)} :: c.ref(m, 0) == 0)
    && forall bytes, tiles, m, k {:trigger Follows(handle, c, data, bytes, tiles, m, k)} ::
      0 < k < |data| && Tiled(bytes, tiles) && c.sound(DiskAs(bytes, tiles), m, k) && |bytes| + c.rest(k) < BOUND ==>
      Follows(handle, c, data, bytes, tiles, m, k)
  }

  ghost function Now<M>(file: StoreFile, r: seq<ListNode>, m: M): Progress<M>
    reads file`bytes, file`tiles, r
  {
    Progress(Snapshot(file, r), m)
  }

  /** Corrects the forward link of a saved neighbour. */
  method CorrectNext(file: StoreFile, neighbour: ListNode, p: int,
                     ghost r: seq<ListNode>, ghost f: Fixed, ghost j: nat, ghost room: nat)
    requires file.Valid() && j < |r| && r[j] == neighbour
    requires Sited(Snapshot(file, r), f, room) && Position(p)
    modifies file
    ensures file.Valid()
    ensures Snapshot(file, r) == PatchNext(old(Snapshot(file, r)), j, p)
    ensures PatchNext(old(Snapshot(file, r)), j, p) == old(Snapshot(file, r)) ==> file.bytes == old(file.bytes)
  {
    hide StoreFile.Valid, StoreFile.Contents, NextOf, WithNext, Record, Overlay;
    ghost var s := Snapshot(file, r);
    if neighbour.storePosition > 0 {
      assert Saved(s, j);
      var code, record := file.Restore(neighbour.storePosition, 32);
      if NextOf(record) != p {
        var position := StoreAt(file, neighbour.storePosition, WithNext(record, p));
      }
    }
  }

  /** Corrects the backward link of a saved neighbour. */
  method CorrectPrev(file: StoreFile, neighbour: ListNode, p: int,
                     ghost r: seq<ListNode>, ghost f: Fixed, ghost j: nat, ghost room: nat)
    requires file.Valid() && j < |r| && r[j] == neighbour
    requires Sited(Snapshot(file, r), f, room) && Position(p)
    modifies file
    ensures file.Valid()
    ensures Snapshot(file, r) == PatchPrev(old(Snapshot(file, r)), j, p)
    ensures PatchPrev(old(Snapshot(file, r)), j, p) == old(Snapshot(file, r)) ==> file.bytes == old(file.bytes)
  {
    hide StoreFile.Valid, StoreFile.Contents, PrevOf, WithPrev, Record, Overlay;
    ghost var s := Snapshot(file, r);
    if neighbour.storePosition > 0 {
      assert Saved(s, j);
      var code, record := file.Restore(neighbour.storePosition, 32);
      if PrevOf(record) != p {
        var position := StoreAt(file, neighbour.storePosition, WithPrev(record, p));
      }
    }
  }

  /** storeListNode, between the handle and the neighbours: writes the record of node `i`. */
  method WriteNode(file: StoreFile, ptr: ListNode, data: int,
                   ghost r: seq<ListNode>, ghost f: Fixed, ghost i: nat, ghost room: nat)
    requires file.Valid() && Ring(r) && i < |r| && r[i] == ptr
    requires Sited(Snapshot(file, r), f, room) && (ptr.storePosition <= 0 ==> room > 0)
    requires f.ids == IdsOf(r) && f.handles[i] == data
    modifies file, ptr`storePosition
    ensures file.Valid() && Ring(r) && IdsOf(r) == old(IdsOf(r)) && DataIn(r) == old(DataIn(r))
    ensures Snapshot(file, r) == Write(old(Snapshot(file, r)), f, i)
    ensures Write(old(Snapshot(file, r)), f, i) == old(Snapshot(file, r)) ==> file.bytes == old(file.bytes)
  {
    hide StoreFile.Valid, StoreFile.Contents, NodeBytes, Ring, Put, Sited;
    ghost var s := Snapshot(file, r);
    Linked(r, i);
    SiteOf(s, f, i, room);
    NodesDiffer(r, i);
    var record := NodeBytes(ptr.prev.storePosition, ptr.next.storePosition, ptr.id, data);
    assert record == Image(s, f, i);
    var position := StoreAt(file, ptr.storePosition, record);
    ptr.storePosition := position;
    PutNode(s, f, i, room);
    assert Snapshot(file, r).pos == s.pos[i := position];
    RingStays(r);
  }

  lemma NodesDiffer(r: seq<ListNode>, i: nat)
    requires Ring(r) && i < |r|
    ensures forall j :: 0 <= j < |r| && j != i ==> r[j] != r[i]
  {
  }

  /** Where node `i` is to go. */
  lemma SiteOf(s: State, f: Fixed, i: nat, room: nat)
    requires Sited(s, f, room) && i < |s.pos| && (s.pos[i] <= 0 ==> room > 0)
    ensures s.pos[i] > 0 ==> s.pos[i] in s.contents && |s.contents[s.pos[i]]| == 32
    ensures s.end + 48 < BOUND || s.pos[i] > 0
    ensures s.end < BOUND && |s.pos| == |f.ids| == |f.handles|
  {
    assert Saved(s, i) <==> s.pos[i] > 0;
  }

  /** Writing a node's record is storing it. */
  lemma PutNode(s: State, f: Fixed, i: nat, room: nat)
    requires Sited(s, f, room) && i < |s.pos|
    ensures var (e, position) := Put(DiskOf(s), s.pos[i], Image(s, f, i));
      Write(s, f, i) == State(e.contents, e.end, s.pos[i := position])
  {
    hide NodeBytes, Image;
    if s.pos[i] > 0 {
      assert Saved(s, i);
    }
  }

  /** Where nodes are saved is not part of the ring. */
  twostate lemma RingStays(r: seq<ListNode>)
    requires old(Ring(r))
    requires forall i {:trigger r[i]} :: 0 <= i < |r| ==>
      r[i].next == old(r[i].next) && r[i].prev == old(r[i].prev) && r[i].freed == old(r[i].freed)
    ensures Ring(r)
  {
    hide Lists.Place;
  }

  /** Node `i` of the ring, once its datum is stored, and its neighbours' links. */
  method WriteLinked(file: StoreFile, ptr: ListNode, data: int,
                     ghost r: seq<ListNode>, ghost f: Fixed, ghost i: nat, ghost room: nat)
    requires file.Valid() && Ring(r) && i < |r| && r[i] == ptr
    requires Sited(Snapshot(file, r), f, room) && (ptr.storePosition <= 0 ==> room > 0)
    requires f.ids == IdsOf(r) && f.handles[i] == data
    modifies file, ptr`storePosition
    ensures file.Valid() && Ring(r) && IdsOf(r) == old(IdsOf(r)) && DataIn(r) == old(DataIn(r))
    ensures Snapshot(file, r) == Save(old(Snapshot(file, r)), f, i)
    ensures AllImaged(old(Snapshot(file, r)), f) ==>
      file.bytes == old(file.bytes) && Snapshot(file, r) == old(Snapshot(file, r))
  {
    hide StoreFile.Valid, StoreFile.Contents, Ring, Sited, Write, PatchNext, PatchPrev, Snapshot, AllImaged;
    ghost var s := Snapshot(file, r);
    Linked(r, i);
    SnapshotAt(file, r, i);
    WriteEffect(s, f, i, room);
    if AllImaged(s, f) {
      NothingToWrite(s, f, i, room);
    }
    WriteNode(file, ptr, data, r, f, i, room);
    ghost var w := Snapshot(file, r);
    ghost var rest := if Saved(s, i) then room else room - 1;
    SnapshotAt(file, r, i);
    SitedFacts(w, f, rest);
    PatchNextEffect(w, f, Before(i, |r|), ptr.storePosition, rest);
    PatchesKeepSites(w, PatchNext(w, Before(i, |r|), ptr.storePosition), f, Before(i, |r|), rest);
    CorrectNext(file, ptr.prev, ptr.storePosition, r, f, Before(i, |r|), rest);
    CorrectPrev(file, ptr.next, ptr.storePosition, r, f, After(i, |r|), rest);
  }

  /** On a ring that is on disk no step of saving a node changes anything. */
  lemma NothingToWrite(s: State, f: Fixed, i: nat, room: nat)
    requires Sited(s, f, room) && i < |s.pos| && AllImaged(s, f)
    ensures Write(s, f, i) == s
    ensures PatchNext(s, Before(i, |s.pos|), s.pos[i]) == s
    ensures PatchPrev(s, After(i, |s.pos|), s.pos[i]) == s
    ensures Save(s, f, i) == s
  {
    hide NodeBytes, PrevOf, NextOf, IdOf, DataOf, Sited;
    SitedFacts(s, f, room);
    var n := |s.pos|;
    var left, right := Before(i, n), After(i, n);
    assert Imaged(s, f, i) && Imaged(s, f, left) && Imaged(s, f, right);
    DiskLinks(s, f, left, room);
    DiskLinks(s, f, right, room);
    Adjacent(i, left, n);
    Adjacent(i, right, n);
    assert s.contents[s.pos[i] := Image(s, f, i)] == s.contents;
  }

  lemma Linked(r: seq<ListNode>, i: nat)
    requires Ring(r) && i < |r|
    ensures r[i].next == r[After(i, |r|)] && r[i].prev == r[Before(i, |r|)]
  {
  }

  lemma SnapshotAt(file: StoreFile, r: seq<ListNode>, i: nat)
    requires i < |r|
    ensures Snapshot(file, r).pos[i] == r[i].storePosition
  {
  }

  /** The handle's turn. */
  method StoreDatum<M(!new)>(file: StoreFile, ptr: ListNode, handle: StoreHandle<M>, mem: M,
                             ghost c: Cargo<M>, ghost data: seq<Datum>, ghost k: nat)
    returns (position: int, m: M)
    requires file.Valid() && k < |data| && data[k] == ptr.data
    requires Follows(handle, c, data, file.bytes, file.tiles, mem, k)
    modifies file
    ensures file.Valid() && (DiskIn(file), m) == c.step(old(DiskIn(file)), mem, k)
    ensures position == c.ref(m, k)
    ensures ptr.data == 0 || handle(old(file.bytes), mem, ptr.data).0 == old(file.bytes) ==>
      file.bytes == old(file.bytes) && DiskIn(file) == old(DiskIn(file))
    ensures m == if ptr.data == 0 then mem else handle(old(file.bytes), mem, ptr.data).1
  {
    hide View, Tiled;
    if ptr.data == 0 {
      position, m := 0, mem;
    } else {
      var result := handle(file.bytes, mem, ptr.data);
      m, position := result.1, result.2;
      ghost var d := c.step(DiskIn(file), mem, k).0;
      assert LaidAs(result.0, d);
      ghost var tiles :| Tiled(result.0, tiles) && DiskAs(result.0, tiles) == d;
      if result.0 == file.bytes {
        SameTiles(file.bytes, file.tiles, tiles);
      }
      file.bytes := result.0;
      file.tiles := tiles;
    }
  }

  lemma SameTiles(bytes: seq<byte>, a: seq<Tile>, b: seq<Tile>)
    requires Tiled(bytes, a) && Tiled(bytes, b)
    ensures a == b
  {
    hide Laid, Size, Sound;
    TilingIsUnique(a, b);
  }

  /** The data have nothing to write. */
  ghost predicate Still<M>(handle: StoreHandle<M>, data: seq<Datum>, bytes: seq<byte>, mem: M) {
    forall i {:trigger data[i]} :: 0 <= i < |data| && data[i] != 0 ==>
      handle(bytes, mem, data[i]).0 == bytes && handle(bytes, mem, data[i]).1 == mem
  }

  /** Everything is on disk and nothing has anything to write. */
  ghost predicate Unchanged<M>(p: Progress<M>, ids: seq<int>, data: seq<Datum>, bytes: seq<byte>,
                               handle: StoreHandle<M>, c: Cargo<M>) {
    AllImaged(p.s, FixedBy(ids, c, p.mem)) && Still(handle, data, bytes, p.mem)
  }

  /** What the handles promise about the ring's data. */
  ghost predicate Handles<M(!new)>(handle: StoreHandle<M>, c: Cargo<M>, data: seq<Datum>) {
    Realises(handle, c, data) && StepLaw(c, |data|) && OwnLaw(c) && |data| > 0 && data[0] == 0
  }

  /** The datum of node `i` can be stored, and then its node. */
  lemma DatumReady<M(!new)>(handle: StoreHandle<M>, c: Cargo<M>, data: seq<Datum>, bytes: seq<byte>,
                            tiles: seq<Tile>, p: Progress<M>, ids: seq<int>, k: nat, i: nat)
    requires Handles(handle, c, data) && |data| == |ids| && i < |ids| && (i == 0 || i == k) && k > 0
    requires Tiled(bytes, tiles) && DiskAs(bytes, tiles) == DiskOf(p.s) && Underway(p, ids, c, k)
    ensures Follows(handle, c, data, bytes, tiles, p.mem, i)
    ensures var (e, m) := c.step(DiskOf(p.s), p.mem, i);
      var s := State(e.contents, e.end, p.s.pos);
      Sited(s, FixedBy(ids, c, m), Unsaved(s.pos)) && (s.pos[i] <= 0 ==> Unsaved(s.pos) > 0)
  {
    hide Sited, Tiled, Unsaved, Clear, FixedBy, Advanced, OwnLaw, Imaged;
    UnderwaySane(p, ids, c, k);
    if p.s.pos[i] <= 0 {
      SomeUnsaved(p.s.pos, i);
    }
    SitedRoom(p.s, FixedBy(ids, c, p.mem), Unsaved(p.s.pos));
    if i > 0 {
      DatumStored(p, ids, c, k);
      var (e, m) := c.step(DiskOf(p.s), p.mem, i);
      SitedRoom(State(e.contents, e.end, p.s.pos), FixedBy(ids, c, m), Unsaved(p.s.pos));
    }
  }

  lemma StillAt<M>(handle: StoreHandle<M>, data: seq<Datum>, bytes: seq<byte>, mem: M, i: nat)
    requires Still(handle, data, bytes, mem) && i < |data| && data[i] != 0
    ensures handle(bytes, mem, data[i]).0 == bytes && handle(bytes, mem, data[i]).1 == mem
  {
  }

  /** storeListNode: the datum of node `i`, its record, and its neighbours' links. The data before node `k`
      are stored. */
  method StoreListNode<M(!new)>(file: StoreFile, ptr: ListNode, handle: StoreHandle<M>, mem: M,
                                ghost r: seq<ListNode>, ghost c: Cargo<M>, ghost i: nat, ghost k: nat)
    returns (m: M)
    requires file.Valid() && Ring(r) && i < |r| && r[i] == ptr && (i == 0 || i == k) && k > 0
    requires Handles(handle, c, DataIn(r)) && Underway(Now(file, r, mem), IdsOf(r), c, k)
    modifies file, ptr`storePosition
    ensures file.Valid() && Ring(r) && IdsOf(r) == old(IdsOf(r)) && DataIn(r) == old(DataIn(r))
    ensures Now(file, r, m) == StoreNode(old(Now(file, r, mem)), IdsOf(r), c, i)
    ensures old(Unchanged(Now(file, r, mem), IdsOf(r), DataIn(r), file.bytes, handle, c)) ==>
      file.bytes == old(file.bytes) && Now(file, r, m) == old(Now(file, r, mem))
  {
    hide View, Ring, Sited, Tiled, AllImaged, Save, Underway, StepLaw, OwnLaw, Unsaved, Realises, Follows, Still;
    ghost var ids, data, p := IdsOf(r), DataIn(r), Now(file, r, mem);
    DatumReady(handle, c, data, file.bytes, file.tiles, p, ids, k, i);
    assert DiskOf(p.s) == DiskAs(file.bytes, file.tiles);
    if Still(handle, data, file.bytes, mem) && data[i] != 0 {
      StillAt(handle, data, file.bytes, mem, i);
    }
    var position;
    position, m := StoreDatum(file, ptr, handle, mem, c, data, i);
    ghost var s, f := Snapshot(file, r), FixedBy(ids, c, m);
    assert s == State(c.step(DiskOf(p.s), mem, i).0.contents, c.step(DiskOf(p.s), mem, i).0.end, p.s.pos);
    SnapshotAt(file, r, i);
    WriteLinked(file, ptr, position, r, f, i, Unsaved(s.pos));
  }

  lemma RingHas(r: seq<ListNode>, k: nat)
    requires Ring(r)
    ensures |r| > 0 && (0 < k < |r| ==> r[k] != r[0])
  {
  }

  lemma AloneWhenLooped(r: seq<ListNode>)
    requires Ring(r)
    ensures r[0].next == r[0] <==> |r| == 1
  {
    Linked(r, 0);
  }

  lemma HandlesLaws<M(!new)>(handle: StoreHandle<M>, c: Cargo<M>, data: seq<Datum>)
    requires Handles(handle, c, data)
    ensures StepLaw(c, |data|) && OwnLaw(c)
  {
  }

  /** The nodes after the header. */
  method StoreOthers<M(!new)>(file: StoreFile, header: ListNode, handle: StoreHandle<M>, mem: M,
                              ghost r: seq<ListNode>, ghost c: Cargo<M>)
    returns (m: M)
    requires file.Valid() && Ring(r) && r[0] == header && |r| > 1
    requires Handles(handle, c, DataIn(r)) && Underway(Now(file, r, mem), IdsOf(r), c, 1)
    modifies file, r[1..]`storePosition
    ensures file.Valid() && Ring(r) && IdsOf(r) == old(IdsOf(r)) && DataIn(r) == old(DataIn(r))
    ensures Now(file, r, m) == StoreFrom(old(Now(file, r, mem)), IdsOf(r), c, 1)
    ensures old(Unchanged(Now(file, r, mem), IdsOf(r), DataIn(r), file.bytes, handle, c)) ==>
      file.bytes == old(file.bytes) && Now(file, r, m) == old(Now(file, r, mem))
  {
    hide StoreFile.Valid, StoreFile.Contents, Ring, Snapshot, StoreNode, Underway, Handles, Unchanged, IdsOf, DataIn;
    ghost var ids, data, p := IdsOf(r), DataIn(r), Now(file, r, mem);
    ghost var idle := Unchanged(p, ids, data, file.bytes, handle, c);
    HandlesLaws(handle, c, data);
    Linked(r, 0);
    m := mem;
    var ptr := header.next;
    ghost var k: nat := 1;
    while ptr != header
      invariant file.Valid() && Ring(r) && IdsOf(r) == ids && DataIn(r) == data
      invariant 0 < k <= |r| && ptr == r[if k < |r| then k else 0]
      invariant Underway(Now(file, r, m), ids, c, k)
      invariant StoreFrom(Now(file, r, m), ids, c, k) == StoreFrom(p, ids, c, 1)
      invariant idle ==> file.bytes == old(file.bytes) && Now(file, r, m) == p
      decreases |r| - k
    {
      RingHas(r, k);
      Linked(r, k);
      NodeStored(Now(file, r, m), ids, c, k);
      assert ptr == r[1..][k - 1];
      m := StoreListNode(file, ptr, handle, m, r, c, k, k);
      ptr := ptr.next;
      k := k + 1;
    }
    RingHas(r, k);
  }

  /** storeListNodes: saves the ring with its data, and answers where the header is. */
  method StoreListNodes<M(!new)>(file: StoreFile, header: ListNode, handle: StoreHandle<M>, mem: M,
                                 ghost r: seq<ListNode>, ghost c: Cargo<M>)
    returns (position: int, m: M)
    requires file.Valid() && Ring(r) && r[0] == header
    requires Handles(handle, c, DataIn(r)) && Underway(Now(file, r, mem), IdsOf(r), c, 1)
    modifies file, r`storePosition
    ensures file.Valid() && Ring(r) && IdsOf(r) == old(IdsOf(r)) && DataIn(r) == old(DataIn(r))
    ensures Now(file, r, m) == StoreNodes(old(Now(file, r, mem)), IdsOf(r), c)
    ensures position == header.storePosition
    ensures old(Unchanged(Now(file, r, mem), IdsOf(r), DataIn(r), file.bytes, handle, c)) ==>
      file.bytes == old(file.bytes) && Now(file, r, m) == old(Now(file, r, mem))
  {
    hide StoreFile.Valid, StoreFile.Contents, Ring, Snapshot, StoreNode, StoreFrom, Underway, Handles, Unchanged, IdsOf,
         DataIn;
    ghost var ids, p := IdsOf(r), Now(file, r, mem);
    RingHas(r, 0);
    HandlesLaws(handle, c, DataIn(r));
    HeaderStored(p, ids, c, 1);
    m := StoreListNode(file, header, handle, mem, r, c, 0, 1);
    position := header.storePosition;
    AloneWhenLooped(r);
    if header.next == header {
      HeaderStored(Now(file, r, m), ids, c, 1);
      m := StoreListNode(file, header, handle, m, r, c, 0, 1);
      position := header.storePosition;
    } else {
      NodesDiffer(r, 0);
      m := StoreOthers(file, header, handle, m, r, c);
    }
  }

  /** storeList: the nodes with their data, then the record of the list itself. */
  method StoreList<M(!new)>(list: List, file: StoreFile, handle: StoreHandle<M>, mem: M, ghost c: Cargo<M>)
    returns (position: int, m: M)
    requires list.Loose() && file.Valid()
    requires Handles(handle, c, DataIn(list.ring)) && Underway(Now(file, list.ring, mem), IdsOf(list.ring), c, 1)
    requires |file.bytes| + 48 * Unsaved(Snapshot(file, list.ring).pos) + c.rest(1) + 40 < BOUND
    requires list.storePosition > 0 ==>
      && list.storePosition in file.Contents() && |file.Contents()[list.storePosition]| == 24
      && !c.owns(mem, list.storePosition)
    modifies file, list`storePosition, list.ring`storePosition
    ensures list.Loose() && file.Valid() && list.Contents() == old(list.Contents())
    ensures IdsOf(list.ring) == old(IdsOf(list.ring)) && DataIn(list.ring) == old(DataIn(list.ring))
    ensures var (d, at, q) := PutRing(old(Now(file, list.ring, mem)), c, IdsOf(list.ring), old(list.storePosition),
                                      list.listId, list.count, list.maxCount);
      && DiskIn(file) == d && at == position == list.storePosition
      && Now(file, list.ring, m) == Progress(State(d.contents, d.end, q.s.pos), q.mem)
    ensures old(
      && Unchanged(Now(file, list.ring, mem), IdsOf(list.ring), DataIn(list.ring), file.bytes, handle, c)
      && list.storePosition > 0 && file.Contents()[list.storePosition] ==
           ListBytes(list.listId, list.header.storePosition, list.count, list.maxCount)) ==>
      file.bytes == old(file.bytes)
  {
    hide StoreFile.Valid, View, Ring, Unsaved, ListBytes, StoreNodes, Underway, Handles, Unchanged, Put;
    ghost var r := list.ring;
    ghost var ids, p := IdsOf(r), Now(file, r, mem);
    HandlesLaws(handle, c, DataIn(r));
    var header;
    header, m := StoreListNodes(file, list.header, handle, mem, r, c);
    ghost var q := Now(file, r, m);
    RecordKept(p, ids, c, list.storePosition);
    assert DiskOf(q.s) == DiskIn(file);
    SnapshotAt(file, r, 0);
    position := StoreAt(file, list.storePosition, ListBytes(list.listId, header, list.count, list.maxCount));
    list.storePosition := position;
  }

  /** Where the list's record is to go, while the ring is saved. */
  lemma RecordKept<M(!new)>(p: Progress<M>, ids: seq<int>, c: Cargo<M>, at: int)
    requires |p.s.pos| == |ids| > 0 && Underway(p, ids, c, 1) && StepLaw(c, |ids|) && OwnLaw(c)
    requires at > 0 ==> at in p.s.contents && |p.s.contents[at]| == 24 && !c.owns(p.mem, at)
    ensures var q := StoreNodes(p, ids, c);
      q.s.end <= p.s.end + 48 * Unsaved(p.s.pos) + c.rest(1) && (at > 0 ==> at in q.s.contents && |q.s.contents[at]| == 24)
  {
    hide Sited, FixedBy, Unsaved, AllImaged, Clear, Advanced, StoreNodes, StepLaw, OwnLaw, Underway;
    UnderwaySane(p, ids, c, 1);
    SavedRing(p, ids, c);
    if at > 0 {
      OwnRecordKept(p, StoreNodes(p, ids, c), ids, c, at);
    }
  }

  // ----- reading back -----

  function Unhandled(bytes: seq<byte>, data: int, handle: RestoreHandle): Datum {
    if data <= 0 then 0 else handle(bytes, data)
  }

  method RestoreListNode(file: StoreFile, position: int, handle: RestoreHandle)
    returns (node: ListNode?, record: seq<byte>)
    requires file.Valid()
    requires position > 0 ==> position in file.Contents() && |file.Contents()[position]| == 32
    modifies file`cursor
    ensures position <= 0 ==> node == null
    ensures position > 0 ==>
      && record == file.Contents()[position] && |record| == 32
      && node != null && fresh(node) && !node.freed && node.prev == null && node.next == null
      && node.id == IdOf(record) && node.data == Unhandled(file.bytes, DataOf(record), handle) && node.storePosition == position
  {
    hide StoreFile.Valid, StoreFile.Contents, IdOf, DataOf;
    record := [];
    if position <= 0 {
      return null, record;
    }
    var code;
    code, record := file.Restore(position, 32);
    node := new ListNode(Unhandled(file.bytes, DataOf(record), handle), IdOf(record));
    node.storePosition := position;
  }

  /** restoreListNodes. It reads every record of the ring, once, in order; but since `prev` stays at
      the header each node takes the place of the one before, and only the last is kept. */
  method RestoreListNodes(file: StoreFile, position: int, handle: RestoreHandle, ghost pos: seq<int>)
    returns (header: ListNode, ghost last: ListNode, ghost visits: seq<int>)
    requires file.Valid() && RingOnDisk(file.Contents(), pos) && |pos| > 0 && pos[0] == position
    modifies file`cursor
    ensures visits == pos
    ensures fresh(header) && fresh(last) && (last == header <==> |pos| == 1)
    ensures Ring(if |pos| == 1 then [header] else [header, last])
    ensures header.data == Unhandled(file.bytes, DataOf(NodeRecord(file.Contents(), position)), handle)
    ensures var record := NodeRecord(file.Contents(), pos[|pos| - 1]);
      last.id == IdOf(record) && last.data == Unhandled(file.bytes, DataOf(record), handle)
  {
    hide StoreFile.Valid, StoreFile.Contents, IdOf, DataOf, NextOf, Lists.Place, Ring, Unhandled, RingOnDisk;
    DiskAt(file.Contents(), pos, 0);
    var node, record := RestoreListNode(file, position, handle);
    header := node;
    ghost var contents := file.Contents();
    var next := NextOf(record);
    var prev, current := header, header;
    ghost var k: nat := 1;
    visits := [position];
    DiskAt(contents, pos, if k < |pos| then k else 0);
    while next != position && next > 0
      invariant 0 < k <= |pos| && visits == pos[..k]
      invariant next == pos[if k < |pos| then k else 0]
      invariant fresh(header) && fresh(current) && !header.freed && !current.freed
      invariant prev == header && file.Contents() == contents && file.Valid()
      invariant next > 0 && (next == position <==> k == |pos|)
      invariant current == header <==> k == 1
      invariant k > 1 ==> header.next == current && current.prev == header
      invariant header.data == Unhandled(file.bytes, DataOf(NodeRecord(contents, position)), handle)
      invariant current.id == IdOf(NodeRecord(contents, pos[k - 1]))
      invariant current.data == Unhandled(file.bytes, DataOf(NodeRecord(contents, pos[k - 1])), handle)
      decreases |pos| - k
    {
      DiskAt(contents, pos, k);
      DiskAt(contents, pos, if k + 1 < |pos| then k + 1 else 0);
      node, record := RestoreListNode(file, next, handle);
      current := node;
      prev.next := current;
      current.prev := prev;
      visits := visits + [next];
      next := NextOf(record);
      k := k + 1;
    }
    current.next := header;
    header.prev := current;
    last := current;
    if |pos| == 1 {
      RingOfOne(header);
    } else {
      RingOfTwo(header, last);
    }
  }

  lemma DiskAt(contents: map<int, seq<byte>>, pos: seq<int>, k: nat)
    requires RingOnDisk(contents, pos) && k < |pos|
    ensures 0 < pos[k] && pos[k] in contents && |contents[pos[k]]| == 32
    ensures NextOf(contents[pos[k]]) == pos[if k + 1 < |pos| then k + 1 else 0]
    ensures k > 0 ==> pos[k] != pos[0]
  {
    hide NextOf;
  }

  lemma RingOfOne(header: ListNode)
    requires header.next == header == header.prev && !header.freed
    ensures Ring([header])
  {
  }

  lemma RingOfTwo(header: ListNode, last: ListNode)
    requires header != last && !header.freed && !last.freed
    requires header.next == last == header.prev && last.next == header == last.prev
    ensures Ring([header, last])
  {
    DistinctPairs([header, last]);
  }

  /** restoreList. */
  method RestoreList(file: StoreFile, position: int, handle: RestoreHandle, ghost pos: seq<int>)
    returns (list: List?, ghost visits: seq<int>)
    requires file.Valid()
    requires position > 0 ==> position in file.Contents()
    requires position > 0 && |file.Contents()[position]| == 24 ==>
      RingOnDisk(file.Contents(), pos) && pos[0] == Signed(file.Contents()[position][8..16])
    modifies file`cursor
    ensures position <= 0 || |file.Contents()[position]| != 24 ==> list == null
    ensures position > 0 && |file.Contents()[position]| == 24 ==>
      && var record := file.Contents()[position];
      && list != null && fresh(list) && visits == pos && list.storePosition == position
      && list.listId == Signed(record[..4])
      && list.count == Signed(record[16..20]) && list.maxCount == Signed(record[20..])
      && Ring(list.ring) && list.ring[0] == list.header && |list.ring| == (if |pos| == 1 then 1 else 2)
      && list.header.data == Unhandled(file.bytes, DataOf(file.Contents()[pos[0]]), handle)
      && (|pos| > 1 ==>
            var last := file.Contents()[pos[|pos| - 1]];
            list.ring[1].id == IdOf(last) && list.ring[1].data == Unhandled(file.bytes, DataOf(last), handle))
  {
    hide StoreFile.Valid, StoreFile.Contents, IdOf, DataOf, NextOf, Lists.Place, Ring, Unhandled, Signed;
    visits := [];
    if position <= 0 {
      return null, visits;
    }
    var code, record := file.Restore(position, 24);
    if code != 0 {
      return null, visits;
    }
    var header;
    ghost var last;
    header, last, visits := RestoreListNodes(file, Signed(record[8..16]), handle, pos);
    list := new List.Around(Signed(record[..4]), header, Signed(record[16..20]), Signed(record[20..]), position,
                            if |pos| == 1 then [header] else [header, last]);
  }

  // ----- the round trip -----

  /** The data that went through one handle come back through the other. */
  ghost predicate Recovers<M(!new)>(unhandle: RestoreHandle, c: Cargo<M>, data: seq<Datum>) {
    forall bytes, tiles, m {:trigger c.sound(DiskAs(bytes, tiles), m, |data|)} ::
      Tiled(bytes, tiles) && |bytes| < BOUND && c.sound(DiskAs(bytes, tiles), m, |data|) ==>
      forall k: nat {:trigger c.ref(m, k)} :: k < |data| ==>
        Fits(c.ref(m, k), 8) && Unhandled(bytes, c.ref(m, k), unhandle) == data[k]
  }

  /** Reads back a list that is on disk as it is. */
  method RestoreSaved<M(!new)>(list: List, file: StoreFile, unhandle: RestoreHandle, ghost t: Progress<M>,
                               ghost c: Cargo<M>)
    returns (copy: List?, ghost visits: seq<int>)
    requires list.Loose() && file.Valid() && list.storePosition > 0
    requires Settled(t, IdsOf(list.ring), c) && DiskOf(t.s) == DiskIn(file) && |t.s.pos| > 0
    requires Recovers(unhandle, c, DataIn(list.ring))
    requires list.storePosition in file.Contents() && file.Contents()[list.storePosition] ==
      ListBytes(list.listId, t.s.pos[0], list.count, list.maxCount)
    requires Fits(list.listId, 4) && Fits(list.count, 4) && Fits(list.maxCount, 4)
    requires forall i :: 0 <= i < |list.ring| ==> Fits(list.ring[i].id, 4)
    modifies file`cursor
    ensures visits == t.s.pos
    ensures copy != null && fresh(copy) && copy.listId == list.listId
    ensures copy.count == list.count && copy.maxCount == list.maxCount
    ensures Ring(copy.ring) && copy.ring[0] == copy.header && copy.header.data == 0
    ensures |copy.ring| == if |list.ring| == 1 then 1 else 2
    ensures |list.ring| > 1 ==>
      copy.ring[1].id == list.ring[|list.ring| - 1].id && copy.ring[1].data == list.ring[|list.ring| - 1].data
  {
    hide StoreFile.Valid, View, ListBytes, RingOnDisk, IdOf, DataOf, Signed, Fits, Ring, Settled, Unhandled, Recovers;
    ghost var n, ids, data := |list.ring| - 1, IdsOf(list.ring), DataIn(list.ring);
    NodesRead(file, unhandle, c, data, ids, t);
    NodeRead(file, unhandle, c, data, ids, t, 0);
    NodeRead(file, unhandle, c, data, ids, t, n);
    ListFields(list.listId, t.s.pos[0], list.count, list.maxCount);
    copy, visits := RestoreList(file, list.storePosition, unhandle, t.s.pos);
  }

  /** Saves a list, whatever is saved of it already and whatever its count says, and reads it back. The positions visited are those of
      the ring, in order, and the counts come back; but the restored list holds the last node only, so it
      holds what was saved, and its count is right, exactly when there was at most one node. */
  method StoreThenRestore<M(!new)>(list: List, file: StoreFile, handle: StoreHandle<M>, unhandle: RestoreHandle, mem: M,
                                   ghost c: Cargo<M>)
    returns (copy: List?, ghost visits: seq<int>)
    requires list.Loose() && file.Valid()
    requires Handles(handle, c, DataIn(list.ring)) && Underway(Now(file, list.ring, mem), IdsOf(list.ring), c, 1)
    requires Recovers(unhandle, c, DataIn(list.ring))
    requires |file.bytes| + 48 * Unsaved(Snapshot(file, list.ring).pos) + c.rest(1) + 40 < BOUND
    requires list.storePosition > 0 ==>
      && list.storePosition in file.Contents() && |file.Contents()[list.storePosition]| == 24
      && !c.owns(mem, list.storePosition)
    requires Fits(list.listId, 4) && Fits(list.count, 4) && Fits(list.maxCount, 4)
    requires forall i :: 0 <= i < |list.ring| ==> Fits(list.ring[i].id, 4)
    modifies file, list`storePosition, list.ring`storePosition
    ensures list.Loose() && list.Contents() == old(list.Contents())
    ensures visits == Snapshot(file, list.ring).pos
    ensures copy != null && copy.listId == list.listId
    ensures copy.count == list.count && copy.maxCount == list.maxCount
    ensures Ring(copy.ring) && copy.ring[0] == copy.header
    ensures var n := |list.ring| - 1;
      && copy.Contents() == (if n == 0 then [] else [list.Contents()[n - 1]])
      && (n > 0 ==> |copy.ring| == 2 && copy.ring[1].id == list.ring[n].id)
      && (copy.Contents() == list.Contents() <==> n <= 1)
    ensures copy.Loose() && (copy.Valid() <==> list.Valid() && list.count <= 1)
  {
    hide StoreFile.Valid, View, ListBytes, Unsaved, Fits, Ring, PutRing, Handles, Underway, Settled, Recovers, Unchanged,
         List.Contents, Advanced, Spares;
    ghost var r := list.ring;
    HandlesLaws(handle, c, DataIn(r));
    RingStored(Now(file, r, mem), c, IdsOf(r), list.storePosition, list.listId, list.count, list.maxCount);
    var position, m := StoreList(list, file, handle, mem, c);
    copy, visits := RestoreSaved(list, file, unhandle, Now(file, r, m), c);
    Copied(list, copy);
  }

  /** What is restored against what was saved. */
  lemma Copied(list: List, copy: List)
    requires list.Loose() && Ring(copy.ring) && copy.header == copy.ring[0] && copy.header.data == 0
    requires copy.count == list.count && |copy.ring| == if |list.ring| == 1 then 1 else 2
    requires |list.ring| > 1 ==> copy.ring[1].data == list.ring[|list.ring| - 1].data
    ensures var n := |list.ring| - 1;
      && copy.Contents() == (if n == 0 then [] else [list.Contents()[n - 1]])
      && (copy.Contents() == list.Contents() <==> n <= 1)
    ensures copy.Loose() && (copy.Valid() <==> list.Valid() && list.count <= 1)
  {
    hide Ring;
  }

  /** The ring as the file has it. */
  lemma NodesRead<M(!new)>(file: StoreFile, unhandle: RestoreHandle, c: Cargo<M>, data: seq<Datum>, ids: seq<int>,
                           t: Progress<M>)
    requires file.Valid() && Settled(t, ids, c) && DiskOf(t.s) == DiskIn(file)
    ensures RingOnDisk(file.Contents(), t.s.pos) && Position(t.s.pos[0]) && |t.s.pos| == |ids|
  {
    hide View, Sited, AllImaged, FixedBy, RingOnDisk, Clear;
    SavedRingOnDisk(t.s, FixedBy(ids, c, t.mem), 0);
    SitedFacts(t.s, FixedBy(ids, c, t.mem), 0);
  }

  /** Node `k` as the file has it, and its datum as it comes back. */
  lemma NodeRead<M(!new)>(file: StoreFile, unhandle: RestoreHandle, c: Cargo<M>, data: seq<Datum>, ids: seq<int>,
                          t: Progress<M>, k: nat)
    requires file.Valid() && Settled(t, ids, c) && DiskOf(t.s) == DiskIn(file)
    requires Recovers(unhandle, c, data) && |data| == |ids| && k < |ids| && Fits(ids[k], 4)
    ensures k < |t.s.pos| && t.s.pos[k] in file.Contents() && |file.Contents()[t.s.pos[k]]| == 32
    ensures var record := file.Contents()[t.s.pos[k]];
      IdOf(record) == ids[k] && Unhandled(file.bytes, DataOf(record), unhandle) == data[k]
  {
    hide View, Sited, AllImaged, Clear, IdOf, DataOf, Fits, Unhandled, Tiled, Recovers;
    SettledParts(t, ids, c);
    SitedFacts(t.s, FixedBy(ids, c, t.mem), 0);
    DataRecovered(file, unhandle, c, data, t.mem, k);
    ImageFields(t.s, FixedBy(ids, c, t.mem), k, 0);
  }

  lemma SettledParts<M(!new)>(p: Progress<M>, ids: seq<int>, c: Cargo<M>)
    requires Settled(p, ids, c)
    ensures Sited(p.s, FixedBy(ids, c, p.mem), 0) && AllImaged(p.s, FixedBy(ids, c, p.mem))
    ensures c.sound(DiskOf(p.s), p.mem, |ids|) && p.s.end < BOUND
  {
  }

  lemma DataRecovered<M(!new)>(file: StoreFile, unhandle: RestoreHandle, c: Cargo<M>, data: seq<Datum>, m: M, k: nat)
    requires file.Valid() && Recovers(unhandle, c, data) && k < |data| && |file.bytes| < BOUND
    requires c.sound(DiskIn(file), m, |data|)
    ensures Fits(c.ref(m, k), 8) && Unhandled(file.bytes, c.ref(m, k), unhandle) == data[k]
  {
    hide View, Tiled, Fits, Unhandled;
    assert c.sound(DiskAs(file.bytes, file.tiles), m, |data|);
  }

  lemma ImageFields(s: State, f: Fixed, i: nat, room: nat)
    requires Sited(s, f, room) && AllImaged(s, f) && i < |s.pos|
    ensures s.pos[i] in s.contents && |s.contents[s.pos[i]]| == 32
    ensures Fits(f.ids[i], 4) && Fits(f.handles[i], 8) ==>
      IdOf(s.contents[s.pos[i]]) == f.ids[i] && DataOf(s.contents[s.pos[i]]) == f.handles[i]
  {
    hide NodeBytes, PrevOf, NextOf, IdOf, DataOf, Fits;
    assert Imaged(s, f, i);
    DiskLinks(s, f, i, room);
  }

  // ----- an example -----

  method TwoNodes() returns (list: List)
    ensures fresh(list) && fresh(list.ring) && list.Valid() && list.Contents() == [7, 9]
    ensures |list.ring| == 3 && list.maxCount == 2 && list.listId == 1 && list.storePosition == 0
    ensures forall i :: 0 <= i < 3 ==> list.ring[i].id == [-1, 1, 2][i] && list.ring[i].data == [0, 7, 9][i]
    ensures forall i :: 0 <= i < 3 ==> list.ring[i].storePosition == 0
  {
    hide Lists.Place, Ring;
    list := new List(1, 0);
    list.Insert(7);
    list.Insert(9);
  }

  /** A handle that writes: it appends a record holding the datum, once, and remembers where. */
  function Noted(bytes: seq<byte>, m: map<Datum, int>, x: Datum): (seq<byte>, map<Datum, int>, int) {
    if x in m then (bytes, m, m[x])
    else (bytes + Record(|bytes|, Tile(USING, [x % 256])), m[x := |bytes|], |bytes|)
  }

  function ReadNote(bytes: seq<byte>, at: int): Datum {
    if 0 <= at && at + 17 <= |bytes| then bytes[at + 16] else 0
  }

  const NOTES: seq<Datum> := [0, 7, 9]

  function StoreNote(d: Disk, m: map<Datum, int>, k: nat): (Disk, map<Datum, int>) {
    if k == 0 || k >= 3 || NOTES[k] in m then (d, m)
    else (Disk(d.contents[d.end := [NOTES[k]]], d.end + 17), m[NOTES[k] := d.end])
  }

  ghost predicate NotesSound(d: Disk, m: map<Datum, int>, k: nat) {
    && (forall x <- m :: (x == 7 || x == 9) && m[x] > 0 && m[x] in d.contents && d.contents[m[x]] == [x])
    && (forall i :: 0 < i < k && i < 3 ==> NOTES[i] in m)
  }

  ghost predicate NoteAt(m: map<Datum, int>, o: int) { exists x <- m :: m[x] == o }

  function NoteRef(m: map<Datum, int>, k: nat): int { if 0 < k < 3 && NOTES[k] in m then m[NOTES[k]] else 0 }

  ghost function NoteCargo(): Cargo<map<Datum, int>> {
    Cargo(StoreNote, NoteRef, NoteAt, (m, o) => false, NotesSound, k => if k < 3 then 17 * (3 - k) else 0)
  }

  lemma NoteStep(d: Disk, m: map<Datum, int>, k: nat)
    requires 0 < k < 3 && Sane(d) && NotesSound(d, m, k)
    ensures var (e, m') := StoreNote(d, m, k);
      && Spares(d, e, NoteAt, m) && e.end <= d.end + 17 && Newer(NoteAt, m, m', d.end)
      && NotesSound(e, m', k + 1) && OtherRefs(NoteRef, m, m', k)
  {
    var (e, m') := StoreNote(d, m, k);
    assert forall x <- m' :: x in m || x == NOTES[k];
    assert NOTES[1] == 7 && NOTES[2] == 9;
  }

  lemma NoteLaws()
    ensures StepLaw(NoteCargo(), 3) && OwnLaw(NoteCargo())
  {
    hide Spares, Newer, NotesSound, OtherRefs, StoreNote, Sane, NoteAt, NoteRef;
    var c := NoteCargo();
    forall d, m
      ensures c.step(d, m, 0) == (d, m)
    {
      NoNote(d, m);
    }
    forall d, m, k | 0 < k < 3 && Sane(d) && c.sound(d, m, k)
      ensures var (e, m') := c.step(d, m, k);
        && Spares(d, e, c.owns, m) && e.end + c.rest(k + 1) <= d.end + c.rest(k)
        && Newer(c.owns, m, m', d.end) && c.sound(e, m', k + 1) && OtherRefs(c.ref, m, m', k)
    {
      NoteStep(d, m, k);
    }
    forall d, m, k, o | c.sound(d, m, k) && c.owns(m, o)
      ensures o in d.contents
    {
      NoteHeld(d, m, k, o);
    }
    forall d, e, m, k | c.sound(d, m, k) && Agrees(d, e, c.owns, m)
      ensures c.sound(e, m, k)
    {
      NotesStay(d, e, m, k);
    }
  }

  lemma NoNote(d: Disk, m: map<Datum, int>)
    ensures StoreNote(d, m, 0) == (d, m)
  {
  }

  lemma NoteHeld(d: Disk, m: map<Datum, int>, k: nat, o: int)
    requires NotesSound(d, m, k) && NoteAt(m, o)
    ensures o in d.contents
  {
  }

  lemma NotesStay(d: Disk, e: Disk, m: map<Datum, int>, k: nat)
    requires NotesSound(d, m, k) && Agrees(d, e, NoteAt, m)
    ensures NotesSound(e, m, k)
  {
    forall x <- m
      ensures m[x] in e.contents && e.contents[m[x]] == [x]
    {
      assert NoteAt(m, m[x]);
    }
  }

  lemma NoteFollows(bytes: seq<byte>, tiles: seq<Tile>, m: map<Datum, int>, k: nat)
    requires 0 < k < 3 && Tiled(bytes, tiles) && |bytes| + 17 < BOUND
    ensures Follows(Noted, NoteCargo(), NOTES, bytes, tiles, m, k)
  {
    hide Laid, View, Size, Record;
    var t := Tile(USING, [NOTES[k]]);
    if NOTES[k] in m {
      assert LaidAs(bytes, DiskAs(bytes, tiles));
    } else {
      AppendKeepsTiling(bytes, tiles, t);
      assert Tiled(bytes + Record(|bytes|, t), tiles + [t]);
      assert LaidAs(bytes + Record(|bytes|, t), StoreNote(DiskAs(bytes, tiles), m, k).0);
    }
  }

  lemma NotesHandled()
    ensures Handles(Noted, NoteCargo(), NOTES)
  {
    hide Tiled, NotesSound, StepLaw, OwnLaw, Follows, StoreNote, Noted;
    NoteLaws();
    var c := NoteCargo();
    forall bytes, tiles, m, k | 0 < k < 3 && Tiled(bytes, tiles) && |bytes| + c.rest(k) < BOUND
      ensures Follows(Noted, c, NOTES, bytes, tiles, m, k)
    {
      NoteFollows(bytes, tiles, m, k);
    }
  }

  lemma NotesRecovered()
    ensures Recovers(ReadNote, NoteCargo(), NOTES)
  {
    hide Tiled, View;
    var c := NoteCargo();
    forall bytes, tiles, m, k: nat | Tiled(bytes, tiles) && |bytes| < BOUND && c.sound(DiskAs(bytes, tiles), m, 3) && k < 3
      ensures Fits(c.ref(m, k), 8) && Unhandled(bytes, c.ref(m, k), ReadNote) == NOTES[k]
    {
      NoteRecovered(bytes, tiles, m, k);
    }
  }

  lemma NoteRecovered(bytes: seq<byte>, tiles: seq<Tile>, m: map<Datum, int>, k: nat)
    requires Tiled(bytes, tiles) && |bytes| < BOUND && NotesSound(DiskAs(bytes, tiles), m, 3) && k < 3
    ensures Fits(NoteRef(m, k), 8) && Unhandled(bytes, NoteRef(m, k), ReadNote) == NOTES[k]
  {
    hide Laid, View, Size, Unsigned;
    if k == 0 {
      PositionFits(0);
    } else {
      var at := m[NOTES[k]];
      var j := RecordOf(tiles, at);
      FieldsOnDisk(bytes, tiles, j);
      PositionFits(at);
      assert bytes[at + 16] == bytes[at + 16..at + 17][0];
    }
  }

  /** Two nodes are enough to lose one. */
  method TwoNodesLoseOne() returns (saved: List, restored: List?)
    ensures saved.Contents() == [7, 9]
    ensures restored != null && restored.Contents() == [9] && restored.count == 2
  {
    hide Ring, StoreFile.Valid, View, Unsaved, Fits, Handles, Underway, Recovers, NoteCargo, Snapshot, IdsOf, DataIn,
         List.Contents, Noted, ReadNote;
    saved := TwoNodes();
    var file := new StoreFile();
    NotesIn(saved.ring);
    NotesHandled();
    NotesRecovered();
    NothingNoted(file, saved.ring);
    SmallFit();
    ghost var visits;
    restored, visits := StoreThenRestore(saved, file, Noted, ReadNote, map[], NoteCargo());
  }

  lemma NotesIn(r: seq<ListNode>)
    requires |r| == 3 && forall i :: 0 <= i < 3 ==> r[i].data == [0, 7, 9][i]
    ensures DataIn(r) == NOTES
  {
  }

  lemma NothingNoted(file: StoreFile, r: seq<ListNode>)
    requires |r| == 3 && file.Contents() == map[] && |file.bytes| == 16
    requires forall i :: 0 <= i < 3 ==> r[i].storePosition == 0
    ensures Underway(Now(file, r, map[]), IdsOf(r), NoteCargo(), 1)
    ensures |file.bytes| + 48 * Unsaved(Snapshot(file, r).pos) + NoteCargo().rest(1) + 40 < BOUND
  {
    hide View;
    UnsavedFew(Snapshot(file, r).pos);
  }

  lemma SmallFit()
    ensures Fits(-1, 4) && Fits(1, 4) && Fits(2, 4)
  {
    assert Power(2) == 0x1_0000;
  }
}
