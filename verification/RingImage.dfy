/** What saving a list node by node leaves in the store file (data/list.c, storeListNode and
    storeListNodes), on values: positions, ids and data handles in ring order. Each datum is stored just
    before its node, by a handle that writes to the same file. */
module RingImage {
  import opened Octets
  import opened Lists
  import opened Disks
  import opened Kinds

  // ----- the record of one node: prev, next, id, data -----

  function NodeBytes(prev: int, next: int, id: int, data: int): (b: seq<byte>)
    ensures |b| == 32
  {
    LaySigned(prev, 8) + LaySigned(next, 8) + LaySigned(id, 4) + Lay(0, 4) + LaySigned(data, 8)
  }

  function PrevOf(b: seq<byte>): int
    requires |b| == 32
  {
    Signed(b[..8])
  }

  function NextOf(b: seq<byte>): int
    requires |b| == 32
  {
    Signed(b[8..16])
  }

  function IdOf(b: seq<byte>): int
    requires |b| == 32
  {
    Signed(b[16..20])
  }

  function DataOf(b: seq<byte>): int
    requires |b| == 32
  {
    Signed(b[24..])
  }

  function WithPrev(b: seq<byte>, prev: int): (c: seq<byte>)
    requires |b| == 32
    ensures |c| == 32
  {
    LaySigned(prev, 8) + b[8..]
  }

  function WithNext(b: seq<byte>, next: int): (c: seq<byte>)
    requires |b| == 32
    ensures |c| == 32
  {
    b[..8] + LaySigned(next, 8) + b[16..]
  }

  lemma NodeFields(prev: int, next: int, id: int, data: int)
    requires Position(prev) && Position(next) && Fits(id, 4) && Fits(data, 8)
    ensures var b := NodeBytes(prev, next, id, data);
      PrevOf(b) == prev && NextOf(b) == next && IdOf(b) == id && DataOf(b) == data
  {
    hide LaySigned, Signed;
    var b := NodeBytes(prev, next, id, data);
    assert b[..8] == LaySigned(prev, 8) && b[8..16] == LaySigned(next, 8);
    assert b[16..20] == LaySigned(id, 4) && b[24..] == LaySigned(data, 8);
    PositionFits(prev);
    PositionFits(next);
    SignedLay(prev, 8);
    SignedLay(next, 8);
    SignedLay(id, 4);
    SignedLay(data, 8);
  }

  lemma Relinked(prev: int, next: int, id: int, data: int, p: int)
    ensures WithPrev(NodeBytes(prev, next, id, data), p) == NodeBytes(p, next, id, data)
    ensures WithNext(NodeBytes(prev, next, id, data), p) == NodeBytes(prev, p, id, data)
  {
    hide LaySigned, Lay;
    var b := NodeBytes(prev, next, id, data);
    var tail := LaySigned(id, 4) + Lay(0, 4) + LaySigned(data, 8);
    assert b == LaySigned(prev, 8) + LaySigned(next, 8) + tail;
    assert b[8..] == LaySigned(next, 8) + tail && b[16..] == tail && b[..8] == LaySigned(prev, 8);
  }

  lemma LinksOf(prev: int, next: int, id: int, data: int)
    requires Position(prev) && Position(next)
    ensures PrevOf(NodeBytes(prev, next, id, data)) == prev && NextOf(NodeBytes(prev, next, id, data)) == next
  {
    hide LaySigned, Signed;
    var b := NodeBytes(prev, next, id, data);
    assert b[..8] == LaySigned(prev, 8) && b[8..16] == LaySigned(next, 8);
    PositionFits(prev);
    PositionFits(next);
    SignedLay(prev, 8);
    SignedLay(next, 8);
  }

  // ----- saving -----

  /** The records in the file, where the file ends, and where each node of the ring is saved: nowhere
      yet when its position is not positive. */
  datatype State = State(contents: map<int, seq<byte>>, end: int, pos: seq<int>)

  /** Ids, and data handles. */
  datatype Fixed = Fixed(ids: seq<int>, handles: seq<int>)

  ghost predicate Fitting(s: State, f: Fixed) {
    |s.pos| == |f.ids| == |f.handles| > 0
  }

  function Image(s: State, f: Fixed, i: nat): (b: seq<byte>)
    requires |s.pos| == |f.ids| == |f.handles| && i < |s.pos|
    ensures |b| == 32
  {
    NodeBytes(s.pos[Before(i, |s.pos|)], s.pos[After(i, |s.pos|)], f.ids[i], f.handles[i])
  }

  /** Points the saved neighbour `j` forward to `p`. */
  function PatchNext(s: State, j: nat, p: int): State
    requires j < |s.pos|
  {
    var q := s.pos[j];
    if q > 0 && q in s.contents && |s.contents[q]| == 32 && NextOf(s.contents[q]) != p
    then s.(contents := s.contents[q := WithNext(s.contents[q], p)])
    else s
  }

  /** Points the saved neighbour `j` back to `p`. */
  function PatchPrev(s: State, j: nat, p: int): State
    requires j < |s.pos|
  {
    var q := s.pos[j];
    if q > 0 && q in s.contents && |s.contents[q]| == 32 && PrevOf(s.contents[q]) != p
    then s.(contents := s.contents[q := WithPrev(s.contents[q], p)])
    else s
  }

  /** Writes the record of node `i`. */
  function Write(s: State, f: Fixed, i: nat): (t: State)
    requires |s.pos| == |f.ids| == |f.handles| && i < |s.pos|
    ensures |t.pos| == |s.pos|
  {
    if s.pos[i] <= 0
    then State(s.contents[s.end := Image(s, f, i)], s.end + 48, s.pos[i := s.end])
    else s.(contents := s.contents[s.pos[i] := Image(s, f, i)])
  }

  /** storeListNode: writes the record, then corrects the neighbours' on disk. */
  function Save(s: State, f: Fixed, i: nat): (t: State)
    requires |s.pos| == |f.ids| == |f.handles| && i < |s.pos|
    ensures |t.pos| == |s.pos|
  {
    var w := Write(s, f, i);
    var n := |s.pos|;
    PatchPrev(PatchNext(w, Before(i, n), w.pos[i]), After(i, n), w.pos[i])
  }

  // ----- what holds meanwhile -----

  predicate Saved(s: State, i: nat)
    requires i < |s.pos|
  {
    s.pos[i] > 0
  }

  /** Saved nodes have records of their own, of the right size; there is room for the rest. */
  ghost predicate Sited(s: State, f: Fixed, room: nat) {
    && Fitting(s, f)
    && 0 < s.end && s.end + 48 * room < BOUND
    && (forall o :: o in s.contents ==> 0 < o < s.end)
    && (forall i :: 0 <= i < |s.pos| ==> -BOUND < s.pos[i] < s.end)
    && (forall i :: 0 <= i < |s.pos| && Saved(s, i) ==> s.pos[i] in s.contents && |s.contents[s.pos[i]]| == 32)
    && (forall i, j :: 0 <= i < j < |s.pos| && Saved(s, i) && Saved(s, j) ==> s.pos[i] != s.pos[j])
  }

  /** Node `i` is on disk with its neighbours' positions, its id and its data. */
  predicate Imaged(s: State, f: Fixed, i: nat)
    requires |s.pos| == |f.ids| == |f.handles| && i < |s.pos|
  {
    Saved(s, i) && s.pos[i] in s.contents && s.contents[s.pos[i]] == Image(s, f, i)
  }

  /** Records of no node of the ring are left alone, and saved nodes stay where they are. */
  ghost predicate Undisturbed(s: State, t: State) {
    && |s.pos| == |t.pos| && s.end <= t.end
    && (forall i :: 0 <= i < |s.pos| ==> if Saved(s, i) then t.pos[i] == s.pos[i] else t.pos[i] <= 0 || s.end <= t.pos[i])
    && (forall o :: o in s.contents && o !in t.pos ==> o in t.contents && t.contents[o] == s.contents[o])
  }

  lemma PatchNextEffect(s: State, f: Fixed, j: nat, p: int, room: nat)
    requires Sited(s, f, room) && j < |s.pos| && Position(p)
    ensures var t := PatchNext(s, j, p);
      && t.end == s.end && t.pos == s.pos && t.contents.Keys == s.contents.Keys
      && (forall o :: o in s.contents && o != s.pos[j] ==> t.contents[o] == s.contents[o])
      && (Saved(s, j) ==> |t.contents[s.pos[j]]| == 32)
      && (Saved(s, j) ==> forall prev, next ::
            Position(prev) && Position(next) && s.contents[s.pos[j]] == NodeBytes(prev, next, f.ids[j], f.handles[j]) ==>
            t.contents[s.pos[j]] == NodeBytes(prev, p, f.ids[j], f.handles[j]))
  {
    hide NodeBytes, NextOf, WithNext;
    var t := PatchNext(s, j, p);
    if Saved(s, j) {
      forall prev, next |
        Position(prev) && Position(next) && s.contents[s.pos[j]] == NodeBytes(prev, next, f.ids[j], f.handles[j])
        ensures t.contents[s.pos[j]] == NodeBytes(prev, p, f.ids[j], f.handles[j])
      {
        LinksOf(prev, next, f.ids[j], f.handles[j]);
        Relinked(prev, next, f.ids[j], f.handles[j], p);
      }
    }
  }

  lemma PatchPrevEffect(s: State, f: Fixed, j: nat, p: int, room: nat)
    requires Sited(s, f, room) && j < |s.pos| && Position(p)
    ensures var t := PatchPrev(s, j, p);
      && t.end == s.end && t.pos == s.pos && t.contents.Keys == s.contents.Keys
      && (forall o :: o in s.contents && o != s.pos[j] ==> t.contents[o] == s.contents[o])
      && (Saved(s, j) ==> |t.contents[s.pos[j]]| == 32)
      && (Saved(s, j) ==> forall prev, next ::
            Position(prev) && Position(next) && s.contents[s.pos[j]] == NodeBytes(prev, next, f.ids[j], f.handles[j]) ==>
            t.contents[s.pos[j]] == NodeBytes(p, next, f.ids[j], f.handles[j]))
  {
    hide NodeBytes, PrevOf, WithPrev;
    var t := PatchPrev(s, j, p);
    if Saved(s, j) {
      forall prev, next |
        Position(prev) && Position(next) && s.contents[s.pos[j]] == NodeBytes(prev, next, f.ids[j], f.handles[j])
        ensures t.contents[s.pos[j]] == NodeBytes(p, next, f.ids[j], f.handles[j])
      {
        LinksOf(prev, next, f.ids[j], f.handles[j]);
        Relinked(prev, next, f.ids[j], f.handles[j], p);
      }
    }
  }

  lemma Adjacent(i: nat, j: nat, n: nat)
    requires i < n && j < n
    ensures After(j, n) == i <==> j == Before(i, n)
    ensures Before(j, n) == i <==> j == After(i, n)
  {
  }

  lemma WriteEffect(s: State, f: Fixed, i: nat, room: nat)
    requires Sited(s, f, room) && i < |s.pos| && (Saved(s, i) || room > 0)
    ensures var t := Write(s, f, i);
      && Sited(t, f, if Saved(s, i) then room else room - 1) && Saved(t, i)
      && t.contents[t.pos[i]] == Image(s, f, i)
      && (forall j :: 0 <= j < |s.pos| && j != i ==> t.pos[j] == s.pos[j])
      && (Saved(s, i) ==> t.pos == s.pos && t.end == s.end)
      && (!Saved(s, i) ==> t.pos[i] == s.end && t.end == s.end + 48)
      && (forall o :: o in s.contents && o != t.pos[i] ==> o in t.contents && t.contents[o] == s.contents[o])
      && (forall o :: o in t.contents ==> o in s.contents || o == t.pos[i])
  {
    hide Image;
  }

  lemma PatchesKeepSites(s: State, t: State, f: Fixed, j: nat, room: nat)
    requires Sited(s, f, room) && j < |s.pos|
    requires t.end == s.end && t.pos == s.pos && t.contents.Keys == s.contents.Keys
    requires forall o :: o in s.contents && o != s.pos[j] ==> t.contents[o] == s.contents[o]
    requires Saved(s, j) ==> |t.contents[s.pos[j]]| == 32
    ensures Sited(t, f, room)
  {
    assert forall o :: o in t.contents <==> o in t.contents.Keys;
  }

  lemma PatchesDisturbNothing(s: State, w: State, t: State, f: Fixed, i: nat, room: nat)
    requires Sited(s, f, room) && i < |s.pos| && w == Write(s, f, i) && (Saved(s, i) || room > 0)
    requires t.pos == w.pos && t.end == w.end && t.contents.Keys == w.contents.Keys
    requires forall o :: o in w.contents && o !in w.pos ==> t.contents[o] == w.contents[o]
    ensures Undisturbed(s, t)
    ensures forall o :: o in t.contents ==> o in s.contents || o == t.pos[i]
  {
    hide Image, Sited;
    WriteEffect(s, f, i, room);
    assert w.pos[i] in w.pos;
    assert forall o :: o in t.contents <==> o in t.contents.Keys;
    assert forall o :: o in w.contents <==> o in w.contents.Keys;
  }

  /** What one save does, apart from what the records say. */
  lemma SaveEffect(s: State, f: Fixed, i: nat, room: nat)
    requires Sited(s, f, room) && i < |s.pos| && (Saved(s, i) || room > 0)
    ensures var t := Save(s, f, i);
      && Sited(t, f, if Saved(s, i) then room else room - 1) && Saved(t, i)
      && t.pos == Write(s, f, i).pos && t.end == Write(s, f, i).end
      && Undisturbed(s, t)
      && (forall o :: o in t.contents ==> o in s.contents || o == t.pos[i])
  {
    hide Image, Write, PatchNext, PatchPrev, Sited, Undisturbed;
    var n := |s.pos|;
    var left, right := Before(i, n), After(i, n);
    var rest := if Saved(s, i) then room else room - 1;
    SitedFacts(s, f, room);
    WriteEffect(s, f, i, room);
    var w := Write(s, f, i);
    var p := w.pos[i];
    SitedFacts(w, f, rest);
    PatchNextEffect(w, f, left, p, rest);
    var a := PatchNext(w, left, p);
    PatchesKeepSites(w, a, f, left, rest);
    PatchPrevEffect(a, f, right, p, rest);
    var t := PatchPrev(a, right, p);
    PatchesKeepSites(a, t, f, right, rest);
    assert w.pos[left] in w.pos && w.pos[right] in w.pos;
    PatchesDisturbNothing(s, w, t, f, i, room);
  }

  lemma SitedFacts(s: State, f: Fixed, room: nat)
    requires Sited(s, f, room)
    ensures |s.pos| == |f.ids| == |f.handles| > 0 && 0 < s.end < BOUND
    ensures forall i :: 0 <= i < |s.pos| ==> Position(s.pos[i])
    ensures forall i :: 0 <= i < |s.pos| && Saved(s, i) ==> s.pos[i] in s.contents
    ensures forall i, j :: 0 <= i < |s.pos| && 0 <= j < |s.pos| && i != j && Saved(s, i) && Saved(s, j) ==>
      s.pos[i] != s.pos[j]
  {
  }

  /** Saving node `i` puts its image on disk and keeps every image that was there, though positions
      change under it: the patches follow them. */
  lemma SaveKeepsImages(s: State, f: Fixed, i: nat, j: nat, room: nat)
    requires Sited(s, f, room) && i < |s.pos| && j < |s.pos| && (Saved(s, i) || room > 0)
    requires i == j || Imaged(s, f, j)
    ensures Imaged(Save(s, f, i), f, j)
  {
    hide NodeBytes, Write, PatchNext, PatchPrev, Sited, After, Before;
    var n := |s.pos|;
    var left, right := Before(i, n), After(i, n);
    var rest := if Saved(s, i) then room else room - 1;
    SitedFacts(s, f, room);
    WriteEffect(s, f, i, room);
    var w := Write(s, f, i);
    var p, at := w.pos[i], w.pos[j];
    SitedFacts(w, f, rest);
    Adjacent(i, j, n);
    assert w.contents[at] == NodeBytes(s.pos[Before(j, n)], s.pos[After(j, n)], f.ids[j], f.handles[j]);
    PatchNextEffect(w, f, left, p, rest);
    var a := PatchNext(w, left, p);
    PatchesKeepSites(w, a, f, left, rest);
    assert a.contents[at] == NodeBytes(s.pos[Before(j, n)], w.pos[After(j, n)], f.ids[j], f.handles[j]);
    PatchPrevEffect(a, f, right, p, rest);
  }

  function Unsaved(pos: seq<int>): (n: nat)
    ensures n <= |pos|
  {
    if pos == [] then 0 else Unsaved(pos[..|pos| - 1]) + if pos[|pos| - 1] <= 0 then 1 else 0
  }

  lemma {:induction false} UnsavedUpdate(pos: seq<int>, i: nat, p: int)
    requires i < |pos| && p > 0
    ensures Unsaved(pos[i := p]) == Unsaved(pos) - if pos[i] <= 0 then 1 else 0
  {
    var n := |pos| - 1;
    if i == n {
      assert pos[i := p][..n] == pos[..n];
    } else {
      UnsavedUpdate(pos[..n], i, p);
      assert pos[i := p][..n] == pos[..n][i := p];
    }
  }

  lemma {:induction false} NoneUnsaved(pos: seq<int>)
    requires forall i :: 0 <= i < |pos| ==> pos[i] > 0
    ensures Unsaved(pos) == 0
  {
    if pos != [] {
      NoneUnsaved(pos[..|pos| - 1]);
    }
  }

  lemma AllSaved(s: State, f: Fixed)
    requires |s.pos| == |f.ids| == |f.handles| && forall j :: 0 <= j < |s.pos| ==> Imaged(s, f, j)
    ensures Unsaved(s.pos) == 0
  {
    forall j | 0 <= j < |s.pos|
      ensures s.pos[j] > 0
    {
      assert Imaged(s, f, j);
    }
    NoneUnsaved(s.pos);
  }

  lemma {:induction false} SomeUnsaved(pos: seq<int>, i: nat)
    requires i < |pos| && pos[i] <= 0
    ensures Unsaved(pos) > 0
  {
    if i < |pos| - 1 {
      SomeUnsaved(pos[..|pos| - 1], i);
    }
  }

  /** One save, counted. */
  lemma OneSave(s: State, f: Fixed, i: nat, room: nat)
    requires Sited(s, f, room) && i < |s.pos| && Unsaved(s.pos) <= room
    ensures var t := Save(s, f, i);
      && Sited(t, f, room - (Unsaved(s.pos) - Unsaved(t.pos))) && Undisturbed(s, t) && Saved(t, i)
      && Unsaved(t.pos) == Unsaved(s.pos) - (if Saved(s, i) then 0 else 1)
      && t.end == s.end + 48 * (Unsaved(s.pos) - Unsaved(t.pos))
  {
    hide Save, Sited, Undisturbed, Unsaved, Image;
    SitedFacts(s, f, room);
    if !Saved(s, i) {
      SomeUnsaved(s.pos, i);
      UnsavedUpdate(s.pos, i, s.end);
    }
    SaveEffect(s, f, i, room);
  }

  /** The links on disk are those of the ring. */
  lemma DiskLinks(s: State, f: Fixed, i: nat, room: nat)
    requires Sited(s, f, room) && i < |s.pos| && Imaged(s, f, i)
    ensures |s.contents[s.pos[i]]| == 32
    ensures PrevOf(s.contents[s.pos[i]]) == s.pos[Before(i, |s.pos|)]
    ensures NextOf(s.contents[s.pos[i]]) == s.pos[After(i, |s.pos|)]
    ensures Fits(f.ids[i], 4) && Fits(f.handles[i], 8) ==>
      IdOf(s.contents[s.pos[i]]) == f.ids[i] && DataOf(s.contents[s.pos[i]]) == f.handles[i]
  {
    hide NodeBytes, PrevOf, NextOf, IdOf, DataOf, Sited, Fits;
    SitedFacts(s, f, room);
    var n := |s.pos|;
    LinksOf(s.pos[Before(i, n)], s.pos[After(i, n)], f.ids[i], f.handles[i]);
    if Fits(f.ids[i], 4) && Fits(f.handles[i], 8) {
      NodeFields(s.pos[Before(i, n)], s.pos[After(i, n)], f.ids[i], f.handles[i]);
    }
  }

  /** Saving a node of a ring that is on disk already writes the same bytes again. */
  lemma SaveAgain(s: State, f: Fixed, i: nat, room: nat)
    requires Sited(s, f, room) && i < |s.pos| && forall j :: 0 <= j < |s.pos| ==> Imaged(s, f, j)
    ensures Save(s, f, i) == s
  {
    hide NodeBytes, PrevOf, NextOf, IdOf, DataOf, Sited;
    SitedFacts(s, f, room);
    var n := |s.pos|;
    var left, right := Before(i, n), After(i, n);
    assert Imaged(s, f, i) && Imaged(s, f, left) && Imaged(s, f, right);
    DiskLinks(s, f, left, room);
    DiskLinks(s, f, right, room);
    Adjacent(i, left, n);
    Adjacent(i, right, n);
    assert s.contents[s.pos[i] := Image(s, f, i)] == s.contents;
  }

  /** The whole ring is on disk, image by image. */
  ghost predicate AllImaged(s: State, f: Fixed) {
    && |s.pos| == |f.ids| == |f.handles| > 0
    && forall j :: 0 <= j < |s.pos| ==> Imaged(s, f, j)
  }

  // ----- the data between the nodes -----

  function DiskOf(s: State): Disk { Disk(s.contents, s.end) }

  /** What the ring's data do to the store file while its nodes are saved. `step` stores the datum of node
      `k`, `ref` is the handle the node keeps of it, `owns` says which records the data have, `sound` what
      holds when the data before node `k` are stored, and `rest` bounds what the others can append. */
  datatype Cargo<!M> = Cargo(
    step: (Disk, M, nat) -> (Disk, M),
    ref: (M, nat) -> int,
    owns: (M, int) -> bool,
    text: (M, int) -> bool,
    sound: (Disk, M, nat) -> bool,
    rest: nat -> nat)

  /** The ring, and where its data lie. */
  datatype Progress<M> = Progress(s: State, mem: M)

  function FixedBy<M>(ids: seq<int>, c: Cargo<M>, m: M): (f: Fixed)
    ensures f.ids == ids && |f.handles| == |ids| && forall i :: 0 <= i < |ids| ==> f.handles[i] == c.ref(m, i)
  {
    Fixed(ids, seq(|ids|, i requires 0 <= i => c.ref(m, i)))
  }

  /** Node `k`: first its datum, then its record. */
  function StoreNode<M>(p: Progress<M>, ids: seq<int>, c: Cargo<M>, k: nat): (q: Progress<M>)
    requires k < |p.s.pos| == |ids|
    ensures |q.s.pos| == |ids|
  {
    var (d, m) := c.step(DiskOf(p.s), p.mem, k);
    Progress(Save(State(d.contents, d.end, p.s.pos), FixedBy(ids, c, m), k), m)
  }

  function StoreFrom<M>(p: Progress<M>, ids: seq<int>, c: Cargo<M>, k: nat): (q: Progress<M>)
    requires k <= |p.s.pos| == |ids|
    ensures |q.s.pos| == |ids|
    decreases |ids| - k
  {
    if k == |ids| then p else StoreFrom(StoreNode(p, ids, c, k), ids, c, k + 1)
  }

  /** storeListNodes: the header, then the others; an empty list saves the header twice. */
  function StoreNodes<M>(p: Progress<M>, ids: seq<int>, c: Cargo<M>): (q: Progress<M>)
    requires |p.s.pos| == |ids| > 0
    ensures |q.s.pos| == |ids|
  {
    var q := StoreNode(p, ids, c, 0);
    if |ids| == 1 then StoreNode(q, ids, c, 0) else StoreFrom(q, ids, c, 1)
  }

  // ----- data that keep to themselves -----

  ghost predicate OtherRefs<M>(ref: (M, nat) -> int, m: M, m': M, k: nat) {
    forall j: nat :: j != k ==> ref(m', j) == ref(m, j)
  }

  /** Storing a datum changes no record but those the data have, appends no more than it said, and moves
      no other datum. The header has none. */
  ghost predicate StepLaw<M(!new)>(c: Cargo<M>, n: nat) {
    && (forall d, m {:trigger c.step(d, m, 0)} :: c.step(d, m, 0) == (d, m))
    && forall d, m, k {:trigger c.step(d, m, k)} ::
      0 < k < n && Sane(d) && c.sound(d, m, k) && d.end + c.rest(k) < BOUND ==>
      var (e, m') := c.step(d, m, k);
      && Spares(d, e, c.owns, m) && e.end + c.rest(k + 1) <= d.end + c.rest(k)
      && Newer(c.owns, m, m', d.end)
      && c.sound(e, m', k + 1)
      && OtherRefs(c.ref, m, m', k)
  }

  /** The data have their records, and do not depend on others. */
  ghost predicate OwnLaw<M(!new)>(c: Cargo<M>) {
    && (forall d, m, k, o {:trigger c.sound(d, m, k), c.owns(m, o)} ::
          Sane(d) && d.end < BOUND && c.sound(d, m, k) && c.owns(m, o) ==> o in d.contents)
    && (forall d, e, m, k {:trigger c.sound(d, m, k), c.sound(e, m, k)} ::
          Sane(d) && c.sound(d, m, k) && Agrees(d, e, c.owns, m) ==> c.sound(e, m, k))
  }

  /** Storing the data again, once they are all stored, changes padding only. */
  ghost predicate AgainLaw<M(!new)>(c: Cargo<M>, n: nat) {
    && (forall m, o {:trigger c.text(m, o)} :: c.text(m, o) ==> c.owns(m, o))
    && forall d, m, k: nat {:trigger c.step(d, m, k)} ::
      k < n && Sane(d) && d.end < BOUND && c.sound(d, m, n) ==>
      c.step(d, m, k).1 == m && Quiet(d, c.step(d, m, k).0, c.text, m) && c.sound(c.step(d, m, k).0, m, n)
  }

  /** No node is saved where a datum is. */
  ghost predicate Clear<M>(s: State, c: Cargo<M>, m: M) {
    forall i :: 0 <= i < |s.pos| && Saved(s, i) ==> !c.owns(m, s.pos[i])
  }

  /** What holds when the data before node `k` are stored. */
  ghost predicate Underway<M(!new)>(p: Progress<M>, ids: seq<int>, c: Cargo<M>, k: nat) {
    && Sited(p.s, FixedBy(ids, c, p.mem), 0) && Clear(p.s, c, p.mem)
    && c.sound(DiskOf(p.s), p.mem, k)
    && p.s.end + 48 * Unsaved(p.s.pos) + c.rest(k) < BOUND
  }

  /** From `p` to `q` saved nodes stay where they are, and records of no node and no datum stay as they are. */
  ghost predicate Advanced<M(!new)>(p: Progress<M>, q: Progress<M>, c: Cargo<M>) {
    && |p.s.pos| == |q.s.pos| && p.s.end <= q.s.end && Sane(DiskOf(q.s))
    && (forall i :: 0 <= i < |p.s.pos| ==>
          if Saved(p.s, i) then q.s.pos[i] == p.s.pos[i] else q.s.pos[i] <= 0 || p.s.end <= q.s.pos[i])
    && (forall o <- p.s.contents :: o in q.s.contents &&
          (o in q.s.pos || c.owns(p.mem, o) || q.s.contents[o] == p.s.contents[o]))
    && (forall o <- q.s.contents :: o in p.s.contents || p.s.end <= o)
    && Newer(c.owns, p.mem, q.mem, p.s.end)
  }

  lemma AdvancedTwice<M(!new)>(p: Progress<M>, q: Progress<M>, r: Progress<M>, c: Cargo<M>)
    requires Sane(DiskOf(p.s)) && Advanced(p, q, c) && Advanced(q, r, c)
    ensures Advanced(p, r, c)
  {
    forall o <- p.s.contents
      ensures o in r.s.contents && (o in r.s.pos || c.owns(p.mem, o) || r.s.contents[o] == p.s.contents[o])
    {
      if o in q.s.pos {
        var i :| 0 <= i < |q.s.pos| && q.s.pos[i] == o;
        assert Saved(q.s, i) && r.s.pos[i] == o;
      }
    }
  }

  lemma SitedRoom(s: State, f: Fixed, room: nat)
    requires Sited(s, f, 0) && s.end + 48 * room < BOUND
    ensures Sited(s, f, room)
  {
  }

  lemma SitedSane(s: State, f: Fixed, room: nat)
    requires Sited(s, f, room)
    ensures Sane(DiskOf(s)) && s.end < BOUND
    ensures Sited(s, f, 0)
  {
  }

  /** A record changed aside leaves the ring as it is. */
  lemma SitedAside(s: State, t: State, f: Fixed, g: Fixed)
    requires Sited(s, f, 0) && Sane(DiskOf(t)) && t.end < BOUND && t.pos == s.pos
    requires |g.ids| == |f.ids| && |g.handles| == |f.handles|
    requires forall i :: 0 <= i < |s.pos| && Saved(s, i) ==>
      s.pos[i] in t.contents && t.contents[s.pos[i]] == s.contents[s.pos[i]]
    ensures Sited(t, g, 0)
  {
    assert DiskOf(t).contents == t.contents;
  }

  lemma ImagedAside(s: State, t: State, f: Fixed, g: Fixed, j: nat)
    requires Fitting(s, f) && Fitting(t, g) && t.pos == s.pos && j < |s.pos|
    requires g.ids == f.ids && g.handles[j] == f.handles[j] && Imaged(s, f, j)
    requires s.pos[j] in t.contents && t.contents[s.pos[j]] == s.contents[s.pos[j]]
    ensures Imaged(t, g, j)
  {
    hide NodeBytes;
  }

  /** Nodes are untouched by what the data do. */
  lemma NodesSpared<M(!new)>(s: State, e: Disk, f: Fixed, c: Cargo<M>, m: M)
    requires Sited(s, f, 0) && Clear(s, c, m) && Spares(DiskOf(s), e, c.owns, m)
    ensures forall i :: 0 <= i < |s.pos| && Saved(s, i) ==>
      s.pos[i] in e.contents && e.contents[s.pos[i]] == s.contents[s.pos[i]]
  {
    forall i | 0 <= i < |s.pos| && Saved(s, i)
      ensures s.pos[i] in e.contents && e.contents[s.pos[i]] == s.contents[s.pos[i]]
    {
      assert s.pos[i] in DiskOf(s).contents;
    }
  }

  /** The datum of node `k`. */
  lemma DatumStored<M(!new)>(p: Progress<M>, ids: seq<int>, c: Cargo<M>, k: nat)
    requires Underway(p, ids, c, k) && 0 < k < |ids| && StepLaw(c, |ids|)
    ensures var (e, m) := c.step(DiskOf(p.s), p.mem, k);
      var q := Progress(State(e.contents, e.end, p.s.pos), m);
      && Underway(q, ids, c, k + 1) && Advanced(p, q, c)
      && q.s.end + c.rest(k + 1) <= p.s.end + c.rest(k)
      && (forall j :: 0 <= j < |ids| && j != k && Imaged(p.s, FixedBy(ids, c, p.mem), j) ==>
            Imaged(q.s, FixedBy(ids, c, m), j))
  {
    hide Sited, Imaged, Clear, Unsaved;
    var f := FixedBy(ids, c, p.mem);
    SitedSane(p.s, f, 0);
    SitedFacts(p.s, f, 0);
    var (e, m) := c.step(DiskOf(p.s), p.mem, k);
    var q := Progress(State(e.contents, e.end, p.s.pos), m);
    assert Spares(DiskOf(p.s), e, c.owns, p.mem);
    assert DiskOf(q.s) == e;
    NodesSpared(p.s, e, f, c, p.mem);
    SitedAside(p.s, q.s, f, FixedBy(ids, c, m));
    StillClear(p.s, q.s, f, c, p.mem, m);
    forall j | 0 <= j < |ids| && j != k && Imaged(p.s, f, j)
      ensures Imaged(q.s, FixedBy(ids, c, m), j)
    {
      ImagedSaved(p.s, f, j);
      ImagedAside(p.s, q.s, f, FixedBy(ids, c, m), j);
    }
  }

  lemma ImagedSaved(s: State, f: Fixed, j: nat)
    requires |s.pos| == |f.ids| == |f.handles| && j < |s.pos| && Imaged(s, f, j)
    ensures Saved(s, j)
  {
  }

  lemma StillClear<M(!new)>(s: State, t: State, f: Fixed, c: Cargo<M>, m: M, m': M)
    requires Sited(s, f, 0) && Clear(s, c, m) && t.pos == s.pos
    requires Newer(c.owns, m, m', s.end)
    ensures Clear(t, c, m')
  {
    forall i | 0 <= i < |t.pos| && Saved(t, i)
      ensures !c.owns(m', t.pos[i])
    {
      assert Saved(s, i);
    }
  }

  /** The record of node `k`, and its neighbours'. */
  lemma RecordSaved<M(!new)>(p: Progress<M>, ids: seq<int>, c: Cargo<M>, k: nat, n: nat)
    requires Underway(p, ids, c, n) && k < |ids| && OwnLaw(c)
    ensures var q := Progress(Save(p.s, FixedBy(ids, c, p.mem), k), p.mem);
      && Underway(q, ids, c, n) && Advanced(p, q, c)
      && q.s.end + 48 * Unsaved(q.s.pos) == p.s.end + 48 * Unsaved(p.s.pos)
      && (forall j :: 0 <= j < |ids| && (j == k || Imaged(p.s, FixedBy(ids, c, p.mem), j)) ==>
            Imaged(q.s, FixedBy(ids, c, p.mem), j))
  {
    hide Sited, Imaged, Clear, Unsaved, Save, Undisturbed, Agrees, Write;
    var f, room := FixedBy(ids, c, p.mem), Unsaved(p.s.pos);
    SitedSane(p.s, f, 0);
    SitedRoom(p.s, f, room);
    SitedFacts(p.s, f, 0);
    if !Saved(p.s, k) {
      SomeUnsaved(p.s.pos, k);
    }
    SaveEffect(p.s, f, k, room);
    OneSave(p.s, f, k, room);
    var q := Progress(Save(p.s, f, k), p.mem);
    SitedSane(q.s, f, room - (Unsaved(p.s.pos) - Unsaved(q.s.pos)));
    forall j | 0 <= j < |ids| && (j == k || Imaged(p.s, f, j))
      ensures Imaged(q.s, f, j)
    {
      SaveKeepsImages(p.s, f, k, j, room);
    }
    SaveAside(p, q, f, c, k, n);
  }

  lemma SaveAside<M(!new)>(p: Progress<M>, q: Progress<M>, f: Fixed, c: Cargo<M>, k: nat, n: nat)
    requires OwnLaw(c) && Sited(p.s, f, 0) && Sited(q.s, f, 0) && Clear(p.s, c, p.mem) && k < |p.s.pos|
    requires c.sound(DiskOf(p.s), p.mem, n) && q.mem == p.mem && Undisturbed(p.s, q.s)
    requires q.s.pos == Write(p.s, f, k).pos
    requires forall o :: o in q.s.contents ==> o in p.s.contents || o == q.s.pos[k]
    ensures Advanced(p, q, c) && Clear(q.s, c, q.mem) && c.sound(DiskOf(q.s), q.mem, n)
  {
    hide Image;
    var d, e := DiskOf(p.s), DiskOf(q.s);
    assert forall i :: 0 <= i < |q.s.pos| && Saved(q.s, i) ==> Saved(p.s, i) || q.s.pos[i] == p.s.end;
    assert Agrees(d, e, c.owns, p.mem);
  }

  /** Node `k` with its datum. */
  lemma NodeStored<M(!new)>(p: Progress<M>, ids: seq<int>, c: Cargo<M>, k: nat)
    requires Underway(p, ids, c, k) && 0 < k < |ids| && StepLaw(c, |ids|) && OwnLaw(c)
    ensures var q := StoreNode(p, ids, c, k);
      && Underway(q, ids, c, k + 1) && Advanced(p, q, c)
      && q.s.end + 48 * Unsaved(q.s.pos) + c.rest(k + 1) <= p.s.end + 48 * Unsaved(p.s.pos) + c.rest(k)
      && (forall j :: 0 <= j < |ids| && (j == k || Imaged(p.s, FixedBy(ids, c, p.mem), j)) ==>
            Imaged(q.s, FixedBy(ids, c, q.mem), j))
  {
    hide Underway, Advanced, Imaged, Save, StepLaw, OwnLaw, Unsaved;
    DatumStored(p, ids, c, k);
    var (e, m) := c.step(DiskOf(p.s), p.mem, k);
    var q := Progress(State(e.contents, e.end, p.s.pos), m);
    UnderwaySane(p, ids, c, k);
    RecordSaved(q, ids, c, k, k + 1);
    AdvancedTwice(p, q, StoreNode(p, ids, c, k), c);
  }

  lemma UnderwaySane<M(!new)>(p: Progress<M>, ids: seq<int>, c: Cargo<M>, k: nat)
    requires Underway(p, ids, c, k)
    ensures |p.s.pos| == |ids| > 0 && Sane(DiskOf(p.s)) && 0 < p.s.end < BOUND
    ensures Sited(p.s, FixedBy(ids, c, p.mem), 0)
  {
    SitedSane(p.s, FixedBy(ids, c, p.mem), 0);
  }

  lemma {:induction false} NodesStored<M(!new)>(p: Progress<M>, ids: seq<int>, c: Cargo<M>, k: nat)
    requires Underway(p, ids, c, k) && 0 < k <= |ids| && StepLaw(c, |ids|) && OwnLaw(c)
    requires forall j :: 0 <= j < k ==> Imaged(p.s, FixedBy(ids, c, p.mem), j)
    ensures var q := StoreFrom(p, ids, c, k);
      && Underway(q, ids, c, |ids|) && Advanced(p, q, c) && AllImaged(q.s, FixedBy(ids, c, q.mem))
      && q.s.end + c.rest(|ids|) <= p.s.end + 48 * Unsaved(p.s.pos) + c.rest(k)
    decreases |ids| - k
  {
    hide Underway, Advanced, Imaged, StoreNode, StepLaw, OwnLaw, Unsaved;
    UnderwaySane(p, ids, c, k);
    if k == |ids| {
      AllSaved(p.s, FixedBy(ids, c, p.mem));
      AdvancedSelf(p, ids, c, k);
    } else {
      NodeStored(p, ids, c, k);
      var q := StoreNode(p, ids, c, k);
      NodesStored(q, ids, c, k + 1);
      AdvancedTwice(p, q, StoreFrom(q, ids, c, k + 1), c);
    }
  }

  lemma AdvancedSelf<M(!new)>(p: Progress<M>, ids: seq<int>, c: Cargo<M>, k: nat)
    requires Underway(p, ids, c, k)
    ensures Advanced(p, p, c)
  {
    hide Unsaved;
  }

  /** The header, which has no datum. */
  lemma HeaderStored<M(!new)>(p: Progress<M>, ids: seq<int>, c: Cargo<M>, k: nat)
    requires Underway(p, ids, c, k) && StepLaw(c, |ids|) && OwnLaw(c)
    ensures var q := StoreNode(p, ids, c, 0);
      && Underway(q, ids, c, k) && Advanced(p, q, c)
      && q.s.end + 48 * Unsaved(q.s.pos) == p.s.end + 48 * Unsaved(p.s.pos)
      && (forall j :: 0 <= j < |ids| && (j == 0 || Imaged(p.s, FixedBy(ids, c, p.mem), j)) ==>
            Imaged(q.s, FixedBy(ids, c, q.mem), j))
  {
    hide Underway, Advanced, Imaged, Save, OwnLaw, Unsaved;
    UnderwaySane(p, ids, c, k);
    RecordSaved(p, ids, c, 0, k);
    assert StoreNode(p, ids, c, 0) == Progress(Save(p.s, FixedBy(ids, c, p.mem), 0), p.mem);
  }

  /** After saving any mix of saved and unsaved nodes, with each datum stored on the way, the records on
      disk form the same ring, with the same ids and with the data's handles. Saved nodes stay where they
      are, and records that are neither a node's nor a datum's do not change. */
  lemma SavedRing<M(!new)>(p: Progress<M>, ids: seq<int>, c: Cargo<M>)
    requires Underway(p, ids, c, 1) && |ids| > 0 && StepLaw(c, |ids|) && OwnLaw(c)
    ensures var q := StoreNodes(p, ids, c);
      && Underway(q, ids, c, |ids|) && Advanced(p, q, c) && AllImaged(q.s, FixedBy(ids, c, q.mem))
      && q.s.end + c.rest(|ids|) <= p.s.end + 48 * Unsaved(p.s.pos) + c.rest(1)
  {
    hide Underway, Advanced, Imaged, StoreNode, StepLaw, OwnLaw, Unsaved;
    UnderwaySane(p, ids, c, 1);
    HeaderStored(p, ids, c, 1);
    var q := StoreNode(p, ids, c, 0);
    UnderwaySane(q, ids, c, 1);
    if |ids| == 1 {
      HeaderStored(q, ids, c, 1);
      var r := StoreNode(q, ids, c, 0);
      AdvancedTwice(p, q, r, c);
      AllSaved(r.s, FixedBy(ids, c, r.mem));
    } else {
      NodesStored(q, ids, c, 1);
      AdvancedTwice(p, q, StoreFrom(q, ids, c, 1), c);
    }
  }

  // ----- saving again -----

  /** The ring and its data are on disk. */
  ghost predicate Settled<M(!new)>(p: Progress<M>, ids: seq<int>, c: Cargo<M>) {
    && Sited(p.s, FixedBy(ids, c, p.mem), 0) && AllImaged(p.s, FixedBy(ids, c, p.mem))
    && Clear(p.s, c, p.mem) && c.sound(DiskOf(p.s), p.mem, |ids|)
  }

  /** Nothing moved, and nothing but padding changed. */
  ghost predicate Idle<M(!new)>(p: Progress<M>, q: Progress<M>, c: Cargo<M>) {
    q.mem == p.mem && q.s.pos == p.s.pos && Quiet(DiskOf(p.s), DiskOf(q.s), c.text, p.mem)
  }

  lemma NodeAgain<M(!new)>(p: Progress<M>, ids: seq<int>, c: Cargo<M>, k: nat)
    requires Settled(p, ids, c) && k < |ids| && AgainLaw(c, |ids|)
    ensures var q := StoreNode(p, ids, c, k); Settled(q, ids, c) && Idle(p, q, c)
  {
    hide Sited, Imaged, Save, Quiet;
    var f := FixedBy(ids, c, p.mem);
    SitedSane(p.s, f, 0);
    SitedFacts(p.s, f, 0);
    var (e, m) := c.step(DiskOf(p.s), p.mem, k);
    var t := State(e.contents, e.end, p.s.pos);
    QuietKeys(DiskOf(p.s), e, c.text, p.mem);
    QuietKeeps(DiskOf(p.s), e, c.text, p.mem);
    forall i | 0 <= i < |p.s.pos| && Saved(p.s, i)
      ensures p.s.pos[i] in t.contents && t.contents[p.s.pos[i]] == p.s.contents[p.s.pos[i]]
    {
      assert p.s.pos[i] in DiskOf(p.s).contents;
    }
    assert DiskOf(t) == e;
    SitedAside(p.s, t, f, f);
    forall j | 0 <= j < |ids|
      ensures Imaged(t, f, j)
    {
      ImagedSaved(p.s, f, j);
      ImagedAside(p.s, t, f, f, j);
    }
    SaveAgain(t, f, k, 0);
    forall i | 0 <= i < |t.pos| && Saved(t, i)
      ensures !c.owns(m, t.pos[i])
    {
      assert Saved(p.s, i);
    }
  }

  lemma IdleTwice<M(!new)>(p: Progress<M>, q: Progress<M>, r: Progress<M>, c: Cargo<M>)
    requires Idle(p, q, c) && Idle(q, r, c)
    ensures Idle(p, r, c)
  {
    hide Quiet;
    QuietTwice(DiskOf(p.s), DiskOf(q.s), DiskOf(r.s), c.text, p.mem, c.text, p.mem, c.text, p.mem);
  }

  lemma {:induction false} NodesAgain<M(!new)>(p: Progress<M>, ids: seq<int>, c: Cargo<M>, k: nat)
    requires Settled(p, ids, c) && k < |ids| && AgainLaw(c, |ids|)
    ensures var q := StoreFrom(p, ids, c, k); Settled(q, ids, c) && Idle(p, q, c)
    decreases |ids| - k
  {
    hide Settled, Idle, StoreNode, AgainLaw;
    SettledFits(p, ids, c);
    NodeAgain(p, ids, c, k);
    var q := StoreNode(p, ids, c, k);
    if k + 1 < |ids| {
      NodesAgain(q, ids, c, k + 1);
      IdleTwice(p, q, StoreFrom(q, ids, c, k + 1), c);
    }
  }

  lemma SettledFits<M(!new)>(p: Progress<M>, ids: seq<int>, c: Cargo<M>)
    requires Settled(p, ids, c)
    ensures |p.s.pos| == |ids| > 0
  {
  }

  /** Saving a ring that is on disk with its data moves nothing, appends nothing and changes nothing but the
      padding of strings. */
  lemma SecondSave<M(!new)>(p: Progress<M>, ids: seq<int>, c: Cargo<M>)
    requires Settled(p, ids, c) && AgainLaw(c, |ids|) && |p.s.pos| == |ids| > 0
    ensures var q := StoreNodes(p, ids, c); Settled(q, ids, c) && Idle(p, q, c)
  {
    hide Settled, Idle, StoreNode, AgainLaw;
    SettledFits(p, ids, c);
    NodeAgain(p, ids, c, 0);
    var q := StoreNode(p, ids, c, 0);
    if |ids| == 1 {
      NodeAgain(q, ids, c, 0);
      IdleTwice(p, q, StoreNode(q, ids, c, 0), c);
    } else {
      NodesAgain(q, ids, c, 1);
      IdleTwice(p, q, StoreFrom(q, ids, c, 1), c);
    }
  }
}
