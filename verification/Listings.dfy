/** Lists in the store file (data/list.c, storeList and restoreList), on values: how a list of things of one
    kind is stored over whatever was saved of it before, and what reading it back gives. */
module Listings {
  import opened Octets
  import opened Stores
  import opened Disks
  import opened Kinds
  import opened RingImage
  import Lists

  // ----- the list's own record -----

  function ListBytes(listId: int, header: int, count: int, maxCount: int): (b: seq<byte>)
    ensures |b| == 24
  {
    LaySigned(listId, 4) + Lay(0, 4) + LaySigned(header, 8) + LaySigned(count, 4) + LaySigned(maxCount, 4)
  }

  lemma ListFields(listId: int, header: int, count: int, maxCount: int)
    requires Fits(listId, 4) && Position(header) && Fits(count, 4) && Fits(maxCount, 4)
    ensures var b := ListBytes(listId, header, count, maxCount);
      && Signed(b[..4]) == listId && Signed(b[8..16]) == header
      && Signed(b[16..20]) == count && Signed(b[20..]) == maxCount
  {
    hide LaySigned, Signed;
    var b := ListBytes(listId, header, count, maxCount);
    assert b[..4] == LaySigned(listId, 4) && b[8..16] == LaySigned(header, 8);
    assert b[16..20] == LaySigned(count, 4) && b[20..] == LaySigned(maxCount, 4);
    PositionFits(header);
    SignedLay(listId, 4);
    SignedLay(header, 8);
    SignedLay(count, 4);
    SignedLay(maxCount, 4);
  }

  // ----- lists -----

  /** A list: its own number, how many nodes it says it has, its highest id, and the nodes. */
  datatype Listing<T> = Listing(listId: int, count: int, maxCount: int, ids: seq<int>, items: seq<T>)

  /** Where the list's record is, its header and nodes, and its data. */
  datatype ListPlace<Q> = ListPlace(at: int, pos: seq<int>, items: seq<Q>)

  /** A list that was read back may say it has more nodes than it has. */
  predicate Proper<T>(l: Listing<T>) {
    && |l.ids| == |l.items| <= l.count
    && Fits(l.listId, 4) && Fits(l.count, 4) && Fits(l.maxCount, 4)
    && forall i :: 0 <= i < |l.ids| ==> Fits(l.ids[i], 4)
  }

  function RingIds<T>(l: Listing<T>): seq<int> { [-1] + l.ids }

  function StoreItem<T, Q>(a: Kind<T, Q, int>, pad: Padding, items: seq<T>, d: Disk, m: seq<Q>, k: nat):
    (Disk, seq<Q>)
  {
    if 0 < k <= |items| == |m| then
      var (e, q) := a.store(pad, d, items[k - 1], m[k - 1]);
      (e, m[k - 1 := q])
    else (d, m)
  }

  function ItemRef<T, Q>(a: Kind<T, Q, int>, m: seq<Q>, k: nat): int {
    if 0 < k <= |m| then a.ref(m[k - 1]) else 0
  }

  ghost predicate SomeOwns<Q>(owns: (Q, int) -> bool, m: seq<Q>, o: int) {
    exists i :: 0 <= i < |m| && owns(m[i], o)
  }

  /** The items before node `k` are stored, the others can be, and no two have a record in common. */
  ghost predicate ItemsSound<T, Q(!new)>(a: Kind<T, Q, int>, items: seq<T>, d: Disk, m: seq<Q>, k: nat) {
    && |m| == |items|
    && (forall i {:trigger m[i]} :: 0 <= i < |m| ==>
          if i + 1 < k then a.current(d, items[i], m[i]) else a.placed(d, items[i], m[i]))
    && (forall i, j {:trigger m[i], m[j]} :: 0 <= i < j < |m| ==> Apart(m[i], a.owns, m[j], a.owns))
  }

  function Sum<T>(cost: T -> nat, items: seq<T>): (n: nat) {
    if items == [] then 0 else cost(items[0]) + Sum(cost, items[1..])
  }

  function RestFrom<T>(cost: T -> nat, items: seq<T>, k: nat): nat {
    if k == 0 then Sum(cost, items) else if k <= |items| then Sum(cost, items[k - 1..]) else 0
  }

  ghost function CargoOf<T, Q(!new)>(a: Kind<T, Q, int>, pad: Padding, items: seq<T>): Cargo<seq<Q>> {
    Cargo((d, m, k) => StoreItem(a, pad, items, d, m, k),
          (m, k) => ItemRef(a, m, k),
          (m, o) => SomeOwns(a.owns, m, o), (m, o) => SomeOwns(a.text, m, o),
          (d, m, k) => ItemsSound(a, items, d, m, k),
          k => RestFrom(a.cost, items, k))
  }

  ghost predicate AllFit<T>(fits: T -> bool, items: seq<T>) {
    forall i {:trigger items[i]} :: 0 <= i < |items| ==> fits(items[i])
  }

  // ----- the items as the ring's data -----

  lemma RestStep<T>(cost: T -> nat, items: seq<T>, k: nat)
    requires 0 < k <= |items|
    ensures RestFrom(cost, items, k) == cost(items[k - 1]) + RestFrom(cost, items, k + 1)
  {
    var rest := items[k - 1..];
    assert rest[1..] == items[k..];
    assert Sum(cost, rest) == cost(rest[0]) + Sum(cost, rest[1..]);
  }

  /** Storing item `k` leaves the others as they were. */
  lemma ItemStored<T(!new), Q(!new)>(a: Kind<T, Q, int>, pad: Padding, items: seq<T>, d: Disk, m: seq<Q>, k: nat)
    requires Lawful(a) && Sane(d) && ItemsSound(a, items, d, m, k) && 0 < k <= |items|
    requires AllFit(a.fits, items)
    requires d.end + a.cost(items[k - 1]) < BOUND
    ensures var (e, m') := StoreItem(a, pad, items, d, m, k);
      && Spares(d, e, a.owns, m[k - 1]) && e.end <= d.end + a.cost(items[k - 1])
      && Newer(a.owns, m[k - 1], m'[k - 1], d.end)
      && ItemsSound(a, items, e, m', k + 1)
  {
    hide Lawful, Spares, Sane, Agrees, Apart;
    var (e, m') := StoreItem(a, pad, items, d, m, k);
    UseStores(a, pad, d, items[k - 1], m[k - 1]);
    SparesSane(d, e, a.owns, m[k - 1]);
    SaneKeys(d);
    forall i | 0 <= i < |m| && i != k - 1
      ensures if i + 1 < k then a.current(e, items[i], m[i]) else a.placed(e, items[i], m[i])
      ensures Apart(m[i], a.owns, m'[k - 1], a.owns) && Apart(m'[k - 1], a.owns, m[i], a.owns)
    {
      OtherItem(a, items, d, e, m, m'[k - 1], k, i);
    }
  }

  lemma OtherItem<T(!new), Q(!new)>(a: Kind<T, Q, int>, items: seq<T>, d: Disk, e: Disk, m: seq<Q>, q: Q, k: nat,
                                    i: nat)
    requires Lawful(a) && Sane(d) && ItemsSound(a, items, d, m, k) && 0 < k <= |items| && i < |items| && i != k - 1
    requires AllFit(a.fits, items)
    requires Spares(d, e, a.owns, m[k - 1]) && e.end < BOUND && d.end <= e.end
    requires Newer(a.owns, m[k - 1], q, d.end)
    ensures if i + 1 < k then a.current(e, items[i], m[i]) else a.placed(e, items[i], m[i])
    ensures Apart(m[i], a.owns, q, a.owns) && Apart(q, a.owns, m[i], a.owns)
  {
    hide Lawful, Spares, Sane, Agrees;
    assert Apart(m[i], a.owns, m[k - 1], a.owns) || Apart(m[k - 1], a.owns, m[i], a.owns);
    SaneKeys(d);
    OthersAgree(d, e, a.owns, m[k - 1], a.owns, m[i]);
    if i + 1 < k {
      UseCurrent(a, d, items[i], m[i]);
      UseCurrentStays(a, d, e, items[i], m[i]);
    } else {
      UsePlacedStays(a, d, e, items[i], m[i]);
      UseOwned(a, d, items[i], m[i]);
    }
  }

  lemma EitherApart<T(!new), Q(!new)>(a: Kind<T, Q, int>, items: seq<T>, d: Disk, m: seq<Q>, i: nat, j: nat)
    requires ItemsSound(a, items, d, m, |items| + 1) && i < |items| && j < |items| && i != j
    ensures forall o :: !(a.owns(m[i], o) && a.owns(m[j], o))
  {
    assert Apart(m[i], a.owns, m[j], a.owns) || Apart(m[j], a.owns, m[i], a.owns);
  }

  lemma ItemsOwned<T(!new), Q(!new)>(a: Kind<T, Q, int>, items: seq<T>, d: Disk, m: seq<Q>, k: nat, i: nat)
    requires Lawful(a) && Sane(d) && d.end < BOUND && ItemsSound(a, items, d, m, k) && i < |items|
    requires AllFit(a.fits, items)
    ensures a.placed(d, items[i], m[i]) && forall o :: a.owns(m[i], o) ==> o in d.contents
  {
    hide Lawful, Sane, Apart;
    assert m[i] == m[i];
    if i + 1 < k {
      UseCurrent(a, d, items[i], m[i]);
    }
    UseOwned(a, d, items[i], m[i]);
  }

  lemma SomeOwnsOne<Q>(owns: (Q, int) -> bool, m: seq<Q>, i: nat, o: int)
    requires i < |m| && owns(m[i], o)
    ensures SomeOwns(owns, m, o)
  {
  }

  lemma ItemsStepLaw<T(!new), Q(!new)>(a: Kind<T, Q, int>, pad: Padding, items: seq<T>)
    requires Lawful(a) && AllFit(a.fits, items)
    ensures StepLaw(CargoOf(a, pad, items), |items| + 1)
  {
    hide Lawful, Spares, Sane, ItemsSound, SomeOwns, RestFrom;
    var c := CargoOf(a, pad, items);
    forall d, m, k | 0 < k < |items| + 1 && Sane(d) && c.sound(d, m, k) && d.end + c.rest(k) < BOUND
      ensures var (e, m') := c.step(d, m, k);
        && Spares(d, e, c.owns, m) && e.end + c.rest(k + 1) <= d.end + c.rest(k)
        && Newer(c.owns, m, m', d.end)
        && c.sound(e, m', k + 1)
        && OtherRefs(c.ref, m, m', k)
    {
      ItemsStep(a, pad, items, d, m, k);
    }
  }

  lemma ItemsStep<T(!new), Q(!new)>(a: Kind<T, Q, int>, pad: Padding, items: seq<T>, d: Disk, m: seq<Q>, k: nat)
    requires Lawful(a) && AllFit(a.fits, items) && 0 < k <= |items| && Sane(d) && ItemsSound(a, items, d, m, k)
    requires d.end + RestFrom(a.cost, items, k) < BOUND
    ensures var (e, m') := StoreItem(a, pad, items, d, m, k);
      && Spares(d, e, CargoOf(a, pad, items).owns, m)
      && e.end + RestFrom(a.cost, items, k + 1) <= d.end + RestFrom(a.cost, items, k)
      && Newer(CargoOf(a, pad, items).owns, m, m', d.end)
      && ItemsSound(a, items, e, m', k + 1)
      && OtherRefs(CargoOf(a, pad, items).ref, m, m', k)
  {
    hide Lawful, Spares, Sane, Apart;
    ItemsSize(a, items, d, m, k);
    RestStep(a.cost, items, k);
    ItemStored(a, pad, items, d, m, k);
    var (e, m') := StoreItem(a, pad, items, d, m, k);
    hide ItemsSound;
    SparesAs(d, e, a.owns, m[k - 1], CargoOf(a, pad, items).owns, m);
    forall o | SomeOwns(a.owns, m', o)
      ensures SomeOwns(a.owns, m, o) || d.end <= o
    {
      var i :| 0 <= i < |m'| && a.owns(m'[i], o);
    }
  }

  lemma ItemsSize<T(!new), Q(!new)>(a: Kind<T, Q, int>, items: seq<T>, d: Disk, m: seq<Q>, k: nat)
    requires ItemsSound(a, items, d, m, k)
    ensures |m| == |items|
  {
  }

  lemma SparesAs<P, Z>(d: Disk, e: Disk, mine: (P, int) -> bool, p: P, all: (Z, int) -> bool, z: Z)
    requires Spares(d, e, mine, p) && forall o :: mine(p, o) ==> all(z, o)
    ensures Spares(d, e, all, z)
  {
  }

  lemma ItemsOwnLaw<T(!new), Q(!new)>(a: Kind<T, Q, int>, pad: Padding, items: seq<T>)
    requires Lawful(a) && AllFit(a.fits, items)
    ensures OwnLaw(CargoOf(a, pad, items))
  {
    hide Lawful, Sane, ItemsSound, Agrees;
    var c := CargoOf(a, pad, items);
    forall d, m, k, o | Sane(d) && d.end < BOUND && c.sound(d, m, k) && c.owns(m, o)
      ensures o in d.contents
    {
      ItemsSize(a, items, d, m, k);
      var i :| 0 <= i < |m| && a.owns(m[i], o);
      ItemsOwned(a, items, d, m, k, i);
    }
    forall d, e, m, k | Sane(d) && c.sound(d, m, k) && Agrees(d, e, c.owns, m)
      ensures c.sound(e, m, k)
    {
      ItemsStay(a, items, d, e, m, k, c.owns);
    }
  }

  lemma ItemsStay<T(!new), Q(!new)>(a: Kind<T, Q, int>, items: seq<T>, d: Disk, e: Disk, m: seq<Q>, k: nat,
                                    all: (seq<Q>, int) -> bool)
    requires Lawful(a) && Sane(d) && ItemsSound(a, items, d, m, k) && Agrees(d, e, all, m)
    requires forall o :: all(m, o) <==> SomeOwns(a.owns, m, o)
    ensures ItemsSound(a, items, e, m, k)
  {
    hide Lawful, Sane, Agrees, Apart, SomeOwns;
    forall i | 0 <= i < |m|
      ensures if i + 1 < k then a.current(e, items[i], m[i]) else a.placed(e, items[i], m[i])
    {
      forall o | a.owns(m[i], o)
        ensures all(m, o)
      {
        SomeOwnsOne(a.owns, m, i, o);
      }
      AgreesPart(d, e, all, m, a.owns, m[i]);
      if i + 1 < k {
        UseCurrentStays(a, d, e, items[i], m[i]);
      } else {
        UsePlacedStays(a, d, e, items[i], m[i]);
      }
    }
  }

  lemma ItemsAgainLaw<T(!new), Q(!new)>(a: Kind<T, Q, int>, pad: Padding, items: seq<T>)
    requires Lawful(a) && AllFit(a.fits, items)
    ensures AgainLaw(CargoOf(a, pad, items), |items| + 1)
  {
    hide Lawful, Sane, ItemsSound, Quiet, StoreItem;
    var c := CargoOf(a, pad, items);
    forall m, o | c.text(m, o)
      ensures c.owns(m, o)
    {
      var i :| 0 <= i < |m| && a.text(m[i], o);
      UseReload(a, m[i]);
    }
    hide SomeOwns;
    forall d, m, k: nat | k < |items| + 1 && Sane(d) && d.end < BOUND && c.sound(d, m, |items| + 1)
      ensures c.step(d, m, k).1 == m && Quiet(d, c.step(d, m, k).0, c.text, m)
      ensures c.sound(c.step(d, m, k).0, m, |items| + 1)
    {
      ItemAgain(a, pad, items, d, m, k);
    }
  }

  /** Storing an item again leaves every item current. */
  lemma ItemAgain<T(!new), Q(!new)>(a: Kind<T, Q, int>, pad: Padding, items: seq<T>, d: Disk, m: seq<Q>, k: nat)
    requires Lawful(a) && AllFit(a.fits, items) && Sane(d) && d.end < BOUND && k <= |items|
    requires ItemsSound(a, items, d, m, |items| + 1)
    ensures var (e, m') := StoreItem(a, pad, items, d, m, k);
      && m' == m && Quiet(d, e, CargoOf(a, pad, items).text, m) && ItemsSound(a, items, e, m, |items| + 1)
  {
    hide Lawful, Sane, Quiet, Apart, SomeOwns, Agrees;
    var all := CargoOf(a, pad, items).text;
    if k == 0 {
      QuietSelf(d, all, m);
    } else {
      var v, q := items[k - 1], m[k - 1];
      var e := a.store(pad, d, v, q).0;
      assert a.current(d, v, q);
      UseRepeats(a, pad, d, v, q);
      QuietKeys(d, e, a.text, q);
      forall o | a.text(q, o)
        ensures all(m, o)
      {
        SomeOwnsOne(a.text, m, k - 1, o);
      }
      QuietAs(d, e, a.text, q, all, m);
      forall i | 0 <= i < |m|
        ensures a.current(e, items[i], m[i])
      {
        if i != k - 1 {
          EitherApart(a, items, d, m, i, k - 1);
          OthersQuiet(d, e, a.text, q, a.owns, m[i]);
          UseCurrentStays(a, d, e, items[i], m[i]);
        }
      }
    }
  }

  // ----- the whole list -----

  /** storeList over a ring's data of any sort: the nodes, then the list's own record. */
  function PutRing<M>(p: Progress<M>, c: Cargo<M>, ids: seq<int>, at: int, listId: int, count: int, maxCount: int):
    (r: (Disk, int, Progress<M>))
    requires |p.s.pos| == |ids| > 0
    ensures |r.2.s.pos| == |ids|
  {
    var q := StoreNodes(p, ids, c);
    var (e, position) := Put(DiskOf(q.s), at, ListBytes(listId, q.s.pos[0], count, maxCount));
    (e, position, q)
  }

  predicate InRing(pos: seq<int>, o: int) { o > 0 && o in pos }

  /** A record of another size is not a node's. */
  lemma NotANode(s: State, f: Fixed, o: int)
    requires Sited(s, f, 0) && o in s.contents && |s.contents[o]| != 32
    ensures !InRing(s.pos, o)
  {
    if InRing(s.pos, o) {
      var i :| 0 <= i < |s.pos| && s.pos[i] == o;
      assert Saved(s, i);
    }
  }

  lemma PlacesKept<M(!new)>(r: Progress<M>, q: Progress<M>, c: Cargo<M>, o: int)
    requires Advanced(r, q, c) && Sane(DiskOf(r.s)) && o < r.s.end && InRing(q.s.pos, o)
    ensures InRing(r.s.pos, o)
  {
    var i :| 0 <= i < |q.s.pos| && q.s.pos[i] == o;
    assert r.s.pos[i] == o;
  }

  lemma AdvancedAt<M(!new)>(r: Progress<M>, q: Progress<M>, c: Cargo<M>, o: int)
    requires Advanced(r, q, c) && o in r.s.contents
    ensures o in q.s.contents && (o in q.s.pos || c.owns(r.mem, o) || q.s.contents[o] == r.s.contents[o])
    ensures c.owns(q.mem, o) ==> c.owns(r.mem, o) || r.s.end <= o
  {
  }

  /** The list's own record is not touched while the ring is saved. */
  lemma OwnRecordKept<M(!new)>(r: Progress<M>, q: Progress<M>, ids: seq<int>, c: Cargo<M>, at: int)
    requires Sited(r.s, FixedBy(ids, c, r.mem), 0) && Advanced(r, q, c)
    requires 0 < at && at in r.s.contents && |r.s.contents[at]| == 24 && !c.owns(r.mem, at)
    ensures at in q.s.contents && q.s.contents[at] == r.s.contents[at] && at !in q.s.pos && !c.owns(q.mem, at)
  {
    hide Advanced, FixedBy;
    SitedSane(r.s, FixedBy(ids, c, r.mem), 0);
    SaneKeys(DiskOf(r.s));
    AdvancedAt(r, q, c, at);
    if at in q.s.pos {
      PlacesKept(r, q, c, at);
      NotANode(r.s, FixedBy(ids, c, r.mem), at);
    }
  }

  lemma EndIsFree<M(!new)>(q: Progress<M>, ids: seq<int>, c: Cargo<M>)
    requires Underway(q, ids, c, |ids|) && OwnLaw(c)
    ensures q.s.end !in q.s.pos && !c.owns(q.mem, q.s.end)
  {
    hide Unsaved, Clear;
    UnderwaySane(q, ids, c, |ids|);
    SaneKeys(DiskOf(q.s));
  }

  /** A record that is no node's leaves the ring on disk. */
  lemma RingAside(s: State, t: State, f: Fixed, at: int)
    requires Sited(s, f, 0) && AllImaged(s, f) && t.pos == s.pos && Sane(DiskOf(t)) && t.end < BOUND
    requires at !in s.pos && forall o <- s.contents :: o != at ==> o in t.contents && t.contents[o] == s.contents[o]
    ensures Sited(t, f, 0) && AllImaged(t, f)
  {
    hide NodeBytes, Image;
    forall i | 0 <= i < |s.pos| && Saved(s, i)
      ensures s.pos[i] in t.contents && t.contents[s.pos[i]] == s.contents[s.pos[i]]
    {
      assert s.pos[i] in s.contents && s.pos[i] in s.pos;
    }
    SitedAside(s, t, f, f);
    forall j | 0 <= j < |t.pos|
      ensures Imaged(t, f, j)
    {
      ImagedSaved(s, f, j);
      ImagedAside(s, t, f, f, j);
    }
  }

  /** The list's own record is written beside the ring and its data. */
  lemma RecordAside<M(!new)>(q: Progress<M>, ids: seq<int>, c: Cargo<M>, at: int, b: seq<byte>)
    requires Underway(q, ids, c, |ids|) && OwnLaw(c) && AllImaged(q.s, FixedBy(ids, c, q.mem))
    requires |b| == 24 && q.s.end + 40 < BOUND
    requires at > 0 ==> at in q.s.contents && |q.s.contents[at]| == 24 && at !in q.s.pos && !c.owns(q.mem, at)
    ensures var (e, position) := Put(DiskOf(q.s), at, b);
      && Settled(Progress(State(e.contents, e.end, q.s.pos), q.mem), ids, c)
      && 0 < position && position in e.contents && e.contents[position] == b && !c.owns(q.mem, position)
      && (if at > 0 then position == at else position == q.s.end)
      && Spares(DiskOf(q.s), e, IsAt, at) && e.end <= q.s.end + 40
  {
    hide Sited, FixedBy, Unsaved, Put, Sane, AllImaged, Spares, Clear, Agrees;
    var f, t := FixedBy(ids, c, q.mem), DiskOf(q.s);
    UnderwaySane(q, ids, c, |ids|);
    PutSpares(t, at, b);
    var (e, position) := Put(t, at, b);
    SparesSane(t, e, IsAt, at);
    EndIsFree(q, ids, c);
    var s := State(e.contents, e.end, q.s.pos);
    assert DiskOf(s) == e;
    RingAside(q.s, s, f, position);
    assert Clear(s, c, q.mem) by { ClearAside(q.s, s, c, q.mem); }
    OthersAgree(t, e, IsAt, at, c.owns, q.mem);
  }

  lemma ClearAside<M(!new)>(s: State, t: State, c: Cargo<M>, m: M)
    requires Clear(s, c, m) && t.pos == s.pos
    ensures Clear(t, c, m)
  {
    forall i | 0 <= i < |t.pos| && Saved(t, i)
      ensures !c.owns(m, t.pos[i])
    {
      assert Saved(s, i);
    }
  }

  /** After storing a list over whatever is saved of it the ring is on disk with its data, and the list's own
      record says where. */
  lemma RingStored<M(!new)>(p: Progress<M>, c: Cargo<M>, ids: seq<int>, at: int, listId: int, count: int, maxCount: int)
    requires |p.s.pos| == |ids| > 0 && Underway(p, ids, c, 1) && StepLaw(c, |ids|) && OwnLaw(c)
    requires p.s.end + 48 * Unsaved(p.s.pos) + c.rest(1) + 40 < BOUND
    requires at > 0 ==> at in p.s.contents && |p.s.contents[at]| == 24 && !c.owns(p.mem, at)
    ensures var (e, position, q) := PutRing(p, c, ids, at, listId, count, maxCount);
      && Settled(Progress(State(e.contents, e.end, q.s.pos), q.mem), ids, c) && Advanced(p, q, c)
      && 0 < position && position in e.contents && !c.owns(q.mem, position)
      && e.contents[position] == ListBytes(listId, q.s.pos[0], count, maxCount)
      && (if at > 0 then position == at else position == q.s.end)
      && Spares(DiskOf(q.s), e, IsAt, at)
      && e.end <= p.s.end + 48 * Unsaved(p.s.pos) + c.rest(1) + 40
  {
    hide Sited, FixedBy, Unsaved, Put, Sane, AllImaged, Spares, Clear, Advanced, StoreNodes, ListBytes, Settled, StepLaw,
         OwnLaw, Underway;
    UnderwaySane(p, ids, c, 1);
    SavedRing(p, ids, c);
    var q := StoreNodes(p, ids, c);
    if at > 0 {
      OwnRecordKept(p, q, ids, c, at);
    }
    RecordAside(q, ids, c, at, ListBytes(listId, q.s.pos[0], count, maxCount));
  }

  ghost function PutList<T, Q(!new)>(a: Kind<T, Q, int>, pad: Padding, d: Disk, l: Listing<T>, p: ListPlace<Q>):
    (Disk, ListPlace<Q>)
  {
    if |p.pos| != |l.ids| + 1 then (d, p) else
      var (e, at, q) := PutRing(Progress(State(d.contents, d.end, p.pos), p.items), CargoOf(a, pad, l.items), RingIds(l),
                                p.at, l.listId, l.count, l.maxCount);
      (e, ListPlace(at, q.s.pos, q.mem))
  }

  /** The last record reached along the forward links before `start` comes round again. */
  function Follow(d: Disk, start: int, at: int, last: int, fuel: nat): int
    decreases fuel
  {
    if fuel == 0 || at == start || at <= 0 || at !in d.contents || |d.contents[at]| != 32 then last
    else Follow(d, start, NextOf(d.contents[at]), at, fuel - 1)
  }

  /** The record of the node at `p`, if there is one. */
  function NodeRecord(contents: map<int, seq<byte>>, p: int): (b: seq<byte>)
    ensures |b| == 32
  {
    if p in contents && |contents[p]| == 32 then contents[p] else NodeBytes(0, 0, 0, 0)
  }

  /** The header and the last node of the list at `p`. */
  function Ends(d: Disk, p: int): (int, int) {
    if p <= 0 || p !in d.contents || |d.contents[p]| != 24 then (0, 0) else
      var header := Signed(d.contents[p][8..16]);
      (header, Follow(d, header, NextOf(NodeRecord(d.contents, header)), header, |d.contents|))
  }

  /** restoreList: every node is read, the last one is kept. */
  function GetList<T>(restore: (Disk, int) -> T, d: Disk, p: int): Listing<T> {
    if p <= 0 || p !in d.contents || |d.contents[p]| != 24 then Listing(0, 0, 0, [], []) else
      var b := d.contents[p];
      var (header, last) := Ends(d, p);
      var node := NodeRecord(d.contents, last);
      Listing(Signed(b[..4]), Signed(b[16..20]), Signed(b[20..]),
              if last == header then [] else [IdOf(node)], if last == header then [] else [restore(d, DataOf(node))])
  }

  /** Where a list lies that was read back: its header and the node that was kept. */
  function FoundList<Q>(found: (Disk, int) -> Q, d: Disk, p: int): ListPlace<Q> {
    if p <= 0 || p !in d.contents || |d.contents[p]| != 24 then ListPlace(0, [0], []) else
      var (header, last) := Ends(d, p);
      if last == header then ListPlace(p, [header], [])
      else ListPlace(p, [header, last], [found(d, DataOf(NodeRecord(d.contents, last)))])
  }

  /** What comes back of a list. */
  function KeptListing<T>(l: Listing<T>, kept: T -> T): Listing<T> {
    if l.items == [] || |l.ids| != |l.items| then l else
      var n := |l.items| - 1;
      l.(ids := [l.ids[n]], items := [kept(l.items[n])])
  }

  ghost predicate ListOwns<Q>(owns: (Q, int) -> bool, p: ListPlace<Q>, o: int) {
    o == p.at > 0 || InRing(p.pos, o) || SomeOwns(owns, p.items, o)
  }

  function Ringed<Q>(d: Disk, p: ListPlace<Q>): Progress<seq<Q>> {
    Progress(State(d.contents, d.end, p.pos), p.items)
  }

  /** The ring's ids and data handles. */
  ghost function ListFixed<T, Q(!new)>(a: Kind<T, Q, int>, ids: seq<int>, m: seq<Q>): (f: Fixed)
    ensures |f.handles| == |f.ids| == |ids|
  {
    Fixed(ids, seq(|ids|, i requires 0 <= i => ItemRef(a, m, i)))
  }

  ghost predicate NodesClear<Q>(owns: (Q, int) -> bool, s: State, m: seq<Q>) {
    forall i :: 0 <= i < |s.pos| && Saved(s, i) ==> !SomeOwns(owns, m, s.pos[i])
  }

  /** The nodes, the data and the list's record each have records of their own. */
  ghost predicate Arranged<T, Q(!new)>(a: Kind<T, Q, int>, d: Disk, l: Listing<T>, p: ListPlace<Q>) {
    var s := Ringed(d, p).s;
    && |p.pos| == |l.ids| + 1
    && Sited(s, ListFixed(a, RingIds(l), p.items), 0)
    && NodesClear(a.owns, s, p.items)
    && (p.at > 0 ==> p.at in d.contents && |d.contents[p.at]| == 24 && !SomeOwns(a.owns, p.items, p.at))
  }

  ghost predicate ListPlaced<T, Q(!new)>(a: Kind<T, Q, int>, d: Disk, l: Listing<T>, p: ListPlace<Q>) {
    Arranged(a, d, l, p) && ItemsSound(a, l.items, d, p.items, 1)
  }

  ghost predicate ListCurrent<T, Q(!new)>(a: Kind<T, Q, int>, d: Disk, l: Listing<T>, p: ListPlace<Q>) {
    && Arranged(a, d, l, p) && ItemsSound(a, l.items, d, p.items, |l.items| + 1)
    && AllImaged(Ringed(d, p).s, ListFixed(a, RingIds(l), p.items))
    && p.at > 0 && d.contents[p.at] == ListBytes(l.listId, p.pos[0], l.count, l.maxCount)
  }

  predicate ListFits<T>(fits: T -> bool, l: Listing<T>) {
    Proper(l) && forall i {:trigger l.items[i]} :: 0 <= i < |l.items| ==> fits(l.items[i])
  }

  function ListCost<T>(cost: T -> nat, l: Listing<T>): nat { 48 * (|l.ids| + 1) + Sum(cost, l.items) + 40 }

  ghost function ListKind<T, Q(!new)>(a: Kind<T, Q, int>): Kind<Listing<T>, ListPlace<Q>, int> {
    Kind(l => ListFits(a.fits, l), l => ListCost(a.cost, l),
         (pad, d, l, p) => PutList(a, pad, d, l, p),
         (d, at) => GetList(a.restore, d, at),
         l => KeptListing(l, a.kept),
         (p: ListPlace<Q>) => p.at, Position, (p, r) => p, (d, at) => FoundList(a.found, d, at),
         (p, o) => ListOwns(a.owns, p, o), (p: ListPlace<Q>, o) => SomeOwns(a.text, p.items, o),
         (d, l, p) => ListPlaced(a, d, l, p), (d, l, p) => ListCurrent(a, d, l, p))
  }

  // ----- storing a list -----

  lemma CargoFixed<T, Q(!new)>(a: Kind<T, Q, int>, pad: Padding, items: seq<T>, ids: seq<int>, m: seq<Q>)
    ensures FixedBy(ids, CargoOf(a, pad, items), m) == ListFixed(a, ids, m)
  {
    var f, g := FixedBy(ids, CargoOf(a, pad, items), m), ListFixed(a, ids, m);
    assert forall i :: 0 <= i < |ids| ==> f.handles[i] == g.handles[i];
  }

  lemma CargoClear<T, Q(!new)>(a: Kind<T, Q, int>, pad: Padding, items: seq<T>, s: State, m: seq<Q>)
    ensures Clear(s, CargoOf(a, pad, items), m) <==> NodesClear(a.owns, s, m)
  {
    hide SomeOwns;
  }

  /** The list can be saved as it lies. */
  lemma ReadyToSave<T(!new), Q(!new)>(a: Kind<T, Q, int>, pad: Padding, d: Disk, l: Listing<T>, p: ListPlace<Q>)
    requires ListPlaced(a, d, l, p) && |l.ids| == |l.items| && d.end + ListCost(a.cost, l) < BOUND
    ensures Underway(Ringed(d, p), RingIds(l), CargoOf(a, pad, l.items), 1)
    ensures RestFrom(a.cost, l.items, 1) == Sum(a.cost, l.items)
  {
    hide Sited, ItemsSound, Clear, NodesClear, FixedBy, ListFixed, Unsaved;
    var c := CargoOf(a, pad, l.items);
    CargoFixed(a, pad, l.items, RingIds(l), p.items);
    CargoClear(a, pad, l.items, Ringed(d, p).s, p.items);
    assert l.items[0..] == l.items;
    assert DiskOf(Ringed(d, p).s) == d;
    assert Unsaved(p.pos) <= |p.pos|;
  }

  /** Saving the ring rewrites nothing but nodes and data. */
  lemma AdvancedSpares<T(!new), Q(!new)>(a: Kind<T, Q, int>, pad: Padding, items: seq<T>, d: Disk, p: ListPlace<Q>,
                                         q: Progress<seq<Q>>)
    requires Sane(d) && Advanced(Ringed(d, p), q, CargoOf(a, pad, items))
    ensures Spares(d, DiskOf(q.s), ListKind(a).owns, p)
    ensures Newer(CargoOf(a, pad, items).owns, p.items, q.mem, d.end)
    ensures forall o :: InRing(q.s.pos, o) ==> InRing(p.pos, o) || d.end <= o
  {
    hide SomeOwns;
    var r, c := Ringed(d, p), CargoOf(a, pad, items);
    assert DiskOf(r.s) == d;
    forall o | InRing(q.s.pos, o) && o < d.end
      ensures InRing(p.pos, o)
    {
      PlacesKept(r, q, c, o);
    }
  }

  lemma ListStored<T(!new), Q(!new)>(a: Kind<T, Q, int>, pad: Padding, d: Disk, l: Listing<T>, p: ListPlace<Q>)
    requires Lawful(a) && Sane(d) && ListFits(a.fits, l) && ListPlaced(a, d, l, p)
    requires d.end + ListCost(a.cost, l) < BOUND
    ensures var (e, q) := PutList(a, pad, d, l, p);
      && Spares(d, e, ListKind(a).owns, p) && e.end <= d.end + ListCost(a.cost, l)
      && Newer(ListKind(a).owns, p, q, d.end)
      && ListCurrent(a, e, l, q)
  {
    hide Lawful, Sited, ItemsSound, NodesClear, ListFixed, Unsaved, Advanced, AllImaged, StepLaw, OwnLaw, ListCurrent,
         PutRing, Spares, Sane, SomeOwns, ListBytes, Proper, RestFrom, InRing, Underway, CargoOf, Newer, Settled;
    var ids, c, r := RingIds(l), CargoOf(a, pad, l.items), Ringed(d, p);
    ProperSize(l);
    ReadyToSave(a, pad, d, l, p);
    ItemsStepLaw(a, pad, l.items);
    ItemsOwnLaw(a, pad, l.items);
    UnsavedFew(r.s.pos);
    CargoRest(a, pad, l.items, 1);
    CargoOwns(a, pad, l.items, p.items, p.at);
    RingStored(r, c, ids, p.at, l.listId, l.count, l.maxCount);
    var (e, at, q) := PutRing(r, c, ids, p.at, l.listId, l.count, l.maxCount);
    NowCurrent(a, pad, e, l, ListPlace(at, q.s.pos, q.mem));
    AdvancedSpares(a, pad, l.items, d, p, q);
    SaneKeys(d);
    SparesSane(d, DiskOf(q.s), ListKind(a).owns, p);
    SparesTwice(d, DiskOf(q.s), e, ListKind(a).owns, p, IsAt, p.at, ListKind(a).owns, p);
    NewerList(a, pad, l.items, d, p, q, at);
  }

  lemma CargoOwns<T, Q(!new)>(a: Kind<T, Q, int>, pad: Padding, items: seq<T>, m: seq<Q>, o: int)
    ensures CargoOf(a, pad, items).owns(m, o) == SomeOwns(a.owns, m, o)
  {
    hide SomeOwns;
  }

  lemma NowCurrent<T(!new), Q(!new)>(a: Kind<T, Q, int>, pad: Padding, d: Disk, l: Listing<T>, q: ListPlace<Q>)
    requires |l.ids| == |l.items| && |q.pos| == |l.ids| + 1
    requires Settled(Ringed(d, q), RingIds(l), CargoOf(a, pad, l.items))
    requires 0 < q.at && q.at in d.contents && !CargoOf(a, pad, l.items).owns(q.items, q.at)
    requires d.contents[q.at] == ListBytes(l.listId, q.pos[0], l.count, l.maxCount)
    ensures ListCurrent(a, d, l, q)
  {
    hide Sited, ItemsSound, NodesClear, ListFixed, AllImaged, ListBytes, SomeOwns, Settled, CargoOf;
    ListSettled(a, pad, d, l, q);
    CargoOwns(a, pad, l.items, q.items, q.at);
  }

  lemma UnsavedFew(pos: seq<int>)
    ensures Unsaved(pos) <= |pos|
  {
  }

  lemma CargoRest<T, Q(!new)>(a: Kind<T, Q, int>, pad: Padding, items: seq<T>, k: nat)
    ensures CargoOf(a, pad, items).rest(k) == RestFrom(a.cost, items, k)
  {
  }

  lemma NewerList<T(!new), Q(!new)>(a: Kind<T, Q, int>, pad: Padding, items: seq<T>, d: Disk, p: ListPlace<Q>,
                                    q: Progress<seq<Q>>, at: int)
    requires Newer(CargoOf(a, pad, items).owns, p.items, q.mem, d.end) && d.end <= q.s.end
    requires forall o :: InRing(q.s.pos, o) ==> InRing(p.pos, o) || d.end <= o
    requires at == p.at || at == q.s.end
    ensures Newer(ListKind(a).owns, p, ListPlace(at, q.s.pos, q.mem), d.end)
  {
    hide SomeOwns, InRing;
    var c, r := CargoOf(a, pad, items), ListPlace(at, q.s.pos, q.mem);
    forall o | ListOwns(a.owns, r, o)
      ensures ListOwns(a.owns, p, o) || d.end <= o
    {
      assert c.owns(q.mem, o) <==> SomeOwns(a.owns, q.mem, o);
    }
  }

  lemma ProperSize<T>(l: Listing<T>)
    requires Proper(l)
    ensures |l.ids| == |l.items|
  {
  }

  // ----- storing it again -----

  lemma ListSettled<T(!new), Q(!new)>(a: Kind<T, Q, int>, pad: Padding, d: Disk, l: Listing<T>, q: ListPlace<Q>)
    requires |l.ids| == |l.items| && |q.pos| == |l.ids| + 1
    ensures var r, c := Ringed(d, q), CargoOf(a, pad, l.items);
      Settled(r, RingIds(l), c) <==>
      && Sited(r.s, ListFixed(a, RingIds(l), q.items), 0) && AllImaged(r.s, ListFixed(a, RingIds(l), q.items))
      && NodesClear(a.owns, r.s, q.items) && ItemsSound(a, l.items, d, q.items, |l.items| + 1)
  {
    hide Sited, ItemsSound, Clear, NodesClear, FixedBy, ListFixed, AllImaged, SomeOwns;
    CargoFixed(a, pad, l.items, RingIds(l), q.items);
    CargoClear(a, pad, l.items, Ringed(d, q).s, q.items);
    assert DiskOf(Ringed(d, q).s) == d;
  }

  lemma TextOwned<T(!new), Q(!new)>(a: Kind<T, Q, int>, m: seq<Q>, o: int)
    requires Lawful(a) && SomeOwns(a.text, m, o)
    ensures SomeOwns(a.owns, m, o)
  {
    hide Lawful;
    var i :| 0 <= i < |m| && a.text(m[i], o);
    UseReload(a, m[i]);
  }

  lemma ListRepeated<T(!new), Q(!new)>(a: Kind<T, Q, int>, pad: Padding, d: Disk, l: Listing<T>, q: ListPlace<Q>)
    requires Lawful(a) && Sane(d) && d.end < BOUND && ListFits(a.fits, l) && ListCurrent(a, d, l, q)
    ensures var (e, q') := PutList(a, pad, d, l, q);
      q' == q && Quiet(d, e, ListKind(a).text, q) && ListCurrent(a, e, l, q)
  {
    hide Lawful, Sited, ItemsSound, NodesClear, ListFixed, AllImaged, AgainLaw, StoreNodes, Sane, SomeOwns, ListBytes, Put,
         Proper, CargoOf, Settled, Quiet;
    var ids, c, r := RingIds(l), CargoOf(a, pad, l.items), Ringed(d, q);
    ProperSize(l);
    ListSettled(a, pad, d, l, q);
    ItemsAgainLaw(a, pad, l.items);
    SecondSave(r, ids, c);
    var t := StoreNodes(r, ids, c);
    assert DiskOf(r.s) == d;
    CargoText(a, pad, l.items);
    QuietKeys(d, DiskOf(t.s), c.text, q.items);
    QuietKeeps(d, DiskOf(t.s), c.text, q.items);
    if SomeOwns(a.text, q.items, q.at) {
      TextOwned(a, q.items, q.at);
    }
    PutAgain(DiskOf(t.s), q.at, ListBytes(l.listId, q.pos[0], l.count, l.maxCount));
    QuietAs(d, DiskOf(t.s), c.text, q.items, ListKind(a).text, q);
    assert Ringed(DiskOf(t.s), q) == t;
    ListSettled(a, pad, DiskOf(t.s), l, q);
  }

  lemma CargoText<T(!new), Q(!new)>(a: Kind<T, Q, int>, pad: Padding, items: seq<T>)
    ensures forall m, o :: CargoOf(a, pad, items).text(m, o) <==> SomeOwns(a.text, m, o)
  {
    hide SomeOwns;
  }

  // ----- reading it back -----

  /** The records at these positions are linked forward in a ring. */
  ghost predicate RingOnDisk(contents: map<int, seq<byte>>, pos: seq<int>) {
    && |pos| > 0
    && (forall i :: 0 <= i < |pos| ==> 0 < pos[i] && pos[i] in contents && |contents[pos[i]]| == 32)
    && (forall i {:trigger contents[pos[i]]} :: 0 <= i < |pos| ==> NextOf(contents[pos[i]]) == pos[Lists.After(i, |pos|)])
    && (forall i :: 0 < i < |pos| ==> pos[i] != pos[0])
  }

  lemma SavedRingOnDisk(s: State, f: Fixed, room: nat)
    requires Sited(s, f, room) && AllImaged(s, f)
    ensures RingOnDisk(s.contents, s.pos)
  {
    hide NextOf, PrevOf, IdOf, DataOf, NodeBytes;
    forall i | 0 <= i < |s.pos|
      ensures 0 < s.pos[i] && s.pos[i] in s.contents && |s.contents[s.pos[i]]| == 32
      ensures NextOf(s.contents[s.pos[i]]) == s.pos[Lists.After(i, |s.pos|)]
      ensures i > 0 ==> s.pos[i] != s.pos[0]
    {
      assert Imaged(s, f, i) && Imaged(s, f, 0);
      DiskLinks(s, f, i, room);
    }
  }

  lemma {:induction false} FollowRing(d: Disk, pos: seq<int>, j: nat, fuel: nat)
    requires 0 < j <= |pos| && fuel >= |pos| - j && RingOnDisk(d.contents, pos)
    ensures Follow(d, pos[0], if j < |pos| then pos[j] else pos[0], pos[j - 1], fuel) == pos[|pos| - 1]
    decreases |pos| - j
  {
    hide NextOf;
    if j < |pos| {
      assert NextOf(d.contents[pos[j]]) == pos[Lists.After(j, |pos|)];
      FollowRing(d, pos, j + 1, fuel - 1);
    }
  }

  lemma {:induction false} NoMoreThanKeys(pos: seq<int>, keys: set<int>)
    requires forall i :: 0 <= i < |pos| ==> pos[i] in keys
    requires forall i, j :: 0 <= i < j < |pos| ==> pos[i] != pos[j]
    ensures |pos| <= |keys|
  {
    if pos != [] {
      var n := |pos| - 1;
      NoMoreThanKeys(pos[..n], keys - {pos[n]});
    }
  }

  /** What the list's record leads to. */
  lemma EndsRead<T(!new), Q(!new)>(a: Kind<T, Q, int>, d: Disk, l: Listing<T>, q: ListPlace<Q>)
    requires Sane(d) && d.end < BOUND && Proper(l) && ListCurrent(a, d, l, q)
    ensures |d.contents[q.at]| == 24 && Ends(d, q.at) == (q.pos[0], q.pos[|l.items|])
    ensures Signed(d.contents[q.at][..4]) == l.listId
    ensures Signed(d.contents[q.at][16..20]) == l.count && Signed(d.contents[q.at][20..]) == l.maxCount
    ensures q.pos[0] == q.pos[|l.items|] <==> l.items == []
  {
    hide Signed, NextOf, ListBytes, NodesClear, ItemsSound, Follow, NodeBytes, ListFixed;
    var s, f := Ringed(d, q).s, ListFixed(a, RingIds(l), q.items);
    SitedFacts(s, f, 0);
    SavedRingOnDisk(s, f, 0);
    ListFields(l.listId, q.pos[0], l.count, l.maxCount);
    assert forall i :: 0 <= i < |s.pos| ==> Imaged(s, f, i);
    NoMoreThanKeys(q.pos, d.contents.Keys);
    assert |d.contents.Keys| == |d.contents|;
    FirstLink(d, q.pos);
    FollowRing(d, q.pos, 1, |d.contents|);
  }

  lemma FirstLink(d: Disk, pos: seq<int>)
    requires RingOnDisk(d.contents, pos)
    ensures NextOf(NodeRecord(d.contents, pos[0])) == if |pos| > 1 then pos[1] else pos[0]
  {
    hide NextOf;
    assert NextOf(d.contents[pos[0]]) == pos[Lists.After(0, |pos|)];
  }

  /** What the last node says. */
  lemma LastRead<T(!new), Q(!new)>(a: Kind<T, Q, int>, d: Disk, l: Listing<T>, q: ListPlace<Q>)
    requires Lawful(a) && Located(a) && AllFit(a.fits, l.items)
    requires Sane(d) && d.end < BOUND && Proper(l) && ListCurrent(a, d, l, q) && l.items != []
    ensures var n := |l.items|; var node := NodeRecord(d.contents, q.pos[n]);
      && IdOf(node) == l.ids[n - 1] && DataOf(node) == a.ref(q.items[n - 1])
      && 0 < DataOf(node) < d.end
      && a.restore(d, DataOf(node)) == a.kept(l.items[n - 1])
  {
    hide NodesClear, NodeBytes, IdOf, DataOf, Fits, Lawful, ListBytes, Sane, Located, Signed;
    var n := |l.items|;
    var s, f := Ringed(d, q).s, ListFixed(a, RingIds(l), q.items);
    SitedFacts(s, f, 0);
    LastCurrent(a, d, l, q);
    assert Imaged(s, f, n);
    assert f.handles[n] == a.ref(q.items[n - 1]) && f.ids[n] == l.ids[n - 1];
    PositionFits(a.ref(q.items[n - 1]));
    DiskLinks(s, f, n, 0);
    UseReads(a, d, l.items[n - 1], q.items[n - 1]);
  }

  lemma LastCurrent<T(!new), Q(!new)>(a: Kind<T, Q, int>, d: Disk, l: Listing<T>, q: ListPlace<Q>)
    requires Lawful(a) && Located(a) && AllFit(a.fits, l.items)
    requires Sane(d) && d.end < BOUND && Proper(l) && ListCurrent(a, d, l, q) && l.items != []
    ensures var n := |l.items|; |q.items| == n && a.current(d, l.items[n - 1], q.items[n - 1])
    ensures forall i :: 0 <= i < |l.items| ==>
      0 < a.ref(q.items[i]) < d.end && (a.ref(q.items[i]) == a.ref(q.items[|l.items| - 1]) <==> i == |l.items| - 1)
  {
    hide NodesClear, ListBytes, Lawful, AllImaged, Sited;
    var n := |l.items| - 1;
    assert q.items[n] == q.items[n];
    forall i | 0 <= i < |l.items|
      ensures a.current(d, l.items[i], q.items[i]) && 0 < a.ref(q.items[i]) < d.end
      ensures a.ref(q.items[i]) == a.ref(q.items[n]) <==> i == n
    {
      assert a.current(d, l.items[i], q.items[i]) && a.current(d, l.items[n], q.items[n]);
      UseCurrent(a, d, l.items[i], q.items[i]);
      if i < n {
        assert Apart(q.items[i], a.owns, q.items[n], a.owns);
      }
    }
  }

  lemma ListReadLaw<T(!new), Q(!new)>(a: Kind<T, Q, int>)
    requires Lawful(a) && Located(a)
    ensures ReadLaw(ListKind(a))
  {
    hide Lawful, Located, ListCurrent, Signed, IdOf, DataOf, Sane, Proper, Ends;
    var c := ListKind(a);
    forall d, l, q | Sane(d) && d.end < BOUND && c.fits(l) && c.current(d, l, q)
      ensures c.restore(d, c.ref(q)) == c.kept(l)
    {
      ProperSize(l);
      HasRecord(a, d, l, q);
      EndsRead(a, d, l, q);
      if l.items != [] {
        LastRead(a, d, l, q);
      }
    }
  }

  lemma HasRecord<T(!new), Q(!new)>(a: Kind<T, Q, int>, d: Disk, l: Listing<T>, q: ListPlace<Q>)
    requires ListCurrent(a, d, l, q)
    ensures q.at > 0 && q.at in d.contents && |q.pos| == |l.ids| + 1
  {
    hide Sited, NodesClear, AllImaged, ItemsSound;
  }

  // ----- lists are lawful -----

  lemma ListOwned<T(!new), Q(!new)>(a: Kind<T, Q, int>, d: Disk, l: Listing<T>, p: ListPlace<Q>, o: int)
    requires Lawful(a) && ListPlaced(a, d, l, p) && ListOwns(a.owns, p, o)
    ensures o in d.contents
  {
    hide Lawful, NodesClear, ListFixed, Apart;
    if SomeOwns(a.owns, p.items, o) {
      var i :| 0 <= i < |p.items| && a.owns(p.items[i], o);
      UseOwned(a, d, l.items[i], p.items[i]);
    } else if InRing(p.pos, o) {
      var i :| 0 <= i < |p.pos| && p.pos[i] == o;
      assert Saved(Ringed(d, p).s, i);
    }
  }

  /** What is stored can be stored over. */
  lemma CurrentPlaced<T(!new), Q(!new)>(a: Kind<T, Q, int>, d: Disk, l: Listing<T>, q: ListPlace<Q>)
    requires Lawful(a) && Sane(d) && d.end < BOUND && ListFits(a.fits, l) && ListCurrent(a, d, l, q)
    ensures ListPlaced(a, d, l, q)
  {
    hide Lawful, Sane, Proper, Arranged, ListBytes;
    ProperSize(l);
    forall i | 0 <= i < |q.items|
      ensures a.placed(d, l.items[i], q.items[i])
    {
      assert a.current(d, l.items[i], q.items[i]);
      UseCurrent(a, d, l.items[i], q.items[i]);
    }
  }

  lemma StillNodesClear<Q>(owns: (Q, int) -> bool, s: State, t: State, m: seq<Q>)
    requires NodesClear(owns, s, m) && t.pos == s.pos
    ensures NodesClear(owns, t, m)
  {
    hide SomeOwns;
    forall i | 0 <= i < |t.pos| && Saved(t, i)
      ensures !SomeOwns(owns, m, t.pos[i])
    {
      assert Saved(s, i);
    }
  }

  /** The list lies the same wherever its records are the same. */
  lemma ArrangedStays<T(!new), Q(!new)>(a: Kind<T, Q, int>, d: Disk, e: Disk, l: Listing<T>, p: ListPlace<Q>)
    requires Sane(d) && Arranged(a, d, l, p) && Agrees(d, e, ListKind(a).owns, p)
    ensures Arranged(a, e, l, p)
    ensures p.at > 0 ==> p.at in e.contents && e.contents[p.at] == d.contents[p.at]
    ensures AllImaged(Ringed(d, p).s, ListFixed(a, RingIds(l), p.items)) ==>
      AllImaged(Ringed(e, p).s, ListFixed(a, RingIds(l), p.items))
  {
    hide SomeOwns, ListFixed, NodesClear, Image;
    var s, t, f := Ringed(d, p).s, Ringed(e, p).s, ListFixed(a, RingIds(l), p.items);
    forall i | 0 <= i < |s.pos| && Saved(s, i)
      ensures s.pos[i] in t.contents && t.contents[s.pos[i]] == s.contents[s.pos[i]]
    {
      assert InRing(p.pos, s.pos[i]);
      AgreesAt(d, e, ListKind(a).owns, p, s.pos[i]);
    }
    AgreesAt(d, e, ListKind(a).owns, p, p.at);
    assert DiskOf(t) == e;
    SitedAside(s, t, f, f);
    StillNodesClear(a.owns, s, t, p.items);
    if AllImaged(s, f) {
      forall j | 0 <= j < |t.pos|
        ensures Imaged(t, f, j)
      {
        ImagedSaved(s, f, j);
        ImagedAside(s, t, f, f, j);
      }
    }
  }

  lemma ListStayLaw<T(!new), Q(!new)>(a: Kind<T, Q, int>)
    requires Lawful(a)
    ensures StayLaw(ListKind(a))
  {
    hide Lawful, Arranged, ItemsSound, Sane, Agrees, SomeOwns, AllImaged, ListFixed, ListBytes, ListOwns;
    var c := ListKind(a);
    forall d, e, l, p | Sane(d) && Agrees(d, e, c.owns, p)
      ensures c.placed(d, l, p) ==> c.placed(e, l, p)
      ensures c.current(d, l, p) ==> c.current(e, l, p)
    {
      if c.placed(d, l, p) || c.current(d, l, p) {
        ArrangedStays(a, d, e, l, p);
        ItemsAgree(a, d, e, l, p);
        if c.placed(d, l, p) {
          ItemsStay(a, l.items, d, e, p.items, 1, CargoOf(a, NoPadding(), l.items).owns);
        }
        if c.current(d, l, p) {
          ItemsStay(a, l.items, d, e, p.items, |l.items| + 1, CargoOf(a, NoPadding(), l.items).owns);
        }
      }
    }
  }

  function NoPadding(): Padding { (o, i) => 0 }

  lemma ItemsAgree<T(!new), Q(!new)>(a: Kind<T, Q, int>, d: Disk, e: Disk, l: Listing<T>, p: ListPlace<Q>)
    requires Agrees(d, e, ListKind(a).owns, p)
    ensures Agrees(d, e, CargoOf(a, NoPadding(), l.items).owns, p.items)
  {
    hide SomeOwns;
  }

  lemma ListHoldLaw<T(!new), Q(!new)>(a: Kind<T, Q, int>)
    requires Lawful(a)
    ensures HoldLaw(ListKind(a)) && Located(ListKind(a))
  {
    hide Lawful, ListPlaced, ListCurrent, Sane, SomeOwns, Proper;
    var c := ListKind(a);
    forall d, l, p, o | c.placed(d, l, p) && c.owns(p, o)
      ensures o in d.contents
    {
      ListOwned(a, d, l, p, o);
    }
    forall d, l, q | c.current(d, l, q)
      ensures 0 < c.ref(q) && c.owns(q, c.ref(q))
      ensures Sane(d) && d.end < BOUND && c.fits(l) ==> c.placed(d, l, q) && c.fine(c.ref(q))
    {
      HasRecord(a, d, l, q);
      if Sane(d) && d.end < BOUND && c.fits(l) {
        CurrentPlaced(a, d, l, q);
        SaneKeys(d);
      }
    }
    forall q, o | c.text(q, o)
      ensures c.owns(q, o)
    {
      TextOwned(a, q.items, o);
    }
  }

  lemma ListStoreLaw<T(!new), Q(!new)>(a: Kind<T, Q, int>)
    requires Lawful(a)
    ensures StoreLaw(ListKind(a)) && RepeatLaw(ListKind(a))
  {
    hide Lawful, ListPlaced, ListCurrent, Sane, SomeOwns, Proper, PutList, Spares, Quiet, Newer, ListCost, ListFits;
    var c := ListKind(a);
    forall pad: Padding, d, l, p | Sane(d) && c.fits(l) && c.placed(d, l, p) && d.end + c.cost(l) < BOUND
      ensures var (e, q) := c.store(pad, d, l, p);
        && Spares(d, e, c.owns, p) && e.end <= d.end + c.cost(l)
        && Newer(c.owns, p, q, d.end)
        && c.current(e, l, q)
    {
      ListStored(a, pad, d, l, p);
    }
    forall pad: Padding, d, l, q | Sane(d) && d.end < BOUND && c.fits(l) && c.current(d, l, q)
      ensures var (e, q') := c.store(pad, d, l, q);
        q' == q && Quiet(d, e, c.text, q) && c.current(e, l, q)
    {
      ListRepeated(a, pad, d, l, q);
    }
  }

  /** Lists of lawful things are lawful, however many of their nodes and data are saved already. */
  lemma ListLawful<T(!new), Q(!new)>(a: Kind<T, Q, int>)
    requires Lawful(a) && Located(a)
    ensures Lawful(ListKind(a)) && Located(ListKind(a))
  {
    hide StoreLaw, RepeatLaw, ReadLaw, HoldLaw, StayLaw, Located;
    ListStoreLaw(a);
    ListReadLaw(a);
    ListHoldLaw(a);
    ListStayLaw(a);
  }
}
