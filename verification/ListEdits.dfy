/** What changing a list in memory means for its next save: the list still lies where it may be stored
    over (data/list.c, insertToList and removing nodes). */
module ListEdits {
  import opened Disks
  import opened Kinds
  import opened RingImage
  import opened Listings
  import Lists

  // ----- the changes -----

  /** insertToList: a node at the end, not saved yet. */
  function Inserted<T>(l: Listing<T>, x: T): Listing<T> {
    Listing(l.listId, l.count + 1, l.maxCount + 1, l.ids + [l.maxCount + 1], l.items + [x])
  }

  function PlaceInserted<Q>(p: ListPlace<Q>, q: Q): ListPlace<Q> { ListPlace(p.at, p.pos + [0], p.items + [q]) }

  /** Node `i` goes; what was saved of it stays in the file, and is nobody's. */
  function Removed<T>(l: Listing<T>, i: nat): Listing<T>
    requires i < |l.items| == |l.ids|
  {
    Listing(l.listId, l.count - 1, l.maxCount, Lists.Without(l.ids, i), Lists.Without(l.items, i))
  }

  function PlaceRemoved<Q>(p: ListPlace<Q>, i: nat): ListPlace<Q>
    requires i < |p.items| < |p.pos|
  {
    ListPlace(p.at, Lists.Without(p.pos, i + 1), Lists.Without(p.items, i))
  }

  function Replaced<T>(l: Listing<T>, i: nat, x: T): Listing<T>
    requires i < |l.items|
  {
    l.(items := l.items[i := x])
  }

  function PlaceReplaced<Q>(p: ListPlace<Q>, i: nat, q: Q): ListPlace<Q>
    requires i < |p.items|
  {
    p.(items := p.items[i := q])
  }

  // ----- they keep the list where it lies -----

  /** `q` has no records but those of `p`. */
  ghost predicate OwnsNoMore<P>(owns: (P, int) -> bool, p: P, q: P) {
    forall o :: owns(q, o) ==> owns(p, o)
  }

  ghost predicate OwnsNothing<P>(owns: (P, int) -> bool, p: P) {
    forall o :: !owns(p, o)
  }

  lemma PlacedShape<T(!new), Q(!new)>(a: Kind<T, Q, int>, d: Disk, l: Listing<T>, p: ListPlace<Q>)
    requires ListPlaced(a, d, l, p)
    ensures |p.items| == |l.items| && |p.pos| == |l.ids| + 1
  {
    hide Sited, NodesClear;
  }

  lemma SitedInserted(s: State, f: Fixed, g: Fixed)
    requires Sited(s, f, 0) && |g.ids| == |g.handles| == |s.pos| + 1
    ensures Sited(State(s.contents, s.end, s.pos + [0]), g, 0)
  {
    var t := State(s.contents, s.end, s.pos + [0]);
    assert forall i :: 0 <= i < |t.pos| && Saved(t, i) ==> i < |s.pos| && Saved(s, i);
  }

  lemma SitedRemoved(s: State, f: Fixed, g: Fixed, i: nat)
    requires Sited(s, f, 0) && 0 < i < |s.pos| && |g.ids| == |g.handles| == |s.pos| - 1
    ensures Sited(State(s.contents, s.end, Lists.Without(s.pos, i)), g, 0)
  {
    var t := State(s.contents, s.end, Lists.Without(s.pos, i));
    forall j | 0 <= j < |t.pos|
      ensures -BOUND < t.pos[j] < t.end && (Saved(t, j) ==> t.pos[j] in t.contents && |t.contents[t.pos[j]]| == 32)
    {
      assert Saved(t, j) == Saved(s, if j < i then j else j + 1);
    }
    forall j, k | 0 <= j < k < |t.pos| && Saved(t, j) && Saved(t, k)
      ensures t.pos[j] != t.pos[k]
    {
      var x, y := if j < i then j else j + 1, if k < i then k else k + 1;
      assert Saved(s, x) && Saved(s, y) && x < y;
    }
  }

  lemma InsertOwns<Q(!new)>(owns: (Q, int) -> bool, m: seq<Q>, q: Q, o: int)
    requires OwnsNothing(owns, q)
    ensures SomeOwns(owns, m + [q], o) <==> SomeOwns(owns, m, o)
  {
    if SomeOwns(owns, m + [q], o) {
      var i :| 0 <= i < |m + [q]| && owns((m + [q])[i], o);
      assert i < |m| && owns(m[i], o);
    }
    if SomeOwns(owns, m, o) {
      var i :| 0 <= i < |m| && owns(m[i], o);
      assert owns((m + [q])[i], o);
    }
  }

  lemma RemoveOwns<Q(!new)>(owns: (Q, int) -> bool, m: seq<Q>, i: nat, o: int)
    requires i < |m| && SomeOwns(owns, Lists.Without(m, i), o)
    ensures SomeOwns(owns, m, o)
  {
    var j :| 0 <= j < |m| - 1 && owns(Lists.Without(m, i)[j], o);
    assert owns(m[if j < i then j else j + 1], o);
  }

  lemma ReplaceOwns<Q(!new)>(owns: (Q, int) -> bool, m: seq<Q>, i: nat, q: Q, o: int)
    requires i < |m| && SomeOwns(owns, m[i := q], o) && OwnsNoMore(owns, m[i], q)
    ensures SomeOwns(owns, m, o)
  {
    var j :| 0 <= j < |m| && owns(m[i := q][j], o);
    assert owns(m[j], o);
  }

  lemma ItemsInserted<T(!new), Q(!new)>(a: Kind<T, Q, int>, items: seq<T>, d: Disk, m: seq<Q>, x: T, q: Q)
    requires ItemsSound(a, items, d, m, 1) && a.placed(d, x, q) && OwnsNothing(a.owns, q)
    ensures ItemsSound(a, items + [x], d, m + [q], 1)
  {
    var n := m + [q];
    forall i, j | 0 <= i < j < |n|
      ensures Apart(n[i], a.owns, n[j], a.owns)
    {
      if j < |m| {
        assert Apart(m[i], a.owns, m[j], a.owns);
      }
    }
    forall i | 0 <= i < |n|
      ensures a.placed(d, (items + [x])[i], n[i])
    {
      if i < |m| {
        assert a.placed(d, items[i], m[i]);
      }
    }
  }

  lemma ItemsRemoved<T(!new), Q(!new)>(a: Kind<T, Q, int>, items: seq<T>, d: Disk, m: seq<Q>, k: nat)
    requires ItemsSound(a, items, d, m, 1) && k < |m|
    ensures ItemsSound(a, Lists.Without(items, k), d, Lists.Without(m, k), 1)
  {
    hide Apart;
    var n := Lists.Without(m, k);
    forall i, j | 0 <= i < j < |n|
      ensures Apart(n[i], a.owns, n[j], a.owns)
    {
      var x, y := if i < k then i else i + 1, if j < k then j else j + 1;
      assert Apart(m[x], a.owns, m[y], a.owns);
    }
    forall i | 0 <= i < |n|
      ensures a.placed(d, Lists.Without(items, k)[i], n[i])
    {
      var x := if i < k then i else i + 1;
      assert a.placed(d, items[x], m[x]);
    }
  }

  lemma ItemsReplaced<T(!new), Q(!new)>(a: Kind<T, Q, int>, items: seq<T>, d: Disk, m: seq<Q>, k: nat, x: T, q: Q)
    requires ItemsSound(a, items, d, m, 1) && k < |m| && a.placed(d, x, q) && OwnsNoMore(a.owns, m[k], q)
    ensures ItemsSound(a, items[k := x], d, m[k := q], 1)
  {
    var n := m[k := q];
    forall i, j | 0 <= i < j < |n|
      ensures Apart(n[i], a.owns, n[j], a.owns)
    {
      assert Apart(m[i], a.owns, m[j], a.owns);
    }
    forall i | 0 <= i < |n|
      ensures a.placed(d, items[k := x][i], n[i])
    {
      if i != k {
        assert a.placed(d, items[i], m[i]);
      }
    }
  }

  /** A list with a new node, not saved yet, can be stored over what is saved of the others. */
  lemma InsertPlaced<T(!new), Q(!new)>(a: Kind<T, Q, int>, d: Disk, l: Listing<T>, p: ListPlace<Q>, x: T, q: Q)
    requires ListPlaced(a, d, l, p) && a.placed(d, x, q) && OwnsNothing(a.owns, q)
    ensures ListPlaced(a, d, Inserted(l, x), PlaceInserted(p, q))
    ensures OwnsNoMore(ListKind(a).owns, p, PlaceInserted(p, q))
  {
    hide SomeOwns, OwnsNothing;
    var m, r := Inserted(l, x), PlaceInserted(p, q);
    PlacedShape(a, d, l, p);
    forall o
      ensures SomeOwns(a.owns, r.items, o) <==> SomeOwns(a.owns, p.items, o)
    {
      InsertOwns(a.owns, p.items, q, o);
    }
    var s, t := Ringed(d, p).s, Ringed(d, r).s;
    SitedInserted(s, ListFixed(a, RingIds(l), p.items), ListFixed(a, RingIds(m), r.items));
    forall i | 0 <= i < |t.pos| && Saved(t, i)
      ensures !SomeOwns(a.owns, r.items, t.pos[i])
    {
      assert Saved(s, i);
    }
    ItemsInserted(a, l.items, d, p.items, x, q);
  }

  /** A list without one of its nodes can be stored over what is saved of the others. */
  lemma RemovePlaced<T(!new), Q(!new)>(a: Kind<T, Q, int>, d: Disk, l: Listing<T>, p: ListPlace<Q>, i: nat)
    requires ListPlaced(a, d, l, p) && i < |l.items| == |l.ids|
    ensures i < |p.items| < |p.pos|
    ensures ListPlaced(a, d, Removed(l, i), PlaceRemoved(p, i))
    ensures OwnsNoMore(ListKind(a).owns, p, PlaceRemoved(p, i))
  {
    hide SomeOwns, ItemsSound;
    PlacedShape(a, d, l, p);
    var m, r := Removed(l, i), PlaceRemoved(p, i);
    forall o | SomeOwns(a.owns, r.items, o)
      ensures SomeOwns(a.owns, p.items, o)
    {
      RemoveOwns(a.owns, p.items, i, o);
    }
    var s, t := Ringed(d, p).s, Ringed(d, r).s;
    SitedRemoved(s, ListFixed(a, RingIds(l), p.items), ListFixed(a, RingIds(m), r.items), i + 1);
    forall j | 0 <= j < |t.pos| && Saved(t, j)
      ensures !SomeOwns(a.owns, r.items, t.pos[j])
    {
      assert Saved(s, if j < i + 1 then j else j + 1);
    }
    ItemsRemoved(a, l.items, d, p.items, i);
  }

  /** A list with one of its data changed in place can be stored over what is saved of it. */
  lemma ReplacePlaced<T(!new), Q(!new)>(a: Kind<T, Q, int>, d: Disk, l: Listing<T>, p: ListPlace<Q>, i: nat, x: T, q: Q)
    requires ListPlaced(a, d, l, p) && i < |l.items| && i < |p.items| && a.placed(d, x, q)
    requires OwnsNoMore(a.owns, p.items[i], q)
    ensures ListPlaced(a, d, Replaced(l, i, x), PlaceReplaced(p, i, q))
    ensures OwnsNoMore(ListKind(a).owns, p, PlaceReplaced(p, i, q))
  {
    hide SomeOwns, ItemsSound, OwnsNoMore;
    var m, r := Replaced(l, i, x), PlaceReplaced(p, i, q);
    PlacedShape(a, d, l, p);
    forall o | SomeOwns(a.owns, r.items, o)
      ensures SomeOwns(a.owns, p.items, o)
    {
      ReplaceOwns(a.owns, p.items, i, q, o);
    }
    var s, t := Ringed(d, p).s, Ringed(d, r).s;
    ItemsReplaced(a, l.items, d, p.items, i, x, q);
    OwnsSubset(a, p, r);
  }

  lemma OwnsSubset<T(!new), Q(!new)>(a: Kind<T, Q, int>, p: ListPlace<Q>, r: ListPlace<Q>)
    requires r.at == p.at && forall o :: InRing(r.pos, o) ==> InRing(p.pos, o)
    requires forall o :: SomeOwns(a.owns, r.items, o) ==> SomeOwns(a.owns, p.items, o)
    ensures OwnsNoMore(ListKind(a).owns, p, r)
  {
    hide SomeOwns, InRing;
  }
}
