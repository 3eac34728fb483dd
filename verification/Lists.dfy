/** The circular doubly linked list with a sentinel (data/list.c). */
module Lists {
  import opened Text

  /** A reference to data; 0 is NULL. */
  type Datum = nat

  type Predicate = Datum -> bool

  class ListNode {
    var prev: ListNode?
    var next: ListNode?
    var data: Datum
    var id: int
    var storePosition: int
    ghost var freed: bool

    constructor (data: Datum, id: int)
      ensures this.data == data && this.id == id && storePosition == 0 && !freed
      ensures prev == null && next == null
    {
      this.data, this.id, storePosition := data, id, 0;
      prev, next := null, null;
      freed := false;
    }

    /** Gives the node back: once. */
    method Free()
      requires !freed
      modifies this
      ensures freed
    {
      data := 0;
      freed := true;
    }
  }

  // ----- rings -----

  function After(i: nat, n: nat): (k: nat)
    ensures n > 0 ==> k < n
  {
    if i + 1 < n then i + 1 else 0
  }

  function Before(i: nat, n: nat): (k: nat)
    requires n > 0
    ensures i < n ==> k < n
  {
    if i > 0 then i - 1 else n - 1
  }

  /** Where `node` first occurs. */
  ghost function Place(r: seq<ListNode>, node: ListNode): (k: nat)
    ensures k <= |r|
  {
    if r == [] || r[0] == node then 0 else 1 + Place(r[1..], node)
  }

  /** Every node occurs once. */
  ghost predicate Distinct(r: seq<ListNode>) {
    forall i :: 0 <= i < |r| ==> Place(r, r[i]) == i
  }

  lemma {:induction false} PlaceIsFirst(r: seq<ListNode>, node: ListNode)
    ensures Place(r, node) < |r| ==> r[Place(r, node)] == node
    ensures forall i :: 0 <= i < |r| && r[i] == node ==> Place(r, node) <= i
  {
    if r != [] && r[0] != node {
      PlaceIsFirst(r[1..], node);
      forall i | 0 <= i < |r| && r[i] == node
        ensures Place(r, node) <= i
      {
        assert r[1..][i - 1] == node;
      }
    }
  }

  lemma DistinctPairs(r: seq<ListNode>)
    ensures Distinct(r) <==> forall i, j :: 0 <= i < j < |r| ==> r[i] != r[j]
  {
    hide Place;
    forall node | node in r
      ensures Place(r, node) < |r| && r[Place(r, node)] == node
      ensures forall i :: 0 <= i < |r| && r[i] == node ==> Place(r, node) <= i
    {
      PlaceIsFirst(r, node);
    }
  }

  /** The nodes in this order, and back to the first: `prev` undoes `next`, and none is freed. */
  ghost predicate Ring(r: seq<ListNode>)
    reads r
  {
    && |r| > 0
    && Distinct(r)
    && (forall i {:trigger r[i].next} :: 0 <= i < |r| ==> r[i].next == r[After(i, |r|)])
    && (forall i {:trigger r[i].prev} :: 0 <= i < |r| ==> r[i].prev == r[Before(i, |r|)])
    && (forall i :: 0 <= i < |r| ==> !r[i].freed)
  }

  twostate predicate Kept(r: seq<ListNode>)
    reads r
  {
    forall i :: 0 <= i < |r| ==>
      && r[i].data == old(r[i].data) && r[i].id == old(r[i].id)
      && r[i].storePosition == old(r[i].storePosition)
  }

  /** Nodes linked in a ring but for place `k`, which is bridged over. */
  ghost predicate Bridged(r: seq<ListNode>, k: nat)
    requires 0 < k < |r|
    reads r
  {
    && Distinct(r)
    && r[k - 1].next == r[After(k, |r|)] && r[After(k, |r|)].prev == r[k - 1]
    && (forall i :: 0 <= i < |r| && i != k ==> !r[i].freed)
    && (forall i {:trigger r[i].next} :: 0 <= i < |r| && i != k && i != k - 1 ==> r[i].next == r[After(i, |r|)])
    && (forall i {:trigger r[i].prev} :: 0 <= i < |r| && i != k && i != After(k, |r|) ==> r[i].prev == r[Before(i, |r|)])
  }

  function Without<T>(r: seq<T>, k: nat): (s: seq<T>)
    requires k < |r|
    ensures |s| == |r| - 1
    ensures forall i :: 0 <= i < |s| ==> s[i] == r[if i < k then i else i + 1]
  {
    r[..k] + r[k + 1..]
  }

  lemma WithoutOnly<T>(r: seq<T>, k: nat)
    requires k < |r|
    ensures forall i :: 0 <= i < |r| && i != k ==> r[i] in Without(r, k)
  {
    hide Without;
    forall i | 0 <= i < |r| && i != k
      ensures r[i] in Without(r, k)
    {
      assert Without(r, k)[if i < k then i else i - 1] == r[i];
    }
  }

  lemma BridgedRing(r: seq<ListNode>, k: nat)
    requires 0 < k < |r| && Bridged(r, k)
    ensures Ring(Without(r, k))
  {
    hide Without, Place;
    var s := Without(r, k);
    DistinctPairs(r);
    DistinctPairs(s);
    forall i | 0 <= i < |s|
      ensures s[i].next == s[After(i, |s|)] && s[i].prev == s[Before(i, |s|)] && !s[i].freed
    {
      var j := if i < k then i else i + 1;
      assert s[i] == r[j];
    }
  }

  /** The new node sits between the last place and the first. */
  lemma SplicedRing(r: seq<ListNode>, node: ListNode)
    requires |r| > 0 && Distinct(r) && node !in r && !node.freed
    requires r[|r| - 1].next == node == r[0].prev && node.prev == r[|r| - 1] && node.next == r[0]
    requires forall i :: 0 <= i < |r| ==> !r[i].freed
    requires forall i {:trigger r[i].next} :: 0 <= i < |r| - 1 ==> r[i].next == r[After(i, |r|)]
    requires forall i {:trigger r[i].prev} :: 0 < i < |r| ==> r[i].prev == r[Before(i, |r|)]
    ensures Ring(r + [node])
  {
    hide Place;
    DistinctPairs(r);
    DistinctPairs(r + [node]);
  }

  /** Bridges over place `k` of a ring and gives the node back. */
  method Cut(ptr: ListNode, ghost r: seq<ListNode>, ghost k: nat)
    requires Ring(r) && 0 < k < |r| && r[k] == ptr
    modifies r
    ensures Bridged(r, k) && ptr.freed
    ensures forall i :: 0 <= i < |r| && i != k ==>
      && r[i].data == old(r[i].data) && r[i].id == old(r[i].id)
      && r[i].storePosition == old(r[i].storePosition)
  {
    hide After, Before, Place;
    Neighbours(k, |r|);
    ghost var left, right := r[k - 1], r[After(k, |r|)];
    assert ptr.prev == left && ptr.next == right;
    ptr.prev.next := ptr.next;
    ptr.next.prev := ptr.prev;
    ptr.Free();
    assert Bridged(r, k) by {
      NeighboursOnly(k, |r|);
    }
  }

  /** Bridges over the first node after the header, and gives it back; when there is none the header itself
      is given back. */
  method CutFirst(header: ListNode, ghost r: seq<ListNode>) returns (data: Datum)
    requires Ring(r) && r[0] == header
    modifies r
    ensures |r| == 1 ==> header.freed && data == old(header.data)
    ensures |r| > 1 ==> Bridged(r, 1) && r[1].freed && data == old(r[1].data)
    ensures |r| > 1 ==> forall i :: 0 <= i < |r| && i != 1 ==>
      && r[i].data == old(r[i].data) && r[i].id == old(r[i].id)
      && r[i].storePosition == old(r[i].storePosition)
  {
    hide After, Before, Place;
    OneAfter(0, |r|);
    var first := header.next;
    if |r| == 1 {
      assert first == header;
    } else {
      Neighbours(1, |r|);
      NeighboursOnly(1, |r|);
      assert first == r[1] && first.next == r[After(1, |r|)];
    }
    header.next := header.next.next;
    header.next.prev := header;
    data := first.data;
    first.Free();
  }

  /** Links a new node in before the header. */
  method Splice(header: ListNode, node: ListNode, ghost r: seq<ListNode>)
    requires Ring(r) && r[0] == header && node !in r && !node.freed
    modifies r, node
    ensures Ring(r + [node]) && Kept(r)
    ensures node.data == old(node.data) && node.id == old(node.id) && node.storePosition == old(node.storePosition)
  {
    hide Place;
    assert header.prev == r[|r| - 1];
    header.prev.next := node;
    node.prev := header.prev;
    header.prev := node;
    node.next := header;
    SplicedRing(r, node);
  }

  lemma OneAfter(k: nat, n: nat)
    requires k < n
    ensures After(k, n) == if k + 1 < n then k + 1 else 0
  {
  }

  lemma Neighbours(k: nat, n: nat)
    requires 0 < k < n
    ensures Before(k, n) == k - 1 && After(k, n) < n && After(k, n) != k
  {
  }

  lemma NeighboursOnly(k: nat, n: nat)
    requires 0 < k < n
    ensures forall i :: 0 <= i < n && i != k - 1 ==> After(i, n) != k
    ensures forall i :: 0 <= i < n && i != After(k, n) ==> Before(i, n) != k
    ensures forall i :: 0 <= i < n ==> After(i, n) < n && Before(i, n) < n
  {
  }

  // ----- what a list holds -----

  function Select<T>(entries: seq<(T, Datum)>, find: Predicate, wanted: bool): (kept: seq<(T, Datum)>)
    ensures |kept| <= |entries|
  {
    if entries == [] then [] else
      var rest := Select(entries[..|entries| - 1], find, wanted);
      var last := entries[|entries| - 1];
      if find(last.1) == wanted then rest + [last] else rest
  }

  lemma SelectLast<T>(a: seq<(T, Datum)>, x: (T, Datum), find: Predicate, wanted: bool)
    ensures Select(a + [x], find, wanted) == Select(a, find, wanted) + if find(x.1) == wanted then [x] else []
  {
    assert (a + [x])[..|a|] == a;
  }

  lemma {:induction false} SelectSplits<T>(a: seq<(T, Datum)>, b: seq<(T, Datum)>, find: Predicate, wanted: bool)
    ensures Select(a + b, find, wanted) == Select(a, find, wanted) + Select(b, find, wanted)
  {
    if b == [] {
      assert a + b == a;
    } else {
      hide Select;
      var n := |b| - 1;
      SelectSplits(a, b[..n], find, wanted);
      SelectLast(b[..n], b[n], find, wanted);
      SelectLast(a + b[..n], b[n], find, wanted);
      assert b == b[..n] + [b[n]] && a + b == a + b[..n] + [b[n]];
    }
  }

  lemma {:induction false} SelectAll<T>(a: seq<(T, Datum)>, find: Predicate, wanted: bool)
    requires forall i :: 0 <= i < |a| ==> find(a[i].1) == wanted
    ensures Select(a, find, wanted) == a && Select(a, find, !wanted) == []
  {
    if a != [] {
      SelectAll(a[..|a| - 1], find, wanted);
    }
  }

  /** Taking out an entry that is not wanted changes nothing. */
  lemma SelectWithout<T>(a: seq<(T, Datum)>, k: nat, find: Predicate, wanted: bool)
    requires k < |a| && find(a[k].1) != wanted
    ensures Select(Without(a, k), find, wanted) == Select(a, find, wanted)
  {
    assert a == a[..k] + ([a[k]] + a[k + 1..]);
    SelectSplits(a[..k], [a[k]] + a[k + 1..], find, wanted);
    SelectSplits([a[k]], a[k + 1..], find, wanted);
    SelectSplits(a[..k], a[k + 1..], find, wanted);
  }

  /** What a loop on nextFromList visits: the data that match, in order, up to a NULL among them,
      which ends the loop like the end of the list. */
  function Visited(data: seq<Datum>, find: Option<Predicate>): (v: seq<Datum>)
    ensures 0 !in v
  {
    if data == [] then []
    else if find.Some? && !find.value(data[0]) then Visited(data[1..], find)
    else if data[0] == 0 then []
    else [data[0]] + Visited(data[1..], find)
  }

  function Data<T>(entries: seq<(T, Datum)>): (data: seq<Datum>)
    ensures |data| == |entries|
  {
    seq(|entries|, i requires 0 <= i < |entries| => entries[i].1)
  }

  lemma {:induction false} VisitsAll<T>(entries: seq<(T, Datum)>, find: Predicate)
    requires forall e <- entries :: find(e.1) ==> e.1 != 0
    ensures Visited(Data(entries), Some(find)) == Data(Select(entries, find, true))
  {
    if entries != [] {
      var first, rest := entries[0], entries[1..];
      VisitsAll(rest, find);
      assert Data(entries)[1..] == Data(rest);
      assert entries == [first] + rest;
      SelectSplits([first], rest, find, true);
      var kept := Select([first], find, true);
      assert kept == if find(first.1) then [first] else [];
      assert Data(kept + Select(rest, find, true)) == Data(kept) + Data(Select(rest, find, true));
    }
  }

  lemma {:induction false} Selected<T>(entries: seq<(T, Datum)>, find: Predicate, i: nat)
    requires i < |entries| && find(entries[i].1)
    ensures exists j :: 0 <= j < |Select(entries, find, true)| && Select(entries, find, true)[j] == entries[i]
  {
    var n := |entries| - 1;
    var rest := Select(entries[..n], find, true);
    if i < n {
      Selected(entries[..n], find, i);
      var j :| 0 <= j < |rest| && rest[j] == entries[i];
      assert Select(entries, find, true)[j] == entries[i];
    } else {
      assert Select(entries, find, true)[|rest|] == entries[n];
    }
  }

  /** The loop visits every match, once, in order, exactly when none of them is NULL. */
  lemma VisitsMatches<T>(entries: seq<(T, Datum)>, find: Predicate)
    ensures Visited(Data(entries), Some(find)) == Data(Select(entries, find, true)) <==>
            forall i :: 0 <= i < |entries| && find(entries[i].1) ==> entries[i].1 != 0
  {
    hide Visited, Select;
    if forall i :: 0 <= i < |entries| && find(entries[i].1) ==> entries[i].1 != 0 {
      VisitsAll(entries, find);
    } else {
      var i :| 0 <= i < |entries| && find(entries[i].1) && entries[i].1 == 0;
      Selected(entries, find, i);
      var selected := Select(entries, find, true);
      var j :| 0 <= j < |selected| && selected[j] == entries[i];
      assert Data(selected)[j] == 0;
    }
  }

  /** Splitting what is visited at the first place that ends the loop or adds to it. */
  lemma {:induction false} VisitedFrom(data: seq<Datum>, k: nat, find: Option<Predicate>)
    requires k <= |data|
    requires find.None? ==> k == 0
    requires forall i :: 0 <= i < k ==> !find.value(data[i])
    ensures Visited(data, find) == Visited(data[k..], find)
  {
    if k > 0 {
      VisitedFrom(data[1..], k - 1, find);
      assert data[1..][k - 1..] == data[k..];
    } else {
      assert data[0..] == data;
    }
  }

  lemma VisitedNow(data: seq<Datum>, find: Option<Predicate>)
    requires data != [] && find.Some? ==> find.value(data[0])
    ensures Visited(data, find) ==
      if data == [] || data[0] == 0 then [] else [data[0]] + Visited(data[1..], find)
  {
  }

  // ----- walking -----

  /** `d` steps from place `i` of a ring of `n`. */
  function Step(i: nat, d: nat, n: nat, forward: bool): (k: nat)
    requires i < n && d <= n
    ensures k < n
  {
    if forward then (if i + d < n then i + d else i + d - n) else if d <= i then i - d else i - d + n
  }

  /** How many steps lead from place `i` to place `j`, at least one. */
  function Distance(i: nat, j: nat, n: nat, forward: bool): (d: nat)
    requires i < n && j < n
    ensures 0 < d <= n && Step(i, d, n, forward) == j
    ensures forall e | 0 < e < d :: Step(i, e, n, forward) != j
  {
    if forward then (if i < j then j - i else j - i + n) else if j < i then i - j else i - j + n
  }

  lemma WayHome(k: nat, n: nat)
    requires k < n
    ensures Distance(k, 0, n, true) == n - k
  {
  }

  lemma StepOnce(i: nat, d: nat, n: nat, forward: bool)
    requires i < n && d < n
    ensures Step(i, d + 1, n, forward) ==
      if forward then After(Step(i, d, n, forward), n) else Before(Step(i, d, n, forward), n)
    ensures Step(i, 0, n, forward) == i
  {
  }

  /** The places fewer than `d` steps away do not match. */
  ghost predicate PassedOver(r: seq<ListNode>, i: nat, d: nat, forward: bool, find: Predicate)
    requires i < |r| && d <= |r|
    reads r
  {
    forall e {:trigger Step(i, e, |r|, forward)} | 0 < e < d :: !find(r[Step(i, e, |r|, forward)].data)
  }

  /** The first match in the given direction, before `end`; `d` says how far it is. */
  method FindNode(start: ListNode?, end: ListNode?, find: Option<Predicate>, forward: bool,
                  ghost r: seq<ListNode>, ghost i: nat, ghost j: nat)
    returns (found: ListNode?, ghost d: nat)
    requires start != null && find.Some? ==> Ring(r) && i < |r| && j < |r| && r[i] == start
    requires start != null && find.Some? ==> r[j] == if end == null then start else end
    ensures start == null || find.None? ==> found == null
    ensures start != null && find.Some? ==>
      && 0 < d <= Distance(i, j, |r|, forward)
      && PassedOver(r, i, d, forward, find.value)
      && if d == Distance(i, j, |r|, forward) then found == null
         else found == r[Step(i, d, |r|, forward)] && find.value(found.data)
  {
    hide Step, Distance, After, Before, Place;
    d := 0;
    if start == null {
      return null, d;
    }
    if find.None? {
      return null, d;
    }
    var stop := if end == null then start else end;
    StepOnce(i, 0, |r|, forward);
    var ptr := if forward then start.next else start.prev;
    d := 1;
    while ptr != stop
      invariant 0 < d <= Distance(i, j, |r|, forward)
      invariant ptr == r[Step(i, d, |r|, forward)]
      invariant PassedOver(r, i, d, forward, find.value)
      decreases |r| - d
    {
      if find.value(ptr.data) {
        break;
      }
      StepOnce(i, d, |r|, forward);
      ptr := if forward then ptr.next else ptr.prev;
      d := d + 1;
    }
    found := if ptr == stop then null else ptr;
  }

  /** The next node that matches, its data, and where the walk now stands. */
  method NextFromList(node: ListNode?, end: ListNode?, find: Option<Predicate>,
                      ghost r: seq<ListNode>, ghost i: nat, ghost j: nat)
    returns (data: Datum, at: ListNode?, ghost k: nat)
    requires node != null && end != null ==>
      Ring(r) && i < |r| && j < |r| && r[i] == node && r[j] == end
    ensures node == null || end == null ==> data == 0 && at == node
    ensures node != null && end != null ==>
      && var all := Distance(i, j, |r|, true);
      && 0 < k <= all && at == r[Step(i, k, |r|, true)]
      && data == (if k == all then 0 else at.data)
      && (k < all && find.Some? ==> find.value(at.data))
      && if find.Some? then PassedOver(r, i, k, true, find.value) else k == 1
  {
    hide Step, Distance, Place;
    k := 0;
    if node == null || end == null {
      return 0, node, k;
    }
    StepOnce(i, 0, |r|, true);
    if node.next == end {
      return 0, end, 1;
    }
    if find.None? {
      return node.next.data, node.next, 1;
    }
    var ptr;
    ptr, k := FindNode(node, end, find, true, r, i, j);
    if ptr != null {
      data, at := ptr.data, ptr;
    } else {
      data, at := 0, end;
    }
  }

  class List {
    const listId: int
    const header: ListNode
    var count: int
    var maxCount: int
    var storePosition: int
    /** The header, then the nodes in order. */
    ghost var ring: seq<ListNode>

    /** The nodes form a ring that starts at the header, and `count` counts the others. */
    ghost predicate Valid()
      reads this, ring
    {
      0 <= count == |ring| - 1 && Ring(ring) && ring[0] == header && header.data == 0
    }

    /** The same, but `count` may say there are more nodes than there are, as after reading a list back. */
    ghost predicate Loose()
      reads this, ring
    {
      0 <= |ring| - 1 <= count && Ring(ring) && ring[0] == header && header.data == 0
    }

    ghost function Contents(): (c: seq<Datum>)
      reads this, ring
      ensures |ring| > 0 ==> |c| == |ring| - 1
    {
      if |ring| == 0 then [] else
        seq(|ring| - 1, i requires 0 <= i < |ring| - 1 reads this, ring => ring[i + 1].data)
    }

    /** Each node with its data, in order. */
    ghost function Entries(): (e: seq<(ListNode, Datum)>)
      reads this, ring
      requires |ring| > 0
      ensures |e| == |ring| - 1
    {
      seq(|ring| - 1, i requires 0 <= i < |ring| - 1 reads this, ring => (ring[i + 1], ring[i + 1].data))
    }

    /** buildList. What `maxCount` starts from is whatever was in memory. */
    constructor (listId: int, garbage: int)
      ensures Valid() && ring == [header] && Contents() == [] && this.listId == listId
      ensures fresh(header) && maxCount == garbage && storePosition == 0
      ensures header.storePosition == 0 && header.id == -1
    {
      header := new ListNode(0, -1);
      this.listId := listId;
      count, maxCount, storePosition := 0, garbage, 0;
      new;
      ring := [header];
      header.prev, header.next := header, header;
    }

    /** A list around nodes and counts that come from elsewhere: they need not agree. */
    constructor Around(listId: int, header: ListNode, count: int, maxCount: int, storePosition: int,
                       ghost ring: seq<ListNode>)
      ensures this.listId == listId && this.header == header && this.ring == ring
      ensures this.count == count && this.maxCount == maxCount && this.storePosition == storePosition
    {
      this.listId, this.header, this.ring := listId, header, ring;
      this.count, this.maxCount, this.storePosition := count, maxCount, storePosition;
    }

    /** A new node before the header, that is, at the end. */
    method Insert(data: Datum)
      requires Valid()
      modifies this, ring
      ensures Valid()
      ensures |ring| == |old(ring)| + 1 && forall i :: 0 <= i < |old(ring)| ==> ring[i] == old(ring)[i]
      ensures var last := ring[|ring| - 1];
        fresh(last) && last.data == data && last.id == maxCount == old(maxCount) + 1 && last.storePosition == 0
      ensures Kept(old(ring)) && storePosition == old(storePosition)
      ensures Contents() == old(Contents()) + [data]
    {
      hide Place, Ring;
      var node := new ListNode(data, maxCount + 1);
      Splice(header, node, ring);
      maxCount := maxCount + 1;
      count := count + 1;
      ring := ring + [node];
      assert Contents() == old(Contents()) + [data];
    }

    /** Unlinks a node and gives it back. */
    method Unlink(ptr: ListNode, ghost k: nat)
      requires Valid() && 0 < k < |ring| && ptr == ring[k]
      modifies this, ring
      ensures Valid() && ring == Without(old(ring), k) && ptr.freed
      ensures forall i :: 0 <= i < |old(ring)| && i != k ==> old(ring)[i].data == old(ring[i].data)
      ensures Entries() == Without(old(Entries()), k - 1)
      ensures forall i :: 0 <= i < |ring| ==> ring[i] in old(ring)
      ensures forall i :: 0 <= i < |old(ring)| && i != k ==> old(ring)[i] in ring
      ensures maxCount == old(maxCount) && storePosition == old(storePosition)
    {
      hide Place, Without;
      WithoutOnly(ring, k);
      Cut(ptr, ring, k);
      BridgedRing(ring, k);
      count := count - 1;
      ring := Without(ring, k);
    }

    lemma Starts()
      requires Valid()
      ensures |ring| > 0 && ring[0] == header
    {
    }

    lemma PrevOf(k: nat)
      requires Valid() && 0 < k < |ring|
      ensures ring[k].prev == ring[k - 1]
    {
    }

    /** None of the nodes before place `k` matches. */
    ghost predicate Unmatched(k: nat, find: Predicate)
      reads this, ring
      requires k <= |ring|
    {
      forall e :: 0 < e < k ==> !find(ring[e].data)
    }

    /** A forward search from place `k` that got as far as place `k + d`. */
    lemma Searched(k: nat, d: nat, find: Predicate)
      requires k < |ring| && 0 < d <= Distance(k, 0, |ring|, true) && (k > 0 ==> !find(ring[k].data)) && Unmatched(k, find)
      requires PassedOver(ring, k, d, true, find)
      ensures k + d <= |ring| && Unmatched(k + d, find)
      ensures k + d < |ring| ==> Step(k, d, |ring|, true) == k + d
      ensures Distance(k, 0, |ring|, true) == |ring| - k
    {
      forall e | k < e < k + d
        ensures !find(ring[e].data)
      {
        assert Step(k, e - k, |ring|, true) == e;
      }
    }

    /** The first match from place `k` of the ring on, and its place. */
    method Search(from: ListNode, find: Predicate, ghost k: nat) returns (found: ListNode?, ghost at: nat)
      requires Valid() && k < |ring| && from == ring[k]
      requires Unmatched(k, find) && (k > 0 ==> !find(from.data))
      ensures 0 < at <= |ring| && Unmatched(at, find)
      ensures if found == null then at == |ring| else at < |ring| && found == ring[at] && find(found.data)
    {
      hide Place, Ring, Step, Distance, PassedOver;
      ghost var d: nat := 0;
      found, d := FindNode(from, header, Some(find), true, ring, k, 0);
      Searched(k, d, find);
      at := k + d;
    }

    /** Takes out a match and finds the next one, from the node before it. */
    method TakeOut(ptr: ListNode, find: Predicate, ghost k: nat) returns (next: ListNode?, ghost at: nat)
      requires Valid() && 0 < k < |ring| && ptr == ring[k] && find(ptr.data) && Unmatched(k, find)
      modifies this, ring
      ensures Valid() && |ring| == |old(ring)| - 1
      ensures 0 < at <= |ring| && Unmatched(at, find)
      ensures if next == null then at == |ring| else at < |ring| && next == ring[at] && find(next.data)
      ensures Select(Entries(), find, false) == Select(old(Entries()), find, false)
      ensures forall i :: 0 <= i < |ring| ==> ring[i] in old(ring)
      ensures forall n <- old(ring) :: n in ring || n.freed
    {
      hide Place, Ring, Select, Without;
      PrevOf(k);
      var prev := ptr.prev;
      SelectWithout(Entries(), k - 1, find, false);
      Unlink(ptr, k);
      next, at := Search(prev, find, k - 1);
    }

    /** Takes out every node whose data matches and says how many; the others stay, in order. */
    method Remove(find: Option<Predicate>) returns (removed: int)
      requires Valid()
      modifies this, ring
      ensures Valid()
      ensures find.None? ==> ring == old(ring)
      ensures find.Some? ==> Entries() == Select(old(Entries()), find.value, false)
      ensures removed == old(count) - count
      ensures forall n <- old(ring) :: n in ring || n.freed
    {
      hide Place, Ring, Select, Entries;
      removed := 0;
      if find.None? {
        return;
      }
      ghost var at: nat := 0;
      var ptr;
      ptr, at := Search(header, find.value, 0);
      while ptr != null
        invariant Valid() && at <= |ring| && Unmatched(at, find.value)
        invariant if ptr == null then at == |ring| else 0 < at < |ring| && ptr == ring[at] && find.value(ptr.data)
        invariant forall i :: 0 <= i < |ring| ==> ring[i] in old(ring)
        invariant forall n <- old(ring) :: n in ring || n.freed
        invariant removed == |old(ring)| - |ring|
        invariant Select(Entries(), find.value, false) == Select(old(Entries()), find.value, false)
        decreases |ring|
      {
        ptr, at := TakeOut(ptr, find.value, at);
        removed := removed + 1;
      }
      AllKept(find.value);
    }

    lemma AllKept(find: Predicate)
      requires Valid() && Unmatched(|ring|, find)
      ensures Select(Entries(), find, false) == Entries()
    {
      hide Ring;
      SelectAll(Entries(), find, false);
    }

    /** One turn of a loop on nextFromList, from place `k` of the ring. */
    method Next(node: ListNode, find: Option<Predicate>, ghost k: nat)
      returns (data: Datum, at: ListNode, ghost place: nat)
      requires Valid() && k < |ring| && node == ring[k]
      ensures place <= |ring| && k < place
      ensures at == if place < |ring| then ring[place] else header
      ensures data != 0 ==> place < |ring|
      ensures Visited(Contents()[k..], find) ==
        if data == 0 then [] else [data] + Visited(Contents()[place..], find)
    {
      hide Place, Step, Distance, Ring, Visited, PassedOver;
      ghost var d: nat := 0;
      var stands: ListNode?;
      data, stands, d := NextFromList(node, header, find, ring, k, 0);
      at := stands;
      place := k + d;
      Stepped(k, d, find, data);
    }

    /** A loop on nextFromList, as getTopicListByKeyword has it. */
    method Walk(find: Option<Predicate>) returns (visited: seq<Datum>)
      requires Valid()
      ensures visited == Visited(Contents(), find)
    {
      hide *;
      Starts();
      ghost var all := Contents();
      ghost var k: nat := 0;
      var start, data := header, 0;
      data, start, k := Onward(start, find, 0, all);
      visited := [];
      WholeFrom(all, find, k, data);
      while data != 0
        invariant Valid() && Contents() == all
        invariant data != 0 ==> 0 < k < |ring| && start == ring[k]
        invariant Follows(visited, all, k, data, find)
        decreases |ring| - k
      {
        ghost var was, from, last := visited, k, data;
        visited := visited + [data];
        data, start, k := Onward(start, find, k, all);
        Onwards(was, all, from, last, k, data, find);
      }
      AllVisited(visited, all, k, find);
    }

    /** One turn of nextFromList. */
    method Onward(node: ListNode, find: Option<Predicate>, ghost k: nat, ghost all: seq<Datum>)
      returns (data: Datum, at: ListNode, ghost place: nat)
      requires Valid() && Contents() == all && k < |ring| && node == ring[k]
      ensures k < place <= |ring| && (data != 0 ==> place < |ring| && at == ring[place])
      ensures k <= |all| && Visited(all[k..], find) == Pending(all, place, data, find)
    {
      hide Visited, Contents, Valid, Ring;
      data, at, place := Next(node, find, k);
    }

    /** What was visited and what is still to be visited are everything. */
    static ghost predicate Follows(visited: seq<Datum>, all: seq<Datum>, k: nat, data: Datum, find: Option<Predicate>) {
      Visited(all, find) == visited + Pending(all, k, data, find)
    }

    static lemma Onwards(was: seq<Datum>, all: seq<Datum>, k: nat, data: Datum, next: nat, more: Datum,
                         find: Option<Predicate>)
      requires data != 0 && k <= |all| && Follows(was, all, k, data, find)
      requires Visited(all[k..], find) == Pending(all, next, more, find)
      ensures Follows(was + [data], all, next, more, find)
    {
      hide Visited;
      var rest := Pending(all, next, more, find);
      assert was + ([data] + rest) == was + [data] + rest;
    }

    static lemma AllVisited(visited: seq<Datum>, all: seq<Datum>, k: nat, find: Option<Predicate>)
      requires Follows(visited, all, k, 0, find)
      ensures visited == Visited(all, find)
    {
      hide Visited;
    }

    static lemma WholeFrom(all: seq<Datum>, find: Option<Predicate>, k: nat, data: Datum)
      requires Visited(all[0..], find) == Pending(all, k, data, find)
      ensures Follows([], all, k, data, find)
    {
      hide Visited;
      assert all[0..] == all;
    }

    /** What a loop on nextFromList still has to visit. */
    static ghost function Pending(all: seq<Datum>, k: nat, data: Datum, find: Option<Predicate>): seq<Datum> {
      if data == 0 || k > |all| then [] else [data] + Visited(all[k..], find)
    }

    lemma Stepped(k: nat, d: nat, find: Option<Predicate>, data: Datum)
      requires Valid() && k < |ring| && 0 < d <= Distance(k, 0, |ring|, true)
      requires if find.Some? then PassedOver(ring, k, d, true, find.value) else d == 1
      requires var all := Distance(k, 0, |ring|, true);
        && data == (if d == all then 0 else ring[Step(k, d, |ring|, true)].data)
        && (d < all && find.Some? ==> find.value(data))
      ensures k + d <= |ring| && Step(k, d, |ring|, true) == if k + d < |ring| then k + d else 0
      ensures data != 0 ==> k + d < |ring|
      ensures Visited(Contents()[k..], find) ==
        if data == 0 then [] else [data] + Visited(Contents()[k + d..], find)
    {
      hide Ring, Visited, Distance;
      var rest := Contents()[k..];
      WayHome(k, |ring|);
      forall i | 0 <= i < d - 1
        ensures find.Some? && !find.value(rest[i])
      {
        assert Step(k, i + 1, |ring|, true) == k + i + 1;
      }
      VisitedFrom(rest, d - 1, find);
      assert rest[d - 1..] == Contents()[k + d - 1..];
      VisitedNow(Contents()[k + d - 1..], find);
      if k + d < |ring| {
        assert Contents()[k + d - 1..][1..] == Contents()[k + d..];
      }
    }

    /** When the count says there is something but there is nothing, the list gives back its own header. */
    method Pop() returns (data: Datum)
      requires Loose()
      modifies this, ring
      ensures old(Valid()) ==> Valid()
      ensures old(count) == 0 ==> data == 0 && ring == old(ring) && Loose()
      ensures old(count) > 0 && |old(ring)| > 1 ==>
        && data == old(Contents()[0]) && ring == Without(old(ring), 1) && Contents() == old(Contents())[1..]
        && count == old(count) - 1 && Loose()
      ensures header.freed <==> old(count) > 0 && |old(ring)| == 1
    {
      hide Place, Without;
      if count == 0 {
        return 0;
      }
      data := CutFirst(header, ring);
      count := count - 1;
      if |ring| > 1 {
        BridgedRing(ring, 1);
        ring := Without(ring, 1);
      }
    }

    /** Gives back every node, the header last, each once; the answer counts the header. */
    method FreeAll() returns (number: int)
      requires Valid()
      modifies ring
      ensures number == |ring|
      ensures forall i :: 0 <= i < |ring| ==> ring[i].freed
    {
      hide Place, After, Before;
      ghost var n := |ring|;
      OneAfter(0, n);
      assert header == ring[0];
      var ptr := header.next;
      header.next := null;
      number := 0;
      while ptr != null
        invariant 0 <= number <= n
        invariant if number < n then ptr == ring[After(number, n)] else ptr == null && ring[0].freed
        invariant number < n ==> !ring[0].freed && ring[0].next == null
        invariant forall i :: 0 < i <= number && i < n ==> ring[i].freed
        invariant forall i :: number < i < n ==> !ring[i].freed
        invariant forall i {:trigger ring[i].next} :: number < i < n ==> ring[i].next == ring[After(i, n)]
        decreases n - number
      {
        ghost var k := After(number, n);
        OneAfter(number, n);
        assert ptr == ring[k];
        number := number + 1;
        var tmp := ptr.next;
        ptr.Free();
        ptr := tmp;
      }
    }
  }

  /** Appends the data of the second list to the first, up to a NULL. */
  method MergeList(first: List?, second: List?) returns (merged: List?)
    requires first != null ==> first.Valid()
    requires second != null ==> second.Valid()
    requires first != null && second != null ==>
      first != second && Apart(first.ring, second.ring)
    modifies first, if first != null then first.ring else []
    ensures merged == first
    ensures first != null ==> first.Valid()
    ensures first != null && second == null ==> first.Contents() == old(first.Contents())
    ensures first != null && second != null ==>
      && second.Valid() && second.Contents() == old(second.Contents())
      && first.Contents() == old(first.Contents()) + Visited(second.Contents(), None)
  {
    hide Ring, Visited;
    if first == null || second == null {
      return first;
    }
    AppendFrom(first, second);
    merged := first;
  }

  ghost predicate Apart(first: seq<ListNode>, second: seq<ListNode>) {
    forall i :: 0 <= i < |first| ==> first[i] !in second
  }

  method AppendFrom(first: List, second: List)
    requires first.Valid() && second.Valid() && first != second && Apart(first.ring, second.ring)
    modifies first, first.ring
    ensures first.Valid() && second.Valid()
    ensures second.Contents() == old(second.Contents())
    ensures first.Contents() == old(first.Contents()) + Visited(second.Contents(), None)
  {
    hide Ring, Visited, List.Contents, List.Valid, Apart, Place;
    second.Starts();
    ghost var before, more := first.Contents(), second.Contents();
    ghost var k: nat := 0;
    var start, data := second.header, 0;
    data, start, k := second.Next(start, None, 0);
    assert more[0..] == more;
    while data != 0
      invariant first.Valid() && second.Valid() && second.Contents() == more
      invariant Apart(first.ring, second.ring)
      invariant forall i :: 0 <= i < |first.ring| ==> first.ring[i] in old(first.ring) || fresh(first.ring[i])
      invariant data != 0 ==> 0 < k < |second.ring| && start == second.ring[k]
      invariant before + Visited(more, None) ==
        first.Contents() + if data == 0 then [] else [data] + Visited(more[k..], None)
      decreases |second.ring| - k
    {
      InsertApart(first, data, second);
      data, start, k := second.Next(start, None, k);
    }
  }

  method InsertApart(first: List, data: Datum, second: List)
    requires first.Valid() && second.Valid() && first != second && Apart(first.ring, second.ring)
    modifies first, first.ring
    ensures first.Valid() && second.Valid() && Apart(first.ring, second.ring)
    ensures forall i :: 0 <= i < |first.ring| ==> first.ring[i] in old(first.ring) || fresh(first.ring[i])
    ensures second.Contents() == old(second.Contents()) && second.ring == old(second.ring)
    ensures first.Contents() == old(first.Contents()) + [data]
  {
    hide Ring;
    first.Insert(data);
  }
}
