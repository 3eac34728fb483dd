/** The array heap of data/heap.c, holding shared messages. */
module Heaps {
  import opened Messages
  import HeapOrder

  /** The comparison at this moment, as a relation that no longer reads the messages. */
  ghost function Snapshot(o: Order, s: set<Message>): (le: (Message, Message) -> bool)
    reads s
    ensures HeapOrder.TotalPreorder(le, s)
    ensures Agrees(o, le, s)
  {
    var keys := map m | m in s :: Key(o, m);
    var key := (m: Message) => if m in keys then keys[m] else (0, 0);
    (a: Message, b: Message) => KeyLess(key(a), key(b))
  }

  ghost predicate Agrees(o: Order, le: (Message, Message) -> bool, s: set<Message>)
    reads s
  {
    forall a, b :: a in s && b in s ==> Less(o, a, b) == le(a, b)
  }

  class Heap {
    var data: array<Message>
    var len: nat
    const order: Order
    /** Insertions so far and elements copied by growing, for the cost bound. */
    ghost var inserts: nat
    ghost var copied: nat
    /** Exchanges made by the sifts so far. */
    ghost var swaps: nat

    ghost predicate Valid()
      reads this, data, if len <= data.Length then data[..len] else []
    {
      && len <= data.Length
      && Sorted()
      && CostBound()
    }

    /** Heap order of the live slots as the messages' fields stand now. */
    ghost predicate Sorted()
      requires len <= data.Length
      reads this, data, data[..len]
    {
      forall j :: 0 < j < len ==> Less(order, data[HeapOrder.Parent(j)], data[j])
    }

    /** The growth rule pays for itself: what was copied stays below the capacity, which
        stays within twice the number of insertions. */
    ghost predicate CostBound()
      reads this
    {
      && len <= inserts
      && data.Length <= 2 * inserts
      && (if data.Length == 0 then copied == 0 else copied + 2 <= data.Length)
    }

    ghost function Contents(): seq<Message>
      reads this, data
      requires len <= data.Length
    {
      data[..len]
    }

    ghost function Bag(): multiset<Message>
      reads this, data
      requires len <= data.Length
    {
      multiset(data[..len])
    }

    lemma SlotInBag(k: nat)
      requires k < len <= data.Length
      ensures data[k] in Bag()
    {
      assert data[k] in data[..len];
    }

    /** Slot 0 may stay above every element. */
    lemma RootIsLeast()
      requires Valid() && len > 0
      ensures forall m :: m in Bag() ==> Less(order, data[0], m)
    {
      ghost var h := Contents();
      ghost var s := set m | m in h;
      ghost var le := Snapshot(order, s);
      assert forall i :: 0 <= i < len ==> h[i] in s;
      OrderedNow(s, le);
      forall m | m in Bag()
        ensures Less(order, data[0], m)
      {
        var i :| 0 <= i < len && h[i] == m;
        HeapOrder.RootIsLeast(le, s, h, i);
        assert h[0] in s;
      }
    }

    constructor (order: Order)
      ensures Valid() && fresh(data) && this.order == order
      ensures len == 0 && Bag() == multiset{} && inserts == 0 && copied == 0
    {
      this.order := order;
      data := new Message[0];
      len := 0;
      inserts, copied, swaps := 0, 0, 0;
    }

    method SwapSlots(a: nat, b: nat, ghost n: nat)
      requires n <= data.Length && a < n && b < n
      modifies this`swaps, data
      ensures swaps == old(swaps) + 1
      ensures data[..n] == HeapOrder.Swap(old(data[..n]), a, b)
      ensures forall i :: 0 <= i < n ==> data[i] == old(data[if i == a then b else if i == b then a else i])
    {
      var tmp := data[a];
      data[a] := data[b];
      data[b] := tmp;
      swaps := swaps + 1;
    }

    method SiftDown(k: nat, ghost n: nat, ghost s: set<Message>, ghost le: (Message, Message) -> bool)
      requires k < n <= data.Length && Agrees(order, le, s)
      requires forall i :: 0 <= i < n ==> data[i] in s
      modifies this`swaps, data
      ensures data[..n] == HeapOrder.SiftDown(le, old(data[..n]), k)
      ensures swaps == old(swaps) + HeapOrder.DownSwaps(le, old(data[..n]), k)
      ensures forall i :: 0 <= i < n ==> data[i] in s
    {
      var i := k;
      while true
        invariant 0 <= i <= k
        invariant forall i :: 0 <= i < n ==> data[i] in s
        invariant HeapOrder.SiftDown(le, data[..n], i) == HeapOrder.SiftDown(le, old(data[..n]), k)
        invariant swaps + HeapOrder.DownSwaps(le, data[..n], i) == old(swaps) + HeapOrder.DownSwaps(le, old(data[..n]), k)
        decreases i
      {
        if i == 0 || Less(order, data[(i - 1) / 2], data[i]) {
          return;
        }
        var p := (i - 1) / 2;
        SwapSlots(i, p, n);
        i := p;
      }
    }

    /** The least of slot `i` and its live children; a child wins over an equal parent. */
    method Least(i: nat, ghost n: nat, ghost s: set<Message>, ghost le: (Message, Message) -> bool) returns (m: nat)
      requires i <= len <= n <= data.Length && Agrees(order, le, s)
      requires forall i :: 0 <= i < n ==> data[i] in s
      ensures m == HeapOrder.Least(le, data[..n], len, i)
    {
      var l, r := i * 2 + 1, i * 2 + 2;
      m := i;
      if l < len && Less(order, data[l], data[m]) { m := l; }
      if r < len && Less(order, data[r], data[m]) { m := r; }
    }

    method SiftUp(k: nat, ghost n: nat, ghost s: set<Message>, ghost le: (Message, Message) -> bool)
      requires k <= len <= n <= data.Length && Agrees(order, le, s)
      requires forall i :: 0 <= i < n ==> data[i] in s
      modifies this`swaps, data
      ensures data[..n] == HeapOrder.SiftUp(le, old(data[..n]), len, k)
      ensures swaps == old(swaps) + HeapOrder.UpSwaps(le, old(data[..n]), len, k)
      ensures forall i :: 0 <= i < n ==> data[i] in s
    {
      var i := k;
      while true
        invariant k <= i <= len
        invariant forall i :: 0 <= i < n ==> data[i] in s
        invariant HeapOrder.SiftUp(le, data[..n], len, i) == HeapOrder.SiftUp(le, old(data[..n]), len, k)
        invariant swaps + HeapOrder.UpSwaps(le, data[..n], len, i) == old(swaps) + HeapOrder.UpSwaps(le, old(data[..n]), len, k)
        decreases len - i
      {
        var m := Least(i, n, s, le);
        if m == i {
          return;
        }
        SwapSlots(i, m, n);
        i := m;
      }
    }

    /** Grows a full array to twice what is needed. */
    method Grow(x: Message)
      requires Valid() && len == data.Length
      modifies this
      ensures Valid() && fresh(data) && data.Length == (len + 1) * 2 && len == old(len)
      ensures Contents() == old(Contents()) && swaps == old(swaps)
      ensures inserts == old(inserts) + 1 && copied == old(copied) + len
    {
      var ndata := new Message[(len + 1) * 2](_ => x);
      forall i | 0 <= i < len { ndata[i] := data[i]; }
      data := ndata;
      inserts := inserts + 1;
      copied := copied + len;
      assert data[..len] == old(data[..len]);
    }

    lemma OrderedNow(s: set<Message>, le: (Message, Message) -> bool)
      requires len <= data.Length && Agrees(order, le, s)
      requires forall i :: 0 <= i < len ==> data[i] in s
      ensures Sorted() <==> HeapOrder.Ordered(le, data[..len], len)
    {
    }

    /** Puts `x` in the first free slot and sifts it towards the root. */
    method Place(x: Message, ghost s: set<Message>, ghost le: (Message, Message) -> bool)
      requires len < data.Length && Agrees(order, le, s) && x in s
      requires forall i :: 0 <= i < len ==> data[i] in s
      modifies this`len, this`swaps, data
      ensures len == old(len) + 1
      ensures swaps <= old(swaps) + HeapOrder.Log2(len)
      ensures Contents() == HeapOrder.Insert(le, old(Contents()), x)
      ensures forall i :: 0 <= i < len ==> data[i] in s
    {
      ghost var h := Contents();
      var k := len;
      len := len + 1;
      data[k] := x;
      assert data[..len] == h + [x];
      HeapOrder.DownSwapsBound(le, h + [x], k);
      SiftDown(k, len, s, le);
    }

    /** Adds `x`; the array grows when it is full. */
    method Insert(x: Message)
      requires Valid()
      modifies this, data
      ensures Valid() && (data == old(data) || fresh(data)) && len == old(len) + 1
      ensures data.Length == if old(len) == old(data.Length) then (old(len) + 1) * 2 else old(data.Length)
      ensures swaps <= old(swaps) + HeapOrder.Log2(len)
      ensures Bag() == old(Bag()) + multiset{x}
      ensures inserts == old(inserts) + 1
      ensures copied == old(copied) + (if old(len) == old(data.Length) then old(len) else 0)
      ensures copied < 2 * inserts
    {
      if len == data.Length {
        Grow(x);
      } else {
        inserts := inserts + 1;
      }
      InsertSlot(x);
    }

    method InsertSlot(x: Message)
      requires len < data.Length && Sorted()
      modifies this`len, this`swaps, data
      ensures len == old(len) + 1 && Sorted()
      ensures swaps <= old(swaps) + HeapOrder.Log2(len)
      ensures Bag() == old(Bag()) + multiset{x}
    {
      ghost var h := Contents();
      ghost var s := (set m | m in h) + {x};
      ghost var le := Snapshot(order, s);
      assert forall i :: 0 <= i < len ==> h[i] in s;
      OrderedNow(s, le);
      HeapOrder.InsertCorrect(le, s, h, x);
      Place(x, s, le);
      OrderedNow(s, le);
    }

    /** Overwrites live slot `k` with the last element and sifts both ways from there. */
    method Vacate(k: nat, ghost s: set<Message>, ghost le: (Message, Message) -> bool)
      requires k < len <= data.Length && Agrees(order, le, s)
      requires forall i :: 0 <= i < len ==> data[i] in s
      requires k == len - 1 > 0 ==> le(data[HeapOrder.Parent(k)], data[k])
      modifies this`len, this`swaps, data
      ensures len == old(len) - 1
      ensures Contents() == HeapOrder.Remove(le, old(Contents()), k)
      ensures forall i :: 0 <= i < len ==> data[i] in s
      ensures swaps <= old(swaps) + HeapOrder.Log2(old(len))
    {
      hide HeapOrder.SiftDown, HeapOrder.SiftUp, HeapOrder.DownSwaps, HeapOrder.UpSwaps, HeapOrder.Log2;
      ghost var h, n := Contents(), len;
      len := len - 1;
      data[k] := data[len];
      assert data[..n] == h[k := h[n - 1]];
      SiftDown(k, n, s, le);
      assert data[..n] == HeapOrder.Refill(le, h, k);
      SiftUp(k, n, s, le);
      assert data[..len] == data[..n][..len];
      HeapOrder.RemoveSwapsBound(le, h, k);
    }

    method RemoveSlot(k: nat)
      requires k < len <= data.Length && Sorted()
      modifies this`len, this`swaps, data
      ensures len == old(len) - 1 && Sorted()
      ensures swaps <= old(swaps) + HeapOrder.Log2(old(len))
      ensures Bag() == old(Bag()) - multiset{old(data[k])}
    {
      hide HeapOrder.Remove, HeapOrder.Log2;
      ghost var h := Contents();
      ghost var s := set m | m in h;
      ghost var le := Snapshot(order, s);
      assert forall i :: 0 <= i < len ==> h[i] in s;
      OrderedNow(s, le);
      HeapOrder.RemoveCorrect(le, s, h, k);
      Vacate(k, s, le);
      OrderedNow(s, le);
    }

    /** Takes out slot `k`, or answers null when `k` is not live. */
    method Remove(k: nat) returns (x: Message?)
      requires Valid()
      modifies this`len, this`swaps, data
      ensures Valid()
      ensures swaps <= old(swaps) + if k < old(len) then HeapOrder.Log2(old(len)) else 0
      ensures k >= old(len) ==> x == null && Contents() == old(Contents())
      ensures k < old(len) ==> x == old(data[k]) && len == old(len) - 1
      ensures k < old(len) ==> Bag() == old(Bag()) - multiset{x}
    {
      if k >= len {
        return null;
      }
      x := data[k];
      RemoveSlot(k);
    }

    /** The first slot holding the message with this id, or -1. */
    method FindIndex(id: int) returns (i: int)
      requires len <= data.Length
      ensures i == -1 ==> forall j :: 0 <= j < len ==> !data[j].IsMessage(id)
      ensures i != -1 ==> 0 <= i < len && data[i].IsMessage(id) && forall j :: 0 <= j < i ==> !data[j].IsMessage(id)
    {
      i := 0;
      while i < len
        invariant 0 <= i <= len
        invariant forall j :: 0 <= j < i ==> !data[j].IsMessage(id)
      {
        if data[i].IsMessage(id) {
          return;
        }
        i := i + 1;
      }
      i := -1;
    }
  }
}
