/** What the sifts of data/heap.c do to the slots of an array, for any comparator that is
    a reflexive total preorder. `n` is the number of live slots; the array may be longer. */
module HeapOrder {

  /** `le` is a reflexive total preorder on the elements of `u`, which hold all of `d`. */
  ghost predicate TotalPreorder<T>(le: (T, T) -> bool, u: set<T>) {
    && (forall a, b :: a in u && b in u ==> le(a, b) || le(b, a))
    && (forall a, b, c :: a in u && b in u && c in u && le(a, b) && le(b, c) ==> le(a, c))
  }

  ghost predicate Over<T>(d: seq<T>, u: set<T>) {
    forall i :: 0 <= i < |d| ==> d[i] in u
  }

  function Parent(i: int): int {
    (i - 1) / 2
  }

  /** Every live slot is preceded by its parent. */
  ghost predicate Ordered<T>(le: (T, T) -> bool, d: seq<T>, n: nat)
    requires n <= |d|
  {
    forall j :: 0 < j < n ==> le(d[Parent(j)], d[j])
  }

  /** Ordered but for slot `i`, whose children are still in order with its parent. */
  ghost predicate Gap<T>(le: (T, T) -> bool, d: seq<T>, n: nat, i: nat)
    requires n <= |d|
  {
    && (forall j :: 0 < j < n && j != i && Parent(j) != i ==> le(d[Parent(j)], d[j]))
    && (forall j :: 0 < j < n && Parent(j) == i && 0 < i ==> le(d[Parent(i)], d[j]))
  }

  ghost predicate ChildrenOrdered<T>(le: (T, T) -> bool, d: seq<T>, n: nat, i: nat)
    requires n <= |d|
  {
    forall j :: 0 < j < n && Parent(j) == i ==> le(d[i], d[j])
  }

  ghost predicate ParentOrdered<T>(le: (T, T) -> bool, d: seq<T>, n: nat, i: nat)
    requires n <= |d|
  {
    0 < i < n ==> le(d[Parent(i)], d[i])
  }

  function Swap<T>(d: seq<T>, a: nat, b: nat): (r: seq<T>)
    requires a < |d| && b < |d|
  {
    d[a := d[b]][b := d[a]]
  }

  /** The exchanges of `siftdown`: towards the root until the parent may stay above. */
  function SiftDown<T>(le: (T, T) -> bool, d: seq<T>, k: nat): (r: seq<T>)
    requires k < |d|
    ensures |r| == |d|
    decreases k
  {
    if k == 0 || le(d[Parent(k)], d[k]) then d
    else SiftDown(le, Swap(d, k, Parent(k)), Parent(k))
  }

  /** The least of slot `i` and its live children; a child wins over an equal parent. */
  function Least<T>(le: (T, T) -> bool, d: seq<T>, n: nat, i: nat): (s: nat)
    requires n <= |d| && i <= n
    ensures s == i || (i < s < n && Parent(s) == i)
  {
    var l, r := 2 * i + 1, 2 * i + 2;
    var s := if l < n && le(d[l], d[i]) then l else i;
    if r < n && le(d[r], d[s]) then r else s
  }

  /** The exchanges of `siftup`: towards the leaves until no child is as small. */
  function SiftUp<T>(le: (T, T) -> bool, d: seq<T>, n: nat, k: nat): (r: seq<T>)
    requires n <= |d| && k <= n
    ensures |r| == |d|
    decreases n - k
  {
    var s := Least(le, d, n, k);
    if s == k then d else SiftUp(le, Swap(d, k, s), n, s)
  }

  /** The live slots after inserting `x`. */
  function Insert<T>(le: (T, T) -> bool, h: seq<T>, x: T): seq<T> {
    SiftDown(le, h + [x], |h|)
  }

  /** The last element moved into the hole and sifted towards the root. */
  function Refill<T>(le: (T, T) -> bool, h: seq<T>, k: nat): (r: seq<T>)
    requires k < |h|
    ensures |r| == |h|
  {
    SiftDown(le, h[k := h[|h| - 1]], k)
  }

  /** The live slots after removing slot `k`: the last element fills the hole, then both
      sifts start there, even when the hole was the last slot and is no longer live. */
  function Remove<T>(le: (T, T) -> bool, h: seq<T>, k: nat): seq<T>
    requires k < |h|
  {
    SiftUp(le, Refill(le, h, k), |h| - 1, k)[..|h| - 1]
  }

  // ----- order -----

  lemma OrderedFromGap<T>(le: (T, T) -> bool, d: seq<T>, n: nat, i: nat)
    requires n <= |d| && Gap(le, d, n, i) && ParentOrdered(le, d, n, i) && ChildrenOrdered(le, d, n, i)
    ensures Ordered(le, d, n)
  {
  }

  lemma GapFromOrdered<T>(le: (T, T) -> bool, u: set<T>, d: seq<T>, n: nat, i: nat, x: T)
    requires TotalPreorder(le, u) && Over(d, u) && n <= |d| && i < |d| && Ordered(le, d, n)
    ensures Gap(le, d[i := x], n, i)
  {
    forall j | 0 < j < n && Parent(j) == i && 0 < i
      ensures le(d[Parent(i)], d[j])
    {
      assert le(d[Parent(i)], d[i]) && le(d[i], d[j]);
    }
  }

  lemma GapAnywhere<T>(le: (T, T) -> bool, u: set<T>, d: seq<T>, n: nat, i: nat)
    requires TotalPreorder(le, u) && Over(d, u) && n <= |d| && i < |d| && Ordered(le, d, n)
    ensures Gap(le, d, n, i) && ParentOrdered(le, d, n, i)
  {
    GapFromOrdered(le, u, d, n, i, d[i]);
    assert d[i := d[i]] == d;
  }

  /** Sifting towards the root closes the gap above the slot it started from. */
  lemma {:induction false} SiftDownClosesAbove<T>(le: (T, T) -> bool, u: set<T>, d: seq<T>, n: nat, k: nat)
    requires TotalPreorder(le, u) && Over(d, u) && k < n <= |d| && Gap(le, d, n, k)
    ensures Over(SiftDown(le, d, k), u)
    ensures Gap(le, SiftDown(le, d, k), n, k) && ParentOrdered(le, SiftDown(le, d, k), n, k)
    ensures ChildrenOrdered(le, d, n, k) ==> Ordered(le, SiftDown(le, d, k), n)
    decreases k
  {
    if k == 0 || le(d[Parent(k)], d[k]) {
    } else {
      var t := Swap(d, k, Parent(k));
      ExchangeWithParent(le, u, d, n, k);
      SiftDownClosesAbove(le, u, t, n, Parent(k));
      GapAnywhere(le, u, SiftDown(le, t, Parent(k)), n, k);
    }
  }

  lemma ExchangeWithParent<T>(le: (T, T) -> bool, u: set<T>, d: seq<T>, n: nat, k: nat)
    requires TotalPreorder(le, u) && Over(d, u) && 0 < k < n <= |d| && Gap(le, d, n, k) && !le(d[Parent(k)], d[k])
    ensures Gap(le, Swap(d, k, Parent(k)), n, Parent(k))
    ensures ChildrenOrdered(le, Swap(d, k, Parent(k)), n, Parent(k))
  {
    var p := Parent(k);
    var t := Swap(d, k, p);
    forall j | 0 < j < n && Parent(j) == p
      ensures le(t[p], t[j])
      ensures 0 < p ==> le(t[Parent(p)], t[j])
    {
      assert j != k ==> le(d[p], d[j]);
      assert 0 < p ==> le(d[Parent(p)], d[p]);
    }
  }

  lemma LeastIsLeast<T>(le: (T, T) -> bool, u: set<T>, d: seq<T>, n: nat, i: nat)
    requires TotalPreorder(le, u) && Over(d, u) && i <= n <= |d|
    ensures var s := Least(le, d, n, i);
      && (s == i ==> ChildrenOrdered(le, d, n, i))
      && (s != i ==> le(d[s], d[i]) && forall j :: 0 < j < n && Parent(j) == i ==> le(d[s], d[j]))
  {
    forall j | 0 < j < n && Parent(j) == i
      ensures j == 2 * i + 1 || j == 2 * i + 2
    {
    }
  }

  lemma ExchangeWithLeastChild<T>(le: (T, T) -> bool, u: set<T>, d: seq<T>, n: nat, i: nat, s: nat)
    requires TotalPreorder(le, u) && Over(d, u) && 0 < s < n <= |d| && Parent(s) == i
    requires Gap(le, d, n, i) && ParentOrdered(le, d, n, i) && le(d[s], d[i])
    requires forall j :: 0 < j < n && Parent(j) == i ==> le(d[s], d[j])
    ensures Gap(le, Swap(d, i, s), n, s) && ParentOrdered(le, Swap(d, i, s), n, s)
  {
    var t := Swap(d, i, s);
    forall j | 0 < j < n && Parent(j) == s
      ensures le(t[i], t[j])
    {
      assert le(d[Parent(j)], d[j]);
    }
  }

  /** Sifting towards the leaves closes what is left of the gap. */
  lemma {:induction false} SiftUpRestoresOrder<T>(le: (T, T) -> bool, u: set<T>, d: seq<T>, n: nat, k: nat)
    requires TotalPreorder(le, u) && Over(d, u) && k <= n <= |d|
    requires Gap(le, d, n, k) && ParentOrdered(le, d, n, k)
    ensures Ordered(le, SiftUp(le, d, n, k), n)
    decreases n - k
  {
    var s := Least(le, d, n, k);
    LeastIsLeast(le, u, d, n, k);
    if s == k {
      OrderedFromGap(le, d, n, k);
    } else {
      ExchangeWithLeastChild(le, u, d, n, k, s);
      SiftUpRestoresOrder(le, u, Swap(d, k, s), n, s);
    }
  }

  /** Heap order makes slot 0 least: all that the early exit of a tick relies on. */
  lemma {:induction false} RootIsLeast<T>(le: (T, T) -> bool, u: set<T>, h: seq<T>, i: nat)
    requires TotalPreorder(le, u) && Over(h, u) && Ordered(le, h, |h|) && i < |h|
    ensures le(h[0], h[i])
  {
    if i > 0 {
      RootIsLeast(le, u, h, Parent(i));
      assert le(h[Parent(i)], h[i]);
    }
  }

  // ----- contents -----

  lemma SwapKeepsLive<T>(d: seq<T>, n: nat, a: nat, b: nat)
    requires a < n <= |d| && b < n
    ensures multiset(Swap(d, a, b)[..n]) == multiset(d[..n])
    ensures Swap(d, a, b)[n..] == d[n..]
  {
    assert Swap(d, a, b)[..n] == Swap(d[..n], a, b);
  }

  lemma {:induction false} SiftDownKeepsLive<T>(le: (T, T) -> bool, d: seq<T>, n: nat, k: nat)
    requires k < n <= |d|
    ensures multiset(SiftDown(le, d, k)[..n]) == multiset(d[..n])
    ensures SiftDown(le, d, k)[n..] == d[n..]
    decreases k
  {
    if k == 0 || le(d[Parent(k)], d[k]) {
    } else {
      SwapKeepsLive(d, n, k, Parent(k));
      SiftDownKeepsLive(le, Swap(d, k, Parent(k)), n, Parent(k));
    }
  }

  lemma {:induction false} SiftUpKeepsLive<T>(le: (T, T) -> bool, d: seq<T>, n: nat, k: nat)
    requires k <= n <= |d|
    ensures multiset(SiftUp(le, d, n, k)[..n]) == multiset(d[..n])
    ensures SiftUp(le, d, n, k)[n..] == d[n..]
    decreases n - k
  {
    var s := Least(le, d, n, k);
    if s != k {
      SwapKeepsLive(d, n, k, s);
      SiftUpKeepsLive(le, Swap(d, k, s), n, s);
    }
  }

  // ----- the two operations -----

  /** Inserting keeps heap order and adds exactly the new element. */
  lemma InsertCorrect<T>(le: (T, T) -> bool, u: set<T>, h: seq<T>, x: T)
    requires TotalPreorder(le, u) && Over(h, u) && x in u && Ordered(le, h, |h|)
    ensures |Insert(le, h, x)| == |h| + 1
    ensures Ordered(le, Insert(le, h, x), |h| + 1)
    ensures multiset(Insert(le, h, x)) == multiset(h) + multiset{x}
  {
    var d := h + [x];
    assert Gap(le, d, |d|, |h|) && ChildrenOrdered(le, d, |d|, |h|);
    SiftDownClosesAbove(le, u, d, |d|, |h|);
    SiftDownKeepsLive(le, d, |d|, |h|);
    assert d[..|d|] == d;
    var r := Insert(le, h, x);
    assert r[..|d|] == r;
  }

  /** When the hole was the last slot, the sift towards the root leaves it alone. */
  lemma RefillLeavesGap<T>(le: (T, T) -> bool, u: set<T>, h: seq<T>, k: nat)
    requires TotalPreorder(le, u) && Over(h, u) && Ordered(le, h, |h|) && k < |h|
    ensures Over(Refill(le, h, k), u)
    ensures Gap(le, Refill(le, h, k), |h| - 1, k) && ParentOrdered(le, Refill(le, h, k), |h| - 1, k)
  {
    hide SiftDown;
    var n := |h| - 1;
    if k == n {
      assert h[k := h[n]] == h;
      LastStays(le, u, h);
    } else {
      hide Gap, ParentOrdered, Over, TotalPreorder, Ordered;
      GapFromOrdered(le, u, h, n, k, h[n]);
      SiftDownClosesAbove(le, u, h[k := h[n]], n, k);
    }
  }

  lemma RefillContents<T>(le: (T, T) -> bool, u: set<T>, h: seq<T>, k: nat)
    requires TotalPreorder(le, u) && Over(h, u) && Ordered(le, h, |h|) && k < |h|
    ensures multiset(Refill(le, h, k)[..|h| - 1]) == multiset(h) - multiset{h[k]}
  {
    hide SiftDown;
    var n := |h| - 1;
    var d := h[k := h[n]];
    assert h == h[..n] + [h[n]];
    if k == n {
      assert d == h;
      LastStays(le, u, h);
    } else {
      SiftDownKeepsLive(le, d, n, k);
      assert d[..n] == h[..n][k := h[n]];
    }
  }

  lemma LastStays<T>(le: (T, T) -> bool, u: set<T>, h: seq<T>)
    requires TotalPreorder(le, u) && Over(h, u) && Ordered(le, h, |h|) && |h| > 0
    ensures SiftDown(le, h, |h| - 1) == h
  {
  }

  lemma OrderedPrefix<T>(le: (T, T) -> bool, d: seq<T>, n: nat)
    requires n <= |d|
    ensures Ordered(le, d, n) ==> Ordered(le, d[..n], n)
  {
  }

  /** Removing any live slot keeps heap order and takes out exactly that slot's element. */
  lemma RemoveCorrect<T>(le: (T, T) -> bool, u: set<T>, h: seq<T>, k: nat)
    requires TotalPreorder(le, u) && Over(h, u) && Ordered(le, h, |h|) && k < |h|
    ensures |Remove(le, h, k)| == |h| - 1
    ensures Ordered(le, Remove(le, h, k), |h| - 1)
    ensures multiset(Remove(le, h, k)) == multiset(h) - multiset{h[k]}
  {
    hide SiftUp, Refill, Gap, ParentOrdered;
    RefillLeavesGap(le, u, h, k);
    RefillContents(le, u, h, k);
    OrderedPrefix(le, SiftUp(le, Refill(le, h, k), |h| - 1, k), |h| - 1);
    SiftUpRestoresOrder(le, u, Refill(le, h, k), |h| - 1, k);
    SiftUpKeepsLive(le, Refill(le, h, k), |h| - 1, k);
  }

  /** What removing the last slot removes, for any comparator: the element in it, unless its parent may not
      stay above it; then the sift that starts on the dead slot brings the element back, and its parent's is
      lost. A heap in order under a reflexive comparator never does that, but under a strict one it does
      whenever the two compare equal. */
  lemma StrictComparatorLosesElement<T>(le: (T, T) -> bool, h: seq<T>)
    requires h != []
    ensures var k := |h| - 1;
      multiset(Remove(le, h, k)) ==
        multiset(h) - multiset{if k > 0 && !le(h[Parent(k)], h[k]) then h[Parent(k)] else h[k]}
  {
    hide SiftDown;
    var k := |h| - 1;
    assert h[k := h[k]] == h;
    var d := SiftDown(le, h, k);
    assert SiftUp(le, d, k, k) == d;
    LastSifted(le, h);
    assert d == d[..k] + [d[k]];
  }

  lemma LastSifted<T>(le: (T, T) -> bool, h: seq<T>)
    requires h != []
    ensures var k := |h| - 1; var d := SiftDown(le, h, k);
      multiset(d) == multiset(h) && d[k] == if k > 0 && !le(h[Parent(k)], h[k]) then h[Parent(k)] else h[k]
  {
    var k := |h| - 1;
    SiftDownKeepsLive(le, h, |h|, k);
    assert SiftDown(le, h, k)[..|h|] == SiftDown(le, h, k) && h[..|h|] == h;
    if k > 0 && !le(h[Parent(k)], h[k]) {
      LastSwapped(le, h, Parent(k));
    }
  }

  lemma LastSwapped<T>(le: (T, T) -> bool, h: seq<T>, p: nat)
    requires |h| > 1 && p == Parent(|h| - 1) && !le(h[p], h[|h| - 1])
    ensures SiftDown(le, h, |h| - 1)[|h| - 1] == h[p]
  {
    var k := |h| - 1;
    var swapped := Swap(h, k, p);
    assert SiftDown(le, h, k) == SiftDown(le, swapped, p);
    hide SiftDown;
    SiftDownKeepsLive(le, swapped, p + 1, p);
    assert SiftDown(le, swapped, p)[p + 1..][k - p - 1] == swapped[p + 1..][k - p - 1];
  }

  // ----- cost -----

  /** Halvings that take `n` down to one. */
  function Log2(n: nat): nat
    requires n > 0
  {
    if n == 1 then 0 else 1 + Log2(n / 2)
  }

  function Power2(n: nat): nat {
    if n == 0 then 1 else 2 * Power2(n - 1)
  }

  lemma {:induction false} Log2Meaning(n: nat)
    requires n > 0
    ensures Power2(Log2(n)) <= n < Power2(Log2(n) + 1)
  {
    if n > 1 {
      Log2Meaning(n / 2);
    }
  }

  lemma {:induction false} Log2Monotone(a: nat, b: nat)
    requires 0 < a <= b
    ensures Log2(a) <= Log2(b)
  {
    if a > 1 {
      Log2Monotone(a / 2, b / 2);
    }
  }

  lemma Log2Parent(i: nat)
    requires i > 0
    ensures Log2(i + 1) == 1 + Log2(Parent(i) + 1)
  {
    assert (i + 1) / 2 == Parent(i) + 1;
  }

  /** Exchanges made by `SiftDown`. */
  function DownSwaps<T>(le: (T, T) -> bool, d: seq<T>, k: nat): nat
    requires k < |d|
    decreases k
  {
    if k == 0 || le(d[Parent(k)], d[k]) then 0
    else 1 + DownSwaps(le, Swap(d, k, Parent(k)), Parent(k))
  }

  /** Exchanges made by `SiftUp`. */
  function UpSwaps<T>(le: (T, T) -> bool, d: seq<T>, n: nat, k: nat): nat
    requires n <= |d| && k <= n
    decreases n - k
  {
    var s := Least(le, d, n, k);
    if s == k then 0 else 1 + UpSwaps(le, Swap(d, k, s), n, s)
  }

  lemma {:induction false} DownSwapsBound<T>(le: (T, T) -> bool, d: seq<T>, k: nat)
    requires k < |d|
    ensures DownSwaps(le, d, k) <= Log2(k + 1)
    decreases k
  {
    if k > 0 && !le(d[Parent(k)], d[k]) {
      DownSwapsBound(le, Swap(d, k, Parent(k)), Parent(k));
      Log2Parent(k);
    }
  }

  /** Neither sift makes more exchanges than the depth of the tree it works in. */
  lemma {:induction false} UpSwapsBound<T>(le: (T, T) -> bool, d: seq<T>, n: nat, k: nat)
    requires k < n <= |d|
    ensures Log2(k + 1) + UpSwaps(le, d, n, k) <= Log2(n)
    decreases n - k
  {
    var s := Least(le, d, n, k);
    if s == k {
      Log2Monotone(k + 1, n);
    } else {
      UpSwapsBound(le, Swap(d, k, s), n, s);
      Log2Parent(s);
    }
  }

  /** A removal's two sifts together climb or descend one path: the bound is shared. */
  lemma RemoveSwapsBound<T>(le: (T, T) -> bool, h: seq<T>, k: nat)
    requires k < |h| && (k == |h| - 1 ==> k == 0 || le(h[Parent(k)], h[k]))
    ensures DownSwaps(le, h[k := h[|h| - 1]], k) + UpSwaps(le, Refill(le, h, k), |h| - 1, k) <= Log2(|h|)
  {
    var n := |h| - 1;
    if k == n {
      assert h[k := h[n]] == h;
    } else {
      DownSwapsBound(le, h[k := h[n]], k);
      UpSwapsBound(le, Refill(le, h, k), n, k);
      Log2Monotone(n, |h|);
    }
  }
}
