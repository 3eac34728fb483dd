/** Kinds of things kept in the store file: how one is stored over whatever it left there before, how it
    is read back, and which records it has. `P` is where a thing lies, `R` what its owner writes down;
    `found` is where a thing that was just read back lies. */
module Kinds {
  import opened Octets
  import opened Stores
  import opened Disks
  import opened Text

  datatype Kind<!V, !P, !R> = Kind(
    fits: V -> bool,
    cost: V -> nat,
    store: (Padding, Disk, V, P) -> (Disk, P),
    restore: (Disk, R) -> V,
    kept: V -> V,
    ref: P -> R,
    fine: R -> bool,
    reload: (P, R) -> P,
    found: (Disk, R) -> P,
    owns: (P, int) -> bool,
    text: (P, int) -> bool,
    placed: (Disk, V, P) -> bool,
    current: (Disk, V, P) -> bool)

  // ----- what changes on disk -----

  /** From `d` to `e` records are appended, and at most those of `p` are rewritten. */
  ghost predicate Spares<P>(d: Disk, e: Disk, owns: (P, int) -> bool, p: P) {
    && Sane(e) && d.end <= e.end
    && (forall o <- d.contents :: o in e.contents && (owns(p, o) || e.contents[o] == d.contents[o]))
    && (forall o <- e.contents :: o in d.contents || d.end <= o)
  }

  /** The records of `p` are the same. */
  ghost predicate Agrees<P>(d: Disk, e: Disk, owns: (P, int) -> bool, p: P) {
    && Sane(e) && e.end < BOUND
    && forall o <- d.contents :: owns(p, o) ==> o in e.contents && e.contents[o] == d.contents[o]
  }

  /** The strings of `p` may be padded otherwise; nothing else changes. */
  ghost predicate Quiet<P>(d: Disk, e: Disk, text: (P, int) -> bool, p: P) {
    && e.end == d.end
    && (forall o <- e.contents :: o in d.contents)
    && (forall o <- d.contents :: o in e.contents &&
          (e.contents[o] == d.contents[o] || (text(p, o) && SameText(d.contents[o], e.contents[o]))))
  }

  /** What `q` has and `p` has not lies behind `end`. */
  ghost predicate Newer<P>(owns: (P, int) -> bool, p: P, q: P, end: int) {
    forall o :: owns(q, o) ==> owns(p, o) || end <= o
  }

  ghost predicate SameText(b: seq<byte>, c: seq<byte>) {
    |b| == |c| && Terminated(b).Some? && Terminated(b) == Terminated(c)
  }

  // ----- the laws -----

  /** Storing a thing over what it left before appends at most its cost, rewrites at most its own
      records, and leaves it on disk as it is. */
  ghost predicate StoreLaw<V(!new), P(!new), R(!new)>(a: Kind<V, P, R>) {
    forall pad: Padding, d, v, p {:trigger a.store(pad, d, v, p)} ::
      Sane(d) && a.fits(v) && a.placed(d, v, p) && d.end + a.cost(v) < BOUND ==>
      var (e, q) := a.store(pad, d, v, p);
      && Spares(d, e, a.owns, p) && e.end <= d.end + a.cost(v)
      && Newer(a.owns, p, q, d.end)
      && a.current(e, v, q)
  }

  /** Storing it again as it is moves nothing and changes nothing but padding. */
  ghost predicate RepeatLaw<V(!new), P(!new), R(!new)>(a: Kind<V, P, R>) {
    forall pad: Padding, d, v, q {:trigger a.store(pad, d, v, q)} ::
      Sane(d) && d.end < BOUND && a.fits(v) && a.current(d, v, q) ==>
      var (e, q') := a.store(pad, d, v, q); q' == q && Quiet(d, e, a.text, q) && a.current(e, v, q)
  }

  /** What is on disk can be read. */
  ghost predicate ReadLaw<V(!new), P(!new), R(!new)>(a: Kind<V, P, R>) {
    forall d, v, q {:trigger a.current(d, v, q)} ::
      Sane(d) && d.end < BOUND && a.fits(v) && a.current(d, v, q) ==>
      a.restore(d, a.ref(q)) == a.kept(v)
  }

  /** A thing has the records it owns, and what it says of itself it finds again. */
  ghost predicate HoldLaw<V(!new), P(!new), R(!new)>(a: Kind<V, P, R>) {
    && (forall d, v, p, o {:trigger a.placed(d, v, p), a.owns(p, o)} ::
          a.placed(d, v, p) && a.owns(p, o) ==> o in d.contents)
    && (forall d, v, q {:trigger a.current(d, v, q)} ::
          Sane(d) && d.end < BOUND && a.fits(v) && a.current(d, v, q) ==> a.placed(d, v, q) && a.fine(a.ref(q)))
    && (forall q {:trigger a.ref(q)} :: a.reload(q, a.ref(q)) == q)
    && (forall q, o {:trigger a.text(q, o)} :: a.text(q, o) ==> a.owns(q, o))
  }

  /** It does not depend on other records. */
  ghost predicate StayLaw<V(!new), P(!new), R(!new)>(a: Kind<V, P, R>) {
    && (forall d, e, v, p {:trigger a.placed(d, v, p), a.placed(e, v, p)} ::
          Sane(d) && a.placed(d, v, p) && Agrees(d, e, a.owns, p) ==> a.placed(e, v, p))
    && (forall d, e, v, p {:trigger a.current(d, v, p), a.current(e, v, p)} ::
          Sane(d) && a.current(d, v, p) && Agrees(d, e, a.owns, p) ==> a.current(e, v, p))
  }

  ghost predicate Lawful<V(!new), P(!new), R(!new)>(a: Kind<V, P, R>) {
    StoreLaw(a) && RepeatLaw(a) && ReadLaw(a) && HoldLaw(a) && StayLaw(a)
  }

  /** Its reference is the position of one of its records. */
  ghost predicate Located<V(!new), P(!new)>(a: Kind<V, P, int>) {
    forall d, v, q {:trigger a.current(d, v, q)} :: a.current(d, v, q) ==> 0 < a.ref(q) && a.owns(q, a.ref(q))
  }

  // ----- the laws, one use at a time -----

  lemma UseStores<V(!new), P(!new), R(!new)>(a: Kind<V, P, R>, pad: Padding, d: Disk, v: V, p: P)
    requires Lawful(a) && Sane(d) && a.fits(v) && a.placed(d, v, p) && d.end + a.cost(v) < BOUND
    ensures var (e, q) := a.store(pad, d, v, p);
      && Spares(d, e, a.owns, p) && e.end <= d.end + a.cost(v)
      && Newer(a.owns, p, q, d.end)
      && (forall o :: a.owns(q, o) ==> o in e.contents)
      && a.current(e, v, q) && a.placed(e, v, q) && a.fine(a.ref(q))
  {
    hide Spares, Sane, RepeatLaw, ReadLaw, StayLaw;
    var (e, q) := a.store(pad, d, v, p);
    SparesSane(d, e, a.owns, p);
  }

  lemma SparesSane<P>(d: Disk, e: Disk, owns: (P, int) -> bool, p: P)
    requires Spares(d, e, owns, p)
    ensures Sane(e) && d.end <= e.end
  {
  }

  lemma UseRepeats<V(!new), P(!new), R(!new)>(a: Kind<V, P, R>, pad: Padding, d: Disk, v: V, q: P)
    requires Lawful(a) && Sane(d) && d.end < BOUND && a.fits(v) && a.current(d, v, q)
    ensures var (e, q') := a.store(pad, d, v, q); q' == q && Quiet(d, e, a.text, q) && a.current(e, v, q)
    ensures forall o :: a.text(q, o) ==> a.owns(q, o)
  {
    hide StoreLaw, ReadLaw, StayLaw, Quiet, Sane;
  }

  lemma UseReads<V(!new), P(!new), R(!new)>(a: Kind<V, P, R>, d: Disk, v: V, q: P)
    requires Lawful(a) && Sane(d) && d.end < BOUND && a.fits(v) && a.current(d, v, q)
    ensures a.restore(d, a.ref(q)) == a.kept(v)
  {
    hide StoreLaw, RepeatLaw, HoldLaw, StayLaw, Sane;
  }

  lemma UseOwned<V(!new), P(!new), R(!new)>(a: Kind<V, P, R>, d: Disk, v: V, p: P)
    requires Lawful(a) && a.placed(d, v, p)
    ensures forall o :: a.owns(p, o) ==> o in d.contents
  {
    hide StoreLaw, RepeatLaw, ReadLaw, StayLaw, Sane;
  }

  lemma UseCurrent<V(!new), P(!new), R(!new)>(a: Kind<V, P, R>, d: Disk, v: V, q: P)
    requires Lawful(a) && Sane(d) && d.end < BOUND && a.fits(v) && a.current(d, v, q)
    ensures a.placed(d, v, q) && a.fine(a.ref(q)) && a.reload(q, a.ref(q)) == q
    ensures forall o :: a.owns(q, o) ==> o in d.contents
  {
    hide StoreLaw, RepeatLaw, ReadLaw, StayLaw, Sane;
  }

  lemma UsePlacedStays<V(!new), P(!new), R(!new)>(a: Kind<V, P, R>, d: Disk, e: Disk, v: V, p: P)
    requires Lawful(a) && Sane(d) && a.placed(d, v, p) && Agrees(d, e, a.owns, p)
    ensures a.placed(e, v, p)
  {
    hide StoreLaw, RepeatLaw, ReadLaw, HoldLaw, Sane, Agrees;
  }

  lemma UseCurrentStays<V(!new), P(!new), R(!new)>(a: Kind<V, P, R>, d: Disk, e: Disk, v: V, p: P)
    requires Lawful(a) && Sane(d) && a.current(d, v, p) && Agrees(d, e, a.owns, p)
    ensures a.current(e, v, p)
  {
    hide StoreLaw, RepeatLaw, ReadLaw, HoldLaw, Sane, Agrees;
  }

  // ----- strings -----

  ghost predicate TextPlaced(d: Disk, p: int, maximum: nat) {
    p > 0 ==> p in d.contents && |d.contents[p]| >= maximum
  }

  ghost predicate TextCurrent(d: Disk, t: Chars, p: int, maximum: nat) {
    if Kept(t, maximum) == None then p == -1 else
      p > 0 && p in d.contents && |d.contents[p]| >= maximum && Terminated(d.contents[p]) == t
  }

  predicate IsAt(p: int, o: int) { o == p > 0 }

  /** A string with room for `maximum` bytes. */
  ghost function TextKind(maximum: nat): Kind<Chars, int, int> {
    Kind(NoZero, t => 16 + maximum,
         (pad, d, t, p) => PutText(pad, d, p, t, maximum),
         GetText, t => Kept(t, maximum),
         p => p, Position, (p, r) => r, (d, r) => r,
         IsAt, IsAt,
         (d, t, p) => TextPlaced(d, p, maximum),
         (d, t, p) => TextCurrent(d, t, p, maximum))
  }

  lemma PaddedText(t: seq<byte>, pad: seq<byte>, length: nat)
    requires |t| < length <= |pad| && 0 !in t
    ensures Terminated(Padded(t, pad, length)).Some?
    ensures Terminated(Padded(t, pad, length)).value == t
  {
    hide Terminated;
    TerminatedText(t, pad[..length - (|t| + 1)]);
  }

  lemma TextStored(pad: Padding, d: Disk, t: Chars, p: int, maximum: nat)
    requires Sane(d) && NoZero(t) && TextPlaced(d, p, maximum)
    ensures var (e, q) := PutText(pad, d, p, t, maximum);
      && Spares(d, e, IsAt, p) && e.end <= d.end + 16 + maximum
      && (q > 0 ==> q == p || d.end <= q)
      && TextCurrent(e, t, q, maximum)
  {
    hide Terminated, Padded;
    if Kept(t, maximum).Some? {
      if p <= 0 {
        PaddedText(t.value, PadBytes(pad, d.end, maximum), maximum);
      } else {
        var n := |d.contents[p]|;
        PaddedText(t.value, PadBytes(pad, p, n), n);
      }
    }
  }

  lemma TextRepeated(pad: Padding, d: Disk, t: Chars, q: int, maximum: nat)
    requires Sane(d) && NoZero(t) && TextCurrent(d, t, q, maximum)
    ensures var (e, r) := PutText(pad, d, q, t, maximum);
      r == q && Quiet(d, e, IsAt, q) && TextCurrent(e, t, q, maximum)
  {
    hide Terminated, Padded;
    if Kept(t, maximum).Some? {
      var n := |d.contents[q]|;
      PaddedText(t.value, PadBytes(pad, q, n), n);
    }
  }

  lemma TextLawful(maximum: nat)
    ensures Lawful(TextKind(maximum))
  {
    hide Terminated, PutText, Spares, Quiet;
    var a := TextKind(maximum);
    forall pad: Padding, d, t, p | Sane(d) && a.fits(t) && a.placed(d, t, p)
      ensures var (e, q) := a.store(pad, d, t, p);
        && Spares(d, e, a.owns, p) && e.end <= d.end + a.cost(t)
        && Newer(a.owns, p, q, d.end)
        && a.current(e, t, q)
    {
      TextStored(pad, d, t, p, maximum);
    }
    forall pad: Padding, d, t, q | Sane(d) && a.fits(t) && a.current(d, t, q)
      ensures var (e, q') := a.store(pad, d, t, q);
        q' == q && Quiet(d, e, a.text, q) && a.current(e, t, q)
    {
      TextRepeated(pad, d, t, q, maximum);
    }
  }

  // ----- payloads -----

  ghost predicate BlobPlaced(d: Disk, b: seq<byte>, p: int) {
    p > 0 ==> p in d.contents && (b == [] || |d.contents[p]| == |b|)
  }

  ghost predicate BlobCurrent(d: Disk, b: seq<byte>, p: (int, int)) {
    p.1 == |b| && if b == [] then p.0 == -1 else p.0 > 0 && p.0 in d.contents && d.contents[p.0] == b
  }

  predicate StartsAt(p: (int, int), o: int) { o == p.0 > 0 }

  function GetBlob(d: Disk, p: (int, int)): seq<byte> {
    if p.0 <= 0 || p.1 <= 0 || p.0 !in d.contents || |d.contents[p.0]| != p.1 then [] else d.contents[p.0]
  }

  function PutBlob(d: Disk, p: int, b: seq<byte>): (Disk, (int, int)) {
    var (e, q) := Put(d, p, b);
    (e, (q, |b|))
  }

  /** Bytes whose number, once stored, does not change; their owner writes down where and how many. */
  ghost function BlobKind(): Kind<seq<byte>, (int, int), (int, int)> {
    Kind(b => Fits(|b|, 4), b => 16 + |b|,
         (pad, d, b, p: (int, int)) => PutBlob(d, p.0, b),
         GetBlob, b => b,
         p => p, (r: (int, int)) => Position(r.0) && Fits(r.1, 4), (p, r) => r, (d, r) => r,
         StartsAt, (p, o) => false,
         (d, b, p: (int, int)) => BlobPlaced(d, b, p.0),
         BlobCurrent)
  }

  lemma BlobLawful()
    ensures Lawful(BlobKind())
  {
    hide Fits, PutBlob, Spares, Quiet;
    var a := BlobKind();
    forall pad: Padding, d, b, p: (int, int) | Sane(d) && a.placed(d, b, p)
      ensures var (e, q) := a.store(pad, d, b, p);
        && Spares(d, e, a.owns, p) && e.end <= d.end + a.cost(b)
        && Newer(a.owns, p, q, d.end)
        && a.current(e, b, q)
    {
      BlobStored(d, b, p);
    }
    forall pad: Padding, d, b, q | Sane(d) && a.current(d, b, q)
      ensures var (e, q') := a.store(pad, d, b, q);
        q' == q && Quiet(d, e, a.text, q) && a.current(e, b, q)
    {
      BlobRepeated(d, b, q);
      QuietSelf(d, a.text, q);
    }
  }

  lemma QuietSelf<P>(d: Disk, text: (P, int) -> bool, p: P)
    ensures Quiet(d, d, text, p)
  {
  }

  lemma BlobStored(d: Disk, b: seq<byte>, p: (int, int))
    requires Sane(d) && BlobPlaced(d, b, p.0)
    ensures var (e, q) := PutBlob(d, p.0, b);
      && Spares(d, e, StartsAt, p) && e.end <= d.end + 16 + |b|
      && (q.0 > 0 ==> q.0 == p.0 || d.end <= q.0)
      && BlobCurrent(e, b, q)
  {
  }

  lemma BlobRepeated(d: Disk, b: seq<byte>, q: (int, int))
    requires BlobCurrent(d, b, q)
    ensures PutBlob(d, q.0, b).1 == q
    ensures PutBlob(d, q.0, b).0 == d
  {
    if b != [] {
      assert d.contents[q.0 := b] == d.contents;
    }
  }

  // ----- one thing after another -----

  ghost predicate Apart<P(!new), Q(!new)>(p: P, mine: (P, int) -> bool, q: Q, yours: (Q, int) -> bool) {
    forall o {:trigger mine(p, o)} {:trigger yours(q, o)} :: !(mine(p, o) && yours(q, o))
  }

  function PutBoth<V, P, R, W, Q, S>(a: Kind<V, P, R>, b: Kind<W, Q, S>, pad: Padding, d: Disk, v: (V, W), p: (P, Q)):
    (Disk, (P, Q))
  {
    var (d1, p1) := a.store(pad, d, v.0, p.0);
    var (d2, p2) := b.store(pad, d1, v.1, p.1);
    (d2, (p1, p2))
  }

  ghost predicate BothPlaced<V, P(!new), R, W, Q(!new), S>(a: Kind<V, P, R>, b: Kind<W, Q, S>, d: Disk, v: (V, W),
                                                           p: (P, Q)) {
    a.placed(d, v.0, p.0) && b.placed(d, v.1, p.1) && Apart(p.0, a.owns, p.1, b.owns)
  }

  ghost predicate BothCurrent<V, P(!new), R, W, Q(!new), S>(a: Kind<V, P, R>, b: Kind<W, Q, S>, d: Disk, v: (V, W),
                                                            p: (P, Q)) {
    a.current(d, v.0, p.0) && b.current(d, v.1, p.1) && Apart(p.0, a.owns, p.1, b.owns)
  }

  predicate EitherOwns<P, Q>(mine: (P, int) -> bool, yours: (Q, int) -> bool, p: (P, Q), o: int) {
    mine(p.0, o) || yours(p.1, o)
  }

  function BothCost<V, W>(mine: V -> nat, yours: W -> nat, v: (V, W)): nat { mine(v.0) + yours(v.1) }

  ghost function Both<V, P(!new), R, W, Q(!new), S>(a: Kind<V, P, R>, b: Kind<W, Q, S>):
    Kind<(V, W), (P, Q), (R, S)>
  {
    Kind((v: (V, W)) => a.fits(v.0) && b.fits(v.1), v => BothCost(a.cost, b.cost, v),
         (pad, d, v, p) => PutBoth(a, b, pad, d, v, p),
         (d, r: (R, S)) => (a.restore(d, r.0), b.restore(d, r.1)),
         (v: (V, W)) => (a.kept(v.0), b.kept(v.1)),
         (p: (P, Q)) => (a.ref(p.0), b.ref(p.1)), (r: (R, S)) => a.fine(r.0) && b.fine(r.1),
         (p: (P, Q), r: (R, S)) => (a.reload(p.0, r.0), b.reload(p.1, r.1)),
         (d, r: (R, S)) => (a.found(d, r.0), b.found(d, r.1)),
         (p, o) => EitherOwns(a.owns, b.owns, p, o), (p, o) => EitherOwns(a.text, b.text, p, o),
         (d, v, p) => BothPlaced(a, b, d, v, p), (d, v, p) => BothCurrent(a, b, d, v, p))
  }

  /** Records of others are the same after storing. */
  lemma OthersAgree<P(!new), Q(!new)>(d: Disk, e: Disk, mine: (P, int) -> bool, p: P, yours: (Q, int) -> bool, q: Q)
    requires Spares(d, e, mine, p) && e.end < BOUND
    requires forall o <- d.contents :: !(mine(p, o) && yours(q, o))
    ensures Agrees(d, e, yours, q)
  {
  }

  lemma SparesTwice<P, Q, Z>(d: Disk, e: Disk, f: Disk, mine: (P, int) -> bool, p: P, yours: (Q, int) -> bool, q: Q,
                             all: (Z, int) -> bool, z: Z)
    requires Spares(d, e, mine, p) && Spares(e, f, yours, q)
    requires forall o <- d.contents :: mine(p, o) || yours(q, o) ==> all(z, o)
    ensures Spares(d, f, all, z)
  {
  }

  lemma BothStored<V(!new), P(!new), R(!new), W(!new), Q(!new), S(!new)>(
    a: Kind<V, P, R>, b: Kind<W, Q, S>, pad: Padding, d: Disk, v: (V, W), p: (P, Q))
    requires Lawful(a) && Lawful(b) && Sane(d) && a.fits(v.0) && b.fits(v.1) && BothPlaced(a, b, d, v, p)
    requires d.end + a.cost(v.0) + b.cost(v.1) < BOUND
    ensures var (e, q) := PutBoth(a, b, pad, d, v, p);
      && Spares(d, e, Both(a, b).owns, p) && e.end <= d.end + a.cost(v.0) + b.cost(v.1)
      && Newer(Both(a, b).owns, p, q, d.end)
      && BothCurrent(a, b, e, v, q)
  {
    hide Lawful, Spares, Agrees, Sane;
    var (d1, p1) := a.store(pad, d, v.0, p.0);
    UseStores(a, pad, d, v.0, p.0);
    SparesSane(d, d1, a.owns, p.0);
    OthersAgree(d, d1, a.owns, p.0, b.owns, p.1);
    UseOwned(a, d, v.0, p.0);
    UseOwned(b, d, v.1, p.1);
    UsePlacedStays(b, d, d1, v.1, p.1);
    var (e, p2) := b.store(pad, d1, v.1, p.1);
    UseStores(b, pad, d1, v.1, p.1);
    SparesSane(d1, e, b.owns, p.1);
    SaneKeys(d);
    SaneKeys(d1);
    SaneKeys(e);
    assert Apart(p1, a.owns, p.1, b.owns);
    OthersAgree(d1, e, b.owns, p.1, a.owns, p1);
    UseCurrentStays(a, d1, e, v.0, p1);
    SparesTwice(d, d1, e, a.owns, p.0, b.owns, p.1, Both(a, b).owns, p);
  }

  lemma SaneKeys(d: Disk)
    requires Sane(d)
    ensures d.end > 0 && forall o <- d.contents :: 0 < o < d.end
  {
  }

  lemma QuietKeys<P>(d: Disk, e: Disk, text: (P, int) -> bool, p: P)
    requires Quiet(d, e, text, p) && Sane(d)
    ensures Sane(e) && e.end == d.end
  {
  }

  /** Records of others are the same after storing again. */
  lemma OthersQuiet<P(!new), Q(!new)>(d: Disk, e: Disk, text: (P, int) -> bool, p: P, yours: (Q, int) -> bool, q: Q)
    requires Sane(d) && d.end < BOUND && Quiet(d, e, text, p)
    requires forall o <- d.contents :: !(text(p, o) && yours(q, o))
    ensures Agrees(d, e, yours, q)
  {
  }

  lemma QuietTwice<P, Q, Z>(d: Disk, e: Disk, f: Disk, mine: (P, int) -> bool, p: P, yours: (Q, int) -> bool, q: Q,
                            all: (Z, int) -> bool, z: Z)
    requires Quiet(d, e, mine, p) && Quiet(e, f, yours, q)
    requires forall o <- d.contents :: mine(p, o) || yours(q, o) ==> all(z, o)
    ensures Quiet(d, f, all, z)
  {
    hide Terminated;
  }

  lemma BothRepeated<V(!new), P(!new), R(!new), W(!new), Q(!new), S(!new)>(
    a: Kind<V, P, R>, b: Kind<W, Q, S>, pad: Padding, d: Disk, v: (V, W), q: (P, Q))
    requires Lawful(a) && Lawful(b) && Sane(d) && d.end < BOUND && a.fits(v.0) && b.fits(v.1)
    requires BothCurrent(a, b, d, v, q)
    ensures var (e, r) := PutBoth(a, b, pad, d, v, q); r == q && Quiet(d, e, Both(a, b).text, q) && BothCurrent(a, b, e, v, q)
  {
    hide Lawful, Quiet, Agrees, Sane;
    var (d1, p1) := a.store(pad, d, v.0, q.0);
    UseRepeats(a, pad, d, v.0, q.0);
    QuietKeys(d, d1, a.text, q.0);
    OthersQuiet(d, d1, a.text, q.0, b.owns, q.1);
    UseCurrentStays(b, d, d1, v.1, q.1);
    var (e, p2) := b.store(pad, d1, v.1, q.1);
    UseRepeats(b, pad, d1, v.1, q.1);
    QuietKeys(d1, e, b.text, q.1);
    OthersQuiet(d1, e, b.text, q.1, a.owns, q.0);
    UseCurrentStays(a, d1, e, v.0, q.0);
    QuietTwice(d, d1, e, a.text, q.0, b.text, q.1, Both(a, b).text, q);
  }

  lemma AgreesPart<P, Z>(d: Disk, e: Disk, all: (Z, int) -> bool, z: Z, part: (P, int) -> bool, p: P)
    requires Agrees(d, e, all, z) && forall o <- d.contents :: part(p, o) ==> all(z, o)
    ensures Agrees(d, e, part, p)
  {
  }

  lemma BothLawful<V(!new), P(!new), R(!new), W(!new), Q(!new), S(!new)>(a: Kind<V, P, R>, b: Kind<W, Q, S>)
    requires Lawful(a) && Lawful(b)
    ensures Lawful(Both(a, b))
  {
    BothStoreLaw(a, b);
    BothRepeatLaw(a, b);
    BothReadLaw(a, b);
    BothStayLaw(a, b);
    hide StoreLaw, RepeatLaw, ReadLaw, HoldLaw, StayLaw;
  }

  lemma BothStoreLaw<V(!new), P(!new), R(!new), W(!new), Q(!new), S(!new)>(a: Kind<V, P, R>, b: Kind<W, Q, S>)
    requires Lawful(a) && Lawful(b)
    ensures StoreLaw(Both(a, b))
  {
    hide Lawful, PutBoth, Spares, Sane, EitherOwns, BothPlaced, BothCurrent;
    var c := Both(a, b);
    forall pad: Padding, d, v, p | Sane(d) && c.fits(v) && c.placed(d, v, p) && d.end + c.cost(v) < BOUND
      ensures var (e, q) := c.store(pad, d, v, p);
        && Spares(d, e, c.owns, p) && e.end <= d.end + c.cost(v)
        && Newer(c.owns, p, q, d.end)
        && c.current(e, v, q)
    {
      BothStored(a, b, pad, d, v, p);
    }
  }

  lemma BothRepeatLaw<V(!new), P(!new), R(!new), W(!new), Q(!new), S(!new)>(a: Kind<V, P, R>, b: Kind<W, Q, S>)
    requires Lawful(a) && Lawful(b)
    ensures RepeatLaw(Both(a, b))
  {
    hide Lawful, PutBoth, Quiet, Sane, EitherOwns, BothPlaced, BothCurrent;
    var c := Both(a, b);
    forall pad: Padding, d, v, q | Sane(d) && d.end < BOUND && c.fits(v) && c.current(d, v, q)
      ensures var (e, q') := c.store(pad, d, v, q);
        q' == q && Quiet(d, e, c.text, q) && c.current(e, v, q)
    {
      BothRepeated(a, b, pad, d, v, q);
    }
  }

  lemma BothReadLaw<V(!new), P(!new), R(!new), W(!new), Q(!new), S(!new)>(a: Kind<V, P, R>, b: Kind<W, Q, S>)
    requires Lawful(a) && Lawful(b)
    ensures ReadLaw(Both(a, b)) && HoldLaw(Both(a, b))
  {
    hide Lawful, Sane, PutBoth, Apart;
    var c := Both(a, b);
    forall d, v, q | Sane(d) && d.end < BOUND && c.fits(v) && c.current(d, v, q)
      ensures c.restore(d, c.ref(q)) == c.kept(v) && c.placed(d, v, q) && c.fine(c.ref(q))
    {
      UseReads(a, d, v.0, q.0);
      UseReads(b, d, v.1, q.1);
      UseCurrent(a, d, v.0, q.0);
      UseCurrent(b, d, v.1, q.1);
    }
    forall d, v, p, o | c.placed(d, v, p) && c.owns(p, o)
      ensures o in d.contents
    {
      UseOwned(a, d, v.0, p.0);
      UseOwned(b, d, v.1, p.1);
    }
    forall q
      ensures c.reload(q, c.ref(q)) == q
    {
      UseReload(a, q.0);
      UseReload(b, q.1);
    }
    forall q, o | c.text(q, o)
      ensures c.owns(q, o)
    {
      UseReload(a, q.0);
      UseReload(b, q.1);
    }
  }

  lemma UseReload<V(!new), P(!new), R(!new)>(a: Kind<V, P, R>, q: P)
    requires Lawful(a)
    ensures a.reload(q, a.ref(q)) == q
    ensures forall o :: a.text(q, o) ==> a.owns(q, o)
  {
    hide StoreLaw, RepeatLaw, ReadLaw, StayLaw, Sane;
  }

  lemma BothStayLaw<V(!new), P(!new), R(!new), W(!new), Q(!new), S(!new)>(a: Kind<V, P, R>, b: Kind<W, Q, S>)
    requires Lawful(a) && Lawful(b)
    ensures StayLaw(Both(a, b))
  {
    hide Lawful, Sane, PutBoth, Apart, Agrees;
    var c := Both(a, b);
    forall d, e, v, p | Sane(d) && Agrees(d, e, c.owns, p)
      ensures c.placed(d, v, p) ==> c.placed(e, v, p)
      ensures c.current(d, v, p) ==> c.current(e, v, p)
    {
      AgreesPart(d, e, c.owns, p, a.owns, p.0);
      AgreesPart(d, e, c.owns, p, b.owns, p.1);
      if c.placed(d, v, p) {
        UsePlacedStays(a, d, e, v.0, p.0);
        UsePlacedStays(b, d, e, v.1, p.1);
      }
      if c.current(d, v, p) {
        UseCurrentStays(a, d, e, v.0, p.0);
        UseCurrentStays(b, d, e, v.1, p.1);
      }
    }
  }

  // ----- a record of one's own -----

  /** How a value is written: its record refers to the parts, which come first. `zero` is what an unsaved
      record is taken to refer to. */
  datatype Layout<!V, !W, !R> = Layout(
    size: nat,
    sound: V -> bool,
    parts: V -> W,
    encode: (V, R) -> seq<byte>,
    refs: seq<byte> -> R,
    make: (seq<byte>, W) -> V,
    joined: (V, W) -> V,
    zero: R,
    none: V)

  /** Where the record is, and where its parts are. */
  datatype Place<P> = Place(at: int, inner: P)

  ghost predicate WellLaid<V(!new), W(!new), P(!new), R(!new)>(l: Layout<V, W, R>, a: Kind<W, P, R>) {
    && l.size > 0
    && (forall v, r {:trigger l.encode(v, r)} :: |l.encode(v, r)| == l.size)
    && (forall v, r {:trigger l.encode(v, r)} :: l.sound(v) && a.fine(r) ==> l.refs(l.encode(v, r)) == r)
    && (forall v, r, w {:trigger l.make(l.encode(v, r), w)} :: l.sound(v) && a.fine(r) ==>
          l.make(l.encode(v, r), w) == l.joined(v, w))
  }

  /** What the record at hand, or the lack of one, says about the parts. */
  function Found<V, W, R>(l: Layout<V, W, R>, d: Disk, at: int): R {
    if at > 0 && at in d.contents then l.refs(d.contents[at]) else l.zero
  }

  function PutRecord<V, W, P, R>(l: Layout<V, W, R>, a: Kind<W, P, R>, pad: Padding, d: Disk, v: V, p: Place<P>):
    (Disk, Place<P>)
  {
    var (d1, inner) := a.store(pad, d, l.parts(v), a.reload(p.inner, Found(l, d, p.at)));
    var (e, at) := Put(d1, p.at, l.encode(v, a.ref(inner)));
    (e, Place(at, inner))
  }

  function GetRecord<V, W, P, R>(l: Layout<V, W, R>, a: Kind<W, P, R>, d: Disk, at: int): V {
    if at <= 0 || at !in d.contents || |d.contents[at]| != l.size then l.none else
      l.make(d.contents[at], a.restore(d, l.refs(d.contents[at])))
  }

  predicate RecordOwns<P>(owns: (P, int) -> bool, p: Place<P>, o: int) {
    o == p.at > 0 || owns(p.inner, o)
  }

  ghost predicate RecordPlaced<V, W, P(!new), R>(l: Layout<V, W, R>, a: Kind<W, P, R>, d: Disk, v: V, p: Place<P>) {
    && a.placed(d, l.parts(v), p.inner)
    && a.reload(p.inner, Found(l, d, p.at)) == p.inner
    && (p.at > 0 ==> p.at in d.contents && |d.contents[p.at]| == l.size && !a.owns(p.inner, p.at))
  }

  ghost predicate RecordCurrent<V, W, P(!new), R>(l: Layout<V, W, R>, a: Kind<W, P, R>, d: Disk, v: V, p: Place<P>) {
    && a.current(d, l.parts(v), p.inner)
    && p.at > 0 && p.at in d.contents && d.contents[p.at] == l.encode(v, a.ref(p.inner)) && !a.owns(p.inner, p.at)
  }

  function RecordCost<V, W>(size: nat, cost: W -> nat, parts: V -> W, v: V): nat { cost(parts(v)) + 16 + size }

  ghost function Recorded<V, W, P(!new), R>(l: Layout<V, W, R>, a: Kind<W, P, R>): Kind<V, Place<P>, int> {
    Kind(v => l.sound(v) && a.fits(l.parts(v)), v => RecordCost(l.size, a.cost, l.parts, v),
         (pad, d, v, p) => PutRecord(l, a, pad, d, v, p),
         (d, at) => GetRecord(l, a, d, at),
         v => l.joined(v, a.kept(l.parts(v))),
         (p: Place<P>) => p.at, Position, (p, r) => p, (d, at) => Place(at, a.found(d, Found(l, d, at))),
         (p, o) => RecordOwns(a.owns, p, o), (p: Place<P>, o) => a.text(p.inner, o),
         (d, v, p) => RecordPlaced(l, a, d, v, p), (d, v, p) => RecordCurrent(l, a, d, v, p))
  }

  /** What writing one record does. */
  lemma PutSpares(d: Disk, at: int, b: seq<byte>)
    requires Sane(d) && b != [] && (at > 0 ==> at in d.contents && |d.contents[at]| == |b|)
    ensures var (e, q) := Put(d, at, b);
      && Spares(d, e, IsAt, at) && d.end <= e.end <= d.end + 16 + |b|
      && 0 < q < e.end && q in e.contents && e.contents[q] == b
      && (at > 0 ==> q == at && e.end == d.end) && (at <= 0 ==> q == d.end)
      && (forall o <- d.contents :: o != q ==> o in e.contents && e.contents[o] == d.contents[o])
  {
  }

  lemma RecordStored<V(!new), W(!new), P(!new), R(!new)>(
    l: Layout<V, W, R>, a: Kind<W, P, R>, pad: Padding, d: Disk, v: V, p: Place<P>)
    requires WellLaid(l, a) && Lawful(a) && Sane(d) && l.sound(v) && a.fits(l.parts(v)) && RecordPlaced(l, a, d, v, p)
    requires d.end + a.cost(l.parts(v)) + 16 + l.size < BOUND
    ensures var (e, q) := PutRecord(l, a, pad, d, v, p);
      && Spares(d, e, Recorded(l, a).owns, p) && e.end <= d.end + a.cost(l.parts(v)) + 16 + l.size
      && Newer(Recorded(l, a).owns, p, q, d.end)
      && RecordCurrent(l, a, e, v, q)
  {
    hide Lawful, Spares, Agrees, Sane, Put;
    var (d1, inner) := a.store(pad, d, l.parts(v), p.inner);
    UseStores(a, pad, d, l.parts(v), p.inner);
    UseOwned(a, d, l.parts(v), p.inner);
    SparesSane(d, d1, a.owns, p.inner);
    SaneKeys(d);
    SaneKeys(d1);
    SparesKeeps(d, d1, a.owns, p.inner);
    var b := l.encode(v, a.ref(inner));
    PutSpares(d1, p.at, b);
    var (e, at) := Put(d1, p.at, b);
    SparesSane(d1, e, IsAt, p.at);
    assert !a.owns(inner, at);
    OthersAgree(d1, e, IsAt, p.at, a.owns, inner);
    UseCurrentStays(a, d1, e, l.parts(v), inner);
    SparesTwice(d, d1, e, a.owns, p.inner, IsAt, p.at, Recorded(l, a).owns, p);
  }

  lemma SparesKeeps<P>(d: Disk, e: Disk, owns: (P, int) -> bool, p: P)
    requires Spares(d, e, owns, p)
    ensures forall o <- d.contents :: o in e.contents && (!owns(p, o) ==> e.contents[o] == d.contents[o])
  {
  }

  lemma PutAgain(d: Disk, at: int, b: seq<byte>)
    requires b != [] && at > 0 && at in d.contents && d.contents[at] == b
    ensures Put(d, at, b) == (d, at)
  {
    assert d.contents[at := b] == d.contents;
  }

  lemma RecordRepeated<V(!new), W(!new), P(!new), R(!new)>(
    l: Layout<V, W, R>, a: Kind<W, P, R>, pad: Padding, d: Disk, v: V, q: Place<P>)
    requires WellLaid(l, a) && Lawful(a) && Sane(d) && d.end < BOUND && l.sound(v) && a.fits(l.parts(v))
    requires RecordCurrent(l, a, d, v, q)
    ensures var (e, q') := PutRecord(l, a, pad, d, v, q);
      q' == q && Quiet(d, e, a.text, q.inner) && RecordCurrent(l, a, e, v, q)
  {
    hide Lawful, Quiet, Agrees, Sane, Put;
    UseCurrent(a, d, l.parts(v), q.inner);
    var (d1, inner) := a.store(pad, d, l.parts(v), q.inner);
    UseRepeats(a, pad, d, l.parts(v), q.inner);
    QuietKeeps(d, d1, a.text, q.inner);
    PutAgain(d1, q.at, l.encode(v, a.ref(inner)));
  }

  lemma QuietKeeps<P>(d: Disk, e: Disk, text: (P, int) -> bool, p: P)
    requires Quiet(d, e, text, p)
    ensures forall o <- d.contents :: o in e.contents && (!text(p, o) ==> e.contents[o] == d.contents[o])
  {
  }

  lemma RecordLawful<V(!new), W(!new), P(!new), R(!new)>(l: Layout<V, W, R>, a: Kind<W, P, R>)
    requires WellLaid(l, a) && Lawful(a)
    ensures Lawful(Recorded(l, a)) && Located(Recorded(l, a))
  {
    RecordStoreLaw(l, a);
    RecordRepeatLaw(l, a);
    RecordReadLaw(l, a);
    RecordStayLaw(l, a);
    hide StoreLaw, RepeatLaw, ReadLaw, HoldLaw, StayLaw;
  }

  lemma RecordStoreLaw<V(!new), W(!new), P(!new), R(!new)>(l: Layout<V, W, R>, a: Kind<W, P, R>)
    requires WellLaid(l, a) && Lawful(a)
    ensures StoreLaw(Recorded(l, a))
  {
    hide Lawful, PutRecord, Spares, Sane, RecordOwns, RecordPlaced, RecordCurrent, WellLaid;
    var c := Recorded(l, a);
    forall pad: Padding, d, v, p | Sane(d) && c.fits(v) && c.placed(d, v, p) && d.end + c.cost(v) < BOUND
      ensures var (e, q) := c.store(pad, d, v, p);
        && Spares(d, e, c.owns, p) && e.end <= d.end + c.cost(v)
        && Newer(c.owns, p, q, d.end)
        && c.current(e, v, q)
    {
      RecordStored(l, a, pad, d, v, p);
    }
  }

  lemma RecordRepeatLaw<V(!new), W(!new), P(!new), R(!new)>(l: Layout<V, W, R>, a: Kind<W, P, R>)
    requires WellLaid(l, a) && Lawful(a)
    ensures RepeatLaw(Recorded(l, a))
  {
    hide Lawful, PutRecord, Quiet, Sane, RecordOwns, RecordPlaced, RecordCurrent, WellLaid;
    var c := Recorded(l, a);
    forall pad: Padding, d, v, q | Sane(d) && d.end < BOUND && c.fits(v) && c.current(d, v, q)
      ensures var (e, q') := c.store(pad, d, v, q);
        q' == q && Quiet(d, e, c.text, q) && c.current(e, v, q)
    {
      RecordRepeated(l, a, pad, d, v, q);
      QuietAs(d, c.store(pad, d, v, q).0, a.text, q.inner, c.text, q);
    }
  }

  lemma QuietAs<P, Z>(d: Disk, e: Disk, mine: (P, int) -> bool, p: P, all: (Z, int) -> bool, z: Z)
    requires Quiet(d, e, mine, p) && forall o :: mine(p, o) ==> all(z, o)
    ensures Quiet(d, e, all, z)
  {
    hide SameText;
  }

  lemma RecordReadLaw<V(!new), W(!new), P(!new), R(!new)>(l: Layout<V, W, R>, a: Kind<W, P, R>)
    requires WellLaid(l, a) && Lawful(a)
    ensures ReadLaw(Recorded(l, a)) && HoldLaw(Recorded(l, a)) && Located(Recorded(l, a))
  {
    hide Lawful, PutRecord;
    var c := Recorded(l, a);
    forall d, v, q | Sane(d) && d.end < BOUND && c.fits(v) && c.current(d, v, q)
      ensures c.restore(d, c.ref(q)) == c.kept(v) && c.placed(d, v, q) && c.fine(c.ref(q))
    {
      UseReads(a, d, l.parts(v), q.inner);
      UseCurrent(a, d, l.parts(v), q.inner);
    }
    forall d, v, p, o | c.placed(d, v, p) && c.owns(p, o)
      ensures o in d.contents
    {
      UseOwned(a, d, l.parts(v), p.inner);
    }
    forall q, o | c.text(q, o)
      ensures c.owns(q, o)
    {
      UseReload(a, q.inner);
    }
  }

  lemma RecordStayLaw<V(!new), W(!new), P(!new), R(!new)>(l: Layout<V, W, R>, a: Kind<W, P, R>)
    requires WellLaid(l, a) && Lawful(a)
    ensures StayLaw(Recorded(l, a))
  {
    hide Lawful, Sane, PutRecord, Agrees, WellLaid;
    var c := Recorded(l, a);
    forall d, e, v, p | Sane(d) && Agrees(d, e, c.owns, p)
      ensures c.placed(d, v, p) ==> c.placed(e, v, p)
      ensures c.current(d, v, p) ==> c.current(e, v, p)
    {
      AgreesPart(d, e, c.owns, p, a.owns, p.inner);
      AgreesAt(d, e, c.owns, p, p.at);
      if c.placed(d, v, p) {
        UsePlacedStays(a, d, e, l.parts(v), p.inner);
      }
      if c.current(d, v, p) {
        UseCurrentStays(a, d, e, l.parts(v), p.inner);
      }
    }
  }

  lemma AgreesAt<P>(d: Disk, e: Disk, owns: (P, int) -> bool, p: P, o: int)
    requires Sane(d) && Agrees(d, e, owns, p)
    ensures o in d.contents && owns(p, o) ==> o in e.contents && e.contents[o] == d.contents[o]
  {
  }
}
