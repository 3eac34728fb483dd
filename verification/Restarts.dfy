/** Where a thing lies that was just read back from the store file: its next save goes over its old records.
    On values, for every kind of thing (data/list.c, app_queue/request.c). */
module Restarts {
  import opened Text
  import opened Octets
  import opened Disks
  import opened Kinds
  import opened RingImage
  import opened Listings
  import opened ListEdits
  import opened RequestStore
  import opened Stores

  /** What is read back of a thing can be stored over the records it came from, and has no others. */
  ghost predicate FoundLaw<V(!new), P(!new), R(!new)>(a: Kind<V, P, R>) {
    && (forall d, v, q {:trigger a.current(d, v, q)} ::
          Sane(d) && d.end < BOUND && a.fits(v) && a.current(d, v, q) ==>
          && a.fits(a.kept(v)) && a.placed(d, a.kept(v), a.found(d, a.ref(q)))
          && OwnsNoMore(a.owns, q, a.found(d, a.ref(q))))
    && (forall d, r {:trigger a.found(d, r)} :: a.reload(a.found(d, r), r) == a.found(d, r))
  }

  lemma UseFound<V(!new), P(!new), R(!new)>(a: Kind<V, P, R>, d: Disk, v: V, q: P)
    requires FoundLaw(a) && Sane(d) && d.end < BOUND && a.fits(v) && a.current(d, v, q)
    ensures a.fits(a.kept(v)) && a.placed(d, a.kept(v), a.found(d, a.ref(q)))
    ensures OwnsNoMore(a.owns, q, a.found(d, a.ref(q)))
  {
    hide Sane;
  }

  lemma UseReloaded<V(!new), P(!new), R(!new)>(a: Kind<V, P, R>, d: Disk, r: R)
    requires FoundLaw(a)
    ensures a.reload(a.found(d, r), r) == a.found(d, r)
  {
  }

  // ----- strings, payloads, pairs and records -----

  lemma TextFound(maximum: nat)
    ensures FoundLaw(TextKind(maximum))
  {
  }

  lemma BlobFound()
    ensures FoundLaw(BlobKind())
  {
  }

  lemma BothFound<V(!new), P(!new), R(!new), W(!new), Q(!new), S(!new)>(a: Kind<V, P, R>, b: Kind<W, Q, S>)
    requires FoundLaw(a) && FoundLaw(b)
    ensures FoundLaw(Both(a, b))
  {
    hide FoundLaw, Sane, PutBoth;
    var c := Both(a, b);
    forall d, v, q | Sane(d) && d.end < BOUND && c.fits(v) && c.current(d, v, q)
      ensures c.fits(c.kept(v)) && c.placed(d, c.kept(v), c.found(d, c.ref(q)))
      ensures OwnsNoMore(c.owns, q, c.found(d, c.ref(q)))
    {
      UseFound(a, d, v.0, q.0);
      UseFound(b, d, v.1, q.1);
    }
    forall d, r {:trigger c.found(d, r)}
      ensures c.reload(c.found(d, r), r) == c.found(d, r)
    {
      UseReloaded(a, d, r.0);
      UseReloaded(b, d, r.1);
    }
    assert FoundLaw(c) by { MeetsFoundLaw(c); }
  }

  lemma MeetsFoundLaw<V(!new), P(!new), R(!new)>(c: Kind<V, P, R>)
    requires forall d, v, q {:trigger c.current(d, v, q)} ::
      Sane(d) && d.end < BOUND && c.fits(v) && c.current(d, v, q) ==>
      && c.fits(c.kept(v)) && c.placed(d, c.kept(v), c.found(d, c.ref(q)))
      && OwnsNoMore(c.owns, q, c.found(d, c.ref(q)))
    requires forall d, r {:trigger c.found(d, r)} :: c.reload(c.found(d, r), r) == c.found(d, r)
    ensures FoundLaw(c)
  {
    hide Sane, OwnsNoMore;
  }

  /** The parts of a value put together are those parts. */
  ghost predicate Rejoins<V(!new), W(!new), R>(l: Layout<V, W, R>) {
    forall v, w {:trigger l.joined(v, w)} :: l.parts(l.joined(v, w)) == w && (l.sound(v) ==> l.sound(l.joined(v, w)))
  }

  lemma RecordFound<V(!new), W(!new), P(!new), R(!new)>(l: Layout<V, W, R>, a: Kind<W, P, R>)
    requires WellLaid(l, a) && Rejoins(l) && Lawful(a) && FoundLaw(a)
    ensures FoundLaw(Recorded(l, a))
  {
    hide FoundLaw, Sane, Lawful, Put;
    var c := Recorded(l, a);
    forall d, v, q | Sane(d) && d.end < BOUND && c.fits(v) && c.current(d, v, q)
      ensures c.fits(c.kept(v)) && c.placed(d, c.kept(v), c.found(d, c.ref(q)))
      ensures OwnsNoMore(c.owns, q, c.found(d, c.ref(q)))
    {
      var r := a.ref(q.inner);
      UseCurrent(a, d, l.parts(v), q.inner);
      UseFound(a, d, l.parts(v), q.inner);
      UseReloaded(a, d, r);
      assert l.refs(l.encode(v, r)) == r == Found(l, d, q.at);
    }
    MeetsFoundLaw(c);
  }

  // ----- lists -----

  lemma SitedEnds(s: State, f: Fixed, g: Fixed, pos: seq<int>)
    requires Sited(s, f, 0) && |s.pos| > 0 && |g.ids| == |g.handles| == |pos|
    requires pos == [s.pos[0]] || (|s.pos| > 1 && pos == [s.pos[0], s.pos[|s.pos| - 1]])
    ensures Sited(State(s.contents, s.end, pos), g, 0)
  {
    var t := State(s.contents, s.end, pos);
    forall j | 0 <= j < |pos|
      ensures pos[j] == s.pos[if j == 0 then 0 else |s.pos| - 1]
    {
    }
    forall j | 0 <= j < |pos|
      ensures -BOUND < pos[j] < t.end && (Saved(t, j) ==> pos[j] in t.contents && |t.contents[pos[j]]| == 32)
    {
      assert Saved(t, j) == Saved(s, if j == 0 then 0 else |s.pos| - 1);
    }
    if |pos| == 2 && Saved(t, 0) && Saved(t, 1) {
      assert Saved(s, 0) && Saved(s, |s.pos| - 1);
    }
  }

  /** A list that was read back lies at the header and the last node of the old one. */
  lemma ListFound<T(!new), Q(!new)>(a: Kind<T, Q, int>)
    requires Lawful(a) && Located(a) && FoundLaw(a)
    ensures FoundLaw(ListKind(a))
  {
    hide FoundLaw, Sane, Lawful, Located, ListFits, ListPlaced, ListCurrent, FoundList, KeptListing, ListOwns;
    var c := ListKind(a);
    forall d, l, q | Sane(d) && d.end < BOUND && c.fits(l) && c.current(d, l, q)
      ensures c.fits(c.kept(l)) && c.placed(d, c.kept(l), c.found(d, c.ref(q)))
      ensures OwnsNoMore(c.owns, q, c.found(d, c.ref(q)))
    {
      FoundPlaced(a, d, l, q);
    }
    MeetsFoundLaw(c);
  }

  /** Where it lies. */
  lemma FoundIs<T(!new), Q(!new)>(a: Kind<T, Q, int>, d: Disk, l: Listing<T>, q: ListPlace<Q>)
    requires Lawful(a) && Located(a) && Sane(d) && d.end < BOUND && ListFits(a.fits, l) && ListCurrent(a, d, l, q)
    ensures |q.pos| == |l.items| + 1 == |q.items| + 1 && q.at > 0
    ensures var n := |l.items|;
      FoundList(a.found, d, q.at) ==
        if n == 0 then ListPlace(q.at, [q.pos[0]], [])
        else ListPlace(q.at, [q.pos[0], q.pos[n]], [a.found(d, a.ref(q.items[n - 1]))])
  {
    hide Sane, Lawful, Located, ListCurrent, Proper, Ends, DataOf, IdOf, Signed, NodeRecord;
    FitsAll(a, l);
    ProperSize(l);
    HasRecord(a, d, l, q);
    SameSize(a, d, l, q);
    EndsRead(a, d, l, q);
    if l.items != [] {
      LastRead(a, d, l, q);
    }
  }

  lemma SameSize<T(!new), Q(!new)>(a: Kind<T, Q, int>, d: Disk, l: Listing<T>, q: ListPlace<Q>)
    requires ListCurrent(a, d, l, q)
    ensures |q.items| == |l.items|
  {
    hide Sited, NodesClear, AllImaged;
  }

  lemma FoundPlaced<T(!new), Q(!new)>(a: Kind<T, Q, int>, d: Disk, l: Listing<T>, q: ListPlace<Q>)
    requires Lawful(a) && Located(a) && FoundLaw(a)
    requires Sane(d) && d.end < BOUND && ListFits(a.fits, l) && ListCurrent(a, d, l, q)
    ensures var k, p := KeptListing(l, a.kept), FoundList(a.found, d, q.at);
      && ListFits(a.fits, k) && ListPlaced(a, d, k, p) && OwnsNoMore(ListKind(a).owns, q, p)
  {
    hide Sane, Lawful, Located, ListCurrent, FoundList, SomeOwns, ItemsSound, NodesClear, Sited, AllImaged, FoundLaw, Fits;
    var k, p := KeptListing(l, a.kept), FoundList(a.found, d, q.at);
    FoundIs(a, d, l, q);
    FitsAll(a, l);
    LastFound(a, d, l, q);
    ArrangedOf(a, d, l, q);
    var s, t := Ringed(d, q).s, Ringed(d, p).s;
    SitedEnds(s, ListFixed(a, RingIds(l), q.items), ListFixed(a, RingIds(k), p.items), p.pos);
    EndsClear(a.owns, s, t, q.items, p.items);
    FoundOwns(a, q, p);
  }

  lemma ArrangedOf<T(!new), Q(!new)>(a: Kind<T, Q, int>, d: Disk, l: Listing<T>, q: ListPlace<Q>)
    requires ListCurrent(a, d, l, q)
    ensures Arranged(a, d, l, q)
  {
    hide Arranged, ItemsSound, AllImaged;
  }

  lemma EndsClear<Q>(owns: (Q, int) -> bool, s: State, t: State, m: seq<Q>, n: seq<Q>)
    requires NodesClear(owns, s, m) && |s.pos| > 0
    requires t.pos == [s.pos[0]] || (|s.pos| > 1 && t.pos == [s.pos[0], s.pos[|s.pos| - 1]])
    requires forall o :: SomeOwns(owns, n, o) ==> SomeOwns(owns, m, o)
    ensures NodesClear(owns, t, n)
  {
    hide SomeOwns;
    forall i | 0 <= i < |t.pos| && Saved(t, i)
      ensures !SomeOwns(owns, n, t.pos[i])
    {
      assert Saved(s, if i == 0 then 0 else |s.pos| - 1);
    }
  }

  /** The one thing that is read back. */
  lemma LastFound<T(!new), Q(!new)>(a: Kind<T, Q, int>, d: Disk, l: Listing<T>, q: ListPlace<Q>)
    requires Lawful(a) && Located(a) && FoundLaw(a) && AllFit(a.fits, l.items)
    requires Sane(d) && d.end < BOUND && Proper(l) && ListCurrent(a, d, l, q)
    ensures |q.items| == |l.items|
    ensures var n := |l.items|;
      var m := if n == 0 then [] else [a.found(d, a.ref(q.items[n - 1]))];
      && ItemsSound(a, if n == 0 then [] else [a.kept(l.items[n - 1])], d, m, 1)
      && (n > 0 ==> a.fits(a.kept(l.items[n - 1])))
      && forall o :: SomeOwns(a.owns, m, o) ==> SomeOwns(a.owns, q.items, o)
  {
    hide Sane, Lawful, Located, ListCurrent, Proper, FoundLaw;
    SameSize(a, d, l, q);
    if l.items != [] {
      var n := |l.items| - 1;
      LastCurrent(a, d, l, q);
      assert a.fits(l.items[n]);
      UseFound(a, d, l.items[n], q.items[n]);
      assert forall o :: a.owns(a.found(d, a.ref(q.items[n])), o) ==> a.owns(q.items[n], o);
    }
  }

  lemma FoundOwns<T(!new), Q(!new)>(a: Kind<T, Q, int>, q: ListPlace<Q>, p: ListPlace<Q>)
    requires p.at == q.at && |q.pos| > 0
    requires p.pos == [q.pos[0]] || (|q.pos| > 1 && p.pos == [q.pos[0], q.pos[|q.pos| - 1]])
    requires forall o :: SomeOwns(a.owns, p.items, o) ==> SomeOwns(a.owns, q.items, o)
    ensures OwnsNoMore(ListKind(a).owns, q, p)
  {
    hide SomeOwns;
    OwnsSubset(a, q, p);
  }

  // ----- messages, requesters and the server -----

  /** restoreMicroNetMessage keeps the position; what the record refers to it says again. */
  function FoundMicro(d: Disk, at: int): MicroPlace { Place(at, MicroAtHand(d, at)) }

  function FoundRequester(d: Disk, at: int): RequesterPlace {
    var refs := RequesterAtHand(d, at);
    Place(at, (FoundList(FoundMicro, d, refs.0), refs.1))
  }

  /** restoreRequestServer does not set the position of the server: it is whatever was in memory. */
  function FoundServer(garbage: int, d: Disk, at: int): ServerPlace {
    Place(garbage,
          if at <= 0 || at !in d.contents || |d.contents[at]| != 32 then ListPlace(0, [0], [])
          else FoundList(FoundRequester, d, Signed(d.contents[at][8..16])))
  }

  lemma MicroFound()
    ensures FoundLaw(MicroKind())
  {
    hide FoundLaw, Lawful, WellLaid, TextKind, BlobKind, Both, Recorded;
    TextFound(CMD_SIZE);
    TextFound(EXTRAPARAM_SIZE);
    BlobFound();
    BothFound(TextKind(EXTRAPARAM_SIZE), BlobKind());
    BothFound(TextKind(CMD_SIZE), Both(TextKind(EXTRAPARAM_SIZE), BlobKind()));
    MicroPartsLawful();
    MicroWellLaid();
    MicroRejoins();
    RecordFound(MicroLayout(), MicroParted());
  }

  lemma MicroRejoins()
    ensures Rejoins(MicroLayout())
  {
  }

  lemma RequesterRejoins()
    ensures Rejoins(RequesterLayout())
  {
  }

  lemma RequesterFound()
    ensures FoundLaw(RequesterKind())
  {
    hide FoundLaw, Lawful, Located, WellLaid, TextKind, Both, Recorded, MicroKind, ListKind, RequesterLayout;
    TextFound(HOST_SIZE);
    TextFound(PORT_SIZE);
    TextFound(VERSION_SIZE);
    BothFound(TextKind(PROTOCOL_SIZE), TextKind(VERSION_SIZE));
    BothFound(TextKind(PORT_SIZE), Both(TextKind(PROTOCOL_SIZE), TextKind(VERSION_SIZE)));
    BothFound(TextKind(HOST_SIZE), Both(TextKind(PORT_SIZE), Both(TextKind(PROTOCOL_SIZE), TextKind(VERSION_SIZE))));
    MicroLawful();
    MicroFound();
    ListFound(MicroKind());
    BothFound(ListKind(MicroKind()), StringsKind());
    RequesterPartsLawful();
    RequesterWellLaid();
    RequesterRejoins();
    RecordFound(RequesterLayout(), RequesterParted());
  }

  lemma RequestersFound()
    ensures FoundLaw(RequestersKind())
  {
    hide FoundLaw, Lawful, Located, RequesterKind, ListKind;
    RequesterLawful();
    RequesterFound();
    ListFound(RequesterKind());
  }

  lemma SameFound<Q>(mine: (Disk, int) -> Q, yours: (Disk, int) -> Q, d: Disk, at: int)
    requires mine(d, LastHandle(d, at)) == yours(d, LastHandle(d, at))
    ensures FoundList(mine, d, at) == FoundList(yours, d, at)
  {
    hide Ends, IdOf, DataOf, Signed, NodeRecord;
  }

  lemma FoundMicroIs(d: Disk, at: int)
    ensures MicroKind().found(d, at) == FoundMicro(d, at)
  {
    hide RefsOfMicro;
    var r := MicroAtHand(d, at);
    assert Found(MicroLayout(), d, at) == r;
    assert Both(TextKind(EXTRAPARAM_SIZE), BlobKind()).found(d, r.1) == r.1;
    assert MicroParted().found(d, r) == r;
  }

  lemma FoundRequesterIs(d: Disk, at: int)
    ensures RequesterKind().found(d, at) == FoundRequester(d, at)
  {
    hide RefsOfRequester, MicroKind, FoundList, LastHandle, FoundMicro;
    var s := RequesterAtHand(d, at);
    assert Found(RequesterLayout(), d, at) == s;
    FoundMicroIs(d, LastHandle(d, s.0));
    SameFound(MicroKind().found, FoundMicro, d, s.0);
    assert StringsKind().found(d, s.1) == s.1;
    assert RequesterParted().found(d, s) == (FoundList(MicroKind().found, d, s.0), s.1);
  }

  lemma FoundRequestersIs(d: Disk, at: int)
    ensures RequestersKind().found(d, at) == FoundList(FoundRequester, d, at)
  {
    hide RequesterKind, FoundList, LastHandle, FoundRequester;
    FoundRequesterIs(d, LastHandle(d, at));
    SameFound(RequesterKind().found, FoundRequester, d, at);
  }

  /** What was in memory may be taken for the server's position: there is none, or there is a record that can
      be written over. */
  ghost predicate Overwritable(d: Disk, garbage: int, l: ListPlace<RequesterPlace>) {
    garbage > 0 ==> garbage in d.contents && |d.contents[garbage]| == 32 && !RequestersKind().owns(l, garbage)
  }

  /** A server that was read back is what is kept of it, and can be stored over the records it came from. */
  lemma ServerFound(garbage: int, d: Disk, s: RequestServer, q: ServerPlace)
    requires Sane(d) && d.end < BOUND && SavableServer(s) && ServerCurrent(d, s, q)
    requires Overwritable(d, garbage, FoundServer(garbage, d, q.at).inner)
    ensures var k := KeptServer(s);
      && RestoreServer(d, q.at, s.appServer) == k && SavableServer(k)
      && ServerPlaced(d, k, FoundServer(garbage, d, q.at))
  {
    hide FoundLaw, Lawful, Located, RequestersKind, Sane, Savable, Signed, ServerBytes, FoundList, Fits, CurrentPosition,
         RestoreServer, KeptListing, KeptRequester, ListFits;
    ServerRead(d, s, q);
    RequestersLawful();
    RequestersFound();
    RequestersRead(d, q.inner.at, s.requesters);
    RequestersRead(d, q.inner.at, KeptServer(s).requesters);
    UseFound(RequestersKind(), d, s.requesters, q.inner);
    RequestersRef(NoPadding(), d, s.requesters, q.inner);
    FoundRequestersIs(d, q.inner.at);
    RequestersOnDisk(d, s, q.inner);
    ServerFields(s.serverId, q.inner.at, CurrentPosition(s, q.inner), s.appServer);
    SavableSize(s);
    KeptSize(s.requesters);
  }

  lemma SavableSize(s: RequestServer)
    requires SavableServer(s)
    ensures |s.requesters.ids| == |s.requesters.items|
  {
    hide Savable, Fits;
  }

  lemma KeptSize(l: Listing<Requester>)
    requires |l.ids| == |l.items|
    ensures |KeptListing(l, KeptRequester).items| == if l.items == [] then 0 else 1
  {
  }

  /** When it is taken for a position in the file where there is no record, saving the server answers -2 where
      the position should be, and nothing leads to the server any more. */
  lemma NoRecordThere(pad: Padding, d: Disk, s: RequestServer, p: ServerPlace)
    requires Sane(d) && SavableServer(s) && RequestersKind().placed(d, s.requesters, p.inner)
    requires d.end + ServerCost(s) < BOUND && 0 < p.at < d.end && p.at !in d.contents
    ensures StoreServer(pad, d, s, p).1.at == -2
    ensures RestoreServer(StoreServer(pad, d, s, p).0, -2, s.appServer) ==
            RequestServer(0, Listing(0, 0, 0, [], []), None, s.appServer)
  {
    hide Lawful, Located, RequestersKind, Sane, ServerBytes, Savable, ListFits;
    RequestersLawful();
    SavableFits(s);
    RequestersRead(d, 0, s.requesters);
    RequestersRef(pad, d, s.requesters, p.inner);
    UseStores(RequestersKind(), pad, d, s.requesters, p.inner);
  }

  // ----- once is enough -----

  lemma KeptListingTwice<T>(l: Listing<T>, kept: T -> T)
    requires forall i {:trigger l.items[i]} :: 0 <= i < |l.items| ==> kept(kept(l.items[i])) == kept(l.items[i])
    ensures KeptListing(KeptListing(l, kept), kept) == KeptListing(l, kept)
  {
  }

  lemma KeptRequesterTwice(r: Requester)
    ensures KeptRequester(KeptRequester(r)) == KeptRequester(r)
  {
    KeptListingTwice(r.messages, KeptMicro);
  }

  /** What survived one restart survives every other. */
  lemma KeptServerTwice(s: RequestServer)
    requires |s.requesters.ids| == |s.requesters.items|
    ensures KeptServer(KeptServer(s)) == KeptServer(s)
  {
    hide KeptListing, KeptRequester;
    forall i | 0 <= i < |s.requesters.items|
      ensures KeptRequester(KeptRequester(s.requesters.items[i])) == KeptRequester(s.requesters.items[i])
    {
      KeptRequesterTwice(s.requesters.items[i]);
    }
    KeptListingTwice(s.requesters, KeptRequester);
    KeptSize(s.requesters);
  }
}
