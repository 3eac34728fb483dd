/** A request server over time: requesters and messages come and go between saves, other parts of the program
    write to the same file, and the program is started again from what was saved (app_queue/request.c; saved
    on every tick, app_queue/server.c; read back when a client starts, app_queue/client.c). */
module RequestRuns {
  import opened Text
  import opened Octets
  import opened Stores
  import opened Disks
  import opened Kinds
  import opened RingImage
  import opened Listings
  import opened ListEdits
  import opened RequestStore
  import opened Restarts
  import Lists

  // ----- what happens to it -----

  /** The file, the server, where its parts lie, and the server as it was saved last. */
  datatype Life = Life(d: Disk, s: RequestServer, p: ServerPlace, saved: Option<(RequestServer, ServerPlace)>)

  datatype Event =
    | AddRequester(r: Requester)
    | DropRequester(id: int)
    | ChangeCurrent(id: int)
    | SetProtocol(i: nat, protocol: Chars, version: Chars)
    | AddMessage(i: nat, m: Micro)
    | SendMessage(i: nat)
    | OthersWrite(e: Disk)
    | Save(pad: Padding)
    | Restart(garbage: int)

  const NEW_MESSAGE: MicroPlace := Place(0, (0, (0, (0, 0))))

  const NEW_REQUESTER: RequesterPlace := Place(0, (ListPlace(0, [0], []), (0, (0, (0, 0)))))

  const NEW_SERVER: ServerPlace := Place(0, ListPlace(0, [0], []))

  predicate Lined(l: Life) {
    |l.s.requesters.items| == |l.s.requesters.ids| == |l.p.inner.items| == |l.p.inner.pos| - 1
  }

  predicate Within(l: Life, i: nat) { Lined(l) && i < |l.s.requesters.items| }

  predicate Room<T>(l: Listing<T>) { Fits(l.count + 1, 4) && Fits(l.maxCount + 1, 4) }

  /** What the program can do: a new requester has no messages, numbers stay within their width, and the
      others keep to their own records. A message is sent while there is one, or the count says there is
      none. */
  ghost predicate Allowed(l: Life, e: Event) {
    match e
    case AddRequester(r) =>
      && Savable(r) && r.messages.items == [] && r.messages.ids == [] && r.messages.count == 0 && Room(l.s.requesters)
    case DropRequester(id) => Lined(l)
    case ChangeCurrent(id) => true
    case SetProtocol(i, protocol, version) => Within(l, i) && NoZero(protocol) && NoZero(version)
    case AddMessage(i, m) => Within(l, i) && Storable(m) && Room(l.s.requesters.items[i].messages)
    case SendMessage(i) => Within(l, i) && Sendable(l.s.requesters.items[i].messages, l.p.inner.items[i].inner.0)
    case OthersWrite(e) =>
      Agrees(l.d, e, ServerOwns, l.p) && (l.saved.Some? ==> Agrees(l.d, e, ServerOwns, l.saved.value.1))
    case Save(pad) => l.d.end + ServerCost(l.s) < BOUND
    case Restart(garbage) => Restartable(l, garbage)
  }

  ghost predicate Restartable(l: Life, garbage: int) {
    l.saved.Some? && Overwritable(l.d, garbage, Restarted(l, garbage).p.inner)
  }

  predicate Sendable(l: Listing<Micro>, p: ListPlace<MicroPlace>) {
    l.count == 0 || 0 < |l.items| == |l.ids| == |p.items| == |p.pos| - 1
  }

  /** Who is current when requester `i` is gone: the same, or nobody. The code then looks for the first
      requester with no predicate, which finds none. */
  function CurrentWithout(current: Option<nat>, i: nat): Option<nat> {
    if current.None? || current.value == i then None
    else if current.value < i then current else Some(current.value - 1)
  }

  function WithoutRequester(l: Life, i: nat): (k: Life)
    requires Within(l, i)
    ensures Lined(k) && |k.s.requesters.items| == |l.s.requesters.items| - 1
  {
    l.(s := l.s.(requesters := Removed(l.s.requesters, i), current := CurrentWithout(l.s.current, i)),
       p := l.p.(inner := PlaceRemoved(l.p.inner, i)))
  }

  /** removeFromList with isRequester, from node `i` on. */
  function DropFrom(l: Life, id: int, i: nat): Life
    requires Lined(l)
    decreases |l.s.requesters.items| - i
  {
    if i >= |l.s.requesters.items| then l
    else if l.s.requesters.items[i].id == id then DropFrom(WithoutRequester(l, i), id, i)
    else DropFrom(l, id, i + 1)
  }

  /** The first requester with this id. */
  function FirstWith(rs: seq<Requester>, id: int): (r: Option<nat>)
    ensures r.Some? ==> r.value < |rs| && rs[r.value].id == id && forall j :: 0 <= j < r.value ==> rs[j].id != id
    ensures r.None? ==> forall j :: 0 <= j < |rs| ==> rs[j].id != id
  {
    if rs == [] then None
    else if rs[0].id == id then Some(0)
    else match FirstWith(rs[1..], id) case None => None case Some(i) => Some(i + 1)
  }

  ghost function SavedOnce(l: Life, pad: Padding): (k: Life)
    ensures k.saved.Some?
  {
    var (e, q) := StoreServer(pad, l.d, l.s, l.p);
    Life(e, l.s, q, Some((l.s, q)))
  }

  /** The program starts again and reads back what was saved last. */
  function Restarted(l: Life, garbage: int): Life
    requires l.saved.Some?
  {
    var at := l.saved.value.1.at;
    Life(l.d, RestoreServer(l.d, at, l.s.appServer), FoundServer(garbage, l.d, at), l.saved)
  }

  ghost function Step(l: Life, e: Event): Life
    requires Allowed(l, e)
  {
    match e
    case AddRequester(r) =>
      var current := if l.s.current.Some? then l.s.current else Some(|l.s.requesters.items|);
      l.(s := l.s.(requesters := Inserted(l.s.requesters, r), current := current),
         p := l.p.(inner := PlaceInserted(l.p.inner, NEW_REQUESTER)))
    case DropRequester(id) => if id < 0 then l else DropFrom(l, id, 0)
    case ChangeCurrent(id) =>
      var i := FirstWith(l.s.requesters.items, id);
      if id < 0 || i.None? then l else l.(s := l.s.(current := i))
    case SetProtocol(i, protocol, version) =>
      Changed(l, i, l.s.requesters.items[i].(protocol := protocol, version := version), l.p.inner.items[i])
    case AddMessage(i, m) =>
      var r, q := l.s.requesters.items[i], l.p.inner.items[i];
      Changed(l, i, r.(messages := Inserted(r.messages, m)), WithMessages(q, PlaceInserted(q.inner.0, NEW_MESSAGE)))
    case SendMessage(i) =>
      var r, q := l.s.requesters.items[i], l.p.inner.items[i];
      if r.messages.count == 0 then l else
        Changed(l, i, r.(messages := Removed(r.messages, 0)), WithMessages(q, PlaceRemoved(q.inner.0, 0)))
    case OthersWrite(e) => l.(d := e)
    case Save(pad) => SavedOnce(l, pad)
    case Restart(garbage) => Restarted(l, garbage)
  }

  function WithMessages(q: RequesterPlace, messages: ListPlace<MicroPlace>): RequesterPlace {
    Place(q.at, (messages, q.inner.1))
  }

  /** Requester `i` is `r` now, and lies at `q`. */
  function Changed(l: Life, i: nat, r: Requester, q: RequesterPlace): Life
    requires Within(l, i)
  {
    l.(s := l.s.(requesters := Replaced(l.s.requesters, i, r)), p := l.p.(inner := PlaceReplaced(l.p.inner, i, q)))
  }

  /** What was saved last is still on disk. */
  ghost predicate Shelved(l: Life) {
    l.saved.Some? ==>
      && SavableServer(l.saved.value.0) && ServerCurrent(l.d, l.saved.value.0, l.saved.value.1)
      && l.saved.value.0.appServer == l.s.appServer
  }

  /** What holds throughout. */
  ghost predicate Valid(l: Life) {
    Sane(l.d) && l.d.end < BOUND && SavableServer(l.s) && ServerPlaced(l.d, l.s, l.p) && Shelved(l)
  }

  // ----- new things -----

  lemma NewMessagePlaced(d: Disk, m: Micro)
    ensures MicroKind().placed(d, m, NEW_MESSAGE)
    ensures OwnsNothing(MicroKind().owns, NEW_MESSAGE)
  {
  }

  lemma StringsPlaced(d: Disk, w: (Chars, (Chars, (Chars, Chars))), v: (Chars, (Chars, (Chars, Chars))),
                      q: (int, (int, (int, int))))
    ensures StringsKind().placed(d, w, q) == StringsKind().placed(d, v, q)
    ensures StringsKind().placed(d, w, (0, (0, (0, 0))))
    ensures forall o :: !StringsKind().owns((0, (0, (0, 0))), o)
  {
  }

  lemma EmptyListPlaced<T(!new), Q(!new)>(a: Kind<T, Q, int>, d: Disk, l: Listing<T>)
    requires Sane(d) && d.end < BOUND && l.items == [] && l.ids == []
    ensures ListPlaced(a, d, l, ListPlace(0, [0], []))
    ensures OwnsNothing(ListKind(a).owns, ListPlace(0, [0], []))
  {
    var p := ListPlace(0, [0], []);
    assert forall o :: !InRing([0], o);
    assert forall o :: !SomeOwns(a.owns, p.items, o);
  }

  lemma NewRequesterPlaced(d: Disk, r: Requester)
    requires Sane(d) && d.end < BOUND && r.messages.items == [] && r.messages.ids == []
    ensures RequesterKind().placed(d, r, NEW_REQUESTER)
    ensures OwnsNothing(RequesterKind().owns, NEW_REQUESTER)
  {
    hide MicroKind, StringsKind, ListPlaced, ListOwns, Found;
    EmptyListPlaced(MicroKind(), d, r.messages);
    StringsPlaced(d, PartsOfRequester(r).1, PartsOfRequester(r).1, NEW_REQUESTER.inner.1);
    StoreStrings(NoPadding(), d, r, NEW_REQUESTER.inner.1, NEW_REQUESTER.inner.1);
    assert Found(RequesterLayout(), d, 0) == (0, (0, (0, (0, 0)))) by {
      NothingFound(d);
    }
  }

  lemma NothingFound(d: Disk)
    ensures Found(RequesterLayout(), d, 0) == (0, (0, (0, (0, 0))))
  {
  }

  /** A requester with other messages or strings lies where it did. */
  lemma RequesterEdited(d: Disk, r: Requester, q: RequesterPlace, r': Requester, messages: ListPlace<MicroPlace>)
    requires RequesterKind().placed(d, r, q)
    requires ListKind(MicroKind()).placed(d, r'.messages, messages)
    requires OwnsNoMore(ListKind(MicroKind()).owns, q.inner.0, messages)
    ensures RequesterKind().placed(d, r', WithMessages(q, messages))
    ensures OwnsNoMore(RequesterKind().owns, q, WithMessages(q, messages))
  {
    hide MicroKind, ListPlaced, ListOwns, StringsKind, RefsOfRequester;
    var s := RequesterAtHand(d, q.at);
    StringsPlaced(d, PartsOfRequester(r).1, PartsOfRequester(r').1, q.inner.1);
    StoreStrings(NoPadding(), d, r, q.inner.1, s.1);
    assert Found(RequesterLayout(), d, q.at) == s;
    var a := ListKind(MicroKind());
    assert forall o :: a.owns(messages, o) ==> a.owns(q.inner.0, o);
  }

  lemma MessagesPlaced(d: Disk, r: Requester, q: RequesterPlace)
    requires RequesterKind().placed(d, r, q)
    ensures ListKind(MicroKind()).placed(d, r.messages, q.inner.0)
  {
    hide MicroKind, ListPlaced, StringsKind, ListOwns;
  }

  lemma ListPlacedIs<T(!new), Q(!new)>(a: Kind<T, Q, int>, d: Disk, l: Listing<T>, p: ListPlace<Q>)
    ensures ListKind(a).placed(d, l, p) <==> ListPlaced(a, d, l, p)
  {
    hide ListPlaced;
  }

  /** The items of a list that lies there lie there too. */
  lemma ItemPlaced<T(!new), Q(!new)>(a: Kind<T, Q, int>, d: Disk, l: Listing<T>, p: ListPlace<Q>, i: nat)
    requires ListPlaced(a, d, l, p) && i < |l.items|
    ensures i < |p.items| && a.placed(d, l.items[i], p.items[i])
  {
    hide Arranged, Apart;
    assert p.items[i] == p.items[i];
  }

  /** The server with its list of requesters changed. */
  lemma ServerEdited(d: Disk, s: RequestServer, p: ServerPlace, s': RequestServer, l: ListPlace<RequesterPlace>)
    requires ServerPlaced(d, s, p) && ListPlaced(RequesterKind(), d, s'.requesters, l)
    requires OwnsNoMore(RequestersKind().owns, p.inner, l)
    ensures ServerPlaced(d, s', p.(inner := l))
  {
    hide RequesterKind, ListPlaced, ListOwns;
  }

  // ----- every event keeps the server where it may be stored over -----

  lemma SavableParts(s: RequestServer)
    requires SavableServer(s)
    ensures Proper(s.requesters) && |s.requesters.ids| == |s.requesters.items|
    ensures forall i :: 0 <= i < |s.requesters.items| ==> Savable(s.requesters.items[i])
  {
    hide Savable;
  }

  lemma AddKeeps(l: Life, r: Requester)
    requires Valid(l) && Allowed(l, AddRequester(r))
    ensures Valid(Step(l, AddRequester(r)))
  {
    hide RequesterKind, ListPlaced, Savable, ServerOwns, Fits, Arranged, OwnsNothing, Sane;
    NewRequesterPlaced(l.d, r);
    ListPlacedIs(RequesterKind(), l.d, l.s.requesters, l.p.inner);
    InsertPlaced(RequesterKind(), l.d, l.s.requesters, l.p.inner, r, NEW_REQUESTER);
    var k := Step(l, AddRequester(r));
    SavableParts(l.s);
    FewerThan(l.s.requesters.count);
    ServerEdited(l.d, l.s, l.p, k.s, k.p.inner);
  }

  lemma FewerThan(n: int)
    requires Fits(n + 1, 4) && n >= 0
    ensures Fits(n, 4)
  {
  }

  lemma WithoutKeeps(l: Life, i: nat)
    requires Valid(l) && Within(l, i)
    ensures Valid(WithoutRequester(l, i))
  {
    hide RequesterKind, ListPlaced, Savable, ServerOwns, Fits, Arranged, Sane;
    ListPlacedIs(RequesterKind(), l.d, l.s.requesters, l.p.inner);
    SavableParts(l.s);
    FewerFits(l.s.requesters.count);
    RemovePlaced(RequesterKind(), l.d, l.s.requesters, l.p.inner, i);
    var k := WithoutRequester(l, i);
    ServerEdited(l.d, l.s, l.p, k.s, k.p.inner);
  }

  lemma {:induction false} DropKeeps(l: Life, id: int, i: nat)
    requires Valid(l) && Lined(l)
    ensures Valid(DropFrom(l, id, i))
    decreases |l.s.requesters.items| - i
  {
    hide Valid, WithoutRequester;
    if i < |l.s.requesters.items| {
      if l.s.requesters.items[i].id == id {
        WithoutKeeps(l, i);
        DropKeeps(WithoutRequester(l, i), id, i);
      } else {
        DropKeeps(l, id, i + 1);
      }
    }
  }

  lemma DropAllKeeps(l: Life, id: int)
    requires Valid(l) && Allowed(l, DropRequester(id))
    ensures Valid(Step(l, DropRequester(id)))
  {
    hide Valid, DropFrom;
    DropKeeps(l, id, 0);
  }

  lemma FewerFits(n: int)
    requires Fits(n, 4)
    ensures n > 0 ==> Fits(n - 1, 4)
  {
  }

  lemma ChangeKeeps(l: Life, i: nat, r: Requester, q: RequesterPlace)
    requires Valid(l) && Within(l, i) && Savable(r)
    requires RequesterKind().placed(l.d, r, q) && OwnsNoMore(RequesterKind().owns, l.p.inner.items[i], q)
    ensures Valid(Changed(l, i, r, q))
  {
    hide RequesterKind, ListPlaced, Savable, ServerOwns, Fits, Arranged, OwnsNoMore, Sane;
    ListPlacedIs(RequesterKind(), l.d, l.s.requesters, l.p.inner);
    SavableParts(l.s);
    ReplacePlaced(RequesterKind(), l.d, l.s.requesters, l.p.inner, i, r, q);
    var k := Changed(l, i, r, q);
    ServerEdited(l.d, l.s, l.p, k.s, k.p.inner);
  }

  /** Requester `i`, and its messages. */
  lemma RequesterThere(l: Life, i: nat)
    requires Valid(l) && Within(l, i)
    ensures var r, q := l.s.requesters.items[i], l.p.inner.items[i];
      && Savable(r) && RequesterKind().placed(l.d, r, q)
      && ListPlaced(MicroKind(), l.d, r.messages, q.inner.0)
      && ListFits(Storable, r.messages) && Proper(r.messages)
  {
    hide RequesterKind, MicroKind, ListPlaced, ServerOwns, Fits, Storable, Sane;
    SavableParts(l.s);
    ListPlacedIs(RequesterKind(), l.d, l.s.requesters, l.p.inner);
    ItemPlaced(RequesterKind(), l.d, l.s.requesters, l.p.inner, i);
    var r, q := l.s.requesters.items[i], l.p.inner.items[i];
    MessagesPlaced(l.d, r, q);
    ListPlacedIs(MicroKind(), l.d, r.messages, q.inner.0);
  }

  lemma ProtocolKeeps(l: Life, i: nat, protocol: Chars, version: Chars)
    requires Valid(l) && Allowed(l, SetProtocol(i, protocol, version))
    ensures Valid(Step(l, SetProtocol(i, protocol, version)))
  {
    hide RequesterKind, MicroKind, ListPlaced, Valid, ListFits, Fits, NoZero;
    RequesterThere(l, i);
    var r, q := l.s.requesters.items[i], l.p.inner.items[i];
    var r' := r.(protocol := protocol, version := version);
    ListPlacedIs(MicroKind(), l.d, r.messages, q.inner.0);
    RequesterEdited(l.d, r, q, r', q.inner.0);
    assert WithMessages(q, q.inner.0) == q;
    ChangeKeeps(l, i, r', q);
  }

  lemma AddMessageKeeps(l: Life, i: nat, m: Micro)
    requires Valid(l) && Allowed(l, AddMessage(i, m))
    ensures Valid(Step(l, AddMessage(i, m)))
  {
    hide RequesterKind, MicroKind, ListPlaced, Valid, Fits, NoZero, OwnsNothing, OwnsNoMore, Storable;
    RequesterThere(l, i);
    var r, q := l.s.requesters.items[i], l.p.inner.items[i];
    var r', messages := r.(messages := Inserted(r.messages, m)), PlaceInserted(q.inner.0, NEW_MESSAGE);
    NewMessagePlaced(l.d, m);
    InsertPlaced(MicroKind(), l.d, r.messages, q.inner.0, m, NEW_MESSAGE);
    ListPlacedIs(MicroKind(), l.d, r'.messages, messages);
    RequesterEdited(l.d, r, q, r', messages);
    ChangeKeeps(l, i, r', WithMessages(q, messages));
  }

  lemma SendMessageKeeps(l: Life, i: nat)
    requires Valid(l) && Allowed(l, SendMessage(i))
    ensures Valid(Step(l, SendMessage(i)))
  {
    hide RequesterKind, MicroKind, ListPlaced, Valid, Fits, NoZero, OwnsNothing, OwnsNoMore, Storable;
    var r, q := l.s.requesters.items[i], l.p.inner.items[i];
    if r.messages.count != 0 {
      RequesterThere(l, i);
      var r', messages := r.(messages := Removed(r.messages, 0)), PlaceRemoved(q.inner.0, 0);
      RemovePlaced(MicroKind(), l.d, r.messages, q.inner.0, 0);
      FewerFits(r.messages.count);
      ListPlacedIs(MicroKind(), l.d, r'.messages, messages);
      RequesterEdited(l.d, r, q, r', messages);
      ChangeKeeps(l, i, r', WithMessages(q, messages));
    }
  }

  lemma OthersKeep(l: Life, e: Disk)
    requires Valid(l) && Allowed(l, OthersWrite(e))
    ensures Valid(Step(l, OthersWrite(e)))
  {
    hide RequestersKind, Lawful, Located, SavableServer, Sane;
    RequestersLawful();
    AgreesPart(l.d, e, ServerOwns, l.p, RequestersKind().owns, l.p.inner);
    AgreesAt(l.d, e, ServerOwns, l.p, l.p.at);
    AgreesSane(l.d, e, ServerOwns, l.p);
    UsePlacedStays(RequestersKind(), l.d, e, l.s.requesters, l.p.inner);
    if l.saved.Some? {
      CurrentStays(l.d, e, l.saved.value.0, l.saved.value.1);
    }
  }

  lemma CurrentStays(d: Disk, e: Disk, s: RequestServer, q: ServerPlace)
    requires Sane(d) && ServerCurrent(d, s, q) && Agrees(d, e, ServerOwns, q)
    ensures ServerCurrent(e, s, q)
  {
    hide RequestersKind, Lawful, Located, ServerBytes, CurrentPosition, Sane;
    RequestersLawful();
    AgreesPart(d, e, ServerOwns, q, RequestersKind().owns, q.inner);
    AgreesAt(d, e, ServerOwns, q, q.at);
    UseCurrentStays(RequestersKind(), d, e, s.requesters, q.inner);
  }

  lemma AgreesSane<P>(d: Disk, e: Disk, owns: (P, int) -> bool, p: P)
    requires Agrees(d, e, owns, p)
    ensures Sane(e) && e.end < BOUND
  {
  }

  lemma SaveKeeps(l: Life, pad: Padding)
    requires Valid(l) && Allowed(l, Save(pad))
    ensures Valid(Step(l, Save(pad)))
  {
    hide StoreServer, SavableServer, ServerPlaced, ServerCurrent, Spares, Sane, ServerCost, RestoreServer, KeptServer;
    ServerStored(pad, l.d, l.s, l.p);
    SparesSane(l.d, Step(l, Save(pad)).d, ServerOwns, l.p);
  }

  /** Started again, the server is what was kept of it when it was saved last. */
  lemma RestartKeeps(l: Life, garbage: int)
    requires l.saved.Some? && Valid(l) && Restartable(l, garbage)
    ensures Valid(Restarted(l, garbage)) && Restarted(l, garbage).s == KeptServer(l.saved.value.0)
  {
    hide SavableServer, ServerPlaced, ServerCurrent, Sane, RestoreServer, FoundServer, Overwritable, KeptListing,
         KeptRequester, RequestersKind, ServerOwns, Agrees;
    ServerFound(garbage, l.d, l.saved.value.0, l.saved.value.1);
  }

  lemma StartKeeps(l: Life, garbage: int)
    requires Valid(l) && Allowed(l, Restart(garbage))
    ensures Valid(Step(l, Restart(garbage)))
  {
    hide Valid, Overwritable, Restarted;
    RestartKeeps(l, garbage);
  }

  /** Whatever happens, the server can be stored over what is saved of it. */
  lemma StepKeeps(l: Life, e: Event)
    requires Valid(l) && Allowed(l, e)
    ensures Valid(Step(l, e))
  {
    hide Valid, Allowed, Step;
    match e {
      case AddRequester(r) => AddKeeps(l, r);
      case DropRequester(id) => DropAllKeeps(l, id);
      case ChangeCurrent(id) => ChooseKeeps(l, id);
      case SetProtocol(i, protocol, version) => ProtocolKeeps(l, i, protocol, version);
      case AddMessage(i, m) => AddMessageKeeps(l, i, m);
      case SendMessage(i) => SendMessageKeeps(l, i);
      case OthersWrite(e) => OthersKeep(l, e);
      case Save(pad) => SaveKeeps(l, pad);
      case Restart(garbage) => StartKeeps(l, garbage);
    }
  }

  lemma ChooseKeeps(l: Life, id: int)
    requires Valid(l) && Allowed(l, ChangeCurrent(id))
    ensures Valid(Step(l, ChangeCurrent(id)))
  {
    hide RequestersKind, ListFits, Sane, ServerCurrent, FirstWith;
  }

  // ----- over whole runs -----

  ghost predicate AllAllowed(l: Life, events: seq<Event>)
    decreases |events|
  {
    events == [] || (Allowed(l, events[0]) && AllAllowed(Step(l, events[0]), events[1..]))
  }

  ghost function Run(l: Life, events: seq<Event>): Life
    requires AllAllowed(l, events)
    decreases |events|
  {
    if events == [] then l else Run(Step(l, events[0]), events[1..])
  }

  lemma {:induction false} RunKeeps(l: Life, events: seq<Event>)
    requires Valid(l) && AllAllowed(l, events)
    ensures Valid(Run(l, events))
    decreases |events|
  {
    hide Valid, Allowed, Step;
    if events != [] {
      StepKeeps(l, events[0]);
      RunKeeps(Step(l, events[0]), events[1..]);
    }
  }

  /** A server that nothing is saved of. */
  lemma NewServer(d: Disk, serverId: int, listId: int, maxCount: int, appServer: int)
    requires Sane(d) && d.end < BOUND && Fits(serverId, 4) && Fits(listId, 4) && Fits(maxCount, 4)
    ensures Valid(Life(d, RequestServer(serverId, Listing(listId, 0, maxCount, [], []), None, appServer), NEW_SERVER,
                       None))
  {
    hide RequesterKind, ListPlaced, ListOwns, Sane;
    var l: Listing<Requester> := Listing(listId, 0, maxCount, [], []);
    EmptyListPlaced(RequesterKind(), d, l);
    ListPlacedIs(RequesterKind(), d, l, NEW_SERVER.inner);
    assert Fits(0, 4) by {
      assert Power(0) == 1;
    }
  }

  /** After any run of requesters and messages coming and going, of saves and restarts, and of others writing
      to the file, with some things saved and some not, the next save rewrites none but the server's own records;
      what is read back is exactly what is kept of the server, which is the server itself exactly when it
      has at most one requester, with at most one message, and no string is too long; and a save after that
      changes nothing but padding. */
  lemma EverySave(l: Life, events: seq<Event>, pad: Padding, again: Padding)
    requires Valid(l) && AllAllowed(l, events)
    requires var k := Run(l, events); k.d.end + ServerCost(k.s) < BOUND
    ensures var k := Run(l, events);
      var (e, q) := StoreServer(pad, k.d, k.s, k.p);
      && Spares(k.d, e, ServerOwns, k.p)
      && RestoreServer(e, q.at, k.s.appServer) == KeptServer(k.s)
      && (RestoreServer(e, q.at, k.s.appServer) == k.s <==> NothingLost(k.s))
      && var (f, r) := StoreServer(again, e, k.s, q);
      && r == q && Quiet(e, f, ServerText, q)
      && RestoreServer(f, q.at, k.s.appServer) == RestoreServer(e, q.at, k.s.appServer)
  {
    hide StoreServer, SavableServer, ServerPlaced, ServerCurrent, Spares, Sane, ServerCost, RestoreServer, KeptServer,
         Quiet, Run, AllAllowed, NothingLost;
    RunKeeps(l, events);
    var k := Run(l, events);
    ServerStored(pad, k.d, k.s, k.p);
    ServerSurvives(pad, k.d, k.s, k.p);
    var (e, q) := StoreServer(pad, k.d, k.s, k.p);
    SparesSane(k.d, e, ServerOwns, k.p);
    ServerStoredAgain(again, e, k.s, q);
  }

  // ----- who is current -----

  function Others(rs: seq<Requester>, id: int): seq<Requester> {
    if rs == [] then [] else (if rs[0].id == id then [] else [rs[0]]) + Others(rs[1..], id)
  }

  function Current(s: RequestServer): Option<Requester> {
    if s.current.Some? && s.current.value < |s.requesters.items| then Some(s.requesters.items[s.current.value]) else None
  }

  lemma WithoutCurrent(l: Life, i: nat)
    requires Within(l, i)
    ensures var k, rs := WithoutRequester(l, i).s, l.s.requesters.items;
      && k.requesters.items == rs[..i] + rs[i + 1..]
      && Current(k) == (if l.s.current == Some(i) then None else Current(l.s))
      && (k.current.Some? && k.current.value >= i <==> l.s.current.Some? && l.s.current.value > i)
      && k.requesters.count == l.s.requesters.count - 1
  {
  }

  /** `k` is `l` without the requesters with this id from place `i` on. */
  predicate Dropped(l: Life, k: Life, id: int, i: nat) {
    var rs := l.s.requesters.items;
    && i <= |rs| && k.s.requesters.items == rs[..i] + Others(rs[i..], id)
    && k.s.requesters.count == l.s.requesters.count - (|rs| - |k.s.requesters.items|)
    && Current(k.s) == (if CurrentGoes(l.s, id, i) then None else Current(l.s))
    && k.d == l.d && k.saved == l.saved
  }

  predicate CurrentGoes(s: RequestServer, id: int, i: nat) {
    && s.current.Some? && i <= s.current.value < |s.requesters.items|
    && s.requesters.items[s.current.value].id == id
  }

  lemma {:induction false} DropFromMeaning(l: Life, id: int, i: nat)
    requires Lined(l) && i <= |l.s.requesters.items|
    ensures Dropped(l, DropFrom(l, id, i), id, i)
    decreases |l.s.requesters.items| - i
  {
    hide WithoutRequester, Current, Dropped, Others;
    if i == |l.s.requesters.items| {
      DroppedNone(l, id);
    } else if l.s.requesters.items[i].id == id {
      DropFromMeaning(WithoutRequester(l, i), id, i);
      DroppedHere(l, DropFrom(l, id, i), id, i);
    } else {
      DropFromMeaning(l, id, i + 1);
      DroppedLater(l, DropFrom(l, id, i), id, i);
    }
  }

  lemma DroppedNone(l: Life, id: int)
    ensures Dropped(l, l, id, |l.s.requesters.items|)
  {
    var rs := l.s.requesters.items;
    assert rs[..|rs|] == rs && rs[|rs|..] == [];
  }

  lemma DroppedHere(l: Life, k: Life, id: int, i: nat)
    requires Within(l, i) && l.s.requesters.items[i].id == id && Dropped(WithoutRequester(l, i), k, id, i)
    ensures Dropped(l, k, id, i)
  {
    hide WithoutRequester, Current, CurrentGoes;
    WithoutCurrent(l, i);
    WithoutSame(l, i);
    var w := WithoutRequester(l, i);
    var rs, ws := l.s.requesters.items, w.s.requesters.items;
    assert ws[..i] == rs[..i] && ws[i..] == rs[i + 1..];
    assert rs[i..][0] == rs[i] && rs[i..][1..] == rs[i + 1..];
    CurrentMoved(l, w, i, id);
  }

  lemma DroppedLater(l: Life, k: Life, id: int, i: nat)
    requires Within(l, i) && l.s.requesters.items[i].id != id && Dropped(l, k, id, i + 1)
    ensures Dropped(l, k, id, i)
  {
    hide Current;
    var rs := l.s.requesters.items;
    assert rs[i..][0] == rs[i] && rs[i..][1..] == rs[i + 1..];
    assert rs[..i + 1] == rs[..i] + [rs[i]];
  }

  lemma WithoutSame(l: Life, i: nat)
    requires Within(l, i)
    ensures WithoutRequester(l, i).d == l.d && WithoutRequester(l, i).saved == l.saved
  {
  }

  lemma CurrentMoved(l: Life, w: Life, i: nat, id: int)
    requires Within(l, i) && l.s.requesters.items[i].id == id && w == WithoutRequester(l, i)
    ensures (if CurrentGoes(w.s, id, i) then None else Current(w.s)) ==
            (if CurrentGoes(l.s, id, i) then None else Current(l.s))
  {
  }

  /** delRequesterFromServer: the requesters with the id go, the others stay in order, and whoever was current
      stays current; but when the current one goes, nobody is, however many are left. */
  lemma DropMeaning(l: Life, id: int)
    requires Valid(l) && Allowed(l, DropRequester(id)) && id >= 0
    ensures var k := Step(l, DropRequester(id));
      && k.s.requesters.items == Others(l.s.requesters.items, id)
      && k.s.requesters.count == l.s.requesters.count - (|l.s.requesters.items| - |k.s.requesters.items|)
      && Current(k.s) == (if Current(l.s).Some? && Current(l.s).value.id == id then None else Current(l.s))
  {
    hide Valid, DropFrom, Dropped, Current, Others;
    DropFromMeaning(l, id, 0);
    DroppedAll(l, DropFrom(l, id, 0), id);
  }

  lemma DroppedAll(l: Life, k: Life, id: int)
    requires Dropped(l, k, id, 0)
    ensures k.s.requesters.items == Others(l.s.requesters.items, id)
    ensures k.s.requesters.count == l.s.requesters.count - (|l.s.requesters.items| - |k.s.requesters.items|)
    ensures Current(k.s) == (if Current(l.s).Some? && Current(l.s).value.id == id then None else Current(l.s))
  {
    hide Others;
    var rs := l.s.requesters.items;
    assert rs[..0] == [] && rs[0..] == rs;
  }

  // ----- starting again -----

  /** Saved and read back, the server is the same after every other save and start. */
  lemma SecondRestart(l: Life, garbage: int, pad: Padding, again: int)
    requires l.saved.Some? && Valid(l) && Restartable(l, garbage)
    requires var k := Restarted(l, garbage); k.d.end + ServerCost(k.s) < BOUND
    ensures var k := SavedOnce(Restarted(l, garbage), pad);
      Valid(k) && (Restartable(k, again) ==> Restarted(k, again).s == Restarted(l, garbage).s)
  {
    hide Valid, Restarted, KeptServer, Restartable, SavedOnce, ServerCost;
    RestartKeeps(l, garbage);
    var k := Restarted(l, garbage);
    SaveKeeps(k, pad);
    SavedIs(k, pad);
    if Restartable(SavedOnce(k, pad), again) {
      RestartKeeps(SavedOnce(k, pad), again);
    }
    SavedSize(l);
    KeptServerTwice(l.saved.value.0);
  }

  lemma SavedIs(l: Life, pad: Padding)
    ensures SavedOnce(l, pad).saved.value.0 == l.s
  {
    hide StoreServer;
  }

  lemma SavedSize(l: Life)
    requires Valid(l) && l.saved.Some?
    ensures var rs := l.saved.value.0.requesters;
      && |rs.ids| == |rs.items|
      && forall i :: 0 <= i < |rs.items| ==> |rs.items[i].messages.ids| == |rs.items[i].messages.items|
  {
    hide ServerCurrent, ServerPlaced, Sane, Savable, SavableServer;
    var s := l.saved.value.0;
    assert SavableServer(s);
    SavableParts(s);
    forall i | 0 <= i < |s.requesters.items|
      ensures |s.requesters.items[i].messages.ids| == |s.requesters.items[i].messages.items|
    {
      SavableProper(s.requesters.items[i], s);
    }
  }

  // ----- sending -----

  function Sends(i: nat, n: nat): seq<Event> {
    seq(n, j => SendMessage(i))
  }

  /** A requester whose count is right can be asked to send for ever; one whose list says too much only as
      often as it has messages: after that the list gives back its header. */
  lemma {:induction false} SendsAllowed(l: Life, i: nat, n: nat)
    requires Valid(l) && i < |l.s.requesters.items| && Lined(l)
    ensures var m := l.s.requesters.items[i].messages;
      AllAllowed(l, Sends(i, n)) <==> n <= |m.items| || |m.items| == m.count
    decreases n
  {
    hide Valid, Step, Allowed, Lined, Sends;
    SendsNext(i, n);
    SendStep(l, i);
    if n > 0 && Allowed(l, SendMessage(i)) {
      SendMessageKeeps(l, i);
      SendsAllowed(Step(l, SendMessage(i)), i, n - 1);
    }
  }

  lemma SendsNext(i: nat, n: nat)
    ensures if n == 0 then Sends(i, n) == [] else
      Sends(i, n) != [] && Sends(i, n)[0] == SendMessage(i) && Sends(i, n)[1..] == Sends(i, n - 1)
  {
  }

  lemma SendStep(l: Life, i: nat)
    requires Valid(l) && Lined(l) && i < |l.s.requesters.items|
    ensures var m := l.s.requesters.items[i].messages;
      && 0 <= |m.items| <= m.count
      && (Allowed(l, SendMessage(i)) <==> m.count == 0 || m.items != [])
      && (Allowed(l, SendMessage(i)) ==>
            var k := Step(l, SendMessage(i));
            && Lined(k) && |k.s.requesters.items| == |l.s.requesters.items|
            && var r := k.s.requesters.items[i].messages;
               if m.count == 0 then r == m else |r.items| == |m.items| - 1 && r.count == m.count - 1)
  {
    hide RequesterKind, MicroKind, ListPlaced, Valid, Fits, NoZero, Storable;
    RequesterThere(l, i);
    MessagesLined(l.d, l.s.requesters.items[i].messages, l.p.inner.items[i].inner.0);
  }

  lemma MessagesLined(d: Disk, l: Listing<Micro>, p: ListPlace<MicroPlace>)
    requires ListPlaced(MicroKind(), d, l, p)
    ensures |l.ids| == |p.pos| - 1 && |p.items| == |l.items|
  {
    hide MicroKind, Sited, NodesClear;
  }

  /** The requester that comes back has one message at most, and a count that may say there are more: it can
      be asked to send any number of times exactly when the list that was saved said there was one at most. */
  lemma SendsAfterRestart(l: Life, garbage: int, n: nat)
    requires l.saved.Some? && Valid(l) && Restartable(l, garbage) && l.saved.value.0.requesters.items != []
    ensures var rs := l.saved.value.0.requesters.items;
      var m := rs[|rs| - 1].messages;
      AllAllowed(Restarted(l, garbage), Sends(0, n)) <==>
      if m.items == [] then n == 0 || m.count == 0 else n <= 1 || m.count == 1
  {
    hide Valid, Restartable, Restarted, KeptServer, AllAllowed;
    RestartKeeps(l, garbage);
    var k := Restarted(l, garbage);
    SavedSize(l);
    KeptLast(l.saved.value.0);
    ServerLined(k);
    SendsAllowed(k, 0, n);
  }

  lemma ServerLined(l: Life)
    requires Valid(l)
    ensures Lined(l)
  {
    hide RequesterKind, Sited, NodesClear, Shelved, Savable, Sane, Fits;
  }

  lemma KeptLast(s: RequestServer)
    requires |s.requesters.ids| == |s.requesters.items| && s.requesters.items != []
    requires forall r <- s.requesters.items :: |r.messages.ids| == |r.messages.items|
    ensures var rs, k := s.requesters.items, KeptServer(s).requesters;
      && |k.items| == 1 && k.items[0].messages.count == rs[|rs| - 1].messages.count
      && |k.items[0].messages.items| == if rs[|rs| - 1].messages.items == [] then 0 else 1
  {
  }
}
