/** What each event does to a request server, field by field, and the order in which messages go out over whole
    runs (app_queue/request.c). */
module RequestEffects {
  import opened Text
  import opened Stores
  import opened Disks
  import opened Kinds
  import opened RingImage
  import opened Listings
  import opened RequestStore
  import opened RequestRuns
  import Lists

  // ----- one event -----

  /** From `l` to `k` only requester `i` has changed: it is `r` now. */
  predicate OnlyRequester(l: Life, k: Life, i: nat, r: Requester) {
    var rs := l.s.requesters;
    && i < |rs.items| && k.d == l.d && k.saved == l.saved
    && k.s == l.s.(requesters := rs.(items := rs.items[i := r]))
  }

  /** The first message of requester `i` goes with its id, and nothing else of the server changes, nor what is
      saved. With a count of nothing, nothing happens. */
  predicate FirstSent(l: Life, k: Life, i: nat) {
    && i < |l.s.requesters.items|
    && var r := l.s.requesters.items[i];
       var m := r.messages;
       if m.count == 0 then k == l
       else
         && m.items != [] && |m.ids| == |m.items|
         && OnlyRequester(l, k, i,
              r.(messages := Listing(m.listId, m.count - 1, m.maxCount, m.ids[1..], m.items[1..])))
  }

  lemma SendMeaning(l: Life, i: nat)
    requires Valid(l) && Allowed(l, SendMessage(i))
    ensures FirstSent(l, Step(l, SendMessage(i)), i)
  {
    hide RequesterKind, MicroKind, ListPlaced, Valid;
    RequesterThere(l, i);
    var m := l.s.requesters.items[i].messages;
    if m.count != 0 {
      RestIs(m.items);
      RestIs(m.ids);
    }
  }

  lemma RestIs<T>(s: seq<T>)
    requires s != []
    ensures Lists.Without(s, 0) == s[1..]
  {
  }

  /** Requester `i` is given `m`, after its other messages and with the next id. */
  predicate GivenLast(l: Life, k: Life, i: nat, m: Micro) {
    && i < |l.s.requesters.items|
    && var r := l.s.requesters.items[i];
       var n := r.messages;
       OnlyRequester(l, k, i,
         r.(messages := Listing(n.listId, n.count + 1, n.maxCount + 1, n.ids + [n.maxCount + 1], n.items + [m])))
  }

  lemma AddMeaning(l: Life, i: nat, m: Micro)
    requires Allowed(l, AddMessage(i, m))
    ensures GivenLast(l, Step(l, AddMessage(i, m)), i, m)
  {
  }

  lemma ProtocolMeaning(l: Life, i: nat, protocol: Chars, version: Chars)
    requires Allowed(l, SetProtocol(i, protocol, version))
    ensures OnlyRequester(l, Step(l, SetProtocol(i, protocol, version)), i,
                          l.s.requesters.items[i].(protocol := protocol, version := version))
  {
  }

  /** A requester comes after the others; it is current when nobody was. */
  lemma AddRequesterMeaning(l: Life, r: Requester)
    requires Allowed(l, AddRequester(r))
    ensures var k, rs := Step(l, AddRequester(r)), l.s.requesters;
      && k.d == l.d && k.saved == l.saved
      && k.s == l.s.(
           requesters := Listing(rs.listId, rs.count + 1, rs.maxCount + 1, rs.ids + [rs.maxCount + 1], rs.items + [r]),
           current := if l.s.current.None? then Some(|rs.items|) else l.s.current)
  {
  }

  /** `j` is the place of the first requester with the id. */
  predicate First(rs: seq<Requester>, id: int, j: nat) {
    j < |rs| && rs[j].id == id && forall h :: 0 <= h < j ==> rs[h].id != id
  }

  /** The first requester with the id becomes current; without one, and for a negative id, nothing changes. */
  lemma ChooseMeaning(l: Life, id: int)
    ensures var k, rs := Step(l, ChangeCurrent(id)), l.s.requesters.items;
      if id < 0 || forall j :: 0 <= j < |rs| ==> rs[j].id != id then k == l
      else k.s.current.Some? && First(rs, id, k.s.current.value) && k == l.(s := l.s.(current := k.s.current))
  {
    hide FirstWith;
    var i := FirstWith(l.s.requesters.items, id);
  }

  /** Saving, and what others write, leave the server alone. */
  lemma SaveMeaning(l: Life, pad: Padding, e: Disk)
    ensures Allowed(l, Save(pad)) ==>
      var k := Step(l, Save(pad));
      k.s == l.s && k.saved == Some((l.s, k.p))
    ensures Allowed(l, OthersWrite(e)) ==> Step(l, OthersWrite(e)) == Life(e, l.s, l.p, l.saved)
  {
    hide StoreServer, ServerCost;
  }

  // ----- dropping -----

  /** What is kept beside requesters without the id: the ids of their nodes, or what is known of them. */
  function Beside<T>(xs: seq<T>, rs: seq<Requester>, id: int): (ys: seq<T>)
    requires |xs| == |rs|
    ensures |ys| == |Others(rs, id)|
  {
    if rs == [] then [] else (if rs[0].id == id then [] else [xs[0]]) + Beside(xs[1..], rs[1..], id)
  }

  /** From place `i` on the nodes of the requesters with the id are gone, and nothing else is. */
  predicate RestKept(l: Life, k: Life, id: int, i: nat) {
    var rs, qs := l.s.requesters, k.s.requesters;
    && i <= |rs.items| == |rs.ids|
    && qs.ids == rs.ids[..i] + Beside(rs.ids[i..], rs.items[i..], id)
    && qs.listId == rs.listId && qs.maxCount == rs.maxCount
    && k.s.serverId == l.s.serverId && k.s.appServer == l.s.appServer && k.d == l.d && k.saved == l.saved
  }

  lemma WithoutMeaning(l: Life, i: nat)
    requires Within(l, i)
    ensures var rs, qs := l.s.requesters, WithoutRequester(l, i).s.requesters;
      && qs.items == rs.items[..i] + rs.items[i + 1..] && qs.ids == rs.ids[..i] + rs.ids[i + 1..]
      && qs.listId == rs.listId && qs.maxCount == rs.maxCount
    ensures var k := WithoutRequester(l, i);
      k.s.serverId == l.s.serverId && k.s.appServer == l.s.appServer && k.d == l.d && k.saved == l.saved
  {
  }

  lemma KeptHere(l: Life, w: Life, k: Life, id: int, i: nat)
    requires Within(l, i) && l.s.requesters.items[i].id == id && w == WithoutRequester(l, i)
    requires RestKept(w, k, id, i)
    ensures RestKept(l, k, id, i)
  {
    hide WithoutRequester;
    WithoutMeaning(l, i);
    var rs, ws := l.s.requesters, w.s.requesters;
    assert ws.ids[..i] == rs.ids[..i] && ws.ids[i..] == rs.ids[i + 1..] && ws.items[i..] == rs.items[i + 1..];
    assert rs.items[i..][1..] == rs.items[i + 1..] && rs.ids[i..][1..] == rs.ids[i + 1..];
  }

  lemma KeptLater(l: Life, k: Life, id: int, i: nat)
    requires Within(l, i) && l.s.requesters.items[i].id != id && RestKept(l, k, id, i + 1)
    ensures RestKept(l, k, id, i)
  {
    var rs := l.s.requesters;
    assert rs.items[i..][1..] == rs.items[i + 1..] && rs.ids[i..][1..] == rs.ids[i + 1..];
    assert rs.ids[..i + 1] == rs.ids[..i] + [rs.ids[i]];
  }

  lemma {:induction false} DropFromKeepsRest(l: Life, id: int, i: nat)
    requires Lined(l) && i <= |l.s.requesters.items|
    ensures RestKept(l, DropFrom(l, id, i), id, i)
    decreases |l.s.requesters.items| - i
  {
    hide WithoutRequester, RestKept;
    if i == |l.s.requesters.items| {
      NoneDropped(l, id);
    } else if l.s.requesters.items[i].id == id {
      var w := WithoutRequester(l, i);
      DropFromKeepsRest(w, id, i);
      KeptHere(l, w, DropFrom(l, id, i), id, i);
    } else {
      DropFromKeepsRest(l, id, i + 1);
      KeptLater(l, DropFrom(l, id, i), id, i);
    }
  }

  lemma NoneDropped(l: Life, id: int)
    requires Lined(l)
    ensures RestKept(l, l, id, |l.s.requesters.items|)
  {
    var rs := l.s.requesters;
    assert rs.ids[..|rs.ids|] == rs.ids && rs.ids[|rs.ids|..] == [] && rs.items[|rs.items|..] == [];
  }

  /** Beside DropMeaning: the nodes of the requesters that stay keep their ids, and the rest of the server, and
      what is saved, is as it was; a negative id drops nobody. */
  lemma DropRest(l: Life, id: int)
    requires Lined(l)
    ensures var k, rs := Step(l, DropRequester(id)), l.s.requesters;
      if id < 0 then k == l
      else
        && k.s.requesters.ids == Beside(rs.ids, rs.items, id)
        && k.s.requesters.listId == rs.listId && k.s.requesters.maxCount == rs.maxCount
        && k.s.serverId == l.s.serverId && k.s.appServer == l.s.appServer && k.d == l.d && k.saved == l.saved
  {
    hide DropFrom, Beside;
    DropFromKeepsRest(l, id, 0);
    var rs := l.s.requesters;
    assert rs.ids[0..] == rs.ids && rs.items[0..] == rs.items && rs.ids[..0] == [];
  }

  // ----- in which order messages go out -----

  /** What a requester has been given to send, and what has gone out, since the program was started. */
  datatype Flow = Flow(given: seq<Micro>, sent: seq<Micro>)

  /** The flow of each requester, in the order of the list. */
  ghost function Follow(l: Life, f: seq<Flow>, e: Event): seq<Flow>
    requires Allowed(l, e) && |f| == |l.s.requesters.items|
  {
    match e
    case AddRequester(r) => f + [Flow([], [])]
    case DropRequester(id) => if id < 0 then f else Beside(f, l.s.requesters.items, id)
    case AddMessage(i, m) => f[i := Flow(f[i].given + [m], f[i].sent)]
    case SendMessage(i) =>
      var m := l.s.requesters.items[i].messages;
      if m.count == 0 then f else f[i := Flow(f[i].given, f[i].sent + [m.items[0]])]
    case Restart(garbage) => Started(Restarted(l, garbage).s.requesters.items)
    case _ => f
  }

  /** Started from what was read back, with that to send. */
  function Started(rs: seq<Requester>): (f: seq<Flow>)
    ensures |f| == |rs|
  {
    seq(|rs|, i requires 0 <= i < |rs| => Flow(rs[i].messages.items, []))
  }

  /** What was given to each requester is what it sent followed by what it still has to send. */
  predicate InOrder(rs: seq<Requester>, f: seq<Flow>) {
    |f| == |rs| && forall i :: 0 <= i < |rs| ==> f[i].given == f[i].sent + rs[i].messages.items
  }

  lemma {:induction false} DropInOrder(rs: seq<Requester>, f: seq<Flow>, id: int)
    requires InOrder(rs, f)
    ensures InOrder(Others(rs, id), Beside(f, rs, id))
  {
    if rs != [] {
      DropInOrder(rs[1..], f[1..], id);
    }
  }

  lemma StartInOrder(rs: seq<Requester>)
    ensures InOrder(rs, Started(rs))
  {
  }

  lemma SendInOrder(l: Life, f: seq<Flow>, i: nat)
    requires Valid(l) && Allowed(l, SendMessage(i)) && InOrder(l.s.requesters.items, f)
    ensures InOrder(Step(l, SendMessage(i)).s.requesters.items, Follow(l, f, SendMessage(i)))
  {
    hide Valid, Step;
    SendMeaning(l, i);
    var rs := l.s.requesters.items;
    var m := rs[i].messages;
    if m.count != 0 {
      assert f[i].sent + m.items == f[i].sent + [m.items[0]] + m.items[1..];
    }
  }

  lemma AddInOrder(l: Life, f: seq<Flow>, i: nat, m: Micro)
    requires Allowed(l, AddMessage(i, m)) && InOrder(l.s.requesters.items, f)
    ensures InOrder(Step(l, AddMessage(i, m)).s.requesters.items, Follow(l, f, AddMessage(i, m)))
  {
    hide Step;
    AddMeaning(l, i, m);
    var rs := l.s.requesters.items;
    assert f[i].sent + rs[i].messages.items + [m] == f[i].sent + (rs[i].messages.items + [m]);
  }

  lemma DropAllInOrder(l: Life, f: seq<Flow>, id: int)
    requires Valid(l) && Allowed(l, DropRequester(id)) && InOrder(l.s.requesters.items, f)
    ensures InOrder(Step(l, DropRequester(id)).s.requesters.items, Follow(l, f, DropRequester(id)))
  {
    hide Valid, DropFrom, Beside, Others, InOrder;
    if id >= 0 {
      DropMeaning(l, id);
      DropInOrder(l.s.requesters.items, f, id);
    }
  }

  lemma NewInOrder(l: Life, f: seq<Flow>, r: Requester)
    requires Allowed(l, AddRequester(r)) && InOrder(l.s.requesters.items, f)
    ensures InOrder(Step(l, AddRequester(r)).s.requesters.items, Follow(l, f, AddRequester(r)))
  {
    hide Step;
    AddRequesterMeaning(l, r);
  }

  lemma ProtocolInOrder(l: Life, f: seq<Flow>, i: nat, protocol: Chars, version: Chars)
    requires Allowed(l, SetProtocol(i, protocol, version)) && InOrder(l.s.requesters.items, f)
    ensures InOrder(Step(l, SetProtocol(i, protocol, version)).s.requesters.items, f)
  {
    hide Step;
    ProtocolMeaning(l, i, protocol, version);
  }

  lemma SameRequesters(l: Life, e: Event)
    requires Allowed(l, e) && (e.ChangeCurrent? || e.OthersWrite? || e.Save?)
    ensures Step(l, e).s.requesters == l.s.requesters
  {
    hide StoreServer, ServerCost;
  }

  /** Every event keeps the order. */
  lemma StepInOrder(l: Life, f: seq<Flow>, e: Event)
    requires Valid(l) && Allowed(l, e) && InOrder(l.s.requesters.items, f)
    ensures InOrder(Step(l, e).s.requesters.items, Follow(l, f, e))
  {
    hide Valid, Allowed, Step, InOrder;
    match e {
      case AddRequester(r) => NewInOrder(l, f, r);
      case DropRequester(id) => DropAllInOrder(l, f, id);
      case ChangeCurrent(_) => SameRequesters(l, e);
      case SetProtocol(i, protocol, version) => ProtocolInOrder(l, f, i, protocol, version);
      case AddMessage(i, m) => AddInOrder(l, f, i, m);
      case SendMessage(i) => SendInOrder(l, f, i);
      case OthersWrite(_) => SameRequesters(l, e);
      case Save(_) => SameRequesters(l, e);
      case Restart(garbage) => RestartInOrder(l, f, garbage);
    }
  }

  lemma RestartInOrder(l: Life, f: seq<Flow>, garbage: int)
    requires Allowed(l, Restart(garbage)) && InOrder(l.s.requesters.items, f)
    ensures InOrder(Step(l, Restart(garbage)).s.requesters.items, Follow(l, f, Restart(garbage)))
  {
    hide Restarted, InOrder, Started;
    StartInOrder(Restarted(l, garbage).s.requesters.items);
  }

  /** The flows at the end of a run. */
  ghost function Followed(l: Life, f: seq<Flow>, events: seq<Event>): seq<Flow>
    requires Valid(l) && AllAllowed(l, events) && InOrder(l.s.requesters.items, f)
    decreases |events|
  {
    if events == [] then f
    else
      StepInOrder(l, f, events[0]);
      StepKeeps(l, events[0]);
      Followed(Step(l, events[0]), Follow(l, f, events[0]), events[1..])
  }

  /** First in, first out over every run, with restarts, saves, and requesters coming and going: for each requester
      there is at the end, what it has been given to send since it came or was read back is exactly what went
      out, in that order, followed by what still has to go. */
  lemma {:induction false} FirstInFirstOut(l: Life, f: seq<Flow>, events: seq<Event>)
    requires Valid(l) && AllAllowed(l, events) && InOrder(l.s.requesters.items, f)
    ensures var rs, g := Run(l, events).s.requesters.items, Followed(l, f, events);
      |g| == |rs| && forall i :: 0 <= i < |rs| ==> g[i].given == g[i].sent + rs[i].messages.items
    decreases |events|
  {
    hide Valid, Allowed, Step, Follow;
    if events != [] {
      StepInOrder(l, f, events[0]);
      StepKeeps(l, events[0]);
      FirstInFirstOut(Step(l, events[0]), Follow(l, f, events[0]), events[1..]);
    }
  }
}
