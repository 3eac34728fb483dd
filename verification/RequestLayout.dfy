/** Where everything is in the store file, byte by byte: the structures of data/list.h and app_queue/request.h as a
    64-bit compiler lays them out. */
module RequestLayout {
  import opened Text
  import opened Octets
  import opened Stores
  import opened Disks
  import opened Kinds
  import opened RingImage
  import opened Listings
  import opened RequestStore

  /** The file says what it is. */
  lemma MagicSpells()
    ensures |MAGIC| == |"JCQ 1.0 "| && forall i :: 0 <= i < |MAGIC| ==> MAGIC[i] == "JCQ 1.0 "[i] as int
  {
  }

  /** A node's record: the positions of the nodes around it, its id, and the datum's handle. */
  lemma NodeOnDisk(prev: int, next: int, id: int, data: int)
    requires Position(prev) && Position(next) && Fits(id, 4) && Fits(data, 8)
    ensures var b := NodeBytes(prev, next, id, data);
      Signed(b[..8]) == prev && Signed(b[8..16]) == next && Signed(b[16..20]) == id && Signed(b[24..]) == data
  {
    hide NodeBytes, Signed;
    NodeFields(prev, next, id, data);
  }

  /** A list's record: its id, where its header is, how many nodes it says it has, and its highest id. */
  predicate ListLies<T, Q>(e: Disk, l: Listing<T>, p: ListPlace<Q>) {
    && p.at > 0 && p.at in e.contents && |e.contents[p.at]| == 24 && p.pos != []
    && var b := e.contents[p.at];
       && b[..4] == LaySigned(l.listId, 4) && b[8..16] == LaySigned(p.pos[0], 8)
       && b[16..20] == LaySigned(l.count, 4) && b[20..] == LaySigned(l.maxCount, 4)
  }

  lemma ListOnDisk<T, Q(!new)>(a: Kind<T, Q, int>, e: Disk, l: Listing<T>, p: ListPlace<Q>)
    requires ListCurrent(a, e, l, p)
    ensures ListLies(e, l, p)
  {
    hide LaySigned, Sited, NodesClear, ItemsSound, AllImaged;
  }

  lemma MicroThere(e: Disk, m: Micro, q: MicroPlace)
    requires MicroKind().current(e, m, q)
    ensures q.at > 0 && q.at in e.contents && |e.contents[q.at]| == 40
  {
    hide MicroBytes, TextCurrent, BlobCurrent;
  }

  /** A message's record: its id, where its command, its parameters and its data are, how long these are, and
      its error code. */
  predicate MicroLies(e: Disk, at: int, m: Micro) {
    && at > 0 && at in e.contents && |e.contents[at]| == 40
    && var b := e.contents[at];
       && Signed(b[..8]) == m.id && Signed(b[36..]) == m.errcode
       && GetText(e, Signed(b[8..16])) == Kept(m.cmd, 20) && GetText(e, Signed(b[16..24])) == Kept(m.extraParam, 512)
       && (m.data != [] ==>
             && Signed(b[24..32]) in e.contents && e.contents[Signed(b[24..32])] == m.data
             && Signed(b[32..36]) == |m.data|)
  }

  lemma MicroOnDisk(pad: Padding, d: Disk, m: Micro, p: MicroPlace)
    requires Sane(d) && Storable(m) && MicroKind().placed(d, m, p) && d.end + MicroKind().cost(m) < BOUND
    ensures var (e, q) := StoreMicro(pad, d, m, p); MicroLies(e, q.at, m)
  {
    hide Recorded, Sane, Storable, StoreMicro, GetText, Kept, Signed, Spares;
    MicroStored(pad, d, m, p);
    var (e, q) := StoreMicro(pad, d, m, p);
    MicroThere(e, m, q);
  }

  /** A requester's record: its id, where its user, its messages and its strings are, and its state. */
  predicate RequesterLies(e: Disk, q: RequesterPlace, r: Requester) {
    && q.at > 0 && q.at in e.contents && |e.contents[q.at]| == 64 && ListLies(e, r.messages, q.inner.0)
    && var b := e.contents[q.at];
       && b[16..24] == LaySigned(q.inner.0.at, 8)
       && Signed(b[..4]) == r.id && Signed(b[8..16]) == r.user && Signed(b[56..60]) == r.state
       && GetList(RestoreMicro, e, Signed(b[16..24])) == KeptListing(r.messages, KeptMicro)
       && GetText(e, Signed(b[24..32])) == Kept(r.host, 124) && GetText(e, Signed(b[32..40])) == Kept(r.port, 20)
       && GetText(e, Signed(b[40..48])) == Kept(r.protocol, 20) && GetText(e, Signed(b[48..56])) == Kept(r.version, 20)
  }

  lemma RequesterThere(e: Disk, r: Requester, q: RequesterPlace)
    requires RequesterKind().current(e, r, q)
    ensures q.at > 0 && q.at in e.contents && |e.contents[q.at]| == 64
    ensures e.contents[q.at][16..24] == LaySigned(q.inner.0.at, 8)
    ensures ListCurrent(MicroKind(), e, r.messages, q.inner.0)
  {
    hide RequesterBytes, TextCurrent, ListCurrent, LaySigned, MicroKind;
    RequesterSlice(r.id, r.user, q.inner.0.at, q.inner.1.0, q.inner.1.1.0, q.inner.1.1.1.0, q.inner.1.1.1.1, r.state);
  }

  lemma RequesterSlice(id: int, user: int, messages: int, host: int, port: int, protocol: int, version: int, state: int)
    ensures RequesterBytes(id, user, messages, host, port, protocol, version, state)[16..24] == LaySigned(messages, 8)
  {
    hide LaySigned;
  }

  lemma RequesterOnDisk(pad: Padding, d: Disk, r: Requester, p: RequesterPlace)
    requires Sane(d) && Savable(r) && RequesterKind().placed(d, r, p) && d.end + RequesterKind().cost(r) < BOUND
    ensures var (e, q) := StoreRequester(pad, d, r, p); RequesterLies(e, q, r)
  {
    hide Recorded, Sane, Savable, StoreRequester, GetText, GetList, Kept, Signed, Spares, KeptListing,
         ListLies, ListCurrent, RequesterKind;
    RequesterStored(pad, d, r, p);
    var (e, q) := StoreRequester(pad, d, r, p);
    RequesterThere(e, r, q);
    ListOnDisk(MicroKind(), e, r.messages, q.inner.0);
  }

  /** The server's record: its id, where the list of requesters and the current one are, and the word of the
      server it belongs to. */
  predicate ServerLies(e: Disk, q: ServerPlace, s: RequestServer) {
    && q.at > 0 && q.at in e.contents && |e.contents[q.at]| == 32 && ListLies(e, s.requesters, q.inner)
    && var b := e.contents[q.at];
       && b[..4] == LaySigned(s.serverId, 4) && b[24..] == LaySigned(s.appServer, 8)
       && b[8..16] == LaySigned(q.inner.at, 8)
       && b[16..24] == LaySigned(
            if s.current.Some? && s.current.value < |q.inner.items| then q.inner.items[s.current.value].at else 0, 8)
       && GetList(RestoreRequester, e, Signed(b[8..16])) == KeptListing(s.requesters, KeptRequester)
  }

  lemma ServerSlices(s: RequestServer, requesters: int, current: int)
    ensures var b := ServerBytes(s.serverId, requesters, current, s.appServer);
      && b[..4] == LaySigned(s.serverId, 4) && b[8..16] == LaySigned(requesters, 8)
      && b[16..24] == LaySigned(current, 8) && b[24..] == LaySigned(s.appServer, 8)
  {
    hide LaySigned;
  }

  lemma RequestersThere(e: Disk, s: RequestServer, q: ServerPlace)
    requires ServerCurrent(e, s, q)
    ensures ListCurrent(RequesterKind(), e, s.requesters, q.inner)
  {
    hide ListCurrent, RequesterKind, ServerBytes;
  }

  lemma ServerOnDisk(pad: Padding, d: Disk, s: RequestServer, p: ServerPlace)
    requires Sane(d) && SavableServer(s) && ServerPlaced(d, s, p) && d.end + ServerCost(s) < BOUND
    ensures var (e, q) := StoreServer(pad, d, s, p); ServerLies(e, q, s)
  {
    hide StoreServer, Sane, SavableServer, ServerPlaced, ServerCost, GetList, KeptListing, Spares, RequestersKind,
         ServerBytes, LaySigned, Signed, ListLies, ListCurrent;
    ServerStored(pad, d, s, p);
    var (e, q) := StoreServer(pad, d, s, p);
    ServerSlices(s, q.inner.at, CurrentPosition(s, q.inner));
    RequestersThere(e, s, q);
    ListOnDisk(RequesterKind(), e, s.requesters, q.inner);
  }

  /** At most 19 bytes for a command, a port, a protocol and a version, 123 for a host, 511 for parameters. */
  predicate Short(t: Chars, n: nat) { t.Some? ==> |t.value| <= n }

  /** What survives, in numbers. */
  lemma LostByLength(s: RequestServer)
    ensures NothingLost(s) <==>
      && |s.requesters.items| <= 1
      && forall r <- s.requesters.items ::
           && |r.messages.items| <= 1
           && Short(r.host, 123) && Short(r.port, 19) && Short(r.protocol, 19) && Short(r.version, 19)
           && forall m <- r.messages.items :: Short(m.cmd, 19) && Short(m.extraParam, 511)
  {
  }

  /** A string that is kept when it has at most `n` bytes. */
  function IfShort(t: Chars, n: nat): Chars {
    if t.Some? && |t.value| <= n then t else None
  }

  /** `k` is what comes back of `m`: all but the strings that are too long. */
  predicate MicroBack(m: Micro, k: Micro) {
    k == Micro(m.id, IfShort(m.cmd, 19), IfShort(m.extraParam, 511), m.data, m.errcode)
  }

  /** Of a list, its numbers and its last entry. */
  predicate LastBack<T>(l: Listing<T>, k: Listing<T>) {
    && k.listId == l.listId && k.count == l.count && k.maxCount == l.maxCount
    && if l.items == [] then k.items == [] && k.ids == []
       else |l.ids| == |l.items| && k.ids == [l.ids[|l.ids| - 1]] && |k.items| == 1
  }

  predicate RequesterBack(r: Requester, k: Requester) {
    && k.id == r.id && k.user == r.user && k.state == r.state
    && k.host == IfShort(r.host, 123) && k.port == IfShort(r.port, 19)
    && k.protocol == IfShort(r.protocol, 19) && k.version == IfShort(r.version, 19)
    && LastBack(r.messages, k.messages)
    && (r.messages.items != [] ==> MicroBack(r.messages.items[|r.messages.items| - 1], k.messages.items[0]))
  }

  lemma MicroIsBack(m: Micro)
    ensures MicroBack(m, KeptMicro(m))
  {
  }

  lemma RequesterIsBack(r: Requester)
    requires |r.messages.ids| == |r.messages.items|
    ensures RequesterBack(r, KeptRequester(r))
  {
    hide KeptMicro, MicroBack;
    if r.messages.items != [] {
      MicroIsBack(r.messages.items[|r.messages.items| - 1]);
    }
  }

  /** What comes back of a server: its numbers, its last requester with its last message, and that one is current
      exactly when it was. */
  lemma ServerIsBack(s: RequestServer)
    requires SavableServer(s)
    ensures var k, rs := KeptServer(s), s.requesters.items;
      && k.serverId == s.serverId && k.appServer == s.appServer && LastBack(s.requesters, k.requesters)
      && (rs != [] ==> RequesterBack(rs[|rs| - 1], k.requesters.items[0]))
      && k.current == if s.current == Some(|rs| - 1) then Some(0) else None
  {
    hide KeptRequester, RequesterBack, Savable, Fits;
    var rs := s.requesters.items;
    if rs != [] {
      SavableProper(rs[|rs| - 1], s);
      RequesterIsBack(rs[|rs| - 1]);
    }
  }
}
