/** The store file (data/store.c): a preamble of sixteen bytes, then records, each a header
    (offset, state, length) and as many bytes as the header says. */
module Stores {
  import opened Octets
  import opened Text

  const MAGIC: seq<byte> := [0x4A, 0x43, 0x51, 0x20, 0x31, 0x2E, 0x30, 0x20]

  const USING := 1

  const LIMIT := 0x8000_0000_0000_0000

  // ----- the layout -----

  datatype Tile = Tile(state: nat, payload: seq<byte>)

  predicate Sound(t: Tile) {
    t.state < 0x8000_0000 && 0 < |t.payload| < 0x8000_0000
  }

  function Header(offset: nat, state: nat, length: nat): (h: seq<byte>)
    ensures |h| == 16
  {
    Lay(offset, 8) + Lay(state, 4) + Lay(length, 4)
  }

  lemma HeaderFields(offset: nat, state: nat, length: nat)
    requires offset < LIMIT && state < 0x8000_0000 && length < 0x8000_0000
    ensures
      var h := Header(offset, state, length);
      Unsigned(h[..8]) == offset && Unsigned(h[8..12]) == state && Unsigned(h[12..]) == length
  {
    hide Lay, Unsigned;
    var h := Header(offset, state, length);
    assert h[..8] == Lay(offset, 8) && h[8..12] == Lay(state, 4) && h[12..] == Lay(length, 4);
    Powers();
    UnsignedLay(offset, 8);
    UnsignedLay(state, 4);
    UnsignedLay(length, 4);
  }

  lemma Powers()
    ensures Power(4) == 0x1_0000_0000 && Power(8) == 0x1_0000_0000_0000_0000
  {
    assert Power(2) == 0x1_0000;
    assert Power(6) == 0x1_0000_0000_0000;
  }

  function Size(tiles: seq<Tile>): nat {
    if tiles == [] then 0 else Size(tiles[..|tiles| - 1]) + 16 + |tiles[|tiles| - 1].payload|
  }

  function Record(offset: nat, t: Tile): (b: seq<byte>)
    ensures |b| == 16 + |t.payload|
  {
    Header(offset, t.state, |t.payload|) + t.payload
  }

  /** The bytes of the records, the first one at offset 16. */
  function Laid(tiles: seq<Tile>): (b: seq<byte>)
    ensures |b| == Size(tiles)
  {
    if tiles == [] then [] else
      var n := |tiles| - 1;
      Laid(tiles[..n]) + Record(16 + Size(tiles[..n]), tiles[n])
  }

  /** Where record `k` starts. */
  function Offset(tiles: seq<Tile>, k: nat): nat
    requires k <= |tiles|
  {
    16 + Size(tiles[..k])
  }

  /** The payloads by offset. */
  function View(tiles: seq<Tile>): map<int, seq<byte>> {
    if tiles == [] then map[] else
      View(tiles[..|tiles| - 1])[16 + Size(tiles[..|tiles| - 1]) := tiles[|tiles| - 1].payload]
  }

  lemma {:induction false} SizeGrows(tiles: seq<Tile>, k: nat)
    requires k < |tiles|
    ensures Size(tiles[..k]) + 16 + |tiles[k].payload| <= Size(tiles)
  {
    var n := |tiles| - 1;
    if k < n {
      SizeGrows(tiles[..n], k);
      assert tiles[..n][..k] == tiles[..k];
    }
  }

  /** Every offset in the view is that of one record. */
  lemma {:induction false} RecordOf(tiles: seq<Tile>, offset: int) returns (k: nat)
    requires offset in View(tiles)
    ensures k < |tiles| && Offset(tiles, k) == offset && View(tiles)[offset] == tiles[k].payload
    ensures offset + 16 + |tiles[k].payload| <= 16 + Size(tiles)
  {
    var n := |tiles| - 1;
    if offset == Offset(tiles, n) {
      k := n;
    } else {
      k := RecordOf(tiles[..n], offset);
      assert tiles[..n][..k] == tiles[..k];
    }
  }

  lemma {:induction false} RecordIn(tiles: seq<Tile>, k: nat)
    requires k < |tiles|
    ensures Offset(tiles, k) in View(tiles) && View(tiles)[Offset(tiles, k)] == tiles[k].payload
  {
    var n := |tiles| - 1;
    if k < n {
      RecordIn(tiles[..n], k);
      assert tiles[..n][..k] == tiles[..k];
      SizeGrows(tiles[..n], k);
    }
  }

  /** The bytes after record `k`. */
  function Following(tiles: seq<Tile>, k: nat): seq<byte>
    requires k < |tiles|
  {
    var n := |tiles| - 1;
    if k == n then [] else Following(tiles[..n], k) + Record(Offset(tiles, n), tiles[n])
  }

  lemma {:induction false} LaidSplits(tiles: seq<Tile>, k: nat)
    requires k < |tiles|
    ensures Laid(tiles) == Laid(tiles[..k]) + Record(Offset(tiles, k), tiles[k]) + Following(tiles, k)
  {
    hide Record;
    var n := |tiles| - 1;
    if k < n {
      LaidSplits(tiles[..n], k);
      assert tiles[..n][..k] == tiles[..k];
    }
  }

  function Changed(tiles: seq<Tile>, k: nat, payload: seq<byte>): seq<Tile>
    requires k < |tiles|
  {
    tiles[k := tiles[k].(payload := payload)]
  }

  /** What a last record adds. */
  lemma LastRecord(tiles: seq<Tile>, t: Tile, k: nat)
    requires k <= |tiles|
    ensures Size(tiles + [t]) == Size(tiles) + 16 + |t.payload|
    ensures View(tiles + [t]) == View(tiles)[16 + Size(tiles) := t.payload]
    ensures Offset(tiles + [t], k) == Offset(tiles, k)
    ensures Following(tiles + [t], k) ==
      if k == |tiles| then [] else Following(tiles, k) + Record(16 + Size(tiles), t)
  {
    hide Record;
    assert (tiles + [t])[..|tiles|] == tiles;
    assert (tiles + [t])[..k] == tiles[..k] && tiles[..|tiles|] == tiles;
  }

  lemma LastTile(tiles: seq<Tile>, t: Tile)
    ensures Laid(tiles + [t]) == Laid(tiles) + Record(16 + Size(tiles), t)
    ensures Size(tiles + [t]) == Size(tiles) + 16 + |t.payload|
  {
    assert (tiles + [t])[..|tiles|] == tiles;
  }

  /** Replacing a payload by one of the same length moves nothing. */
  lemma {:induction false} ChangedInPlace(tiles: seq<Tile>, k: nat, payload: seq<byte>)
    requires k < |tiles| && |payload| == |tiles[k].payload|
    ensures Size(Changed(tiles, k, payload)) == Size(tiles)
    ensures Following(Changed(tiles, k, payload), k) == Following(tiles, k)
    ensures View(Changed(tiles, k, payload)) == View(tiles)[Offset(tiles, k) := payload]
  {
    hide Record, Size, View, Following;
    var n := |tiles| - 1;
    var init, last, changed := tiles[..n], tiles[n], Changed(tiles, k, payload);
    assert tiles == init + [last];
    LastRecord(init, last, k);
    if k < n {
      ChangedInPlace(init, k, payload);
      assert changed == Changed(init, k, payload) + [last];
      LastRecord(Changed(init, k, payload), last, k);
      SizeGrows(init, k);
    } else {
      assert changed == init + [last.(payload := payload)] && init[..n] == init;
      LastRecord(init, last.(payload := payload), k);
    }
  }

  lemma RecordFields(offset: nat, t: Tile)
    requires offset < LIMIT && Sound(t)
    ensures
      var r := Record(offset, t);
      && Unsigned(r[..8]) == offset
      && Unsigned(r[8..12]) == t.state
      && Unsigned(r[12..16]) == |t.payload|
      && r[16..] == t.payload
  {
    hide Unsigned, Header;
    HeaderFields(offset, t.state, |t.payload|);
    var r, h := Record(offset, t), Header(offset, t.state, |t.payload|);
    assert r[..8] == h[..8] && r[8..12] == h[8..12] && r[12..16] == h[12..];
  }

  lemma RecordIsUnique(offset: nat, s: Tile, t: Tile, more: seq<byte>, others: seq<byte>)
    requires offset < LIMIT && Sound(s) && Sound(t)
    requires Record(offset, s) + more == Record(offset, t) + others
    ensures s == t
  {
    hide Record, Unsigned, Sound;
    RecordFields(offset, s);
    RecordFields(offset, t);
    var r, q := Record(offset, s), Record(offset, t);
    assert r[8..12] == (r + more)[8..12] == (q + others)[8..12] == q[8..12];
    assert r[12..16] == (r + more)[12..16] == (q + others)[12..16] == q[12..16];
    assert r[16..] == (r + more)[16..|r|] == (q + others)[16..|q|] == q[16..];
  }

  lemma PrefixIsSmaller(a: seq<Tile>, b: seq<Tile>)
    requires |b| < |a| && a[..|b|] == b[..|b|]
    ensures Size(b) < Size(a)
  {
    assert b[..|b|] == b;
    SizeGrows(a, |b|);
  }

  /** Records that start the same bytes are the same records. */
  lemma {:induction false} TilingStarts(a: seq<Tile>, b: seq<Tile>, more: seq<byte>, k: nat)
    requires Laid(a) + more == Laid(b) && 16 + Size(b) < LIMIT && k <= |a|
    requires (forall t :: t in a ==> Sound(t)) && (forall t :: t in b ==> Sound(t))
    ensures k <= |b| && a[..k] == b[..k]
  {
    hide Record, Laid, Sound, Size;
    if k > 0 {
      TilingStarts(a, b, more, k - 1);
      assert Size(a) + |more| == Size(b);
      if |b| == k - 1 {
        PrefixIsSmaller(a, b);
      }
      SizeGrows(a, k - 1);
      SizeGrows(b, k - 1);
      LaidSplits(a, k - 1);
      LaidSplits(b, k - 1);
      var before, offset := Laid(a[..k - 1]), Offset(a, k - 1);
      var after := Following(a, k - 1) + more;
      assert Laid(b) == before + (Record(offset, a[k - 1]) + after);
      assert Laid(b) == before + (Record(offset, b[k - 1]) + Following(b, k - 1));
      assert Laid(b)[|before|..] == Record(offset, a[k - 1]) + after;
      assert Laid(b)[|before|..] == Record(offset, b[k - 1]) + Following(b, k - 1);
      RecordIsUnique(offset, a[k - 1], b[k - 1], after, Following(b, k - 1));
    }
  }

  /** The bytes can be read as records in one way only. */
  lemma TilingIsUnique(a: seq<Tile>, b: seq<Tile>)
    requires Laid(a) == Laid(b) && 16 + Size(a) < LIMIT
    requires (forall t :: t in a ==> Sound(t)) && (forall t :: t in b ==> Sound(t))
    ensures a == b
  {
    hide Laid, Size, Sound;
    assert Laid(a) + [] == Laid(b) && Laid(b) + [] == Laid(a);
    TilingStarts(a, b, [], |a|);
    TilingStarts(b, a, [], |b|);
    assert a[..|a|] == a && b[..|b|] == b;
  }

  // ----- the file -----

  /** The bytes after writing `data` at `at`. */
  function Overlay(bytes: seq<byte>, at: nat, data: seq<byte>): (b: seq<byte>)
    requires at <= |bytes|
    ensures |b| == if at + |data| <= |bytes| then |bytes| else at + |data|
    ensures b[at..at + |data|] == data && b[..at] == bytes[..at]
  {
    bytes[..at] + data + if at + |data| < |bytes| then bytes[at + |data|..] else []
  }

  /** A preamble, then records that lie end to end up to the end of the file. */
  predicate Tiled(bytes: seq<byte>, tiles: seq<Tile>) {
    && 16 <= |bytes| < LIMIT
    && (forall t :: t in tiles ==> Sound(t))
    && bytes[16..] == Laid(tiles)
  }

  lemma TiledBytes(bytes: seq<byte>, tiles: seq<Tile>)
    requires Tiled(bytes, tiles)
    ensures |bytes| == 16 + Size(tiles) && bytes[16..] == Laid(tiles) && forall t <- tiles :: Sound(t)
  {
    hide Laid;
  }

  lemma TiledOf(grown: seq<byte>, all: seq<Tile>)
    requires 16 <= |grown| < LIMIT && grown[16..] == Laid(all) && forall t <- all :: Sound(t)
    ensures Tiled(grown, all)
  {
    hide Laid;
  }

  lemma AppendKeepsTiling(bytes: seq<byte>, tiles: seq<Tile>, t: Tile)
    requires Tiled(bytes, tiles) && Sound(t) && |bytes| + 16 + |t.payload| < LIMIT
    ensures |bytes| == 16 + Size(tiles)
    ensures Tiled(bytes + Record(|bytes|, t), tiles + [t])
    ensures View(tiles + [t]) == View(tiles)[|bytes| := t.payload]
  {
    hide Record, Sound, Laid, Size, View, Tiled;
    TiledBytes(bytes, tiles);
    LastRecord(tiles, t, 0);
    LastTile(tiles, t);
    assert (bytes + Record(|bytes|, t))[16..] == bytes[16..] + Record(|bytes|, t);
    TiledOf(bytes + Record(|bytes|, t), tiles + [t]);
  }

  lemma Middle(bytes: seq<byte>, before: seq<byte>, record: seq<byte>, after: seq<byte>)
    requires |bytes| >= 16 && bytes[16..] == before + record + after
    ensures |bytes| >= 16 + |before| + |record|
    ensures bytes[16 + |before|..16 + |before| + |record|] == record
  {
    var rest := bytes[16..];
    assert rest[|before|..|before| + |record|] == record;
  }

  lemma MiddleReplaced(bytes: seq<byte>, before: seq<byte>, header: seq<byte>, was: seq<byte>, after: seq<byte>,
                       now: seq<byte>)
    requires |bytes| >= 16 && |header| == 16 && |was| == |now|
    requires bytes[16..] == before + (header + was) + after
    ensures |bytes| >= 32 + |before| + |was|
    ensures Overlay(bytes, 32 + |before|, now)[16..] == before + (header + now) + after
  {
    var rest, at := bytes[16..], |before| + 16;
    assert rest[..at] == before + header && rest[at + |was|..] == after;
    var b := Overlay(bytes, 16 + at, now);
    assert b[16..16 + at] == rest[..at] && b[16 + at..16 + at + |now|] == now;
    assert b[16 + at + |now|..] == after;
  }

  /** What is on disk at the offset of a record. */
  lemma RecordOnDisk(bytes: seq<byte>, tiles: seq<Tile>, k: nat)
    requires Tiled(bytes, tiles) && k < |tiles|
    ensures
      var offset := Offset(tiles, k);
      && offset + 16 + |tiles[k].payload| <= |bytes|
      && bytes[offset..offset + 16 + |tiles[k].payload|] == Record(offset, tiles[k])
  {
    hide Record, Laid, Sound, Following;
    LaidSplits(tiles, k);
    Middle(bytes, Laid(tiles[..k]), Record(Offset(tiles, k), tiles[k]), Following(tiles, k));
  }

  /** What reading a record's header and payload gives. */
  lemma FieldsOnDisk(bytes: seq<byte>, tiles: seq<Tile>, k: nat)
    requires Tiled(bytes, tiles) && k < |tiles|
    ensures
      var offset, payload := Offset(tiles, k), tiles[k].payload;
      && offset + 16 + |payload| <= |bytes|
      && Unsigned(bytes[offset..offset + 16][..8]) == offset
      && Unsigned(bytes[offset..offset + 16][8..12]) == tiles[k].state
      && Unsigned(bytes[offset..offset + 16][12..]) == |payload|
      && bytes[offset + 16..offset + 16 + |payload|] == payload
  {
    hide Record, Laid, Size, Unsigned;
    RecordOnDisk(bytes, tiles, k);
    var offset := Offset(tiles, k);
    RecordFields(offset, tiles[k]);
    var record := Record(offset, tiles[k]);
    var header := bytes[offset..offset + 16];
    assert header == record[..16];
    assert header[..8] == record[..8] && header[8..12] == record[8..12] && header[12..] == record[12..16];
    assert bytes[offset + 16..offset + |record|] == record[16..];
  }

  lemma OverwriteKeepsTiling(bytes: seq<byte>, tiles: seq<Tile>, k: nat, payload: seq<byte>)
    requires Tiled(bytes, tiles) && k < |tiles| && |payload| == |tiles[k].payload|
    ensures Offset(tiles, k) + 16 <= |bytes|
    ensures Tiled(Overlay(bytes, Offset(tiles, k) + 16, payload), Changed(tiles, k, payload))
  {
    hide Laid, Header, Overlay, Following, Size;
    var offset, t := Offset(tiles, k), tiles[k];
    var changed := Changed(tiles, k, payload);
    ChangedInPlace(tiles, k, payload);
    LaidSplits(tiles, k);
    LaidSplits(changed, k);
    assert changed[..k] == tiles[..k];
    MiddleReplaced(bytes, Laid(tiles[..k]), Header(offset, t.state, |payload|), t.payload, Following(tiles, k), payload);
    assert Overlay(bytes, offset + 16, payload)[16..] == Laid(changed);
    assert Sound(tiles[k]) && changed[k].payload == payload;
    assert forall j :: 0 <= j < |changed| && j != k ==> changed[j] == tiles[j];
  }

  /** A zero-terminated string: what precedes the first zero, if there is one. */
  function Terminated(b: seq<byte>): (s: Option<seq<byte>>)
  {
    if b == [] then None
    else if b[0] == 0 then Some([])
    else
      match Terminated(b[1..])
      case None => None
      case Some(s) => Some([b[0]] + s)
  }

  lemma {:induction false} TerminatedText(s: seq<byte>, pad: seq<byte>)
    requires 0 !in s
    ensures Terminated(s + [0] + pad) == Some(s)
    ensures Terminated(s) == None
  {
    var b := s + [0] + pad;
    if s != [] {
      assert b[0] == s[0] && b[1..] == s[1..] + [0] + pad;
      TerminatedText(s[1..], pad);
      assert [s[0]] + s[1..] == s;
    }
  }

  /** Whatever lies in memory behind the one-byte buffer that strings are padded from, when the string at
      an offset is written. */
  type Padding = (int, nat) -> byte

  function PadBytes(pad: Padding, at: int, n: nat): (b: seq<byte>)
    ensures |b| == n
  {
    seq(n, i requires 0 <= i => pad(at, i))
  }

  /** The text, its zero, and padding up to `length` bytes. */
  function Padded(text: seq<byte>, pad: seq<byte>, length: nat): (b: seq<byte>)
    requires |text| < length <= |pad|
    ensures |b| == length
  {
    text + [0] + pad[..length - (|text| + 1)]
  }

  /** Reading a string at `offset`: as many bytes as the header there says. */
  function StringAt(bytes: seq<byte>, offset: nat): Option<seq<byte>> {
    if offset + 16 > |bytes| then None else
      var length := Unsigned(bytes[offset..offset + 16][12..]);
      if offset + 16 + length > |bytes| then None else Terminated(bytes[offset + 16..offset + 16 + length])
  }

  /** A string stored where it fits is read back. */
  lemma StoredString(bytes: seq<byte>, tiles: seq<Tile>, k: nat, text: seq<byte>, pad: seq<byte>)
    requires Tiled(bytes, tiles) && k < |tiles| && 0 !in text
    requires |text| < |tiles[k].payload| <= |pad|
    requires tiles[k].payload == Padded(text, pad, |tiles[k].payload|)
    ensures StringAt(bytes, Offset(tiles, k)) == Some(text)
  {
    hide Terminated, Laid, Size, Unsigned;
    FieldsOnDisk(bytes, tiles, k);
    TerminatedText(text, pad[..|tiles[k].payload| - (|text| + 1)]);
  }

  /** What a longer maximum leaves at the end of the file: a header that still says the old length,
      and more bytes than that. */
  function Grown(bytes: seq<byte>, state: nat, length: nat, text: seq<byte>): seq<byte> {
    bytes + Header(|bytes|, state, length) + text
  }

  /** A string moved by a longer maximum is read back exactly when it would have fitted the old
      length anyway. */
  lemma GrownString(bytes: seq<byte>, state: nat, length: nat, maximum: nat, text: seq<byte>, pad: seq<byte>)
    requires |bytes| < LIMIT && state < 0x8000_0000 && 0 < length < maximum < 0x8000_0000
    requires 0 !in text && |text| < maximum <= |pad|
    ensures StringAt(Grown(bytes, state, length, Padded(text, pad, maximum)), |bytes|) == Some(text) <==>
            |text| < length
  {
    hide Terminated, Unsigned, Header;
    var body, header := Padded(text, pad, maximum), Header(|bytes|, state, length);
    var grown := Grown(bytes, state, length, body);
    HeaderFields(|bytes|, state, length);
    assert grown[|bytes|..|bytes| + 16] == header;
    assert grown[|bytes| + 16..|bytes| + 16 + length] == body[..length];
    if |text| < length {
      assert body[..length] == text + [0] + pad[..length - (|text| + 1)];
      TerminatedText(text, pad[..length - (|text| + 1)]);
    } else {
      assert body[..length] == text[..length];
      TerminatedText(text[..length], []);
    }
  }

  /** The bytes of records that lie end to end from `offset` on. */
  function LaidFrom(offset: nat, tiles: seq<Tile>): seq<byte>
    decreases |tiles|
  {
    if tiles == [] then [] else Record(offset, tiles[0]) + LaidFrom(offset + 16 + |tiles[0].payload|, tiles[1..])
  }

  lemma {:induction false} LaidOn(tiles: seq<Tile>, more: seq<Tile>)
    ensures Laid(tiles + more) == Laid(tiles) + LaidFrom(16 + Size(tiles), more)
    decreases |more|
  {
    hide Laid, Record, Size;
    if more == [] {
      assert tiles + more == tiles;
    } else {
      LastTile(tiles, more[0]);
      LaidOn(tiles + [more[0]], more[1..]);
      assert tiles + more == tiles + [more[0]] + more[1..];
    }
  }

  /** The bytes of some records, from `offset` on. */
  ghost predicate AreRecords(offset: nat, bytes: seq<byte>) {
    exists tiles :: bytes == LaidFrom(offset, tiles) && forall t <- tiles :: Sound(t)
  }

  /** A string moved by a longer maximum leaves a file of records exactly when the bytes that its header does
      not count happen to be records themselves. */
  lemma GrowthBreaksTiling(bytes: seq<byte>, tiles: seq<Tile>, state: nat, length: nat, body: seq<byte>)
    requires Tiled(bytes, tiles) && state < 0x8000_0000 && 0 < length < |body| < 0x8000_0000
    requires |bytes| + 16 + |body| < LIMIT
    ensures (exists all :: Tiled(Grown(bytes, state, length, body), all)) <==>
            AreRecords(|bytes| + 16 + length, body[length..])
  {
    var grown := Grown(bytes, state, length, body);
    if AreRecords(|bytes| + 16 + length, body[length..]) {
      var more :| body[length..] == LaidFrom(|bytes| + 16 + length, more) && forall t <- more :: Sound(t);
      GrownTiled(bytes, tiles, state, length, body, more);
    }
    if exists all :: Tiled(grown, all) {
      var all :| Tiled(grown, all);
      GrownRecords(bytes, tiles, state, length, body, all);
    }
  }

  lemma GrownTiled(bytes: seq<byte>, tiles: seq<Tile>, state: nat, length: nat, body: seq<byte>, more: seq<Tile>)
    requires Tiled(bytes, tiles) && state < 0x8000_0000 && 0 < length < |body| < 0x8000_0000
    requires |bytes| + 16 + |body| < LIMIT && forall t <- more :: Sound(t)
    requires body[length..] == LaidFrom(|bytes| + 16 + length, more)
    ensures Tiled(Grown(bytes, state, length, body), tiles + [Tile(state, body[..length])] + more)
  {
    hide Laid, Size, Header, LaidFrom, Tiled, Grown;
    var t := Tile(state, body[..length]);
    LastTile(tiles, t);
    LaidOn(tiles + [t], more);
    TiledBytes(bytes, tiles);
    GrownBytes(bytes, state, length, body);
    Regrouped(Laid(tiles), Header(|bytes|, state, length), body, length);
    SoundPart(state, length, body);
    TiledOf(Grown(bytes, state, length, body), tiles + [t] + more);
  }

  lemma GrownBytes(bytes: seq<byte>, state: nat, length: nat, body: seq<byte>)
    requires |bytes| >= 16
    ensures |Grown(bytes, state, length, body)| == |bytes| + 16 + |body|
    ensures Grown(bytes, state, length, body)[16..] == bytes[16..] + Header(|bytes|, state, length) + body
  {
    hide Header;
  }

  lemma Regrouped(before: seq<byte>, header: seq<byte>, body: seq<byte>, length: nat)
    requires length <= |body|
    ensures before + (header + body[..length]) + body[length..] == before + header + body
  {
    assert body == body[..length] + body[length..];
  }

  lemma GrownRecords(bytes: seq<byte>, tiles: seq<Tile>, state: nat, length: nat, body: seq<byte>, all: seq<Tile>)
    requires Tiled(bytes, tiles) && state < 0x8000_0000 && 0 < length < |body| < 0x8000_0000
    requires |bytes| + 16 + |body| < LIMIT && Tiled(Grown(bytes, state, length, body), all)
    ensures AreRecords(|bytes| + 16 + length, body[length..])
  {
    hide Laid, Size, Header, LaidFrom, Record;
    var n, more := |tiles|, Header(|bytes|, state, length) + body;
    assert |bytes| == 16 + Size(tiles);
    assert Laid(all) == Laid(tiles) + more;
    TilingStarts(tiles, all, more, n);
    assert tiles[..n] == tiles;
    var rest := all[n..];
    assert all == tiles + rest;
    LaidOn(tiles, rest);
    assert LaidFrom(|bytes|, rest) == Laid(all)[|Laid(tiles)|..] == more;
    FirstOfRest(|bytes|, rest, state, length, body);
    assert forall t <- rest[1..] :: Sound(t);
  }

  /** The first record of what was written is what its header says. */
  lemma FirstOfRest(offset: nat, rest: seq<Tile>, state: nat, length: nat, body: seq<byte>)
    requires LaidFrom(offset, rest) == Header(offset, state, length) + body && forall t <- rest :: Sound(t)
    requires offset < LIMIT && state < 0x8000_0000 && 0 < length < |body| < 0x8000_0000
    ensures |rest| > 0 && body[length..] == LaidFrom(offset + 16 + length, rest[1..])
  {
    hide Header, Sound;
    assert rest != [];
    var t, after := rest[0], LaidFrom(offset + 16 + |rest[0].payload|, rest[1..]);
    assert Sound(t);
    assert Header(offset, state, length) + body == Record(offset, Tile(state, body[..length])) + body[length..];
    SoundPart(state, length, body);
    RecordIsUnique(offset, t, Tile(state, body[..length]), after, body[length..]);
    var r := Record(offset, t);
    assert after == (r + after)[|r|..] == (r + body[length..])[|r|..] == body[length..];
  }

  lemma SoundPart(state: nat, length: nat, body: seq<byte>)
    requires state < 0x8000_0000 && 0 < length < |body| < 0x8000_0000
    ensures Sound(Tile(state, body[..length]))
  {
  }

  /** Up to sixteen bytes more are never a record. */
  lemma ShortGrowth(bytes: seq<byte>, tiles: seq<Tile>, state: nat, length: nat, body: seq<byte>)
    requires Tiled(bytes, tiles) && state < 0x8000_0000 && 0 < length < |body| <= length + 16 && |body| < 0x8000_0000
    requires |bytes| + 16 + |body| < LIMIT
    ensures !exists all :: Tiled(Grown(bytes, state, length, body), all)
  {
    hide Tiled, Grown, AreRecords;
    GrowthBreaksTiling(bytes, tiles, state, length, body);
    TooShort(|bytes| + 16 + length, body[length..]);
  }

  lemma TooShort(offset: nat, bytes: seq<byte>)
    requires 0 < |bytes| <= 16
    ensures !AreRecords(offset, bytes)
  {
    forall tiles {:trigger LaidFrom(offset, tiles)} | forall t <- tiles :: Sound(t)
      ensures bytes != LaidFrom(offset, tiles)
    {
      if tiles != [] {
        assert Sound(tiles[0]);
      }
    }
  }

  class StoreFile {
    var bytes: seq<byte>
    /** Where the next read or write takes place. */
    var cursor: nat
    ghost var tiles: seq<Tile>

    ghost predicate Valid()
      reads `bytes, `tiles
    {
      Tiled(bytes, tiles)
    }

    /** The payload of every record, by offset. */
    ghost function Contents(): map<int, seq<byte>>
      reads `tiles
    {
      View(tiles)
    }

    /** A new store file: the magic, and no start position. */
    constructor ()
      ensures Valid() && Contents() == map[]
      ensures bytes == MAGIC + Lay(0, 8)
    {
      bytes := MAGIC + Lay(0, 8);
      cursor := 16;
      tiles := [];
    }

    method Seek(offset: nat)
      modifies `cursor
      ensures cursor == offset
    {
      cursor := offset;
    }

    method SeekEnd()
      modifies `cursor
      ensures cursor == |bytes|
    {
      cursor := |bytes|;
    }

    method Read(length: nat) returns (data: seq<byte>)
      requires cursor + length <= |bytes|
      modifies `cursor
      ensures cursor == old(cursor) + length && data == bytes[old(cursor)..cursor]
    {
      data := bytes[cursor..cursor + length];
      cursor := cursor + length;
    }

    method Write(data: seq<byte>)
      requires cursor <= |bytes|
      modifies `bytes, `cursor
      ensures bytes == Overlay(old(bytes), old(cursor), data) && cursor == old(cursor) + |data|
    {
      bytes := Overlay(bytes, cursor, data);
      cursor := cursor + |data|;
    }

    method Append(data: seq<byte>) returns (position: int)
      requires Valid() && 0 < |data| < 0x8000_0000 && |bytes| + 16 + |data| < LIMIT
      modifies this
      ensures Valid()
      ensures position == |old(bytes)| && position !in old(Contents())
      ensures bytes == old(bytes) + Record(position, Tile(USING, data))
      ensures Contents() == old(Contents())[position := data]
    {
      hide Laid, View, Size, Header;
      AppendKeepsTiling(bytes, tiles, Tile(USING, data));
      if |bytes| in Contents() {
        ghost var k := RecordOf(tiles, |bytes|);
      }
      SeekEnd();
      position := cursor;
      Write(Header(position, USING, |data|));
      Write(data);
      tiles := tiles + [Tile(USING, data)];
    }

    /** Writes over the payload of the record whose header has just been read. */
    method Overwrite(ghost k: nat, data: seq<byte>)
      requires Valid() && k < |tiles| && cursor == Offset(tiles, k) + 16 && |data| == |tiles[k].payload|
      modifies this
      ensures Valid()
      ensures old(cursor) + |data| <= |old(bytes)| == |bytes|
      ensures bytes == Overlay(old(bytes), old(cursor), data)
      ensures Contents() == old(Contents())[old(cursor) - 16 := data]
    {
      hide Laid, View, Size, Header;
      FieldsOnDisk(bytes, tiles, k);
      OverwriteKeepsTiling(bytes, tiles, k, data);
      ChangedInPlace(tiles, k, data);
      Write(data);
      tiles := Changed(tiles, k, data);
    }

    /** Appends a record when there is no offset yet; otherwise overwrites the record there, whose
        length must not change. */
    method Store(offset: int, data: seq<byte>) returns (position: int)
      requires Valid() && (offset <= 0 || offset in Contents())
      requires |data| < 0x8000_0000 && |bytes| + 16 + |data| < LIMIT
      modifies this
      ensures Valid()
      ensures |data| == 0 ==> position == -1 && bytes == old(bytes) && Contents() == old(Contents())
      ensures |data| > 0 && offset <= 0 ==>
        && position == |old(bytes)| && position !in old(Contents())
        && bytes == old(bytes) + Record(position, Tile(USING, data))
        && Contents() == old(Contents())[position := data]
      ensures offset > 0 && |data| > 0 && |old(Contents())[offset]| != |data| ==>
        position == -2 && bytes == old(bytes) && Contents() == old(Contents())
      ensures offset > 0 && |old(Contents())[offset]| == |data| > 0 ==>
        && position == offset && offset + 16 + |data| <= |old(bytes)| == |bytes|
        && bytes == Overlay(old(bytes), offset + 16, data)
        && Contents() == old(Contents())[offset := data]
    {
      hide Laid, View, Size, Header, Unsigned, Overlay;
      if |data| == 0 {
        return -1;
      }
      if offset <= 0 {
        position := Append(data);
      } else {
        ghost var k := RecordOf(tiles, offset);
        FieldsOnDisk(bytes, tiles, k);
        Seek(offset);
        var header := Read(16);
        if Unsigned(header[12..]) != |data| {
          return -2;
        }
        Overwrite(k, data);
        position := Unsigned(header[..8]);
      }
    }

    method Restore(offset: int, length: int) returns (code: int, data: seq<byte>)
      requires Valid() && (offset <= 0 || offset in Contents())
      modifies `cursor
      ensures code == if offset <= 0 || length <= 0 then -1 else if |Contents()[offset]| != length then -2 else 0
      ensures code == 0 ==> data == Contents()[offset]
    {
      hide Laid, View, Size, Header, Unsigned;
      if offset <= 0 || length <= 0 {
        return -1, [];
      }
      ghost var k := RecordOf(tiles, offset);
      FieldsOnDisk(bytes, tiles, k);
      Seek(offset);
      var header := Read(16);
      if Unsigned(header[12..]) != length {
        return -2, [];
      }
      data := Read(length);
      code := 0;
    }
  
    /** Appends or overwrites a string with room for `maximum` bytes. A record whose room is less than
        `maximum` is abandoned: its header is written again at the end of the file, with the old
        length, before the new string. */
    method StoreString(offset: int, text: seq<byte>, maximum: int, pad: Padding)
      returns (position: int, ghost state: nat)
      requires Valid() && (offset <= 0 || offset in Contents())
      requires 0 !in text && maximum < 0x8000_0000 && |bytes| + 16 + maximum < LIMIT
      modifies this
      ensures |text| + 1 > maximum ==> Valid() && position == -1 && bytes == old(bytes) && Contents() == old(Contents())
      ensures |text| < maximum && offset <= 0 ==>
        && Valid() && position == |old(bytes)|
        && bytes == old(bytes) + Record(position, Tile(USING, Padded(text, PadBytes(pad, position, maximum), maximum)))
        && Contents() == old(Contents())[position := Padded(text, PadBytes(pad, position, maximum), maximum)]
      ensures offset > 0 && |text| < maximum <= |old(Contents())[offset]| ==>
        var length := |old(Contents())[offset]|;
        && Valid() && position == offset && |bytes| == |old(bytes)|
        && Contents() == old(Contents())[offset := Padded(text, PadBytes(pad, offset, length), length)]
      ensures offset > 0 && |text| < maximum && |old(Contents())[offset]| < maximum ==>
        && position == |old(bytes)| && state < 0x8000_0000
        && bytes == Grown(old(bytes), state, |old(Contents())[offset]|,
                          Padded(text, PadBytes(pad, position, maximum), maximum))
    {
      hide Laid, View, Size, Header, Unsigned, Padded;
      if |text| + 1 > maximum {
        return -1, 0;
      }
      state := 0;
      if offset <= 0 {
        position := Append(Padded(text, PadBytes(pad, |bytes|, maximum), maximum));
        return;
      }
      ghost var k := RecordOf(tiles, offset);
      FieldsOnDisk(bytes, tiles, k);
      Seek(offset);
      var header := Read(16);
      var recorded, length := Unsigned(header[8..12]), Unsigned(header[12..]);
      state := recorded;
      assert Sound(tiles[k]);
      if length < maximum {
        SeekEnd();
        position := cursor;
        Write(Header(position, recorded, length));
        Write(Padded(text, PadBytes(pad, position, maximum), maximum));
      } else {
        Overwrite(k, Padded(text, PadBytes(pad, offset, length), length));
        position := Unsigned(header[..8]);
      }
    }

    method RestoreString(offset: int) returns (text: Option<seq<byte>>)
      requires Valid() && (offset <= 0 || offset in Contents())
      modifies `cursor
      ensures offset <= 0 ==> text == None
      ensures offset > 0 ==> text == StringAt(bytes, offset) == Terminated(Contents()[offset])
    {
      hide Laid, View, Size, Unsigned, Terminated;
      if offset <= 0 {
        return None;
      }
      ghost var k := RecordOf(tiles, offset);
      FieldsOnDisk(bytes, tiles, k);
      Seek(offset);
      var header := Read(16);
      var buffer := Read(Unsigned(header[12..]));
      text := Terminated(buffer);
    }

    /** Remembers, in the preamble, where the root record is. */
    method SetStart(position: int) returns (code: int)
      requires Valid() && position < LIMIT
      modifies `bytes, `cursor
      ensures Valid() && Contents() == old(Contents())
      ensures code == if position <= 0 then -1 else 0
      ensures position <= 0 ==> bytes == old(bytes)
      ensures position > 0 ==> |bytes| == |old(bytes)| && Unsigned(bytes[8..16]) == position
    {
      hide Laid, Unsigned, Lay, View;
      if position <= 0 {
        return -1;
      }
      Powers();
      UnsignedLay(position, 8);
      Seek(8);
      Write(Lay(position, 8));
      assert bytes[16..] == old(bytes)[16..];
      code := 0;
    }

    method GetStart() returns (position: int)
      requires Valid()
      modifies `cursor
      ensures position == Unsigned(bytes[8..16])
    {
      Seek(8);
      var data := Read(8);
      position := Unsigned(data);
    }
  }
}
