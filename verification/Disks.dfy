/** The store file as its records see it: the payloads by offset, and where the file ends. */
module Disks {
  import opened Text
  import opened Octets
  import opened Stores

  /** Positions stay below this, so that they fit the fields they are kept in. */
  const BOUND := 0x4000_0000_0000_0000

  predicate Position(p: int) { -BOUND < p < BOUND }

  lemma PositionFits(p: int)
    requires Position(p)
    ensures Fits(p, 8)
  {
    assert Power(4) == 0x1_0000_0000;
    assert Power(6) == 0x1_0000_0000_0000;
  }

  datatype Disk = Disk(contents: map<int, seq<byte>>, end: int)

  ghost predicate Sane(d: Disk) {
    0 < d.end && forall o <- d.contents :: 0 < o < d.end
  }

  ghost function DiskIn(file: StoreFile): Disk
    reads file`bytes, file`tiles
  {
    Disk(file.Contents(), |file.bytes|)
  }

  /** store: a record at the end when there is no position yet, otherwise over the record there. */
  function Put(d: Disk, at: int, b: seq<byte>): (Disk, int) {
    if b == [] then (d, -1)
    else if at <= 0 then (Disk(d.contents[d.end := b], d.end + 16 + |b|), d.end)
    else if at !in d.contents || |d.contents[at]| != |b| then (d, -2)
    else (d.(contents := d.contents[at := b]), at)
  }

  /** Writing a payload over itself. */
  lemma SameBytes(file: StoreFile, at: int)
    requires file.Valid() && at in file.Contents()
    ensures at >= 0 && at + 16 <= |file.bytes| && Overlay(file.bytes, at + 16, file.Contents()[at]) == file.bytes
  {
    hide Laid, Size, View, Unsigned;
    var k := RecordOf(file.tiles, at);
    FieldsOnDisk(file.bytes, file.tiles, k);
  }

  /** The store file does what `Put` says. */
  method StoreAt(file: StoreFile, at: int, b: seq<byte>) returns (position: int)
    requires file.Valid() && (at <= 0 || at in file.Contents())
    requires |b| < 0x8000_0000 && |file.bytes| + 16 + |b| < Stores.LIMIT
    modifies file
    ensures file.Valid() && (DiskIn(file), position) == Put(old(DiskIn(file)), at, b)
    ensures at > 0 && old(file.Contents())[at] == b ==> file.bytes == old(file.bytes)
  {
    hide StoreFile.Valid, StoreFile.Contents, Overlay, Record;
    if at > 0 {
      SameBytes(file, at);
    }
    position := file.Store(at, b);
  }

  type Chars = Option<seq<byte>>

  predicate NoZero(t: Chars) { t == None || 0 !in t.value }

  /** What comes back of a string: nothing, when it is too long. */
  function Kept(t: Chars, maximum: nat): Chars {
    if t == None || |t.value| + 1 > maximum then None else t
  }

  /** storeString. The third branch is the one that abandons a shorter record: the new one says the old
      length. */
  function PutText(pad: Padding, d: Disk, at: int, t: Chars, maximum: nat): (Disk, int) {
    if Kept(t, maximum) == None then (d, -1)
    else if at <= 0 then
      var b := Padded(t.value, PadBytes(pad, d.end, maximum), maximum);
      (Disk(d.contents[d.end := b], d.end + 16 + maximum), d.end)
    else if at !in d.contents then (d, -1)
    else if |d.contents[at]| < maximum then
      var b := Padded(t.value, PadBytes(pad, d.end, maximum), maximum);
      (Disk(d.contents[d.end := b[..|d.contents[at]|]], d.end + 16 + maximum), d.end)
    else
      var n := |d.contents[at]|;
      (d.(contents := d.contents[at := Padded(t.value, PadBytes(pad, at, n), n)]), at)
  }

  function GetText(d: Disk, at: int): Chars {
    if at <= 0 || at !in d.contents then None else Terminated(d.contents[at])
  }

  /** The store file does what `PutText` says, as long as it does not abandon a record. */
  method StoreTextAt(file: StoreFile, at: int, t: seq<byte>, maximum: nat, pad: Padding) returns (position: int)
    requires file.Valid() && (at <= 0 || at in file.Contents()) && 0 !in t
    requires maximum < 0x8000_0000 && |file.bytes| + 16 + maximum < Stores.LIMIT
    requires at > 0 ==> maximum <= |file.Contents()[at]|
    modifies file
    ensures file.Valid() && (DiskIn(file), position) == PutText(pad, old(DiskIn(file)), at, Some(t), maximum)
  {
    hide StoreFile.Valid, StoreFile.Contents, Padded, Record;
    ghost var state;
    position, state := file.StoreString(at, t, maximum, pad);
  }
}
