/**
 * Reading a release archive: the record at the end, the directory it points to,
 * and the local headers that points to.
 *
 * Inflating is a parameter, and a name is the bytes that spell it. A read past
 * the end of the buffer throws, which reads here as no value.
 */
module Zip {
  import opened Prelude

  type Byte = b: int | 0 <= b < 256

  const END_OF_CENTRAL_DIRECTORY := 0x06054b50
  const CENTRAL_FILE_HEADER := 0x02014b50
  const LOCAL_FILE_HEADER := 0x04034b50

  datatype Entry = Entry(name: seq<Byte>, mode: int, data: seq<Byte>)

  function U16(b: seq<Byte>, at: int): Option<int> {
    if 0 <= at && at + 2 <= |b| then Some(b[at] as int + 0x100 * b[at + 1] as int) else None
  }

  function U32(b: seq<Byte>, at: int): Option<int> {
    if 0 <= at && at + 4 <= |b| then 
      Some(b[at] as int + 0x100 * b[at + 1] as int + 0x1_0000 * b[at + 2] as int + 0x100_0000 * b[at + 3] as int)
    else None
  }

  // ------------------------------------------------------------- the reader

  /** The latest offset at or before `from`, and not before `floor`, that carries the signature. */
  function ScanBack(b: seq<Byte>, from: int, floor: int): (found: Option<int>)
    ensures found.Some? ==> floor <= found.value <= from && U32(b, found.value) == Some(END_OF_CENTRAL_DIRECTORY)
    ensures found.Some? ==> forall o :: found.value < o <= from ==> U32(b, o) != Some(END_OF_CENTRAL_DIRECTORY)
    ensures found.None? ==> forall o :: floor <= o <= from ==> U32(b, o) != Some(END_OF_CENTRAL_DIRECTORY)
    decreases from - floor
  {
    if from < floor then None
    else if U32(b, from) == Some(END_OF_CENTRAL_DIRECTORY) then Some(from)
    else ScanBack(b, from - 1, floor)
  }

  function Floor(b: seq<Byte>): int {
    Max(0, |b| - 0x1_0000 - 22)
  }

  function FindEnd(b: seq<Byte>): (end: Option<int>)
    ensures end.Some? ==> 0 <= end.value <= |b| - 22
  {
    ScanBack(b, |b| - 22, Floor(b))
  }

  /** `subarray` stops at the end of the buffer. */
  function Sub(b: seq<Byte>, from: int, to: int): seq<Byte>
    requires 0 <= from <= to
  {
    b[Min(from, |b|)..Min(to, |b|)]
  }

  /** The fields of a central header, and where the next one starts. */
  datatype Header = Header(packing: int, size: int, nameLength: int, next: int, attributes: int, localOffset: int)

  function ReadHeader(b: seq<Byte>, at: int): (h: Option<Header>)
    ensures h.Some? ==> 0 <= at && at + 46 <= |b| && h.value.nameLength >= 0 && h.value.size >= 0 && h.value.localOffset >= 0
                        && h.value.next >= at + 46 + h.value.nameLength
  {
    if at + 46 > |b| || U32(b, at) != Some(CENTRAL_FILE_HEADER) then None
    else
      var name, extra, comment := U16(b, at + 28).value, U16(b, at + 30).value, U16(b, at + 32).value;
      Some(Header(U16(b, at + 10).value, U32(b, at + 20).value, name, at + 46 + name + extra + comment,
                  U32(b, at + 38).value, U32(b, at + 42).value))
  }

  function ReadLocal(b: seq<Byte>, at: int, packing: int, size: nat, inflate: seq<Byte> -> Option<seq<Byte>>): Option<seq<Byte>> {
    if U32(b, at) != Some(LOCAL_FILE_HEADER) || U16(b, at + 26).None? || U16(b, at + 28).None? then None
    else
      var start := at + 30 + U16(b, at + 26).value + U16(b, at + 28).value;
      var raw := Sub(b, start, start + size);
      if packing == 0 then Some(raw) else if packing == 8 then inflate(raw) else None
  }

  /** The Unix mode in the upper half of the external attributes. */
  function ModeOf(attributes: int): int {
    attributes / 0x1_0000 % 0x1000
  }

  function ReadEntry(b: seq<Byte>, at: int, inflate: seq<Byte> -> Option<seq<Byte>>): Option<(Entry, int)> {
    var h := ReadHeader(b, at);
    if h.None? then None
    else
      var data := ReadLocal(b, h.value.localOffset, h.value.packing, h.value.size, inflate);
      if data.None? then None
      else
        Some((Entry(Sub(b, at + 46, at + 46 + h.value.nameLength), ModeOf(h.value.attributes), data.value),
              h.value.next))
  }

  type Step = int -> Option<(Entry, int)>

  /** The first `count` entries a reader finds from `at` on, and where it would go on. */
  function Walk(step: Step, at: int, count: nat): Option<(seq<Entry>, int)> {
    if count == 0 then Some(([], at))
    else
      var before := Walk(step, at, count - 1);
      if before.None? then None
      else
        var entry := step(before.value.1);
        if entry.None? then None else Some((before.value.0 + [entry.value.0], entry.value.1))
  }

  function Entries(b: seq<Byte>, inflate: seq<Byte> -> Option<seq<Byte>>): Step {
    at => ReadEntry(b, at, inflate)
  }

  /** The archive's entries, given how one entry is read. */
  function ReadWith(b: seq<Byte>, step: Step): Option<seq<Entry>> {
    var end := FindEnd(b);
    if end.None? then None
    else
      var walked := Walk(step, U32(b, end.value + 16).value, U16(b, end.value + 10).value);
      if walked.None? then None else Some(walked.value.0)
  }

  function ReadZip(b: seq<Byte>, inflate: seq<Byte> -> Option<seq<Byte>>): Option<seq<Entry>> {
    ReadWith(b, Entries(b, inflate))
  }

  /** `findEndOfCentralDirectory` as it scans. */
  method FindEndOfCentralDirectory(b: seq<Byte>) returns (end: Option<int>)
    ensures end.Some? ==>
              && Floor(b) <= end.value <= |b| - 22 && U32(b, end.value) == Some(END_OF_CENTRAL_DIRECTORY)
              && (forall o :: end.value < o <= |b| - 22 ==> U32(b, o) != Some(END_OF_CENTRAL_DIRECTORY))
    ensures end.None? ==> forall o :: Floor(b) <= o <= |b| - 22 ==> U32(b, o) != Some(END_OF_CENTRAL_DIRECTORY)
    ensures end == FindEnd(b)
  {
    var offset := |b| - 22;
    var floor := Floor(b);
    while offset >= floor
      invariant ScanBack(b, offset, floor) == FindEnd(b)
      invariant offset <= |b| - 22 && offset >= Min(floor, |b| - 22) - 1
      invariant forall o :: offset < o <= |b| - 22 ==> U32(b, o) != Some(END_OF_CENTRAL_DIRECTORY)
      decreases offset - floor
    {
      if U32(b, offset) == Some(END_OF_CENTRAL_DIRECTORY) {
        return Some(offset);
      }
      offset := offset - 1;
    }
    end := None;
  }

  /** The directory as it is walked, one header after the other. */
  method ReadDirectory(step: Step, at: int, count: nat) returns (entries: Option<seq<Entry>>)
    ensures entries == var walked := Walk(step, at, count); if walked.None? then None else Some(walked.value.0)
  {
    var offset := at;
    var read: seq<Entry> := [];
    var index := 0;
    while index < count
      invariant 0 <= index <= count
      invariant Walk(step, at, index) == Some((read, offset))
    {
      var entry := step(offset);
      if entry.None? {
        WalkStops(step, at, index + 1, count);
        return None;
      }
      read := read + [entry.value.0];
      offset := entry.value.1;
      index := index + 1;
    }
    entries := Some(read);
  }

  /** `readZip`, given how one entry is read. */
  method Read(b: seq<Byte>, step: Step) returns (entries: Option<seq<Entry>>)
    ensures entries == ReadWith(b, step)
  {
    var end := FindEndOfCentralDirectory(b);
    if end.None? {
      return None;
    }
    entries := ReadDirectory(step, U32(b, end.value + 16).value, U16(b, end.value + 10).value);
  }

  lemma {:induction false} WalkStops(step: Step, at: int, k: nat, count: nat)
    requires k <= count && Walk(step, at, k).None?
    ensures Walk(step, at, count).None?
    decreases count
  {
    if k < count {
      WalkStops(step, at, k, count - 1);
    }
  }

  // ------------------------------------------------------------ the printer

  function Le16(n: int): (b: seq<Byte>)
    requires 0 <= n < 0x1_0000
    ensures |b| == 2
  {
    [n % 0x100, n / 0x100]
  }

  function Le32(n: int): (b: seq<Byte>)
    requires 0 <= n < 0x1_0000_0000
    ensures |b| == 4
  {
    [n % 0x100, n / 0x100 % 0x100, n / 0x1_0000 % 0x100, n / 0x100_0000]
  }

  /**
   * One member of an archive: its packed bytes, what they unpack to, and the fields a reader may
   * ignore. `versions` is the version and flag fields, `stamps` the times and the checksum.
   */
  datatype Member = Member(
    name: seq<Byte>, mode: int, packing: int, packed: seq<Byte>, data: seq<Byte>,
    attributesBelow: int, attributesAbove: int,
    versions: seq<Byte>, stamps: seq<Byte>, unpackedSize: seq<Byte>, disk: seq<Byte>, localFields: seq<Byte>,
    localExtra: seq<Byte>, extra: seq<Byte>, comment: seq<Byte>)

  ghost predicate MemberOk(m: Member, inflate: seq<Byte> -> Option<seq<Byte>>) {
    && |m.name| < 0x1_0000 && |m.localExtra| < 0x1_0000 && |m.extra| < 0x1_0000 && |m.comment| < 0x1_0000
    && |m.packed| < 0x1_0000_0000
    && 0 <= m.mode < 0x1000 && 0 <= m.attributesBelow < 0x1_0000 && 0 <= m.attributesAbove < 0x10
    && |m.versions| == 6 && |m.stamps| == 8 && |m.unpackedSize| == 4 && |m.disk| == 4 && |m.localFields| == 22
    && (m.packing == 0 ==> m.data == m.packed)
    && (m.packing == 8 ==> inflate(m.packed) == Some(m.data))
    && (m.packing == 0 || m.packing == 8)
  }

  /** Section 4.3.7 of APPNOTE: the local header, the name, the extra field and the data. */
  function LocalRecord(m: Member, inflate: seq<Byte> -> Option<seq<Byte>>): seq<Byte>
    requires MemberOk(m, inflate)
  {
    Le32(LOCAL_FILE_HEADER) + m.localFields + Le16(|m.name|) + Le16(|m.localExtra|) + (m.name + m.localExtra + m.packed)
  }

  /** Section 4.3.12: one header of the central directory. */
  function CentralRecord(m: Member, localOffset: int, inflate: seq<Byte> -> Option<seq<Byte>>): seq<Byte>
    requires MemberOk(m, inflate) && 0 <= localOffset < 0x1_0000_0000
  {
    CentralFront(m, inflate) + CentralBack(m, localOffset, inflate)
  }

  function CentralFront(m: Member, inflate: seq<Byte> -> Option<seq<Byte>>): (b: seq<Byte>)
    requires MemberOk(m, inflate)
    ensures |b| == 28
  {
    Le32(CENTRAL_FILE_HEADER) + m.versions + Le16(m.packing) + m.stamps + Le32(|m.packed|) + m.unpackedSize
  }

  function CentralBack(m: Member, localOffset: int, inflate: seq<Byte> -> Option<seq<Byte>>): (b: seq<Byte>)
    requires MemberOk(m, inflate) && 0 <= localOffset < 0x1_0000_0000
    ensures |b| == 18 + |m.name| + |m.extra| + |m.comment|
  {
    Le16(|m.name|) + Le16(|m.extra|) + Le16(|m.comment|) + m.disk
    + Le32(m.attributesBelow + 0x1_0000 * (m.mode + 0x1000 * m.attributesAbove)) + Le32(localOffset)
    + (m.name + m.extra + m.comment)
  }

  /** The record at the end, section 4.3.16; `disks` is the fields before the count. */
  function EndRecord(disks: seq<Byte>, count: int, size: seq<Byte>, directory: int, comment: seq<Byte>): (b: seq<Byte>)
    requires |disks| == 6 && 0 <= count < 0x1_0000 && |size| == 4 && 0 <= directory < 0x1_0000_0000 && |comment| < 0x1_0000
    ensures |b| == 22 + |comment|
  {
    Le32(END_OF_CENTRAL_DIRECTORY) + disks + Le16(count) + size + Le32(directory) + Le16(|comment|) + comment
  }

  /** The local records of the first `count` members. */
  function Locals(members: seq<Member>, count: nat, inflate: seq<Byte> -> Option<seq<Byte>>): seq<Byte>
    requires count <= |members| && forall i :: 0 <= i < |members| ==> MemberOk(members[i], inflate)
  {
    if count == 0 then [] else Locals(members, count - 1, inflate) + LocalRecord(members[count - 1], inflate)
  }

  /** Where a member's local header goes, behind `stub` other bytes. */
  function LocalAt(stub: nat, members: seq<Member>, i: nat, inflate: seq<Byte> -> Option<seq<Byte>>): nat
    requires i <= |members| && forall k :: 0 <= k < |members| ==> MemberOk(members[k], inflate)
  {
    stub + |Locals(members, i, inflate)|
  }

  /** The headers of the first `count` members. */
  function Directory(stub: nat, members: seq<Member>, count: nat, inflate: seq<Byte> -> Option<seq<Byte>>): seq<Byte>
    requires count <= |members| && (forall k :: 0 <= k < |members| ==> MemberOk(members[k], inflate))
    requires forall k :: 0 <= k < |members| ==> LocalAt(stub, members, k, inflate) < 0x1_0000_0000
  {
    if count == 0 then []
    else
      Directory(stub, members, count - 1, inflate)
      + CentralRecord(members[count - 1], LocalAt(stub, members, count - 1, inflate), inflate)
  }

  datatype Archive = Archive(stub: seq<Byte>, members: seq<Member>, disks: seq<Byte>, size: seq<Byte>, comment: seq<Byte>)

  ghost predicate ArchiveOk(a: Archive, inflate: seq<Byte> -> Option<seq<Byte>>) {
    && |a.members| < 0x1_0000 && |a.disks| == 6 && |a.size| == 4 && |a.comment| < 0x1_0000
    && (forall k :: 0 <= k < |a.members| ==> MemberOk(a.members[k], inflate))
    && LocalAt(|a.stub|, a.members, |a.members|, inflate) < 0x1_0000_0000
    && (forall k :: 0 <= k < |a.members| ==> LocalAt(|a.stub|, a.members, k, inflate) < 0x1_0000_0000)
  }

  /** Everything in front of the end record. */
  function Body(a: Archive, inflate: seq<Byte> -> Option<seq<Byte>>): seq<Byte>
    requires ArchiveOk(a, inflate)
  {
    a.stub + Locals(a.members, |a.members|, inflate) + Directory(|a.stub|, a.members, |a.members|, inflate)
  }

  function Print(a: Archive, inflate: seq<Byte> -> Option<seq<Byte>>): seq<Byte>
    requires ArchiveOk(a, inflate)
  {
    Body(a, inflate)
    + EndRecord(a.disks, |a.members|, a.size, LocalAt(|a.stub|, a.members, |a.members|, inflate), a.comment)
  }

  // ------------------------------------------------------------- the layout

  /** `part` lies in `b` at `at`. */
  ghost predicate Lies(b: seq<Byte>, at: int, part: seq<Byte>) {
    0 <= at && at + |part| <= |b| && b[at..at + |part|] == part
  }

  /**
   * Where an archive's records lie: each member's local record and its header, the headers one behind
   * the other, and the end record last. What lies between the local records is anybody's.
   */
  datatype Layout = Layout(members: seq<Member>, locals: seq<int>, headers: seq<int>, end: int,
                           disks: seq<Byte>, size: seq<Byte>, comment: seq<Byte>)

  ghost predicate MemberLies(b: seq<Byte>, m: Member, local: int, header: int, next: int, inflate: seq<Byte> -> Option<seq<Byte>>) {
    && MemberOk(m, inflate) && 0 <= local < 0x1_0000_0000
    && Lies(b, local, LocalRecord(m, inflate))
    && Lies(b, header, CentralRecord(m, local, inflate)) && next == header + |CentralRecord(m, local, inflate)|
  }

  ghost predicate LaidOut(b: seq<Byte>, l: Layout, inflate: seq<Byte> -> Option<seq<Byte>>) {
    && |l.members| < 0x1_0000 && |l.locals| == |l.members| && |l.headers| == |l.members| + 1
    && |l.disks| == 6 && |l.size| == 4 && |l.comment| < 0x1_0000 && 0 <= l.headers[0] < 0x1_0000_0000
    && (forall i :: 0 <= i < |l.members| ==> MemberLies(b, l.members[i], l.locals[i], l.headers[i], l.headers[i + 1], inflate))
    && Lies(b, l.end, EndRecord(l.disks, |l.members|, l.size, l.headers[0], l.comment))
    && |b| == l.end + 22 + |l.comment|
  }

  function EntryOf(m: Member): Entry {
    Entry(m.name, m.mode, m.data)
  }

  /** Where the printer puts them. */
  ghost function LayoutOf(a: Archive, inflate: seq<Byte> -> Option<seq<Byte>>): Layout
    requires ArchiveOk(a, inflate)
  {
    var n := |a.members|;
    Layout(a.members,
           seq(n, i requires 0 <= i < n => LocalAt(|a.stub|, a.members, i, inflate)),
           seq(n + 1, i requires 0 <= i < n + 1 =>
             LocalAt(|a.stub|, a.members, n, inflate) + |Directory(|a.stub|, a.members, i, inflate)|),
           |Body(a, inflate)|, a.disks, a.size, a.comment)
  }

  function EntriesOf(members: seq<Member>): seq<Entry> {
    seq(|members|, i requires 0 <= i < |members| => EntryOf(members[i]))
  }
}
