/** Reading what was printed: every member, in order, whatever lies around it. */
module ZipProofs {
  import opened Prelude
  import opened Zip

  type Inflate = seq<Byte> -> Option<seq<Byte>>

  // -------------------------------------------------------- numbers in place

  lemma Reads16(pre: seq<Byte>, n: int, post: seq<Byte>)
    requires 0 <= n < 0x1_0000
    ensures U16(pre + Le16(n) + post, |pre|) == Some(n)
  {
  }

  lemma Reads32(pre: seq<Byte>, n: int, post: seq<Byte>)
    requires 0 <= n < 0x1_0000_0000
    ensures U32(pre + Le32(n) + post, |pre|) == Some(n)
  {
    FourBytes(pre, Le32(n), post);
    Le32Value(n);
  }

  lemma FourBytes(pre: seq<Byte>, four: seq<Byte>, post: seq<Byte>)
    requires |four| == 4
    ensures U32(pre + four + post, |pre|) == U32(four, 0)
  {
  }

  lemma Le32Value(n: int)
    requires 0 <= n < 0x1_0000_0000
    ensures U32(Le32(n), 0) == Some(n)
  {
    var low := n / 0x100;
    assert n == n % 0x100 + 0x100 * low;
    assert low == low % 0x100 + 0x100 * (n / 0x1_0000);
    assert n / 0x1_0000 == n / 0x1_0000 % 0x100 + 0x100 * (n / 0x100_0000);
  }

  lemma LiesAt(pre: seq<Byte>, part: seq<Byte>, post: seq<Byte>)
    ensures Lies(pre + part + post, |pre|, part)
  {
  }

  /** A part of a part. */
  lemma LiesWithin(b: seq<Byte>, at: int, part: seq<Byte>, inner: int, piece: seq<Byte>)
    requires Lies(b, at, part) && Lies(part, inner, piece)
    ensures Lies(b, at + inner, piece)
  {
    forall k | 0 <= k < |piece| ensures b[at + inner..at + inner + |piece|][k] == piece[k] {
      assert b[at..at + |part|][inner + k] == part[inner..inner + |piece|][k];
    }
  }

  lemma LiesReads(b: seq<Byte>, at: int, part: seq<Byte>, inner: nat)
    requires Lies(b, at, part)
    ensures inner + 2 <= |part| ==> U16(b, at + inner) == U16(part, inner)
    ensures inner + 4 <= |part| ==> U32(b, at + inner) == U32(part, inner)
  {
  }

  // ------------------------------------------------------------- the records

  lemma FrontReads(m: Member, inflate: Inflate)
    requires MemberOk(m, inflate)
    ensures var b := CentralFront(m, inflate);
            U32(b, 0) == Some(CENTRAL_FILE_HEADER) && U16(b, 10) == Some(m.packing) && U32(b, 20) == Some(|m.packed|)
  {
    var b := CentralFront(m, inflate);
    var sig, pack, size := Le32(CENTRAL_FILE_HEADER), Le16(m.packing), Le32(|m.packed|);
    Reads32([], CENTRAL_FILE_HEADER, m.versions + pack + m.stamps + size + m.unpackedSize);
    assert b == [] + sig + (m.versions + pack + m.stamps + size + m.unpackedSize);
    Reads16(sig + m.versions, m.packing, m.stamps + size + m.unpackedSize);
    assert b == (sig + m.versions) + pack + (m.stamps + size + m.unpackedSize);
    Reads32(sig + m.versions + pack + m.stamps, |m.packed|, m.unpackedSize);
    assert b == (sig + m.versions + pack + m.stamps) + size + m.unpackedSize;
  }

  function Attributes(m: Member): int {
    m.attributesBelow + 0x1_0000 * (m.mode + 0x1000 * m.attributesAbove)
  }

  lemma BackLengths(m: Member, localOffset: int, inflate: Inflate)
    requires MemberOk(m, inflate) && 0 <= localOffset < 0x1_0000_0000
    ensures var b := CentralBack(m, localOffset, inflate);
            U16(b, 0) == Some(|m.name|) && U16(b, 2) == Some(|m.extra|) && U16(b, 4) == Some(|m.comment|)
  {
  }

  lemma BackReads(m: Member, localOffset: int, inflate: Inflate)
    requires MemberOk(m, inflate) && 0 <= localOffset < 0x1_0000_0000
    ensures var b := CentralBack(m, localOffset, inflate);
            U32(b, 10) == Some(Attributes(m)) && U32(b, 14) == Some(localOffset) && Lies(b, 18, m.name)
  {
    var b := CentralBack(m, localOffset, inflate);
    var front := Le16(|m.name|) + Le16(|m.extra|) + Le16(|m.comment|) + m.disk;
    var attributes, offset := Le32(Attributes(m)), Le32(localOffset);
    assert b == front + attributes + offset + (m.name + m.extra + m.comment);
    Reads32(front, Attributes(m), offset + (m.name + m.extra + m.comment));
    assert b == front + attributes + (offset + (m.name + m.extra + m.comment));
    Reads32(front + attributes, localOffset, m.name + m.extra + m.comment);
    LiesAt(front + attributes + offset, m.name, m.extra + m.comment);
    assert b == (front + attributes + offset) + m.name + (m.extra + m.comment);
  }

  lemma LocalReads(m: Member, inflate: Inflate)
    requires MemberOk(m, inflate)
    ensures var b := LocalRecord(m, inflate);
            && U32(b, 0) == Some(LOCAL_FILE_HEADER) && U16(b, 26) == Some(|m.name|) && U16(b, 28) == Some(|m.localExtra|)
            && Lies(b, 30 + |m.name| + |m.localExtra|, m.packed)
  {
  }

  // ------------------------------------------------------------ one member

  /** A header's two halves lie where they belong. */
  lemma HalvesLie(b: seq<Byte>, at: int, front: seq<Byte>, back: seq<Byte>)
    requires Lies(b, at, front + back)
    ensures Lies(b, at, front) && Lies(b, at + |front|, back)
  {
    assert front + back == [] + front + back && front + back == front + back + [];
    LiesAt([], front, back);
    LiesAt(front, back, []);
    LiesWithin(b, at, front + back, 0, front);
    LiesWithin(b, at, front + back, |front|, back);
  }

  lemma HeaderIsRead(b: seq<Byte>, at: int, m: Member, localOffset: int, inflate: Inflate)
    requires MemberOk(m, inflate) && 0 <= localOffset < 0x1_0000_0000 && Lies(b, at, CentralRecord(m, localOffset, inflate))
    ensures ReadHeader(b, at) == Some(Header(m.packing, |m.packed|, |m.name|, at + |CentralRecord(m, localOffset, inflate)|,
                                             Attributes(m), localOffset))
    ensures Lies(b, at + 46, m.name)
  {
    var front, back := CentralFront(m, inflate), CentralBack(m, localOffset, inflate);
    HalvesLie(b, at, front, back);
    HalvesAreRead(b, at, m, localOffset, inflate);
    BackReads(m, localOffset, inflate);
    LiesWithin(b, at + 28, back, 18, m.name);
  }

  lemma HalvesAreRead(b: seq<Byte>, at: int, m: Member, localOffset: int, inflate: Inflate)
    requires MemberOk(m, inflate) && 0 <= localOffset < 0x1_0000_0000
    requires Lies(b, at, CentralFront(m, inflate)) && Lies(b, at + 28, CentralBack(m, localOffset, inflate))
    ensures ReadHeader(b, at) == Some(Header(m.packing, |m.packed|, |m.name|, at + 46 + |m.name| + |m.extra| + |m.comment|,
                                             Attributes(m), localOffset))
  {
    FrontReads(m, inflate);
    BackLengths(m, localOffset, inflate);
    BackReads(m, localOffset, inflate);
    FieldsInPlace(b, at, CentralFront(m, inflate), CentralBack(m, localOffset, inflate));
  }

  lemma FieldsInPlace(b: seq<Byte>, at: int, front: seq<Byte>, back: seq<Byte>)
    requires Lies(b, at, front) && Lies(b, at + 28, back) && |front| == 28 && |back| >= 18
    ensures U32(b, at) == U32(front, 0) && U16(b, at + 10) == U16(front, 10) && U32(b, at + 20) == U32(front, 20)
    ensures U16(b, at + 28) == U16(back, 0) && U16(b, at + 30) == U16(back, 2) && U16(b, at + 32) == U16(back, 4)
    ensures U32(b, at + 38) == U32(back, 10) && U32(b, at + 42) == U32(back, 14)
  {
  }

  lemma LocalFrom(b: seq<Byte>, at: int, name: nat, extra: nat, m: Member, inflate: Inflate)
    requires U32(b, at) == Some(LOCAL_FILE_HEADER) && U16(b, at + 26) == Some(name) && U16(b, at + 28) == Some(extra)
    requires Sub(b, at + 30 + name + extra, at + 30 + name + extra + |m.packed|) == m.packed && MemberOk(m, inflate)
    ensures ReadLocal(b, at, m.packing, |m.packed|, inflate) == Some(m.data)
  {
  }

  lemma DataIsRead(b: seq<Byte>, at: int, m: Member, inflate: Inflate)
    requires MemberOk(m, inflate) && Lies(b, at, LocalRecord(m, inflate))
    ensures ReadLocal(b, at, m.packing, |m.packed|, inflate) == Some(m.data)
  {
    var record, inner := LocalRecord(m, inflate), 30 + |m.name| + |m.localExtra|;
    LocalReads(m, inflate);
    LocalFieldsRead(b, at, record);
    LiesWithin(b, at, record, inner, m.packed);
    NameIsRead(b, at + inner, m.packed);
    LocalFrom(b, at, |m.name|, |m.localExtra|, m, inflate);
  }

  lemma LocalFieldsRead(b: seq<Byte>, at: int, record: seq<Byte>)
    requires Lies(b, at, record) && |record| >= 30
    ensures U32(b, at) == U32(record, 0) && U16(b, at + 26) == U16(record, 26) && U16(b, at + 28) == U16(record, 28)
  {
    LiesReads(b, at, record, 0);
    LiesReads(b, at, record, 26);
    LiesReads(b, at, record, 28);
  }

  lemma EntryFrom(b: seq<Byte>, at: int, h: Header, data: seq<Byte>, inflate: Inflate)
    requires ReadHeader(b, at) == Some(h) && ReadLocal(b, h.localOffset, h.packing, h.size, inflate) == Some(data)
    ensures ReadEntry(b, at, inflate) ==
            Some((Entry(Sub(b, at + 46, at + 46 + h.nameLength), ModeOf(h.attributes), data), h.next))
  {
  }

  lemma NameIsRead(b: seq<Byte>, at: int, name: seq<Byte>)
    requires Lies(b, at, name)
    ensures Sub(b, at, at + |name|) == name
  {
  }

  lemma EntryOfHeader(b: seq<Byte>, at: int, m: Member, next: int, localOffset: int, inflate: Inflate)
    requires MemberOk(m, inflate) && Lies(b, at + 46, m.name)
    requires ReadHeader(b, at) == Some(Header(m.packing, |m.packed|, |m.name|, next, Attributes(m), localOffset))
    requires ReadLocal(b, localOffset, m.packing, |m.packed|, inflate) == Some(m.data)
    ensures ReadEntry(b, at, inflate) == Some((EntryOf(m), next))
  {
    EntryFrom(b, at, Header(m.packing, |m.packed|, |m.name|, next, Attributes(m), localOffset), m.data, inflate);
    ModeSurvives(m.attributesBelow, m.mode, m.attributesAbove);
    NameIsRead(b, at + 46, m.name);
  }

  lemma EntryIsRead(b: seq<Byte>, at: int, m: Member, localOffset: int, next: int, inflate: Inflate)
    requires MemberLies(b, m, localOffset, at, next, inflate)
    ensures ReadEntry(b, at, inflate) == Some((EntryOf(m), next))
  {
    MemberHeader(b, at, m, localOffset, next, inflate);
    MemberData(b, at, m, localOffset, next, inflate);
    EntryOfHeader(b, at, m, next, localOffset, inflate);
  }

  lemma MemberHeader(b: seq<Byte>, at: int, m: Member, localOffset: int, next: int, inflate: Inflate)
    requires MemberLies(b, m, localOffset, at, next, inflate)
    ensures ReadHeader(b, at) == Some(Header(m.packing, |m.packed|, |m.name|, next, Attributes(m), localOffset))
    ensures Lies(b, at + 46, m.name)
  {
    HeaderIsRead(b, at, m, localOffset, inflate);
  }

  lemma MemberData(b: seq<Byte>, at: int, m: Member, localOffset: int, next: int, inflate: Inflate)
    requires MemberLies(b, m, localOffset, at, next, inflate)
    ensures ReadLocal(b, localOffset, m.packing, |m.packed|, inflate) == Some(m.data)
  {
    DataIsRead(b, localOffset, m, inflate);
  }

  lemma ModeSurvives(below: int, mode: int, above: int)
    requires 0 <= below < 0x1_0000 && 0 <= mode < 0x1000 && 0 <= above
    ensures ModeOf(below + 0x1_0000 * (mode + 0x1000 * above)) == mode
  {
  }

  // ----------------------------------------------------------- the archive

  /** The reader finds these entries at these offsets, one behind the other. */
  ghost predicate StepsAlong(step: Step, offsets: seq<int>, entries: seq<Entry>) {
    && |offsets| == |entries| + 1
    && forall i :: 0 <= i < |entries| ==> step(offsets[i]) == Some((entries[i], offsets[i + 1]))
  }

  lemma {:induction false} WalkAlong(step: Step, offsets: seq<int>, entries: seq<Entry>, count: nat)
    requires count <= |entries| && StepsAlong(step, offsets, entries)
    ensures Walk(step, offsets[0], count) == Some((entries[..count], offsets[count]))
  {
    if count > 0 {
      WalkAlong(step, offsets, entries, count - 1);
      assert entries[..count] == entries[..count - 1] + [entries[count - 1]];
    }
  }

  lemma StepReads(b: seq<Byte>, m: Member, local: int, header: int, next: int, inflate: Inflate)
    requires MemberLies(b, m, local, header, next, inflate)
    ensures Entries(b, inflate)(header) == Some((EntryOf(m), next))
  {
    EntryIsRead(b, header, m, local, next, inflate);
  }

  lemma StepsRead(b: seq<Byte>, l: Layout, step: Step, inflate: Inflate)
    requires LaidOut(b, l, inflate) && step == Entries(b, inflate)
    ensures StepsAlong(step, l.headers, EntriesOf(l.members))
  {
    forall i | 0 <= i < |l.members| ensures step(l.headers[i]) == Some((EntryOf(l.members[i]), l.headers[i + 1])) {
      StepReads(b, l.members[i], l.locals[i], l.headers[i], l.headers[i + 1], inflate);
    }
  }

  lemma EndFields(disks: seq<Byte>, count: int, size: seq<Byte>, directory: int, comment: seq<Byte>)
    requires |disks| == 6 && 0 <= count < 0x1_0000 && |size| == 4 && 0 <= directory < 0x1_0000_0000 && |comment| < 0x1_0000
    ensures var b := EndRecord(disks, count, size, directory, comment);
            U32(b, 0) == Some(END_OF_CENTRAL_DIRECTORY) && U16(b, 10) == Some(count) && U32(b, 16) == Some(directory)
  {
    var b := EndRecord(disks, count, size, directory, comment);
    var sig, n, d, l := Le32(END_OF_CENTRAL_DIRECTORY), Le16(count), Le32(directory), Le16(|comment|);
    Reads32([], END_OF_CENTRAL_DIRECTORY, disks + n + size + d + l + comment);
    assert b == [] + sig + (disks + n + size + d + l + comment);
    Reads16(sig + disks, count, size + d + l + comment);
    assert b == (sig + disks) + n + (size + d + l + comment);
    Reads32(sig + disks + n + size, directory, l + comment);
    assert b == (sig + disks + n + size) + d + (l + comment);
  }

  lemma EndReads(b: seq<Byte>, l: Layout, inflate: Inflate)
    requires LaidOut(b, l, inflate)
    ensures U32(b, l.end) == Some(END_OF_CENTRAL_DIRECTORY) && U16(b, l.end + 10) == Some(|l.members|)
    ensures U32(b, l.end + 16) == Some(l.headers[0])
  {
    var record := EndRecord(l.disks, |l.members|, l.size, l.headers[0], l.comment);
    EndFields(l.disks, |l.members|, l.size, l.headers[0], l.comment);
    LiesReads(b, l.end, record, 0);
    LiesReads(b, l.end, record, 10);
    LiesReads(b, l.end, record, 16);
  }

  /** Nothing behind the true end record looks like the start of one. */
  ghost predicate NoLaterSignature(b: seq<Byte>, end: int) {
    forall o :: end < o <= |b| - 22 ==> U32(b, o) != Some(END_OF_CENTRAL_DIRECTORY)
  }

  /** The backward scan finds the true end record exactly when nothing behind it carries its signature. */
  lemma TheScanFindsTheEnd(b: seq<Byte>, l: Layout, inflate: Inflate)
    requires LaidOut(b, l, inflate)
    ensures FindEnd(b) == Some(l.end) <==> NoLaterSignature(b, l.end)
  {
    EndReads(b, l, inflate);
  }

  lemma ReadsAlong(b: seq<Byte>, step: Step, end: int, offsets: seq<int>, entries: seq<Entry>)
    requires StepsAlong(step, offsets, entries)
    requires FindEnd(b) == Some(end) && U32(b, end + 16) == Some(offsets[0]) && U16(b, end + 10) == Some(|entries|)
    ensures ReadWith(b, step) == Some(entries)
  {
    WalkAlong(step, offsets, entries, |entries|);
    assert entries[..|entries|] == entries;
  }

  /**
   * Any archive laid out as the format says reads back as exactly its members, in order, provided no
   * later bytes pass for an end record: stored or deflated, with any extra fields and comments, and
   * with anything in front of and between the local records.
   */
  lemma ReadingAnArchive(b: seq<Byte>, l: Layout, inflate: Inflate)
    requires LaidOut(b, l, inflate) && NoLaterSignature(b, l.end)
    ensures ReadZip(b, inflate) == Some(EntriesOf(l.members))
  {
    ArchiveWith(b, l, Entries(b, inflate), inflate);
  }

  lemma ArchiveWith(b: seq<Byte>, l: Layout, step: Step, inflate: Inflate)
    requires LaidOut(b, l, inflate) && NoLaterSignature(b, l.end) && step == Entries(b, inflate)
    ensures ReadWith(b, step) == Some(EntriesOf(l.members))
  {
    EndReads(b, l, inflate);
    TheScanFindsTheEnd(b, l, inflate);
    StepsRead(b, l, step, inflate);
    ReadsAlong(b, step, l.end, l.headers, EntriesOf(l.members));
  }

  // ------------------------------------------------------------ the printer

  lemma {:induction false} LocalLies(members: seq<Member>, i: nat, count: nat, inflate: Inflate)
    requires i < count <= |members| && forall k :: 0 <= k < |members| ==> MemberOk(members[k], inflate)
    ensures Lies(Locals(members, count, inflate), |Locals(members, i, inflate)|, LocalRecord(members[i], inflate))
    decreases count
  {
    var before, last := Locals(members, count - 1, inflate), LocalRecord(members[count - 1], inflate);
    if i == count - 1 {
      LiesLast(before, last);
    } else {
      LocalLies(members, i, count - 1, inflate);
      LiesInFront(before, last, |Locals(members, i, inflate)|, LocalRecord(members[i], inflate));
    }
  }

  lemma LiesLast(before: seq<Byte>, last: seq<Byte>)
    ensures Lies(before + last, |before|, last)
  {
  }

  lemma LiesInFront(before: seq<Byte>, last: seq<Byte>, at: int, part: seq<Byte>)
    requires Lies(before, at, part)
    ensures Lies(before + last, at, part)
  {
  }

  /** Parts put one behind the other: each lies where what is in front of it ends. */
  lemma {:induction false} ChainLies(upto: nat -> seq<Byte>, part: nat -> seq<Byte>, i: nat, n: nat)
    requires i < n && forall k :: 0 <= k < n ==> upto(k + 1) == upto(k) + part(k)
    ensures Lies(upto(n), |upto(i)|, part(i))
    decreases n
  {
    var before, last := upto(n - 1), part(n - 1);
    if i == n - 1 {
      LiesLast(before, last);
    } else {
      ChainLies(upto, part, i, n - 1);
      LiesInFront(before, last, |upto(i)|, part(i));
    }
    assert upto(n - 1 + 1) == before + last;
  }

  ghost function Upto(stub: nat, members: seq<Member>, inflate: Inflate): nat -> seq<Byte>
    requires forall k :: 0 <= k < |members| ==> MemberOk(members[k], inflate)
    requires forall k :: 0 <= k < |members| ==> LocalAt(stub, members, k, inflate) < 0x1_0000_0000
  {
    (i: nat) => if i <= |members| then Directory(stub, members, i, inflate) else []
  }

  ghost function HeaderPart(stub: nat, members: seq<Member>, inflate: Inflate): nat -> seq<Byte>
    requires forall k :: 0 <= k < |members| ==> MemberOk(members[k], inflate)
    requires forall k :: 0 <= k < |members| ==> LocalAt(stub, members, k, inflate) < 0x1_0000_0000
  {
    (i: nat) => if i < |members| then CentralRecord(members[i], LocalAt(stub, members, i, inflate), inflate) else []
  }

  lemma DirectoryGrows(stub: nat, members: seq<Member>, i: nat, inflate: Inflate)
    requires i < |members| && (forall k :: 0 <= k < |members| ==> MemberOk(members[k], inflate))
    requires forall k :: 0 <= k < |members| ==> LocalAt(stub, members, k, inflate) < 0x1_0000_0000
    ensures Upto(stub, members, inflate)(i + 1) == Upto(stub, members, inflate)(i) + HeaderPart(stub, members, inflate)(i)
  {
  }

  lemma HeaderLies(stub: nat, members: seq<Member>, i: nat, count: nat, inflate: Inflate)
    requires i < count <= |members| && (forall k :: 0 <= k < |members| ==> MemberOk(members[k], inflate))
    requires forall k :: 0 <= k < |members| ==> LocalAt(stub, members, k, inflate) < 0x1_0000_0000
    ensures Lies(Directory(stub, members, count, inflate), |Directory(stub, members, i, inflate)|,
                 CentralRecord(members[i], LocalAt(stub, members, i, inflate), inflate))
  {
    var upto, part := Upto(stub, members, inflate), HeaderPart(stub, members, inflate);
    forall k | 0 <= k < count ensures upto(k + 1) == upto(k) + part(k) {
      DirectoryGrows(stub, members, k, inflate);
    }
    ChainLies(upto, part, i, count);
  }

  lemma FourParts(stub: seq<Byte>, locals: seq<Byte>, directory: seq<Byte>, end: seq<Byte>)
    ensures var b := stub + locals + directory + end;
            && Lies(b, |stub|, locals) && Lies(b, |stub| + |locals|, directory)
            && Lies(b, |stub + locals + directory|, end)
  {
  }

  lemma LiesInSecond(stub: seq<Byte>, locals: seq<Byte>, directory: seq<Byte>, end: seq<Byte>, at: int, part: seq<Byte>)
    requires Lies(locals, at, part)
    ensures Lies(stub + locals + directory + end, |stub| + at, part)
  {
    FourParts(stub, locals, directory, end);
    LiesWithin(stub + locals + directory + end, |stub|, locals, at, part);
  }

  lemma PrintedLocalLies(a: Archive, i: nat, inflate: Inflate)
    requires ArchiveOk(a, inflate) && i < |a.members|
    ensures Lies(Print(a, inflate), LocalAt(|a.stub|, a.members, i, inflate), LocalRecord(a.members[i], inflate))
  {
    var n := |a.members|;
    LocalLies(a.members, i, n, inflate);
    LiesInSecond(a.stub, Locals(a.members, n, inflate), Directory(|a.stub|, a.members, n, inflate),
                 EndRecord(a.disks, n, a.size, LocalAt(|a.stub|, a.members, n, inflate), a.comment),
                 |Locals(a.members, i, inflate)|, LocalRecord(a.members[i], inflate));
  }

  lemma PrintedHeaderLies(a: Archive, i: nat, inflate: Inflate)
    requires ArchiveOk(a, inflate) && i < |a.members|
    ensures Lies(Print(a, inflate), LayoutOf(a, inflate).headers[i],
                 CentralRecord(a.members[i], LocalAt(|a.stub|, a.members, i, inflate), inflate))
  {
    var n := |a.members|;
    var locals, directory := Locals(a.members, n, inflate), Directory(|a.stub|, a.members, n, inflate);
    HeaderLies(|a.stub|, a.members, i, n, inflate);
    LiesInThird(a.stub, locals, directory, EndRecord(a.disks, n, a.size, LocalAt(|a.stub|, a.members, n, inflate), a.comment),
                |Directory(|a.stub|, a.members, i, inflate)|,
                CentralRecord(a.members[i], LocalAt(|a.stub|, a.members, i, inflate), inflate));
  }

  lemma LiesInThird(stub: seq<Byte>, locals: seq<Byte>, directory: seq<Byte>, end: seq<Byte>, at: int, part: seq<Byte>)
    requires Lies(directory, at, part)
    ensures Lies(stub + locals + directory + end, |stub| + |locals| + at, part)
  {
    FourParts(stub, locals, directory, end);
    LiesWithin(stub + locals + directory + end, |stub| + |locals|, directory, at, part);
  }

  lemma PrintedMemberLies(a: Archive, i: nat, inflate: Inflate)
    requires ArchiveOk(a, inflate) && i < |a.members|
    ensures var l := LayoutOf(a, inflate);
            MemberLies(Print(a, inflate), a.members[i], l.locals[i], l.headers[i], l.headers[i + 1], inflate)
  {
    PrintedLocalLies(a, i, inflate);
    PrintedHeaderLies(a, i, inflate);
  }

  lemma PrintedEndLies(a: Archive, inflate: Inflate)
    requires ArchiveOk(a, inflate)
    ensures var end := EndRecord(a.disks, |a.members|, a.size, LocalAt(|a.stub|, a.members, |a.members|, inflate), a.comment);
            Lies(Print(a, inflate), |Body(a, inflate)|, end) && |Print(a, inflate)| == |Body(a, inflate)| + |end|
  {
    LiesLast(Body(a, inflate),
             EndRecord(a.disks, |a.members|, a.size, LocalAt(|a.stub|, a.members, |a.members|, inflate), a.comment));
  }

  /** What the printer writes is laid out as the format says. */
  lemma PrintingLaysOut(a: Archive, inflate: Inflate)
    requires ArchiveOk(a, inflate)
    ensures LaidOut(Print(a, inflate), LayoutOf(a, inflate), inflate) && LayoutOf(a, inflate).members == a.members
  {
    var l := LayoutOf(a, inflate);
    forall i | 0 <= i < |a.members|
      ensures MemberLies(Print(a, inflate), l.members[i], l.locals[i], l.headers[i], l.headers[i + 1], inflate)
    {
      PrintedMemberLies(a, i, inflate);
    }
    PrintedEndLies(a, inflate);
    assert l.headers[0] == LocalAt(|a.stub|, a.members, |a.members|, inflate);
  }
}
