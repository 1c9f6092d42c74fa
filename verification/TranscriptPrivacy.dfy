/** Whose bytes a row's readers see: exactly when a private transcript is shared, and when a write outlives its own eviction. */
module TranscriptPrivacy {
  import opened Prelude
  import opened TranscriptStore
  import opened TranscriptProofs
  import opened TranscriptHits

  // --------------------------------------------------- one session's row

  lemma HeldSplits(first: IndexRow, rest: seq<IndexRow>, id: string)
    ensures Held([first] + rest, id) == if first.sessionId == id then Some(first) else Held(rest, id)
  {
    assert ([first] + rest)[1..] == rest;
  }

  lemma {:induction false} SetRowHeld(rows: seq<IndexRow>, row: IndexRow, id: string)
    ensures Held(SetRow(rows, row), id) == if id == row.sessionId then Some(row) else Held(rows, id)
  {
    if rows != [] {
      SetRowHeld(rows[1..], row, id);
      HeldSplits(row, rows[1..], id);
      HeldSplits(rows[0], SetRow(rows[1..], row), id);
    }
  }

  lemma {:induction false} WithoutHeld(rows: seq<IndexRow>, gone: string, id: string)
    ensures Held(Without(rows, gone), id) == if id == gone then None else Held(rows, id)
  {
    if rows != [] {
      var rest := Without(rows[1..], gone);
      WithoutHeld(rows[1..], gone, id);
      if rows[0].sessionId == gone {
        assert Without(rows, gone) == rest;
      } else {
        assert Without(rows, gone) == [rows[0]] + rest;
        HeldSplits(rows[0], rest, id);
      }
    }
  }

  /** What a row says of its session, its owner and its bot aside from when it was read. */
  ghost predicate SameReaders(before: Option<IndexRow>, after: Option<IndexRow>) {
    && (before.Some? <==> after.Some?)
    && (before.Some? ==> before.value.owner == after.value.owner && before.value.bot == after.value.bot)
  }

  lemma {:induction false} TouchHeld(rows: seq<IndexRow>, touched: string, now: int, id: string)
    ensures SameReaders(Held(rows, id), Held(Touch(rows, touched, now), id))
  {
    if rows != [] {
      TouchHeld(rows[1..], touched, now, id);
      assert Touch(rows, touched, now)[1..] == Touch(rows[1..], touched, now);
    }
  }

  lemma {:induction false} DropWhileOverHeld(c: Cache, order: seq<IndexRow>, id: string)
    ensures var after := Held(DropWhileOver(c, order).rows, id); after.Some? ==> after == Held(c.rows, id)
    decreases |order|
  {
    if order != [] && c.bytes > c.maxBytes && |c.rows| > 1 {
      DropWhileOverHeld(Drop(c, order[0]), order[1..], id);
      WithoutHeld(c.rows, order[0].sessionId, id);
    }
  }

  lemma {:induction false} DropStaleHeld(c: Cache, rows: seq<IndexRow>, cutoff: int, id: string)
    ensures var after := Held(DropStale(c, rows, cutoff).rows, id); after.Some? ==> after == Held(c.rows, id)
    decreases |rows|
  {
    if rows != [] {
      DropStaleHeld(if rows[0].readAt <= cutoff then Drop(c, rows[0]) else c, rows[1..], cutoff, id);
      WithoutHeld(c.rows, rows[0].sessionId, id);
    }
  }

  /** A write of this session that is stored. */
  predicate StoresTo(maxBytes: int, e: Event, id: string) {
    e.Put? && e.written && Stores(maxBytes, e.entry) && e.entry.sessionId == id
  }

  lemma PutHeld(c: Cache, e: Event, id: string)
    requires e.Put? && e.written && Stores(c.maxBytes, e.entry)
    ensures var after := Held(Step(c, e).rows, id);
            after.Some? ==>
              after == if e.entry.sessionId == id then Some(RowFor(Held(c.rows, id), e.entry, e.size, e.now)) else Held(c.rows, id)
  {
    var row := RowFor(Held(c.rows, e.entry.sessionId), e.entry, e.size, e.now);
    var d := Written(c, e.entry, e.size, e.now);
    SetRowHeld(c.rows, row, id);
    assert d.rows == SetRow(c.rows, row);
    DropWhileOverHeld(d, Order(d.rows), id);
  }

  /** Only a stored write of the session itself changes who may read its row. */
  lemma StepHeld(c: Cache, e: Event, id: string)
    requires !StoresTo(c.maxBytes, e, id) && Held(Step(c, e).rows, id).Some?
    ensures SameReaders(Held(c.rows, id), Held(Step(c, e).rows, id))
  {
    match e
    case Put(entry, _, _, written) =>
      if written && Stores(c.maxBytes, entry) {
        PutHeld(c, e, id);
      }
    case Get(key, reader, now) =>
      var found := Found(c, key, reader);
      if found.Some? {
        WithoutHeld(c.rows, found.value.sessionId, id);
        TouchHeld(c.rows, found.value.sessionId, now, id);
      }
    case Sweep(maxAge, now) =>
      DropStaleHeld(c, c.rows, now - maxAge, id);
    case _ =>
  }

  // ------------------------------------------------------------- over runs

  /** Since the session's row came, some stored write has named a bot for it. */
  ghost predicate BotNamed(maxBytes: int, events: seq<Event>, id: string)
    decreases |events|
  {
    events != [] && Held(Run(maxBytes, events).rows, id).Some?
    && var last := events[|events| - 1];
       (StoresTo(maxBytes, last, id) && last.entry.bot != "") || BotNamed(maxBytes, events[..|events| - 1], id)
  }

  lemma {:induction false} TheRowKnowsItsBot(maxBytes: int, events: seq<Event>, id: string)
    ensures var held := Held(Run(maxBytes, events).rows, id);
            held.Some? ==> (held.value.bot != "" <==> BotNamed(maxBytes, events, id))
    decreases |events|
  {
    if events != [] {
      var front, last := events[..|events| - 1], events[|events| - 1];
      TheRowKnowsItsBot(maxBytes, front, id);
      RunKeeps(maxBytes, front);
      if Held(Run(maxBytes, events).rows, id).Some? {
        if StoresTo(maxBytes, last, id) {
          PutHeld(Run(maxBytes, front), last, id);
        } else {
          StepHeld(Run(maxBytes, front), last, id);
        }
      }
    }
  }

  /** Event `k` is the session's newest stored write, and its row has stayed since. */
  ghost predicate NewestStored(maxBytes: int, events: seq<Event>, k: nat, id: string) {
    && k < |events| && StoresTo(maxBytes, events[k], id)
    && (forall i :: k < i < |events| ==> !StoresTo(maxBytes, events[i], id))
    && (forall i :: k < i <= |events| ==> Held(Run(maxBytes, events[..i]).rows, id).Some?)
  }

  /** The owner of the row: of the bytes just written, unless a bot was known before. */
  lemma OwnerOnceWritten(maxBytes: int, events: seq<Event>, k: nat, id: string)
    requires NewestStored(maxBytes, events, k, id)
    ensures Held(Run(maxBytes, events[..k + 1]).rows, id).value.owner ==
            if BotNamed(maxBytes, events[..k], id) then "" else events[k].entry.owner
  {
    RunSteps(maxBytes, events, k + 1);
    RunKeeps(maxBytes, events[..k]);
    TheRowKnowsItsBot(maxBytes, events[..k], id);
    PutHeld(Run(maxBytes, events[..k]), events[k], id);
  }

  lemma {:induction false} OwnerStays(maxBytes: int, events: seq<Event>, k: nat, id: string, i: nat)
    requires NewestStored(maxBytes, events, k, id) && k < i <= |events|
    ensures Held(Run(maxBytes, events[..i]).rows, id).value.owner ==
            if BotNamed(maxBytes, events[..k], id) then "" else events[k].entry.owner
    decreases i
  {
    if i == k + 1 {
      OwnerOnceWritten(maxBytes, events, k, id);
    } else {
      OwnerStays(maxBytes, events, k, id, i - 1);
      RunSteps(maxBytes, events, i);
      RunKeeps(maxBytes, events[..i - 1]);
      StepHeld(Run(maxBytes, events[..i - 1]), events[i - 1], id);
    }
  }

  /**
   * The bytes written for an owner are served, while their row and file stay, to that owner, and to
   * anybody else exactly when a bot was already named for the session at an earlier write of this row,
   * be it one of the owner's own.
   */
  lemma OwnedBytesAreSharedExactlyWhen(maxBytes: int, events: seq<Event>, k: nat, key: string, reader: string, now: int)
    requires k < |events| && events[k].Put? && NewestStored(maxBytes, events, k, events[k].entry.sessionId)
    requires events[k].entry.owner != "" && Names(Run(maxBytes, events), key, events[k].entry.sessionId)
    ensures GetEntry(Run(maxBytes, events), key, reader, now).1.Some? <==>
              reader == events[k].entry.owner || BotNamed(maxBytes, events[..k], events[k].entry.sessionId)
  {
    var id := events[k].entry.sessionId;
    assert events[..|events|] == events;
    OwnerStays(maxBytes, events, k, id, |events|);
    AGetHitsExactlyWhen(maxBytes, events, key, reader, now);
  }

  // ------------------------------------------- a private transcript, shared

  const Private := Put(Entry("s", "b", "o", "", Rest, ["a"], 1), 4, 1, true)

  lemma OneWrite()
    ensures var c := Step(Empty(10), Private);
            c.rows == [IndexRow("s", "b", "o", "", Rest, 4, 1, 1)] && c.bytes == 4 && c.maxBytes == 10
  {
  }

  lemma TwoWrites(c: Cache)
    requires c.rows == [IndexRow("s", "b", "o", "", Rest, 4, 1, 1)] && c.bytes == 4 && c.maxBytes == 10
    ensures var d := Step(c, Private); d.rows == [IndexRow("s", "b", "", "", Rest, 4, 1, 1)] && d.bytes == 4
    ensures Claims(c, Private, "s") && Claims(c, Private, "b")
  {
    assert SetRow(c.rows, IndexRow("s", "b", "", "", Rest, 4, 1, 1)) == [IndexRow("s", "b", "", "", Rest, 4, 1, 1)];
  }

  lemma OnceWritten(other: string, now: int)
    requires other != "o"
    ensures GetEntry(Run(10, [Private]), "s", other, now).1.None?
    ensures var c := Run(10, [Private]); c.rows == [IndexRow("s", "b", "o", "", Rest, 4, 1, 1)] && c.bytes == 4 && c.maxBytes == 10
  {
    var once := [Private];
    assert once[..0] == [] && once[..1] == once;
    OneWrite();
    RunSteps(10, once, 1);
    AGetHitsExactlyWhen(10, once, "s", other, now);
    OnlyTheOwners(Run(10, once), other);
  }

  /** A reader's transcript of a bot, written twice: at first it is that reader's alone, then anybody's under the bot's name. */
  lemma APrivateTranscriptIsShared(other: string, now: int)
    requires other != "o"
    ensures GetEntry(Run(10, [Private]), "s", other, now).1.None?
    ensures GetEntry(Run(10, [Private, Private]), "b", other, now).1.Some?
  {
    var twice := [Private, Private];
    assert twice[..1] == [Private] && twice[..2] == twice;
    OnceWritten(other, now);
    var c := Run(10, [Private]);
    TwoWrites(c);
    RunSteps(10, twice, 2);
    assert Step(c, Private).rows[0].sessionId == "s";
    PutNames(c, Private, "b");
    AGetHitsExactlyWhen(10, twice, "b", other, now);
  }

  lemma OnlyTheOwners(c: Cache, other: string)
    requires c.rows == [IndexRow("s", "b", "o", "", Rest, 4, 1, 1)] && other != "o"
    ensures forall name :: name in c.aliases ==>
              var row := Held(c.rows, c.aliases[name]); row.Some? ==> row.value.owner != "" && row.value.owner != other
  {
  }

  // -------------------------------------- a write and its own eviction

  lemma {:induction false} HeldInRows(rows: seq<IndexRow>, row: IndexRow)
    requires DistinctRows(rows) && row in rows
    ensures Held(rows, row.sessionId) == Some(row)
  {
    if rows[0].sessionId != row.sessionId {
      HeldInRows(rows[1..], row);
    }
  }

  /**
   * What a stored write wrote outlives the eviction it ends with exactly when it fits together with
   * every row served after it, or is the last in that order whatever its size.
   */
  lemma AWriteSurvivesExactlyWhen(maxBytes: int, events: seq<Event>, e: Event, i: nat)
    requires e.Put? && StoresTo(maxBytes, e, e.entry.sessionId)
    requires var d := Written(Run(maxBytes, events), e.entry, e.size, e.now);
             i < |Order(d.rows)| && Order(d.rows)[i].sessionId == e.entry.sessionId
    ensures var c := Run(maxBytes, events);
            var order := Order(Written(c, e.entry, e.size, e.now).rows);
            var row := RowFor(Held(c.rows, e.entry.sessionId), e.entry, e.size, e.now);
            order[i] == row
            && (Held(Step(c, e).rows, e.entry.sessionId) == Some(row) <==>
                  e.size + Sum(order[i + 1..]) <= maxBytes || i == |order| - 1)
  {
    RunKeeps(maxBytes, events);
    var c := Run(maxBytes, events);
    var d := Written(c, e.entry, e.size, e.now);
    var row := RowFor(Held(c.rows, e.entry.sessionId), e.entry, e.size, e.now);
    RememberKeeps(c.(disk := c.disk[e.entry.sessionId := Payload(e.entry, e.now)]), row);
    SetRowHeld(c.rows, row, e.entry.sessionId);
    OrderIsOrdered(d.rows);
    assert Order(d.rows)[i] in multiset(Order(d.rows));
    HeldInRows(d.rows, Order(d.rows)[i]);
    AnEvictionDropsExactly(d, i);
    DropWhileOverHeld(d, Order(d.rows), e.entry.sessionId);
    EvictedIsSound(d);
    if row in Evict(d).rows {
      HeldInRows(Evict(d).rows, row);
    }
    assert Order(d.rows)[i..][1..] == Order(d.rows)[i + 1..];
  }

  lemma EvictedIsSound(d: Cache)
    requires Sound(d)
    ensures Sound(Evict(d))
  {
    OrderIsOrdered(d.rows);
    DropWhileOverKeeps(d, Order(d.rows));
  }
}
