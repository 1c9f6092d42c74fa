/** When exactly the transcript cache serves, and what a stored write may count on. */
module TranscriptHits {
  import opened Prelude
  import opened TranscriptStore
  import opened TranscriptProofs

  lemma HeldIsThere(rows: seq<IndexRow>, sessionId: string)
    ensures Held(rows, sessionId).Some? <==> HasRow(rows, sessionId)
  {
  }

  /** In any run a key is served exactly when it is a live name, its reader may have it, and its file is there. */
  lemma AGetHitsExactlyWhen(maxBytes: int, events: seq<Event>, key: string, reader: string, now: int)
    ensures var c := Run(maxBytes, events);
            GetEntry(c, key, reader, now).1.Some? <==>
              && maxBytes > 0 && key in c.aliases && c.aliases[key] in c.disk
              && var row := Held(c.rows, c.aliases[key]);
                 row.Some? && (row.value.owner == "" || row.value.owner == reader)
  {
    RunKeeps(maxBytes, events);
  }

  // ------------------------------------------------------ a name that lasts

  /** The name answers to this session, and the session's file is there. */
  predicate Names(c: Cache, name: string, sessionId: string) {
    name in c.aliases && c.aliases[name] == sessionId && sessionId in c.disk
  }

  lemma {:induction false} WithoutIsWithout(rows: seq<IndexRow>, sessionId: string, id: string)
    ensures HasRow(Without(rows, sessionId), id) ==> HasRow(rows, id) && id != sessionId
  {
    if rows != [] {
      WithoutIsWithout(rows[1..], sessionId, id);
      HasRowSplits(rows, id);
      if rows[0].sessionId != sessionId {
        var after := [rows[0]] + Without(rows[1..], sessionId);
        assert after[1..] == Without(rows[1..], sessionId);
        HasRowSplits(after, id);
      }
    }
  }

  lemma ForgetNames(c: Cache, row: IndexRow, name: string, id: string)
    requires Names(c, name, id) && HasRow(Forget(c, row).rows, id)
    ensures Names(Forget(c, row), name, id) && Names(Drop(c, row), name, id) && HasRow(c.rows, id)
  {
    WithoutIsWithout(c.rows, row.sessionId, id);
  }

  lemma {:induction false} DropWhileOverShrinks(c: Cache, order: seq<IndexRow>, id: string)
    requires HasRow(DropWhileOver(c, order).rows, id)
    ensures HasRow(c.rows, id)
    decreases |order|
  {
    if order != [] && c.bytes > c.maxBytes && |c.rows| > 1 {
      DropWhileOverShrinks(Drop(c, order[0]), order[1..], id);
      WithoutIsWithout(c.rows, order[0].sessionId, id);
    }
  }

  lemma {:induction false} DropWhileOverNames(c: Cache, order: seq<IndexRow>, name: string, id: string)
    requires Names(c, name, id) && HasRow(DropWhileOver(c, order).rows, id)
    ensures Names(DropWhileOver(c, order), name, id)
    decreases |order|
  {
    if order != [] && c.bytes > c.maxBytes && |c.rows| > 1 {
      DropWhileOverShrinks(Drop(c, order[0]), order[1..], id);
      ForgetNames(c, order[0], name, id);
      DropWhileOverNames(Drop(c, order[0]), order[1..], name, id);
    }
  }

  lemma {:induction false} DropStaleShrinks(c: Cache, rows: seq<IndexRow>, cutoff: int, id: string)
    requires HasRow(DropStale(c, rows, cutoff).rows, id)
    ensures HasRow(c.rows, id)
    decreases |rows|
  {
    if rows != [] {
      DropStaleShrinks(if rows[0].readAt <= cutoff then Drop(c, rows[0]) else c, rows[1..], cutoff, id);
      WithoutIsWithout(c.rows, rows[0].sessionId, id);
    }
  }

  lemma {:induction false} DropStaleNames(c: Cache, rows: seq<IndexRow>, cutoff: int, name: string, id: string)
    requires Names(c, name, id) && HasRow(DropStale(c, rows, cutoff).rows, id)
    ensures Names(DropStale(c, rows, cutoff), name, id)
    decreases |rows|
  {
    if rows != [] {
      var d := if rows[0].readAt <= cutoff then Drop(c, rows[0]) else c;
      DropStaleShrinks(d, rows[1..], cutoff, id);
      if rows[0].readAt <= cutoff {
        ForgetNames(c, rows[0], name, id);
      }
      DropStaleNames(d, rows[1..], cutoff, name, id);
    }
  }

  lemma {:induction false} AddNamesExactly(aliases: map<string, string>, names: seq<string>, sessionId: string, name: string)
    ensures var after := AddNames(aliases, names, sessionId);
            if name != "" && name in names then name in after && after[name] == sessionId
            else name in aliases ==> name in after && after[name] == aliases[name]
    decreases |names|
  {
    if names != [] {
      var front, last := names[..|names| - 1], names[|names| - 1];
      assert names == front + [last];
      AddNamesExactly(aliases, front, sessionId, name);
    }
  }

  /** The write is stored, and under these names. */
  predicate Claims(c: Cache, e: Event, name: string) {
    e.Put? && e.written && Stores(c.maxBytes, e.entry)
    && name in NamesOf(RowFor(Held(c.rows, e.entry.sessionId), e.entry, e.size, e.now))
  }

  predicate Renames(c: Cache, e: Event, name: string, id: string) {
    Claims(c, e, name) && e.entry.sessionId != id
  }

  /** A stored write that stays gives each of its names to its session. */
  lemma PutNames(c: Cache, e: Event, name: string)
    requires Claims(c, e, name) && name != "" && HasRow(Step(c, e).rows, e.entry.sessionId)
    ensures Names(Step(c, e), name, e.entry.sessionId)
  {
    var id := e.entry.sessionId;
    var row := RowFor(Held(c.rows, id), e.entry, e.size, e.now);
    AddNamesExactly(c.aliases, NamesOf(row), id, name);
    var d := Written(c, e.entry, e.size, e.now);
    assert Names(d, name, id);
    DropWhileOverNames(d, Order(d.rows), name, id);
  }

  lemma PutLeavesNames(c: Cache, e: Event, name: string, id: string)
    requires Names(c, name, id) && name != "" && e.Put? && !Renames(c, e, name, id) && HasRow(Step(c, e).rows, id)
    ensures Names(Step(c, e), name, id)
  {
    if e.written && Stores(c.maxBytes, e.entry) {
      var row := RowFor(Held(c.rows, e.entry.sessionId), e.entry, e.size, e.now);
      AddNamesExactly(c.aliases, NamesOf(row), row.sessionId, name);
      var d := Written(c, e.entry, e.size, e.now);
      assert Names(d, name, id);
      DropWhileOverNames(d, Order(d.rows), name, id);
    }
  }

  lemma StepLeavesNames(c: Cache, e: Event, name: string, id: string)
    requires Names(c, name, id) && name != "" && !Renames(c, e, name, id) && e != FileLost(id)
    requires HasRow(Step(c, e).rows, id)
    ensures Names(Step(c, e), name, id)
  {
    match e
    case Put(_, _, _, _) => PutLeavesNames(c, e, name, id);
    case Get(key, reader, now) =>
      var found := Found(c, key, reader);
      if c.maxBytes > 0 && key != "" && found.Some? && found.value.sessionId !in c.disk {
        ForgetNames(c, found.value, name, id);
      }
    case Sweep(maxAge, now) =>
      if c.maxBytes > 0 && maxAge > 0 {
        DropStaleNames(c, c.rows, now - maxAge, name, id);
      }
    case _ =>
  }

  /** Since event `k` the session's row and file have stayed, and no other session's write took the name. */
  ghost predicate Undisturbed(maxBytes: int, events: seq<Event>, k: nat, name: string, id: string) {
    && (forall i :: k < i <= |events| ==> HasRow(Run(maxBytes, events[..i]).rows, id))
    && (forall i :: k < i < |events| ==> events[i] != FileLost(id) && !Renames(Run(maxBytes, events[..i]), events[i], name, id))
  }

  lemma RunSteps(maxBytes: int, events: seq<Event>, i: nat)
    requires 0 < i <= |events|
    ensures Run(maxBytes, events[..i]) == Step(Run(maxBytes, events[..i - 1]), events[i - 1])
  {
    assert events[..i][..i - 1] == events[..i - 1];
  }

  lemma LastsOneMore(maxBytes: int, events: seq<Event>, i: nat, c: Cache, d: Cache, name: string, id: string)
    requires 0 < i <= |events| && c == Run(maxBytes, events[..i - 1]) && d == Run(maxBytes, events[..i]) && HasRow(d.rows, id)
    requires name != ""
    requires || (Claims(c, events[i - 1], name) && events[i - 1].entry.sessionId == id)
             || (Names(c, name, id) && !Renames(c, events[i - 1], name, id) && events[i - 1] != FileLost(id))
    ensures Names(d, name, id)
  {
    RunSteps(maxBytes, events, i);
    if Claims(c, events[i - 1], name) && events[i - 1].entry.sessionId == id {
      PutNames(c, events[i - 1], name);
    } else {
      StepLeavesNames(c, events[i - 1], name, id);
    }
  }

  lemma {:induction false} ANameLasts(maxBytes: int, events: seq<Event>, k: nat, name: string, i: nat)
    requires k < i <= |events| && name != "" && Claims(Run(maxBytes, events[..k]), events[k], name)
    requires Undisturbed(maxBytes, events, k, name, events[k].entry.sessionId)
    ensures Names(Run(maxBytes, events[..i]), name, events[k].entry.sessionId)
    decreases i
  {
    if i > k + 1 {
      ANameLasts(maxBytes, events, k, name, i - 1);
    }
    LastsOneMore(maxBytes, events, i, Run(maxBytes, events[..i - 1]), Run(maxBytes, events[..i]), name,
                 events[k].entry.sessionId);
  }

  /**
   * A stored write is served under every name it gave, for as long as its row and its file stay and no
   * other session's write takes the name, to exactly the readers who may have it; and what is served is
   * the session's newest write.
   */
  lemma AStoredWriteIsServed(maxBytes: int, events: seq<Event>, k: nat, name: string, reader: string, now: int)
    requires k < |events| && name != "" && Claims(Run(maxBytes, events[..k]), events[k], name)
    requires Undisturbed(maxBytes, events, k, name, events[k].entry.sessionId)
    ensures var c := Run(maxBytes, events);
            var id := events[k].entry.sessionId;
            var hit := GetEntry(c, name, reader, now).1;
            && Held(c.rows, id).Some?
            && (hit.Some? <==> Held(c.rows, id).value.owner == "" || Held(c.rows, id).value.owner == reader)
            && (hit.Some? ==> Newest(maxBytes, events, id) == Some(Stored(hit.value.rows, hit.value.updatedAt)))
  {
    assert events[..|events|] == events;
    RunKeeps(maxBytes, events[..k]);
    RunKeeps(maxBytes, events);
    ANameLasts(maxBytes, events, k, name, |events|);
    HeldIsThere(Run(maxBytes, events).rows, events[k].entry.sessionId);
    AGetHitsExactlyWhen(maxBytes, events, name, reader, now);
    AHitIsTheNewestWrite(maxBytes, events, name, reader, now);
  }
}
