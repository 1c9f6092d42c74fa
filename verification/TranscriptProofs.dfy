/** What the transcript cache keeps over every run, and exactly which rows an eviction drops. */
module TranscriptProofs {
  import opened Prelude
  import opened StableSort
  import opened TranscriptStore

  // ------------------------------------------------------------- invariant

  function Sum(rows: seq<IndexRow>): nat {
    if rows == [] then 0 else rows[0].bytes + Sum(rows[1..])
  }

  ghost predicate HasRow(rows: seq<IndexRow>, sessionId: string) {
    exists i :: 0 <= i < |rows| && rows[i].sessionId == sessionId
  }

  ghost predicate DistinctRows(rows: seq<IndexRow>) {
    forall i, j :: 0 <= i < j < |rows| ==> rows[i].sessionId != rows[j].sessionId
  }

  ghost predicate NamesLive(aliases: map<string, string>, rows: seq<IndexRow>) {
    forall name :: name in aliases ==> name != "" && HasRow(rows, aliases[name])
  }

  ghost predicate Sound(c: Cache) {
    DistinctRows(c.rows) && c.bytes == Sum(c.rows) && NamesLive(c.aliases, c.rows)
  }

  // ---------------------------------------------------------- the row list

  lemma {:induction false} SetRowSets(rows: seq<IndexRow>, row: IndexRow)
    requires DistinctRows(rows)
    ensures var after := SetRow(rows, row);
            && DistinctRows(after) && row in after
            && (forall id :: HasRow(after, id) <==> HasRow(rows, id) || id == row.sessionId)
            && (forall r :: r in rows && r.sessionId != row.sessionId ==> r in after)
            && Sum(after) == Sum(rows) - (if Held(rows, row.sessionId).Some? then Held(rows, row.sessionId).value.bytes else 0) + row.bytes
  {
    if rows == [] {
      assert SetRow(rows, row)[0] == row;
    } else if rows[0].sessionId == row.sessionId {
      var after := [row] + rows[1..];
      assert after[1..] == rows[1..];
      assert forall i :: 0 <= i < |rows| ==> after[i].sessionId == rows[i].sessionId;
      assert forall i :: 0 <= i < |rows| ==> rows[i].sessionId == after[i].sessionId;
      assert after[0] == row;
    } else {
      SetRowSets(rows[1..], row);
      var rest := SetRow(rows[1..], row);
      var after := [rows[0]] + rest;
      assert after[1..] == rest;
      SetRowDistinct(rows, row);
      forall id ensures HasRow(after, id) <==> HasRow(rows, id) || id == row.sessionId {
        HasRowSplits(rows, id);
        HasRowSplits(after, id);
      }
    }
  }

  lemma HasRowSplits(rows: seq<IndexRow>, id: string)
    requires rows != []
    ensures HasRow(rows, id) <==> rows[0].sessionId == id || HasRow(rows[1..], id)
  {
  }

  lemma SetRowDistinct(rows: seq<IndexRow>, row: IndexRow)
    requires rows != [] && rows[0].sessionId != row.sessionId && DistinctRows(rows)
    requires DistinctRows(SetRow(rows[1..], row))
    requires forall id :: HasRow(SetRow(rows[1..], row), id) <==> HasRow(rows[1..], id) || id == row.sessionId
    ensures DistinctRows(SetRow(rows, row))
  {
    var rest := SetRow(rows[1..], row);
    forall j | 0 <= j < |rest| ensures rest[j].sessionId != rows[0].sessionId {
      assert HasRow(rest, rest[j].sessionId);
      if HasRow(rows[1..], rest[j].sessionId) {
        var i :| 0 <= i < |rows[1..]| && rows[1..][i].sessionId == rest[j].sessionId;
        assert rows[i + 1].sessionId == rest[j].sessionId;
      }
    }
  }

  lemma {:induction false} WithoutCounts(rows: seq<IndexRow>, row: IndexRow)
    requires DistinctRows(rows) && row in rows
    ensures var after := Without(rows, row.sessionId);
            Sum(after) == Sum(rows) - row.bytes && multiset(after) == multiset(rows) - multiset{row}
  {
    assert rows == [rows[0]] + rows[1..];
    if rows[0].sessionId == row.sessionId {
      OnlyRow(rows, row);
      WithoutAbsent(rows[1..], row.sessionId);
      assert Without(rows, row.sessionId) == rows[1..];
    } else {
      assert row in rows[1..];
      WithoutCounts(rows[1..], row);
      var rest := Without(rows[1..], row.sessionId);
      assert Without(rows, row.sessionId) == [rows[0]] + rest && ([rows[0]] + rest)[1..] == rest;
    }
  }

  lemma OnlyRow(rows: seq<IndexRow>, row: IndexRow)
    requires DistinctRows(rows) && row in rows && rows[0].sessionId == row.sessionId
    ensures rows[0] == row
  {
  }

  lemma {:induction false} WithoutHas(rows: seq<IndexRow>, sessionId: string)
    requires DistinctRows(rows)
    ensures var after := Without(rows, sessionId);
            DistinctRows(after) && forall id :: HasRow(after, id) <==> HasRow(rows, id) && id != sessionId
  {
    if rows != [] {
      var rest := Without(rows[1..], sessionId);
      WithoutHas(rows[1..], sessionId);
      if rows[0].sessionId == sessionId {
        assert Without(rows, sessionId) == rest;
        forall id ensures HasRow(rest, id) <==> HasRow(rows, id) && id != sessionId {
          HasRowSplits(rows, id);
        }
      } else {
        var after := [rows[0]] + rest;
        assert after[1..] == rest;
        forall id ensures HasRow(after, id) <==> HasRow(rows, id) && id != sessionId {
          HasRowSplits(rows, id);
          HasRowSplits(after, id);
        }
        WithoutDistinct(rows, rest, sessionId);
      }
    }
  }

  lemma WithoutRemoves(rows: seq<IndexRow>, row: IndexRow)
    requires DistinctRows(rows) && row in rows
    ensures var after := Without(rows, row.sessionId);
            && DistinctRows(after) && Sum(after) == Sum(rows) - row.bytes
            && multiset(after) == multiset(rows) - multiset{row}
            && (forall id :: HasRow(after, id) <==> HasRow(rows, id) && id != row.sessionId)
  {
    WithoutCounts(rows, row);
    WithoutHas(rows, row.sessionId);
  }

  lemma WithoutDistinct(rows: seq<IndexRow>, rest: seq<IndexRow>, sessionId: string)
    requires rows != [] && DistinctRows(rows) && DistinctRows(rest)
    requires forall id :: HasRow(rest, id) <==> HasRow(rows[1..], id) && id != sessionId
    ensures DistinctRows([rows[0]] + rest)
  {
    forall j | 0 <= j < |rest| ensures rest[j].sessionId != rows[0].sessionId {
      assert HasRow(rest, rest[j].sessionId);
      var i :| 0 <= i < |rows[1..]| && rows[1..][i].sessionId == rest[j].sessionId;
      assert rows[i + 1].sessionId == rest[j].sessionId;
    }
  }

  lemma {:induction false} WithoutAbsent(rows: seq<IndexRow>, sessionId: string)
    requires forall i :: 0 <= i < |rows| ==> rows[i].sessionId != sessionId
    ensures Without(rows, sessionId) == rows
  {
    if rows != [] {
      WithoutAbsent(rows[1..], sessionId);
    }
  }

  lemma {:induction false} TouchKeeps(rows: seq<IndexRow>, sessionId: string, now: int)
    ensures var after := Touch(rows, sessionId, now);
            |after| == |rows| && Sum(after) == Sum(rows)
            && forall i :: 0 <= i < |rows| ==> after[i].sessionId == rows[i].sessionId
  {
    if rows != [] {
      TouchKeeps(rows[1..], sessionId, now);
      assert Touch(rows, sessionId, now)[1..] == Touch(rows[1..], sessionId, now);
    }
  }

  // ----------------------------------------------------------- the methods

  lemma {:induction false} AddNamesNames(aliases: map<string, string>, names: seq<string>, sessionId: string)
    ensures var after := AddNames(aliases, names, sessionId);
            forall name :: name in after ==>
              (name in aliases && after[name] == aliases[name]) || (name != "" && after[name] == sessionId)
    decreases |names|
  {
    if names != [] {
      AddNamesNames(aliases, names[..|names| - 1], sessionId);
    }
  }

  lemma RememberKeeps(c: Cache, row: IndexRow)
    requires Sound(c)
    ensures Sound(Remember(c, row)) && row in Remember(c, row).rows
  {
    SetRowSets(c.rows, row);
    AddNamesNames(c.aliases, NamesOf(row), row.sessionId);
    var d := Remember(c, row);
    forall name | name in d.aliases ensures name != "" && HasRow(d.rows, d.aliases[name]) {
      if name in c.aliases && d.aliases[name] == c.aliases[name] {
        assert HasRow(c.rows, c.aliases[name]);
      } else {
        assert d.aliases[name] == row.sessionId;
      }
    }
  }

  lemma ForgetKeeps(c: Cache, row: IndexRow)
    requires Sound(c) && row in c.rows
    ensures Sound(Forget(c, row))
  {
    WithoutRemoves(c.rows, row);
  }

  lemma {:induction false} DropWhileOverKeeps(c: Cache, order: seq<IndexRow>)
    requires Sound(c) && multiset(c.rows) == multiset(order)
    ensures var d := DropWhileOver(c, order); Sound(d) && d.disk.Keys <= c.disk.Keys
    ensures var d := DropWhileOver(c, order); forall id :: id in d.disk ==> d.disk[id] == c.disk[id]
    decreases |order|
  {
    if order != [] && c.bytes > c.maxBytes && |c.rows| > 1 {
      DropFirst(c, order);
      DropWhileOverKeeps(Drop(c, order[0]), order[1..]);
    }
  }

  lemma DropFirst(c: Cache, order: seq<IndexRow>)
    requires Sound(c) && multiset(c.rows) == multiset(order) && order != []
    ensures order[0] in c.rows && Sound(Drop(c, order[0])) && multiset(Drop(c, order[0]).rows) == multiset(order[1..])
  {
    assert order == [order[0]] + order[1..];
    assert order[0] in multiset(order);
    ForgetKeeps(c, order[0]);
    WithoutRemoves(c.rows, order[0]);
  }

  lemma OthersRemain(rows: seq<IndexRow>, row: IndexRow, other: IndexRow)
    requires DistinctRows(rows) && row in rows && other in rows && other != row
    ensures other in Without(rows, row.sessionId)
  {
    WithoutCounts(rows, row);
    assert other in multiset(Without(rows, row.sessionId));
  }

  lemma {:induction false} DropStaleKeeps(c: Cache, rows: seq<IndexRow>, cutoff: int)
    requires Sound(c) && DistinctRows(rows) && forall i :: 0 <= i < |rows| ==> rows[i] in c.rows
    ensures var d := DropStale(c, rows, cutoff); Sound(d) && d.disk.Keys <= c.disk.Keys
    ensures var d := DropStale(c, rows, cutoff); forall id :: id in d.disk ==> d.disk[id] == c.disk[id]
    decreases |rows|
  {
    if rows != [] {
      if rows[0].readAt <= cutoff {
        ForgetKeeps(c, rows[0]);
        WithoutRemoves(c.rows, rows[0]);
        var d := Drop(c, rows[0]);
        forall i | 0 <= i < |rows[1..]| ensures rows[1..][i] in d.rows {
          OthersRemain(c.rows, rows[0], rows[i + 1]);
        }
        DropStaleKeeps(d, rows[1..], cutoff);
      } else {
        DropStaleKeeps(c, rows[1..], cutoff);
      }
    }
  }

  lemma GetKeeps(c: Cache, key: string, reader: string, now: int)
    requires Sound(c)
    ensures Sound(GetEntry(c, key, reader, now).0)
  {
    var found := Found(c, key, reader);
    if found.Some? {
      ForgetKeeps(c, found.value);
      TouchKeeps(c.rows, found.value.sessionId, now);
      var touched := Touch(c.rows, found.value.sessionId, now);
      forall id | HasRow(c.rows, id) ensures HasRow(touched, id) {
        var i :| 0 <= i < |c.rows| && c.rows[i].sessionId == id;
        assert touched[i].sessionId == id;
      }
    }
  }

  lemma StepKeeps(c: Cache, e: Event)
    requires Sound(c)
    ensures Sound(Step(c, e))
  {
    match e
    case Put(entry, size, now, written) =>
      var row := RowFor(Held(c.rows, entry.sessionId), entry, size, now);
      RememberKeeps(c.(disk := c.disk[entry.sessionId := Payload(entry, now)]), row);
      var d := Written(c, entry, size, now);
      DropWhileOverKeeps(d, Order(d.rows));
    case Get(key, reader, now) => GetKeeps(c, key, reader, now);
    case Sweep(maxAge, now) => DropStaleKeeps(c, c.rows, now - maxAge);
    case _ =>
  }

  lemma {:induction false} RunKeeps(maxBytes: int, events: seq<Event>)
    ensures Sound(Run(maxBytes, events)) && Run(maxBytes, events).maxBytes == maxBytes
    decreases |events|
  {
    if events != [] {
      RunKeeps(maxBytes, events[..|events| - 1]);
      StepKeeps(Run(maxBytes, events[..|events| - 1]), events[|events| - 1]);
      StepKeepsCap(Run(maxBytes, events[..|events| - 1]), events[|events| - 1]);
    }
  }

  lemma {:induction false} DropWhileOverCap(c: Cache, order: seq<IndexRow>)
    ensures DropWhileOver(c, order).maxBytes == c.maxBytes
    decreases |order|
  {
    if order != [] && c.bytes > c.maxBytes && |c.rows| > 1 {
      DropWhileOverCap(Drop(c, order[0]), order[1..]);
    }
  }

  lemma {:induction false} DropStaleCap(c: Cache, rows: seq<IndexRow>, cutoff: int)
    ensures DropStale(c, rows, cutoff).maxBytes == c.maxBytes
    decreases |rows|
  {
    if rows != [] {
      DropStaleCap(if rows[0].readAt <= cutoff then Drop(c, rows[0]) else c, rows[1..], cutoff);
    }
  }

  lemma StepKeepsCap(c: Cache, e: Event)
    ensures Step(c, e).maxBytes == c.maxBytes
  {
    match e
    case Put(entry, size, now, _) =>
      var d := Written(c, entry, size, now);
      DropWhileOverCap(d, Order(d.rows));
    case Sweep(maxAge, now) => DropStaleCap(c, c.rows, now - maxAge);
    case _ =>
  }

  // --------------------------------------------------------- over whole runs

  /** The byte count is the sum of the live rows, whatever was put, served, swept, lost or evicted. */
  lemma BytesAreTheSum(maxBytes: int, events: seq<Event>)
    ensures var c := Run(maxBytes, events); c.bytes == Sum(c.rows)
  {
    RunKeeps(maxBytes, events);
  }

  /** Every name answers to a live row. */
  lemma EveryNameIsLive(maxBytes: int, events: seq<Event>, name: string)
    ensures var c := Run(maxBytes, events);
            name in c.aliases ==> Held(c.rows, c.aliases[name]).Some?
  {
    RunKeeps(maxBytes, events);
  }

  lemma StepDisk(c: Cache, e: Event, sessionId: string)
    requires Sound(c) && sessionId in Step(c, e).disk
    ensures if e.Put? && e.written && e.entry.sessionId == sessionId && Stores(c.maxBytes, e.entry) then
              Step(c, e).disk[sessionId] == Payload(e.entry, e.now)
            else sessionId in c.disk && Step(c, e).disk[sessionId] == c.disk[sessionId]
  {
    match e
    case Put(entry, size, now, written) =>
      var row := RowFor(Held(c.rows, entry.sessionId), entry, size, now);
      RememberKeeps(c.(disk := c.disk[entry.sessionId := Payload(entry, now)]), row);
      var d := Written(c, entry, size, now);
      DropWhileOverKeeps(d, Order(d.rows));
    case Sweep(maxAge, now) => DropStaleKeeps(c, c.rows, now - maxAge);
    case _ =>
  }

  lemma {:induction false} DiskIsNewest(maxBytes: int, events: seq<Event>, sessionId: string)
    ensures var c := Run(maxBytes, events);
            sessionId in c.disk ==> Newest(maxBytes, events, sessionId) == Some(c.disk[sessionId])
    decreases |events|
  {
    if events != [] {
      var before, last := events[..|events| - 1], events[|events| - 1];
      DiskIsNewest(maxBytes, before, sessionId);
      RunKeeps(maxBytes, before);
      if sessionId in Run(maxBytes, events).disk {
        StepDisk(Run(maxBytes, before), last, sessionId);
      }
    }
  }

  lemma {:induction false} NewestIsShort(maxBytes: int, events: seq<Event>, sessionId: string)
    ensures var newest := Newest(maxBytes, events, sessionId);
            newest.Some? ==> 0 < |newest.value.rows| <= CACHE_ROW_LIMIT
    decreases |events|
  {
    if events != [] {
      NewestIsShort(maxBytes, events[..|events| - 1], sessionId);
    }
  }

  /**
   * In any run a hit is what a plain map of the newest writes holds for the session the key names:
   * its last two hundred rows, as they came, and never to a reader other than the owner.
   */
  lemma AHitIsTheNewestWrite(maxBytes: int, events: seq<Event>, key: string, reader: string, now: int)
    ensures var c := Run(maxBytes, events);
            var hit := GetEntry(c, key, reader, now).1;
            hit.Some? ==>
              && key in c.aliases && hit.value.sessionId == c.aliases[key]
              && Newest(maxBytes, events, hit.value.sessionId) == Some(Stored(hit.value.rows, hit.value.updatedAt))
              && 0 < |hit.value.rows| <= CACHE_ROW_LIMIT
              && (hit.value.owner == "" || hit.value.owner == reader)
  {
    var c := Run(maxBytes, events);
    var hit := GetEntry(c, key, reader, now).1;
    if hit.Some? {
      DiskIsNewest(maxBytes, events, hit.value.sessionId);
      NewestIsShort(maxBytes, events, hit.value.sessionId);
    }
  }

  // ------------------------------------------------------------- eviction

  lemma {:induction false} SumOfParts(a: seq<IndexRow>, b: seq<IndexRow>)
    ensures Sum(a + b) == Sum(a) + Sum(b)
  {
    if a == [] {
      assert a + b == b;
    } else {
      SumOfParts(a[1..], b);
      assert (a + b)[1..] == a[1..] + b;
    }
  }

  function RemoveAt(s: seq<IndexRow>, i: nat): seq<IndexRow>
    requires i < |s|
  {
    s[..i] + s[i + 1..]
  }

  lemma SumWithoutOne(s: seq<IndexRow>, i: nat)
    requires i < |s|
    ensures Sum(s) == s[i].bytes + Sum(RemoveAt(s, i))
  {
    var rest := [s[i]] + s[i + 1..];
    assert s == s[..i] + rest && rest[1..] == s[i + 1..];
    SumOfParts(s[..i], rest);
    SumOfParts(s[..i], s[i + 1..]);
  }

  lemma MultisetWithoutOne(s: seq<IndexRow>, i: nat)
    requires i < |s|
    ensures multiset(RemoveAt(s, i)) == multiset(s) - multiset{s[i]}
  {
    assert s == s[..i] + [s[i]] + s[i + 1..];
  }

  lemma {:induction false} SumPermutes(a: seq<IndexRow>, b: seq<IndexRow>)
    requires multiset(a) == multiset(b)
    ensures Sum(a) == Sum(b)
    decreases |a|
  {
    if a == [] {
      assert |multiset(b)| == |b|;
    } else {
      assert a == [a[0]] + a[1..];
      assert a[0] in multiset(b);
      var i :| 0 <= i < |b| && b[i] == a[0];
      MultisetWithoutOne(b, i);
      SumWithoutOne(b, i);
      SumPermutes(a[1..], RemoveAt(b, i));
    }
  }

  /** The rows an eviction is meant to keep: the longest end of the order that fits, and never less than one. */
  function Kept(order: seq<IndexRow>, maxBytes: int): (kept: seq<IndexRow>)
    ensures |kept| <= |order| && kept == order[|order| - |kept|..]
  {
    if |order| <= 1 || Sum(order) <= maxBytes then order else Kept(order[1..], maxBytes)
  }

  lemma {:induction false} EvictionKeeps(c: Cache, order: seq<IndexRow>)
    requires Sound(c) && multiset(c.rows) == multiset(order)
    ensures var d := DropWhileOver(c, order);
            multiset(d.rows) == multiset(Kept(order, c.maxBytes)) && (d.bytes <= c.maxBytes || |d.rows| <= 1)
    decreases |order|
  {
    SumPermutes(c.rows, order);
    assert |multiset(c.rows)| == |c.rows| && |multiset(order)| == |order|;
    if order != [] && c.bytes > c.maxBytes && |c.rows| > 1 {
      DropFirst(c, order);
      EvictionKeeps(Drop(c, order[0]), order[1..]);
    }
  }

  lemma {:induction false} SuffixesShrink(order: seq<IndexRow>, i: nat, j: nat)
    requires i <= j <= |order|
    ensures Sum(order[j..]) <= Sum(order[i..])
  {
    assert order[i..] == order[i..j] + order[j..];
    SumOfParts(order[i..j], order[j..]);
  }

  /** A place in the order survives exactly when what follows it fits with it, or nothing follows it. */
  lemma {:induction false} KeptExactlyWhen(order: seq<IndexRow>, maxBytes: int, i: nat)
    requires i < |order|
    ensures i >= |order| - |Kept(order, maxBytes)| <==> Sum(order[i..]) <= maxBytes || i == |order| - 1
  {
    if |order| <= 1 || Sum(order) <= maxBytes {
      SuffixesShrink(order, 0, i);
      assert order[0..] == order;
    } else if i == 0 {
      assert order[0..] == order;
    } else {
      KeptExactlyWhen(order[1..], maxBytes, i - 1);
      assert order[1..][i - 1..] == order[i..];
    }
  }

  lemma OrderIsOrdered(rows: seq<IndexRow>)
    ensures var leq := (a: IndexRow, b: IndexRow) => Earlier(a, b);
            TotalPreorder(leq) && Ordered(Order(rows), leq) && multiset(Order(rows)) == multiset(rows)
  {
    SortOrders(rows, (a: IndexRow, b: IndexRow) => Earlier(a, b));
  }

  lemma EvictIsKept(c: Cache)
    requires Sound(c)
    ensures multiset(Evict(c).rows) == multiset(Kept(Order(c.rows), c.maxBytes))
    ensures Evict(c).bytes <= c.maxBytes || |Evict(c).rows| <= 1
  {
    OrderIsOrdered(c.rows);
    SumPermutes(c.rows, Order(c.rows));
    EvictionKeeps(c, Order(c.rows));
    assert |multiset(c.rows)| == |c.rows|;
  }

  lemma SameMembers(a: seq<IndexRow>, b: seq<IndexRow>, row: IndexRow)
    requires multiset(a) == multiset(b)
    ensures row in a <==> row in b
  {
    assert row in a <==> row in multiset(a);
    assert row in b <==> row in multiset(b);
  }

  lemma InTheEnd(order: seq<IndexRow>, k: nat, i: nat)
    requires i < |order| && k <= |order| && forall a, b :: 0 <= a < b < |order| ==> order[a] != order[b]
    ensures order[i] in order[k..] <==> i >= k
  {
  }

  /**
   * An eviction keeps exactly the rows that fit together with everything served after them, and the
   * last one whatever its size; afterwards the cap holds or one row is left.
   */
  lemma AnEvictionDropsExactly(c: Cache, i: nat)
    requires Sound(c) && i < |c.rows|
    ensures |Order(c.rows)| == |c.rows|
    ensures Order(c.rows)[i] in Evict(c).rows <==> Sum(Order(c.rows)[i..]) <= c.maxBytes || i == |c.rows| - 1
    ensures Evict(c).bytes <= c.maxBytes || |Evict(c).rows| <= 1
  {
    var order := Order(c.rows);
    var kept := Kept(order, c.maxBytes);
    EvictIsKept(c);
    KeptExactlyWhen(order, c.maxBytes, i);
    OrderIsDistinct(c.rows);
    InTheEnd(order, |order| - |kept|, i);
    SameMembers(Evict(c).rows, kept, order[i]);
  }

  /** No row is twice in the order. */
  lemma OrderIsDistinct(rows: seq<IndexRow>)
    requires DistinctRows(rows)
    ensures var order := Order(rows); forall i, j :: 0 <= i < j < |order| ==> order[i] != order[j]
  {
    var order := Order(rows);
    OrderIsOrdered(rows);
    forall i, j | 0 <= i < j < |order| ensures order[i] != order[j] {
      if order[i] == order[j] {
        TwiceInMultiset(order, i, j);
        OnceInMultiset(rows, order[i]);
      }
    }
  }

  lemma TwiceInMultiset(s: seq<IndexRow>, i: nat, j: nat)
    requires i < j < |s| && s[i] == s[j]
    ensures multiset(s)[s[i]] >= 2
  {
    assert s == s[..i] + [s[i]] + s[i + 1..j] + [s[j]] + s[j + 1..];
  }

  lemma {:induction false} OnceInMultiset(rows: seq<IndexRow>, row: IndexRow)
    requires DistinctRows(rows)
    ensures multiset(rows)[row] <= 1
  {
    if rows != [] {
      assert rows == [rows[0]] + rows[1..];
      OnceInMultiset(rows[1..], row);
      if row == rows[0] {
        assert row !in rows[1..];
        assert row !in multiset(rows[1..]);
      }
    }
  }

  /** Every row that stays was served at least as recently as every row that goes. */
  lemma SurvivorsWereServedLater(c: Cache, gone: IndexRow, stays: IndexRow)
    requires Sound(c) && gone in c.rows && gone !in Evict(c).rows && stays in Evict(c).rows
    ensures Earlier(gone, stays)
  {
    var order := Order(c.rows);
    var kept := Kept(order, c.maxBytes);
    OrderIsOrdered(c.rows);
    EvictIsKept(c);
    SameMembers(order, c.rows, gone);
    SameMembers(Evict(c).rows, kept, gone);
    SameMembers(Evict(c).rows, kept, stays);
    OrderedEnd(order, |order| - |kept|, gone, stays);
  }

  lemma OrderedEnd(order: seq<IndexRow>, k: nat, gone: IndexRow, stays: IndexRow)
    requires k <= |order| && Ordered(order, (a: IndexRow, b: IndexRow) => Earlier(a, b))
    requires gone in order && gone !in order[k..] && stays in order[k..]
    ensures Earlier(gone, stays)
  {
  }

  lemma DropDrops(c: Cache, gone: IndexRow, row: IndexRow)
    requires Sound(c) && gone in c.rows
    ensures Sound(Drop(c, gone))
    ensures row in Drop(c, gone).rows <==> row in c.rows && row != gone
  {
    ForgetKeeps(c, gone);
    WithoutCounts(c.rows, gone);
    OnceInMultiset(c.rows, gone);
    assert row in Drop(c, gone).rows <==> row in multiset(Drop(c, gone).rows);
    assert row in c.rows <==> row in multiset(c.rows);
  }

  lemma {:induction false} DropStaleDrops(c: Cache, rows: seq<IndexRow>, cutoff: int, row: IndexRow)
    requires Sound(c) && DistinctRows(rows) && forall i :: 0 <= i < |rows| ==> rows[i] in c.rows
    ensures row in DropStale(c, rows, cutoff).rows <==> row in c.rows && (row in rows ==> row.readAt > cutoff)
    decreases |rows|
  {
    if rows != [] {
      assert row in rows <==> row == rows[0] || row in rows[1..];
      if rows[0].readAt <= cutoff {
        DropDrops(c, rows[0], row);
        forall i | 0 <= i < |rows[1..]| ensures rows[1..][i] in Drop(c, rows[0]).rows {
          OthersRemain(c.rows, rows[0], rows[i + 1]);
        }
        DropStaleDrops(Drop(c, rows[0]), rows[1..], cutoff, row);
      } else {
        DropStaleDrops(c, rows[1..], cutoff, row);
      }
    }
  }

  /** A sweep drops exactly what nobody was served for that long. */
  lemma ASweepDropsExactly(c: Cache, maxAge: int, now: int, row: IndexRow)
    requires Sound(c) && c.maxBytes > 0 && maxAge > 0
    ensures row in SweepRows(c, maxAge, now).rows <==> row in c.rows && row.readAt > now - maxAge
  {
    DropStaleDrops(c, c.rows, now - maxAge, row);
  }

  // ---------------------------------------------- a write that drops itself

  const Quiet := Entry("quiet", "", "", "", Rest, ["a"], 1)
  const Busy := Entry("busy", "", "", "", Rest, ["b"], 1)
  const QuietRow := IndexRow("quiet", "", "", "", Rest, 4, 1, 1)
  const BusyRow := IndexRow("busy", "", "", "", Rest, 4, 1, 2)

  lemma TwoSessions()
    ensures Quiet.sessionId != Busy.sessionId
  {
  }

  lemma FirstWrite()
    ensures var c := PutEntry(Empty(10), Quiet, 4, 1, true); c.rows == [QuietRow] && c.bytes == 4 && c.maxBytes == 10
  {
  }

  lemma SecondWrite(c: Cache)
    requires c.rows == [QuietRow] && c.bytes == 4 && c.maxBytes == 10
    ensures var d := PutEntry(c, Busy, 4, 2, true); d.rows == [QuietRow, BusyRow] && d.bytes == 8 && d.maxBytes == 10
  {
    TwoSessions();
    assert c.rows[0] == QuietRow && c.rows[1..] == [];
    assert Held([], Busy.sessionId) == None && Held(c.rows, Busy.sessionId) == None;
    assert RowFor(None, Busy, 4, 2) == BusyRow;
    assert SetRow([], BusyRow) == [BusyRow] && SetRow(c.rows, BusyRow) == [QuietRow] + [BusyRow];
  }

  /**
   * The row just written is not safe: a session rewritten at its old place in the order goes first
   * when it no longer fits, though the write that dropped it was its own.
   */
  lemma AWriteMayDropItself()
    ensures var c := Step(Step(Step(Empty(10), Put(Quiet, 4, 1, true)), Put(Busy, 4, 2, true)), Put(Quiet, 9, 3, true));
            Held(c.rows, "quiet").None? && Held(c.rows, "busy").Some?
  {
    TwoSessions();
    FirstWrite();
    SecondWrite(PutEntry(Empty(10), Quiet, 4, 1, true));
    ThirdWrite(PutEntry(PutEntry(Empty(10), Quiet, 4, 1, true), Busy, 4, 2, true));
  }

  lemma DropsTheFirst(d: Cache, first: IndexRow, second: IndexRow)
    requires d.rows == [first, second] && first.sessionId != second.sessionId && Earlier(first, second)
    requires d.bytes > d.maxBytes && d.bytes - first.bytes <= d.maxBytes
    ensures Evict(d).rows == [second]
  {
    SortTwo(first, second);
    assert [first, second][1..] == [second] && [second][1..] == [];
    assert Without([second], first.sessionId) == [second] + Without([], first.sessionId);
    assert Without(d.rows, first.sessionId) == Without([second], first.sessionId);
    assert DropWhileOver(d, [first, second]) == DropWhileOver(Drop(d, first), [second]);
  }

  lemma ThirdWrite(c: Cache)
    requires c.rows == [QuietRow, BusyRow] && c.bytes == 8 && c.maxBytes == 10
    ensures PutEntry(c, Quiet, 9, 3, true).rows == [BusyRow]
  {
    TwoSessions();
    LargerRows(c);
    DropsTheFirst(Written(c, Quiet, 9, 3), QuietRow.(bytes := 9), BusyRow);
  }

  lemma LargerRows(c: Cache)
    requires c.rows == [QuietRow, BusyRow] && c.bytes == 8
    ensures Written(c, Quiet, 9, 3).rows == [QuietRow.(bytes := 9), BusyRow] && Written(c, Quiet, 9, 3).bytes == 13
  {
  }

  lemma SortTwo(a: IndexRow, b: IndexRow)
    requires Earlier(a, b)
    ensures Order([a, b]) == [a, b]
  {
  }
}
