/**
 * The transcript cache: a byte-capped, least-recently-served store whose entries
 * answer to several names.
 *
 * A file is named by its session, and its rows are kept as they came. The clock,
 * the size of a payload and whether the disk takes it arrive with the event.
 */
module TranscriptStore {
  import opened Prelude
  import opened StableSort

  const CACHE_ROW_LIMIT := 200

  datatype Shape = Rest | Rpc

  datatype Entry = Entry(sessionId: string, bot: string, owner: string, storedId: string, shape: Shape,
                         rows: seq<string>, updatedAt: int)

  /** What is on disk for one session. */
  datatype Stored = Stored(rows: seq<string>, updatedAt: int)

  datatype IndexRow = IndexRow(sessionId: string, bot: string, owner: string, storedId: string, shape: Shape,
                               bytes: nat, updatedAt: int, readAt: int)

  datatype Hit = Hit(sessionId: string, bot: string, owner: string, storedId: string, shape: Shape,
                     updatedAt: int, rows: seq<string>)

  /** `rows` is in the order the sessions were first seen. */
  datatype Cache = Cache(maxBytes: int, rows: seq<IndexRow>, aliases: map<string, string>, bytes: int,
                         served: nat, missed: nat, disk: map<string, Stored>)

  datatype Event =
    | Put(entry: Entry, size: nat, now: int, written: bool)
    | Get(key: string, reader: string, now: int)
    | Sweep(maxAge: int, now: int)
    | FileLost(sessionId: string)
    | Clear

  function Empty(maxBytes: int): Cache {
    Cache(maxBytes, [], map[], 0, 0, 0, map[])
  }

  function Tail(rows: seq<string>): (tail: seq<string>)
    ensures |tail| <= CACHE_ROW_LIMIT && (|rows| <= CACHE_ROW_LIMIT ==> tail == rows)
  {
    if |rows| > CACHE_ROW_LIMIT then rows[|rows| - CACHE_ROW_LIMIT..] else rows
  }

  // -------------------------------------------------------------- the index

  function Held(rows: seq<IndexRow>, sessionId: string): (held: Option<IndexRow>)
    ensures held.Some? ==> held.value in rows && held.value.sessionId == sessionId
    ensures held.None? ==> forall i :: 0 <= i < |rows| ==> rows[i].sessionId != sessionId
  {
    if rows == [] then None
    else if rows[0].sessionId == sessionId then Some(rows[0])
    else Held(rows[1..], sessionId)
  }

  /** A session already held keeps its place. */
  function SetRow(rows: seq<IndexRow>, row: IndexRow): seq<IndexRow> {
    if rows == [] then [row]
    else if rows[0].sessionId == row.sessionId then [row] + rows[1..]
    else [rows[0]] + SetRow(rows[1..], row)
  }

  function Without(rows: seq<IndexRow>, sessionId: string): seq<IndexRow> {
    if rows == [] then []
    else (if rows[0].sessionId == sessionId then [] else [rows[0]]) + Without(rows[1..], sessionId)
  }

  /** The names a row answers to; a private one never answers to its bot's. */
  function NamesOf(row: IndexRow): seq<string> {
    [row.sessionId, row.storedId] + (if row.owner == "" then [row.bot] else [])
  }

  function AddNames(aliases: map<string, string>, names: seq<string>, sessionId: string): map<string, string>
    decreases |names|
  {
    if names == [] then aliases
    else
      var before, last := AddNames(aliases, names[..|names| - 1], sessionId), names[|names| - 1];
      if last == "" then before else before[last := sessionId]
  }

  function Remember(c: Cache, row: IndexRow): Cache {
    var held := Held(c.rows, row.sessionId);
    c.(bytes := c.bytes - (if held.Some? then held.value.bytes else 0) + row.bytes,
       rows := SetRow(c.rows, row),
       aliases := AddNames(c.aliases, NamesOf(row), row.sessionId))
  }

  function Forget(c: Cache, row: IndexRow): Cache {
    c.(rows := Without(c.rows, row.sessionId), bytes := c.bytes - row.bytes,
       aliases := map name | name in c.aliases && c.aliases[name] != row.sessionId :: c.aliases[name])
  }

  /** `forget`, and the file with it. */
  function Drop(c: Cache, row: IndexRow): Cache {
    Forget(c, row).(disk := c.disk - {row.sessionId})
  }

  // ------------------------------------------------------------- eviction

  predicate Earlier(a: IndexRow, b: IndexRow) {
    a.readAt < b.readAt || (a.readAt == b.readAt && a.updatedAt <= b.updatedAt)
  }

  function Order(rows: seq<IndexRow>): seq<IndexRow> {
    Sort(rows, (a: IndexRow, b: IndexRow) => Earlier(a, b))
  }

  function DropWhileOver(c: Cache, order: seq<IndexRow>): Cache
    decreases |order|
  {
    if order == [] || c.bytes <= c.maxBytes || |c.rows| <= 1 then c else DropWhileOver(Drop(c, order[0]), order[1..])
  }

  function Evict(c: Cache): Cache {
    if c.bytes <= c.maxBytes then c else DropWhileOver(c, Order(c.rows))
  }

  // ----------------------------------------------------------- operations

  predicate Stores(maxBytes: int, entry: Entry) {
    maxBytes > 0 && entry.sessionId != "" && entry.rows != []
  }

  /** What a write puts on disk; a date of zero is no date. */
  function Payload(entry: Entry, now: int): Stored {
    Stored(Tail(entry.rows), if entry.updatedAt != 0 then entry.updatedAt else now)
  }

  function Or(text: string, other: string): string {
    if text != "" then text else other
  }

  /** A writer that does not know the bot does not erase one an earlier writer did. */
  function RowFor(held: Option<IndexRow>, entry: Entry, size: nat, now: int): IndexRow {
    var bot := if held.Some? then held.value.bot else "";
    IndexRow(entry.sessionId, Or(entry.bot, bot), if bot != "" then "" else entry.owner,
             Or(entry.storedId, if held.Some? then held.value.storedId else ""), entry.shape, size,
             Payload(entry, now).updatedAt, if held.Some? then held.value.readAt else now)
  }

  function Written(c: Cache, entry: Entry, size: nat, now: int): Cache {
    Remember(c.(disk := c.disk[entry.sessionId := Payload(entry, now)]), RowFor(Held(c.rows, entry.sessionId), entry, size, now))
  }

  function PutEntry(c: Cache, entry: Entry, size: nat, now: int, written: bool): Cache {
    if !Stores(c.maxBytes, entry) || !written then c else Evict(Written(c, entry, size, now))
  }

  function Touch(rows: seq<IndexRow>, sessionId: string, now: int): seq<IndexRow> {
    if rows == [] then []
    else [if rows[0].sessionId == sessionId then rows[0].(readAt := now) else rows[0]] + Touch(rows[1..], sessionId, now)
  }

  /** The row a key names, if its reader may have it. */
  function Found(c: Cache, key: string, reader: string): Option<IndexRow> {
    if key !in c.aliases then None
    else
      var row := Held(c.rows, c.aliases[key]);
      if row.Some? && row.value.owner != "" && row.value.owner != reader then None else row
  }

  function HitOf(row: IndexRow, stored: Stored): Hit {
    Hit(row.sessionId, row.bot, row.owner, row.storedId, row.shape, stored.updatedAt, stored.rows)
  }

  function GetEntry(c: Cache, key: string, reader: string, now: int): (Cache, Option<Hit>) {
    if c.maxBytes <= 0 || key == "" then (c, None)
    else
      var found := Found(c, key, reader);
      if found.None? then (c.(missed := c.missed + 1), None)
      else if found.value.sessionId !in c.disk then (Forget(c, found.value).(missed := c.missed + 1), None)
      else
        (c.(served := c.served + 1, rows := Touch(c.rows, found.value.sessionId, now)),
         Some(HitOf(found.value, c.disk[found.value.sessionId])))
  }

  function DropStale(c: Cache, rows: seq<IndexRow>, cutoff: int): Cache
    decreases |rows|
  {
    if rows == [] then c
    else DropStale(if rows[0].readAt <= cutoff then Drop(c, rows[0]) else c, rows[1..], cutoff)
  }

  function SweepRows(c: Cache, maxAge: int, now: int): Cache {
    if c.maxBytes <= 0 || maxAge <= 0 then c else DropStale(c, c.rows, now - maxAge)
  }

  function Step(c: Cache, e: Event): Cache {
    match e
    case Put(entry, size, now, written) => PutEntry(c, entry, size, now, written)
    case Get(key, reader, now) => GetEntry(c, key, reader, now).0
    case Sweep(maxAge, now) => SweepRows(c, maxAge, now)
    case FileLost(sessionId) => c.(disk := c.disk - {sessionId})
    case Clear => c.(rows := [], aliases := map[], bytes := 0, disk := map[])
  }

  function Run(maxBytes: int, events: seq<Event>): Cache
    decreases |events|
  {
    if events == [] then Empty(maxBytes) else Step(Run(maxBytes, events[..|events| - 1]), events[|events| - 1])
  }

  /** The plain map: what the newest stored write of a session said. */
  function Newest(maxBytes: int, events: seq<Event>, sessionId: string): Option<Stored>
    decreases |events|
  {
    if events == [] then None
    else
      var last := events[|events| - 1];
      if last.Put? && last.written && last.entry.sessionId == sessionId && Stores(maxBytes, last.entry) then
        Some(Payload(last.entry, last.now))
      else Newest(maxBytes, events[..|events| - 1], sessionId)
  }
}
