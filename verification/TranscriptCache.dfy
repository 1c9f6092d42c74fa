/** The transcript cache as the object it is; each method runs to its end before the next begins. */
module TranscriptCache {
  import opened Prelude
  import T = TranscriptStore

  class TranscriptCache {
    const maxBytes: int
    var rows: seq<T.IndexRow>
    var aliases: map<string, string>
    var bytes: int
    var served: nat
    var missed: nat
    /** The files of the cache's directory, by session. */
    var disk: map<string, T.Stored>

    ghost function Model(): T.Cache
      reads this
    {
      T.Cache(maxBytes, rows, aliases, bytes, served, missed, disk)
    }

    constructor (maxBytes: int)
      ensures Model() == T.Empty(maxBytes)
    {
      this.maxBytes := maxBytes;
      rows, aliases, bytes, served, missed, disk := [], map[], 0, 0, 0, map[];
    }

    method Remember(row: T.IndexRow)
      modifies this
      ensures Model() == T.Remember(old(Model()), row)
    {
      var held := T.Held(rows, row.sessionId);
      if held.Some? {
        bytes := bytes - held.value.bytes;
      }
      rows := T.SetRow(rows, row);
      bytes := bytes + row.bytes;
      var names := T.NamesOf(row);
      var i := 0;
      while i < |names|
        invariant 0 <= i <= |names|
        invariant aliases == T.AddNames(old(aliases), names[..i], row.sessionId)
        modifies `aliases
      {
        if names[i] != "" {
          aliases := aliases[names[i] := row.sessionId];
        }
        assert names[..i + 1][..i] == names[..i];
        i := i + 1;
      }
      assert names[..i] == names;
    }

    /** The names of a row are visited in any order, and only its own are dropped. */
    method Forget(row: T.IndexRow)
      modifies this
      ensures Model() == T.Forget(old(Model()), row)
    {
      rows := T.Without(rows, row.sessionId);
      bytes := bytes - row.bytes;
      var left := aliases.Keys;
      while left != {}
        invariant left <= old(aliases).Keys
        invariant aliases ==
                  map name | name in old(aliases) && (name in left || old(aliases)[name] != row.sessionId) :: old(aliases)[name]
        modifies `aliases
        decreases left
      {
        var name :| name in left;
        if aliases[name] == row.sessionId {
          aliases := aliases - {name};
        }
        left := left - {name};
      }
    }

    method Drop(row: T.IndexRow)
      modifies this
      ensures Model() == T.Drop(old(Model()), row)
    {
      Forget(row);
      disk := disk - {row.sessionId};
    }

    method Put(entry: T.Entry, size: nat, now: int, written: bool)
      modifies this
      ensures Model() == T.PutEntry(old(Model()), entry, size, now, written)
    {
      if maxBytes <= 0 || entry.sessionId == "" || entry.rows == [] || !written {
        return;
      }
      disk := disk[entry.sessionId := T.Payload(entry, now)];
      var held := T.Held(rows, entry.sessionId);
      Remember(T.RowFor(held, entry, size, now));
      Evict();
    }

    method Evict()
      modifies this
      ensures Model() == T.Evict(old(Model()))
    {
      if bytes <= maxBytes {
        return;
      }
      var order := T.Order(rows);
      ghost var start := Model();
      var i := 0;
      while i < |order| && bytes > maxBytes && |rows| > 1
        invariant 0 <= i <= |order|
        invariant T.DropWhileOver(Model(), order[i..]) == T.DropWhileOver(start, order)
      {
        assert order[i..][0] == order[i] && order[i..][1..] == order[i + 1..];
        Drop(order[i]);
        i := i + 1;
      }
    }

    method Get(key: string, reader: string, now: int) returns (hit: Option<T.Hit>)
      modifies this
      ensures (Model(), hit) == T.GetEntry(old(Model()), key, reader, now)
    {
      if maxBytes <= 0 || key == "" {
        return None;
      }
      var row := if key in aliases then T.Held(rows, aliases[key]) else None;
      if row.None? {
        missed := missed + 1;
        return None;
      }
      if row.value.owner != "" && row.value.owner != reader {
        missed := missed + 1;
        return None;
      }
      if row.value.sessionId !in disk {
        Forget(row.value);
        missed := missed + 1;
        return None;
      }
      served := served + 1;
      rows := T.Touch(rows, row.value.sessionId, now);
      hit := Some(T.HitOf(row.value, disk[row.value.sessionId]));
    }

    method Sweep(maxAge: int, now: int) returns (dropped: nat)
      modifies this
      ensures Model() == T.SweepRows(old(Model()), maxAge, now)
    {
      dropped := 0;
      if maxBytes <= 0 || maxAge <= 0 {
        return;
      }
      var cutoff := now - maxAge;
      var all := rows;
      ghost var start := Model();
      var i := 0;
      while i < |all|
        invariant 0 <= i <= |all|
        invariant T.DropStale(Model(), all[i..], cutoff) == T.DropStale(start, all, cutoff)
      {
        assert all[i..][0] == all[i] && all[i..][1..] == all[i + 1..];
        if all[i].readAt <= cutoff {
          Drop(all[i]);
          dropped := dropped + 1;
        }
        i := i + 1;
      }
    }

    method Clear()
      modifies this
      ensures Model() == T.Step(old(Model()), T.Clear)
    {
      rows, aliases, bytes, disk := [], map[], 0, map[];
    }
  }
}
