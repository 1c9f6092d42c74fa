/** Unpacking an archive's entries below a directory, with its one wrapper directory dropped. */
module Extraction {
  import opened Prelude
  import opened Text
  import opened EntryPath

  /** A name as it was decoded, and what goes into the file. */
  datatype Entry<T> = Entry(name: string, data: T)

  datatype File<T> = File(path: seq<string>, data: T)

  /** What was written, and the entry that was refused, which ends the extraction. */
  datatype Outcome<T> = Outcome(files: seq<File<T>>, refused: Option<string>)

  predicate IsUnder(name: string, top: string) {
    name == top || top + "/" <= name
  }

  function CommonTopLevel<T>(entries: seq<Entry<T>>): string {
    if entries == [] then ""
    else
      var first := Split(entries[0].name, '/')[0];
      if first != "" && forall i :: 0 <= i < |entries| ==> IsUnder(entries[i].name, first) then first + "/" else ""
  }

  function Stripped(strip: string, name: string): string {
    if strip != "" && strip <= name then name[|strip|..] else name
  }

  /** A directory, or the wrapper itself. */
  predicate IsSkipped(name: string) {
    name == "" || name[|name| - 1] == '/'
  }

  /** Where one entry goes: nowhere, to a file, or not at all. */
  function Place<T>(destination: seq<string>, strip: string, before: Outcome<T>, entry: Entry<T>): Outcome<T> {
    var name := Stripped(strip, entry.name);
    if before.refused.Some? || IsSkipped(name) then before
    else
      var absolute := SafeEntryPath(destination, name);
      if absolute.None? then before.(refused := Some(entry.name))
      else before.(files := before.files + [File(absolute.value, entry.data)])
  }

  function Extracted<T>(destination: seq<string>, strip: string, entries: seq<Entry<T>>): Outcome<T>
    decreases |entries|
  {
    if entries == [] then Outcome([], None)
    else Place(destination, strip, Extracted(destination, strip, entries[..|entries| - 1]), entries[|entries| - 1])
  }

  method ExtractZip<T>(destination: seq<string>, entries: seq<Entry<T>>, stripTopLevel: bool) returns (outcome: Outcome<T>)
    ensures outcome == Extracted(destination, if stripTopLevel then CommonTopLevel(entries) else "", entries)
  {
    var strip := if stripTopLevel then CommonTopLevel(entries) else "";
    var files: seq<File<T>> := [];
    for i := 0 to |entries|
      invariant Extracted(destination, strip, entries[..i]) == Outcome(files, None)
    {
      assert entries[..i + 1][..i] == entries[..i];
      var name := Stripped(strip, entries[i].name);
      if !IsSkipped(name) {
        var absolute := SafeEntryPath(destination, name);
        if absolute.None? {
          RefusalIsFinal(destination, strip, entries, i + 1);
          return Outcome(files, Some(entries[i].name));
        }
        files := files + [File(absolute.value, entries[i].data)];
      }
    }
    assert entries[..|entries|] == entries;
    outcome := Outcome(files, None);
  }

  lemma {:induction false} RefusalIsFinal<T>(destination: seq<string>, strip: string, entries: seq<Entry<T>>, i: nat)
    requires i <= |entries| && Extracted(destination, strip, entries[..i]).refused.Some?
    ensures Extracted(destination, strip, entries) == Extracted(destination, strip, entries[..i])
    decreases |entries| - i
  {
    if i == |entries| {
      assert entries[..i] == entries;
    } else {
      assert entries[..i + 1][..i] == entries[..i];
      RefusalIsFinal(destination, strip, entries, i + 1);
    }
  }

  // ---------------------------------------------------------------- proofs

  /** Whatever the archive holds, and whether or not it is refused half-way, no file lands outside. */
  lemma {:induction false} NothingLandsOutside<T>(destination: seq<string>, strip: string, entries: seq<Entry<T>>)
    ensures forall i :: 0 <= i < |Extracted(destination, strip, entries).files| ==>
                          destination <= Extracted(destination, strip, entries).files[i].path
    decreases |entries|
  {
    if entries != [] {
      NothingLandsOutside(destination, strip, entries[..|entries| - 1]);
      AcceptedEntriesStayInside(destination, Stripped(strip, entries[|entries| - 1].name));
    }
  }

  /** An entry that ends the extraction: it names a file, and that file is outside. */
  predicate Escapes<T>(destination: seq<string>, strip: string, entry: Entry<T>) {
    !IsSkipped(Stripped(strip, entry.name)) && SafeEntryPath(destination, Stripped(strip, entry.name)).None?
  }

  /** An escape ends the extraction there: the first one is named, and what came before it stays written. */
  lemma {:induction false} TheFirstEscapeIsNamed<T>(destination: seq<string>, strip: string, entries: seq<Entry<T>>, i: nat)
    requires i < |entries| && Escapes(destination, strip, entries[i])
    requires forall j :: 0 <= j < i ==> !Escapes(destination, strip, entries[j])
    ensures Extracted(destination, strip, entries) ==
              Extracted(destination, strip, entries[..i]).(refused := Some(entries[i].name))
  {
    NoEscapeNoRefusal(destination, strip, entries[..i]);
    ExtractsOne(destination, strip, entries, i);
    PlaceRefuses(destination, strip, Extracted(destination, strip, entries[..i]), entries[i]);
    RefusalIsFinal(destination, strip, entries, i + 1);
  }

  lemma PlaceRefuses<T>(destination: seq<string>, strip: string, before: Outcome<T>, entry: Entry<T>)
    requires before.refused.None? && Escapes(destination, strip, entry)
    ensures Place(destination, strip, before, entry) == before.(refused := Some(entry.name))
  {
  }

  lemma {:induction false} NoEscapeNoRefusal<T>(destination: seq<string>, strip: string, entries: seq<Entry<T>>)
    requires forall j :: 0 <= j < |entries| ==> !Escapes(destination, strip, entries[j])
    ensures Extracted(destination, strip, entries).refused.None?
    decreases |entries|
  {
    if entries != [] {
      NoEscapeNoRefusal(destination, strip, entries[..|entries| - 1]);
    }
  }

  lemma PlaceGrows<T>(destination: seq<string>, strip: string, before: Outcome<T>, entry: Entry<T>)
    ensures before.files <= Place(destination, strip, before, entry).files
  {
  }

  lemma PlacesOne<T>(destination: seq<string>, strip: string, before: Outcome<T>, entry: Entry<T>)
    requires before.refused.None? && !IsSkipped(Stripped(strip, entry.name)) && !Escapes(destination, strip, entry)
    ensures var after := Place(destination, strip, before, entry);
            && |after.files| == |before.files| + 1 && after.files[|before.files|].data == entry.data
            && Some(after.files[|before.files|].path) == SafeEntryPath(destination, Stripped(strip, entry.name))
  {
  }

  lemma ExtractsOne<T>(destination: seq<string>, strip: string, entries: seq<Entry<T>>, i: nat)
    requires i < |entries|
    ensures Extracted(destination, strip, entries[..i + 1]) ==
            Place(destination, strip, Extracted(destination, strip, entries[..i]), entries[i])
  {
    assert entries[..i + 1][..i] == entries[..i];
  }

  lemma {:induction false} FilesGrow<T>(destination: seq<string>, strip: string, entries: seq<Entry<T>>, i: nat)
    requires i <= |entries|
    ensures Extracted(destination, strip, entries[..i]).files <= Extracted(destination, strip, entries).files
    decreases |entries| - i
  {
    if i < |entries| {
      ExtractsOne(destination, strip, entries, i);
      PlaceGrows(destination, strip, Extracted(destination, strip, entries[..i]), entries[i]);
      FilesGrow(destination, strip, entries, i + 1);
    } else {
      assert entries[..i] == entries;
    }
  }

  /** Without an escape every file entry is written, once, in order: the `k`th file is that of the `k`th of them. */
  lemma EveryFileIsWritten<T>(destination: seq<string>, strip: string, entries: seq<Entry<T>>, i: nat)
    requires i < |entries| && !IsSkipped(Stripped(strip, entries[i].name))
    requires forall j :: 0 <= j < |entries| ==> !Escapes(destination, strip, entries[j])
    ensures var files, k := Extracted(destination, strip, entries).files, |Extracted(destination, strip, entries[..i]).files|;
            k < |files| && files[k].data == entries[i].data
            && Some(files[k].path) == SafeEntryPath(destination, Stripped(strip, entries[i].name))
  {
    NoEscapeNoRefusal(destination, strip, entries[..i]);
    ExtractsOne(destination, strip, entries, i);
    PlacesOne(destination, strip, Extracted(destination, strip, entries[..i]), entries[i]);
    FilesGrow(destination, strip, entries, i + 1);
  }

  lemma FirstSegment(name: string, top: string)
    requires '/' !in top && IsUnder(name, top)
    ensures Split(name, '/')[0] == top
  {
    if name == top {
      SplitOne(name, '/');
    } else {
      var rest := name[|top| + 1..];
      assert name == top + ['/'] + rest;
      SplitAt(top, '/', rest);
    }
  }

  predicate Wraps<T>(entries: seq<Entry<T>>, top: string) {
    top != "" && '/' !in top && forall i :: 0 <= i < |entries| ==> IsUnder(entries[i].name, top)
  }

  /** The wrapper is found from the first entry alone: one is dropped exactly when some directory wraps everything. */
  lemma TheWrapperIsFound<T>(entries: seq<Entry<T>>, top: string)
    requires entries != []
    ensures CommonTopLevel(entries) == top + "/" && '/' !in top && top != "" <==> Wraps(entries, top)
    ensures CommonTopLevel(entries) == "" <==> forall any :: !Wraps(entries, any)
  {
    var first := Split(entries[0].name, '/')[0];
    forall any | Wraps(entries, any) ensures any == first {
      FirstSegment(entries[0].name, any);
    }
    if CommonTopLevel(entries) == top + "/" {
      assert (top + "/")[..|top|] == top && (first + "/")[..|first|] == first;
    }
    if CommonTopLevel(entries) != "" {
      assert Wraps(entries, first);
    }
  }

  /**
   * Dropping the wrapper keeps two names apart, with one exception: a file called like the wrapper and
   * an entry of that name inside it.
   */
  lemma StrippedNamesStayApart(top: string, a: string, b: string)
    requires '/' !in top && top != "" && IsUnder(a, top) && IsUnder(b, top) && a != b
    ensures Stripped(top + "/", a) == Stripped(top + "/", b) <==>
              (a == top && b == top + "/" + top) || (b == top && a == top + "/" + top)
  {
    var strip := top + "/";
    assert strip[|top|] == '/';
    assert !(strip <= top);
    assert strip <= a ==> a == strip + a[|strip|..];
    assert strip <= b ==> b == strip + b[|strip|..];
  }
}
