/** Where an archive entry is written: resolved against the destination, and checked to stay inside it. */
module EntryPath {
  import opened Prelude
  import opened Text

  /** `path.resolve` on the segments of an absolute path: empty ones and `.` vanish, `..` takes one back. */
  function Walk(base: seq<string>, steps: seq<string>): seq<string>
    decreases |steps|
  {
    if steps == [] then base
    else
      var step := steps[0];
      Walk(if step == "" || step == "." then base
           else if step == ".." then (if base == [] then [] else base[..|base| - 1])
           else base + [step],
           steps[1..])
  }

  function Common(from: seq<string>, to: seq<string>): (n: nat)
    ensures n <= |from| && n <= |to| && from[..n] == to[..n]
    ensures n == |from| || n == |to| || from[n] != to[n]
  {
    if from == [] || to == [] || from[0] != to[0] then 0
    else
      var rest := Common(from[1..], to[1..]);
      assert from[..rest + 1] == [from[0]] + from[1..][..rest] && to[..rest + 1] == [to[0]] + to[1..][..rest];
      1 + rest
  }

  /** `path.relative`, as its segments. */
  function Relative(from: seq<string>, to: seq<string>): seq<string> {
    var common := Common(from, to);
    seq(|from| - common, i => "..") + to[common..]
  }

  predicate StartsUp(path: string) {
    |path| >= 2 && path[..2] == ".."
  }

  predicate DriveName(name: string) {
    |name| >= 2 && name[1] == ':' && ('a' <= name[0] <= 'z' || 'A' <= name[0] <= 'Z')
  }

  /** `destination` is an absolute path, already resolved; `None` is a refusal. */
  function SafeEntryPath(destination: seq<string>, name: string): Option<seq<string>> {
    if '\0' in name || (name != "" && name[0] == '/') || DriveName(name) then None
    else
      var absolute := Walk(destination, Split(name, '/'));
      if StartsUp(Join(Relative(destination, absolute), '/')) then None else Some(absolute)
  }

  // ---------------------------------------------------------------- proofs

  lemma {:induction false} CommonOfPrefix(from: seq<string>, to: seq<string>)
    requires from <= to
    ensures Common(from, to) == |from|
  {
  }

  lemma JoinStarts(parts: seq<string>, sep: char)
    requires parts != []
    ensures parts[0] <= Join(parts, sep)
    ensures |parts| == 1 ==> Join(parts, sep) == parts[0]
    ensures |parts| > 1 ==> |Join(parts, sep)| > |parts[0]| && Join(parts, sep)[|parts[0]|] == sep
  {
  }

  /** The first two characters of a joined path tell whether its first segment starts with two dots. */
  lemma StartsUpByFirst(parts: seq<string>)
    ensures StartsUp(Join(parts, '/')) <==> parts != [] && StartsUp(parts[0])
  {
    if parts != [] {
      JoinStarts(parts, '/');
      var joined := Join(parts, '/');
      if |parts[0]| >= 2 {
        assert joined[..2] == parts[0][..2];
      } else if |joined| >= 2 && |parts| > 1 {
        assert joined[|parts[0]|] == '/';
        assert joined[..2][|parts[0]|] == '/';
      }
    }
  }

  /** A path outside the destination is reached by going up first. */
  lemma OutsideStartsUp(from: seq<string>, to: seq<string>)
    requires !(from <= to)
    ensures Relative(from, to) != [] && Relative(from, to)[0] == ".."
  {
  }

  /**
   * An entry is written exactly where its name resolves to, and only when that is inside the
   * destination (and what is inside does not itself start with two dots): nothing else is accepted.
   */
  lemma AcceptedEntriesStayInside(destination: seq<string>, name: string)
    ensures var absolute := Walk(destination, Split(name, '/'));
            var safe := SafeEntryPath(destination, name);
            && (safe.Some? ==> safe.value == absolute && destination <= safe.value)
            && (safe.Some? <==>
                  && '\0' !in name && !(name != "" && name[0] == '/') && !DriveName(name)
                  && destination <= absolute
                  && (|absolute| > |destination| ==> !StartsUp(absolute[|destination|])))
  {
    var absolute := Walk(destination, Split(name, '/'));
    StartsUpByFirst(Relative(destination, absolute));
    if destination <= absolute {
      CommonOfPrefix(destination, absolute);
      assert Relative(destination, absolute) == absolute[|destination|..];
    } else {
      OutsideStartsUp(destination, absolute);
      assert StartsUp("..");
    }
  }

  function Plain(steps: seq<string>): seq<string> {
    if steps == [] then [] else (if steps[0] == "" || steps[0] == "." then [] else [steps[0]]) + Plain(steps[1..])
  }

  lemma {:induction false} WalkOfPlain(base: seq<string>, steps: seq<string>)
    requires ".." !in steps
    ensures Walk(base, steps) == base + Plain(steps)
    decreases |steps|
  {
    if steps != [] {
      assert steps[0] in steps;
      var next := if steps[0] == "" || steps[0] == "." then base else base + [steps[0]];
      WalkOfPlain(next, steps[1..]);
    }
  }

  /** A name that never goes up lands under the destination by its own segments. */
  lemma PlainNamesLand(destination: seq<string>, name: string)
    requires ".." !in Split(name, '/') && '\0' !in name && !(name != "" && name[0] == '/') && !DriveName(name)
    requires var plain := Plain(Split(name, '/')); plain != [] ==> !StartsUp(plain[0])
    ensures SafeEntryPath(destination, name) == Some(destination + Plain(Split(name, '/')))
  {
    WalkOfPlain(destination, Split(name, '/'));
    AcceptedEntriesStayInside(destination, name);
  }
}
