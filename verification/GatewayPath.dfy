/**
 * Request paths: what this service reads a raw path as, and what the gateway's
 * own server decodes it to.
 *
 * A raw path is visible ASCII; a decoded one is text. What the gateway's server
 * makes of bytes that are not UTF-8, and NFKC, are parameters.
 */
module GatewayPath {
  import opened Prelude
  import opened Text

  // ----------------------------------------------------------------- UTF-8

  type Byte = int

  function SequenceLength(lead: Byte): nat {
    if lead < 0x80 then 1
    else if 0xC0 <= lead < 0xE0 then 2
    else if 0xE0 <= lead < 0xF0 then 3
    else if 0xF0 <= lead < 0xF8 then 4
    else 0
  }

  predicate Continues(b: Byte) {
    0x80 <= b < 0xC0
  }

  function Scalar(code: int): Option<char> {
    if 0 <= code < 0xD800 || 0xE000 <= code < 0x11_0000 then Some(code as char) else None
  }

  /** The bits a leading byte carries. */
  function Lead(b: Byte): int {
    if b < 0x80 then b else if b < 0xE0 then b - 0xC0 else if b < 0xF0 then b - 0xE0 else b - 0xF0
  }

  /** The bits of one sequence, six from each byte behind the first; `None` if one of those does not continue it. */
  function Code(bytes: seq<Byte>): Option<int>
    requires bytes != []
    decreases |bytes|
  {
    var last := bytes[|bytes| - 1];
    if |bytes| == 1 then Some(Lead(last))
    else if !Continues(last) then None
    else
      var front := Code(bytes[..|bytes| - 1]);
      if front.None? then None else Some(front.value * 0x40 + (last - 0x80))
  }

  /** The smallest code a sequence of that length may spell. */
  function LeastCode(length: nat): int {
    if length <= 1 then 0 else if length == 2 then 0x80 else if length == 3 then 0x800 else 0x1_0000
  }

  /** One well-formed sequence: no overlong form, no surrogate, nothing above U+10FFFF. */
  function CharOf(bytes: seq<Byte>): Option<char> {
    if bytes == [] || |bytes| != SequenceLength(bytes[0]) then None
    else
      var code := Code(bytes);
      if code.None? || code.value < LeastCode(|bytes|) then None else Scalar(code.value)
  }

  function Utf8(bytes: seq<Byte>): Option<string>
    decreases |bytes|
  {
    if bytes == [] then Some("")
    else
      var n := SequenceLength(bytes[0]);
      if n == 0 || n > |bytes| || CharOf(bytes[..n]).None? then None
      else
        var rest := Utf8(bytes[n..]);
        if rest.None? then None else Some([CharOf(bytes[..n]).value] + rest.value)
  }

  // --------------------------------------------------------------- escapes

  predicate IsHex(c: char) {
    '0' <= c <= '9' || 'a' <= c <= 'f' || 'A' <= c <= 'F'
  }

  function HexValue(c: char): (v: int)
    requires IsHex(c)
    ensures 0 <= v < 16
  {
    if c <= '9' then c as int - '0' as int
    else if c <= 'F' then c as int - 'A' as int + 10
    else c as int - 'a' as int + 10
  }

  predicate EscapeAt(s: string, i: nat) {
    i + 2 < |s| && s[i] == '%' && IsHex(s[i + 1]) && IsHex(s[i + 2])
  }

  function EscapedByte(s: string, i: nat): Byte
    requires EscapeAt(s, i)
  {
    HexValue(s[i + 1]) * 16 + HexValue(s[i + 2])
  }

  /** The bytes of the escapes from `i` on, `n` of them. */
  function EscapedBytes(s: string, n: nat): Option<seq<Byte>>
    decreases n
  {
    if n == 0 then Some([])
    else if !EscapeAt(s, 0) then None
    else
      var rest := EscapedBytes(s[3..], n - 1);
      if rest.None? then None else Some([EscapedByte(s, 0)] + rest.value)
  }

  /** `decodeURIComponent`: `None` where it throws. */
  function Decode(s: string): Option<string>
    decreases |s|
  {
    if s == "" then Some("")
    else if s[0] != '%' then
      var rest := Decode(s[1..]);
      if rest.None? then None else Some([s[0]] + rest.value)
    else if !EscapeAt(s, 0) then None
    else
      var n := SequenceLength(EscapedByte(s, 0));
      var bytes := EscapedBytes(s, n);
      if n == 0 || bytes.None? || CharOf(bytes.value).None? || 3 * n > |s| then None
      else
        var rest := Decode(s[3 * n..]);
        if rest.None? then None else Some([CharOf(bytes.value).value] + rest.value)
  }

  // ------------------------------------------------------- the raw target

  predicate VisibleAscii(s: string) {
    forall i :: 0 <= i < |s| ==> '!' <= s[i] <= '~'
  }

  predicate IsControl(c: char) {
    c <= '\U{1f}' || '\U{7f}' <= c <= '\U{9f}'
  }

  predicate ForbiddenInSegment(c: char) {
    c == '%' || c == '?' || c == '#' || c == '/' || c == '\\' || IsControl(c)
  }

  predicate IsDot(s: string) {
    s == "." || s == ".."
  }

  // ------------------------------------------------------ the canonical path

  /** One decoded segment outside `/api`, unless a second reader could read it differently. */
  function CleanSegment(raw: string): Option<string> {
    var value := Decode(raw);
    if value.None? || (exists c :: c in value.value && ForbiddenInSegment(c)) || IsDot(value.value) then None else value
  }

  function CleanSegments(raw: seq<string>): Option<seq<string>> {
    if raw == [] then Some([])
    else
      var first, rest := CleanSegment(raw[0]), CleanSegments(raw[1..]);
      if first.None? || rest.None? then None else Some([first.value] + rest.value)
  }

  function NonEmpty(parts: seq<string>): seq<string> {
    if parts == [] then [] else (if parts[0] == "" then [] else [parts[0]]) + NonEmpty(parts[1..])
  }

  predicate MovesAPath(c: char) {
    c == '/' || c == '\\' || c == ';' || IsControl(c) || c == '\U{ff0e}'
  }

  /** Some hop could take this stage for a dot segment, or for more than one segment. */
  predicate Moves(stage: string, nfkc: string -> string) {
    IsDot(stage) || IsDot(nfkc(stage))
    || (exists c :: c in stage && MovesAPath(c)) || (exists c :: c in nfkc(stage) && MovesAPath(c))
  }

  const PASSES := 8

  function ApiSegmentMayMove(stage: string, pass: nat, nfkc: string -> string): bool
    decreases PASSES - pass
  {
    if pass >= PASSES then true
    else if Moves(stage, nfkc) then true
    else
      var next := Decode(stage);
      if next.None? then pass == 0
      else if next.value == stage then false
      else ApiSegmentMayMove(next.value, pass + 1, nfkc)
  }

  function CanonicalGatewayPath(raw: string, nfkc: string -> string): Option<string> {
    if raw == "" || raw[0] != '/' || !VisibleAscii(raw) then None
    else
      var segments := Split(raw[1..], '/');
      var first := Decode(segments[0]);
      if first.None? then None
      else if first.value == "api" then
        var rest := raw[1 + |segments[0]|..];
        if exists segment :: segment in Split(rest, '/') && ApiSegmentMayMove(segment, 0, nfkc) then None
        else Some("/api" + rest)
      else
        var clean := CleanSegments(segments);
        if clean.None? then None else Some("/" + Join(NonEmpty(clean.value), '/'))
  }

  // ------------------------------------------------------------ the gateway

  /** The bytes the gateway's server decodes a path to: escapes once, and anything else as it is. */
  function PathBytes(s: string): seq<Byte>
    requires VisibleAscii(s)
    decreases |s|
  {
    if s == "" then []
    else if EscapeAt(s, 0) then [EscapedByte(s, 0)] + PathBytes(s[3..])
    else [s[0] as int] + PathBytes(s[1..])
  }

  /** The path the gateway routes on; `garbled` is its text for bytes that are not UTF-8. */
  function GatewayReads(raw: string, garbled: seq<Byte> -> string): string
    requires VisibleAscii(raw)
  {
    Utf8(PathBytes(raw)).GetOr(garbled(PathBytes(raw)))
  }

  function DropEmptySegments(path: string): string {
    if path == "" then "" else "/" + Join(NonEmpty(Split(path[1..], '/')), '/')
  }

  // ---------------------------------------------------- one decode, two ways

  /** Any decoding by leading bytes: how long a character is, and which one it is. */
  function DecodeWith(length: Byte -> nat, one: seq<Byte> -> Option<char>, bytes: seq<Byte>): Option<string>
    decreases |bytes|
  {
    if bytes == [] then Some("")
    else
      var n := length(bytes[0]);
      if n == 0 || n > |bytes| || one(bytes[..n]).None? then None
      else
        var rest := DecodeWith(length, one, bytes[n..]);
        if rest.None? then None else Some([one(bytes[..n]).value] + rest.value)
  }

  lemma DecodingStep(length: Byte -> nat, one: seq<Byte> -> Option<char>, head: seq<Byte>, rest: seq<Byte>)
    requires head != [] && length(head[0]) == |head| && one(head).Some?
    ensures var after := DecodeWith(length, one, rest);
            DecodeWith(length, one, head + rest) == if after.None? then None else Some([one(head).value] + after.value)
  {
    assert (head + rest)[..|head|] == head && (head + rest)[|head|..] == rest;
  }

  lemma Associates<T>(a: seq<T>, b: seq<T>, c: seq<T>)
    ensures a + (b + c) == a + b + c
  {
  }

  lemma {:induction false} DecodingConcatenates(length: Byte -> nat, one: seq<Byte> -> Option<char>, a: seq<Byte>, b: seq<Byte>)
    requires DecodeWith(length, one, a).Some?
    ensures var first, second := DecodeWith(length, one, a), DecodeWith(length, one, b);
            DecodeWith(length, one, a + b) == if second.None? then None else Some(first.value + second.value)
    decreases |a|
  {
    var second := DecodeWith(length, one, b);
    if a == [] {
      assert a + b == b;
      assert second.Some? ==> "" + second.value == second.value;
    } else {
      var n := length(a[0]);
      var head, rest := a[..n], a[n..];
      DecodingConcatenates(length, one, rest, b);
      DecodingStep(length, one, head, rest + b);
      Associates(head, rest, b);
      assert head + rest == a;
      if second.Some? {
        Associates([one(head).value], DecodeWith(length, one, rest).value, second.value);
      }
    }
  }

  lemma {:induction false} Utf8Decodes(bytes: seq<Byte>)
    ensures Utf8(bytes) == DecodeWith((b: Byte) => SequenceLength(b), (s: seq<Byte>) => CharOf(s), bytes)
    decreases |bytes|
  {
    if bytes != [] {
      var n := SequenceLength(bytes[0]);
      if 0 < n <= |bytes| {
        Utf8Decodes(bytes[n..]);
      }
    }
  }

  lemma Utf8Concatenates(a: seq<Byte>, b: seq<Byte>)
    requires Utf8(a).Some?
    ensures Utf8(a + b) == if Utf8(b).None? then None else Some(Utf8(a).value + Utf8(b).value)
  {
    Utf8Decodes(a);
    Utf8Decodes(b);
    Utf8Decodes(a + b);
    DecodingConcatenates((b: Byte) => SequenceLength(b), (s: seq<Byte>) => CharOf(s), a, b);
  }

  /** An escape never runs into the next segment. */
  lemma NoEscapeAcross(a: string, b: string)
    requires a != "" && (b == "" || b[0] == '/')
    ensures EscapeAt(a + b, 0) <==> EscapeAt(a, 0)
  {
  }

  lemma VisibleParts(a: string, b: string)
    requires VisibleAscii(a + b)
    ensures VisibleAscii(a) && VisibleAscii(b)
  {
    assert forall i :: 0 <= i < |a| ==> a[i] == (a + b)[i];
    assert forall i :: 0 <= i < |b| ==> b[i] == (a + b)[|a| + i];
  }

  lemma {:induction false} PathBytesSplit(a: string, b: string)
    requires VisibleAscii(a) && VisibleAscii(b) && (b == "" || b[0] == '/')
    ensures PathBytes(a + b) == PathBytes(a) + PathBytes(b)
    decreases |a|
  {
    if a == "" {
      assert a + b == b;
    } else {
      NoEscapeAcross(a, b);
      var step := if EscapeAt(a, 0) then 3 else 1;
      assert (a + b)[step..] == a[step..] + b;
      PathBytesSplit(a[step..], b);
    }
  }

  /** The escapes of one character, and what comes behind them. */
  lemma {:induction false} EscapedPrefix(s: string, n: nat)
    requires VisibleAscii(s) && EscapedBytes(s, n).Some?
    ensures 3 * n <= |s| && |EscapedBytes(s, n).value| == n
    ensures PathBytes(s) == EscapedBytes(s, n).value + PathBytes(s[3 * n..])
    decreases n
  {
    if n == 0 {
      assert s[0..] == s;
    } else {
      var rest := s[3..];
      EscapedPrefix(rest, n - 1);
      assert rest[3 * (n - 1)..] == s[3 * n..];
      var bytes := EscapedBytes(rest, n - 1).value;
      assert EscapedBytes(s, n) == Some([EscapedByte(s, 0)] + bytes);
      assert PathBytes(s) == [EscapedByte(s, 0)] + PathBytes(rest);
    }
  }

  lemma Utf8Char(bytes: seq<Byte>, rest: seq<Byte>)
    requires bytes != [] && SequenceLength(bytes[0]) == |bytes| && CharOf(bytes).Some? && Utf8(rest).Some?
    ensures Utf8(bytes + rest) == Some([CharOf(bytes).value] + Utf8(rest).value)
  {
  }

  /** Where a segment decodes here, the gateway's bytes for it are that very text. */
  lemma {:induction false} DecodesAlike(s: string)
    requires VisibleAscii(s) && Decode(s).Some?
    ensures Utf8(PathBytes(s)) == Decode(s)
    decreases |s|
  {
    if s != "" {
      if s[0] != '%' {
        DecodesAlike(s[1..]);
        Utf8Char([s[0] as int], PathBytes(s[1..]));
      } else {
        var n := SequenceLength(EscapedByte(s, 0));
        var bytes := EscapedBytes(s, n).value;
        EscapedPrefix(s, n);
        DecodesAlike(s[3 * n..]);
        assert bytes[0] == EscapedByte(s, 0);
        Utf8Char(bytes, PathBytes(s[3 * n..]));
      }
    }
  }

  // ------------------------------------------------- the path as a whole

  lemma {:induction false} CleanOnes(raw: seq<string>, i: nat)
    requires CleanSegments(raw).Some?
    ensures |CleanSegments(raw).value| == |raw|
    ensures i < |raw| ==> CleanSegment(raw[i]) == Some(CleanSegments(raw).value[i])
  {
    if raw != [] {
      CleanOnes(raw[1..], if i == 0 then 0 else i - 1);
    }
  }

  /** The gateway reads the segments joined as the clean segments joined. */
  lemma {:induction false} JoinReads(raw: seq<string>)
    requires raw != [] && VisibleAscii(Join(raw, '/')) && CleanSegments(raw).Some?
    ensures Utf8(PathBytes(Join(raw, '/'))) == Some(Join(CleanSegments(raw).value, '/'))
  {
    var clean := CleanSegments(raw).value;
    CleanOnes(raw, 0);
    if |raw| == 1 {
      DecodesAlike(raw[0]);
      assert clean == [CleanSegment(raw[0]).value];
    } else {
      var tail := Join(raw[1..], '/');
      assert Join(raw, '/') == raw[0] + ("/" + tail);
      VisibleParts(raw[0], "/" + tail);
      VisibleParts("/", tail);
      PathBytesSplit(raw[0], "/" + tail);
      DecodesAlike(raw[0]);
      JoinReads(raw[1..]);
      CleanOnes(raw[1..], 0);
      assert clean[1..] == CleanSegments(raw[1..]).value;
      assert ("/" + tail)[1..] == tail;
      Utf8Char(['/' as int], PathBytes(tail));
      Utf8Concatenates(PathBytes(raw[0]), PathBytes("/" + tail));
      assert clean[0] + ("/" + Join(clean[1..], '/')) == Join(clean, '/');
    }
  }

  lemma SegmentsRead(raw: string)
    requires raw != "" && raw[0] == '/' && VisibleAscii(raw) && CleanSegments(Split(raw[1..], '/')).Some?
    ensures Utf8(PathBytes(raw)) == Some("/" + Join(CleanSegments(Split(raw[1..], '/')).value, '/'))
  {
    var segments := Split(raw[1..], '/');
    JoinSplit(raw[1..], '/');
    assert raw == "/" + raw[1..];
    JoinReads(segments);
    Utf8Char(['/' as int], PathBytes(raw[1..]));
    assert !EscapeAt(raw, 0);
  }

  lemma CleanHasNoSlash(segments: seq<string>)
    requires CleanSegments(segments).Some?
    ensures forall i :: 0 <= i < |CleanSegments(segments).value| ==> '/' !in CleanSegments(segments).value[i]
  {
  }

  lemma EmptiesDropped(parts: seq<string>)
    requires parts != [] && forall i :: 0 <= i < |parts| ==> '/' !in parts[i]
    ensures DropEmptySegments("/" + Join(parts, '/')) == "/" + Join(NonEmpty(parts), '/')
  {
    SplitJoin(parts, '/');
    assert ("/" + Join(parts, '/'))[1..] == Join(parts, '/');
  }

  /**
   * Outside `/api`, the canonical path is the gateway's own single decode with its empty segments
   * dropped, or nothing.
   */
  lemma CanonicalIsWhatTheGatewayReads(raw: string, nfkc: string -> string, garbled: seq<Byte> -> string)
    requires CanonicalGatewayPath(raw, nfkc).Some?
    requires Decode(Split(raw[1..], '/')[0]) != Some("api")
    ensures DropEmptySegments(GatewayReads(raw, garbled)) == CanonicalGatewayPath(raw, nfkc).value
  {
    var segments := Split(raw[1..], '/');
    SegmentsRead(raw);
    CleanOnes(segments, 0);
    CleanHasNoSlash(segments);
    EmptiesDropped(CleanSegments(segments).value);
  }

  // --------------------------------------------------- the refused routes

  function RoutePath(route: seq<string>): string {
    "/" + Join(route, '/')
  }

  /** A decoder that replaces what it cannot read keeps what it could read before it. */
  ghost predicate KeepsReadable(garbled: seq<Byte> -> string) {
    forall front, back :: Utf8(front).Some? && Utf8(front + back).None? ==> Utf8(front).value <= garbled(front + back)
  }

  /** A path the gateway routes to `route` is read here as that route, or refused outright. */
  lemma NothingReadsOtherwise(raw: string, nfkc: string -> string, garbled: seq<Byte> -> string, route: seq<string>)
    requires CanonicalGatewayPath(raw, nfkc).Some?
    requires route != [] && (forall i :: 0 <= i < |route| ==> route[i] != "" && '/' !in route[i])
    requires route[0] != "api" && GatewayReads(raw, garbled) == RoutePath(route) && KeepsReadable(garbled)
    ensures CanonicalGatewayPath(raw, nfkc) == Some(RoutePath(route))
  {
    var segments := Split(raw[1..], '/');
    if Decode(segments[0]) == Some("api") {
      ApiStaysApi(raw, nfkc, garbled, route);
      assert false;
    }
    CanonicalIsWhatTheGatewayReads(raw, nfkc, garbled);
    SplitJoin(route, '/');
    assert RoutePath(route)[1..] == Join(route, '/');
    NonEmptyKeeps(route);
  }

  lemma {:induction false} NonEmptyKeeps(parts: seq<string>)
    requires forall i :: 0 <= i < |parts| ==> parts[i] != ""
    ensures NonEmpty(parts) == parts
  {
    if parts != [] {
      NonEmptyKeeps(parts[1..]);
    }
  }

  lemma Utf8Parts(front: seq<Byte>, back: seq<Byte>, text: string) returns (after: string)
    requires Utf8(front) == Some(text) && Utf8(front + back).Some?
    ensures Utf8(back) == Some(after) && Utf8(front + back) == Some(text + after)
  {
    Utf8Concatenates(front, back);
    after := Utf8(back).value;
  }

  /** The gateway's reading of a slash and one segment, with more behind it. */
  lemma FirstSegmentReads(first: string, rest: string, name: string) returns (after: string)
    requires VisibleAscii("/" + first) && VisibleAscii(rest) && (rest == "" || rest[0] == '/')
    requires Utf8(PathBytes("/" + first)) == Some("/" + name)
    requires VisibleAscii("/" + first + rest) && Utf8(PathBytes("/" + first + rest)).Some?
    ensures Utf8(PathBytes("/" + first + rest)) == Some("/" + name + after)
    ensures after == "" || after[0] == '/'
  {
    PathBytesSplit("/" + first, rest);
    after := Utf8Parts(PathBytes("/" + first), PathBytes(rest), "/" + name);
    if rest != "" {
      Utf8Slash(rest);
    }
  }

  /** What the gateway reads of a path whose first segment decodes to `api`. */
  lemma ApiReads(raw: string, nfkc: string -> string) returns (after: string)
    requires CanonicalGatewayPath(raw, nfkc).Some? && Decode(Split(raw[1..], '/')[0]) == Some("api")
    requires Utf8(PathBytes(raw)).Some?
    ensures Utf8(PathBytes(raw)) == Some("/" + "api" + after) && (after == "" || after[0] == '/')
  {
    var first, rest := FirstAndRest(raw);
    SlashFirst(first);
    after := FirstSegmentReads(first, rest, "api");
  }

  lemma FirstAndRest(raw: string) returns (first: string, rest: string)
    requires raw != "" && raw[0] == '/' && VisibleAscii(raw)
    ensures first == Split(raw[1..], '/')[0] && raw == "/" + first + rest && (rest == "" || rest[0] == '/')
    ensures VisibleAscii("/" + first) && VisibleAscii(first) && VisibleAscii(rest)
  {
    first := Split(raw[1..], '/')[0];
    rest := raw[1 + |first|..];
    JoinSplit(raw[1..], '/');
    FirstSegment(Split(raw[1..], '/'));
    assert raw == "/" + first + rest;
    VisibleParts("/" + first, rest);
    VisibleParts("/", first);
  }

  /** The same where a later part of the path is no text: what comes before it is still read. */
  lemma GarbledApiReads(raw: string, nfkc: string -> string, garbled: seq<Byte> -> string) returns (after: string)
    requires CanonicalGatewayPath(raw, nfkc).Some? && Decode(Split(raw[1..], '/')[0]) == Some("api")
    requires Utf8(PathBytes(raw)).None? && KeepsReadable(garbled)
    ensures garbled(PathBytes(raw)) == "/" + "api" + after && (after == "" || after[0] == '/')
  {
    var first, rest := FirstAndRest(raw);
    SlashFirst(first);
    PathBytesSplit("/" + first, rest);
    assert rest == "" ==> raw == "/" + first;
    if rest == "" {
      assert false;
    } else {
      SlashLeads(rest);
      after := GarbledRest(PathBytes("/" + first), PathBytes(rest[1..]), "/" + "api", garbled);
    }
  }

  lemma GarbledRest(front: seq<Byte>, back: seq<Byte>, text: string, garbled: seq<Byte> -> string) returns (after: string)
    requires Utf8(front) == Some(text) && Utf8(front + (['/' as int] + back)).None? && KeepsReadable(garbled)
    ensures garbled(front + (['/' as int] + back)) == text + after && after != "" && after[0] == '/'
  {
    SlashEnds(front, text);
    Associates(front, ['/' as int], back);
    after := ReadableIsKept(garbled, front + ['/' as int], back, text);
  }

  lemma SlashLeads(rest: string)
    requires VisibleAscii(rest) && rest != "" && rest[0] == '/'
    ensures PathBytes(rest) == ['/' as int] + PathBytes(rest[1..])
  {
    assert !EscapeAt(rest, 0);
  }

  lemma SlashEnds(front: seq<Byte>, text: string)
    requires Utf8(front) == Some(text)
    ensures Utf8(front + ['/' as int]) == Some(text + "/")
  {
    var slash := ['/' as int];
    Utf8Char(slash, []);
    assert slash + [] == slash;
    assert ['/'] + "" == "/";
    Utf8Concatenates(front, slash);
  }

  lemma ReadableIsKept(garbled: seq<Byte> -> string, front: seq<Byte>, back: seq<Byte>, text: string) returns (after: string)
    requires KeepsReadable(garbled) && Utf8(front) == Some(text + "/") && Utf8(front + back).None?
    ensures garbled(front + back) == text + after && after != "" && after[0] == '/'
  {
    var all := garbled(front + back);
    assert text + "/" <= all;
    assert (text + "/")[|text|] == '/' && (text + "/")[..|text|] == text;
    after := all[|text|..];
  }

  lemma SlashFirst(first: string)
    requires VisibleAscii(first) && VisibleAscii("/" + first) && Decode(first).Some?
    ensures Utf8(PathBytes("/" + first)) == Some("/" + Decode(first).value)
  {
    assert ("/" + first)[1..] == first && !EscapeAt("/" + first, 0);
    DecodesAlike(first);
    Utf8Char(['/' as int], PathBytes(first));
  }

  /** The first name of a route that starts with `name` and a slash, or ends there. */
  lemma RouteStartsWith(route: seq<string>, name: string, after: string)
    requires route != [] && (forall i :: 0 <= i < |route| ==> '/' !in route[i])
    requires RoutePath(route) == "/" + name + after && '/' !in name && (after == "" || after[0] == '/')
    ensures route[0] == name
  {
    assert Join(route, '/') == RoutePath(route)[1..] == name + after;
    SplitJoin(route, '/');
    if after == "" {
      assert name + after == name;
      SplitOne(name, '/');
    } else {
      assert name + after == name + ['/'] + after[1..];
      SplitAt(name, '/', after[1..]);
    }
  }

  /** A path whose first segment decodes to `api` is routed under `/api` by the gateway too. */
  lemma ApiStaysApi(raw: string, nfkc: string -> string, garbled: seq<Byte> -> string, route: seq<string>)
    requires CanonicalGatewayPath(raw, nfkc).Some? && Decode(Split(raw[1..], '/')[0]) == Some("api")
    requires route != [] && (forall i :: 0 <= i < |route| ==> '/' !in route[i])
    requires GatewayReads(raw, garbled) == RoutePath(route) && KeepsReadable(garbled)
    ensures route[0] == "api"
  {
    if Utf8(PathBytes(raw)).Some? {
      var after := ApiReads(raw, nfkc);
      RouteStartsWith(route, "api", after);
    } else {
      var after := GarbledApiReads(raw, nfkc, garbled);
      RouteStartsWith(route, "api", after);
    }
  }

  lemma Utf8Slash(rest: string)
    requires VisibleAscii(rest) && rest != "" && rest[0] == '/' && Utf8(PathBytes(rest)).Some?
    ensures Utf8(PathBytes(rest)).value != "" && Utf8(PathBytes(rest)).value[0] == '/'
  {
  }

  lemma FirstSegment(segments: seq<string>)
    requires segments != []
    ensures segments[0] <= Join(segments, '/')
    ensures var rest := Join(segments, '/')[|segments[0]|..]; rest == "" || rest[0] == '/'
  {
  }

  // -------------------------------------------------- segments under `/api`

  /** The text after `k` decodes, as far as it still decodes. */
  function Stage(segment: string, k: nat): Option<string> {
    if k == 0 then Some(segment)
    else
      var before := Stage(segment, k - 1);
      if before.None? then None else Decode(before.value)
  }

  lemma {:induction false} StageShifts(segment: string, k: nat)
    requires Decode(segment).Some?
    ensures Stage(segment, k + 1) == Stage(Decode(segment).value, k)
  {
    if k > 0 {
      StageShifts(segment, k - 1);
    }
  }

  /**
   * However often a later hop decodes an accepted `/api` segment, it never finds a dot segment, a
   * separator or a control character, as sent or as NFKC would fold it.
   */
  lemma {:induction false} NoDecodeMovesAnAcceptedSegment(segment: string, pass: nat, nfkc: string -> string, k: nat)
    requires !ApiSegmentMayMove(segment, pass, nfkc)
    ensures Stage(segment, k).Some? ==> !Moves(Stage(segment, k).value, nfkc)
    decreases PASSES - pass, k
  {
    if k > 0 {
      var next := Decode(segment);
      if next.None? {
        UndecodableStays(segment, k);
      } else if next.value == segment {
        NoDecodeMovesAnAcceptedSegment(segment, pass, nfkc, k - 1);
        FixedStays(segment, k);
      } else {
        NoDecodeMovesAnAcceptedSegment(next.value, pass + 1, nfkc, k - 1);
        StageShifts(segment, k - 1);
      }
    }
  }

  lemma {:induction false} UndecodableStays(segment: string, k: nat)
    requires Decode(segment).None? && k > 0
    ensures Stage(segment, k).None?
  {
    if k > 1 {
      UndecodableStays(segment, k - 1);
    }
  }

  lemma {:induction false} FixedStays(segment: string, k: nat)
    requires Decode(segment) == Some(segment)
    ensures Stage(segment, k) == Some(segment)
  {
    if k > 0 {
      FixedStays(segment, k - 1);
    }
  }

  /** Every segment of an accepted `/api` path stays where it is. */
  lemma AcceptedApiPathsStay(raw: string, nfkc: string -> string, segment: string, k: nat)
    requires CanonicalGatewayPath(raw, nfkc).Some? && Decode(Split(raw[1..], '/')[0]) == Some("api")
    requires segment in Split(raw[1 + |Split(raw[1..], '/')[0]|..], '/')
    ensures Stage(segment, k).Some? ==> !Moves(Stage(segment, k).value, nfkc)
  {
    NoDecodeMovesAnAcceptedSegment(segment, 0, nfkc, k);
  }

  // ------------------------------------------------------- the loops as they run

  /** `apiSegmentMayMove`, decoding until nothing changes. */
  method SegmentMayMove(raw: string, nfkc: string -> string) returns (moves: bool)
    ensures moves == ApiSegmentMayMove(raw, 0, nfkc)
  {
    var stage := raw;
    var pass := 0;
    while pass < PASSES
      invariant pass <= PASSES
      invariant ApiSegmentMayMove(stage, pass, nfkc) == ApiSegmentMayMove(raw, 0, nfkc)
    {
      if Moves(stage, nfkc) {
        return true;
      }
      var next := Decode(stage);
      if next.None? {
        return pass == 0;
      }
      if next.value == stage {
        return false;
      }
      stage := next.value;
      pass := pass + 1;
    }
    moves := true;
  }

  /** The segments a path keeps, in front of which `kept` were kept before. */
  function Kept(kept: seq<string>, segments: seq<string>): Option<seq<string>> {
    var clean := CleanSegments(segments);
    if clean.None? then None else Some(kept + NonEmpty(clean.value))
  }

  lemma KeptStep(kept: seq<string>, segments: seq<string>)
    requires segments != []
    ensures Kept(kept, segments) ==
            var value := CleanSegment(segments[0]);
            if value.None? then None
            else Kept(if value.value == "" then kept else kept + [value.value], segments[1..])
  {
    var clean := CleanSegments(segments);
    if clean.Some? {
      var first, rest := clean.value[0], NonEmpty(CleanSegments(segments[1..]).value);
      assert clean.value[1..] == CleanSegments(segments[1..]).value;
      assert kept + ([first] + rest) == (kept + [first]) + rest && kept + ([] + rest) == kept + rest;
    }
  }

  /** The decoding loop outside `/api`: the segments kept so far, or a refusal. */
  method DecodeSegments(segments: seq<string>) returns (decoded: Option<seq<string>>)
    ensures decoded == if CleanSegments(segments).None? then None else Some(NonEmpty(CleanSegments(segments).value))
  {
    var kept: seq<string> := [];
    var i := 0;
    assert segments[0..] == segments;
    while i < |segments|
      invariant 0 <= i <= |segments|
      invariant Kept([], segments) == Kept(kept, segments[i..])
    {
      KeptStep(kept, segments[i..]);
      assert segments[i..][1..] == segments[i + 1..];
      var value := CleanSegment(segments[i]);
      if value.None? {
        assert Kept([], segments).None?;
        return None;
      }
      if value.value != "" {
        kept := kept + [value.value];
      }
      i := i + 1;
    }
    assert kept + [] == kept;
    assert CleanSegments(segments).Some? ==> [] + NonEmpty(CleanSegments(segments).value) == NonEmpty(CleanSegments(segments).value);
    decoded := Some(kept);
  }

  method ReadPath(raw: string, nfkc: string -> string) returns (path: Option<string>)
    ensures path == CanonicalGatewayPath(raw, nfkc)
  {
    if raw == "" || raw[0] != '/' || !VisibleAscii(raw) {
      return None;
    }
    var segments := Split(raw[1..], '/');
    var first := Decode(segments[0]);
    if first.None? {
      return None;
    }
    if first.value != "api" {
      var decoded := DecodeSegments(segments);
      return if decoded.None? then None else Some("/" + Join(decoded.value, '/'));
    }
    var rest := raw[1 + |segments[0]|..];
    var parts := Split(rest, '/');
    var i := 0;
    while i < |parts|
      invariant 0 <= i <= |parts|
      invariant forall j :: 0 <= j < i ==> !ApiSegmentMayMove(parts[j], 0, nfkc)
    {
      var moves := SegmentMayMove(parts[i], nfkc);
      if moves {
        assert parts[i] in parts;
        return None;
      }
      i := i + 1;
    }
    path := Some("/api" + rest);
  }

  // ---------------------------------------------------- the route decision

  datatype Provider = Provider(name: string, supportsPassword: bool)

  datatype Decision = Allow | Refuse | Ambiguous

  function Named(providers: seq<Provider>, name: string): Option<Provider> {
    if providers == [] then None else if providers[0].name == name then Some(providers[0]) else Named(providers[1..], name)
  }

  function Chosen(name: string, providers: seq<Provider>): Option<Provider> {
    if name != "" then Named(providers, name) else if |providers| == 1 then Some(providers[0]) else None
  }

  /** `values` is every value of the query's `provider`, in order. */
  function OidcRouteDecision(path: string, values: seq<string>, providers: seq<Provider>): Decision {
    if path == "/auth/login" || path == "/auth/callback" then Refuse
    else if path != "/auth/native/authorize" then Allow
    else if |values| > 1 then Ambiguous
    else
      var chosen := Chosen(if values == [] then "" else values[0], providers);
      if chosen.Some? && chosen.value.supportsPassword then Allow else Refuse
  }

  /** The provider the gateway picks: it binds a repeated parameter to its last value. */
  function GatewayPicks(values: seq<string>, providers: seq<Provider>): Option<Provider> {
    Chosen(if values == [] then "" else values[|values| - 1], providers)
  }

  /** The gateway's own reading of the path is that of a route. */
  ghost predicate RoutesTo(raw: string, garbled: seq<Byte> -> string, route: seq<string>)
    requires VisibleAscii(raw)
  {
    GatewayReads(raw, garbled) == RoutePath(route)
  }

  lemma JoinTwo(a: string, b: string)
    ensures Join([a, b], '/') == a + "/" + b
  {
  }

  lemma JoinThree(a: string, b: string, c: string)
    ensures Join([a, b, c], '/') == a + "/" + (b + "/" + c)
  {
    assert [a, b, c][1..] == [b, c];
    JoinTwo(b, c);
  }

  lemma RouteNames()
    ensures RoutePath(["auth", "login"]) == "/auth/login" && RoutePath(["auth", "callback"]) == "/auth/callback"
    ensures RoutePath(["auth", "native", "authorize"]) == "/auth/native/authorize"
  {
    JoinTwo("auth", "login");
    JoinTwo("auth", "callback");
    JoinThree("auth", "native", "authorize");
  }

  /** However it is written, a path the gateway routes to one of the two browser routes is refused. */
  lemma ABrowserRouteIsNeverAllowed(raw: string, nfkc: string -> string, garbled: seq<Byte> -> string,
                                    values: seq<string>, providers: seq<Provider>)
    requires VisibleAscii(raw) && KeepsReadable(garbled)
    requires RoutesTo(raw, garbled, ["auth", "login"]) || RoutesTo(raw, garbled, ["auth", "callback"])
    ensures var path := CanonicalGatewayPath(raw, nfkc);
            path.None? || OidcRouteDecision(path.value, values, providers) == Refuse
  {
    if CanonicalGatewayPath(raw, nfkc).Some? {
      if RoutesTo(raw, garbled, ["auth", "login"]) {
        NothingReadsOtherwise(raw, nfkc, garbled, ["auth", "login"]);
      } else {
        NothingReadsOtherwise(raw, nfkc, garbled, ["auth", "callback"]);
      }
      BrowserRoutesAreRefused(CanonicalGatewayPath(raw, nfkc).value, values, providers);
    }
  }

  lemma BrowserRoutesAreRefused(path: string, values: seq<string>, providers: seq<Provider>)
    requires path == RoutePath(["auth", "login"]) || path == RoutePath(["auth", "callback"])
    ensures OidcRouteDecision(path, values, providers) == Refuse
  {
    RouteNames();
  }

  /** The native route is let through exactly when it names no provider twice and the gateway picks one with a password. */
  lemma TheNativeRouteFollowsTheGatewaysPick(raw: string, nfkc: string -> string, garbled: seq<Byte> -> string,
                                             values: seq<string>, providers: seq<Provider>)
    requires VisibleAscii(raw) && RoutesTo(raw, garbled, ["auth", "native", "authorize"]) && KeepsReadable(garbled)
    requires CanonicalGatewayPath(raw, nfkc).Some?
    ensures OidcRouteDecision(CanonicalGatewayPath(raw, nfkc).value, values, providers) == Allow <==>
              |values| <= 1 && GatewayPicks(values, providers).Some? && GatewayPicks(values, providers).value.supportsPassword
  {
    RouteNames();
    NothingReadsOtherwise(raw, nfkc, garbled, ["auth", "native", "authorize"]);
  }
}
