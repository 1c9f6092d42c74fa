/**
 * Later hops behind `/api`: one that refuses a malformed escape never moves an accepted segment, and one
 * that decodes the good escapes around a bad one can.
 */
module ApiHops {
  import opened Prelude
  import opened Text
  import opened GatewayPath

  /** A hop that leaves a malformed escape as it is, and reads bytes that are not UTF-8 as U+FFFD. */
  function LenientDecode(s: string): string
    decreases |s|
  {
    if s == "" then ""
    else if !EscapeAt(s, 0) then [s[0]] + LenientDecode(s[1..])
    else
      var n := SequenceLength(EscapedByte(s, 0));
      var bytes := EscapedBytes(s, n);
      if n == 0 || bytes.None? || CharOf(bytes.value).None? || 3 * n > |s| then ['\U{fffd}'] + LenientDecode(s[3..])
      else [CharOf(bytes.value).value] + LenientDecode(s[3 * n..])
  }

  /** The text after `k` such hops. */
  function LenientStage(segment: string, k: nat): string {
    if k == 0 then segment else LenientDecode(LenientStage(segment, k - 1))
  }

  /** Decoding until nothing changes, as such hops would, some stage is no longer one plain segment. */
  predicate LenientlyMoves(stage: string, nfkc: string -> string)
    decreases |stage|
  {
    Moves(stage, nfkc) || (|LenientDecode(stage)| < |stage| && LenientlyMoves(LenientDecode(stage), nfkc))
  }

  /** The stage at which a strict decoder gives up; none if it decodes to the end. */
  function StuckStage(stage: string): Option<string>
    decreases |stage|
  {
    var next := Decode(stage);
    if next.None? then Some(stage)
    else if |next.value| < |stage| then StuckStage(next.value)
    else None
  }

  // ---------------------------------------------------------------- proofs

  lemma {:induction false} StrictIsLenient(s: string)
    requires Decode(s).Some?
    ensures LenientDecode(s) == Decode(s).value
    decreases |s|
  {
    if s != "" {
      if s[0] != '%' {
        StrictIsLenient(s[1..]);
      } else {
        StrictIsLenient(s[3 * SequenceLength(EscapedByte(s, 0))..]);
      }
    }
  }

  /** Every escape that is read makes the text shorter, so text of the same length is the same text. */
  lemma {:induction false} LenientShortens(s: string)
    ensures |LenientDecode(s)| <= |s| && (|LenientDecode(s)| == |s| ==> LenientDecode(s) == s)
    decreases |s|
  {
    if s != "" {
      if !EscapeAt(s, 0) {
        LenientShortens(s[1..]);
        assert s == [s[0]] + s[1..];
      } else {
        var n := SequenceLength(EscapedByte(s, 0));
        var bytes := EscapedBytes(s, n);
        if n == 0 || bytes.None? || CharOf(bytes.value).None? || 3 * n > |s| {
          LenientShortens(s[3..]);
        } else {
          LenientShortens(s[3 * n..]);
        }
      }
    }
  }

  lemma {:induction false} LenientStageShifts(segment: string, k: nat)
    ensures LenientStage(segment, k + 1) == LenientStage(LenientDecode(segment), k)
  {
    if k > 0 {
      LenientStageShifts(segment, k - 1);
    }
  }

  lemma {:induction false} LenientStageStays(segment: string, k: nat)
    requires LenientDecode(segment) == segment
    ensures LenientStage(segment, k) == segment
  {
    if k > 0 {
      LenientStageStays(segment, k - 1);
    }
  }

  /** The bounded search finds a moving stage exactly when some number of hops reaches one. */
  lemma {:induction false} SomeStageMoves(segment: string, nfkc: string -> string) returns (k: nat)
    requires LenientlyMoves(segment, nfkc)
    ensures Moves(LenientStage(segment, k), nfkc)
    decreases |segment|
  {
    if Moves(segment, nfkc) {
      k := 0;
    } else {
      var before := SomeStageMoves(LenientDecode(segment), nfkc);
      LenientStageShifts(segment, before);
      k := before + 1;
    }
  }

  lemma NothingMovesYet(segment: string, nfkc: string -> string)
    requires !LenientlyMoves(segment, nfkc)
    ensures !Moves(segment, nfkc) && (|LenientDecode(segment)| < |segment| ==> !LenientlyMoves(LenientDecode(segment), nfkc))
  {
  }

  lemma {:induction false} NoStageMoves(segment: string, nfkc: string -> string, k: nat)
    requires !LenientlyMoves(segment, nfkc)
    ensures !Moves(LenientStage(segment, k), nfkc)
    decreases |segment|
  {
    NothingMovesYet(segment, nfkc);
    LenientShortens(segment);
    if LenientDecode(segment) == segment {
      LenientStageStays(segment, k);
    } else if k > 0 {
      NoStageMoves(LenientDecode(segment), nfkc, k - 1);
      LenientStageShifts(segment, k - 1);
    }
  }

  lemma {:induction false} MovesFromTheStuckStage(stage: string, pass: nat, nfkc: string -> string)
    requires !ApiSegmentMayMove(stage, pass, nfkc)
    ensures LenientlyMoves(stage, nfkc) <==> StuckStage(stage).Some? && LenientlyMoves(StuckStage(stage).value, nfkc)
    decreases PASSES - pass
  {
    LenientShortens(stage);
    var next := Decode(stage);
    if next.Some? {
      StrictIsLenient(stage);
      if next.value != stage {
        MovesFromTheStuckStage(next.value, pass + 1, nfkc);
      }
    }
  }

  ghost predicate MovesAt(segment: string, k: nat, nfkc: string -> string) {
    Moves(LenientStage(segment, k), nfkc)
  }

  /** A strict decode got stuck on a malformed escape, and decoding on around it comes to something that moves. */
  predicate GetsAway(segment: string, nfkc: string -> string) {
    StuckStage(segment).Some? && LenientlyMoves(StuckStage(segment).value, nfkc)
  }

  /**
   * Some number of lenient hops moves an accepted segment exactly when it gets away where a strict decode
   * got stuck. A segment that decodes to the end is never moved by any number of hops of either kind.
   */
  lemma LenientHopsMoveExactlyWhen(segment: string, nfkc: string -> string)
    requires !ApiSegmentMayMove(segment, 0, nfkc)
    ensures (exists k :: MovesAt(segment, k, nfkc)) <==> GetsAway(segment, nfkc)
  {
    MovesFromTheStuckStage(segment, 0, nfkc);
    if LenientlyMoves(segment, nfkc) {
      var k := SomeStageMoves(segment, nfkc);
      assert MovesAt(segment, k, nfkc);
    } else {
      forall k ensures !MovesAt(segment, k, nfkc) {
        NoStageMoves(segment, nfkc, k);
      }
    }
  }

  /** The same for every segment of an accepted `/api` path; when each decodes to the end, none ever moves. */
  lemma AcceptedApiPathsStayExactlyWhen(raw: string, nfkc: string -> string, segment: string)
    requires CanonicalGatewayPath(raw, nfkc).Some? && Decode(Split(raw[1..], '/')[0]) == Some("api")
    requires segment in Split(raw[1 + |Split(raw[1..], '/')[0]|..], '/')
    ensures (forall k :: !MovesAt(segment, k, nfkc)) <==> !GetsAway(segment, nfkc)
  {
    LenientHopsMoveExactlyWhen(segment, nfkc);
  }

  // ------------------------------------------------ one that is moved

  /** Accepted under `/api`; a strict decode of it gets stuck, and two lenient ones make two segments of it. */
  const Escaping := "%25zz%252f.."

  predicate BothRead(s: string, t: string) {
    Decode(s) == Some(t) && LenientDecode(s) == t
  }

  lemma Plain(c: char, s: string, t: string)
    requires c != '%' && BothRead(s, t)
    ensures BothRead([c] + s, [c] + t)
  {
    assert ([c] + s)[1..] == s;
  }

  lemma Escaped(h: char, l: char, s: string, t: string)
    requires IsHex(h) && IsHex(l) && HexValue(h) * 16 + HexValue(l) < 0x80 && BothRead(s, t)
    ensures BothRead(['%', h, l] + s, [(HexValue(h) * 16 + HexValue(l)) as char] + t)
  {
    var u := ['%', h, l] + s;
    assert EscapeAt(u, 0) && u[3..] == s;
    var byte := EscapedByte(u, 0);
    assert EscapedBytes(u, 1).value == [byte] + [];
    assert CharOf([byte]) == Some(byte as char) by {
      assert Code([byte]) == Some(byte);
    }
  }

  lemma TwoDots()
    ensures BothRead("..", "..")
  {
    assert BothRead("", "");
    Plain('.', "", "");
    assert ['.'] + "" == ".";
    Plain('.', ".", ".");
    assert ['.'] + "." == "..";
  }

  lemma Tail()
    ensures BothRead("2f..", "2f..") && BothRead("%2f..", "/..")
  {
    TwoDots();
    Plain('f', "..", "..");
    assert ['f'] + ".." == "f..";
    Plain('2', "f..", "f..");
    assert ['2'] + "f.." == "2f..";
    Escaped('2', 'f', "..", "..");
    assert ['%', '2', 'f'] + ".." == "%2f.." && ['/'] + ".." == "/..";
  }

  lemma InnerReads()
    ensures BothRead("%252f..", "%2f..")
  {
    Tail();
    Escaped('2', '5', "2f..", "2f..");
    assert ['%', '2', '5'] + "2f.." == "%252f..";
    assert ['%'] + "2f.." == "%2f..";
  }

  lemma MiddleReads()
    ensures BothRead("zz%252f..", "zz%2f..")
  {
    InnerReads();
    TwoPlain('z', 'z', "%252f..", "%2f..");
    assert ['z', 'z'] + "%252f.." == "zz%252f..";
    assert ['z', 'z'] + "%2f.." == "zz%2f..";
  }

  lemma TwoPlain(c: char, d: char, s: string, t: string)
    requires c != '%' && d != '%' && BothRead(s, t)
    ensures BothRead([c, d] + s, [c, d] + t)
  {
    Plain(d, s, t);
    Plain(c, [d] + s, [d] + t);
    assert [c] + ([d] + s) == [c, d] + s;
    assert [c] + ([d] + t) == [c, d] + t;
  }

  lemma FirstHop()
    ensures BothRead(Escaping, "%zz%2f..")
  {
    MiddleReads();
    PercentReads("zz%252f..", "zz%2f..");
    assert "%25" + "zz%252f.." == Escaping;
    assert ['%'] + "zz%2f.." == "%zz%2f..";
  }

  lemma PercentReads(s: string, t: string)
    requires BothRead(s, t)
    ensures BothRead("%25" + s, ['%'] + t)
  {
    Escaped('2', '5', s, t);
  }

  /** The percent sign starts no escape; the one behind it does. */
  lemma SecondHop()
    ensures Decode("%zz%2f..").None? && LenientDecode("%zz%2f..") == "%zz/.."
  {
    EndReads();
    StrayReads("zz%2f..", "zz/..");
    assert ['%'] + "zz%2f.." == "%zz%2f.." && ['%'] + "zz/.." == "%zz/..";
  }

  lemma EndReads()
    ensures BothRead("zz%2f..", "zz/..")
  {
    Tail();
    TwoPlain('z', 'z', "%2f..", "/..");
    assert ['z', 'z'] + "%2f.." == "zz%2f..";
    assert ['z', 'z'] + "/.." == "zz/..";
  }

  lemma StrayReads(s: string, t: string)
    requires |s| >= 2 && !IsHex(s[0]) && LenientDecode(s) == t
    ensures LenientDecode(['%'] + s) == ['%'] + t && Decode(['%'] + s).None?
  {
    assert (['%'] + s)[1..] == s;
  }

  /**
   * A later malformed escape is not "a literal percent sign no hop can decode": this segment is accepted,
   * and behind two hops that decode around it the path has one segment more, and that one goes up.
   */
  lemma AnAcceptedSegmentGetsAway()
    ensures var nfkc := (s: string) => s;
            && !ApiSegmentMayMove(Escaping, 0, nfkc) && GetsAway(Escaping, nfkc)
            && LenientStage(Escaping, 2) == "%zz/.." && Split("%zz/..", '/') == ["%zz", ".."]
  {
    FirstHop();
    SecondHop();
    TwoStages();
    IsAccepted((s: string) => s);
    TwoSegments();
  }

  lemma TwoSegments()
    ensures Split("%zz/..", '/') == ["%zz", ".."]
  {
    SplitAt("%zz", '/', "..");
    SplitOne("..", '/');
    assert "%zz" + ['/'] + ".." == "%zz/..";
  }

  lemma TwoStages()
    requires LenientDecode(Escaping) == "%zz%2f.." && LenientDecode("%zz%2f..") == "%zz/.."
    ensures LenientStage(Escaping, 2) == "%zz/.."
  {
    assert LenientStage(Escaping, 1) == LenientDecode(LenientStage(Escaping, 0));
  }

  lemma IsAccepted(nfkc: string -> string)
    requires nfkc(Escaping) == Escaping && nfkc("%zz%2f..") == "%zz%2f.."
    requires Decode(Escaping) == Some("%zz%2f..") && Decode("%zz%2f..").None? && LenientDecode("%zz%2f..") == "%zz/.."
    ensures !ApiSegmentMayMove(Escaping, 0, nfkc) && GetsAway(Escaping, nfkc)
  {
    NothingMoves(Escaping, nfkc);
    NothingMoves("%zz%2f..", nfkc);
    assert !ApiSegmentMayMove("%zz%2f..", 1, nfkc);
    assert "%zz%2f.." != Escaping;
    assert StuckStage("%zz%2f..") == Some("%zz%2f..");
    var there := "%zz/..";
    assert there[3] == '/' && MovesAPath(there[3]) && there[3] in there;
    assert LenientlyMoves(there, nfkc);
  }

  lemma NothingMoves(s: string, nfkc: string -> string)
    requires s == Escaping || s == "%zz%2f.."
    requires nfkc(s) == s
    ensures !Moves(s, nfkc)
  {
  }
}
