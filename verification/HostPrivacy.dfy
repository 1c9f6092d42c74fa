/** IPv4 and IPv6 literals, and which networks they stay inside. */
module HostPrivacy {
  import opened Prelude
  import opened Text
  import opened Decimal

  datatype Privacy = Loopback | Private | LinkLocal | Cgnat | Tailnet | LocalName | Public

  // ------------------------------------------------------------------ IPv4

  predicate IsDigits(s: string) {
    forall i :: 0 <= i < |s| ==> '0' <= s[i] <= '9'
  }

  /** One to three digits, as the pattern reads an octet. */
  function Octet(s: string): Option<int> {
    if 1 <= |s| <= 3 && IsDigits(s) then Some(Value(s)) else None
  }

  /** The four groups of the pattern, whatever they are worth. */
  function Dotted(s: string): Option<seq<int>> {
    var parts := Split(s, '.');
    if |parts| != 4 || exists i :: 0 <= i < 4 && Octet(parts[i]).None? then None
    else Some(seq(4, i requires 0 <= i < 4 => Octet(parts[i]).value))
  }

  /** `None` for what is not a dotted address, and for one with a group above 255. */
  function Ipv4(s: string): (octets: Option<seq<int>>)
    ensures octets.Some? ==> |octets.value| == 4
  {
    var dotted := Dotted(s);
    if dotted.None? || exists i :: 0 <= i < 4 && dotted.value[i] > 255 then None else dotted
  }

  function ClassifyOctets(first: int, second: int): Privacy {
    if first == 127 then Loopback
    else if first == 10 || (first == 192 && second == 168) || (first == 172 && 16 <= second <= 31) then Private
    else if first == 169 && second == 254 then LinkLocal
    else if first == 100 && 64 <= second <= 127 then Cgnat
    else Public
  }

  function ClassifyIpv4(host: string): Option<Privacy> {
    var octets := Ipv4(host);
    if octets.None? then None else Some(ClassifyOctets(octets.value[0], octets.value[1]))
  }

  // ------------------------------------------------------------------ IPv6

  predicate IsHexDigit(c: char) {
    '0' <= c <= '9' || 'a' <= c <= 'f'
  }

  function HexDigit(c: char): (v: int)
    requires IsHexDigit(c)
    ensures 0 <= v < 16
  {
    if c <= '9' then c as int - '0' as int else c as int - 'a' as int + 10
  }

  predicate IsHexGroup(s: string) {
    1 <= |s| <= 4 && forall i :: 0 <= i < |s| ==> IsHexDigit(s[i])
  }

  function HexNumber(s: string): (v: int)
    requires forall i :: 0 <= i < |s| ==> IsHexDigit(s[i])
    ensures v >= 0
  {
    if s == "" then 0 else 16 * HexNumber(s[..|s| - 1]) + HexDigit(s[|s| - 1])
  }

  /** One group: two hextets for a dotted address, one for one to four hexadecimal digits. */
  function Group(s: string): Option<seq<int>> {
    if Dotted(s).Some? then
      var octets := Ipv4(s);
      if octets.None? then None
      else Some([0x100 * octets.value[0] + octets.value[1], 0x100 * octets.value[2] + octets.value[3]])
    else if IsHexGroup(s) then Some([HexNumber(s)])
    else None
  }

  function Groups(parts: seq<string>): Option<seq<int>>
    decreases |parts|
  {
    if parts == [] then Some([])
    else
      var before, last := Groups(parts[..|parts| - 1]), Group(parts[|parts| - 1]);
      if before.None? || last.None? then None else Some(before.value + last.value)
  }

  /** The groups on one side of the double colon. */
  function Side(s: string): Option<seq<int>> {
    if s == "" then Some([]) else Groups(Split(s, ':'))
  }

  /** `split('::')`: the text cut at each double colon, from the left. */
  function SplitDouble(s: string): (parts: seq<string>)
    ensures |parts| >= 1
    decreases |s|
  {
    if |s| < 2 then [s]
    else if s[0] == ':' && s[1] == ':' then [""] + SplitDouble(s[2..])
    else
      var rest := SplitDouble(s[1..]);
      [[s[0]] + rest[0]] + rest[1..]
  }

  /** The eight hextets of an IPv6 literal. */
  function Hextets(host: string): Option<seq<int>> {
    if ':' !in host then None
    else
      var halves := SplitDouble(host);
      if |halves| > 2 then None
      else
        var left := Side(halves[0]);
        var right := if |halves| == 1 then Some([]) else Side(halves[1]);
        if left.None? || right.None? then None
        else if |halves| == 1 then (if |left.value| == 8 then left else None)
        else if |left.value| + |right.value| > 7 then None
        else Some(left.value + Zeros(8 - |left.value| - |right.value|) + right.value)
  }

  function Zeros(n: nat): (z: seq<int>)
    ensures |z| == n && forall i :: 0 <= i < n ==> z[i] == 0
  {
    seq(n, i => 0)
  }

  /** The parser's loop over the groups of one side. */
  method ParseSide(s: string) returns (out: Option<seq<int>>)
    ensures out == Side(s)
  {
    if s == "" {
      return Some([]);
    }
    var parts := Split(s, ':');
    var read: seq<int> := [];
    var i := 0;
    while i < |parts|
      invariant 0 <= i <= |parts|
      invariant Groups(parts[..i]) == Some(read)
    {
      var group := Group(parts[i]);
      assert parts[..i + 1][..i] == parts[..i];
      if group.None? {
        NoGroups(parts, i + 1);
        return None;
      }
      read := read + group.value;
      i := i + 1;
    }
    assert parts[..i] == parts;
    out := Some(read);
  }

  lemma {:induction false} NoGroups(parts: seq<string>, i: nat)
    requires i <= |parts| && Groups(parts[..i]).None?
    ensures Groups(parts).None?
    decreases |parts| - i
  {
    if i < |parts| {
      assert parts[..i + 1][..i] == parts[..i];
      NoGroups(parts, i + 1);
    } else {
      assert parts[..i] == parts;
    }
  }

  // ------------------------------------------------------------- verdicts

  predicate Mapped(groups: seq<int>) {
    |groups| == 8 && (forall i :: 0 <= i < 5 ==> groups[i] == 0) && groups[5] == 0xffff
  }

  /** The dotted text of the last two hextets. */
  function MappedText(seventh: int, eighth: int): string
    requires 0 <= seventh < 0x1_0000 && 0 <= eighth < 0x1_0000
  {
    Join([Numeral(seventh / 0x100), Numeral(seventh % 0x100), Numeral(eighth / 0x100), Numeral(eighth % 0x100)], '.')
  }

  function ClassifyGroups(groups: seq<int>): Privacy
    requires |groups| == 8
  {
    if forall i :: 0 <= i < 8 ==> groups[i] == 0 then Public
    else if (forall i :: 0 <= i < 7 ==> groups[i] == 0) && groups[7] == 1 then Loopback
    else if 0xfe80 <= groups[0] < 0xfec0 then LinkLocal
    else if groups[0] == 0xfd7a && groups[1] == 0x115c && groups[2] == 0xa1e0 then Tailnet
    else if 0xfc00 <= groups[0] < 0xfe00 then Private
    else Public
  }

  function ClassifyIpv6(host: string): Option<Privacy>
    requires Hextets(host).Some? ==> forall i :: 0 <= i < |Hextets(host).value| ==> 0 <= Hextets(host).value[i] < 0x1_0000
  {
    var groups := Hextets(host);
    if groups.None? then None
    else if Mapped(groups.value) then ClassifyIpv4(MappedText(groups.value[6], groups.value[7]))
    else if |groups.value| == 8 then Some(ClassifyGroups(groups.value))
    else None
  }

  // -------------------------------------------------------- what was parsed

  lemma {:induction false} HexBound(s: string)
    requires forall i :: 0 <= i < |s| ==> IsHexDigit(s[i])
    ensures |s| <= 4 ==> HexNumber(s) < 0x1_0000
    ensures |s| <= 3 ==> HexNumber(s) < 0x1000
    ensures |s| <= 2 ==> HexNumber(s) < 0x100
    ensures |s| <= 1 ==> HexNumber(s) < 0x10
    ensures |s| == 0 ==> HexNumber(s) < 1
  {
    if s != "" {
      HexBound(s[..|s| - 1]);
    }
  }

  lemma {:induction false} ValueBound(s: string)
    requires IsDigits(s)
    ensures Value(s) >= 0
  {
    if s != "" {
      ValueBound(s[..|s| - 1]);
    }
  }

  ghost predicate AllHextets(groups: seq<int>) {
    forall i :: 0 <= i < |groups| ==> 0 <= groups[i] < 0x1_0000
  }

  lemma Ipv4Bounds(s: string)
    ensures Ipv4(s).Some? ==> forall i :: 0 <= i < 4 ==> 0 <= Ipv4(s).value[i] <= 255
  {
    var parts := Split(s, '.');
    if Ipv4(s).Some? {
      forall i | 0 <= i < 4 ensures 0 <= Ipv4(s).value[i] <= 255 {
        ValueBound(parts[i]);
      }
    }
  }

  lemma GroupBounds(s: string)
    ensures Group(s).Some? ==> AllHextets(Group(s).value)
  {
    Ipv4Bounds(s);
    if IsHexGroup(s) {
      HexBound(s);
    }
  }

  lemma {:induction false} GroupsBounds(parts: seq<string>)
    ensures Groups(parts).Some? ==> AllHextets(Groups(parts).value)
    decreases |parts|
  {
    if parts != [] {
      GroupsBounds(parts[..|parts| - 1]);
      GroupBounds(parts[|parts| - 1]);
    }
  }

  /** Whatever parses has eight groups below 65536. */
  lemma EightGroups(host: string)
    ensures Hextets(host).Some? ==> |Hextets(host).value| == 8 && AllHextets(Hextets(host).value)
  {
    if ':' in host && Hextets(host).Some? {
      var halves := SplitDouble(host);
      GroupsBounds(Split(halves[0], ':'));
      if |halves| == 2 {
        GroupsBounds(Split(halves[1], ':'));
      }
    }
  }

  // ------------------------------------------------------------ text forms

  /** No two colons side by side, and none at either end. */
  ghost predicate Tidy(s: string) {
    && (forall i :: 0 <= i < |s| - 1 ==> !(s[i] == ':' && s[i + 1] == ':'))
    && (s != "" ==> s[0] != ':' && s[|s| - 1] != ':')
  }

  ghost predicate NoDouble(s: string) {
    forall i :: 0 <= i < |s| - 1 ==> !(s[i] == ':' && s[i + 1] == ':')
  }

  lemma {:induction false} SplitWhole(s: string)
    requires NoDouble(s)
    ensures SplitDouble(s) == [s]
  {
    if |s| >= 2 {
      SplitWhole(s[1..]);
      assert [s[0]] + s[1..] == s;
    }
  }

  lemma {:induction false} SplitAtDouble(s: string, t: string)
    requires NoDouble(s) && (s != "" ==> s[|s| - 1] != ':') && NoDouble(t)
    ensures SplitDouble(s + "::" + t) == [s, t]
  {
    var all := s + "::" + t;
    if s == "" {
      assert all[2..] == t;
      SplitWhole(t);
    } else {
      assert all[1..] == s[1..] + "::" + t;
      SplitAtDouble(s[1..], t);
      assert !(all[0] == ':' && all[1] == ':') by {
        if |s| == 1 {
          assert all[0] == s[|s| - 1];
        } else {
          assert all[0] == s[0] && all[1] == s[1];
        }
      }
      assert [s[0]] + s[1..] == s;
    }
  }

  lemma GroupIsAPart(s: string)
    requires Group(s).Some?
    ensures s != "" && ':' !in s
  {
    if Dotted(s).Some? {
      var parts := Split(s, '.');
      JoinSplit(s, '.');
      forall i | 0 <= i < 4 ensures ':' !in parts[i] {
      }
      NoColon(parts);
      assert Split("", '.') == [""];
      assert s != "";
    }
  }

  lemma {:induction false} NoColon(parts: seq<string>)
    requires forall i :: 0 <= i < |parts| ==> ':' !in parts[i]
    ensures ':' !in Join(parts, '.')
  {
    if |parts| > 1 {
      NoColon(parts[1..]);
    }
  }

  lemma {:induction false} GroupsAreParts(parts: seq<string>)
    requires Groups(parts).Some?
    ensures forall i :: 0 <= i < |parts| ==> parts[i] != "" && ':' !in parts[i]
    decreases |parts|
  {
    if parts != [] {
      GroupsAreParts(parts[..|parts| - 1]);
      GroupIsAPart(parts[|parts| - 1]);
    }
  }

  lemma {:induction false} JoinIsTidy(parts: seq<string>)
    requires forall i :: 0 <= i < |parts| ==> parts[i] != "" && ':' !in parts[i]
    ensures Tidy(Join(parts, ':')) && (parts != [] ==> Join(parts, ':') != "")
  {
    if |parts| == 1 {
      assert forall i :: 0 <= i < |parts[0]| ==> parts[0][i] in parts[0];
    } else if |parts| > 1 {
      JoinIsTidy(parts[1..]);
      TidyJoin(parts[0], Join(parts[1..], ':'));
    }
  }

  lemma TidyJoin(first: string, rest: string)
    requires first != "" && ':' !in first && Tidy(rest) && rest != ""
    ensures Tidy(first + ":" + rest)
  {
  }

  lemma SideReads(parts: seq<string>)
    requires Groups(parts).Some?
    ensures Side(Join(parts, ':')) == Groups(parts) && Tidy(Join(parts, ':'))
  {
    GroupsAreParts(parts);
    JoinIsTidy(parts);
    if parts != [] {
      SplitJoin(parts, ':');
    }
  }

  lemma {:induction false} JoinedHasColon(parts: seq<string>)
    requires |parts| >= 2
    ensures ':' in Join(parts, ':')
  {
  }

  lemma {:induction false} AtMostTwoEach(parts: seq<string>)
    requires Groups(parts).Some?
    ensures |Groups(parts).value| <= 2 * |parts|
    decreases |parts|
  {
    if parts != [] {
      AtMostTwoEach(parts[..|parts| - 1]);
    }
  }

  /** Written out in full, with or without leading zeros or a dotted end. */
  lemma FullFormParses(parts: seq<string>)
    requires Groups(parts).Some? && |Groups(parts).value| == 8
    ensures Hextets(Join(parts, ':')) == Groups(parts)
  {
    AtMostTwoEach(parts);
    JoinedHasColon(parts);
    SideReads(parts);
    SplitWhole(Join(parts, ':'));
  }

  lemma HalvesParse(host: string, left: string, right: string, l: seq<int>, zeros: nat, r: seq<int>)
    requires ':' in host && SplitDouble(host) == [left, right] && Side(left) == Some(l) && Side(right) == Some(r)
    requires |l| + zeros + |r| == 8 && zeros >= 1
    ensures Hextets(host) == Some(l + Zeros(zeros) + r)
  {
    assert 8 - |l| - |r| == zeros;
  }

  /** Compressed anywhere: at the front, in the middle or at the end, over any run that is left out. */
  lemma CompressedFormParses(left: seq<string>, right: seq<string>, l: seq<int>, zeros: nat, r: seq<int>)
    requires Groups(left) == Some(l) && Groups(right) == Some(r) && |l| + zeros + |r| == 8 && zeros >= 1
    ensures Hextets(Join(left, ':') + "::" + Join(right, ':')) == Some(l + Zeros(zeros) + r)
  {
    var front, back := Join(left, ':'), Join(right, ':');
    SideReads(left);
    SideReads(right);
    SplitAtDouble(front, back);
    assert (front + "::" + back)[|front|] == ':';
    HalvesParse(front + "::" + back, front, back, l, zeros, r);
  }

  // ------------------------------------------------------- a printer's forms

  function HexChar(n: int): (c: char)
    requires 0 <= n < 16
    ensures IsHexDigit(c) && HexDigit(c) == n
  {
    if n < 10 then '0' + n as char else 'a' + (n - 10) as char
  }

  function HexText(n: nat): (s: string)
    ensures s != "" && forall i :: 0 <= i < |s| ==> IsHexDigit(s[i])
  {
    if n < 16 then [HexChar(n)] else HexText(n / 16) + [HexChar(n % 16)]
  }

  lemma {:induction false} HexTextReads(n: nat)
    ensures HexNumber(HexText(n)) == n
  {
    if n < 16 {
      assert [HexChar(n)][..0] == "";
    } else {
      HexTextReads(n / 16);
      var front := HexText(n / 16);
      assert (front + [HexChar(n % 16)])[..|front|] == front;
    }
  }

  function Pow16(digits: nat): nat {
    if digits == 0 then 1 else 16 * Pow16(digits - 1)
  }

  lemma {:induction false} HexTextFits(n: nat, digits: nat)
    requires digits >= 1 && n < Pow16(digits)
    ensures |HexText(n)| <= digits
  {
    if n >= 16 {
      assert digits > 1 by {
        assert Pow16(1) == 16 * Pow16(0);
      }
      HexTextFits(n / 16, digits - 1);
    }
  }

  lemma HexTextIsAGroup(n: nat)
    requires n < 0x1_0000
    ensures Group(HexText(n)) == Some([n])
  {
    HexTextReads(n);
    assert Pow16(1) == 16 && Pow16(2) == 256 && Pow16(3) == 4096 && Pow16(4) == 0x1_0000;
    HexTextFits(n, 4);
    NotDotted(HexText(n));
  }

  function HexTexts(groups: seq<int>): seq<string>
    requires AllHextets(groups)
  {
    seq(|groups|, i requires 0 <= i < |groups| => HexText(groups[i]))
  }

  lemma NotDotted(s: string)
    requires forall i :: 0 <= i < |s| ==> IsHexDigit(s[i])
    ensures Dotted(s).None?
  {
    assert '.' !in s;
    SplitOne(s, '.');
  }

  lemma HexTextsSplit(groups: seq<int>)
    requires AllHextets(groups) && groups != []
    ensures var n := |groups| - 1;
            HexTexts(groups)[..n] == HexTexts(groups[..n]) && HexTexts(groups)[n] == HexText(groups[n])
  {
  }

  lemma GroupsOneMore(parts: seq<string>, before: seq<int>, last: seq<int>)
    requires parts != [] && Groups(parts[..|parts| - 1]) == Some(before) && Group(parts[|parts| - 1]) == Some(last)
    ensures Groups(parts) == Some(before + last)
  {
  }

  lemma {:induction false} HexTextsRead(groups: seq<int>)
    requires AllHextets(groups)
    ensures Groups(HexTexts(groups)) == Some(groups)
    decreases |groups|
  {
    if groups == [] {
      assert HexTexts(groups) == [];
    } else {
      var front, last := groups[..|groups| - 1], groups[|groups| - 1];
      HexTextsRead(front);
      HexTextIsAGroup(last);
      HexTextsSplit(groups);
      GroupsOneMore(HexTexts(groups), front, [last]);
      assert groups == front + [last];
    }
  }

  /** Eight hextets come back from their text in full. */
  lemma FullHextetsComeBack(groups: seq<int>)
    requires |groups| == 8 && AllHextets(groups)
    ensures Hextets(Join(HexTexts(groups), ':')) == Some(groups)
  {
    HexTextsRead(groups);
    FullFormParses(HexTexts(groups));
  }

  /** And from their text compressed at any run of zeros. */
  lemma CompressedHextetsComeBack(left: seq<int>, zeros: nat, right: seq<int>)
    requires |left| + zeros + |right| == 8 && zeros >= 1 && AllHextets(left) && AllHextets(right)
    ensures Hextets(Join(HexTexts(left), ':') + "::" + Join(HexTexts(right), ':')) == Some(left + Zeros(zeros) + right)
  {
    HexTextsRead(left);
    HexTextsRead(right);
    CompressedFormParses(HexTexts(left), HexTexts(right), left, zeros, right);
  }

  // ----------------------------------------------------------- IPv4-mapped

  lemma NumeralIsShort(n: nat)
    requires n <= 255
    ensures |Numeral(n)| <= 3
  {
    if n >= 10 {
      assert |Numeral(n)| == |Numeral(n / 10)| + 1;
      if n >= 100 {
        assert |Numeral(n / 10)| == |Numeral(n / 100)| + 1;
      }
    }
  }

  lemma NumeralIsAnOctet(n: nat)
    requires n <= 255
    ensures Octet(Numeral(n)) == Some(n) && '.' !in Numeral(n)
  {
    NumeralReads(n);
    NumeralIsShort(n);
  }

  /** The octets a mapped address is classified by are its own. */
  lemma DottedReads(a: int, b: int, c: int, d: int)
    requires 0 <= a < 0x100 && 0 <= b < 0x100 && 0 <= c < 0x100 && 0 <= d < 0x100
    ensures Dotted(Join([Numeral(a), Numeral(b), Numeral(c), Numeral(d)], '.')) == Some([a, b, c, d])
  {
    var octets := [a, b, c, d];
    var parts := [Numeral(a), Numeral(b), Numeral(c), Numeral(d)];
    NumeralIsAnOctet(a);
    NumeralIsAnOctet(b);
    NumeralIsAnOctet(c);
    NumeralIsAnOctet(d);
    SplitJoin(parts, '.');
    assert forall i :: 0 <= i < 4 ==> Octet(parts[i]) == Some(octets[i]);
    assert seq(4, i requires 0 <= i < 4 => Octet(parts[i]).value) == octets;
  }

  lemma MappedTextReads(seventh: int, eighth: int)
    requires 0 <= seventh < 0x1_0000 && 0 <= eighth < 0x1_0000
    ensures ClassifyIpv4(MappedText(seventh, eighth)) == Some(ClassifyOctets(seventh / 0x100, seventh % 0x100))
  {
    DottedReads(seventh / 0x100, seventh % 0x100, eighth / 0x100, eighth % 0x100);
  }

  lemma MappedSide(s: string)
    requires Ipv4(s).Some?
    ensures var o := Ipv4(s).value;
            Groups(["ffff", s]) == Some([0xffff, 0x100 * o[0] + o[1], 0x100 * o[2] + o[3]])
  {
    var o := Ipv4(s).value;
    var tail := [0x100 * o[0] + o[1], 0x100 * o[2] + o[3]];
    var one, two := ["ffff"], ["ffff", s];
    assert one[..|one| - 1] == [] && two[..|two| - 1] == one;
    NotDotted("ffff");
    FfffReads();
    assert Groups(one) == Some([] + [0xffff]);
    assert [] + [0xffff] == [0xffff];
    assert Group(s) == Some(tail);
    GroupsOneMore(two, [0xffff], tail);
    assert [0xffff] + tail == [0xffff, tail[0], tail[1]];
  }

  lemma MappedGroups(s: string)
    requires Ipv4(s).Some?
    ensures var o := Ipv4(s).value;
            Hextets("::ffff:" + s) == Some(Zeros(5) + [0xffff, 0x100 * o[0] + o[1], 0x100 * o[2] + o[3]])
  {
    var o := Ipv4(s).value;
    var right := [0xffff, 0x100 * o[0] + o[1], 0x100 * o[2] + o[3]];
    MappedSide(s);
    CompressedFormParses([], ["ffff", s], [], 5, right);
    assert Join(["ffff", s], ':') == "ffff" + ":" + s;
    assert Join([], ':') + "::" + Join(["ffff", s], ':') == "::ffff:" + s;
    assert [] + Zeros(5) + right == Zeros(5) + right;
  }

  /** An IPv4 address behind `::ffff:` is classified exactly as that address is. */
  lemma MappedIsClassifiedAsIpv4(s: string)
    requires Ipv4(s).Some?
    ensures Hextets("::ffff:" + s).Some? && AllHextets(Hextets("::ffff:" + s).value)
    ensures ClassifyIpv6("::ffff:" + s) == ClassifyIpv4(s)
  {
    Ipv4Bounds(s);
    MappedGroups(s);
    MappedHextetsAreClassifiedAsIpv4("::ffff:" + s, s);
  }

  lemma FfffReads()
    ensures IsHexGroup("ffff") && HexNumber("ffff") == 0xffff
  {
    assert HexNumber("f") == 15 by {
      assert "f"[..0] == "";
    }
    assert HexNumber("ff") == 255 by {
      assert "ff"[..1] == "f";
    }
    assert HexNumber("fff") == 4095 by {
      assert "fff"[..2] == "ff";
    }
    assert "ffff"[..3] == "fff";
  }

  /** And so is any other text of the same eight hextets. */
  lemma MappedHextetsAreClassifiedAsIpv4(host: string, s: string)
    requires Hextets(host).Some? && Mapped(Hextets(host).value) && AllHextets(Hextets(host).value)
    requires Ipv4(s).Some?
    requires Hextets(host).value[6] == 0x100 * Ipv4(s).value[0] + Ipv4(s).value[1]
    ensures ClassifyIpv6(host) == ClassifyIpv4(s)
  {
    Ipv4Bounds(s);
    MappedTextReads(Hextets(host).value[6], Hextets(host).value[7]);
  }
}
