/** Base64, three bytes at a time, and the decoder the format asks for. */
module Base64 {
  import opened Prelude

  type Byte = bv8

  const UPPER := "ABCDEFGHIJKLMNOPQRSTUVWXYZ"
  const LOWER := "abcdefghijklmnopqrstuvwxyz"
  const DIGITS := "0123456789"
  const CHARS := UPPER + LOWER + DIGITS + "+/"

  /** The character of six bits. */
  function CharOf(six: Byte): char
    requires six < 64
  {
    CHARS[six as int]
  }

  function First(b0: Byte): (six: Byte)
    ensures six < 64
  {
    b0 >> 2
  }

  function Second(b0: Byte, b1: Byte): (six: Byte)
    ensures six < 64
  {
    ((b0 & 0x03) << 4) | (b1 >> 4)
  }

  function Third(b1: Byte, b2: Byte): (six: Byte)
    ensures six < 64
  {
    ((b1 & 0x0f) << 2) | (b2 >> 6)
  }

  function Fourth(b2: Byte): (six: Byte)
    ensures six < 64
  {
    b2 & 0x3f
  }

  /** The four characters of one, two or three bytes. */
  function Quad(bytes: seq<Byte>): (q: string)
    requires 1 <= |bytes| <= 3
    ensures |q| == 4
  {
    var b0 := bytes[0];
    var b1: Byte := if |bytes| > 1 then bytes[1] else 0;
    var b2: Byte := if |bytes| > 2 then bytes[2] else 0;
    [CharOf(First(b0)), CharOf(Second(b0, b1)),
     if |bytes| > 1 then CharOf(Third(b1, b2)) else '=',
     if |bytes| > 2 then CharOf(Fourth(b2)) else '=']
  }

  function Encode(bytes: seq<Byte>): string {
    if bytes == [] then ""
    else if |bytes| <= 3 then Quad(bytes)
    else Quad(bytes[..3]) + Encode(bytes[3..])
  }

  /** The loop, one group of three at a time. */
  method BytesToBase64(bytes: seq<Byte>) returns (out: string)
    ensures out == Encode(bytes)
  {
    out := "";
    var i := 0;
    while i < |bytes|
      invariant 0 <= i
      invariant i <= |bytes| ==> Encode(bytes) == out + Encode(bytes[i..])
      invariant i > |bytes| ==> Encode(bytes) == out
      decreases |bytes| - i
    {
      var rest := bytes[i..];
      var b0 := bytes[i];
      var hasB1, hasB2 := i + 1 < |bytes|, i + 2 < |bytes|;
      var b1: Byte := if hasB1 then bytes[i + 1] else 0;
      var b2: Byte := if hasB2 then bytes[i + 2] else 0;
      var quad := [CharOf(First(b0)), CharOf(Second(b0, b1)),
                   if hasB1 then CharOf(Third(b1, b2)) else '=', if hasB2 then CharOf(Fourth(b2)) else '='];
      assert quad == Quad(if |rest| <= 3 then rest else rest[..3]);
      if |rest| > 3 {
        assert rest[3..] == bytes[i + 3..];
        assert out + (quad + Encode(rest[3..])) == out + quad + Encode(rest[3..]);
      } else if |rest| == 3 {
        assert bytes[i + 3..] == [];
      }
      out := out + quad;
      i := i + 3;
    }
    if i == |bytes| {
      assert bytes[i..] == [];
    }
  }

  // ------------------------------------------------------------ the decoder

  /** Section 4 of RFC 4648: the six bits a character stands for. */
  function SixOf(c: char): Option<Byte> {
    if 'A' <= c <= 'Z' then Some((c as int - 'A' as int) as bv8)
    else if 'a' <= c <= 'z' then Some((c as int - 'a' as int + 26) as bv8)
    else if '0' <= c <= '9' then Some((c as int - '0' as int + 52) as bv8)
    else if c == '+' then Some(62)
    else if c == '/' then Some(63)
    else None
  }

  function Bytes3(s0: Byte, s1: Byte, s2: Byte, s3: Byte): seq<Byte> {
    [(s0 << 2) | (s1 >> 4), (s1 << 4) | (s2 >> 2), (s2 << 6) | s3]
  }

  /** The bytes of four characters, the last one or two of which may be padding. */
  function DecodeQuad(q: string): Option<seq<Byte>>
    requires |q| == 4
  {
    var s0, s1 := SixOf(q[0]), SixOf(q[1]);
    if s0.None? || s1.None? then None
    else if q[2] == '=' && q[3] == '=' then Some(Bytes3(s0.value, s1.value, 0, 0)[..1])
    else if SixOf(q[2]).None? then None
    else if q[3] == '=' then Some(Bytes3(s0.value, s1.value, SixOf(q[2]).value, 0)[..2])
    else if SixOf(q[3]).None? then None
    else Some(Bytes3(s0.value, s1.value, SixOf(q[2]).value, SixOf(q[3]).value))
  }

  /** Padding ends the text. */
  function Decode(s: string): Option<seq<Byte>>
    decreases |s|
  {
    if s == "" then Some([])
    else if |s| < 4 then None
    else
      var first := DecodeQuad(s[..4]);
      if first.None? then None
      else if |s| == 4 then first
      else if |first.value| < 3 then None
      else
        var rest := Decode(s[4..]);
        if rest.None? then None else Some(first.value + rest.value)
  }

  lemma UpperInOrder(n: nat)
    requires n < 26
    ensures UPPER[n] == 'A' + n as char
  {
  }

  lemma LowerInOrder(n: nat)
    requires n < 26
    ensures LOWER[n] == 'a' + n as char
  {
  }

  lemma DigitsInOrder(n: nat)
    requires n < 10
    ensures DIGITS[n] == '0' + n as char
  {
  }

  lemma CharsInOrder(n: nat)
    requires n < 64
    ensures CHARS[n] == if n < 26 then UPPER[n] else if n < 52 then LOWER[n - 26] else if n < 62 then DIGITS[n - 52]
                        else if n == 62 then '+' else '/'
  {
  }

  lemma LettersRead(n: nat)
    requires n < 26
    ensures SixOf('A' + n as char) == Some(n as bv8) && SixOf('a' + n as char) == Some((n + 26) as bv8)
  {
  }

  lemma DigitsRead(n: nat)
    requires n < 10
    ensures SixOf('0' + n as char) == Some((n + 52) as bv8)
  {
  }

  lemma UpperComesBack(n: nat)
    requires n < 26
    ensures SixOf(CHARS[n]) == Some(n as bv8)
  {
    CharsInOrder(n);
    UpperInOrder(n);
    LettersRead(n);
  }

  lemma LowerComesBack(n: nat)
    requires 26 <= n < 52
    ensures SixOf(CHARS[n]) == Some(n as bv8)
  {
    CharsInOrder(n);
    LowerInOrder(n - 26);
    LettersRead(n - 26);
  }

  lemma DigitComesBack(n: nat)
    requires 52 <= n < 62
    ensures SixOf(CHARS[n]) == Some(n as bv8)
  {
    CharsInOrder(n);
    DigitsInOrder(n - 52);
    DigitsRead(n - 52);
  }

  lemma SignComesBack(n: nat)
    requires 62 <= n < 64
    ensures SixOf(CHARS[n]) == Some(n as bv8)
  {
  }

  lemma NumberComesBack(n: nat)
    requires n < 64
    ensures SixOf(CHARS[n]) == Some(n as bv8)
  {
    if n < 26 {
      UpperComesBack(n);
    } else if n < 52 {
      LowerComesBack(n);
    } else if n < 62 {
      DigitComesBack(n);
    } else {
      SignComesBack(n);
    }
  }

  lemma SixComesBack(six: Byte)
    requires six < 64
    ensures SixOf(CharOf(six)) == Some(six) && CharOf(six) != '='
  {
    NumberComesBack(six as int);
  }

  lemma Bits(b0: Byte, b1: Byte, b2: Byte)
    ensures Bytes3(First(b0), Second(b0, b1), Third(b1, b2), Fourth(b2)) == [b0, b1, b2]
  {
  }

  /** Bytes that are not there are zero bits, and their characters are padding. */
  lemma QuadComesBack(bytes: seq<Byte>)
    requires 1 <= |bytes| <= 3
    ensures DecodeQuad(Quad(bytes)) == Some(bytes)
  {
    var b0 := bytes[0];
    var b1: Byte := if |bytes| > 1 then bytes[1] else 0;
    var b2: Byte := if |bytes| > 2 then bytes[2] else 0;
    SixComesBack(First(b0));
    SixComesBack(Second(b0, b1));
    SixComesBack(Third(b1, b2));
    SixComesBack(Fourth(b2));
    Bits(b0, b1, b2);
    NoBits();
    if |bytes| == 1 {
      assert bytes == [b0, 0, 0][..1];
      assert DecodeQuad(Quad(bytes)) == Some(Bytes3(First(b0), Second(b0, 0), 0, 0)[..1]);
    } else if |bytes| == 2 {
      assert bytes == [b0, b1, 0][..2];
      assert DecodeQuad(Quad(bytes)) == Some(Bytes3(First(b0), Second(b0, b1), Third(b1, 0), 0)[..2]);
    } else {
      assert bytes == [b0, b1, b2];
      assert DecodeQuad(Quad(bytes)) == Some(Bytes3(First(b0), Second(b0, b1), Third(b1, b2), Fourth(b2)));
    }
  }

  lemma NoBits()
    ensures Third(0, 0) == 0 && Fourth(0) == 0
  {
  }

  /** Encoding loses nothing: the decoder returns the very bytes, for every length of the tail. */
  lemma {:induction false} EncodingComesBack(bytes: seq<Byte>)
    ensures Decode(Encode(bytes)) == Some(bytes)
    decreases |bytes|
  {
    if 0 < |bytes| <= 3 {
      QuadComesBack(bytes);
      assert Quad(bytes)[..4] == Quad(bytes);
    } else if |bytes| > 3 {
      var quad, rest := Quad(bytes[..3]), Encode(bytes[3..]);
      QuadComesBack(bytes[..3]);
      EncodingComesBack(bytes[3..]);
      EncodedLength(bytes[3..]);
      assert (quad + rest)[..4] == quad && (quad + rest)[4..] == rest;
      assert bytes[..3] + bytes[3..] == bytes;
    }
  }

  /** Four characters for every three bytes begun. */
  lemma {:induction false} EncodedLength(bytes: seq<Byte>)
    ensures |Encode(bytes)| == 4 * ((|bytes| + 2) / 3)
    decreases |bytes|
  {
    if |bytes| > 3 {
      EncodedLength(bytes[3..]);
    }
  }
}
