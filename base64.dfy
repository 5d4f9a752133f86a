/** Base 64 encoding with the standard alphabet and '=' padding, as defined in
    section 4 of RFC 4648 (Go's base64.StdEncoding). Decode is the reference
    inverse used to state what Encode preserves. */
module Base64 {
  import opened Wrappers
  import opened GoStrings

  /** A 6-bit group: an index into the alphabet. */
  type sextet = x: int | 0 <= x < 64

  /** Table 1 of RFC 4648: A-Z, a-z, 0-9, '+', '/'. */
  function Alphabet(i: sextet): (c: char)
    ensures c != '='
  {
    if i < 26 then (('A' as int) + i) as char
    else if i < 52 then (('a' as int) + (i - 26)) as char
    else if i < 62 then (('0' as int) + (i - 52)) as char
    else if i == 62 then '+'
    else '/'
  }

  /** The alphabet index of a character, if it has one. */
  function IndexOf(c: char): Option<sextet> {
    if 'A' <= c <= 'Z' then Some((c as int) - ('A' as int))
    else if 'a' <= c <= 'z' then Some((c as int) - ('a' as int) + 26)
    else if '0' <= c <= '9' then Some((c as int) - ('0' as int) + 52)
    else if c == '+' then Some(62)
    else if c == '/' then Some(63)
    else None
  }

  lemma IndexOfAlphabet(i: sextet)
    ensures IndexOf(Alphabet(i)) == Some(i)
  {
  }

  // The four 6-bit groups of the 24 bits b0 b1 b2, most significant first.
  function Hi6(b0: byte): sextet { b0 / 4 }
  function Mid6a(b0: byte, b1: byte): sextet { (b0 % 4) * 16 + b1 / 16 }
  function Mid6b(b1: byte, b2: byte): sextet { (b1 % 16) * 4 + b2 / 64 }
  function Lo6(b2: byte): sextet { b2 % 64 }

  /** Encoding of one whole 3-byte group. */
  function EncodeGroup(b0: byte, b1: byte, b2: byte): string {
    [Alphabet(Hi6(b0)), Alphabet(Mid6a(b0, b1)), Alphabet(Mid6b(b1, b2)), Alphabet(Lo6(b2))]
  }

  /** base64.StdEncoding.EncodeToString */
  function Encode(b: seq<byte>): (s: string)
    ensures |s| == 4 * ((|b| + 2) / 3)
  {
    if |b| == 0 then ""
    else if |b| == 1 then [Alphabet(Hi6(b[0])), Alphabet(Mid6a(b[0], 0)), '=', '=']
    else if |b| == 2 then [Alphabet(Hi6(b[0])), Alphabet(Mid6a(b[0], b[1])), Alphabet(Mid6b(b[1], 0)), '=']
    else EncodeGroup(b[0], b[1], b[2]) + Encode(b[3..])
  }

  // The three bytes rebuilt from four 6-bit groups.
  function Join0(c0: sextet, c1: sextet): byte { c0 * 4 + c1 / 16 }
  function Join1(c1: sextet, c2: sextet): byte { (c1 % 16) * 16 + c2 / 4 }
  function Join2(c2: sextet, c3: sextet): byte { (c2 % 4) * 64 + c3 }

  /** Decoding of one 4-character group; `last` allows padding. */
  function DecodeGroup(q: string, last: bool): Option<seq<byte>>
    requires |q| == 4
  {
    var i0, i1 := IndexOf(q[0]), IndexOf(q[1]);
    if i0.None? || i1.None? then None
    else if last && q[2] == '=' && q[3] == '=' then Some([Join0(i0.value, i1.value)])
    else
      var i2 := IndexOf(q[2]);
      if i2.None? then None
      else if last && q[3] == '=' then Some([Join0(i0.value, i1.value), Join1(i1.value, i2.value)])
      else
        var i3 := IndexOf(q[3]);
        if i3.None? then None
        else Some([Join0(i0.value, i1.value), Join1(i1.value, i2.value), Join2(i2.value, i3.value)])
  }

  /** Padded base 64 decoding: the reference inverse of Encode. */
  function Decode(s: string): Option<seq<byte>>
    decreases |s|
  {
    if |s| == 0 then Some([])
    else if |s| < 4 then None
    else
      var head := DecodeGroup(s[..4], |s| == 4);
      if head.None? then None
      else
        var tail := Decode(s[4..]);
        if tail.None? then None else Some(head.value + tail.value)
  }

  lemma GroupBits(b0: byte, b1: byte, b2: byte)
    ensures Join0(Hi6(b0), Mid6a(b0, b1)) == b0
    ensures Join1(Mid6a(b0, b1), Mid6b(b1, b2)) == b1
    ensures Join2(Mid6b(b1, b2), Lo6(b2)) == b2
  {
  }

  // DecodeGroup on a group whose characters are already known to decode.
  lemma DecodeGroupOf(q: string, i0: sextet, i1: sextet, i2: sextet, i3: sextet, last: bool)
    requires |q| == 4
    requires IndexOf(q[0]) == Some(i0) && IndexOf(q[1]) == Some(i1)
    requires q[2] == '=' || IndexOf(q[2]) == Some(i2)
    requires q[3] == '=' || IndexOf(q[3]) == Some(i3)
    requires q[2] == '=' ==> q[3] == '=' && last
    requires q[3] == '=' ==> last
    ensures q[2] == '=' ==> DecodeGroup(q, last) == Some([Join0(i0, i1)])
    ensures q[2] != '=' && q[3] == '=' ==> DecodeGroup(q, last) == Some([Join0(i0, i1), Join1(i1, i2)])
    ensures q[3] != '=' ==> DecodeGroup(q, last) == Some([Join0(i0, i1), Join1(i1, i2), Join2(i2, i3)])
  {
    if q[2] != '=' && q[3] != '=' {
      assert IndexOf('=') == None;
    }
  }

  lemma DecodeWholeGroup(b0: byte, b1: byte, b2: byte, last: bool)
    ensures DecodeGroup(EncodeGroup(b0, b1, b2), last) == Some([b0, b1, b2])
  {
    var c0, c1, c2, c3 := Hi6(b0), Mid6a(b0, b1), Mid6b(b1, b2), Lo6(b2);
    IndexOfAlphabet(c0);
    IndexOfAlphabet(c1);
    IndexOfAlphabet(c2);
    IndexOfAlphabet(c3);
    GroupBits(b0, b1, b2);
    DecodeGroupOf(EncodeGroup(b0, b1, b2), c0, c1, c2, c3, last);
  }

  lemma DecodeStep(s: string, head: seq<byte>, tail: seq<byte>)
    requires |s| >= 4
    requires DecodeGroup(s[..4], |s| == 4) == Some(head)
    requires Decode(s[4..]) == Some(tail)
    ensures Decode(s) == Some(head + tail)
  {
  }

  lemma DecodeOneByteGroups(b0: byte)
    ensures Decode(Encode([b0])) == Some([Join0(Hi6(b0), Mid6a(b0, 0))])
  {
    var s := Encode([b0]);
    var c0, c1 := Hi6(b0), Mid6a(b0, 0);
    assert s == [Alphabet(c0), Alphabet(c1), '=', '='];
    assert s[..4] == s && s[4..] == [];
    IndexOfAlphabet(c0);
    IndexOfAlphabet(c1);
    DecodeGroupOf(s, c0, c1, 0, 0, true);
    DecodeStep(s, [Join0(c0, c1)], []);
    assert [Join0(c0, c1)] + [] == [Join0(c0, c1)];
  }

  lemma DecodeTwoBytesGroups(b0: byte, b1: byte)
    ensures Decode(Encode([b0, b1])) == Some([Join0(Hi6(b0), Mid6a(b0, b1)), Join1(Mid6a(b0, b1), Mid6b(b1, 0))])
  {
    var s := Encode([b0, b1]);
    var c0, c1, c2 := Hi6(b0), Mid6a(b0, b1), Mid6b(b1, 0);
    assert s == [Alphabet(c0), Alphabet(c1), Alphabet(c2), '='];
    assert s[..4] == s && s[4..] == [];
    IndexOfAlphabet(c0);
    IndexOfAlphabet(c1);
    IndexOfAlphabet(c2);
    DecodeGroupOf(s, c0, c1, c2, 0, true);
    DecodeStep(s, [Join0(c0, c1), Join1(c1, c2)], []);
    assert [Join0(c0, c1), Join1(c1, c2)] + [] == [Join0(c0, c1), Join1(c1, c2)];
  }

  lemma DecodeOneByte(b0: byte)
    ensures Decode(Encode([b0])) == Some([b0])
  {
    DecodeOneByteGroups(b0);
    GroupBits(b0, 0, 0);
  }

  lemma DecodeTwoBytes(b0: byte, b1: byte)
    ensures Decode(Encode([b0, b1])) == Some([b0, b1])
  {
    DecodeTwoBytesGroups(b0, b1);
    GroupBits(b0, b1, 0);
  }

  lemma DecodeGroupThenRest(b: seq<byte>, s: string, rest: string)
    requires |b| >= 3
    requires s == EncodeGroup(b[0], b[1], b[2]) + rest
    requires Decode(rest) == Some(b[3..])
    ensures Decode(s) == Some(b)
  {
    assert s[..4] == EncodeGroup(b[0], b[1], b[2]) && s[4..] == rest;
    DecodeWholeGroup(b[0], b[1], b[2], |s| == 4);
    assert [b[0], b[1], b[2]] == b[..3];
    DecodeStep(s, b[..3], b[3..]);
    assert b[..3] + b[3..] == b;
  }

  /** Decoding what Encode produced gives the bytes back. */
  lemma {:induction false} DecodeEncode(b: seq<byte>)
    ensures Decode(Encode(b)) == Some(b)
    decreases |b|
  {
    if |b| == 1 {
      assert Decode(Encode(b)) == Some(b) by {
        assert b == [b[0]];
        DecodeOneByte(b[0]);
      }
    } else if |b| == 2 {
      assert Decode(Encode(b)) == Some(b) by {
        assert b == [b[0], b[1]];
        DecodeTwoBytes(b[0], b[1]);
      }
    } else if |b| >= 3 {
      assert Decode(Encode(b)) == Some(b) by {
        DecodeEncode(b[3..]);
        DecodeGroupThenRest(b, Encode(b), Encode(b[3..]));
      }
    }
  }

  /** Every character Encode writes is from the alphabet or is padding, and padding
      only ever closes the string. */
  lemma {:induction false} EncodeAlphabet(b: seq<byte>, k: nat)
    requires k < |Encode(b)|
    ensures Encode(b)[k] == '=' || IndexOf(Encode(b)[k]).Some?
    ensures Encode(b)[k] == '=' ==> k >= |Encode(b)| - 2
    decreases |b|
  {
    if |b| == 1 {
      IndexOfAlphabet(Hi6(b[0]));
      IndexOfAlphabet(Mid6a(b[0], 0));
    } else if |b| == 2 {
      IndexOfAlphabet(Hi6(b[0]));
      IndexOfAlphabet(Mid6a(b[0], b[1]));
      IndexOfAlphabet(Mid6b(b[1], 0));
    } else if |b| >= 3 {
      if k < 4 {
        IndexOfAlphabet(Hi6(b[0]));
        IndexOfAlphabet(Mid6a(b[0], b[1]));
        IndexOfAlphabet(Mid6b(b[1], b[2]));
        IndexOfAlphabet(Lo6(b[2]));
      } else {
        EncodeAlphabet(b[3..], k - 4);
      }
    }
  }
}
