/** The few pieces of Go's `strings`, `strconv` and string-to-bytes conversion the
    core relies on. A Go `string` is modelled as `seq<char>` (Unicode scalar values);
    where the source looks at bytes, `Utf8` gives the byte view. */
module GoStrings {

  /** An 8-bit byte. */
  type byte = x: int | 0 <= x < 256

  /** strings.LastIndexByte: the index of the last occurrence of `c`, or -1. The
      callers only search for ASCII characters, which never occur inside the UTF-8
      encoding of another character, so searching characters finds the same place. */
  function LastIndexByte(s: string, c: char): (r: int)
    ensures -1 <= r < |s|
    ensures r == -1 <==> c !in s
    ensures r >= 0 ==> s[r] == c && c !in s[r + 1..]
  {
    if |s| == 0 then -1
    else if s[|s| - 1] == c then |s| - 1
    else
      var r := LastIndexByte(s[..|s| - 1], c);
      assert s[..|s| - 1] + [s[|s| - 1]] == s;
      assert r >= 0 ==> s[r + 1..] == s[..|s| - 1][r + 1..] + [s[|s| - 1]];
      r
  }

  /** strings.HasPrefix */
  predicate HasPrefix(s: string, prefix: string) {
    |prefix| <= |s| && s[..|prefix|] == prefix
  }

  /** strings.Join(parts, "") */
  function Concat(parts: seq<string>): string {
    if parts == [] then [] else Concat(parts[..|parts| - 1]) + parts[|parts| - 1]
  }

  /** True when `pat` occurs in `s` starting at index `i`. */
  predicate OccursAt(s: string, pat: string, i: nat) {
    i + |pat| <= |s| && s[i..i + |pat|] == pat
  }

  /** strings.Replace(s, pat, "", -1): a left-to-right scan that deletes every
      non-overlapping occurrence of `pat`. */
  function RemoveAll(s: string, pat: string): (r: string)
    requires pat != []
    ensures |r| <= |s|
    decreases |s|
  {
    if |s| < |pat| then s
    else if s[..|pat|] == pat then RemoveAll(s[|pat|..], pat)
    else [s[0]] + RemoveAll(s[1..], pat)
  }

  lemma {:induction false} RemoveAllAbsent(s: string, pat: string)
    requires pat != []
    requires forall i :: 0 <= i <= |s| - |pat| ==> !OccursAt(s, pat, i)
    ensures RemoveAll(s, pat) == s
    decreases |s|
  {
    if |s| >= |pat| {
      assert !OccursAt(s, pat, 0);
      forall i | 0 <= i <= |s[1..]| - |pat|
        ensures !OccursAt(s[1..], pat, i)
      {
        assert !OccursAt(s, pat, i + 1);
        assert s[1..][i..i + |pat|] == s[i + 1..i + 1 + |pat|];
      }
      RemoveAllAbsent(s[1..], pat);
    }
  }

  // A string in which no '/' is followed by '*' has no "/*" to delete.
  lemma NoSlashStar(s: string)
    requires forall i :: 0 <= i < |s| - 1 && s[i] == '/' ==> s[i + 1] != '*'
    ensures RemoveAll(s, "/*") == s
  {
    forall i | 0 <= i <= |s| - 2
      ensures !OccursAt(s, "/*", i)
    {
      PairAt(s, i);
    }
    RemoveAllAbsent(s, "/*");
  }

  lemma PairAt(s: string, i: nat)
    requires i + 2 <= |s|
    ensures s[i..i + 2] == [s[i], s[i + 1]]
  {
  }

  // Deleting "/*" from a concatenation: when the left part does not end in '/',
  // no occurrence straddles the seam, so the deletion distributes.
  lemma {:induction false} RemoveSlashStarAppend(a: string, b: string)
    requires a == [] || a[|a| - 1] != '/'
    ensures RemoveAll(a + b, "/*") == RemoveAll(a, "/*") + RemoveAll(b, "/*")
    decreases |a|
  {
    if a == [] {
      assert a + b == b;
    } else if |a| >= 2 && a[..2] == "/*" {
      assert (a + b)[..2] == "/*";
      assert (a + b)[2..] == a[2..] + b;
      RemoveSlashStarAppend(a[2..], b);
    } else {
      assert (a + b)[0] == a[0];
      if |a| >= 2 {
        assert (a + b)[..2] == a[..2];
      } else {
        assert a[0] != '/';
      }
      assert (a + b)[1..] == a[1..] + b;
      if |a| >= 2 {
        RemoveSlashStarAppend(a[1..], b);
        assert RemoveAll(a, "/*") == [a[0]] + RemoveAll(a[1..], "/*");
      } else {
        assert a[1..] == [];
        assert RemoveAll(a, "/*") == a;
        if |a + b| < 2 {
          assert b == [];
        } else {
          assert RemoveAll(a + b, "/*") == [a[0]] + RemoveAll(b, "/*");
        }
      }
    }
  }

  /** Characters '0'..'9' */
  predicate IsDigit(c: char) {
    '0' <= c <= '9'
  }

  function DigitChar(d: nat): (c: char)
    requires d < 10
    ensures IsDigit(c) && (c as int) - ('0' as int) == d
  {
    (('0' as int) + d) as char
  }

  /** Decimal digits of a natural number, most significant first (fmt's %d). */
  function FormatNat(n: nat): (s: string)
    ensures |s| >= 1 && forall i :: 0 <= i < |s| ==> IsDigit(s[i])
    decreases n
  {
    if n < 10 then [DigitChar(n)] else FormatNat(n / 10) + [DigitChar(n % 10)]
  }

  /** fmt.Sprintf("%d", i) */
  function FormatInt(i: int): (s: string)
    ensures |s| >= 1
  {
    if i < 0 then "-" + FormatNat(-i) else FormatNat(i)
  }

  predicate AllDigits(s: string) {
    forall i :: 0 <= i < |s| ==> IsDigit(s[i])
  }

  /** The value of a string of decimal digits. */
  function DigitsValue(s: string): (n: nat)
    requires AllDigits(s)
  {
    if s == [] then 0
    else DigitsValue(s[..|s| - 1]) * 10 + ((s[|s| - 1] as int) - ('0' as int))
  }

  lemma {:induction false} DigitsValueOfFormat(n: nat)
    ensures DigitsValue(FormatNat(n)) == n
    decreases n
  {
    if n >= 10 {
      var s := FormatNat(n);
      assert s[..|s| - 1] == FormatNat(n / 10);
      DigitsValueOfFormat(n / 10);
    }
  }

  const MaxInt64: int := 0x7fff_ffff_ffff_ffff
  const MinInt64: int := -0x8000_0000_0000_0000

  /** The syntax strconv.Atoi accepts in base 10: an optional sign and at least one digit. */
  predicate AtoiSyntax(s: string) {
    if |s| > 0 && (s[0] == '+' || s[0] == '-') then |s| > 1 && AllDigits(s[1..])
    else |s| > 0 && AllDigits(s)
  }

  /** The value strconv.Atoi returns on a 64-bit platform when its error is ignored:
      0 on a syntax error, the value clamped to the int64 range when it is too large. */
  function Atoi(s: string): (n: int)
    ensures MinInt64 <= n <= MaxInt64
    ensures !AtoiSyntax(s) ==> n == 0
  {
    if !AtoiSyntax(s) then 0
    else
      var neg := s[0] == '-';
      var digits := if s[0] == '+' || s[0] == '-' then s[1..] else s;
      var v: int := DigitsValue(digits);
      if neg then (if -v < MinInt64 then MinInt64 else -v)
      else (if v > MaxInt64 then MaxInt64 else v)
  }

  /** Atoi reads back what %d writes, for every int64. */
  lemma AtoiFormatInt(i: int)
    requires MinInt64 <= i <= MaxInt64
    ensures Atoi(FormatInt(i)) == i
  {
    var s := FormatInt(i);
    if i < 0 {
      var d := FormatNat(-i);
      assert s == ['-'] + d;
      assert s[1..] == d;
      assert AtoiSyntax(s);
      DigitsValueOfFormat(-i);
      assert DigitsValue(s[1..]) == -i;
    } else {
      assert IsDigit(s[0]);
      assert AtoiSyntax(s);
      DigitsValueOfFormat(i);
    }
  }

  /** The UTF-8 encoding of one Unicode scalar value. */
  function Utf8Char(c: char): (b: seq<byte>)
    ensures 1 <= |b| <= 4
    ensures (c as int) < 0x80 <==> |b| == 1
    ensures |b| == 1 ==> b[0] == c as int
  {
    var n := c as int;
    if n < 0x80 then [n]
    else if n < 0x800 then [0xC0 + n / 0x40, 0x80 + n % 0x40]
    else if n < 0x10000 then [0xE0 + n / 0x1000, 0x80 + (n / 0x40) % 0x40, 0x80 + n % 0x40]
    else [0xF0 + n / 0x40000, 0x80 + (n / 0x1000) % 0x40, 0x80 + (n / 0x40) % 0x40, 0x80 + n % 0x40]
  }

  /** Go's []byte(s) conversion. */
  function Utf8(s: string): (b: seq<byte>)
    ensures |b| >= |s|
  {
    if s == [] then [] else Utf8(s[..|s| - 1]) + Utf8Char(s[|s| - 1])
  }

  lemma {:induction false} Utf8Append(a: string, b: string)
    ensures Utf8(a + b) == Utf8(a) + Utf8(b)
    decreases |b|
  {
    if b != [] {
      var front, last := b[..|b| - 1], b[|b| - 1];
      assert (a + b)[..|a + b| - 1] == a + front;
      assert (a + b)[|a + b| - 1] == last;
      assert Utf8(a + b) == Utf8(a + front) + Utf8Char(last);
      Utf8Append(a, front);
      assert Utf8(b) == Utf8(front) + Utf8Char(last);
    } else {
      assert a + b == a;
    }
  }

  predicate IsAscii(s: string) {
    forall i :: 0 <= i < |s| ==> (s[i] as int) < 0x80
  }

  /** An ASCII string converts to one byte per character, each equal to its code. */
  lemma {:induction false} Utf8Ascii(s: string)
    requires IsAscii(s)
    ensures |Utf8(s)| == |s|
    ensures forall i :: 0 <= i < |s| ==> Utf8(s)[i] == s[i] as int
    decreases |s|
  {
    if s != [] {
      Utf8Ascii(s[..|s| - 1]);
    }
  }
}

/** The canonical text form of a UUID (github.com/google/uuid, UUID.String):
    32 lower-case hex digits in groups of 8-4-4-4-12. uuid.New's random bytes are
    an input to the model. */
module Uuid {
  import opened GoStrings

  function HexDigit(d: nat): (c: char)
    requires d < 16
  {
    if d < 10 then (('0' as int) + d) as char else (('a' as int) + d - 10) as char
  }

  function Hex(bs: seq<byte>): (s: string)
    ensures |s| == 2 * |bs|
    ensures '-' !in s
  {
    if bs == [] then [] else [HexDigit(bs[0] / 16), HexDigit(bs[0] % 16)] + Hex(bs[1..])
  }

  /** A UUID's 16 bytes. */
  type UuidBytes = b: seq<byte> | |b| == 16 witness seq(16, _ => 0)

  function UuidString(u: UuidBytes): (s: string)
    ensures |s| == 36
    ensures s[8] == '-' && s[13] == '-' && s[18] == '-' && s[23] == '-'
  {
    Hex(u[..4]) + "-" + Hex(u[4..6]) + "-" + Hex(u[6..8]) + "-" + Hex(u[8..10]) + "-" + Hex(u[10..])
  }
}
