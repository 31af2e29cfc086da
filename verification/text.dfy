/**
 * String building blocks the server relies on: JavaScript's `Array.prototype.join`, the decimal
 * rendering of a count in a template string, and the lower-case hexadecimal rendering of random
 * bytes (`Buffer.toString('hex')`).  Each comes with the inverse that shows nothing is lost.
 */
module Text {

  type byte = x: int | 0 <= x < 256

  /** The separator every list in the server's messages is joined with. */
  const LIST_SEP := ", "

  // ---------------------------------------------------------------------------------------------
  // Join and its inverse for the ", " separator

  /** `parts.join(sep)`: the parts in order, with `sep` between each two neighbours. */
  function Join(parts: seq<string>, sep: string): string
  {
    if |parts| == 0 then ""
    else if |parts| == 1 then parts[0]
    else parts[0] + sep + Join(parts[1..], sep)
  }

  /** The joined text is empty exactly when there is nothing to show: no part, or a single empty one. */
  lemma JoinEmptyIff(parts: seq<string>)
    ensures Join(parts, LIST_SEP) == "" <==> parts == [] || parts == [""]
  {
    if |parts| > 1 {
      assert |Join(parts, LIST_SEP)| >= |LIST_SEP|;
    }
  }

  /** The separator ", " occurs in `s` starting at index `i`. */
  predicate SepAt(s: string, i: int)
  {
    0 <= i && i + 1 < |s| && s[i] == ',' && s[i + 1] == ' '
  }

  predicate HasSep(s: string)
  {
    exists i | 0 <= i < |s| :: SepAt(s, i)
  }

  /** The first index at or after `from` where ", " starts, or `|s|` when there is none. */
  function FindSep(s: string, from: nat): (i: nat)
    requires from <= |s|
    ensures from <= i <= |s|
    ensures i < |s| ==> SepAt(s, i)
    ensures forall j :: from <= j < i ==> !SepAt(s, j)
    decreases |s| - from
  {
    if from + 1 >= |s| then |s|
    else if s[from] == ',' && s[from + 1] == ' ' then from
    else FindSep(s, from + 1)
  }

  /** Cuts `s` at every ", ", left to right: `s.split(', ')`. */
  function Split(s: string): (parts: seq<string>)
    ensures |parts| >= 1
    decreases |s|
  {
    var i := FindSep(s, 0);
    if i == |s| then [s] else [s[..i]] + Split(s[i + 2..])
  }

  /** In `x + ", " + rest` the first separator is the one after `x`, when `x` holds none itself. */
  lemma FirstSepAfter(x: string, rest: string)
    requires !HasSep(x)
    ensures FindSep(x + LIST_SEP + rest, 0) == |x|
  {
    var s := x + LIST_SEP + rest;
    assert SepAt(s, |x|);
    forall j | 0 <= j < |x|
      ensures !SepAt(s, j)
    {
      if j + 1 < |x| {
        assert !SepAt(x, j);
      } else {
        assert s[j + 1] == ',';
      }
    }
  }

  /** Joining with ", " loses nothing when no part contains ", " itself: splitting gives the parts back. */
  lemma {:induction false} SplitJoin(parts: seq<string>)
    requires |parts| >= 1
    requires forall k :: 0 <= k < |parts| ==> !HasSep(parts[k])
    ensures Split(Join(parts, LIST_SEP)) == parts
  {
    var x := parts[0];
    if |parts| == 1 {
      assert !SepAt(x, FindSep(x, 0));
    } else {
      var rest := Join(parts[1..], LIST_SEP);
      var s := x + LIST_SEP + rest;
      assert Join(parts, LIST_SEP) == s;
      FirstSepAfter(x, rest);
      assert s[..|x|] == x;
      assert s[|x| + 2..] == rest;
      SplitJoin(parts[1..]);
      assert [x] + parts[1..] == parts;
    }
  }

  // ---------------------------------------------------------------------------------------------
  // Decimal rendering of a count, as a template string shows a non-negative integer

  predicate IsDigits(s: string)
  {
    forall i :: 0 <= i < |s| ==> '0' <= s[i] <= '9'
  }

  function DigitChar(d: nat): (c: char)
    requires d < 10
    ensures '0' <= c <= '9' && c as int - '0' as int == d
  {
    ('0' as int + d) as char
  }

  /** The decimal digits of `n`, most significant first, without leading zeros. */
  function NatToString(n: nat): (s: string)
    ensures |s| >= 1 && IsDigits(s)
    ensures s[0] == '0' ==> n == 0
    decreases n
  {
    if n < 10 then [DigitChar(n)] else NatToString(n / 10) + [DigitChar(n % 10)]
  }

  /** The value of a string of decimal digits. */
  function ParseNat(s: string): nat
    requires IsDigits(s)
  {
    if s == [] then 0 else ParseNat(s[..|s| - 1]) * 10 + (s[|s| - 1] as int - '0' as int)
  }

  /** Reading the digits back gives the number. */
  lemma {:induction false} ParseNatToString(n: nat)
    ensures ParseNat(NatToString(n)) == n
  {
    var s := NatToString(n);
    if n >= 10 {
      ParseNatToString(n / 10);
      assert s[..|s| - 1] == NatToString(n / 10);
    }
  }

  // ---------------------------------------------------------------------------------------------
  // Lower-case hexadecimal rendering of random bytes

  const HEX_DIGITS := "0123456789abcdef"

  /** A lower-case hexadecimal digit: a character of HEX_DIGITS. */
  predicate IsHexDigit(c: char)
  {
    '0' <= c <= '9' || 'a' <= c <= 'f'
  }

  function HexDigit(d: nat): (c: char)
    requires d < 16
    ensures IsHexDigit(c)
  {
    HEX_DIGITS[d]
  }

  /** The value of a lower-case hexadecimal digit, and 0 for any other character. */
  function HexValue(c: char): nat
  {
    if '0' <= c <= '9' then c as int - '0' as int
    else if 'a' <= c <= 'f' then c as int - 'a' as int + 10
    else 0
  }

  /** Two lower-case hexadecimal digits per byte, high nibble first. */
  function Hex(bytes: seq<byte>): (s: string)
    ensures |s| == 2 * |bytes|
    ensures forall i | 0 <= i < |s| :: IsHexDigit(s[i])
  {
    if bytes == [] then "" else [HexDigit(bytes[0] / 16), HexDigit(bytes[0] % 16)] + Hex(bytes[1..])
  }

  /** The bytes a string of pairs of hexadecimal digits stands for. */
  function Unhex(s: string): seq<int>
    requires |s| % 2 == 0
  {
    if s == [] then [] else [16 * HexValue(s[0]) + HexValue(s[1])] + Unhex(s[2..])
  }

  /** Rendering bytes in hexadecimal loses nothing: different random bytes give different tokens. */
  lemma {:induction false} UnhexHex(bytes: seq<byte>)
    ensures Unhex(Hex(bytes)) == bytes
  {
    if bytes != [] {
      var b := bytes[0];
      assert HexValue(HexDigit(b / 16)) == b / 16;
      assert HexValue(HexDigit(b % 16)) == b % 16;
      UnhexHex(bytes[1..]);
      assert Hex(bytes)[2..] == Hex(bytes[1..]);
    }
  }
}
