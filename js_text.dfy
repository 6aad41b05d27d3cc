/** The JavaScript string built-ins the client code calls: `trim`,
    `toLowerCase`, `includes`, number-to-string conversion in template
    literals, and `parseInt` with no radix. */
module JsText {
  import opened Wrappers

  /** The ECMAScript WhiteSpace and LineTerminator code points.
      `String.prototype.trim`, `parseInt` and the regular-expression class `\s`
      all use this one set. */
  predicate IsSpace(c: char)
  {
    var k := c as int;
    k == 0x09 || k == 0x0A || k == 0x0B || k == 0x0C || k == 0x0D || k == 0x20
    || k == 0xA0 || k == 0x1680 || (0x2000 <= k <= 0x200A) || k == 0x2028
    || k == 0x2029 || k == 0x202F || k == 0x205F || k == 0x3000 || k == 0xFEFF
  }

  /** The number of white-space characters `s` starts with. */
  function LeadingSpaces(s: string): (n: nat)
    ensures n <= |s|
    ensures forall i :: 0 <= i < n ==> IsSpace(s[i])
    ensures n < |s| ==> !IsSpace(s[n])
  {
    if s != [] && IsSpace(s[0]) then 1 + LeadingSpaces(s[1..]) else 0
  }

  /** The number of white-space characters `s` ends with. */
  function TrailingSpaces(s: string): (n: nat)
    ensures n <= |s|
    ensures forall i :: |s| - n <= i < |s| ==> IsSpace(s[i])
    ensures n < |s| ==> !IsSpace(s[|s| - n - 1])
  {
    if s != [] && IsSpace(s[|s| - 1]) then 1 + TrailingSpaces(s[..|s| - 1]) else 0
  }

  /** `s.trim()`: `s` without its leading and trailing white space. The result
      is empty exactly when `s` is all white space, and otherwise starts and
      ends with a character that is not white space. */
  function Trim(s: string): (r: string)
    ensures |r| <= |s|
    ensures exists i, j ::
      (&& 0 <= i <= j <= |s| && r == s[i..j]
       && (forall k :: 0 <= k < i ==> IsSpace(s[k]))
       && (forall k :: j <= k < |s| ==> IsSpace(s[k])))
    ensures r == [] <==> forall i :: 0 <= i < |s| ==> IsSpace(s[i])
    ensures r != [] ==> !IsSpace(r[0]) && !IsSpace(r[|r| - 1])
  {
    var i := LeadingSpaces(s);
    var t := s[i..];
    assert t != [] ==> !IsSpace(t[0]);
    var j := i + |t| - TrailingSpaces(t);
    assert forall k :: j <= k < |s| ==> s[k] == t[k - i];
    assert t[..|t| - TrailingSpaces(t)] == s[i..j];
    t[..|t| - TrailingSpaces(t)]
  }

  /** `s.length`: the number of UTF-16 code units, two for a character
      outside the Basic Multilingual Plane. */
  function Utf16Length(s: string): (n: nat)
    ensures |s| <= n <= 2 * |s|
    ensures n == 0 <==> s == []
  {
    if s == [] then 0 else Utf16Units(s[0]) + Utf16Length(s[1..])
  }

  /** The code units of one character: a surrogate pair for a character
      outside the Basic Multilingual Plane, a single unit otherwise. */
  function Utf16Units(c: char): nat
  {
    if c as int >= 0x10000 then 2 else 1
  }

  /** The positions of `s` that hold a character outside the Basic
      Multilingual Plane. */
  function AstralIndices(s: string): set<int>
  {
    set i | 0 <= i < |s| && s[i] as int >= 0x10000
  }

  lemma {:induction false} Utf16LengthAppend(a: string, b: string)
    ensures Utf16Length(a + b) == Utf16Length(a) + Utf16Length(b)
  {
    if a != [] {
      assert (a + b)[1..] == a[1..] + b;
      Utf16LengthAppend(a[1..], b);
    } else {
      assert a + b == b;
    }
  }

  /** `s.length` counts one unit per character and one more for each
      character outside the Basic Multilingual Plane. */
  lemma {:induction false} Utf16LengthCounts(s: string)
    ensures Utf16Length(s) == |s| + |AstralIndices(s)|
    decreases |s|
  {
    if s != [] {
      var p := s[..|s| - 1];
      var c := s[|s| - 1];
      assert s == p + [c];
      Utf16LengthCounts(p);
      Utf16LengthAppend(p, [c]);
      assert [c][1..] == [];
      assert Utf16Length([c]) == Utf16Units(c);
      assert |s| - 1 !in AstralIndices(p);
      if c as int >= 0x10000 {
        assert AstralIndices(s) == AstralIndices(p) + {|s| - 1};
      } else {
        assert AstralIndices(s) == AstralIndices(p);
      }
    }
  }

  /** One character of `toLowerCase`: the upper-case letters of Basic Latin and
      Latin-1 map to their lower-case forms; every other character is kept. */
  function LowerChar(c: char): char
  {
    var k := c as int;
    if 0x41 <= k <= 0x5A || (0xC0 <= k <= 0xDE && k != 0xD7) then (k + 0x20) as char else c
  }

  /** `s.toLowerCase()`, character by character. */
  function ToLower(s: string): (r: string)
    ensures |r| == |s|
    ensures forall i :: 0 <= i < |s| ==> r[i] == LowerChar(s[i])
  {
    seq(|s|, i requires 0 <= i < |s| => LowerChar(s[i]))
  }

  /** `needle` occurs in `hay` starting at index `i`. */
  predicate OccursAt(hay: string, needle: string, i: int)
  {
    0 <= i && i + |needle| <= |hay| && hay[i..i + |needle|] == needle
  }

  /** `hay.includes(needle)`: `needle` occurs in `hay` at some position. */
  function Includes(hay: string, needle: string): (r: bool)
    ensures r <==> exists i :: OccursAt(hay, needle, i)
    decreases |hay|
  {
    if |needle| > |hay| then false
    else if hay[..|needle|] == needle then
      assert OccursAt(hay, needle, 0);
      true
    else
      assert !OccursAt(hay, needle, 0);
      OccursShifted(hay, needle);
      Includes(hay[1..], needle)
  }

  lemma OccursShifted(hay: string, needle: string)
    requires hay != []
    ensures forall j :: OccursAt(hay[1..], needle, j) ==> OccursAt(hay, needle, j + 1)
    ensures forall i :: 1 <= i && OccursAt(hay, needle, i) ==> OccursAt(hay[1..], needle, i - 1)
  {
    forall j | OccursAt(hay[1..], needle, j)
      ensures OccursAt(hay, needle, j + 1)
    {
      assert hay[j + 1..j + 1 + |needle|] == hay[1..][j..j + |needle|];
    }
    forall i | 1 <= i && OccursAt(hay, needle, i)
      ensures OccursAt(hay[1..], needle, i - 1)
    {
      forall k | 0 <= k < |needle|
        ensures hay[1..][i - 1..i - 1 + |needle|][k] == needle[k]
      {
        assert hay[i..i + |needle|][k] == hay[i + k];
      }
    }
  }

  /** The empty string occurs in every string. */
  lemma IncludesEmpty(hay: string)
    ensures Includes(hay, "")
  {
    assert OccursAt(hay, "", 0);
  }

  function DigitChar(d: nat): char
    requires d < 10
  {
    (0x30 + d) as char
  }

  predicate IsDecimalDigit(c: char)
  {
    '0' <= c <= '9'
  }

  /** The decimal numeral of `n`, as a template literal writes a
      non-negative integer: at least one digit and no leading zero. */
  function DecimalString(n: nat): (r: string)
    ensures |r| >= 1
    ensures forall i :: 0 <= i < |r| ==> IsDecimalDigit(r[i])
    ensures r[0] == '0' ==> n == 0 && |r| == 1
    decreases n
  {
    if n < 10 then [DigitChar(n)] else DecimalString(n / 10) + [DigitChar(n % 10)]
  }

  /** `${i}` for an integer `i`. */
  function IntString(i: int): (r: string)
    ensures |r| >= 1
    ensures (r[0] == '-') == (i < 0)
  {
    if i < 0 then "-" + DecimalString(-i) else DecimalString(i)
  }

  /** The value of `c` as a digit in bases up to 36 (`0-9`, then `a-z` or `A-Z`). */
  function DigitValue(c: char): nat
  {
    if '0' <= c <= '9' then c as int - 0x30
    else if 'a' <= c <= 'z' then c as int - 0x61 + 10
    else if 'A' <= c <= 'Z' then c as int - 0x41 + 10
    else 36
  }

  predicate IsDigitIn(c: char, radix: nat)
  {
    DigitValue(c) < radix
  }

  /** The longest prefix of `s` made of digits of the given radix. */
  function DigitPrefix(s: string, radix: nat): (r: string)
    ensures |r| <= |s| && r == s[..|r|]
    ensures forall i :: 0 <= i < |r| ==> IsDigitIn(r[i], radix)
    ensures |r| < |s| ==> !IsDigitIn(s[|r|], radix)
  {
    if s != [] && IsDigitIn(s[0], radix) then [s[0]] + DigitPrefix(s[1..], radix) else []
  }

  /** The number a digit string denotes in the given radix. */
  function DigitsValue(ds: string, radix: nat): nat
  {
    if ds == [] then 0
    else DigitsValue(ds[..|ds| - 1], radix) * radix + DigitValue(ds[|ds| - 1])
  }

  /** The unsigned part of `parseInt`: a `0x`/`0X` prefix selects base 16,
      otherwise base 10, and the longest run of digits is converted; no digit
      at all gives `None`. */
  function ParseMagnitude(u: string): Option<nat>
  {
    var hex := |u| >= 2 && u[0] == '0' && (u[1] == 'x' || u[1] == 'X');
    var radix := if hex then 16 else 10;
    var digits := DigitPrefix(if hex then u[2..] else u, radix);
    if digits == [] then None else Some(DigitsValue(digits, radix))
  }

  /** `parseInt(s)` with no radix argument, `None` standing for `NaN`: leading
      white space is skipped and one sign is read before the digits. */
  function ParseInt(s: string): (r: Option<int>)
    ensures s != [] && !IsSpace(s[0]) && s[0] != '-' && s[0] != '+' && !IsDecimalDigit(s[0]) ==> r.None?
    ensures s != [] && '1' <= s[0] <= '9' ==> r.Some? && r.value >= 0
  {
    var t := s[LeadingSpaces(s)..];
    var negative := t != [] && t[0] == '-';
    var u := if t != [] && (t[0] == '-' || t[0] == '+') then t[1..] else t;
    match ParseMagnitude(u)
    case None => None
    case Some(m) => Some(if negative then -(m as int) else m)
  }

  /** Leading white space does not change what `parseInt` reads. */
  lemma ParseIntSkipsSpace(s: string)
    requires s != [] && IsSpace(s[0])
    ensures ParseInt(s) == ParseInt(s[1..])
  {
    assert s[LeadingSpaces(s)..] == s[1..][LeadingSpaces(s[1..])..];
  }

  lemma {:induction false} DecimalStringValue(n: nat)
    ensures DigitsValue(DecimalString(n), 10) == n
    decreases n
  {
    var r := DecimalString(n);
    if n >= 10 {
      DecimalStringValue(n / 10);
      assert r[..|r| - 1] == DecimalString(n / 10);
    }
  }

  lemma {:induction false} DigitPrefixOfDigits(s: string, radix: nat)
    requires forall i :: 0 <= i < |s| ==> IsDigitIn(s[i], radix)
    ensures DigitPrefix(s, radix) == s
  {
    if s != [] {
      DigitPrefixOfDigits(s[1..], radix);
    }
  }

  lemma MagnitudeOfDecimal(n: nat)
    ensures ParseMagnitude(DecimalString(n)) == Some(n)
  {
    var d := DecimalString(n);
    DecimalStringValue(n);
    DigitPrefixOfDigits(d, 10);
    assert !(|d| >= 2 && d[0] == '0');
  }

  /** Reading back what a template literal wrote gives the same integer. */
  lemma ParseIntString(i: int)
    ensures ParseInt(IntString(i)) == Some(i)
  {
    var m: nat := if i < 0 then -i else i;
    var d := DecimalString(m);
    MagnitudeOfDecimal(m);
    var s := IntString(i);
    if i < 0 {
      assert s == "-" + d && s[0] == '-';
      assert LeadingSpaces(s) == 0;
      assert s[0..][1..] == d;
    } else {
      assert s == d && IsDecimalDigit(s[0]);
      assert LeadingSpaces(s) == 0;
      assert s[0..] == d;
    }
  }

  /** `parseInt(s) || fallback`: `NaN` and `0` are both falsy, so either one
      gives the fallback; any other value, negative ones included, is kept. */
  function ParseIntOr(s: string, fallback: int): (r: int)
    ensures r == fallback || (ParseInt(s).Some? && r == ParseInt(s).value != 0)
    ensures ParseInt(s).None? ==> r == fallback
    ensures ParseInt(s) == Some(0) ==> r == fallback
    ensures ParseInt(s).Some? && ParseInt(s).value != 0 ==> r == ParseInt(s).value
    ensures fallback != 0 ==> r != 0
  {
    match ParseInt(s)
    case None => fallback
    case Some(v) => if v == 0 then fallback else v
  }

  /** A typed-in non-zero integer survives the fallback. */
  lemma ParseIntOrString(i: int, fallback: int)
    requires i != 0
    ensures ParseIntOr(IntString(i), fallback) == i
  {
    ParseIntString(i);
  }
}
