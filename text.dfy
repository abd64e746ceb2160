/**
 * The JavaScript string operations the pages use, on Dafny strings:
 * the `\s` character class, toLowerCase/toUpperCase (Basic Latin and Latin-1 letters),
 * String.prototype.includes, Array.prototype.join, splitting on one character,
 * base-10 rendering of naturals, parseInt(s, 10) and parseFloat(s).
 */
module Text {
  import opened Wrappers

  // ---------------------------------------------------------------- characters

  /** The characters JavaScript's `\s` and `trim` treat as white space or line terminators. */
  predicate IsJsSpace(c: char)
  {
    c == '\t' || c == '\n' || c == '\U{B}' || c == '\U{C}' || c == '\r' || c == ' ' ||
    c == '\U{A0}' || c == '\U{1680}' || ('\U{2000}' <= c <= '\U{200A}') ||
    c == '\U{2028}' || c == '\U{2029}' || c == '\U{202F}' || c == '\U{205F}' ||
    c == '\U{3000}' || c == '\U{FEFF}'
  }

  predicate IsDigit(c: char) { '0' <= c <= '9' }

  predicate IsAsciiLetter(c: char) { 'a' <= c <= 'z' || 'A' <= c <= 'Z' }

  /** Upper-case letters that toLowerCase changes, within Basic Latin and Latin-1. */
  predicate IsUpperLetter(c: char)
  {
    'A' <= c <= 'Z' || ('\U{C0}' <= c <= '\U{DE}' && c != '\U{D7}')
  }

  /** Lower-case letters whose upper-case form is one character, within Basic Latin and Latin-1. */
  predicate IsLowerLetter(c: char)
  {
    'a' <= c <= 'z' || ('\U{E0}' <= c <= '\U{FF}' && c != '\U{F7}') || c == '\U{B5}'
  }

  /** toLowerCase on one character. */
  function LowerChar(c: char): (r: char)
    ensures !IsUpperLetter(r)
    ensures IsUpperLetter(c) || r == c
  {
    if IsUpperLetter(c) then (c as int + 32) as char else c
  }

  /** toUpperCase on one character (ß, whose upper case is two letters, is kept). */
  function UpperChar(c: char): char
  {
    if c == '\U{FF}' then '\U{178}'
    else if c == '\U{B5}' then '\U{39C}'
    else if IsLowerLetter(c) then (c as int - 32) as char
    else c
  }

  /** `s.toLowerCase()`. */
  function Lower(s: string): (r: string)
    ensures |r| == |s|
    ensures forall i :: 0 <= i < |s| ==> r[i] == LowerChar(s[i])
  {
    seq(|s|, i requires 0 <= i < |s| => LowerChar(s[i]))
  }

  /** Lower-casing twice is lower-casing once. */
  lemma LowerIdempotent(s: string)
    ensures Lower(Lower(s)) == Lower(s)
  {
  }

  /** Lower-casing commutes with concatenation. */
  lemma LowerAppend(a: string, b: string)
    ensures Lower(a + b) == Lower(a) + Lower(b)
  {
  }

  /** `s.charAt(0).toUpperCase() + s.slice(1)`. */
  function Capitalize(s: string): (r: string)
    ensures |r| == |s|
    ensures |s| > 0 ==> r[0] == UpperChar(s[0]) && r[1..] == s[1..]
  {
    if s == "" then "" else [UpperChar(s[0])] + s[1..]
  }

  /** JavaScript truthiness of an optional text: present and not empty. */
  predicate Truthy(s: Option<string>)
  {
    s.Some? && s.value != ""
  }

  /** `s.trim() === ''`: every character is white space. */
  predicate IsBlank(s: string)
  {
    forall i :: 0 <= i < |s| ==> IsJsSpace(s[i])
  }

  // ---------------------------------------------------------------- includes

  /** `hay.includes(needle)`: tries each starting position from the left. */
  predicate Contains(hay: string, needle: string)
    decreases |hay|
  {
    (|needle| <= |hay| && hay[..|needle|] == needle) ||
    (hay != [] && Contains(hay[1..], needle))
  }

  /** `needle` occurs in `hay` starting at index `i`. */
  ghost predicate OccursAt(hay: string, needle: string, i: int)
  {
    0 <= i && i + |needle| <= |hay| && hay[i..i + |needle|] == needle
  }

  /** `includes` holds exactly when the needle occurs at some position. */
  lemma {:induction false} ContainsIff(hay: string, needle: string)
    ensures Contains(hay, needle) <==> exists i :: OccursAt(hay, needle, i)
  {
    if |needle| <= |hay| && hay[..|needle|] == needle {
      assert OccursAt(hay, needle, 0);
    } else if hay == [] {
      forall i | OccursAt(hay, needle, i) ensures false {
      }
    } else {
      ContainsIff(hay[1..], needle);
      if Contains(hay[1..], needle) {
        var i :| OccursAt(hay[1..], needle, i);
        assert hay[1..][i..i + |needle|] == hay[i + 1..i + 1 + |needle|];
        assert OccursAt(hay, needle, i + 1);
      } else {
        forall i | OccursAt(hay, needle, i) ensures false {
          if i > 0 {
            assert hay[1..][i - 1..i - 1 + |needle|] == hay[i..i + |needle|];
            assert OccursAt(hay[1..], needle, i - 1);
          }
        }
      }
    }
  }

  /** Every string includes the empty string, so an empty search term matches everything. */
  lemma ContainsEmpty(hay: string)
    ensures Contains(hay, "")
  {
  }

  /** A case-insensitive `includes`: both sides lower-cased first. */
  predicate ContainsIgnoringCase(hay: string, needle: string)
  {
    Contains(Lower(hay), Lower(needle))
  }

  // ---------------------------------------------------------------- join and split

  /** `parts.join(sep)`. */
  function Join(parts: seq<string>, sep: string): string
  {
    if |parts| == 0 then ""
    else if |parts| == 1 then parts[0]
    else parts[0] + sep + Join(parts[1..], sep)
  }

  /** Joining two non-empty lists is joining each and putting one separator between. */
  lemma {:induction false} JoinAppend(a: seq<string>, b: seq<string>, sep: string)
    requires |a| > 0 && |b| > 0
    ensures Join(a + b, sep) == Join(a, sep) + sep + Join(b, sep)
  {
    if |a| == 1 {
      assert (a + b)[1..] == b;
    } else {
      JoinAppend(a[1..], b, sep);
      assert (a + b)[1..] == a[1..] + b;
    }
  }

  /** `s.split(c)` for a one-character separator. */
  function SplitOn(s: string, c: char): (r: seq<string>)
    ensures |r| >= 1
    decreases |s|
  {
    if |s| == 0 then [""]
    else
      var rest := SplitOn(s[1..], c);
      if s[0] == c then [""] + rest else [[s[0]] + rest[0]] + rest[1..]
  }

  /** A string without the separator splits into itself alone. */
  lemma {:induction false} SplitWithoutSeparator(s: string, c: char)
    requires c !in s
    ensures SplitOn(s, c) == [s]
  {
    if |s| > 0 {
      SplitWithoutSeparator(s[1..], c);
      assert [s[0]] + s[1..] == s;
    }
  }

  /** Splitting `a + [c] + b`, when `a` has no separator, yields `a` followed by the pieces of `b`. */
  lemma {:induction false} SplitAfterPiece(a: string, b: string, c: char)
    requires c !in a
    ensures SplitOn(a + [c] + b, c) == [a] + SplitOn(b, c)
  {
    var s := a + [c] + b;
    if |a| == 0 {
      assert s[1..] == b;
    } else {
      SplitAfterPiece(a[1..], b, c);
      assert s[1..] == a[1..] + [c] + b;
      assert [a[0]] + a[1..] == a;
    }
  }

  /** Splitting on the separator undoes the join, when no part contains the separator. */
  lemma {:induction false} SplitJoin(parts: seq<string>, c: char)
    requires |parts| >= 1
    requires forall i :: 0 <= i < |parts| ==> c !in parts[i]
    ensures SplitOn(Join(parts, [c]), c) == parts
  {
    if |parts| == 1 {
      SplitWithoutSeparator(parts[0], c);
    } else {
      SplitJoin(parts[1..], c);
      SplitAfterPiece(parts[0], Join(parts[1..], [c]), c);
      assert [parts[0]] + parts[1..] == parts;
    }
  }

  /** A character that occurs in no part and is not the separator does not occur in the join. */
  lemma {:induction false} JoinAvoids(parts: seq<string>, sep: string, c: char)
    requires c !in sep
    requires forall i :: 0 <= i < |parts| ==> c !in parts[i]
    ensures c !in Join(parts, sep)
  {
    if |parts| > 1 {
      JoinAvoids(parts[1..], sep, c);
    }
  }

  // ---------------------------------------------------------------- numbers

  function DigitChar(d: nat): char
    requires d < 10
  {
    ('0' as int + d) as char
  }

  function DigitValue(c: char): nat
    requires IsDigit(c)
  {
    c as int - '0' as int
  }

  /** `String(n)` for a natural number: its base-10 digits, no sign, no separators. */
  function DecimalString(n: nat): (r: string)
    ensures |r| >= 1
    ensures forall i :: 0 <= i < |r| ==> IsDigit(r[i])
  {
    if n < 10 then [DigitChar(n)] else DecimalString(n / 10) + [DigitChar(n % 10)]
  }

  /** The value of a string of decimal digits, read most significant first. */
  function DigitsValue(ds: string): nat
    requires forall i :: 0 <= i < |ds| ==> IsDigit(ds[i])
  {
    if ds == "" then 0 else DigitsValue(ds[..|ds| - 1]) * 10 + DigitValue(ds[|ds| - 1])
  }

  /** Reading back the rendered digits gives the number. */
  lemma {:induction false} DigitsValueOfDecimal(n: nat)
    ensures DigitsValue(DecimalString(n)) == n
  {
    var r := DecimalString(n);
    if n >= 10 {
      DigitsValueOfDecimal(n / 10);
      assert r[..|r| - 1] == DecimalString(n / 10);
    }
  }

  /** How many characters at the start of `s` satisfy `IsJsSpace`. */
  function LeadingSpaces(s: string): (k: nat)
    ensures k <= |s|
    ensures forall i :: 0 <= i < k ==> IsJsSpace(s[i])
    ensures k < |s| ==> !IsJsSpace(s[k])
  {
    if s == "" || !IsJsSpace(s[0]) then 0 else 1 + LeadingSpaces(s[1..])
  }

  /** How many characters at the start of `s` are decimal digits. */
  function LeadingDigits(s: string): (k: nat)
    ensures k <= |s|
    ensures forall i :: 0 <= i < k ==> IsDigit(s[i])
    ensures k < |s| ==> !IsDigit(s[k])
  {
    if s == "" || !IsDigit(s[0]) then 0 else 1 + LeadingDigits(s[1..])
  }

  /** Whether a sign character stands at position `i`. */
  predicate SignAt(s: string, i: nat)
  {
    i < |s| && (s[i] == '-' || s[i] == '+')
  }

  /**
   * The numeral at the front of `s`, as parseInt and parseFloat both begin reading it:
   * leading white space skipped, the sign, the longest run of digits, and what follows.
   */
  datatype Numeral = Numeral(sign: int, digits: string, rest: string)

  function ReadNumeral(s: string): (n: Numeral)
    ensures n.sign == 1 || n.sign == -1
    ensures forall i :: 0 <= i < |n.digits| ==> IsDigit(n.digits[i])
    ensures |n.digits| + |n.rest| <= |s| && n.rest == s[|s| - |n.rest|..]
  {
    var i := LeadingSpaces(s);
    var j := if SignAt(s, i) then i + 1 else i;
    var k := LeadingDigits(s[j..]);
    assert |s[j..j + k]| + |s[j + k..]| == |s| - j;
    Numeral(if SignAt(s, i) && s[i] == '-' then -1 else 1, s[j..j + k], s[j + k..])
  }

  /**
   * `parseInt(s, 10)`: skip leading white space, read an optional sign and then
   * the longest run of digits; no digit at all is NaN (None).
   */
  function ParseInt(s: string): Option<int>
  {
    var n := ReadNumeral(s);
    if n.digits == "" then None else Some(n.sign * DigitsValue(n.digits))
  }

  /** parseInt reads back what DecimalString renders. */
  lemma ParseIntOfDecimal(n: nat)
    ensures ParseInt(DecimalString(n)) == Some(n)
  {
    var r := DecimalString(n);
    assert LeadingSpaces(r) == 0 && !SignAt(r, 0);
    assert r[0..] == r;
    LeadingDigitsAll(r);
    assert r[0..|r|] == r;
    assert ReadNumeral(r).digits == r;
    DigitsValueOfDecimal(n);
  }

  /** A string made only of digits is read entirely. */
  lemma {:induction false} LeadingDigitsAll(s: string)
    requires forall i :: 0 <= i < |s| ==> IsDigit(s[i])
    ensures LeadingDigits(s) == |s|
  {
    if s != "" {
      LeadingDigitsAll(s[1..]);
    }
  }

  /** An empty input is NaN for parseInt and for parseFloat. */
  lemma ParseEmpty(s: string)
    requires s == ""
    ensures ParseInt(s) == None && ParseFloat(s) == None
  {
  }

  function Pow10(k: nat): (r: nat)
    ensures r >= 1
  {
    if k == 0 then 1 else 10 * Pow10(k - 1)
  }

  /**
   * `parseFloat(s)` for decimal notation: leading white space, an optional sign,
   * digits, and an optional '.' followed by digits; at least one digit is needed.
   */
  function ParseFloat(s: string): Option<real>
  {
    var n := ReadNumeral(s);
    if n.rest != "" && n.rest[0] == '.' then Fraction(n.sign, n.digits, n.rest[1..])
    else if n.digits == "" then None
    else Some(n.sign as real * DigitsValue(n.digits) as real)
  }

  /**
   * The number when a '.' follows the whole digits: the digits after the point are the
   * fraction; with no digit on either side there is no number.
   */
  function Fraction(sign: int, whole: string, after: string): Option<real>
    requires forall i :: 0 <= i < |whole| ==> IsDigit(whole[i])
  {
    var m := LeadingDigits(after);
    if whole == "" && m == 0 then None
    else Some(sign as real * (DigitsValue(whole) as real + DigitsValue(after[..m]) as real / Pow10(m) as real))
  }

  /** Without a '.', parseFloat reads the same number as parseInt. */
  lemma ParseFloatWithoutPoint(s: string)
    requires '.' !in s
    ensures ParseFloat(s) == (match ParseInt(s) case None => None case Some(v) => Some(v as real))
  {
    var n := ReadNumeral(s);
    if n.rest != "" {
      assert n.rest[0] in s;
    }
    SignedAsReal(n.sign, DigitsValue(n.digits));
  }

  /** Converting a signed digit value to a real commutes with the sign. */
  lemma SignedAsReal(sign: int, v: nat)
    requires sign == 1 || sign == -1
    ensures (sign * v) as real == sign as real * v as real
  {
  }

  /** `String(i)` for an integer: a '-' before the digits of a negative number. */
  function IntString(i: int): (r: string)
    ensures |r| >= 1
  {
    if i < 0 then "-" + DecimalString(-i) else DecimalString(i)
  }
}
