/**
 * The string primitives the dashboard's scripts lean on: `String.prototype.trim`,
 * the `\s` class of regular expressions, ASCII case mapping, `startsWith`,
 * `includes`, `replace` of a first occurrence, the name-to-id slug, and the
 * decimal conversions `Number.prototype.toString` / `parseInt`.
 */
module Text {
  import opened Wrappers

  /** ECMAScript WhiteSpace and LineTerminator code points: what `trim()` strips and `\s` matches. */
  predicate IsWhitespace(c: char) {
    var n := c as int;
    n == 0x09 || n == 0x0A || n == 0x0B || n == 0x0C || n == 0x0D || n == 0x20 ||
    n == 0xA0 || n == 0x1680 || (0x2000 <= n <= 0x200A) || n == 0x2028 || n == 0x2029 ||
    n == 0x202F || n == 0x205F || n == 0x3000 || n == 0xFEFF
  }

  predicate AllWhitespace(s: string) {
    forall i :: 0 <= i < |s| ==> IsWhitespace(s[i])
  }

  /** Leading whitespace removed: the longest suffix that does not start with whitespace. */
  function TrimStart(s: string): (r: string)
    ensures |r| <= |s| && r == s[|s| - |r|..]
    ensures forall k :: 0 <= k < |s| - |r| ==> IsWhitespace(s[k])
    ensures r != [] ==> !IsWhitespace(r[0])
  {
    if |s| > 0 && IsWhitespace(s[0]) then TrimStart(s[1..]) else s
  }

  /** Trailing whitespace removed: the longest prefix that does not end with whitespace. */
  function TrimEnd(s: string): (r: string)
    ensures |r| <= |s| && r == s[..|r|]
    ensures forall k :: |r| <= k < |s| ==> IsWhitespace(s[k])
    ensures r != [] ==> !IsWhitespace(r[|r| - 1])
  {
    if |s| > 0 && IsWhitespace(s[|s| - 1]) then TrimEnd(s[..|s| - 1]) else s
  }

  /** `s.trim()` */
  function Trim(s: string): string {
    TrimEnd(TrimStart(s))
  }

  lemma TrimStartStrips(s: string)
    ensures AllWhitespace(s[..|s| - |TrimStart(s)|])
  {
    var n := |s| - |TrimStart(s)|;
    forall k | 0 <= k < n ensures IsWhitespace(s[..n][k]) {
      assert s[..n][k] == s[k];
    }
  }

  lemma TrimEndStrips(s: string)
    ensures AllWhitespace(s[|TrimEnd(s)|..])
  {
    var n := |TrimEnd(s)|;
    forall k | 0 <= k < |s| - n ensures IsWhitespace(s[n..][k]) {
      assert s[n..][k] == s[n + k];
    }
  }

  /** `trim()` keeps one contiguous slice of its input, strips only whitespace, and leaves none at either end. */
  lemma TrimIsSlice(s: string)
    ensures exists i, j :: 0 <= i <= j <= |s| && Trim(s) == s[i..j] &&
                           AllWhitespace(s[..i]) && AllWhitespace(s[j..])
    ensures Trim(s) != [] ==> !IsWhitespace(Trim(s)[0]) && !IsWhitespace(Trim(s)[|Trim(s)| - 1])
  {
    var a := TrimStart(s);
    var i := |s| - |a|;
    var j := i + |TrimEnd(a)|;
    assert Trim(s) == s[i..j] by {
      assert a == s[i..];
    }
    assert AllWhitespace(s[..i]) by {
      TrimStartStrips(s);
    }
    assert AllWhitespace(s[j..]) by {
      TrimEndStrips(a);
      assert s[j..] == a[|TrimEnd(a)|..];
    }
    TrimEnds(s);
  }

  lemma TrimEnds(s: string)
    ensures Trim(s) != [] ==> !IsWhitespace(Trim(s)[0]) && !IsWhitespace(Trim(s)[|Trim(s)| - 1])
  {
    var a := TrimStart(s);
    if Trim(s) != [] {
      assert Trim(s)[0] == a[0];
    }
  }

  /** The empty-input guards of the widgets (`if (text.trim())`) reject exactly the all-whitespace strings. */
  lemma TrimEmptyIffBlank(s: string)
    ensures Trim(s) == [] <==> AllWhitespace(s)
  {
    var a := TrimStart(s);
    if !AllWhitespace(s) {
      var k :| 0 <= k < |s| && !IsWhitespace(s[k]);
      assert k >= |s| - |a|;
      assert a[k - (|s| - |a|)] == s[k];
      assert a != [] && !IsWhitespace(a[0]);
      assert TrimEnd(a) != [];
    }
  }

  /** Trimming twice changes nothing more than trimming once. */
  lemma TrimIdempotent(s: string)
    ensures Trim(Trim(s)) == Trim(s)
  {
    var t := Trim(s);
    TrimIsSlice(s);
    if t != [] {
      assert TrimStart(t) == t;
      assert TrimEnd(t) == t;
    }
  }

  /** ASCII upper-case letters become lower case; every other character is kept. */
  function LowerChar(c: char): char {
    if 'A' <= c <= 'Z' then (c as int + 32) as char else c
  }

  /** ASCII lower-case letters become upper case; every other character is kept. */
  function UpperChar(c: char): char {
    if 'a' <= c <= 'z' then (c as int - 32) as char else c
  }

  /** `s.toLowerCase()`, on the ASCII letters. */
  function ToLower(s: string): (r: string)
    ensures |r| == |s|
  {
    if s == [] then [] else [LowerChar(s[0])] + ToLower(s[1..])
  }

  /** `s.toUpperCase()`, on the ASCII letters. */
  function ToUpper(s: string): (r: string)
    ensures |r| == |s|
  {
    if s == [] then [] else [UpperChar(s[0])] + ToUpper(s[1..])
  }

  /** Lower-casing forgets the case the string was written in. */
  lemma {:induction false} ToLowerIgnoresCase(s: string)
    ensures ToLower(ToUpper(s)) == ToLower(s)
    ensures ToLower(ToLower(s)) == ToLower(s)
  {
    if s != [] {
      ToLowerIgnoresCase(s[1..]);
      assert ToUpper(s)[1..] == ToUpper(s[1..]);
      assert ToLower(s)[1..] == ToLower(s[1..]);
    }
  }

  function SlugChar(c: char): char {
    if IsWhitespace(c) then '-' else LowerChar(c)
  }

  /** `name.toLowerCase().replace(/\s/g, '-')`: the id a new bookmark, tool or search engine gets. */
  function Slug(name: string): (r: string) {
    if name == [] then [] else [SlugChar(name[0])] + Slug(name[1..])
  }

  /** The slug keeps the length, contains no whitespace and no ASCII capital, and replaces exactly the whitespace by '-'. */
  lemma {:induction false} SlugShape(name: string)
    ensures |Slug(name)| == |name|
    ensures forall i :: 0 <= i < |name| ==> !IsWhitespace(Slug(name)[i]) && !('A' <= Slug(name)[i] <= 'Z')
    ensures forall i :: 0 <= i < |name| ==> (Slug(name)[i] == '-' <== IsWhitespace(name[i]))
    ensures forall i :: 0 <= i < |name| && !IsWhitespace(name[i]) ==> Slug(name)[i] == LowerChar(name[i])
  {
    if name != [] {
      SlugShape(name[1..]);
      assert forall i :: 1 <= i < |name| ==> Slug(name)[i] == Slug(name[1..])[i - 1];
    }
  }

  /** Deriving an id from an id changes nothing. */
  lemma {:induction false} SlugIdempotent(name: string)
    ensures Slug(Slug(name)) == Slug(name)
  {
    if name != [] {
      SlugIdempotent(name[1..]);
      assert Slug(name)[1..] == Slug(name[1..]);
    }
  }

  predicate StartsWith(s: string, prefix: string) {
    |prefix| <= |s| && s[..|prefix|] == prefix
  }

  /** `part` occurs in `s` starting at index `i`. */
  predicate OccursAt(s: string, part: string, i: nat) {
    i + |part| <= |s| && s[i..i + |part|] == part
  }

  /** `s.includes(part)` */
  predicate Contains(s: string, part: string) {
    exists i: nat | i <= |s| :: OccursAt(s, part, i)
  }

  /** The first index at or after `from` at which `part` occurs in `s`, if any. */
  function IndexFrom(s: string, part: string, from: nat): (r: Option<nat>)
    requires from <= |s|
    ensures r.Some? ==> from <= r.value && OccursAt(s, part, r.value)
    ensures r.Some? ==> forall i: nat :: from <= i < r.value ==> !OccursAt(s, part, i)
    ensures r.None? ==> forall i: nat :: from <= i ==> !OccursAt(s, part, i)
    decreases |s| - from
  {
    if from + |part| > |s| then None
    else if OccursAt(s, part, from) then Some(from)
    else if from == |s| then None
    else IndexFrom(s, part, from + 1)
  }

  /** The first index at which `part` occurs in `s` (`s.indexOf(part)`), if any. */
  function IndexOf(s: string, part: string): (r: Option<nat>)
    ensures r.Some? ==> OccursAt(s, part, r.value)
    ensures r.Some? ==> forall i: nat :: i < r.value ==> !OccursAt(s, part, i)
    ensures r.None? <==> !Contains(s, part)
  {
    IndexFrom(s, part, 0)
  }

  /** `s.replace(part, with)` with a string pattern: only the first occurrence is replaced. */
  function ReplaceFirst(s: string, part: string, with: string): string {
    match IndexOf(s, part)
    case None => s
    case Some(i) => s[..i] + with + s[i + |part|..]
  }

  // ---------------------------------------------------------------- decimal numbers

  predicate IsDigit(c: char) {
    '0' <= c <= '9'
  }

  predicate AllDigits(s: string) {
    forall i :: 0 <= i < |s| ==> IsDigit(s[i])
  }

  function DigitChar(d: nat): (c: char)
    requires d < 10
    ensures IsDigit(c) && c as int - '0' as int == d
  {
    (d + '0' as int) as char
  }

  /** The decimal digits of a non-negative integer, without leading zeros. */
  function NatToString(n: nat): (r: string)
    ensures |r| >= 1 && AllDigits(r)
    ensures |r| > 1 ==> r[0] != '0'
    decreases n
  {
    if n < 10 then [DigitChar(n)] else NatToString(n / 10) + [DigitChar(n % 10)]
  }

  /** `n.toString()` for an integer `n`. */
  function IntToString(n: int): (r: string)
    ensures |r| >= 1
  {
    if n < 0 then "-" + NatToString(-n) else NatToString(n)
  }

  /** The value of a string of decimal digits. */
  function DigitsValue(s: string): nat
    requires AllDigits(s)
  {
    if s == [] then 0 else DigitsValue(s[..|s| - 1]) * 10 + (s[|s| - 1] as int - '0' as int)
  }

  /** The longest prefix made of decimal digits. */
  function DigitPrefix(s: string): (r: string)
    ensures AllDigits(r) && StartsWith(s, r)
    ensures |r| < |s| ==> !IsDigit(s[|r|])
  {
    if s != [] && IsDigit(s[0]) then [s[0]] + DigitPrefix(s[1..]) else []
  }

  /**
   * `parseInt(s)` for a decimal string: leading whitespace, an optional sign, then the
   * longest run of digits; `None` stands for `NaN` (no digit after the sign).
   */
  function ParseInt(s: string): (r: Option<int>) {
    var t := TrimStart(s);
    var negative := |t| > 0 && t[0] == '-';
    var body := if |t| > 0 && (t[0] == '-' || t[0] == '+') then t[1..] else t;
    var digits := DigitPrefix(body);
    var magnitude: int := if digits == [] then 0 else DigitsValue(digits);
    if digits == [] then None
    else Some(if negative then -magnitude else magnitude)
  }

  /** `parseInt(s) || fallback`: NaN and 0 both select the fallback. */
  function ParseIntOr(s: string, fallback: int): (r: int)
    ensures ParseInt(s).Some? && ParseInt(s).value != 0 ==> r == ParseInt(s).value
    ensures ParseInt(s).None? || ParseInt(s) == Some(0) ==> r == fallback
    ensures r == 0 ==> fallback == 0
  {
    match ParseInt(s)
    case Some(v) => if v != 0 then v else fallback
    case None => fallback
  }

  lemma {:induction false} DigitsValueOfNatToString(n: nat)
    ensures DigitsValue(NatToString(n)) == n
    decreases n
  {
    if n >= 10 {
      DigitsValueOfNatToString(n / 10);
      var r := NatToString(n);
      assert r[..|r| - 1] == NatToString(n / 10);
    }
  }

  lemma {:induction false} DigitPrefixOfDigits(s: string, rest: string)
    requires AllDigits(s)
    requires rest == [] || !IsDigit(rest[0])
    ensures DigitPrefix(s + rest) == s
  {
    if s != [] {
      assert (s + rest)[1..] == s[1..] + rest;
      DigitPrefixOfDigits(s[1..], rest);
    } else {
      assert s + rest == rest;
    }
  }

  /** `parseInt(String(n)) === n`: what a timestamp written with `toString()` reads back as. */
  lemma ParseIntOfIntToString(n: int)
    ensures ParseInt(IntToString(n)) == Some(n)
  {
    var s := IntToString(n);
    assert !IsWhitespace(s[0]);
    assert TrimStart(s) == s;
    var m: nat := if n < 0 then -n else n;
    DigitPrefixOfDigits(NatToString(m), []);
    assert NatToString(m) + [] == NatToString(m);
    if n < 0 {
      assert s[1..] == NatToString(m);
    } else {
      assert s[0] != '-' && s[0] != '+';
    }
    DigitsValueOfNatToString(m);
  }

  /** `String(n).padStart(2, '0')` */
  function Pad2(n: int): (r: string)
    ensures |r| >= 2
  {
    var s := IntToString(n);
    if |s| < 2 then "0" + s else s
  }

  /** A zero-padded non-negative number reads back as itself. */
  lemma Pad2Value(n: nat)
    ensures AllDigits(Pad2(n)) && DigitsValue(Pad2(n)) == n
    ensures n < 100 ==> |Pad2(n)| == 2
  {
    DigitsValueOfNatToString(n);
    var s := NatToString(n);
    if |s| < 2 {
      var p := "0" + s;
      assert p[..|p| - 1] == "0";
      assert DigitsValue("0"[..0]) == 0;
    }
    if n < 100 && n >= 10 {
      assert NatToString(n / 10) == [DigitChar(n / 10)];
    }
  }

  /** JavaScript's `a % b` for a positive divisor: the remainder takes the sign of `a`. */
  function JsRem(a: int, b: int): (r: int)
    requires b > 0
    ensures -b < r < b
    ensures a >= 0 ==> r == a % b
    ensures a < 0 ==> r <= 0 && r == -((-a) % b)
  {
    if a >= 0 then a % b else -((-a) % b)
  }
}
