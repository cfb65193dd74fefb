/**
 * The string primitives the components rely on, with JavaScript's meaning:
 * `String.prototype.trim`, `toLowerCase` (ASCII letters), `includes`,
 * `Array.prototype.join`, `split(".")` segments and `parseInt`.
 */
module Text {
  import opened Opt

  /** The characters `\s` and `trim` treat as white space (WhiteSpace and LineTerminator). */
  predicate IsSpace(c: char)
  {
    var n := c as int;
    n == 0x09 || n == 0x0A || n == 0x0B || n == 0x0C || n == 0x0D || n == 0x20
    || n == 0xA0 || n == 0x1680 || (0x2000 <= n <= 0x200A) || n == 0x2028 || n == 0x2029
    || n == 0x202F || n == 0x205F || n == 0x3000 || n == 0xFEFF
  }

  /** The line terminators, which `.` in a regular expression does not match. */
  predicate IsLineTerminator(c: char)
  {
    c == '\n' || c == '\r' || c as int == 0x2028 || c as int == 0x2029
  }

  predicate IsLower(c: char) { 0x61 <= c as int <= 0x7A }
  predicate IsUpper(c: char) { 0x41 <= c as int <= 0x5A }
  predicate IsDigit(c: char) { 0x30 <= c as int <= 0x39 }

  /** `sub` occurs in `s` at index `i`. */
  predicate OccursAt(s: string, sub: string, i: int)
  {
    0 <= i <= |s| - |sub| && s[i..i + |sub|] == sub
  }

  predicate AllSpace(s: string) { forall i :: 0 <= i < |s| ==> IsSpace(s[i]) }

  /** Leading white space removed. */
  function TrimStart(s: string): string
  {
    if s == [] || !IsSpace(s[0]) then s else TrimStart(s[1..])
  }

  /** `TrimStart` drops exactly the leading run of white space. */
  lemma {:induction false} TrimStartIs(s: string)
    ensures var r := TrimStart(s);
      |r| <= |s| && r == s[|s| - |r|..] && AllSpace(s[..|s| - |r|]) && (r == [] || !IsSpace(r[0]))
  {
    if s != [] && IsSpace(s[0]) {
      var t := s[1..];
      TrimStartIs(t);
      var r := TrimStart(t);
      assert TrimStart(s) == r;
      assert r == s[|s| - |r|..] by {
        assert t[|t| - |r|..] == s[|s| - |r|..];
      }
      var p := s[..|s| - |r|];
      assert p == [s[0]] + t[..|t| - |r|];
      assert AllSpace(p) by {
        forall i | 0 <= i < |p|
          ensures IsSpace(p[i])
        {
          if i > 0 {
            assert p[i] == t[..|t| - |r|][i - 1];
          }
        }
      }
    }
  }

  /** Trailing white space removed. */
  function TrimEnd(s: string): string
  {
    if s == [] || !IsSpace(s[|s| - 1]) then s else TrimEnd(s[..|s| - 1])
  }

  /** `TrimEnd` drops exactly the trailing run of white space. */
  lemma {:induction false} TrimEndIs(s: string)
    ensures var r := TrimEnd(s);
      |r| <= |s| && r == s[..|r|] && (forall i :: |r| <= i < |s| ==> IsSpace(s[i]))
      && (r == [] || !IsSpace(r[|r| - 1]))
  {
    if s != [] && IsSpace(s[|s| - 1]) {
      TrimEndIs(s[..|s| - 1]);
    }
  }

  /** `s.trim()`: the longest slice of `s` without white space at either end. */
  function Trim(s: string): string
  {
    TrimEnd(TrimStart(s))
  }

  /** The trimmed text is a slice of the original that neither starts nor ends with white space. */
  lemma TrimIsSlice(s: string)
    ensures exists i :: OccursAt(s, Trim(s), i)
    ensures Trim(s) == [] || (!IsSpace(Trim(s)[0]) && !IsSpace(Trim(s)[|Trim(s)| - 1]))
  {
    var t := TrimStart(s);
    var r := TrimEnd(t);
    TrimStartIs(s);
    TrimEndIs(t);
    var i := |s| - |t|;
    assert r == s[i..][..|r|];
    assert s[i..i + |r|] == r;
    assert OccursAt(s, Trim(s), i);
  }

  lemma TrimEmptyIffAllSpace(s: string)
    ensures Trim(s) == [] <==> AllSpace(s)
  {
    var t := TrimStart(s);
    TrimStartIs(s);
    TrimEndIs(t);
    if t == [] {
      assert s[..|s|] == s;
    } else {
      assert t[0] == s[|s| - |t|];
      assert !IsSpace(t[0]);
    }
  }

  function LowerChar(c: char): (r: char)
    ensures IsUpper(c) ==> IsLower(r) && r as int == c as int + 32
    ensures !IsUpper(c) ==> r == c
  {
    if IsUpper(c) then (c as int + 32) as char else c
  }

  /** `s.toLowerCase()` on ASCII letters; other characters are kept. */
  function Lower(s: string): (r: string)
    ensures |r| == |s|
    ensures forall i :: 0 <= i < |s| ==> r[i] == LowerChar(s[i])
  {
    if s == [] then [] else [LowerChar(s[0])] + Lower(s[1..])
  }

  /** `s.includes(sub)`. */
  predicate Contains(s: string, sub: string)
  {
    exists i | 0 <= i <= |s| :: OccursAt(s, sub, i)
  }

  lemma ContainsEmpty(s: string)
    ensures Contains(s, "")
  {
    assert OccursAt(s, "", 0);
  }

  /** `parts.join(sep)`. */
  function Join(parts: seq<string>, sep: string): (r: string)
    ensures parts == [] ==> r == ""
    ensures |parts| == 1 ==> r == parts[0]
  {
    if parts == [] then ""
    else if |parts| == 1 then parts[0]
    else parts[0] + sep + Join(parts[1..], sep)
  }

  lemma {:induction false} JoinAppend(parts: seq<string>, sep: string, last: string)
    requires parts != []
    ensures Join(parts + [last], sep) == Join(parts, sep) + sep + last
  {
    if |parts| == 1 {
      assert parts + [last] == [parts[0], last];
    } else {
      assert (parts + [last])[1..] == parts[1..] + [last];
      JoinAppend(parts[1..], sep, last);
    }
  }

  function DigitChar(d: nat): (c: char)
    requires d < 10
    ensures IsDigit(c) && c as int - 0x30 == d
  {
    (0x30 + d) as char
  }

  /** The decimal numeral of `n`, as `String(n)` prints it. */
  function NatToString(n: nat): (r: string)
    ensures |r| >= 1 && forall i :: 0 <= i < |r| ==> IsDigit(r[i])
    ensures (|r| == 1) == (n < 10)
  {
    if n < 10 then [DigitChar(n)] else NatToString(n / 10) + [DigitChar(n % 10)]
  }

  /** Numerals of different numbers differ. */
  lemma {:induction false} NatToStringInjective(a: nat, b: nat)
    ensures NatToString(a) == NatToString(b) ==> a == b
  {
    var sa, sb := NatToString(a), NatToString(b);
    if sa == sb {
      assert a % 10 == b % 10 by {
        assert DigitChar(a % 10) == sa[|sa| - 1] == DigitChar(b % 10);
      }
      if a >= 10 {
        assert NatToString(a / 10) == sa[..|sa| - 1] == sb[..|sb| - 1] == NatToString(b / 10);
        NatToStringInjective(a / 10, b / 10);
      }
    }
  }

  /** The two-digit numeral of `n < 100`, with a leading zero below 10. */
  function TwoDigitNumeral(n: nat): (r: string)
    requires n < 100
    ensures |r| == 2 && IsDigit(r[0]) && IsDigit(r[1])
  {
    [DigitChar(n / 10), DigitChar(n % 10)]
  }

  /** The value of a non-empty run of decimal digits. */
  function DigitsValue(s: string): (v: nat)
    requires forall i :: 0 <= i < |s| ==> IsDigit(s[i])
  {
    if s == [] then 0
    else
      var last := s[|s| - 1];
      assert IsDigit(last);
      DigitsValue(s[..|s| - 1]) * 10 + (last as int - 0x30)
  }

  lemma DigitsValueOfTwo(s: string)
    requires |s| == 2 && IsDigit(s[0]) && IsDigit(s[1])
    ensures DigitsValue(s) == (s[0] as int - 0x30) * 10 + (s[1] as int - 0x30)
  {
    assert s[..1][..0] == [];
    assert DigitsValue(s[..1]) == s[0] as int - 0x30;
  }

  lemma TwoDigitNumeralValue(n: nat)
    requires n < 100
    ensures DigitsValue(TwoDigitNumeral(n)) == n
  {
    DigitsValueOfTwo(TwoDigitNumeral(n));
  }

  /** Every pair of digits is the two-digit numeral of its value. */
  lemma TwoDigitNumeralOfDigits(s: string)
    requires |s| == 2 && IsDigit(s[0]) && IsDigit(s[1])
    ensures DigitsValue(s) < 100 && TwoDigitNumeral(DigitsValue(s)) == s
  {
    DigitsValueOfTwo(s);
    var n := DigitsValue(s);
    assert n / 10 == s[0] as int - 0x30 && n % 10 == s[1] as int - 0x30;
  }

  lemma {:induction false} DigitsValueOfNatToString(n: nat)
    ensures DigitsValue(NatToString(n)) == n
  {
    var s := NatToString(n);
    if n >= 10 {
      assert s[..|s| - 1] == NatToString(n / 10);
      DigitsValueOfNatToString(n / 10);
    }
  }

  /** Length of the longest prefix of `s` made of decimal digits. */
  function DigitRun(s: string): (k: nat)
    ensures k <= |s| && forall i :: 0 <= i < k ==> IsDigit(s[i])
    ensures k == |s| || !IsDigit(s[k])
  {
    if s == [] || !IsDigit(s[0]) then 0 else 1 + DigitRun(s[1..])
  }

  /** `0x` or `0X`: the prefix on which `parseInt` without a radix reads base 16. */
  predicate HexPrefix(s: string)
  {
    |s| >= 2 && s[0] == '0' && (s[1] == 'x' || s[1] == 'X')
  }

  predicate IsHexDigit(c: char)
  {
    IsDigit(c) || 0x61 <= c as int <= 0x66 || 0x41 <= c as int <= 0x46
  }

  function HexDigitValue(c: char): (v: nat)
    requires IsHexDigit(c)
    ensures v < 16
  {
    if IsDigit(c) then c as int - 0x30
    else if 0x61 <= c as int <= 0x66 then c as int - 0x61 + 10
    else c as int - 0x41 + 10
  }

  /** Length of the longest prefix of `s` made of hexadecimal digits. */
  function HexRun(s: string): (k: nat)
    ensures k <= |s| && forall i :: 0 <= i < k ==> IsHexDigit(s[i])
    ensures k == |s| || !IsHexDigit(s[k])
  {
    if s == [] || !IsHexDigit(s[0]) then 0 else 1 + HexRun(s[1..])
  }

  /** The value of a run of hexadecimal digits. */
  function HexValue(s: string): (v: nat)
    requires forall i :: 0 <= i < |s| ==> IsHexDigit(s[i])
  {
    if s == [] then 0
    else
      var last := s[|s| - 1];
      assert IsHexDigit(last);
      HexValue(s[..|s| - 1]) * 16 + HexDigitValue(last)
  }

  /** The text after an optional leading sign. */
  function SignDropped(t: string): string
  {
    if t != [] && (t[0] == '+' || t[0] == '-') then t[1..] else t
  }

  /**
   * The unsigned part `parseInt` reads: after "0x" or "0X" the longest run
   * of hexadecimal digits, otherwise the longest run of decimal digits;
   * `None` when that run is empty.
   */
  function UnsignedPrefix(body: string): (r: Option<nat>)
    ensures r.Some? <==> if HexPrefix(body) then |body| > 2 && IsHexDigit(body[2])
                         else body != [] && IsDigit(body[0])
  {
    if HexPrefix(body) then
      var hex := body[2..];
      var k := HexRun(hex);
      if k == 0 then None else Some(HexValue(hex[..k]))
    else
      var k := DigitRun(body);
      if k == 0 then None else Some(DigitsValue(body[..k]))
  }

  /**
   * `parseInt(s)` without a radix: leading white space, an optional sign,
   * then the digits `UnsignedPrefix` reads; `None` stands for NaN.
   */
  function ParseIntPrefix(s: string): (r: Option<int>)
    ensures var body := SignDropped(TrimStart(s));
      r.Some? <==> if HexPrefix(body) then |body| > 2 && IsHexDigit(body[2])
                   else body != [] && IsDigit(body[0])
  {
    var t := TrimStart(s);
    var negative := t != [] && t[0] == '-';
    match UnsignedPrefix(SignDropped(t))
    case None => None
    case Some(v) => Some(if negative then -(v as int) else v)
  }

  /** A decimal numeral followed by a non-digit reads as its value (a "0" before "x" would start hex). */
  lemma ParseIntOfNumeralWithSuffix(n: nat, suffix: string)
    requires suffix == [] || !IsDigit(suffix[0])
    requires n == 0 && suffix != [] ==> suffix[0] != 'x' && suffix[0] != 'X'
    ensures ParseIntPrefix(NatToString(n) + suffix) == Some(n)
  {
    var s := NatToString(n) + suffix;
    assert !IsSpace(s[0]);
    assert TrimStart(s) == s;
    var k := |NatToString(n)|;
    assert !HexPrefix(s) by {
      if n == 0 && suffix != [] {
        assert |NatToString(n)| == 1;
        assert s[1] == suffix[0];
      }
    }
    assert SignDropped(s) == s;
    DigitRunIs(s, k);
    assert s[..k] == NatToString(n);
    DigitsValueOfNatToString(n);
  }

  /** "0x" and a run of hexadecimal digits, followed by a non-hex-digit, read in base 16. */
  lemma ParseIntOfHex(digits: string, suffix: string)
    requires digits != [] && forall i :: 0 <= i < |digits| ==> IsHexDigit(digits[i])
    requires suffix == [] || !IsHexDigit(suffix[0])
    ensures ParseIntPrefix("0x" + digits + suffix) == Some(HexValue(digits))
  {
    var hex := digits + suffix;
    var s := "0x" + hex;
    assert "0x" + digits + suffix == s;
    assert TrimStart(s) == s && s[0] == '0' by {
      assert s[0] == '0';
    }
    assert UnsignedPrefix(s) == Some(HexValue(digits)) by {
      assert s[0] == '0' && s[1] == 'x' && s[2..] == hex;
      HexRunIs(hex, |digits|);
      assert hex[..|digits|] == digits;
      UnsignedOfHex(s, |digits|);
    }
    ParseIntUnsigned(s, HexValue(digits));
  }

  /** Text with no leading white space or sign reads as its unsigned part. */
  lemma ParseIntUnsigned(s: string, v: nat)
    requires TrimStart(s) == s && s != [] && s[0] != '+' && s[0] != '-'
    requires UnsignedPrefix(s) == Some(v)
    ensures ParseIntPrefix(s) == Some(v)
  {
  }

  /** After "0x", a run of `k` hexadecimal digits is read in base 16. */
  lemma UnsignedOfHex(body: string, k: nat)
    requires HexPrefix(body) && 0 < k && HexRun(body[2..]) == k
    ensures UnsignedPrefix(body) == Some(HexValue(body[2..][..k]))
  {
  }

  /** `parseInt("0x1A")` is 26, where a decimal reading would stop at the "x". */
  lemma ParseIntHexExample()
    ensures ParseIntPrefix("0x1A") == Some(26)
  {
    var digits := "1A";
    ParseIntOfHex(digits, "");
    assert "0x" + digits + "" == "0x1A";
    assert digits[..1] == "1";
    assert HexValue("1") == 1;
  }

  lemma {:induction false} HexRunIs(s: string, k: nat)
    requires k <= |s| && forall i :: 0 <= i < k ==> IsHexDigit(s[i])
    requires k == |s| || !IsHexDigit(s[k])
    ensures HexRun(s) == k
  {
    if k > 0 {
      HexRunIs(s[1..], k - 1);
    }
  }

  lemma {:induction false} DigitRunIs(s: string, k: nat)
    requires k <= |s| && forall i :: 0 <= i < k ==> IsDigit(s[i])
    requires k == |s| || !IsDigit(s[k])
    ensures DigitRun(s) == k
  {
    if k > 0 {
      DigitRunIs(s[1..], k - 1);
    }
  }

  /** Index of the first `c` in `s`, or `|s|` when there is none. */
  function IndexOf(s: string, c: char): (k: nat)
    ensures k <= |s| && c !in s[..k]
    ensures k < |s| ==> s[k] == c
  {
    if s == [] then 0 else if s[0] == c then 0 else 1 + IndexOf(s[1..], c)
  }

  lemma {:induction false} IndexOfIs(s: string, c: char, k: nat)
    requires k < |s| && s[k] == c && c !in s[..k]
    ensures IndexOf(s, c) == k
  {
    if k > 0 {
      assert s[0] in s[..k];
      assert s[1..][..k - 1] == s[1..k];
      assert forall x :: x in s[1..k] ==> x in s[..k];
      IndexOfIs(s[1..], c, k - 1);
    }
  }

  lemma {:induction false} IndexOfAbsent(s: string, c: char)
    requires c !in s
    ensures IndexOf(s, c) == |s|
  {
    if s != [] {
      assert forall x :: x in s[1..] ==> x in s;
      IndexOfAbsent(s[1..], c);
    }
  }

  /** `s.split(c)[0]`: the text before the first `c`. */
  function FirstSegment(s: string, c: char): (r: string)
    ensures c !in r && r <= s
    ensures |r| < |s| ==> s[|r|] == c
  {
    s[..IndexOf(s, c)]
  }

  /** `s.split(c).pop()`: the text after the last `c` (all of `s` when there is none). */
  function LastSegment(s: string, c: char): (r: string)
    ensures c !in r && |r| <= |s| && r == s[|s| - |r|..]
    ensures |r| < |s| ==> s[|s| - |r| - 1] == c
  {
    if s == [] then []
    else if s[|s| - 1] == c then []
    else LastSegment(s[..|s| - 1], c) + [s[|s| - 1]]
  }

  /** The text after the last `c` is `ext` when `ext` has no `c` and a `c` precedes it. */
  lemma {:induction false} LastSegmentIs(name: string, c: char, ext: string)
    requires c !in ext && |ext| < |name| && name[|name| - |ext|..] == ext && name[|name| - |ext| - 1] == c
    ensures LastSegment(name, c) == ext
  {
    if ext != [] {
      var init := name[..|name| - 1];
      var e := ext[..|ext| - 1];
      assert name[|name| - 1] == ext[|ext| - 1];
      assert init[|init| - |e|..] == e;
      assert init[|init| - |e| - 1] == c;
      LastSegmentIs(init, c, e);
      assert e + [ext[|ext| - 1]] == ext;
    }
  }

  /** A text without `c` is its own last segment. */
  lemma {:induction false} LastSegmentAll(name: string, c: char)
    requires c !in name
    ensures LastSegment(name, c) == name
  {
    if name != [] {
      var init := name[..|name| - 1];
      assert forall x :: x in init ==> x in name;
      LastSegmentAll(init, c);
      assert init + [name[|name| - 1]] == name;
    }
  }

  /** `name.split(".").pop()?.toLowerCase()`: the lower-cased text after the last dot. */
  function Extension(name: string): (ext: string)
    ensures '.' !in ext && |ext| <= |name|
    ensures ext == Lower(name[|name| - |ext|..])
  {
    Lower(LastSegment(name, '.'))
  }

  /** The extension of "stem.ext" is the lower-cased `ext` when `ext` has no dot. */
  lemma ExtensionOf(stem: string, ext: string)
    requires '.' !in ext
    ensures Extension(stem + "." + ext) == Lower(ext)
  {
    var name := stem + "." + ext;
    assert name[|stem| + 1..] == ext;
    LastSegmentIs(name, '.', ext);
  }
}
