/**
 * The JavaScript string operations the services rely on: `trim`, the `\s`
 * character class, `toLowerCase` (ASCII letters only), `includes`,
 * `startsWith`, `split(/\s+/)`, `join`, and number-to-string conversion.
 */
module JsText {
  import opened Wrappers

  /** ECMAScript WhiteSpace and LineTerminator code points: what `\s` matches and what `trim` removes. */
  predicate IsSpace(c: char) {
    c == '\t' || c == '\n' || c == '\U{000B}' || c == '\U{000C}' || c == '\r' || c == ' '
    || c == '\U{00A0}' || c == '\U{1680}' || ('\U{2000}' <= c <= '\U{200A}')
    || c == '\U{2028}' || c == '\U{2029}' || c == '\U{202F}' || c == '\U{205F}'
    || c == '\U{3000}' || c == '\U{FEFF}'
  }

  predicate AllSpace(s: string) {
    forall i :: 0 <= i < |s| ==> IsSpace(s[i])
  }

  function TrimStart(s: string): (r: string)
    ensures |r| <= |s| && r == s[|s| - |r|..]
    ensures AllSpace(s[..|s| - |r|])
    ensures r == [] || !IsSpace(r[0])
  {
    if |s| > 0 && IsSpace(s[0]) then
      var r := TrimStart(s[1..]);
      assert s[1..][..|s| - 1 - |r|] == s[1..|s| - |r|];
      r
    else s
  }

  function TrimEnd(s: string): (r: string)
    ensures |r| <= |s| && r == s[..|r|]
    ensures AllSpace(s[|r|..])
    ensures r == [] || !IsSpace(r[|r| - 1])
  {
    if |s| > 0 && IsSpace(s[|s| - 1]) then
      var r := TrimEnd(s[..|s| - 1]);
      assert r == s[..|r|] by {
        assert s[..|s| - 1][..|r|] == s[..|r|];
      }
      assert AllSpace(s[|r|..]) by {
        forall i | 0 <= i < |s| - |r| ensures IsSpace(s[|r|..][i]) {
          if i < |s| - 1 - |r| {
            assert s[|r|..][i] == s[..|s| - 1][|r|..][i];
          }
        }
      }
      r
    else s
  }

  /** `String.prototype.trim` */
  function Trim(s: string): string {
    TrimEnd(TrimStart(s))
  }

  /**
   * Trimming leaves no whitespace at either end and only removes whitespace:
   * the result sits at offset `a` of the string, with only whitespace around it.
   */
  lemma TrimShape(s: string) returns (a: nat)
    ensures Trim(s) == [] || (!IsSpace(Trim(s)[0]) && !IsSpace(Trim(s)[|Trim(s)| - 1]))
    ensures a + |Trim(s)| <= |s| && s[a..a + |Trim(s)|] == Trim(s)
    ensures AllSpace(s[..a]) && AllSpace(s[a + |Trim(s)|..])
  {
    TrimEnds(s);
    a := TrimOffset(s);
  }

  lemma TrimEnds(s: string)
    ensures Trim(s) == [] || (!IsSpace(Trim(s)[0]) && !IsSpace(Trim(s)[|Trim(s)| - 1]))
  {
    var t := TrimStart(s);
    var r := TrimEnd(t);
    if r != [] {
      assert r[0] == t[0];
    }
  }

  lemma TrimOffset(s: string) returns (a: nat)
    ensures a + |Trim(s)| <= |s| && s[a..a + |Trim(s)|] == Trim(s)
    ensures AllSpace(s[..a]) && AllSpace(s[a + |Trim(s)|..])
  {
    var t := TrimStart(s);
    a := |s| - |t|;
    InnerSlice(s, t, TrimEnd(t));
  }

  /** A prefix `r` of a suffix `t` of `s`, with only whitespace after `r` in `t`, sits inside `s`. */
  lemma InnerSlice(s: string, t: string, r: string)
    requires |t| <= |s| && t == s[|s| - |t|..] && AllSpace(s[..|s| - |t|])
    requires |r| <= |t| && r == t[..|r|] && AllSpace(t[|r|..])
    ensures |s| - |t| + |r| <= |s| && s[|s| - |t|..|s| - |t| + |r|] == r
    ensures AllSpace(s[..|s| - |t|]) && AllSpace(s[|s| - |t| + |r|..])
  {
    var a := |s| - |t|;
    forall i | 0 <= i < |r| ensures s[a..a + |r|][i] == r[i] {
      assert r[i] == t[i] == s[a + i];
    }
    var u := s[a + |r|..];
    forall i | 0 <= i < |u| ensures IsSpace(u[i]) {
      assert u[i] == t[|r|..][i];
    }
  }

  /** Slicing the suffix from `a` is slicing the string at offset `a`. */
  lemma SliceOfSuffix(s: string, a: nat, b: nat)
    requires a + b <= |s|
    ensures s[a..][..b] == s[a..a + b] && s[a..][b..] == s[a + b..]
  {
  }

  /** A string trims to the empty string exactly when it is all whitespace. */
  lemma TrimEmptyIff(s: string)
    ensures Trim(s) == [] <==> AllSpace(s)
  {
    var t := TrimStart(s);
    if Trim(s) == [] {
      assert t[0..] == t;
      assert s[..|s|] == s;
    }
  }

  lemma TrimIdempotent(s: string)
    ensures Trim(Trim(s)) == Trim(s)
  {
    var r := Trim(s);
    var a := TrimShape(s);
    if r != [] {
      assert TrimStart(r) == r;
      assert TrimEnd(r) == r;
    }
  }

  /** Text without whitespace at either end trims to itself. */
  lemma TrimUnpadded(s: string)
    requires s == [] || (!IsSpace(s[0]) && !IsSpace(s[|s| - 1]))
    ensures Trim(s) == s
  {
    assert TrimStart(s) == s;
  }

  function LowerChar(c: char): (d: char)
    ensures 'A' <= c <= 'Z' ==> d as int == c as int + 32
    ensures !('A' <= c <= 'Z') ==> d == c
  {
    if 'A' <= c <= 'Z' then (c as int + 32) as char else c
  }

  /** `String.prototype.toLowerCase`, restricted to the ASCII letters. */
  function ToLower(s: string): (r: string)
    ensures |r| == |s|
    ensures forall i :: 0 <= i < |s| ==> r[i] == LowerChar(s[i])
  {
    seq(|s|, i requires 0 <= i < |s| => LowerChar(s[i]))
  }

  /** Text without ASCII capitals is its own lower case. */
  lemma ToLowerOfLower(s: string)
    requires forall i :: 0 <= i < |s| ==> !('A' <= s[i] <= 'Z')
    ensures ToLower(s) == s
  {
  }

  lemma ToLowerIdempotent(s: string)
    ensures ToLower(ToLower(s)) == ToLower(s)
  {
  }

  /** `p` occurs in `s` at position `i`. */
  predicate OccursAt(s: string, i: int, p: string) {
    0 <= i && i + |p| <= |s| && s[i..i + |p|] == p
  }

  /** `s.includes(p)` */
  predicate Contains(s: string, p: string) {
    exists i :: 0 <= i <= |s| - |p| && OccursAt(s, i, p)
  }

  /** `s.startsWith(p)` */
  predicate StartsWith(s: string, p: string) {
    OccursAt(s, 0, p)
  }

  /** An occurrence of `p` also occurs, lower-cased, in the lower-cased string. */
  lemma ContainsLower(s: string, p: string)
    requires Contains(s, p)
    ensures Contains(ToLower(s), ToLower(p))
  {
    var i :| 0 <= i <= |s| - |p| && OccursAt(s, i, p);
    assert ToLower(s)[i..i + |p|] == ToLower(p);
    assert OccursAt(ToLower(s), i, ToLower(p));
  }

  /** An occurrence of a longer pattern contains every piece of it. */
  lemma ContainsInfix(s: string, p: string, a: nat, b: nat)
    requires Contains(s, p) && a <= b <= |p|
    ensures Contains(s, p[a..b])
  {
    var i :| 0 <= i <= |s| - |p| && OccursAt(s, i, p);
    forall k | 0 <= k < b - a ensures s[i + a..i + b][k] == p[a..b][k] {
      assert s[i..i + |p|][a + k] == p[a + k];
    }
    assert s[i + a..i + b] == p[a..b];
    assert OccursAt(s, i + a, p[a..b]);
  }

  function DigitChar(d: nat): (c: char)
    requires d < 10
    ensures '0' <= c <= '9'
  {
    ('0' as int + d) as char
  }

  /** Decimal text of a natural number, as `String(n)` and template literals write it. */
  function NatToString(n: nat): (r: string)
    ensures |r| > 0 && (forall i :: 0 <= i < |r| ==> '0' <= r[i] <= '9')
    ensures |r| > 1 ==> r[0] != '0'
  {
    if n < 10 then [DigitChar(n)] else NatToString(n / 10) + [DigitChar(n % 10)]
  }

  function DigitsValue(s: string): (v: nat)
    requires forall i :: 0 <= i < |s| ==> '0' <= s[i] <= '9'
  {
    if s == [] then 0 else 10 * DigitsValue(s[..|s| - 1]) + (s[|s| - 1] as int - '0' as int)
  }

  /** Reads back a non-empty run of decimal digits. */
  function ParseNat(s: string): (r: Option<nat>)
    ensures r.Some? <==> s != [] && forall i :: 0 <= i < |s| ==> '0' <= s[i] <= '9'
  {
    if s != [] && forall i :: 0 <= i < |s| ==> '0' <= s[i] <= '9' then Some(DigitsValue(s)) else None
  }

  lemma {:induction false} ParseNatToString(n: nat)
    ensures ParseNat(NatToString(n)) == Some(n)
  {
    if n >= 10 {
      ParseNatToString(n / 10);
      var r := NatToString(n);
      assert r[..|r| - 1] == NatToString(n / 10);
      assert r[|r| - 1] == DigitChar(n % 10);
      assert DigitsValue(r) == 10 * (n / 10) + n % 10;
    }
  }

  /** Different numbers print differently. */
  lemma NatToStringInjective(m: nat, n: nat)
    requires NatToString(m) == NatToString(n)
    ensures m == n
  {
    ParseNatToString(m);
    ParseNatToString(n);
  }

  /** Ids made of one prefix and different numbers differ. */
  lemma PrefixedNatInjective(prefix: string, m: nat, n: nat)
    requires m != n
    ensures prefix + NatToString(m) != prefix + NatToString(n)
  {
    if prefix + NatToString(m) == prefix + NatToString(n) {
      assert (prefix + NatToString(m))[|prefix|..] == NatToString(m);
      assert (prefix + NatToString(n))[|prefix|..] == NatToString(n);
      NatToStringInjective(m, n);
    }
  }

  /** Index of the first whitespace character at or after `i`, or `|s|`. */
  function NextSpace(s: string, i: nat): (k: nat)
    requires i <= |s|
    ensures i <= k <= |s| && (k < |s| ==> IsSpace(s[k]))
    ensures forall m :: i <= m < k ==> !IsSpace(s[m])
    decreases |s| - i
  {
    if i == |s| || IsSpace(s[i]) then i else NextSpace(s, i + 1)
  }

  /** Index of the first non-whitespace character at or after `i`, or `|s|`. */
  function SkipSpace(s: string, i: nat): (k: nat)
    requires i <= |s|
    ensures i <= k <= |s| && (k < |s| ==> !IsSpace(s[k]))
    ensures forall m :: i <= m < k ==> IsSpace(s[m])
    decreases |s| - i
  {
    if i == |s| || !IsSpace(s[i]) then i else SkipSpace(s, i + 1)
  }

  /** `s.split(/\s+/)` */
  function SplitOnSpace(s: string): (r: seq<string>)
    ensures |r| > 0
    decreases |s|
  {
    var i := NextSpace(s, 0);
    if i == |s| then [s] else [s[..i]] + SplitOnSpace(s[SkipSpace(s, i)..])
  }

  /**
   * Splitting a string with no whitespace at either end yields non-empty words
   * with no whitespace in them.
   */
  lemma {:induction false} SplitWords(s: string)
    requires s != [] && !IsSpace(s[0]) && !IsSpace(s[|s| - 1])
    ensures forall w :: w in SplitOnSpace(s) ==> w != [] && forall k :: 0 <= k < |w| ==> !IsSpace(w[k])
    decreases |s|
  {
    var i := NextSpace(s, 0);
    if i < |s| {
      var j := SkipSpace(s, i);
      assert j < |s|;
      SplitWords(s[j..]);
      assert i > 0;
      forall w | w in SplitOnSpace(s)
        ensures w != [] && forall k :: 0 <= k < |w| ==> !IsSpace(w[k])
      {
        if w != s[..i] {
          assert w in SplitOnSpace(s[j..]);
        }
      }
    }
  }

  /** `parts.join(sep)` */
  function Join(parts: seq<string>, sep: string): string {
    if parts == [] then []
    else if |parts| == 1 then parts[0]
    else parts[0] + sep + Join(parts[1..], sep)
  }

  /** Joining keeps the first part in front. */
  lemma JoinStartsWithFirst(parts: seq<string>, sep: string)
    requires parts != []
    ensures StartsWith(Join(parts, sep), parts[0])
  {
    var j := Join(parts, sep);
    assert j[..|parts[0]|] == parts[0];
  }

  predicate IsDigit(c: char) {
    '0' <= c <= '9'
  }

  predicate IsHexDigit(c: char) {
    IsDigit(c) || 'a' <= c <= 'f' || 'A' <= c <= 'F'
  }

  function HexDigitValue(c: char): (v: nat)
    requires IsHexDigit(c)
    ensures v < 16
  {
    if IsDigit(c) then c as int - '0' as int
    else if 'a' <= c <= 'f' then c as int - 'a' as int + 10
    else c as int - 'A' as int + 10
  }

  function HexDigitsValue(s: string): nat
    requires forall i :: 0 <= i < |s| ==> IsHexDigit(s[i])
  {
    if s == [] then 0 else 16 * HexDigitsValue(s[..|s| - 1]) + HexDigitValue(s[|s| - 1])
  }

  /** End of the run of characters satisfying `p` that starts at `i`. */
  function RunEnd(s: string, i: nat, p: char -> bool): (k: nat)
    requires i <= |s|
    ensures i <= k <= |s| && (k < |s| ==> !p(s[k]))
    ensures forall m :: i <= m < k ==> p(s[m])
    decreases |s| - i
  {
    if i == |s| || !p(s[i]) then i else RunEnd(s, i + 1, p)
  }

  /** Whether `s` holds the prefix `0x` or `0X` at `j`, which makes `parseInt` read hexadecimal. */
  predicate HexPrefixAt(s: string, j: nat) {
    j + 2 <= |s| && s[j] == '0' && (s[j + 1] == 'x' || s[j + 1] == 'X')
  }

  /**
   * `parseInt(s)` without a radix: leading whitespace and one sign are
   * skipped, `0x` selects hexadecimal, and the longest run of digits that
   * follows is read; `None` is `NaN`, when there is no digit at all.
   */
  function ParseInt(s: string): (r: Option<int>)
  {
    var i := SkipSpace(s, 0);
    var j := if i < |s| && (s[i] == '-' || s[i] == '+') then i + 1 else i;
    var hex := HexPrefixAt(s, j);
    var start := if hex then j + 2 else j;
    var v := ReadDigits(s, start, hex);
    if v.None? then None
    else Some(if i < |s| && s[i] == '-' then -(v.value as int) else v.value as int)
  }

  /** The value of the longest run of (hexadecimal) digits at `start`, if there is one. */
  function ReadDigits(s: string, start: nat, hex: bool): (v: Option<nat>)
    requires start <= |s|
    ensures v.None? <==> start == |s| || !(if hex then IsHexDigit(s[start]) else IsDigit(s[start]))
  {
    if hex then
      var k := RunEnd(s, start, IsHexDigit);
      if k == start then None else Some(HexDigitsValue(s[start..k]))
    else
      var k := RunEnd(s, start, IsDigit);
      assert forall m :: 0 <= m < k - start ==> IsDigit(s[start..k][m]);
      if k == start then None else Some(DigitsValue(s[start..k]))
  }

  /** `parseInt` reads back what `String(n)` writes, with or without a minus sign in front. */
  lemma ParseIntOfNat(n: nat)
    ensures ParseInt(NatToString(n)) == Some(n)
    ensures ParseInt("-" + NatToString(n)) == Some(-(n as int))
  {
    ParseNatToString(n);
    ParseIntOfNumeral(NatToString(n), n);
  }

  /** `parseInt` of a decimal numeral, with or without a minus sign in front. */
  lemma ParseIntOfNumeral(d: string, n: nat)
    requires ParseNat(d) == Some(n)
    ensures ParseInt(d) == Some(n) && ParseInt("-" + d) == Some(-(n as int))
  {
    assert d[0..] == d;
    ParseIntOfDigits(d, 0);
    var m := "-" + d;
    assert m[1..] == d;
    ParseIntOfDigits(m, 1);
  }

  /** `parseInt` of a run of decimal digits at `i`, behind a minus sign when `i` is 1. */
  lemma ParseIntOfDigits(m: string, i: nat)
    requires i <= 1 && i < |m|
    requires i == 1 ==> m[0] == '-'
    requires ParseNat(m[i..]).Some?
    ensures ParseInt(m) == Some(if i == 0 then ParseNat(m[i..]).value as int else -(ParseNat(m[i..]).value as int))
  {
    DigitsFrom(m, i);
    DigitOrSignNotSpace(m[0]);
    assert SkipSpace(m, 0) == 0;
    assert !HexPrefixAt(m, i) by {
      if i + 2 <= |m| { assert IsDigit(m[i + 1]); }
    }
    RunEndOfDigits(m, i);
    assert ReadDigits(m, i, false) == Some(DigitsValue(m[i..]));
  }

  /** The characters of a suffix that reads as a number are digits. */
  lemma DigitsFrom(m: string, i: nat)
    requires i <= |m| && ParseNat(m[i..]).Some?
    ensures forall q :: i <= q < |m| ==> IsDigit(m[q])
  {
    forall q | i <= q < |m| ensures IsDigit(m[q]) {
      assert m[q] == m[i..][q - i];
    }
  }

  lemma DigitOrSignNotSpace(c: char)
    requires IsDigit(c) || c == '-'
    ensures !IsSpace(c)
  {
  }

  /** Over a suffix of digits, the digit run reaches the end of the string. */
  lemma RunEndOfDigits(m: string, i: nat)
    requires i <= |m|
    requires forall q :: i <= q < |m| ==> IsDigit(m[q])
    ensures RunEnd(m, i, IsDigit) == |m| && m[i..RunEnd(m, i, IsDigit)] == m[i..]
  {
  }

  /** JavaScript's `a || b` on two numbers: an absent value and `0` both give `b`. */
  function OrNumber(a: Option<int>, b: int): (r: int)
    ensures r == b || (a.Some? && r == a.value && r != 0)
    ensures a.Some? && a.value != 0 ==> r == a.value
  {
    if a.Some? && a.value != 0 then a.value else b
  }

  /** JavaScript's `a || b` on two strings. */
  function OrElse(a: Option<string>, b: string): (r: string)
    ensures r == b || (a.Some? && r == a.value && r != [])
  {
    if a.Some? && a.value != [] then a.value else b
  }

  /** JavaScript truthiness of an optional string: present and not empty. */
  predicate TruthyText(a: Option<string>) {
    a.Some? && a.value != []
  }

  /** JavaScript truthiness of an optional number: present and not zero. */
  predicate TruthyNumber(a: Option<int>) {
    a.Some? && a.value != 0
  }

  /** One key of `{...earlier, ...later}`: the later object's value when it has the key. */
  function Spread<T>(earlier: Option<T>, later: Option<T>): (r: Option<T>)
    ensures later.Some? ==> r == later
    ensures later.None? ==> r == earlier
  {
    if later.Some? then later else earlier
  }
}
