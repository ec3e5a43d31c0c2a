/**
  Models of the JavaScript built-ins the storage core relies on: `String(n)`
  for integers, `parseInt`, `String.prototype.split` with a one-character
  separator, `replace` of the first match of a literal pattern, and
  `includes`. Numbers are restricted to the integers plus NaN.
 */
module Js {

  /** A JavaScript number: NaN or an integer value. */
  datatype Num = NaN | Int(value: int)

  /** `a - b`, NaN-propagating. */
  function Sub(a: Num, b: Num): (r: Num)
    ensures r.Int? <==> a.Int? && b.Int?
    ensures r.Int? ==> r.value == a.value - b.value
  {
    if a.Int? && b.Int? then Int(a.value - b.value) else NaN
  }

  /** `a + b`, NaN-propagating. */
  function Add(a: Num, b: Num): (r: Num)
    ensures r.Int? <==> a.Int? && b.Int?
    ensures r.Int? ==> r.value == a.value + b.value
  {
    if a.Int? && b.Int? then Int(a.value + b.value) else NaN
  }

  // ---------------------------------------------------------------------
  // Decimal rendering: String(n) / n.toString()
  // ---------------------------------------------------------------------

  predicate IsDecimalDigit(c: char) {
    '0' <= c <= '9'
  }

  function DigitChar(d: nat): (c: char)
    requires d < 10
    ensures IsDecimalDigit(c)
  {
    (('0' as int) + d) as char
  }

  /** The shortest decimal spelling of a natural number. */
  function NatToString(n: nat): (s: string)
    ensures |s| >= 1
    decreases n
  {
    if n < 10 then [DigitChar(n)] else NatToString(n / 10) + [DigitChar(n % 10)]
  }

  /** `String(i)` for an integer: a leading `-` for negatives. */
  function IntToString(i: int): (s: string)
    ensures |s| >= 1
  {
    if i < 0 then "-" + NatToString(-i) else NatToString(i)
  }

  /** `String(n)` for a number. */
  function NumToString(n: Num): (s: string)
    ensures n.NaN? ==> s == "NaN"
    ensures n.Int? ==> s == IntToString(n.value)
  {
    match n
    case NaN => "NaN"
    case Int(i) => IntToString(i)
  }

  lemma {:induction false} NatToStringIsDigits(n: nat)
    ensures forall k :: 0 <= k < |NatToString(n)| ==> IsDecimalDigit(NatToString(n)[k])
    decreases n
  {
    if n >= 10 {
      NatToStringIsDigits(n / 10);
    }
  }

  lemma NatToStringLeadingZero(n: nat)
    requires NatToString(n)[0] == '0'
    ensures n == 0 && NatToString(n) == "0"
  {
    if n >= 10 {
      NatToStringNoLeadingZero(n);
    }
  }

  lemma {:induction false} NatToStringNoLeadingZero(n: nat)
    requires n >= 1
    ensures NatToString(n)[0] != '0'
    decreases n
  {
    if n >= 10 {
      NatToStringNoLeadingZero(n / 10);
    }
  }

  // ---------------------------------------------------------------------
  // parseInt(string, radix)
  // ---------------------------------------------------------------------

  /** The white space `parseInt` skips before the digits: the ASCII spaces, NBSP, BOM, the
      Unicode space separators (category Zs) and the line and paragraph separators. */
  predicate IsSpace(c: char) {
    c == ' ' || c == '\t' || c == '\n' || c == '\r' || c == '\U{000B}' || c == '\U{000C}'
    || c == '\U{00A0}' || c == '\U{FEFF}' || c == '\U{2028}' || c == '\U{2029}'
    || c == '\U{1680}' || ('\U{2000}' <= c <= '\U{200A}') || c == '\U{202F}' || c == '\U{205F}'
    || c == '\U{3000}'
  }

  function TrimStart(s: string): (r: string)
    ensures |r| <= |s| && r == s[|s| - |r|..]
    ensures |r| > 0 ==> !IsSpace(r[0])
    ensures forall k :: 0 <= k < |s| - |r| ==> IsSpace(s[k])
  {
    if |s| > 0 && IsSpace(s[0]) then TrimStart(s[1..]) else s
  }

  /** Text that does not start with white space is left as it is. */
  lemma TrimStartKeeps(s: string)
    requires |s| > 0 && !IsSpace(s[0])
    ensures TrimStart(s) == s
  {
  }

  /** The value of `c` as a digit in base `radix` (10 or 16), or -1 when it is not one. */
  function DigitValue(c: char, radix: nat): (v: int)
    ensures -1 <= v < radix || v == -1
  {
    if '0' <= c <= '9' && (c as int) - ('0' as int) < radix then (c as int) - ('0' as int)
    else if radix == 16 && 'a' <= c <= 'f' then (c as int) - ('a' as int) + 10
    else if radix == 16 && 'A' <= c <= 'F' then (c as int) - ('A' as int) + 10
    else -1
  }

  predicate IsDigitIn(c: char, radix: nat) {
    DigitValue(c, radix) >= 0
  }

  /** The longest prefix of `s` made of base-`radix` digits. */
  function DigitPrefix(s: string, radix: nat): (r: string)
    ensures |r| <= |s| && r == s[..|r|]
    ensures forall k :: 0 <= k < |r| ==> IsDigitIn(r[k], radix)
    ensures |r| < |s| ==> !IsDigitIn(s[|r|], radix)
  {
    if |s| > 0 && IsDigitIn(s[0], radix) then [s[0]] + DigitPrefix(s[1..], radix) else []
  }

  /** The value of a string of base-`radix` digits, most significant first. */
  function DigitsValue(s: string, radix: nat): nat
    requires forall k :: 0 <= k < |s| ==> IsDigitIn(s[k], radix)
  {
    if s == [] then 0
    else
      var init := s[..|s| - 1];
      assert forall k :: 0 <= k < |init| ==> init[k] == s[k];
      assert IsDigitIn(s[|s| - 1], radix);
      var high: nat := DigitsValue(init, radix);
      var shifted: nat := high * radix;
      shifted + DigitValue(s[|s| - 1], radix)
  }

  /** `parseInt(s, radix)` when `hexPrefix` is false (an explicit radix 10), and
      `parseInt(s)` when it is true (no radix: a `0x`/`0X` prefix selects base 16).
      Leading white space is skipped, then one sign. */
  function ParseInt(s: string, hexPrefix: bool): (r: Num)
  {
    var t := TrimStart(s);
    if |t| > 0 && t[0] == '-' then Negate(ParseMagnitude(t[1..], hexPrefix))
    else if |t| > 0 && t[0] == '+' then ParseMagnitude(t[1..], hexPrefix)
    else ParseMagnitude(t, hexPrefix)
  }

  function Negate(n: Num): Num {
    match n
    case NaN => NaN
    case Int(m) => Int(-m)
  }

  /** The unsigned part: with the radix omitted, `0x`/`0X` selects base 16. */
  function ParseMagnitude(u: string, hexPrefix: bool): Num {
    if hexPrefix && |u| >= 2 && u[0] == '0' && (u[1] == 'x' || u[1] == 'X') then ParseDigits(u[2..], 16)
    else ParseDigits(u, 10)
  }

  /** The longest digit prefix, read in `radix`; no digit at all is NaN. */
  function ParseDigits(u: string, radix: nat): Num {
    var digits := DigitPrefix(u, radix);
    if digits == [] then NaN else Int(DigitsValue(digits, radix))
  }

  /** `parseInt(s, 10)`. */
  function ParseInt10(s: string): Num {
    ParseInt(s, false)
  }

  /** `parseInt(s)` with the radix omitted. */
  function ParseIntNoRadix(s: string): Num {
    ParseInt(s, true)
  }

  lemma {:induction false} DigitsValueOfNatToString(n: nat)
    ensures forall k :: 0 <= k < |NatToString(n)| ==> IsDigitIn(NatToString(n)[k], 10)
    ensures DigitsValue(NatToString(n), 10) == n
    decreases n
  {
    NatToStringIsDigits(n);
    if n >= 10 {
      DigitsValueOfNatToString(n / 10);
      var s := NatToString(n);
      assert s[..|s| - 1] == NatToString(n / 10);
    }
  }

  lemma {:induction false} DigitPrefixOfDigits(s: string, radix: nat)
    requires forall k :: 0 <= k < |s| ==> IsDigitIn(s[k], radix)
    ensures DigitPrefix(s, radix) == s
  {
    if |s| > 0 {
      DigitPrefixOfDigits(s[1..], radix);
      assert [s[0]] + s[1..] == s;
    }
  }

  /** Both `parseInt(String(n), 10)` and `parseInt(String(n))` give back `n`. */
  lemma ParseNatToString(n: nat)
    ensures ParseInt10(NatToString(n)) == Int(n)
    ensures ParseIntNoRadix(NatToString(n)) == Int(n)
  {
    var s := NatToString(n);
    DigitsValueOfNatToString(n);
    assert !IsSpace(s[0]) && s[0] != '-' && s[0] != '+';
    assert TrimStart(s) == s;
    DigitPrefixOfDigits(s, 10);
    if |s| >= 2 && s[0] == '0' {
      NatToStringLeadingZero(n);
    }
  }

  // ---------------------------------------------------------------------
  // split, replace, includes
  // ---------------------------------------------------------------------

  /** `s.split(c)` for a one-character separator: the pieces between separators. */
  function Split(s: string, c: char): (r: seq<string>)
    ensures |r| >= 1
  {
    if |s| == 0 then [""]
    else if s[0] == c then [""] + Split(s[1..], c)
    else
      var rest := Split(s[1..], c);
      [[s[0]] + rest[0]] + rest[1..]
  }

  /** The pieces joined back with the separator. */
  function Join(pieces: seq<string>, c: char): string
    requires |pieces| >= 1
  {
    if |pieces| == 1 then pieces[0] else pieces[0] + [c] + Join(pieces[1..], c)
  }

  lemma {:induction false} SplitJoin(s: string, c: char)
    ensures Join(Split(s, c), c) == s
  {
    if |s| > 0 {
      SplitJoin(s[1..], c);
      if s[0] != c {
        var rest := Split(s[1..], c);
        if |rest| == 1 {
          assert Join(Split(s, c), c) == [s[0]] + rest[0];
        } else {
          assert Join(Split(s, c), c) == [s[0]] + rest[0] + [c] + Join(rest[1..], c);
        }
      }
      assert s == [s[0]] + s[1..];
    }
  }

  lemma {:induction false} SplitNoSeparator(s: string, c: char)
    requires forall k :: 0 <= k < |s| ==> s[k] != c
    ensures Split(s, c) == [s]
  {
    if |s| > 0 {
      SplitNoSeparator(s[1..], c);
      assert [s[0]] + s[1..] == s;
    }
  }

  lemma {:induction false} SplitAfterPiece(a: string, c: char, b: string)
    requires forall k :: 0 <= k < |a| ==> a[k] != c
    ensures Split(a + [c] + b, c) == [a] + Split(b, c)
    decreases |a|
  {
    if |a| == 0 {
      assert a + [c] + b == [c] + b;
      assert ([c] + b)[1..] == b;
    } else {
      SplitAfterPiece(a[1..], c, b);
      assert (a + [c] + b)[1..] == a[1..] + [c] + b;
      assert [a[0]] + a[1..] == a;
    }
  }

  function Last<T>(s: seq<T>): T
    requires |s| >= 1
  {
    s[|s| - 1]
  }

  /** `s.split(c).pop()`: the text after the last `c`, or all of `s` when there is none. */
  function LastPiece(s: string, c: char): string {
    Last(Split(s, c))
  }

  /** The index of the last `c` in `s`, or -1 when there is none. */
  function LastIndexOf(s: string, c: char): (r: int)
    ensures -1 <= r < |s|
    ensures r >= 0 ==> s[r] == c
    ensures forall j :: r < j < |s| ==> s[j] != c
  {
    if |s| == 0 then -1
    else if s[|s| - 1] == c then |s| - 1
    else LastIndexOf(s[..|s| - 1], c)
  }

  lemma {:induction false} SplitWithSeparator(s: string, c: char)
    requires exists k :: 0 <= k < |s| && s[k] == c
    ensures |Split(s, c)| >= 2
  {
    if s[0] != c {
      var k :| 0 <= k < |s| && s[k] == c;
      assert s[1..][k - 1] == c;
      SplitWithSeparator(s[1..], c);
    }
  }

  lemma {:induction false} LastAfterSeparator(x: string, c: char, y: string)
    ensures Last(Split(x + [c] + y, c)) == Last(Split(y, c))
    decreases |x|
  {
    var s := x + [c] + y;
    if |x| == 0 {
      assert s[1..] == y;
    } else {
      var t := x[1..] + [c] + y;
      assert s[1..] == t;
      LastAfterSeparator(x[1..], c, y);
      if x[0] != c {
        assert t[|x| - 1] == c;
        SplitWithSeparator(t, c);
      }
    }
  }

  /** The last piece is exactly the text after the last separator (all of `s` when there is none). */
  lemma LastPieceAfterLastSeparator(s: string, c: char)
    ensures LastPiece(s, c) == s[LastIndexOf(s, c) + 1..]
  {
    var i := LastIndexOf(s, c);
    if i >= 0 {
      LastPieceAfterSeparatorAt(s, c, i);
    } else {
      SplitNoSeparator(s, c);
    }
  }

  lemma LastPieceAfterSeparatorAt(s: string, c: char, i: nat)
    requires i < |s| && s[i] == c
    requires forall j :: i < j < |s| ==> s[j] != c
    ensures LastPiece(s, c) == s[i + 1..]
  {
    var x, y := s[..i], s[i + 1..];
    SplitNoSeparator(y, c);
    assert s == x + [c] + y;
    LastAfterSeparator(x, c, y);
  }

  predicate IsPrefix(p: string, s: string) {
    |p| <= |s| && s[..|p|] == p
  }

  /** `s.replace(/pattern/, rep)` for a literal pattern: the first match only. */
  function ReplaceFirst(s: string, pattern: string, rep: string): string
    requires |pattern| > 0
  {
    if |s| < |pattern| then s
    else if IsPrefix(pattern, s) then rep + s[|pattern|..]
    else [s[0]] + ReplaceFirst(s[1..], pattern, rep)
  }

  predicate OccursAt(s: string, sub: string, i: nat) {
    i + |sub| <= |s| && s[i..i + |sub|] == sub
  }

  /** `s.includes(sub)`: `sub` occurs somewhere in `s`. */
  ghost predicate Includes(s: string, sub: string) {
    exists i: nat :: OccursAt(s, sub, i)
  }

  /** A text lacking one of `sub`'s characters does not include `sub`. */
  lemma MissingCharExcludes(s: string, sub: string, k: nat)
    requires k < |sub| && sub[k] !in s
    ensures !Includes(s, sub)
  {
  }

  /** `s.includes(sub)` as a search from index `i` on, proved equal to `Includes` from 0. */
  function IncludesFrom(s: string, sub: string, i: nat): (b: bool)
    ensures b <==> exists j: nat :: i <= j && OccursAt(s, sub, j)
    decreases |s| - i
  {
    if i + |sub| > |s| then false
    else if OccursAt(s, sub, i) then true
    else IncludesFrom(s, sub, i + 1)
  }
}
