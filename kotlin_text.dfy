/**
 * The parts of Kotlin's string library that the app's own logic relies on:
 * `indexOf`, `lastIndexOf`, `substringAfter`, `substringBefore`, `trim`,
 * `startsWith` (with and without `ignoreCase`), `equals(ignoreCase = true)`,
 * `replace` and `uppercase`. A Kotlin `String` is a `seq<char>`.
 */
module KotlinText {

  /** `p` occurs in `s` starting at index `i`. */
  predicate OccursAt(s: string, p: string, i: int) {
    0 <= i && i + |p| <= |s| && s[i..i + |p|] == p
  }

  /** Kotlin's `s.contains(p)`. */
  predicate Contains(s: string, p: string) {
    exists i :: 0 <= i <= |s| - |p| && OccursAt(s, p, i)
  }

  predicate StartsWith(s: string, p: string) {
    |p| <= |s| && s[..|p|] == p
  }

  predicate EndsWith(s: string, p: string) {
    |p| <= |s| && s[|s| - |p|..] == p
  }

  /** The first occurrence of `p` in `s` at or after `from`, or -1. */
  function IndexOfFrom(s: string, p: string, from: nat): (r: int)
    decreases |s| - from
    ensures r == -1 || (from <= r && OccursAt(s, p, r))
    ensures forall j :: from <= j && (r == -1 || j < r) ==> !OccursAt(s, p, j)
  {
    if from + |p| > |s| then -1
    else if s[from..from + |p|] == p then from
    else IndexOfFrom(s, p, from + 1)
  }

  /** Kotlin's `s.indexOf(p)`: the index of the first occurrence of `p`, or -1. */
  function IndexOf(s: string, p: string): (r: int)
    ensures r == -1 <==> !Contains(s, p)
    ensures r != -1 ==> OccursAt(s, p, r) && forall j :: 0 <= j < r ==> !OccursAt(s, p, j)
  {
    IndexOfFrom(s, p, 0)
  }

  /** Kotlin's `s.lastIndexOf(c)`: the index of the last `c` in `s`, or -1. */
  function LastIndexOf(s: string, c: char): (r: int)
    ensures -1 <= r < |s|
    ensures r == -1 <==> c !in s
    ensures r != -1 ==> s[r] == c && c !in s[r + 1..]
  {
    if |s| == 0 then -1
    else if s[|s| - 1] == c then |s| - 1
    else
      assert s == s[..|s| - 1] + [s[|s| - 1]];
      var r := LastIndexOf(s[..|s| - 1], c);
      assert r != -1 ==> s[r + 1..] == s[..|s| - 1][r + 1..] + [s[|s| - 1]];
      r
  }

  /**
   * Kotlin's `s.substringAfter(d)`: the text after the first occurrence of `d`,
   * or the whole of `s` when `d` does not occur.
   */
  function SubstringAfter(s: string, d: string): (r: string)
    ensures !Contains(s, d) ==> r == s
    ensures Contains(s, d) ==> EndsWith(s, r) && OccursAt(s, d, |s| - |r| - |d|)
  {
    var i := IndexOf(s, d);
    if i == -1 then s else s[i + |d|..]
  }

  /**
   * Kotlin's `s.substringBefore(d)`: the text before the first occurrence of `d`,
   * or the whole of `s` when `d` does not occur.
   */
  function SubstringBefore(s: string, d: string): (r: string)
    ensures StartsWith(s, r)
    ensures !Contains(s, d) ==> r == s
    ensures Contains(s, d) ==> OccursAt(s, d, |r|)
    ensures Contains(s, d) && d != [] ==> !Contains(r, d)
  {
    var i := IndexOf(s, d);
    if i == -1 then s
    else
      assert forall j :: OccursAt(s[..i], d, j) ==> OccursAt(s, d, j) by {
        forall j | OccursAt(s[..i], d, j) ensures OccursAt(s, d, j) {
          assert s[..i][j..j + |d|] == s[j..j + |d|];
        }
      }
      s[..i]
  }

  /**
   * Kotlin's `Char.isWhitespace()` on the JVM: Java's `Character.isWhitespace`
   * or `Character.isSpaceChar`, i.e. the controls U+0009..U+000D and
   * U+001C..U+001F and every space, line or paragraph separator.
   */
  predicate IsWhitespace(c: char) {
    || ('\t' <= c <= '\r')
    || ('\U{1C}' <= c <= ' ')
    || c == '\U{A0}' || c == '\U{1680}'
    || ('\U{2000}' <= c <= '\U{200A}')
    || c == '\U{2028}' || c == '\U{2029}' || c == '\U{202F}' || c == '\U{205F}' || c == '\U{3000}'
  }

  /** No whitespace at either end: what `trim` leaves behind. */
  predicate Trimmed(s: string) {
    s == [] || (!IsWhitespace(s[0]) && !IsWhitespace(s[|s| - 1]))
  }

  function TrimStart(s: string): (r: string)
    ensures |r| <= |s| && r == s[|s| - |r|..]
    ensures r == [] || !IsWhitespace(r[0])
    ensures forall k :: 0 <= k < |s| - |r| ==> IsWhitespace(s[k])
  {
    if |s| > 0 && IsWhitespace(s[0]) then TrimStart(s[1..]) else s
  }

  function TrimEnd(s: string): (r: string)
    ensures |r| <= |s| && r == s[..|r|]
    ensures r == [] || !IsWhitespace(r[|r| - 1])
    ensures forall k :: |r| <= k < |s| ==> IsWhitespace(s[k])
  {
    if |s| > 0 && IsWhitespace(s[|s| - 1]) then TrimEnd(s[..|s| - 1]) else s
  }

  /** `r` is `s[i..i + |r|]` and everything around it is whitespace. */
  predicate TrimCut(s: string, r: string, i: int) {
    && 0 <= i <= |s| - |r| && r == s[i..i + |r|]
    && (forall k :: 0 <= k < i ==> IsWhitespace(s[k]))
    && (forall k :: i + |r| <= k < |s| ==> IsWhitespace(s[k]))
  }

  /**
   * Kotlin's `s.trim()`: `s` without its leading and trailing whitespace.
   * The result is the slice `s[i..i + |r|]` and everything cut off is whitespace.
   */
  function Trim(s: string): (r: string)
    ensures Trimmed(r)
    ensures Trimmed(s) ==> r == s
    ensures exists i :: TrimCut(s, r, i)
  {
    var t := TrimStart(s);
    var r := TrimEnd(t);
    var i := |s| - |t|;
    assert r == s[i..i + |r|];
    assert Trimmed(s) ==> i == 0 && t == s;
    assert TrimCut(s, r, i);
    r
  }

  /**
   * Case folding as Java's `regionMatches(ignoreCase = true)` and
   * `equalsIgnoreCase` apply it when one side is ASCII: ASCII letters of either
   * case, plus the four non-ASCII letters whose upper or lower case is an
   * ASCII letter (dotted capital I, dotless small i, long s, Kelvin sign).
   */
  function FoldCase(c: char): char {
    if 'A' <= c <= 'Z' then (c as int + 32) as char
    else if c == '\U{130}' || c == '\U{131}' then 'i'
    else if c == '\U{17F}' then 's'
    else if c == '\U{212A}' then 'k'
    else c
  }

  predicate CharEqualsIgnoreCase(a: char, b: char) {
    FoldCase(a) == FoldCase(b)
  }

  /** Kotlin's `s.startsWith(p, ignoreCase = true)`. */
  predicate StartsWithIgnoreCase(s: string, p: string) {
    |p| <= |s| && forall i :: 0 <= i < |p| ==> CharEqualsIgnoreCase(s[i], p[i])
  }

  /** Kotlin's `a.equals(b, ignoreCase = true)`. */
  predicate EqualsIgnoreCase(a: string, b: string) {
    |a| == |b| && forall i :: 0 <= i < |a| ==> CharEqualsIgnoreCase(a[i], b[i])
  }

  /** Kotlin's `s.replace(from, to)` for one-character strings. */
  function ReplaceChar(s: string, from: char, to: char): (r: string)
    ensures |r| == |s|
    ensures forall i :: 0 <= i < |s| ==> r[i] == if s[i] == from then to else s[i]
  {
    seq(|s|, i requires 0 <= i < |s| => if s[i] == from then to else s[i])
  }

  /** Upper case for ASCII letters; every other character is kept as it is. */
  function UpperAscii(s: string): (r: string)
    ensures |r| == |s|
    ensures forall i :: 0 <= i < |s| ==>
              r[i] == if 'a' <= s[i] <= 'z' then (s[i] as int - 32) as char else s[i]
  {
    seq(|s|, i requires 0 <= i < |s| => if 'a' <= s[i] <= 'z' then (s[i] as int - 32) as char else s[i])
  }

  /** A two-character marker `m` sits at `i` in `s` exactly when its two characters do. */
  lemma OccursAtPair(s: string, m: string, i: int)
    requires |m| == 2
    ensures OccursAt(s, m, i) <==> 0 <= i && i + 1 < |s| && s[i] == m[0] && s[i + 1] == m[1]
  {
    if 0 <= i && i + 1 < |s| && s[i] == m[0] && s[i + 1] == m[1] {
      assert s[i..i + 2] == [s[i], s[i + 1]];
    }
  }

  /** `m` does not occur in `s` when no two adjacent characters of `s` spell it. */
  lemma {:induction false} NoPair(s: string, m: string)
    requires |m| == 2
    requires forall i :: 0 <= i < |s| - 1 ==> !(s[i] == m[0] && s[i + 1] == m[1])
    ensures !Contains(s, m)
  {
    forall i | OccursAt(s, m, i) ensures false {
      OccursAtPair(s, m, i);
    }
  }

  /** A two-character marker absent from `a` and `b` is absent from `a + b` unless it straddles the join. */
  lemma {:induction false} NoPairInConcat(a: string, b: string, m: string)
    requires |m| == 2 && !Contains(a, m) && !Contains(b, m)
    requires a == [] || b == [] || !(a[|a| - 1] == m[0] && b[0] == m[1])
    ensures !Contains(a + b, m)
  {
    var s := a + b;
    forall i | OccursAt(s, m, i) ensures false {
      OccursAtPair(s, m, i);
      if i + 1 < |a| {
        OccursAtPair(a, m, i);
      } else if i >= |a| {
        OccursAtPair(b, m, i - |a|);
      }
    }
  }

  /**
   * The first occurrence of a two-character marker whose characters differ is
   * where it is placed, provided the text before it does not contain it.
   */
  lemma {:induction false} FirstPairAt(a: string, m: string, rest: string)
    requires |m| == 2 && m[0] != m[1] && !Contains(a, m)
    ensures IndexOf(a + m + rest, m) == |a|
  {
    var s := a + m + rest;
    assert s[|a|] == m[0] && s[|a| + 1] == m[1];
    OccursAtPair(s, m, |a|);
    forall j | 0 <= j < |a| ensures !OccursAt(s, m, j) {
      OccursAtPair(s, m, j);
      assert s[j] == a[j];
      if j + 1 < |a| {
        assert s[j + 1] == a[j + 1];
        OccursAtPair(a, m, j);
      } else {
        assert s[j + 1] == m[0];
      }
    }
  }

  /** The first occurrence of a character is where it is placed when the text before it lacks it. */
  lemma {:induction false} FirstCharAt(a: string, c: char, rest: string)
    requires c !in a
    ensures IndexOf(a + [c] + rest, [c]) == |a|
  {
    var s := a + [c] + rest;
    assert s[|a|..|a| + 1] == [c];
    assert OccursAt(s, [c], |a|);
    forall j | 0 <= j < |a| ensures !OccursAt(s, [c], j) {
      assert s[j] == a[j];
      assert s[j..j + 1] == [s[j]];
    }
  }

  /** A one-character string occurs exactly where its character does. */
  lemma {:induction false} ContainsChar(s: string, c: char)
    ensures Contains(s, [c]) <==> c in s
  {
    forall i | 0 <= i < |s| ensures OccursAt(s, [c], i) <==> s[i] == c {
      assert s[i..i + 1] == [s[i]];
    }
  }

  /** A pattern is first found where it is placed when its first character does not occur before it. */
  lemma {:induction false} FirstAt(a: string, p: string, rest: string)
    requires |p| > 0 && p[0] !in a
    ensures IndexOf(a + p + rest, p) == |a|
  {
    var s := a + p + rest;
    assert s[|a|..|a| + |p|] == p;
    assert OccursAt(s, p, |a|);
    forall j | 0 <= j < |a| ensures !OccursAt(s, p, j) {
      assert s[j] == a[j];
      assert s[j] != p[0];
      assert j + |p| <= |s| ==> s[j..j + |p|][0] == s[j];
    }
  }

  /** What follows the first occurrence of a pattern placed after text lacking its first character. */
  lemma {:induction false} AfterFirst(a: string, p: string, rest: string)
    requires |p| > 0 && p[0] !in a
    ensures SubstringAfter(a + p + rest, p) == rest
  {
    FirstAt(a, p, rest);
    assert (a + p + rest)[|a| + |p|..] == rest;
  }

  /** What precedes the first occurrence of a character placed after text lacking it. */
  lemma {:induction false} BeforeFirst(a: string, c: char, rest: string)
    requires c !in a
    ensures SubstringBefore(a + [c] + rest, [c]) == a
  {
    FirstCharAt(a, c, rest);
    assert (a + [c] + rest)[..|a|] == a;
  }

  function DigitChar(d: nat): (c: char)
    requires d < 10
    ensures '0' <= c <= '9'
  {
    ('0' as int + d) as char
  }

  predicate AllDigits(s: string) {
    forall k :: 0 <= k < |s| ==> '0' <= s[k] <= '9'
  }

  /** Kotlin's `toString()` of a non-negative integer: its decimal digits, without leading zeros. */
  function NatToString(n: nat): (r: string)
    ensures |r| >= 1 && AllDigits(r)
    ensures n > 0 ==> r[0] != '0'
    decreases n
  {
    if n < 10 then [DigitChar(n)] else NatToString(n / 10) + [DigitChar(n % 10)]
  }

  /** Kotlin's `toString()` of an integer: a minus sign for a negative value, then the digits. */
  function IntToString(i: int): (r: string)
    ensures |r| >= 1
    ensures forall k :: 0 <= k < |r| ==> r[k] == '-' || '0' <= r[k] <= '9'
    ensures (r[0] == '-') <==> i < 0
  {
    if i < 0 then "-" + NatToString(-i) else NatToString(i)
  }

  /** The value of a string of decimal digits. */
  function ParseNat(s: string): nat
    requires AllDigits(s)
  {
    if s == [] then 0 else ParseNat(s[..|s| - 1]) * 10 + (s[|s| - 1] as int - '0' as int)
  }

  /** Reading back the decimal digits of a number gives the number. */
  lemma {:induction false} ParseNatToString(n: nat)
    ensures ParseNat(NatToString(n)) == n
  {
    if n >= 10 {
      var r := NatToString(n);
      assert r[..|r| - 1] == NatToString(n / 10);
      ParseNatToString(n / 10);
    }
  }

  /** Different numbers have different decimal texts. */
  lemma NatToStringInjective(m: nat, n: nat)
    requires NatToString(m) == NatToString(n)
    ensures m == n
  {
    ParseNatToString(m);
    ParseNatToString(n);
  }
}
