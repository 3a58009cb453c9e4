/**
 * String helpers shared by the server and the client models: substring search with
 * JavaScript's `indexOf`/`includes`/`replace` semantics, decimal rendering of integers,
 * splitting and joining on a separator character (Python's `str.split`/`str.join`),
 * and Python's centred format specification.
 */
module Text {
  import opened Wrappers

  /** `sub` occurs in `s` starting at index `i`. */
  predicate OccursAt(s: string, sub: string, i: nat)
  {
    i + |sub| <= |s| && s[i..i + |sub|] == sub
  }

  /** The first index at or after `from` where `sub` occurs (`indexOf(sub, from)`). */
  function FindFrom(s: string, sub: string, from: nat): Option<nat>
    decreases |s| - from
  {
    if from + |sub| > |s| then None
    else if OccursAt(s, sub, from) then Some(from)
    else FindFrom(s, sub, from + 1)
  }

  function Find(s: string, sub: string): Option<nat>
  {
    FindFrom(s, sub, 0)
  }

  /** JavaScript's `String.prototype.includes`. */
  predicate Contains(s: string, sub: string)
  {
    Find(s, sub).Some?
  }

  lemma {:induction false} FindFromSpec(s: string, sub: string, from: nat)
    ensures FindFrom(s, sub, from).Some? ==>
      var i := FindFrom(s, sub, from).value;
      from <= i && OccursAt(s, sub, i) && forall j: nat :: from <= j < i ==> !OccursAt(s, sub, j)
    ensures FindFrom(s, sub, from).None? ==> forall j: nat :: from <= j ==> !OccursAt(s, sub, j)
    decreases |s| - from
  {
    if from + |sub| > |s| {
    } else if OccursAt(s, sub, from) {
    } else {
      FindFromSpec(s, sub, from + 1);
    }
  }

  /** `Find` returns the least index where `sub` occurs, and `None` exactly when it occurs nowhere. */
  lemma FindSpec(s: string, sub: string)
    ensures Find(s, sub).Some? ==>
      OccursAt(s, sub, Find(s, sub).value) && forall j: nat :: j < Find(s, sub).value ==> !OccursAt(s, sub, j)
    ensures Find(s, sub).None? <==> forall j: nat :: !OccursAt(s, sub, j)
  {
    FindFromSpec(s, sub, 0);
  }

  /** JavaScript's `String.prototype.replace` with a string pattern: only the first occurrence is replaced. */
  function ReplaceFirst(s: string, pattern: string, replacement: string): string
  {
    match Find(s, pattern)
    case None => s
    case Some(i) =>
      assert OccursAt(s, pattern, i) by { FindSpec(s, pattern); }
      s[..i] + replacement + s[i + |pattern|..]
  }

  function DigitChar(d: nat): char
    requires d < 10
  {
    "0123456789"[d]
  }

  predicate IsDigit(c: char)
  {
    '0' <= c <= '9'
  }

  /** Decimal rendering of a natural number, as Python's `str` and JavaScript's `toString` give it. */
  function NatStr(n: nat): (r: string)
    ensures |r| >= 1
    ensures forall i :: 0 <= i < |r| ==> IsDigit(r[i])
  {
    if n < 10 then [DigitChar(n)] else NatStr(n / 10) + [DigitChar(n % 10)]
  }

  /** Decimal rendering of an integer, with a leading minus sign when it is negative. */
  function IntStr(n: int): string
  {
    if n < 0 then "-" + NatStr(-n) else NatStr(n)
  }

  /** The value of a string of decimal digits. */
  function ParseNat(s: string): nat
    requires forall i :: 0 <= i < |s| ==> IsDigit(s[i])
  {
    if |s| == 0 then 0
    else
      assert IsDigit(s[|s| - 1]);
      ParseNat(s[..|s| - 1]) * 10 + (s[|s| - 1] as int - '0' as int)
  }

  /** Reading back a rendered natural number gives the number. */
  lemma {:induction false} NatStrRoundTrip(n: nat)
    ensures ParseNat(NatStr(n)) == n
  {
    if n >= 10 {
      var s := NatStr(n);
      assert s[..|s| - 1] == NatStr(n / 10);
      NatStrRoundTrip(n / 10);
    }
  }

  predicate StartsWith(s: string, t: string)
  {
    |t| <= |s| && s[..|t|] == t
  }

  predicate EndsWith(s: string, t: string)
  {
    |t| <= |s| && s[|s| - |t|..] == t
  }

  /** The text never holds the character `c`. */
  predicate Free(s: string, c: char)
  {
    c !in s
  }

  /** The last index of `c` in `s`. */
  function LastIndexOf(s: string, c: char): (i: nat)
    requires c in s
    ensures i < |s| && s[i] == c && forall k :: i < k < |s| ==> s[k] != c
  {
    if s[|s| - 1] == c then |s| - 1
    else
      assert c in s[..|s| - 1] by {
        var k :| 0 <= k < |s| && s[k] == c;
        assert s[..|s| - 1][k] == c;
      }
      LastIndexOf(s[..|s| - 1], c)
  }

  /** Python's `s.split(sep)` for a one-character separator. */
  function Split(s: string, sep: char): (parts: seq<string>)
    decreases |s|
  {
    if sep !in s then [s]
    else
      var i := LastIndexOf(s, sep);
      Split(s[..i], sep) + [s[i + 1..]]
  }

  /** Python's `sep.join(parts)` for a one-character separator. */
  function JoinWith(parts: seq<string>, sep: char): string
  {
    if |parts| == 0 then ""
    else if |parts| == 1 then parts[0]
    else JoinWith(parts[..|parts| - 1], sep) + [sep] + parts[|parts| - 1]
  }

  /** `"\n".join(lines)`: the way every report builder assembles its lines. */
  function Join(lines: seq<string>): string
  {
    JoinWith(lines, '\n')
  }

  /** A separator with none after it is the last one. */
  lemma LastSeparator(s: string, sep: char, j: nat)
    requires j < |s| && s[j] == sep
    requires forall k :: j < k < |s| ==> s[k] != sep
    ensures sep in s && LastIndexOf(s, sep) == j
  {
  }

  /** Splitting a joined text gives back its parts, when no part holds the separator. */
  lemma {:induction false} SplitJoin(parts: seq<string>, sep: char)
    requires |parts| >= 1
    requires forall k :: 0 <= k < |parts| ==> Free(parts[k], sep)
    ensures Split(JoinWith(parts, sep), sep) == parts
  {
    if |parts| > 1 {
      var init, last := parts[..|parts| - 1], parts[|parts| - 1];
      SplitLast(JoinWith(init, sep), sep, last);
      SplitJoin(init, sep);
      assert init + [last] == parts;
    }
  }

  /** Splitting cuts at the last separator: what follows it, free of separators, is the last part. */
  lemma SplitLast(a: string, sep: char, last: string)
    requires Free(last, sep)
    ensures Split(a + [sep] + last, sep) == Split(a, sep) + [last]
  {
    var s := a + [sep] + last;
    forall k | |a| < k < |s| ensures s[k] != sep {
      assert s[k] == last[k - |a| - 1];
    }
    LastSeparator(s, sep, |a|);
    assert s[..|a|] == a && s[|a| + 1..] == last;
  }

  /** Joining the parts of a split gives back the text. */
  lemma {:induction false} JoinSplit(s: string, sep: char)
    ensures JoinWith(Split(s, sep), sep) == s
    decreases |s|
  {
    if sep in s {
      var i := LastIndexOf(s, sep);
      var init := Split(s[..i], sep);
      JoinSplit(s[..i], sep);
      assert |init| >= 1 by { SplitNonEmpty(s[..i], sep); }
      var parts := init + [s[i + 1..]];
      assert parts[..|parts| - 1] == init;
      assert s == s[..i] + [sep] + s[i + 1..];
    }
  }

  lemma {:induction false} SplitNonEmpty(s: string, sep: char)
    ensures |Split(s, sep)| >= 1
    decreases |s|
  {
    if sep in s {
      SplitNonEmpty(s[..LastIndexOf(s, sep)], sep);
    }
  }

  /** The number of separators in a text. */
  function Count(s: string, c: char): nat
  {
    multiset(s)[c]
  }

  /** A joined text holds one separator fewer than it has parts, when no part holds the separator. */
  lemma {:induction false} JoinCount(parts: seq<string>, sep: char)
    requires |parts| >= 1
    requires forall k :: 0 <= k < |parts| ==> Free(parts[k], sep)
    ensures Count(JoinWith(parts, sep), sep) == |parts| - 1
  {
    if |parts| > 1 {
      var init := parts[..|parts| - 1];
      JoinCount(init, sep);
      assert Free(parts[|parts| - 1], sep);
      assert multiset(JoinWith(init, sep) + [sep] + parts[|parts| - 1])
        == multiset(JoinWith(init, sep)) + multiset([sep]) + multiset(parts[|parts| - 1]);
    }
  }

  /** `n` copies of `c`. */
  function Repeat(c: char, n: nat): (r: string)
    ensures |r| == n && forall i :: 0 <= i < n ==> r[i] == c
  {
    if n == 0 then [] else Repeat(c, n - 1) + [c]
  }

  /**
   * Python's `"{:<fill>^<width>}".format(s)`: `s` padded with `fill` on both sides to `width`,
   * the odd character of padding going to the right; a text at least `width` long is unchanged.
   */
  function Center(s: string, width: nat, fill: char): string
  {
    if |s| >= width then s
    else
      var pad := width - |s|;
      Repeat(fill, pad / 2) + s + Repeat(fill, pad - pad / 2)
  }

  /**
   * The centred text is exactly `width` long (or `s` itself when `s` is not shorter), holds `s`
   * at offset `left`, only `fill` elsewhere, and its right padding is the left one or one more.
   */
  lemma CenterLayout(s: string, width: nat, fill: char)
    ensures var r := Center(s, width, fill);
      var left := if |s| >= width then 0 else (width - |s|) / 2;
      |r| == (if |s| >= width then |s| else width)
      && r[left..left + |s|] == s
      && (forall i :: 0 <= i < left || left + |s| <= i < |r| ==> r[i] == fill)
      && left <= |r| - |s| - left <= left + 1
  {
  }
}
