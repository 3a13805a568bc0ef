/**
 * The JavaScript string operations the relay relies on, written out:
 * `indexOf`, `split` on a one-character separator, `pop` on the result of
 * `split`, indexing into that result, and the decimal rendering of integers
 * that template literals perform.
 */
module Strings {
  import opened Wrappers

  // ---------------------------------------------------------------------------
  // Substring search (`String.prototype.indexOf`)
  // ---------------------------------------------------------------------------

  /** `p` occurs in `s` starting at position `k`. */
  ghost predicate OccursAt(s: string, p: string, k: int)
  {
    0 <= k && k + |p| <= |s| && s[k..k + |p|] == p
  }

  /** `p` occurs somewhere in `s`: the reference meaning of `indexOf(p) > -1`. */
  ghost predicate Contains(s: string, p: string)
  {
    exists k :: OccursAt(s, p, k)
  }

  /** The first position at or after `from` where `p` occurs in `s`, or -1. */
  function IndexOfFrom(s: string, p: string, from: nat): (r: int)
    requires from <= |s|
    ensures r == -1 || (from <= r && OccursAt(s, p, r))
    ensures r == -1 ==> forall k :: from <= k ==> !OccursAt(s, p, k)
    ensures r != -1 ==> forall k :: from <= k < r ==> !OccursAt(s, p, k)
    decreases |s| - from
  {
    if from + |p| > |s| then -1
    else if s[from..from + |p|] == p then from
    else IndexOfFrom(s, p, from + 1)
  }

  /** `s.indexOf(p)`: the first occurrence of `p` in `s`, or -1 when there is none. */
  function IndexOf(s: string, p: string): (r: int)
    ensures r == -1 || OccursAt(s, p, r)
    ensures r > -1 <==> Contains(s, p)
    ensures forall k :: 0 <= k < r ==> !OccursAt(s, p, k)
  {
    IndexOfFrom(s, p, 0)
  }

  /** Every occurrence in a part is an occurrence in a concatenation that contains it. */
  lemma ContainsInConcat(a: string, b: string, c: string, p: string)
    requires Contains(b, p)
    ensures Contains(a + b + c, p)
  {
    var k :| OccursAt(b, p, k);
    assert (a + b + c)[|a| + k..|a| + k + |p|] == b[k..k + |p|];
    assert OccursAt(a + b + c, p, |a| + k);
  }

  // ---------------------------------------------------------------------------
  // `split` on a one-character separator, and its inverse `join`
  // ---------------------------------------------------------------------------

  /**
   * `s.split(c)` for a one-character separator `c`: the maximal runs of
   * characters other than `c`, including empty runs at either end and between
   * adjacent separators. The result always has at least one element.
   */
  function Split(s: string, c: char): (parts: seq<string>)
    ensures |parts| >= 1
    decreases |s|
  {
    if |s| == 0 then [""]
    else
      var rest := Split(s[1..], c);
      if s[0] == c then [""] + rest
      else [[s[0]] + rest[0]] + rest[1..]
  }

  /** `parts.join(c)`. */
  function Join(parts: seq<string>, c: char): string
    decreases |parts|
  {
    if |parts| == 0 then ""
    else if |parts| == 1 then parts[0]
    else parts[0] + [c] + Join(parts[1..], c)
  }

  /** No part contains the separator. */
  ghost predicate SeparatorFree(parts: seq<string>, c: char)
  {
    forall i :: 0 <= i < |parts| ==> c !in parts[i]
  }

  /** The parts of a split never contain the separator. */
  lemma {:induction false} SplitSeparatorFree(s: string, c: char)
    ensures SeparatorFree(Split(s, c), c)
    decreases |s|
  {
    if |s| > 0 {
      SplitSeparatorFree(s[1..], c);
    }
  }

  /** Joining the parts of a split gives back the string. */
  lemma {:induction false} JoinSplit(s: string, c: char)
    ensures Join(Split(s, c), c) == s
    decreases |s|
  {
    if |s| > 0 {
      var rest := Split(s[1..], c);
      JoinSplit(s[1..], c);
      if s[0] == c {
        assert Split(s, c) == [""] + rest;
        assert ([""] + rest)[1..] == rest;
        assert s == [c] + s[1..];
      } else {
        var parts := [[s[0]] + rest[0]] + rest[1..];
        if |rest| == 1 {
          assert Join(rest, c) == rest[0];
        } else {
          assert Join(rest, c) == rest[0] + [c] + Join(rest[1..], c);
          assert parts[1..] == rest[1..];
        }
        assert s == [s[0]] + s[1..];
      }
    }
  }

  /** Splitting a separator-free prefix followed by more text extends the first part. */
  lemma {:induction false} SplitAfterPrefix(p: string, t: string, c: char)
    requires c !in p
    ensures Split(p + t, c) == [p + Split(t, c)[0]] + Split(t, c)[1..]
    decreases |p|
  {
    if |p| > 0 {
      SplitAfterPrefix(p[1..], t, c);
      assert (p + t)[1..] == p[1..] + t;
      assert (p + t)[0] == p[0];
      assert [p[0]] + (p[1..] + Split(t, c)[0]) == p + Split(t, c)[0];
    } else {
      assert p + t == t;
      assert p + Split(t, c)[0] == Split(t, c)[0];
      assert Split(t, c) == [Split(t, c)[0]] + Split(t, c)[1..];
    }
  }

  /** Splitting a joined list of separator-free parts gives back the parts. */
  lemma {:induction false} SplitJoin(parts: seq<string>, c: char)
    requires |parts| >= 1
    requires SeparatorFree(parts, c)
    ensures Split(Join(parts, c), c) == parts
    decreases |parts|
  {
    if |parts| == 1 {
      SplitAfterPrefix(parts[0], "", c);
      assert parts[0] + "" == parts[0];
    } else {
      var tail := Join(parts[1..], c);
      SplitJoin(parts[1..], c);
      assert Split([c] + tail, c) == [""] + parts[1..];
      SplitAfterPrefix(parts[0], [c] + tail, c);
      assert parts[0] + ([c] + tail) == Join(parts, c);
      assert parts[0] + "" == parts[0];
      assert [parts[0]] + parts[1..] == parts;
    }
  }

  /** Splitting at a separator splits the text on each side of it independently. */
  lemma {:induction false} SplitConcat(a: string, b: string, c: char)
    ensures Split(a + [c] + b, c) == Split(a, c) + Split(b, c)
    decreases |a|
  {
    var s := a + [c] + b;
    if |a| == 0 {
      assert s == [c] + b;
      assert s[1..] == b;
    } else {
      assert s[1..] == a[1..] + [c] + b;
      SplitConcat(a[1..], b, c);
      var x, y := Split(a[1..], c), Split(b, c);
      if a[0] == c {
        PrependAssociates("", x, y);
      } else {
        assert (x + y)[0] == x[0] && (x + y)[1..] == x[1..] + y;
        PrependAssociates([a[0]] + x[0], x[1..], y);
      }
    }
  }

  lemma PrependAssociates<T>(h: T, u: seq<T>, v: seq<T>)
    ensures [h] + (u + v) == ([h] + u) + v
  {
  }

  /** Five separator-free parts with a separator between each two split back into the five parts. */
  lemma SplitFive(p0: string, p1: string, p2: string, p3: string, p4: string, c: char)
    requires c !in p0 && c !in p1 && c !in p2 && c !in p3 && c !in p4
    ensures Split(p0 + [c] + p1 + [c] + p2 + [c] + p3 + [c] + p4, c) == [p0, p1, p2, p3, p4]
  {
    var s3 := p3 + [c] + p4;
    var s2 := p2 + [c] + s3;
    var s1 := p1 + [c] + s2;
    SingleSegment(p4, c);
    SplitCons(p3, p4, [p4], c);
    SplitCons(p2, s3, [p3, p4], c);
    SplitCons(p1, s2, [p2, p3, p4], c);
    SplitCons(p0, s1, [p1, p2, p3, p4], c);
    RegroupFive(p0, p1, p2, p3, p4, c);
  }

  /** A separator-free part before a separator adds one part in front of the split of the rest. */
  lemma SplitCons(p: string, rest: string, parts: seq<string>, c: char)
    requires c !in p && Split(rest, c) == parts
    ensures Split(p + [c] + rest, c) == [p] + parts
  {
    SingleSegment(p, c);
    SplitConcat(p, rest, c);
  }

  lemma RegroupFive<T>(p0: seq<T>, p1: seq<T>, p2: seq<T>, p3: seq<T>, p4: seq<T>, c: T)
    ensures p0 + [c] + p1 + [c] + p2 + [c] + p3 + [c] + p4
      == p0 + [c] + (p1 + [c] + (p2 + [c] + (p3 + [c] + p4)))
  {
  }

  /** Appending a part to a join appends the separator and the part. */
  lemma {:induction false} JoinSnoc(parts: seq<string>, last: string, c: char)
    requires |parts| >= 1
    ensures Join(parts + [last], c) == Join(parts, c) + [c] + last
    decreases |parts|
  {
    if |parts| == 1 {
      assert (parts + [last])[1..] == [last];
    } else {
      JoinSnoc(parts[1..], last, c);
      assert (parts + [last])[1..] == parts[1..] + [last];
    }
  }

  // ---------------------------------------------------------------------------
  // `split(c).pop()` and `split(c)[n]`
  // ---------------------------------------------------------------------------

  /** `s.split(c).pop()`: the last part of the split. */
  function LastSegment(s: string, c: char): string
  {
    var parts := Split(s, c);
    parts[|parts| - 1]
  }

  /**
   * The last segment is a suffix of `s` with no `c` in it: all of `s` when
   * `s` has no `c`, and otherwise the text after the last `c`.
   */
  lemma LastSegmentIsSuffix(s: string, c: char)
    ensures var r := LastSegment(s, c);
      && c !in r
      && |r| <= |s| && s[|s| - |r|..] == r
      && (c !in s ==> r == s)
      && (c in s ==> s[|s| - |r| - 1] == c)
  {
    var parts := Split(s, c);
    SplitSeparatorFree(s, c);
    JoinSplit(s, c);
    LastOfJoin(parts, c);
    if c !in s {
      SingleSegment(s, c);
    }
  }

  /** A string with no separator is a single segment. */
  lemma SingleSegment(s: string, c: char)
    requires c !in s
    ensures Split(s, c) == [s]
  {
    SplitJoin([s], c);
  }

  /** The joined string ends with the last part, preceded by the separator when there are several. */
  lemma {:induction false} LastOfJoin(parts: seq<string>, c: char)
    requires |parts| >= 1
    ensures var s, r := Join(parts, c), parts[|parts| - 1];
      |r| <= |s| && s[|s| - |r|..] == r && (|parts| > 1 ==> |r| < |s| && s[|s| - |r| - 1] == c)
    decreases |parts|
  {
    if |parts| > 1 {
      LastOfJoin(parts[1..], c);
    }
  }

  /** The last segment of `prefix + [c] + last` is `last` when `last` has no separator. */
  lemma LastSegmentAfterSeparator(prefix: string, last: string, c: char)
    requires c !in last
    ensures LastSegment(prefix + [c] + last, c) == last
  {
    var s := prefix + [c] + last;
    LastSegmentIsSuffix(s, c);
    assert s[|s| - |last| - 1] == c;
  }

  /** `s.split(c)[n]`: the `n`-th part, or `None` (JavaScript `undefined`) past the end. */
  function NthField(s: string, c: char, n: nat): (r: Option<string>)
    ensures r.Some? ==> c !in r.value
  {
    var parts := Split(s, c);
    SplitSeparatorFree(s, c);
    if n < |parts| then Some(parts[n]) else None
  }

  /** The `n`-th field of a joined list of separator-free fields is the `n`-th field. */
  lemma NthFieldOfJoin(parts: seq<string>, c: char, n: nat)
    requires n < |parts|
    requires SeparatorFree(parts, c)
    ensures NthField(Join(parts, c), c, n) == Some(parts[n])
  {
    SplitJoin(parts, c);
  }

  // ---------------------------------------------------------------------------
  // Decimal rendering of integers, as template literals print them
  // ---------------------------------------------------------------------------

  function DigitChar(d: nat): (ch: char)
    requires d < 10
    ensures '0' <= ch <= '9'
  {
    ('0' as int + d) as char
  }

  function DigitValue(ch: char): nat
    requires '0' <= ch <= '9'
  {
    (ch as int - '0' as int) as nat
  }

  /** The decimal digits of `n`, most significant first, with no leading zero. */
  function NatToString(n: nat): (s: string)
    decreases n
  {
    if n < 10 then [DigitChar(n)]
    else NatToString(n / 10) + [DigitChar(n % 10)]
  }

  /** Reads a string of decimal digits back as a number. */
  function ParseDigits(s: string): nat
    requires forall i :: 0 <= i < |s| ==> '0' <= s[i] <= '9'
    decreases |s|
  {
    if |s| == 0 then 0
    else ParseDigits(s[..|s| - 1]) * 10 + DigitValue(s[|s| - 1])
  }

  /** `NatToString` writes only digits, has no leading zero, and reads back as `n`. */
  lemma {:induction false} NatToStringRoundTrip(n: nat)
    ensures var s := NatToString(n);
      && |s| >= 1
      && (forall i :: 0 <= i < |s| ==> '0' <= s[i] <= '9')
      && (|s| > 1 ==> s[0] != '0')
      && ParseDigits(s) == n
    decreases n
  {
    if n >= 10 {
      var q, d := n / 10, n % 10;
      NatToStringRoundTrip(q);
      var prefix := NatToString(q);
      var s := prefix + [DigitChar(d)];
      assert NatToString(n) == s;
      assert s[..|s| - 1] == prefix;
      assert s[0] == prefix[0];
      assert DigitValue(s[|s| - 1]) == d;
      assert ParseDigits(s) == ParseDigits(prefix) * 10 + d;
      assert q * 10 + d == n;
    }
  }

  /** Different numbers are written differently. */
  lemma NatToStringInjective(m: nat, n: nat)
    requires NatToString(m) == NatToString(n)
    ensures m == n
  {
    NatToStringRoundTrip(m);
    NatToStringRoundTrip(n);
  }

  /** `String(n)` for an integer number: a minus sign before the digits of a negative one. */
  function IntToString(n: int): (s: string)
    ensures n >= 0 ==> s == NatToString(n)
    ensures n < 0 ==> |s| > 1 && s[0] == '-' && s[1..] == NatToString(-n)
  {
    if n < 0 then "-" + NatToString(-n) else NatToString(n)
  }

  /** Different integers are written differently: the sign tells them apart, then the digits. */
  lemma IntToStringInjective(m: int, n: int)
    requires IntToString(m) == IntToString(n)
    ensures m == n
  {
    if m >= 0 && n >= 0 {
      NatToStringInjective(m, n);
    } else if m < 0 && n < 0 {
      NatToStringInjective(-m, -n);
    } else if m >= 0 {
      NatToStringRoundTrip(m);
    } else {
      NatToStringRoundTrip(n);
    }
  }
}
