/**
 * The JavaScript string and array operations the infrastructure code relies
 * on: `String.prototype.replaceAll`, `String.prototype.replace` with a string
 * pattern, `Array.prototype.join`, the `[...new Set(xs)]` idiom and the
 * decimal rendering of a number inside a template literal.
 */
module Text {

  /** A replacement string that `replaceAll` inserts literally: JavaScript
      gives `$$`, `$&`, `` $` `` and `$'` a special meaning in replacements. */
  predicate DollarFree(s: string) {
    '$' !in s
  }

  predicate AllDollarFree(ss: seq<string>) {
    forall i :: 0 <= i < |ss| ==> DollarFree(ss[i])
  }

  predicate StartsWith(s: string, p: string) {
    |p| <= |s| && s[..|p|] == p
  }

  /** `p` occurs somewhere in `s` (`s.includes(p)`). */
  predicate Contains(s: string, p: string)
    decreases |s|
  {
    StartsWith(s, p) || (s != [] && Contains(s[1..], p))
  }

  /** `s.replaceAll(pat, rep)`: scans left to right and replaces every
      non-overlapping occurrence of `pat`; an empty pattern matches before
      every character and at the end. */
  function ReplaceAll(s: string, pat: string, rep: string): string
    requires DollarFree(rep)
    decreases |s|
  {
    if pat == [] then
      if s == [] then rep else rep + [s[0]] + ReplaceAll(s[1..], pat, rep)
    else if |s| < |pat| then s
    else if s[..|pat|] == pat then rep + ReplaceAll(s[|pat|..], pat, rep)
    else [s[0]] + ReplaceAll(s[1..], pat, rep)
  }

  /** `s.replace(pat, rep)` with a string pattern: only the first occurrence. */
  function ReplaceFirst(s: string, pat: string, rep: string): string
    requires DollarFree(rep)
    decreases |s|
  {
    if pat == [] then rep + s
    else if |s| < |pat| then s
    else if s[..|pat|] == pat then rep + s[|pat|..]
    else [s[0]] + ReplaceFirst(s[1..], pat, rep)
  }

  /** `ss.join(sep)`. */
  function Join(ss: seq<string>, sep: string): string
    decreases |ss|
  {
    if ss == [] then "" else if |ss| == 1 then ss[0] else ss[0] + sep + Join(ss[1..], sep)
  }

  /** `s` with every `c` dropped. */
  function Without(s: string, c: char): string
    decreases |s|
  {
    if s == [] then [] else (if s[0] == c then [] else [s[0]]) + Without(s[1..], c)
  }

  /** The first position of `c` in `s`. */
  function IndexOf(s: string, c: char): (k: nat)
    requires c in s
    ensures k < |s| && s[k] == c && c !in s[..k]
    decreases |s|
  {
    if s[0] == c then 0
    else
      var k := IndexOf(s[1..], c);
      assert s[1..][..k] == s[1..k + 1];
      assert s[..k + 1] == [s[0]] + s[1..k + 1];
      k + 1
  }

  predicate NoDup<T(==)>(s: seq<T>) {
    forall i, j :: 0 <= i < j < |s| ==> s[i] != s[j]
  }

  /** `[...new Set(s)]`: the distinct elements of `s`, each at the place of
      its first occurrence. */
  function Dedup<T(==)>(s: seq<T>): (r: seq<T>)
    ensures NoDup(r)
    ensures forall i :: 0 <= i < |r| ==> r[i] in s
    ensures forall i :: 0 <= i < |s| ==> s[i] in r
    decreases |s|
  {
    if s == [] then []
    else
      var d := Dedup(s[..|s| - 1]);
      assert s == s[..|s| - 1] + [s[|s| - 1]];
      if s[|s| - 1] in d then d else d + [s[|s| - 1]]
  }

  /** The position of the first occurrence of `x` in `s`. */
  function FirstIndex<T(==)>(s: seq<T>, x: T): (k: nat)
    requires x in s
    ensures k < |s| && s[k] == x && x !in s[..k]
    decreases |s|
  {
    if s[0] == x then 0
    else
      var k := FirstIndex(s[1..], x);
      assert s[1..][..k] == s[1..k + 1];
      assert s[..k + 1] == [s[0]] + s[1..k + 1];
      k + 1
  }

  function DigitChar(d: nat): (c: char)
    requires d < 10
    ensures '0' <= c <= '9'
  {
    (('0' as int) + d) as char
  }

  /** The decimal text of `n`, as a template literal renders a number. */
  function NatToString(n: nat): string
    decreases n
  {
    if n < 10 then [DigitChar(n)] else NatToString(n / 10) + [DigitChar(n % 10)]
  }

  // ---------------------------------------------------------------------
  // replaceAll

  /** Replacing a pattern that does not occur changes nothing. */
  lemma {:induction false} ReplaceAllAbsent(s: string, pat: string, rep: string)
    requires DollarFree(rep) && pat != [] && !Contains(s, pat)
    ensures ReplaceAll(s, pat, rep) == s
    decreases |s|
  {
    if |s| >= |pat| {
      assert !StartsWith(s, pat);
      ReplaceAllAbsent(s[1..], pat, rep);
      assert [s[0]] + s[1..] == s;
    }
  }

  /** A pattern at the front is replaced and the scan resumes after it. */
  lemma ReplaceAllAtFront(pat: string, t: string, rep: string)
    requires DollarFree(rep) && pat != []
    ensures ReplaceAll(pat + t, pat, rep) == rep + ReplaceAll(t, pat, rep)
  {
    assert (pat + t)[..|pat|] == pat;
    assert (pat + t)[|pat|..] == t;
  }

  /** A pattern that has a character the string lacks does not occur in it. */
  lemma {:induction false} AbsentByChar(s: string, p: string, c: char)
    requires c in p && c !in s
    ensures !Contains(s, p)
    decreases |s|
  {
    if s != [] {
      AbsentByChar(s[1..], p, c);
    }
  }

  /** No occurrence of `p` can start inside `a` when `p`'s second character
      is neither in `a` nor the first of `t`: the scan copies `a` unchanged. */
  lemma {:induction false} ReplaceAllSkipPrefix(a: string, t: string, p: string, rep: string)
    requires DollarFree(rep) && |p| >= 2 && p[1] !in a && (t != [] ==> t[0] != p[1])
    ensures ReplaceAll(a + t, p, rep) == a + ReplaceAll(t, p, rep)
    decreases |a|
  {
    if a != [] {
      var s := a + t;
      assert s[1..] == a[1..] + t;
      if |s| >= |p| {
        assert s[..|p|][1] == s[1];
        assert s[1] != p[1];
      }
      ReplaceAllSkipPrefix(a[1..], t, p, rep);
    } else {
      assert a + t == t;
    }
  }

  /** Replacing one character by another maps the string character by character. */
  lemma {:induction false} ReplaceCharIsMap(s: string, c: char, d: char)
    requires d != '$'
    ensures |ReplaceAll(s, [c], [d])| == |s|
    ensures forall i :: 0 <= i < |s| ==> ReplaceAll(s, [c], [d])[i] == (if s[i] == c then d else s[i])
    decreases |s|
  {
    if s != [] {
      ReplaceCharIsMap(s[1..], c, d);
      var tail := ReplaceAll(s[1..], [c], [d]);
      assert ReplaceAll(s, [c], [d]) == (if s[0] == c then [d] else [s[0]]) + tail;
    }
  }

  /** Replacing one character by the empty string drops every occurrence of it. */
  lemma {:induction false} ReplaceCharByEmpty(s: string, c: char)
    ensures ReplaceAll(s, [c], "") == Without(s, c)
    decreases |s|
  {
    if s != [] {
      ReplaceCharByEmpty(s[1..], c);
    }
  }

  lemma {:induction false} WithoutSpec(s: string, c: char)
    ensures c !in Without(s, c)
    ensures forall x :: x in Without(s, c) <==> x in s && x != c
    decreases |s|
  {
    if s != [] {
      WithoutSpec(s[1..], c);
      assert s == [s[0]] + s[1..];
    }
  }

  /** Dropping a character that does not occur changes nothing. */
  lemma {:induction false} WithoutAbsent(s: string, c: char)
    requires c !in s
    ensures Without(s, c) == s
    decreases |s|
  {
    if s != [] {
      assert s == [s[0]] + s[1..];
      WithoutAbsent(s[1..], c);
    }
  }

  lemma {:induction false} WithoutConcat(a: string, b: string, c: char)
    ensures Without(a + b, c) == Without(a, c) + Without(b, c)
    decreases |a|
  {
    if a != [] {
      assert (a + b)[1..] == a[1..] + b;
      WithoutConcat(a[1..], b, c);
    } else {
      assert a + b == b;
    }
  }

  // ---------------------------------------------------------------------
  // replace (first occurrence)

  /** `s.replace(c, "")` removes exactly the first `c`, if there is one. */
  lemma {:induction false} ReplaceFirstChar(s: string, c: char)
    ensures c !in s ==> ReplaceFirst(s, [c], "") == s
    ensures c in s ==> ReplaceFirst(s, [c], "") == s[..IndexOf(s, c)] + s[IndexOf(s, c) + 1..]
    decreases |s|
  {
    if s != [] && s[0] != c {
      ReplaceFirstChar(s[1..], c);
      assert s == [s[0]] + s[1..];
      if c in s {
        var k := IndexOf(s[1..], c);
        assert s[..k + 1] == [s[0]] + s[1..][..k];
        assert s[k + 2..] == s[1..][k + 1..];
      }
    }
  }

  /** Joining `a`, `c` and `b` and removing the first `c`: when `a` has no `c`,
      the `c` dropped is the one in the middle. */
  lemma ReplaceFirstAfterPrefix(a: string, c: char, b: string)
    requires c !in a
    ensures ReplaceFirst(a + [c] + b, [c], "") == a + b
  {
    var s := a + [c] + b;
    ReplaceFirstChar(s, c);
    assert s[..|a|] == a;
    assert s[|a| + 1..] == b;
    var k := IndexOf(s, c);
    assert s[|a|] == c;
    assert k == |a|;
  }

  /** The first `c` of `a + b` is the first of `a`, when `a` has one. */
  lemma {:induction false} IndexOfInPrefix(a: string, b: string, c: char)
    requires c in a
    ensures c in a + b && IndexOf(a + b, c) == IndexOf(a, c)
    decreases |a|
  {
    assert (a + b)[0] == a[0];
    if a[0] != c {
      assert a == [a[0]] + a[1..];
      assert (a + b)[1..] == a[1..] + b;
      IndexOfInPrefix(a[1..], b, c);
    }
  }

  /** Joining `a` and `b` and removing the first `c`: when `a` has a `c`,
      the `c` dropped is the first one of `a`, and `b` is kept whole. */
  lemma ReplaceFirstInPrefix(a: string, c: char, b: string)
    requires c in a
    ensures ReplaceFirst(a + b, [c], "") == a[..IndexOf(a, c)] + a[IndexOf(a, c) + 1..] + b
  {
    var k := IndexOf(a, c);
    ReplaceFirstChar(a + b, c);
    IndexOfInPrefix(a, b, c);
    assert (a + b)[..k] == a[..k];
    assert (a + b)[k + 1..] == a[k + 1..] + b;
  }

  // ---------------------------------------------------------------------
  // join

  lemma {:induction false} JoinDollarFree(ss: seq<string>, sep: string)
    requires DollarFree(sep) && AllDollarFree(ss)
    ensures DollarFree(Join(ss, sep))
    decreases |ss|
  {
    if |ss| > 1 {
      JoinDollarFree(ss[1..], sep);
    }
  }

  // ---------------------------------------------------------------------
  // [...new Set(s)]

  /** The deduplication of `a` is a prefix of that of `a + b`: elements of `a`
      keep their places and come first. */
  lemma {:induction false} DedupPrefix<T>(a: seq<T>, b: seq<T>)
    ensures Dedup(a) <= Dedup(a + b)
    decreases |b|
  {
    if b == [] {
      assert a + b == a;
    } else {
      var ab := a + b;
      var b' := b[..|b| - 1];
      assert ab[..|ab| - 1] == a + b';
      DedupPrefix(a, b');
      var d := Dedup(a + b');
      assert Dedup(ab) == d || Dedup(ab) == d + [ab[|ab| - 1]];
    }
  }

  /** A sequence without duplicates is its own deduplication. */
  lemma {:induction false} DedupOfNoDup<T>(s: seq<T>)
    requires NoDup(s)
    ensures Dedup(s) == s
    decreases |s|
  {
    if s != [] {
      var init := s[..|s| - 1];
      assert NoDup(init);
      DedupOfNoDup(init);
      assert s[|s| - 1] !in init;
      assert s == init + [s[|s| - 1]];
    }
  }

  /** The deduplication lists elements in the order of their first occurrence. */
  lemma {:induction false} DedupOrder<T>(s: seq<T>, i: nat, j: nat)
    requires i < j < |Dedup(s)|
    ensures FirstIndex(s, Dedup(s)[i]) < FirstIndex(s, Dedup(s)[j])
    decreases |s|
  {
    var n := |s| - 1;
    var init := s[..n];
    var d := Dedup(init);
    assert s == init + [s[n]];
    var x, y := Dedup(s)[i], Dedup(s)[j];
    assert x in d;
    FirstIndexOfPrefix(init, s[n], x);
    if j < |d| {
      DedupOrder(init, i, j);
      FirstIndexOfPrefix(init, s[n], y);
    } else {
      assert y == s[n] && y !in init;
      assert s[..n] == init;
    }
  }

  // ---------------------------------------------------------------------
  // Decimal text

  lemma {:induction false} NatToStringLength(n: nat)
    ensures |NatToString(n)| >= 1
    ensures n >= 10 ==> |NatToString(n)| >= 2
    decreases n
  {
    if n >= 10 {
      NatToStringLength(n / 10);
    }
  }

  /** Different numbers have different decimal texts. */
  lemma {:induction false} NatToStringInjective(a: nat, b: nat)
    requires NatToString(a) == NatToString(b)
    ensures a == b
    decreases a
  {
    NatToStringLength(a);
    NatToStringLength(b);
    if a >= 10 && b >= 10 {
      var sa, sb := NatToString(a), NatToString(b);
      assert sa[|sa| - 1] == DigitChar(a % 10) && sb[|sb| - 1] == DigitChar(b % 10);
      assert sa[..|sa| - 1] == NatToString(a / 10);
      assert sb[..|sb| - 1] == NatToString(b / 10);
      NatToStringInjective(a / 10, b / 10);
    }
  }

  lemma FirstIndexOfPrefix<T>(init: seq<T>, last: T, x: T)
    requires x in init
    ensures FirstIndex(init + [last], x) == FirstIndex(init, x)
  {
    var s := init + [last];
    assert s[FirstIndex(init, x)] == x;
  }

  /** A prefix of a prefix is a prefix. */
  lemma PrefixTrans<T>(a: seq<T>, b: seq<T>, c: seq<T>)
    requires a <= b && b <= c
    ensures a <= c && c[..|a|] == a
  {
    assert c[..|b|][..|a|] == c[..|a|];
  }

  /** Concatenation regrouped, for sequences built step by step. */
  lemma AppendAssoc<T>(a: seq<T>, b: seq<T>, c: seq<T>, d: seq<T>)
    ensures a + b + c == a + (b + c)
    ensures a + b + c + d == a + (b + c + d)
  {
  }
}
