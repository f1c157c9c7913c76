/**
 * String helpers with Python's meaning: ASCII lower-casing, prefix tests,
 * decimal rendering of integers, `str.replace(pat, "")` and `sorted` on `str`.
 */
module Text {

  /** `isdigit` restricted to the ASCII digits (Python also accepts other Unicode digits). */
  predicate IsDigit(c: char) {
    '0' <= c <= '9'
  }

  /** `str.lower` on one character, ASCII letters only. */
  function LowerChar(c: char): char {
    if 'A' <= c <= 'Z' then (c as int + 32) as char else c
  }

  function Lower(s: string): (r: string)
    ensures |r| == |s|
    ensures forall i :: 0 <= i < |s| ==> r[i] == LowerChar(s[i])
  {
    if s == [] then [] else [LowerChar(s[0])] + Lower(s[1..])
  }

  predicate StartsWith(s: string, prefix: string) {
    |prefix| <= |s| && s[..|prefix|] == prefix
  }

  /** `pat` occurs in `s` starting at position `i`. */
  predicate OccursAt(s: string, pat: string, i: nat) {
    i + |pat| <= |s| && s[i..i + |pat|] == pat
  }

  /** True when `pat` occurs nowhere in `s`. */
  predicate Free(s: string, pat: string) {
    forall i: nat :: i <= |s| ==> !OccursAt(s, pat, i)
  }

  function DigitChar(d: nat): (c: char)
    requires d < 10
    ensures IsDigit(c)
  {
    ('0' as int + d) as char
  }

  function DigitValue(c: char): (d: nat)
    requires IsDigit(c)
    ensures d < 10 && DigitChar(d) == c
  {
    c as int - '0' as int
  }

  predicate AllDigits(s: string) {
    forall i :: 0 <= i < |s| ==> IsDigit(s[i])
  }

  /** Python's `str(n)` / `f"{n}"` for a non-negative integer. */
  function NatToString(n: nat): (s: string)
    ensures |s| >= 1 && AllDigits(s)
    ensures s[0] == '0' ==> n == 0
  {
    if n < 10 then [DigitChar(n)] else NatToString(n / 10) + [DigitChar(n % 10)]
  }

  /** The number a string of decimal digits denotes. */
  function DigitsValue(s: string): nat
    requires AllDigits(s)
  {
    if s == [] then 0 else DigitsValue(s[..|s| - 1]) * 10 + DigitValue(s[|s| - 1])
  }

  lemma {:induction false} NatToStringRoundTrip(n: nat)
    ensures DigitsValue(NatToString(n)) == n
  {
    if n >= 10 {
      var s := NatToString(n);
      assert s[..|s| - 1] == NatToString(n / 10);
      NatToStringRoundTrip(n / 10);
    }
  }

  lemma NatToStringInjective(a: nat, b: nat)
    requires NatToString(a) == NatToString(b)
    ensures a == b
  {
    NatToStringRoundTrip(a);
    NatToStringRoundTrip(b);
  }

  /**
   * Python's `f"{n:02d}"`: the decimal digits of `n`, padded with zeros to
   * width 2; a minus sign counts towards the width.
   */
  function Pad2(n: int): (s: string)
    ensures 0 <= n < 100 ==> |s| == 2 && AllDigits(s) && DigitValue(s[0]) * 10 + DigitValue(s[1]) == n
    ensures n >= 100 ==> s == NatToString(n)
    ensures n < 0 ==> |s| >= 2 && s[0] == '-' && s[1..] == NatToString(-n)
  {
    if 0 <= n < 100 then [DigitChar(n / 10), DigitChar(n % 10)]
    else if n >= 100 then NatToString(n)
    else ['-'] + NatToString(-n)
  }

  /**
   * `s.replace(pat, "")`: every occurrence of `pat` found by a left-to-right
   * scan is removed, the scan resuming after the removed text.
   */
  function RemoveAll(s: string, pat: string): (r: string)
    requires |pat| > 0
    ensures |r| <= |s|
    decreases |s|
  {
    if StartsWith(s, pat) then RemoveAll(s[|pat|..], pat)
    else if s == [] then []
    else [s[0]] + RemoveAll(s[1..], pat)
  }

  lemma {:induction false} RemoveAllFree(s: string, pat: string)
    requires |pat| > 0 && Free(s, pat)
    ensures RemoveAll(s, pat) == s
    decreases |s|
  {
    if s != [] {
      assert !StartsWith(s, pat) by {
        assert !OccursAt(s, pat, 0);
      }
      assert Free(s[1..], pat) by {
        forall i: nat | i <= |s[1..]| ensures !OccursAt(s[1..], pat, i) {
          assert !OccursAt(s, pat, i + 1);
          if i + |pat| <= |s[1..]| {
            assert s[1..][i..i + |pat|] == s[i + 1..i + 1 + |pat|];
          }
        }
      }
      RemoveAllFree(s[1..], pat);
    }
  }

  /**
   * The scan keeps everything before the first occurrence, drops that
   * occurrence and goes on after it; with `RemoveAllFree` this pins
   * `RemoveAll` down on every string.
   */
  lemma {:induction false} RemoveAllFirst(x: string, pat: string, y: string)
    requires |pat| > 0 && forall i: nat :: i < |x| ==> !OccursAt(x + pat + y, pat, i)
    ensures RemoveAll(x + pat + y, pat) == x + RemoveAll(y, pat)
    decreases |x|
  {
    var s := x + pat + y;
    if x == [] {
      assert s == pat + y && StartsWith(s, pat);
      assert s[|pat|..] == y;
      assert RemoveAll(s, pat) == RemoveAll(y, pat);
    } else {
      assert !StartsWith(s, pat) by {
        assert !OccursAt(s, pat, 0);
      }
      var x' := x[1..];
      assert s[1..] == x' + pat + y;
      forall i: nat | i < |x'| ensures !OccursAt(x' + pat + y, pat, i) {
        assert !OccursAt(s, pat, i + 1);
        assert s[i + 1..i + 1 + |pat|] == (x' + pat + y)[i..i + |pat|];
      }
      assert RemoveAll(s, pat) == [s[0]] + RemoveAll(s[1..], pat);
      RemoveAllFirst(x', pat, y);
      assert [s[0]] + (x' + RemoveAll(y, pat)) == x + RemoveAll(y, pat);
    }
  }

  /** Removing a leading `pat` from a name that holds no other occurrence gives back the tail. */
  lemma RemoveAllPrefixOnly(t: string, pat: string)
    requires |pat| > 0 && Free(t, pat)
    ensures RemoveAll(pat + t, pat) == t
  {
    assert StartsWith(pat + t, pat);
    assert (pat + t)[|pat|..] == t;
    RemoveAllFree(t, pat);
  }

  /** Python's `<=` on `str`: lexicographic by code point, a prefix first. */
  predicate LexLe(a: string, b: string)
    decreases |a|
  {
    |a| == 0 || (|b| > 0 && (a[0] < b[0] || (a[0] == b[0] && LexLe(a[1..], b[1..]))))
  }

  lemma {:induction false} LexLeReflexive(a: string)
    ensures LexLe(a, a)
    decreases |a|
  {
    if |a| > 0 { LexLeReflexive(a[1..]); }
  }

  lemma {:induction false} LexLeTotal(a: string, b: string)
    ensures LexLe(a, b) || LexLe(b, a)
    decreases |a|
  {
    if |a| > 0 && |b| > 0 && a[0] == b[0] {
      LexLeTotal(a[1..], b[1..]);
    }
  }

  lemma {:induction false} LexLeTransitive(a: string, b: string, c: string)
    requires LexLe(a, b) && LexLe(b, c)
    ensures LexLe(a, c)
    decreases |a|
  {
    if |a| > 0 && a[0] == b[0] && b[0] == c[0] {
      LexLeTransitive(a[1..], b[1..], c[1..]);
    }
  }

  lemma {:induction false} LexLeAntisymmetric(a: string, b: string)
    requires LexLe(a, b) && LexLe(b, a)
    ensures a == b
    decreases |a|
  {
    if |a| > 0 {
      LexLeAntisymmetric(a[1..], b[1..]);
      assert a == [a[0]] + a[1..] && b == [b[0]] + b[1..];
    }
  }

  predicate Sorted(s: seq<string>) {
    forall i, j :: 0 <= i < j < |s| ==> LexLe(s[i], s[j])
  }

  function Insert(x: string, s: seq<string>): (r: seq<string>)
    requires Sorted(s)
    ensures Sorted(r) && multiset(r) == multiset(s) + multiset{x}
  {
    if s == [] then [x]
    else if LexLe(x, s[0]) then
      assert Sorted([x] + s) by {
        forall i, j | 0 <= i < j < |s| + 1 ensures LexLe(([x] + s)[i], ([x] + s)[j]) {
          if i == 0 && j > 1 { LexLeTransitive(x, s[0], s[j - 1]); }
        }
      }
      [x] + s
    else
      var rest := Insert(x, s[1..]);
      LexLeTotal(x, s[0]);
      assert Sorted([s[0]] + rest) by {
        forall j | 0 <= j < |rest| ensures LexLe(s[0], rest[j]) {
          assert rest[j] in multiset(rest);
          if rest[j] != x {
            assert rest[j] in multiset(s[1..]);
            var k :| 0 <= k < |s[1..]| && s[1..][k] == rest[j];
            assert s[k + 1] == rest[j];
          }
        }
      }
      assert s == [s[0]] + s[1..];
      [s[0]] + rest
  }

  /** Python's `sorted` on a list of strings. */
  function SortStrings(s: seq<string>): (r: seq<string>)
    ensures Sorted(r) && multiset(r) == multiset(s)
  {
    if s == [] then []
    else
      assert s == s[..|s| - 1] + [s[|s| - 1]];
      Insert(s[|s| - 1], SortStrings(s[..|s| - 1]))
  }

  /** The head of a sorted list comes first among its elements. */
  lemma SortedHeadLeast(a: seq<string>, x: string)
    requires Sorted(a) && x in a
    ensures LexLe(a[0], x)
  {
    var i :| 0 <= i < |a| && a[i] == x;
    if i == 0 { LexLeReflexive(x); }
  }

  /** Dropping the head of a sorted list leaves a sorted list with one element fewer. */
  lemma SortedTail(a: seq<string>)
    requires Sorted(a) && a != []
    ensures Sorted(a[1..]) && multiset(a[1..]) == multiset(a) - multiset{a[0]}
  {
    assert a == [a[0]] + a[1..];
  }

  /** Two sorted arrangements of one multiset start alike and continue with sorted arrangements of one multiset. */
  lemma SortedHeads(a: seq<string>, b: seq<string>)
    requires Sorted(a) && Sorted(b) && multiset(a) == multiset(b) && a != []
    ensures |b| == |a| && a[0] == b[0]
    ensures Sorted(a[1..]) && Sorted(b[1..]) && multiset(a[1..]) == multiset(b[1..])
  {
    assert |b| == |a| by { assert |multiset(a)| == |multiset(b)|; }
    assert b[0] in multiset(a) && a[0] in multiset(b);
    SortedHeadLeast(a, b[0]);
    SortedHeadLeast(b, a[0]);
    LexLeAntisymmetric(a[0], b[0]);
    SortedTail(a);
    SortedTail(b);
  }

  /** There is only one sorted arrangement of a multiset of strings. */
  lemma {:induction false} SortedUnique(a: seq<string>, b: seq<string>)
    requires Sorted(a) && Sorted(b) && multiset(a) == multiset(b)
    ensures a == b
    decreases |a|
  {
    if a == [] {
      assert |multiset(b)| == 0;
    } else {
      SortedHeads(a, b);
      SortedUnique(a[1..], b[1..]);
      assert a == [a[0]] + a[1..] && b == [b[0]] + b[1..];
    }
  }
}
