/**
 * Strings as the application's Python code treats them: the ordering of
 * `str` values (`<`, `>`, `sorted`) and `str.strip()`.
 */
module Text {

  /** Python's `a < b` on `str`: code point by code point, a proper prefix first. */
  predicate Less(a: string, b: string): (r: bool)
    ensures r <==> ProperPrefix(a, b) || FirstDifferenceBelow(a, b)
    decreases |a|
  {
    if |a| == 0 then
      assert a == b[..0];
      |b| > 0
    else if |b| == 0 then false
    else if a[0] != b[0] then
      HeadsDiffer(a, b);
      a[0] < b[0]
    else
      HeadsAgree(a, b);
      Less(a[1..], b[1..])
  }

  /** `a` is a proper prefix of `b`. */
  predicate ProperPrefix(a: string, b: string) {
    |a| < |b| && a == b[..|a|]
  }

  /** At the first position where `a` and `b` differ, `a` has the smaller code point. */
  ghost predicate FirstDifferenceBelow(a: string, b: string) {
    exists k :: 0 <= k < |a| && k < |b| && a[..k] == b[..k] && a[k] < b[k]
  }

  lemma HeadsDiffer(a: string, b: string)
    requires a != [] && b != [] && a[0] != b[0]
    ensures !ProperPrefix(a, b)
    ensures FirstDifferenceBelow(a, b) <==> a[0] < b[0]
  {
    if a[0] < b[0] {
      assert a[..0] == b[..0];
    }
  }

  lemma HeadsAgree(a: string, b: string)
    requires a != [] && b != [] && a[0] == b[0]
    ensures ProperPrefix(a, b) <==> ProperPrefix(a[1..], b[1..])
    ensures FirstDifferenceBelow(a, b) <==> FirstDifferenceBelow(a[1..], b[1..])
  {
    if ProperPrefix(a, b) {
      assert a[1..] == b[..|a|][1..];
    }
    if ProperPrefix(a[1..], b[1..]) {
      assert a == [a[0]] + a[1..] && b[..|a|] == [b[0]] + b[1..][..|a| - 1];
    }
    if FirstDifferenceBelow(a, b) {
      DifferenceDown(a, b);
    }
    if FirstDifferenceBelow(a[1..], b[1..]) {
      DifferenceUp(a, b);
    }
  }

  lemma DifferenceDown(a: string, b: string)
    requires a != [] && b != [] && a[0] == b[0] && FirstDifferenceBelow(a, b)
    ensures FirstDifferenceBelow(a[1..], b[1..])
  {
    var k :| 0 <= k < |a| && k < |b| && a[..k] == b[..k] && a[k] < b[k];
    assert a[1..][..k - 1] == a[..k][1..] && b[1..][..k - 1] == b[..k][1..];
    assert a[1..][k - 1] == a[k];
  }

  lemma DifferenceUp(a: string, b: string)
    requires a != [] && b != [] && a[0] == b[0] && FirstDifferenceBelow(a[1..], b[1..])
    ensures FirstDifferenceBelow(a, b)
  {
    var k :| 0 <= k < |a[1..]| && k < |b[1..]| && a[1..][..k] == b[1..][..k] && a[1..][k] < b[1..][k];
    assert a[..k + 1] == [a[0]] + a[1..][..k] && b[..k + 1] == [b[0]] + b[1..][..k];
    assert a[k + 1] == a[1..][k];
  }

  lemma {:induction false} LessIrreflexive(a: string)
    ensures !Less(a, a)
    decreases |a|
  {
    if |a| > 0 {
      LessIrreflexive(a[1..]);
    }
  }

  lemma {:induction false} LessTransitive(a: string, b: string, c: string)
    requires Less(a, b) && Less(b, c)
    ensures Less(a, c)
    decreases |a|
  {
    if |a| > 0 && a[0] == b[0] && b[0] == c[0] {
      LessTransitive(a[1..], b[1..], c[1..]);
    }
  }

  /** Any two strings are equal or ordered one way or the other. */
  lemma {:induction false} LessTotal(a: string, b: string)
    ensures a == b || Less(a, b) || Less(b, a)
    decreases |a|
  {
    if |a| > 0 && |b| > 0 && a[0] == b[0] {
      LessTotal(a[1..], b[1..]);
      if a[1..] == b[1..] {
        assert a == [a[0]] + a[1..] && b == [b[0]] + b[1..];
      }
    }
  }

  /** Strings compare by their first parts of equal length, and on a tie by the rest. */
  lemma {:induction false} LessAppend(x: string, y: string, x': string, y': string)
    requires |x| == |x'|
    ensures Less(x + y, x' + y') <==> Less(x, x') || (x == x' && Less(y, y'))
    decreases |x|
  {
    if x != [] {
      assert (x + y)[0] == x[0] && (x' + y')[0] == x'[0];
      assert (x + y)[1..] == x[1..] + y && (x' + y')[1..] == x'[1..] + y';
      LessAppend(x[1..], y, x'[1..], y');
      if x[0] == x'[0] {
        assert x == x' <==> x[1..] == x'[1..] by {
          assert x == [x[0]] + x[1..] && x' == [x'[0]] + x'[1..];
        }
      }
    } else {
      assert x + y == y && x' + y' == y';
    }
  }

  /** The characters for which Python's `str.isspace()` holds. */
  predicate IsSpace(c: char) {
    || ('\U{9}' <= c <= '\U{d}')        // tab, line feed, vertical tab, form feed, carriage return
    || ('\U{1c}' <= c <= '\U{20}')      // file/group/record/unit separators and space
    || c == '\U{85}' || c == '\U{a0}' || c == '\U{1680}'
    || ('\U{2000}' <= c <= '\U{200a}')
    || c == '\U{2028}' || c == '\U{2029}' || c == '\U{202f}' || c == '\U{205f}' || c == '\U{3000}'
  }

  /** `s.lstrip()`: the suffix left after dropping leading whitespace. */
  function StripStart(s: string): (r: string)
    ensures |r| <= |s| && r == s[|s| - |r|..]
    ensures r == [] || !IsSpace(r[0])
    ensures forall i :: 0 <= i < |s| - |r| ==> IsSpace(s[i])
    decreases |s|
  {
    if s != [] && IsSpace(s[0]) then StripStart(s[1..]) else s
  }

  /** `s.rstrip()`: the prefix left after dropping trailing whitespace. */
  function StripEnd(s: string): (r: string)
    ensures |r| <= |s| && r == s[..|r|]
    ensures r == [] || !IsSpace(r[|r| - 1])
    ensures forall i :: |r| <= i < |s| ==> IsSpace(s[i])
    decreases |s|
  {
    if s != [] && IsSpace(s[|s| - 1]) then StripEnd(s[..|s| - 1]) else s
  }

  /** `s.strip()`: whitespace removed from both ends. */
  function Strip(s: string): (r: string)
    ensures |r| <= |s|
    ensures r == [] || (!IsSpace(r[0]) && !IsSpace(r[|r| - 1]))
  {
    StripEnd(StripStart(s))
  }

  /**
   * `s.strip()` is `s` with a run of whitespace cut from each end and
   * nothing else changed: a slice of `s` outside which every character is
   * whitespace, and which itself neither starts nor ends with whitespace.
   */
  lemma StripTrims(s: string)
    ensures var r := Strip(s);
      exists a, b :: 0 <= a <= b <= |s| && r == s[a..b] && forall i :: (0 <= i < a || b <= i < |s|) ==> IsSpace(s[i])
  {
    var t := StripStart(s);
    var a := |s| - |t|;
    var b := a + |Strip(s)|;
    assert Strip(s) == t[..|Strip(s)|];
    assert Strip(s) == s[a..b];
    forall i | b <= i < |s|
      ensures IsSpace(s[i])
    {
      assert s[i] == t[i - a];
    }
  }

  /** `not s.strip()` holds exactly for strings made only of whitespace (the empty one included). */
  lemma StripEmptyIffBlank(s: string)
    ensures Strip(s) == [] <==> forall i :: 0 <= i < |s| ==> IsSpace(s[i])
  {
    var t := StripStart(s);
    if t != [] {
      assert t[0] == s[|s| - |t|];
    }
  }

  /** `s` is ordered by `key` the way Python's `sorted(s, key=key)` orders it. */
  predicate SortedBy<T>(s: seq<T>, key: T -> string) {
    forall i, j :: 0 <= i < j < |s| ==> !Less(key(s[j]), key(s[i]))
  }

  /** `s` is ordered by `key` and no two elements share a key. */
  predicate StrictlySortedBy<T>(s: seq<T>, key: T -> string) {
    forall i, j :: 0 <= i < j < |s| ==> Less(key(s[i]), key(s[j]))
  }

  /** No two elements of `s` share a key. */
  predicate DistinctKeys<T>(s: seq<T>, key: T -> string) {
    forall i, j :: 0 <= i < j < |s| ==> key(s[i]) != key(s[j])
  }

  /** Inserts `x` after every element whose key is not greater than its own. */
  function InsertBy<T>(x: T, s: seq<T>, key: T -> string): (r: seq<T>)
    requires SortedBy(s, key)
    ensures multiset(r) == multiset(s) + multiset{x}
    ensures SortedBy(r, key)
    decreases |s|
  {
    if s == [] then [x]
    else if Less(key(x), key(s[0])) then
      InsertFront(x, s, key);
      [x] + s
    else
      assert s == [s[0]] + s[1..];
      var t := InsertBy(x, s[1..], key);
      InsertBehind(s[0], x, s[1..], t, key);
      [s[0]] + t
  }

  lemma InsertFront<T>(x: T, s: seq<T>, key: T -> string)
    requires SortedBy(s, key) && s != [] && Less(key(x), key(s[0]))
    ensures SortedBy([x] + s, key)
  {
    var r := [x] + s;
    forall i, j | 0 <= i < j < |r| ensures !Less(key(r[j]), key(r[i])) {
      if i == 0 && Less(key(r[j]), key(x)) {
        LessTransitive(key(r[j]), key(x), key(s[0]));
        if j == 1 { LessIrreflexive(key(s[0])); }
      }
    }
  }

  lemma InsertBehind<T>(y: T, x: T, s: seq<T>, t: seq<T>, key: T -> string)
    requires SortedBy([y] + s, key) && !Less(key(x), key(y))
    requires SortedBy(t, key) && multiset(t) == multiset(s) + multiset{x}
    ensures SortedBy([y] + t, key)
  {
    var r := [y] + t;
    forall i, j | 0 <= i < j < |r| ensures !Less(key(r[j]), key(r[i])) {
      if i == 0 {
        assert r[j] in multiset(t);
        if r[j] != x {
          assert r[j] in s;
          var p :| 0 <= p < |s| && s[p] == r[j];
          var ys := [y] + s;
          assert ys[0] == y && ys[p + 1] == r[j];
          assert !Less(key(ys[p + 1]), key(ys[0]));
        }
      } else {
        assert r[i] == t[i - 1] && r[j] == t[j - 1];
      }
    }
  }

  /** Python's `sorted(s, key=key)` (stable). */
  function SortBy<T>(s: seq<T>, key: T -> string): (r: seq<T>)
    ensures multiset(r) == multiset(s)
    ensures SortedBy(r, key)
    decreases |s|
  {
    if s == [] then []
    else
      var k := |s| - 1;
      assert s == s[..k] + [s[k]];
      InsertBy(s[k], SortBy(s[..k], key), key)
  }

  lemma {:induction false} InsertStrict<T>(x: T, s: seq<T>, key: T -> string)
    requires StrictlySortedBy(s, key) && SortedBy(s, key)
    requires forall e :: e in s ==> key(e) != key(x)
    ensures StrictlySortedBy(InsertBy(x, s, key), key)
    decreases |s|
  {
    var r := InsertBy(x, s, key);
    if s == [] {
    } else if Less(key(x), key(s[0])) {
      forall i, j | 0 <= i < j < |r| ensures Less(key(r[i]), key(r[j])) {
        if i == 0 && j > 1 {
          LessTransitive(key(x), key(s[0]), key(s[j - 1]));
        }
      }
    } else {
      assert s == [s[0]] + s[1..];
      LessTotal(key(x), key(s[0]));
      var t := InsertBy(x, s[1..], key);
      InsertStrict(x, s[1..], key);
      assert r == [s[0]] + t;
      forall i, j | 0 <= i < j < |r| ensures Less(key(r[i]), key(r[j])) {
        if i == 0 {
          assert r[j] in multiset(t);
          if r[j] != x {
            assert r[j] in s[1..];
            var p :| 0 <= p < |s[1..]| && s[1..][p] == r[j];
            assert s[p + 1] == r[j];
          }
        }
      }
    }
  }

  /** When no two elements share a key, `sorted` yields a strictly increasing sequence. */
  lemma {:induction false} SortStrict<T>(s: seq<T>, key: T -> string)
    requires DistinctKeys(s, key)
    ensures StrictlySortedBy(SortBy(s, key), key)
    decreases |s|
  {
    if s != [] {
      var k := |s| - 1;
      assert s == s[..k] + [s[k]];
      SortStrict(s[..k], key);
      var t := SortBy(s[..k], key);
      forall e | e in t ensures key(e) != key(s[k]) {
        assert e in multiset(t);
        var p :| 0 <= p < k && s[..k][p] == e;
        assert s[p] == e;
      }
      InsertStrict(s[k], t, key);
    }
  }

  /** The first element of a sorted non-empty sequence has the least key. */
  lemma SortedFirstIsLeast<T>(s: seq<T>, key: T -> string, e: T)
    requires SortedBy(s, key) && e in s
    ensures !Less(key(e), key(s[0])) && !Less(key(s[|s| - 1]), key(e))
  {
    var p :| 0 <= p < |s| && s[p] == e;
    LessIrreflexive(key(e));
    if p > 0 {
      assert !Less(key(s[p]), key(s[0]));
    }
    if p < |s| - 1 {
      assert !Less(key(s[|s| - 1]), key(s[p]));
    }
  }
}
