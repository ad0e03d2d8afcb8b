/** Python's `sorted` on file names: strings ordered by code point, lexicographically, a proper
    prefix before its extensions. `Sort` is `sorted(list)`, which keeps repeated names;
    `SortDistinct` is `sorted(set(...))`, which lists every name once. */
module Sorting {

  /** Python's `a < b` on `str`. */
  predicate StrLess(a: string, b: string)
  {
    if |a| == 0 then |b| > 0
    else if |b| == 0 then false
    else if a[0] < b[0] then true
    else if a[0] == b[0] then StrLess(a[1..], b[1..])
    else false
  }

  lemma {:induction false} StrLessIrreflexive(a: string)
    ensures !StrLess(a, a)
  {
    if |a| > 0 {
      StrLessIrreflexive(a[1..]);
    }
  }

  lemma {:induction false} StrLessAsymmetric(a: string, b: string)
    ensures StrLess(a, b) ==> !StrLess(b, a)
  {
    if |a| > 0 && |b| > 0 && a[0] == b[0] {
      StrLessAsymmetric(a[1..], b[1..]);
    }
  }

  lemma {:induction false} StrLessTrichotomy(a: string, b: string)
    ensures a == b || StrLess(a, b) || StrLess(b, a)
  {
    if |a| > 0 && |b| > 0 && a[0] == b[0] {
      StrLessTrichotomy(a[1..], b[1..]);
      if a[1..] == b[1..] {
        assert a == [a[0]] + a[1..] && b == [b[0]] + b[1..];
      }
    }
  }

  lemma {:induction false} StrLessTransitive(a: string, b: string, c: string)
    requires StrLess(a, b) && StrLess(b, c)
    ensures StrLess(a, c)
  {
    if |a| > 0 && a[0] == b[0] && b[0] == c[0] {
      StrLessTransitive(a[1..], b[1..], c[1..]);
    }
  }

  /** No name is greater than a later one (the order `sorted` produces). */
  ghost predicate Ascending(s: seq<string>)
  {
    forall i, j :: 0 <= i < j < |s| ==> !StrLess(s[j], s[i])
  }

  /** Every name is less than every later one: ascending with no repeats. */
  ghost predicate StrictlyAscending(s: seq<string>)
  {
    forall i, j :: 0 <= i < j < |s| ==> StrLess(s[i], s[j])
  }

  /** A name no later name is below can head an ascending list. */
  lemma ConsAscending(h: string, rest: seq<string>)
    requires Ascending(rest)
    requires forall k :: 0 <= k < |rest| ==> !StrLess(rest[k], h)
    ensures Ascending([h] + rest)
  {
  }

  /** A name not above the head of an ascending list is not above any of its names. */
  lemma BelowHead(x: string, s: seq<string>)
    requires Ascending(s) && s != [] && !StrLess(s[0], x)
    ensures forall k :: 0 <= k < |s| ==> !StrLess(s[k], x)
  {
    forall k | 0 <= k < |s| ensures !StrLess(s[k], x) {
      StrLessTrichotomy(s[0], s[k]);
      if StrLess(s[0], s[k]) && StrLess(s[k], x) {
        StrLessTransitive(s[0], s[k], x);
      }
    }
  }

  /** The head of an ascending list is not above `x` nor above any later name, so it is not
      above any name of their combination. */
  lemma HeadNotAbove(x: string, s: seq<string>, rest: seq<string>)
    requires Ascending(s) && s != [] && StrLess(s[0], x)
    requires multiset(rest) == multiset(s[1..]) + multiset{x}
    ensures forall k :: 0 <= k < |rest| ==> !StrLess(rest[k], s[0])
  {
    forall k | 0 <= k < |rest| ensures !StrLess(rest[k], s[0]) {
      assert rest[k] in multiset(rest);
      if rest[k] == x {
        StrLessAsymmetric(s[0], x);
      } else {
        assert rest[k] in multiset(s[1..]);
        var m :| 0 <= m < |s[1..]| && s[1..][m] == rest[k];
        assert s[m + 1] == rest[k];
      }
    }
  }

  /** Places `x` in front of the first name not below it. */
  function Insert(x: string, s: seq<string>): (r: seq<string>)
    requires Ascending(s)
    ensures Ascending(r)
    ensures multiset(r) == multiset(s) + multiset{x}
  {
    if s == [] then [x]
    else if !StrLess(s[0], x) then
      BelowHead(x, s);
      ConsAscending(x, s);
      [x] + s
    else
      assert s == [s[0]] + s[1..];
      var rest := Insert(x, s[1..]);
      HeadNotAbove(x, s, rest);
      ConsAscending(s[0], rest);
      [s[0]] + rest
  }

  /** `sorted(names)`: the same names, repeats included, in ascending order. */
  function Sort(names: seq<string>): (r: seq<string>)
    ensures Ascending(r)
    ensures multiset(r) == multiset(names)
  {
    if names == [] then []
    else
      var init := names[..|names| - 1];
      assert names == init + [names[|names| - 1]];
      Insert(names[|names| - 1], Sort(init))
  }

  /** Adds `x` to a strictly ascending list unless it is already there. */
  function InsertNew(x: string, s: seq<string>): (r: seq<string>)
    requires StrictlyAscending(s)
    ensures StrictlyAscending(r)
    ensures forall y :: y in r <==> y == x || y in s
  {
    if s == [] then [x]
    else if x == s[0] then s
    else if StrLess(x, s[0]) then
      assert StrictlyAscending([x] + s) by {
        forall k | 0 <= k < |s| ensures StrLess(x, s[k]) {
          if k > 0 {
            StrLessTransitive(x, s[0], s[k]);
          }
        }
      }
      [x] + s
    else
      StrLessTrichotomy(x, s[0]);
      assert s == [s[0]] + s[1..];
      var rest := InsertNew(x, s[1..]);
      assert StrictlyAscending([s[0]] + rest) by {
        forall k | 0 <= k < |rest| ensures StrLess(s[0], rest[k]) {
          assert rest[k] in rest;
          if rest[k] != x {
            var m :| 0 <= m < |s[1..]| && s[1..][m] == rest[k];
            assert s[m + 1] == rest[k];
          }
        }
      }
      [s[0]] + rest
  }

  /** `sorted(set(names))`: every name of `names` exactly once, in ascending order. */
  function SortDistinct(names: seq<string>): (r: seq<string>)
    ensures StrictlyAscending(r)
    ensures forall y :: y in r <==> y in names
  {
    if names == [] then []
    else
      var init := names[..|names| - 1];
      assert names == init + [names[|names| - 1]];
      InsertNew(names[|names| - 1], SortDistinct(init))
  }

  /** A set has one ascending enumeration only, so `SortDistinct` is the list that Python's
      `sorted` returns for that set, whichever order the set was built in. */
  lemma {:induction false} StrictlyAscendingUnique(a: seq<string>, b: seq<string>)
    requires StrictlyAscending(a) && StrictlyAscending(b)
    requires forall y :: y in a <==> y in b
    ensures a == b
  {
    assert a != [] ==> a[0] in b;
    assert b != [] ==> b[0] in a;
    if a != [] && b != [] {
      assert a[0] in b;
      var k :| 0 <= k < |b| && b[k] == a[0];
      assert b[0] in a;
      var m :| 0 <= m < |a| && a[m] == b[0];
      if k > 0 && m > 0 {
        StrLessAsymmetric(a[0], b[0]);
      }
      if k > 0 && m == 0 {
        StrLessIrreflexive(b[0]);
      }
      if k == 0 && m > 0 {
        StrLessIrreflexive(a[0]);
      }
      assert a[0] == b[0];
      forall y ensures y in a[1..] <==> y in b[1..] {
        if y in a[1..] {
          var i :| 1 <= i < |a| && a[i] == y;
          StrLessIrreflexive(y);
          assert y in b;
          var j :| 0 <= j < |b| && b[j] == y;
          assert j != 0;
          assert b[1..][j - 1] == y;
        }
        if y in b[1..] {
          var j :| 1 <= j < |b| && b[j] == y;
          StrLessIrreflexive(y);
          assert y in a;
          var i :| 0 <= i < |a| && a[i] == y;
          assert i != 0;
          assert a[1..][i - 1] == y;
        }
      }
      StrictlyAscendingUnique(a[1..], b[1..]);
      assert a == [a[0]] + a[1..] && b == [b[0]] + b[1..];
    }
  }
}
