/**
 * Sorting distinct strings into ascending code-point order: what `Array.from(set).sort()`
 * in the chart and `sorted(d.keys())` in the scraper compute. For distinct elements any
 * correct sort gives the same sequence, so insertion sort stands for both.
 */
module Ordering {
  import opened Text

  predicate StrictlyAscending(s: seq<string>) {
    forall i, j :: 0 <= i < j < |s| ==> Less(s[i], s[j])
  }

  predicate Distinct<T(==)>(s: seq<T>) {
    forall i, j :: 0 <= i < j < |s| ==> s[i] != s[j]
  }

  function Elements<T>(s: seq<T>): set<T> {
    set x | x in s
  }

  lemma AscendingIsDistinct(s: seq<string>)
    requires StrictlyAscending(s)
    ensures Distinct(s)
  {
    forall i, j | 0 <= i < j < |s| ensures s[i] != s[j] {
      LessIrreflexive(s[i]);
    }
  }

  function Insert(x: string, s: seq<string>): (r: seq<string>)
    requires StrictlyAscending(s) && x !in s
    ensures StrictlyAscending(r)
    ensures Elements(r) == Elements(s) + {x}
    ensures |r| == |s| + 1
  {
    if |s| == 0 then [x]
    else if Less(x, s[0]) then
      assert forall j :: 0 < j < |s| ==> Less(x, s[j]) by {
        forall j | 0 < j < |s| ensures Less(x, s[j]) { LessTransitive(x, s[0], s[j]); }
      }
      [x] + s
    else
      LessTotal(x, s[0]);
      var t := Insert(x, s[1..]);
      assert Elements(s) == {s[0]} + Elements(s[1..]);
      forall e | e in t ensures Less(s[0], e) {
        assert e in Elements(t);
        if e != x {
          assert e in Elements(s[1..]);
          var j :| 0 <= j < |s[1..]| && s[1..][j] == e;
          assert s[j + 1] == e;
        }
      }
      [s[0]] + t
  }

  /** The strictly ascending arrangement of the distinct strings `xs`. */
  function Sort(xs: seq<string>): (r: seq<string>)
    requires Distinct(xs)
    ensures StrictlyAscending(r)
    ensures Elements(r) == Elements(xs)
    ensures |r| == |xs|
  {
    if |xs| == 0 then []
    else
      var init := xs[..|xs| - 1];
      assert xs == init + [xs[|xs| - 1]];
      assert xs[|xs| - 1] !in init;
      var sorted := Sort(init);
      assert xs[|xs| - 1] !in Elements(sorted);
      Insert(xs[|xs| - 1], sorted)
  }

  /** The last element of an ascending sequence is its greatest: what `sorted(keys, reverse=True)[0]` picks. */
  lemma LastIsGreatest(s: seq<string>, k: nat)
    requires StrictlyAscending(s) && k < |s| - 1
    ensures Less(s[k], s[|s| - 1])
  {
  }
}
