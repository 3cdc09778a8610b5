/**
 * Vocabulary tables: the training-time lists of known names for one
 * categorical column, and the name-to-position maps built from them.
 */
module Vocabulary {
  import opened Strings
  import opened Sequences

  /** Every earlier entry is strictly smaller, in Python's string order, than every later one. */
  predicate StrictlySorted(v: seq<string>) {
    forall i, j :: 0 <= i < j < |v| ==> Less(v[i], v[j])
  }

  lemma SortedIsDistinct(v: seq<string>)
    requires StrictlySorted(v)
    ensures Distinct(v)
  {
    forall i, j | 0 <= i < j < |v|
      ensures v[i] != v[j]
    {
      LessIrreflexive(v[i]);
    }
  }

  /**
   * `{name: i for i, name in enumerate(v)}`. Later positions overwrite earlier
   * ones, so a repeated name maps to its last position.
   */
  function IndexMap(v: seq<string>): (m: map<string, nat>)
    ensures forall x :: x in m <==> x in v
    ensures forall x :: x in m ==> m[x] < |v| && v[m[x]] == x
    ensures forall x :: x in m ==> forall j :: m[x] < j < |v| ==> v[j] != x
  {
    if |v| == 0 then map[]
    else
      var m' := IndexMap(v[..|v| - 1]);
      assert forall x :: x in v <==> x in v[..|v| - 1] || x == v[|v| - 1];
      m'[v[|v| - 1] := |v| - 1]
  }

  /** `m.get(name, 0)`: the mapped position, or 0 for a name the map does not hold. */
  function Lookup(m: map<string, nat>, name: string): nat {
    if name in m then m[name] else 0
  }

  /** Inserts `x` into a strictly sorted list unless it is already there. */
  function Insert(v: seq<string>, x: string): (r: seq<string>)
    requires StrictlySorted(v)
    ensures StrictlySorted(r)
    ensures forall y :: y in r <==> y in v || y == x
  {
    if |v| == 0 then [x]
    else if x == v[0] then v
    else if Less(x, v[0]) then
      forall j | 0 <= j < |v|
        ensures Less(x, v[j])
      {
        if j > 0 {
          LessTransitive(x, v[0], v[j]);
        }
      }
      [x] + v
    else
      LessTotal(x, v[0]);
      var rest := Insert(v[1..], x);
      assert forall y :: y in v <==> y == v[0] || y in v[1..];
      forall j | 0 <= j < |rest|
        ensures Less(v[0], rest[j])
      {
        if rest[j] != x {
          assert rest[j] in v[1..];
        }
      }
      [v[0]] + rest
  }

  /**
   * `sorted(set(column))`: the distinct values of a column in ascending order.
   */
  function BuildVocabulary(column: seq<string>): (v: seq<string>)
    ensures StrictlySorted(v)
    ensures forall x :: x in v <==> x in column
  {
    if |column| == 0 then []
    else
      assert forall x :: x in column <==> x in column[..|column| - 1] || x == column[|column| - 1];
      Insert(BuildVocabulary(column[..|column| - 1]), column[|column| - 1])
  }

  /**
   * A strictly sorted list is determined by its elements: there is only one
   * way to list a set in ascending order. Together with the contract of
   * `BuildVocabulary` this says the table is exactly `sorted(set(column))`.
   */
  lemma {:induction false} SortedUnique(a: seq<string>, b: seq<string>)
    requires StrictlySorted(a) && StrictlySorted(b)
    requires forall x :: x in a <==> x in b
    ensures a == b
    decreases |a|
  {
    assert |b| > 0 ==> b[0] in b;
    if |a| > 0 {
      assert |b| > 0 by { assert a[0] in b; }
      if a[0] != b[0] {
        assert a[0] in b;
        assert b[0] in a;
        var j :| 0 <= j < |b| && b[j] == a[0];
        var k :| 0 <= k < |a| && a[k] == b[0];
        assert Less(b[0], a[0]);
        assert Less(a[0], b[0]);
        LessTransitive(a[0], b[0], a[0]);
        LessIrreflexive(a[0]);
      }
      forall x
        ensures x in a[1..] <==> x in b[1..]
      {
        if x in a[1..] {
          var i :| 1 <= i < |a| && a[i] == x;
          LessIrreflexive(a[0]);
          assert x != a[0];
          assert x in b;
        }
        if x in b[1..] {
          var i :| 1 <= i < |b| && b[i] == x;
          LessIrreflexive(b[0]);
          assert x != b[0];
          assert x in a;
        }
      }
      SortedUnique(a[1..], b[1..]);
      assert a == [a[0]] + a[1..];
      assert b == [b[0]] + b[1..];
    }
  }

  /** Building the table from a column that is already a sorted, duplicate-free list returns that list. */
  lemma BuildSortedColumn(column: seq<string>)
    requires StrictlySorted(column)
    ensures BuildVocabulary(column) == column
  {
    SortedUnique(BuildVocabulary(column), column);
  }

  /** For a duplicate-free table the index map sends every entry to its own position. */
  lemma IndexMapPositions(v: seq<string>)
    requires Distinct(v)
    ensures forall i :: 0 <= i < |v| ==> v[i] in IndexMap(v) && IndexMap(v)[v[i]] == i
  {
    var m := IndexMap(v);
    forall i | 0 <= i < |v|
      ensures v[i] in m && m[v[i]] == i
    {
      assert v[i] in m;
    }
  }
}
