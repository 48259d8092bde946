/** Go's `range` over a string-keyed map visits every key once, in an order the language
    leaves unspecified. The model makes that order an explicit parameter. */
module Iteration {

  /** `order` lists every key of `keys` exactly once. */
  ghost predicate Enumerates(order: seq<string>, keys: set<string>) {
    && Distinct(order)
    && (forall k :: k in order <==> k in keys)
  }

  ghost predicate Distinct(s: seq<string>) {
    forall i, j :: 0 <= i < j < |s| ==> s[i] != s[j]
  }

  /** A list without repetitions has as many elements as its set. */
  lemma {:induction false} DistinctCardinality(s: seq<string>)
    requires Distinct(s)
    ensures |set k | k in s| == |s|
  {
    if s != [] {
      var init := s[..|s| - 1];
      var last := s[|s| - 1];
      assert s == init + [last];
      assert Distinct(init);
      DistinctCardinality(init);
      assert last !in init;
      assert (set k | k in s) == (set k | k in init) + {last};
    }
  }

  /** An enumeration of a set is exactly as long as the set is large. */
  lemma EnumerationLength(order: seq<string>, keys: set<string>)
    requires Enumerates(order, keys)
    ensures |order| == |keys|
  {
    DistinctCardinality(order);
    assert (set k | k in order) == keys;
  }

  /** Each element of a list without repetitions occurs in it exactly once. */
  lemma {:induction false} DistinctMultiplicity(s: seq<string>, x: string)
    requires Distinct(s)
    ensures multiset(s)[x] == if x in s then 1 else 0
  {
    if s != [] {
      var init := s[..|s| - 1];
      var last := s[|s| - 1];
      assert s == init + [last];
      assert Distinct(init);
      DistinctMultiplicity(init, x);
      assert last !in init;
      assert multiset(s) == multiset(init) + multiset{last};
    }
  }

  /** Any two enumerations of one set hold the same elements equally often. */
  lemma EnumerationsSameMultiset(o1: seq<string>, o2: seq<string>, keys: set<string>)
    requires Enumerates(o1, keys) && Enumerates(o2, keys)
    ensures multiset(o1) == multiset(o2)
  {
    forall x ensures multiset(o1)[x] == multiset(o2)[x] {
      DistinctMultiplicity(o1, x);
      DistinctMultiplicity(o2, x);
    }
  }
}
