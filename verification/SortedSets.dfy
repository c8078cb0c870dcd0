/** The elements of a set of integers in increasing order. */
module SortedSets {
  lemma HasElement(keys: set<int>)
    ensures keys == {} || exists k :: k in keys
  {
    if forall k :: k !in keys {
      assert keys == {};
    }
  }

  lemma {:induction false} LeastExists(keys: set<int>)
    requires |keys| > 0
    ensures exists k :: k in keys && forall j :: j in keys ==> k <= j
  {
    HasElement(keys);
    var k :| k in keys;
    var rest := keys - {k};
    if |rest| == 0 {
      assert keys == {k};
    } else {
      LeastExists(rest);
      var least :| least in rest && forall j :: j in rest ==> least <= j;
      var best := if k <= least then k else least;
      assert best in keys;
      forall j | j in keys ensures best <= j { if j != k { assert j in rest; } }
    }
  }

  function Least(keys: set<int>): (least: int)
    requires |keys| > 0
    ensures least in keys && forall j :: j in keys ==> least <= j
  {
    LeastExists(keys);
    var least :| least in keys && forall j :: j in keys ==> least <= j;
    least
  }

  predicate IsSorting(order: seq<int>, keys: set<int>) {
    && (forall k <- order :: k in keys) && (forall k <- keys :: k in order)
    && (forall i, j :: 0 <= i < j < |order| ==> order[i] < order[j])
  }

  lemma SortingGrows(keys: set<int>, least: int, rest: seq<int>)
    requires least in keys && (forall j :: j in keys ==> least <= j) && IsSorting(rest, keys - {least})
    ensures IsSorting([least] + rest, keys)
  {
    forall i | 0 <= i < |rest| ensures least < rest[i] {
      assert rest[i] in rest;
    }
  }

  function SortedKeys(keys: set<int>): (order: seq<int>)
    ensures IsSorting(order, keys)
  {
    if |keys| == 0 then []
    else
      var least := Least(keys);
      SortingGrows(keys, least, SortedKeys(keys - {least}));
      [least] + SortedKeys(keys - {least})
  }
}
