/** The sum of the values of a map. */
module MapSums {
  ghost function Sum(m: map<string, int>): int {
    if m.Keys == {} then 0
    else
      var k :| k in m.Keys;
      m[k] + Sum(m - {k})
  }

  /** Any entry can be taken out first. */
  lemma {:induction false} SumTakeOut(m: map<string, int>, k: string)
    requires k in m
    ensures Sum(m) == m[k] + Sum(m - {k})
    decreases |m|
  {
    var j :| j in m.Keys && Sum(m) == m[j] + Sum(m - {j});
    if j != k {
      SumTakeOut(m - {j}, k);
      SumTakeOut(m - {k}, j);
      assert m - {j} - {k} == m - {k} - {j};
    }
  }

  lemma SumUpdate(m: map<string, int>, k: string, value: int)
    ensures Sum(m[k := value]) == Sum(m) + value - (if k in m then m[k] else 0)
  {
    SumTakeOut(m[k := value], k);
    assert m[k := value] - {k} == m - {k};
    if k in m { SumTakeOut(m, k); } else { assert m - {k} == m; }
  }
}
