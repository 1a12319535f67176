/** The sum of the values of a finite map. */
module Sums {
  ghost function SumOver(ks: set<nat>, m: map<nat, nat>): nat
    requires ks <= m.Keys
  {
    if ks == {} then 0 else
      var k :| k in ks;
      m[k] + SumOver(ks - {k}, m)
  }

  lemma {:induction false} SumWithout(ks: set<nat>, m: map<nat, nat>, k: nat)
    requires ks <= m.Keys && k in ks
    ensures SumOver(ks, m) == m[k] + SumOver(ks - {k}, m)
  {
    var j :| j in ks && SumOver(ks, m) == m[j] + SumOver(ks - {j}, m);
    if j != k {
      SumWithout(ks - {j}, m, k);
      SumWithout(ks - {k}, m, j);
      assert ks - {j} - {k} == ks - {k} - {j};
    }
  }

  lemma {:induction false} SumFrame(ks: set<nat>, m: map<nat, nat>, m': map<nat, nat>)
    requires ks <= m.Keys && ks <= m'.Keys && forall k | k in ks :: m[k] == m'[k]
    ensures SumOver(ks, m) == SumOver(ks, m')
  {
    if ks != {} {
      var k :| k in ks;
      SumWithout(ks, m, k);
      SumWithout(ks, m', k);
      SumFrame(ks - {k}, m, m');
    }
  }

  /** The sum of all values. */
  ghost function Total(m: map<nat, nat>): nat {
    SumOver(m.Keys, m)
  }

  lemma TotalWithout(m: map<nat, nat>, k: nat)
    requires k in m
    ensures Total(m) == m[k] + Total(m - {k}) && |m - {k}| == |m| - 1
  {
    SumWithout(m.Keys, m, k);
    var m' := m - {k};
    assert m'.Keys == m.Keys - {k};
    SumFrame(m.Keys - {k}, m, m');
  }

  lemma TotalWith(m: map<nat, nat>, k: nat, v: nat)
    requires k !in m
    ensures Total(m[k := v]) == Total(m) + v && |m[k := v]| == |m| + 1
  {
    TotalWithout(m[k := v], k);
    assert m[k := v] - {k} == m;
  }

  lemma {:induction false} PositiveSum(ks: set<nat>, m: map<nat, nat>)
    requires ks <= m.Keys && SumOver(ks, m) > 0
    ensures exists t :: t in m && m[t] > 0
  {
    var j :| j in ks && SumOver(ks, m) == m[j] + SumOver(ks - {j}, m);
    if m[j] == 0 {
      PositiveSum(ks - {j}, m);
    }
  }

  lemma TotalUpdate(m: map<nat, nat>, k: nat, v: nat)
    requires k in m
    ensures Total(m[k := v]) == Total(m) - m[k] + v
  {
    TotalWithout(m, k);
    TotalWithout(m[k := v], k);
    assert m[k := v] - {k} == m - {k};
  }

  lemma PartOfTotal(m: map<nat, nat>, k: nat)
    requires k in m
    ensures m[k] <= Total(m)
  {
    TotalWithout(m, k);
  }
}
