/** Counting finite sets of indices. */
module Sets {

  lemma SubsetIsSmaller(a: set<nat>, b: set<nat>)
    requires a <= b
    ensures |a| <= |b|
    decreases a
  {
    if a != {} {
      var x :| x in a;
      SubsetIsSmaller(a - {x}, b - {x});
    }
  }

  lemma {:induction false} HasGreatest(a: set<nat>) returns (m: nat)
    requires a != {}
    ensures m in a && forall i :: i in a ==> i <= m
    decreases a
  {
    m :| m in a;
    if a != {m} {
      var rest := HasGreatest(a - {m});
      assert forall i :: i in a ==> i == m || i in a - {m};
      if rest > m { m := rest; }
    }
  }

  lemma {:induction false} AreBelow(a: set<nat>, n: nat)
    requires forall i: nat :: i in a <==> i < n
    ensures |a| == n
    decreases n
  {
    if n == 0 {
      assert a == {};
    } else {
      AreBelow(a - {n - 1}, n - 1);
    }
  }
}
