// Sums over a ledger kept as a map from users to amounts; a user not in the map has zero.
module Totals {
  import opened Common

  function At(m: map<Addr, nat>, a: Addr): nat { if a in m then m[a] else 0 }

  ghost function Total(m: map<Addr, nat>): nat {
    if m == map[] then 0
    else
      var a :| a in m;
      m[a] + Total(m - {a})
  }

  // The sum does not depend on which user is taken out first.
  lemma {:induction false} TotalWithout(m: map<Addr, nat>, a: Addr)
    requires a in m
    ensures Total(m) == m[a] + Total(m - {a})
    decreases |m|
  {
    var b :| b in m && Total(m) == m[b] + Total(m - {b});
    if a != b {
      TotalWithout(m - {b}, a);
      TotalWithout(m - {a}, b);
      assert m - {b} - {a} == m - {a} - {b};
    }
  }

  lemma TotalUpdate(m: map<Addr, nat>, a: Addr, v: nat)
    ensures Total(m[a := v]) == Total(m) - At(m, a) + v
    ensures At(m, a) <= Total(m)
  {
    var m' := m[a := v];
    TotalWithout(m', a);
    if a in m {
      TotalWithout(m, a);
      assert m' - {a} == m - {a};
    } else {
      assert m' - {a} == m;
    }
  }

  // What a set of users holds, each counted once.
  ghost function Share(m: map<Addr, nat>, s: set<Addr>): nat { Total(Within(m, s)) }

  ghost function Within(m: map<Addr, nat>, s: set<Addr>): map<Addr, nat> { map a | a in m && a in s :: m[a] }

  lemma ShareWith(m: map<Addr, nat>, s: set<Addr>, a: Addr)
    requires a !in s
    ensures Share(m, s + {a}) == Share(m, s) + At(m, a)
  {
    var before := Within(m, s);
    var after := Within(m, s + {a});
    if a in m {
      assert after == before[a := m[a]];
      TotalUpdate(before, a, m[a]);
    } else {
      assert after == before;
    }
  }

  // A set holds the whole ledger exactly when nobody outside it holds anything.
  lemma {:induction false} ShareIsTotal(m: map<Addr, nat>, s: set<Addr>)
    ensures Share(m, s) <= Total(m)
    ensures Share(m, s) == Total(m) <==> forall a <- m :: a !in s ==> m[a] == 0
    decreases |m|
  {
    var inside := Within(m, s);
    if inside.Keys == m.Keys {
      assert inside == m;
    } else {
      var a :| a in m && a !in s;
      var m' := m - {a};
      ShareIsTotal(m', s);
      TotalWithout(m, a);
      assert inside == Within(m', s);
      assert forall b <- m' :: m'[b] == m[b];
    }
  }
}
