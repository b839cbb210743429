/** Sums over the values of a map. */
module Totals {
  /** The sum of the values, in whatever order they are taken. */
  ghost function Total(m: map<int, nat>): nat
    decreases |m.Keys|
  {
    if forall a :: a !in m.Keys then 0
    else
      var a :| a in m.Keys;
      Fewer(m, a);
      m[a] + Total(m - {a})
  }

  lemma Fewer(m: map<int, nat>, a: int)
    requires a in m
    ensures (m - {a}).Keys == m.Keys - {a}
    ensures |(m - {a}).Keys| < |m.Keys|
  {}

  /** Which value is taken first does not matter. */
  lemma {:induction false} TotalWithout(m: map<int, nat>, a: int)
    requires a in m
    ensures Total(m) == m[a] + Total(m - {a})
    decreases |m.Keys|
  {
    var b := FirstTaken(m);
    hide Total;
    if a != b {
      Fewer(m, a);
      Fewer(m, b);
      TotalWithout(m - {b}, a);
      TotalWithout(m - {a}, b);
      assert m - {a} - {b} == m - {b} - {a};
    }
  }

  lemma FirstTaken(m: map<int, nat>) returns (b: int)
    requires exists a :: a in m.Keys
    ensures b in m && Total(m) == m[b] + Total(m - {b})
  {
    b :| b in m.Keys && Total(m) == m[b] + Total(m - {b});
  }
}
