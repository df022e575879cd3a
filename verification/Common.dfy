/** Shared vocabulary: optional values, identifiers and time (in microseconds). */
module Common {

  datatype Option<+T> = None | Some(value: T)

  type UserId = nat

  const SECOND: int := 1_000_000
  const MINUTE: int := 60 * SECOND
  const HOUR: int := 60 * MINUTE
  const DAY: int := 24 * HOUR

  lemma {:induction false} SubsetSize<T>(a: set<T>, b: set<T>)
    requires a <= b
    ensures |a| <= |b|
  {
    if a == {} {
      assert |a| == 0;
    } else {
      var x :| x in a;
      SubsetSize(a - {x}, b - {x});
    }
  }

  /** The first `n` numbers. */
  function Below(n: nat): (r: set<nat>)
    ensures |r| == n && forall i: nat :: i in r <==> i < n
  {
    if n == 0 then {} else Below(n - 1) + {n - 1}
  }

  lemma {:induction false} IntervalSize(x: set<nat>, m: nat, n: nat)
    requires forall i :: i in x ==> m <= i < m + n
    ensures |x| <= n
  {
    if n == 0 {
      assert x == {};
    } else {
      IntervalSize(x - {m + n - 1}, m, n - 1);
    }
  }
}
