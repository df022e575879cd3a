/** Whole windows in an interval: the few facts about quotients that the timing bounds rest on. */
module Quotients {

  lemma DivShift(x: int, w: nat)
    requires w > 0
    ensures (x - w) / w == x / w - 1
  {
    DivUnique(x - w, w, x / w - 1, x % w);
  }

  lemma DivUnique(x: int, w: nat, q: int, r: int)
    requires w > 0 && x == w * q + r && 0 <= r < w
    ensures x / w == q
  {
    MulGap(w, x / w, q);
    MulGap(w, q, x / w);
  }

  lemma DivMonotone(x: int, y: int, w: nat)
    requires w > 0 && x <= y
    ensures x / w <= y / w
  {
    MulGap(w, x / w, y / w);
  }

  lemma MulGap(w: nat, p: int, q: int)
    ensures p > q ==> w * p >= w * q + w
  {
    if p > q { MulMonotone(w, q + 1, p); }
  }

  lemma MulMonotone(m: nat, x: int, y: int)
    requires x <= y
    ensures m * x <= m * y
  {
  }
}
