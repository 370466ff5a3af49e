/** Multiples of a positive interval. */
module Multiples {

  lemma MultiplesAreOrdered(a: int, b: int, interval: int)
    requires 0 < interval && a <= b
    ensures a * interval <= b * interval
  {
    assert (b - a) * interval >= 0;
  }

  lemma MultipleIsFar(d: int, interval: int)
    requires 0 < interval && d != 0
    ensures d * interval <= -interval || interval <= d * interval
  {
    if d > 0 {
      assert (d - 1) * interval >= 0;
    } else {
      assert (-d - 1) * interval >= 0;
    }
  }

  lemma RemainderIsUnique(x: int, interval: int, k: int, r: int)
    requires 0 < interval && x == k * interval + r && 0 <= r < interval
    ensures x % interval == r && x / interval == k
  {
    var d := x / interval - k;
    assert d * interval == r - x % interval;
    if d != 0 {
      MultipleIsFar(d, interval);
      assert false;
    }
  }
}
