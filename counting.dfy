/**
 * Counting positions: the dashboards report `filter(...).length`, and the
 * lemmas about them state that length as the number of positions of the
 * input whose element passes the test. A list grows by one element at the
 * end, so such a set grows by at most its new last position.
 */
module Counting {

  /** Adding at most one position above every old one adds its size. */
  lemma CardAddLast(before: set<int>, extra: set<int>, n: int)
    requires forall i :: i in before ==> i < n
    requires extra <= {n}
    ensures |before + extra| == |before| + |extra|
  {
    if extra != {} {
      assert extra == {n} && n !in before;
    }
  }
}
