/** What it is for a queue to be first in, first out, from one moment to a later one. */
module Fifo {

  /** Those who have left the queue were the first in it, and whoever came since is behind the others. */
  ghost predicate MovedOn<T>(q: seq<T>, q': seq<T>) {
    exists n: nat :: n <= |q| && q[n..] <= q'
  }

  predicate OneMove<T(==)>(q: seq<T>, q': seq<T>) {
    q' == q || (q' != [] && q' == q + [q'[|q'| - 1]]) || (q != [] && q' == q[1..])
  }

  lemma Unmoved<T>(q: seq<T>)
    ensures MovedOn(q, q)
  {
    assert q[0..] <= q;
  }

  lemma MovesFurther<T>(q: seq<T>, q': seq<T>, q'': seq<T>)
    requires MovedOn(q, q') && OneMove(q', q'')
    ensures MovedOn(q, q'')
  {
    var n: nat :| n <= |q| && q[n..] <= q';
    if q' != [] && q'' == q'[1..] {
      if n < |q| {
        assert q[n + 1..] <= q'';
      } else {
        assert q[n..] <= q'';
      }
    } else {
      assert q[n..] <= q'';
    }
  }
}
