/**
`Scheduler::LoadBalance` of scheduler/scheduler.cpp (lines 116-154) and the `Steal` and `AddTask` of
processer/processer.cpp that it uses, while nothing else runs.  The factors 1.1 and 0.3 and the average are exact
numbers here.  The method leaves a trace of the moves it made; what it achieves is proved of every such trace.
*/
module LoadBalance {
  import opened Processers

  // ----- Queues and moves, as values

  /** The runnable queues, in the order of `processers_`. */
  type Queues = seq<seq<Task>>

  function Total(q: Queues): nat {
    if q == [] then 0 else Total(q[..|q| - 1]) + |q[|q| - 1]|
  }

  function Square(n: int): int {
    n * n
  }

  /** The sum of the squared loads: the smaller, the more even. */
  function Unevenness(q: Queues): int {
    if q == [] then 0 else Unevenness(q[..|q| - 1]) + Square(|q[|q| - 1]|)
  }

  /** All tasks, wherever they are queued. */
  ghost function All(q: Queues): multiset<Task> {
    if q == [] then multiset{} else All(q[..|q| - 1]) + multiset(q[|q| - 1])
  }

  predicate Overloaded(n: nat, avg: real) {
    n as real > avg * 1.1
  }

  predicate Underloaded(n: nat, avg: real) {
    (n as real) < avg * 0.3
  }

  /** Line 145: a quarter of what the source has above the average, cut off, but at least one. */
  function StealNum(n: nat, avg: real): int {
    var k := ((n as real - avg) / 4.0).Floor;
    if k < 1 then 1 else k
  }

  datatype Move = Move(src: nat, dst: nat, count: nat)

  /** The move that lines 141-149 make: both ends are checked again before each move. */
  predicate Legal(q: Queues, avg: real, m: Move) {
    && m.src < |q| && m.dst < |q| && m.src != m.dst
    && Overloaded(|q[m.src]|, avg)
    && Underloaded(|q[m.dst]|, avg)
    && m.count == StealNum(|q[m.src]|, avg)
    && m.count <= |q[m.src]|
  }

  /** The oldest tasks of the source are queued behind those of the destination. */
  function Apply(q: Queues, m: Move): Queues {
    if m.src < |q| && m.dst < |q| && m.src != m.dst && m.count <= |q[m.src]| then
      q[m.dst := q[m.dst] + q[m.src][..m.count]][m.src := q[m.src][m.count..]]
    else q
  }

  function Replay(q: Queues, moves: seq<Move>): Queues
    decreases |moves|
  {
    if moves == [] then q else Apply(Replay(q, moves[..|moves| - 1]), moves[|moves| - 1])
  }

  /** The queues just before the i-th move. */
  function Before(q: Queues, moves: seq<Move>, i: nat): Queues {
    if i <= |moves| then Replay(q, moves[..i]) else q
  }

  ghost predicate Trace(q: Queues, avg: real, moves: seq<Move>) {
    forall i {:trigger moves[i]} | 0 <= i < |moves| :: Legal(Before(q, moves, i), avg, moves[i])
  }

  /** How far apart the loads of the two ends of a move are. */
  function Gap(q: Queues, m: Move): int {
    if m.src < |q| && m.dst < |q| then |q[m.src]| - |q[m.dst]| else 0
  }

  // ----- One move

  lemma {:induction false} UnevennessAt(q: Queues, i: nat, x: seq<Task>)
    requires i < |q|
    ensures Unevenness(q[i := x]) == Unevenness(q) - Square(|q[i]|) + Square(|x|)
  {
    hide Square;
    var n := |q| - 1;
    if i == n {
      assert q[i := x][..n] == q[..n];
    } else {
      assert q[i := x][..n] == q[..n][i := x];
      UnevennessAt(q[..n], i, x);
    }
  }

  lemma {:induction false} AllAt(q: Queues, i: nat, x: seq<Task>)
    requires i < |q|
    ensures All(q[i := x]) + multiset(q[i]) == All(q) + multiset(x)
  {
    var n := |q| - 1;
    if i == n {
      assert q[i := x][..n] == q[..n];
      Exchange(All(q[..n]), multiset(x), multiset(q[n]));
    } else {
      assert q[i := x][..n] == q[..n][i := x];
      AllAt(q[..n], i, x);
      Regroup(All(q[..n][i := x]), All(q[..n]), multiset(q[n]), multiset(q[i]), multiset(x));
    }
  }

  lemma Exchange(a: multiset<Task>, x: multiset<Task>, y: multiset<Task>)
    ensures (a + x) + y == (a + y) + x
  {
  }

  lemma Regroup(a: multiset<Task>, b: multiset<Task>, last: multiset<Task>, y: multiset<Task>, x: multiset<Task>)
    requires a + y == b + x
    ensures (a + last) + y == (b + last) + x
  {
    assert (a + last) + y == (a + y) + last;
    assert (b + last) + x == (b + x) + last;
  }

  /** What the numbers of a move are: it takes at least one task, no more than the source has, leaves the source
      above the average less one and not below the destination's old load, and does not fill the destination beyond
      the source's old load. */
  lemma StealNumFits(n: nat, d: nat, avg: real)
    requires Overloaded(n, avg) && Underloaded(d, avg)
    ensures var k := StealNum(n, avg);
            && 1 <= k <= n - d
            && (n - k) as real > avg - 1.0
            && (k == n - d ==> n == d + 1)
  {
    var k := ((n as real - avg) / 4.0).Floor;
    assert avg > 0.0;
    assert k as real <= (n as real - avg) / 4.0;
    assert n > d;
    if k >= 1 {
      assert 4.0 * k as real <= n as real - avg;
      assert (d as real) < avg;
    }
  }

  /** How much is stolen: a quarter of what the source has above the average, cut off, or one task if that is less. */
  lemma StealNumIsQuarter(n: nat, avg: real)
    requires n as real >= avg
    ensures var k := StealNum(n, avg);
            && 1 <= k
            && (k > 1 ==> 4.0 * k as real <= n as real - avg)
            && n as real - avg < 4.0 * (k + 1) as real
  {
    var k := ((n as real - avg) / 4.0).Floor;
    assert k as real <= (n as real - avg) / 4.0 < (k + 1) as real;
  }

  /** A move changes two loads, and makes the loads more even, or, between loads that differ by one, swaps them. */
  lemma MoveEvens(q: Queues, avg: real, m: Move)
    requires Legal(q, avg, m)
    ensures Unevenness(Apply(q, m)) <= Unevenness(q)
    ensures Unevenness(Apply(q, m)) < Unevenness(q) <==> Gap(q, m) >= 2
  {
    hide Square, Unevenness;
    var x, y := q[m.dst] + q[m.src][..m.count], q[m.src][m.count..];
    var q1 := q[m.dst := x];
    UnevennessAt(q, m.dst, x);
    UnevennessAt(q1, m.src, y);
    var s, d, k := |q[m.src]|, |q[m.dst]|, m.count;
    StealNumFits(s, d, avg);
    assert |x| == d + k && |y| == s - k;
    Squares(s, d, k);
  }

  lemma Squares(s: int, d: int, k: int)
    requires 1 <= k <= s - d && (k == s - d ==> s == d + 1)
    ensures Square(s - k) + Square(d + k) <= Square(s) + Square(d)
    ensures Square(s - k) + Square(d + k) < Square(s) + Square(d) <==> s - d >= 2
  {
    assert Square(s - k) == Square(s) - 2 * k * s + k * k;
    assert Square(d + k) == Square(d) + 2 * k * d + k * k;
    assert Square(s - k) + Square(d + k) == Square(s) + Square(d) - 2 * (k * (s - d - k));
    if s - d >= 2 {
      assert s - d - k >= 1;
      assert k * (s - d - k) >= 1;
    }
  }

  lemma MoveConserves(q: Queues, m: Move)
    requires m.src < |q| && m.dst < |q| && m.src != m.dst && m.count <= |q[m.src]|
    ensures All(Apply(q, m)) == All(q) && |Apply(q, m)| == |q|
  {
    hide All;
    var taken, left := q[m.src][..m.count], q[m.src][m.count..];
    var q1 := q[m.dst := q[m.dst] + taken];
    AllAt(q, m.dst, q[m.dst] + taken);
    AllAt(q1, m.src, left);
    assert q[m.src] == taken + left;
    Cancel(All(Apply(q, m)), All(q1), All(q), multiset(taken), multiset(left), multiset(q[m.dst]));
  }

  lemma Cancel(r: multiset<Task>, q1: multiset<Task>, q: multiset<Task>, taken: multiset<Task>, left: multiset<Task>,
               dst: multiset<Task>)
    requires q1 + dst == q + (dst + taken) && r + (taken + left) == q1 + left
    ensures r == q
  {
    forall t
      ensures r[t] == q[t]
    {
      assert (q1 + dst)[t] == (q + (dst + taken))[t];
      assert (r + (taken + left))[t] == (q1 + left)[t];
    }
  }

  // ----- Every trace

  predicate Within(q: Queues, lo: nat, hi: nat) {
    forall i | 0 <= i < |q| :: lo <= |q[i]| <= hi
  }

  lemma MoveStaysWithin(q: Queues, avg: real, m: Move, lo: nat, hi: nat)
    requires Legal(q, avg, m) && Within(q, lo, hi)
    ensures Within(Apply(q, m), lo, hi)
  {
    StealNumFits(|q[m.src]|, |q[m.dst]|, avg);
  }

  lemma EarlierMoves(q: Queues, moves: seq<Move>, n: nat, i: nat)
    requires i < n < |moves|
    ensures moves[..n][i] == moves[i] && Before(q, moves[..n], i) == Before(q, moves, i)
  {
    hide Replay;
    assert moves[..n][..i] == moves[..i];
  }

  lemma LastMove(q: Queues, avg: real, moves: seq<Move>)
    requires Trace(q, avg, moves) && moves != []
    ensures var n := |moves| - 1;
            && Trace(q, avg, moves[..n])
            && Legal(Replay(q, moves[..n]), avg, moves[n])
            && Replay(q, moves) == Apply(Replay(q, moves[..n]), moves[n])
            && forall i | 0 <= i < n :: Before(q, moves[..n], i) == Before(q, moves, i)
  {
    hide Legal, Apply;
    var n := |moves| - 1;
    assert Legal(Replay(q, moves[..n]), avg, moves[n]) by {
      assert Legal(Before(q, moves, n), avg, moves[n]);
    }
    assert Replay(q, moves) == Apply(Replay(q, moves[..n]), moves[n]);
    hide Replay, Before;
    forall i | 0 <= i < n
      ensures Before(q, moves[..n], i) == Before(q, moves, i)
      ensures Legal(Before(q, moves[..n], i), avg, moves[..n][i])
    {
      EarlierMoves(q, moves, n, i);
      assert Legal(Before(q, moves, i), avg, moves[i]);
    }
  }

  /** Balancing neither loses nor copies a task, and never raises the maximum load or lowers the minimum. */
  lemma {:induction false} BalancingConserves(q: Queues, avg: real, moves: seq<Move>, lo: nat, hi: nat)
    requires Trace(q, avg, moves) && Within(q, lo, hi)
    ensures |Replay(q, moves)| == |q| && All(Replay(q, moves)) == All(q)
    ensures Within(Replay(q, moves), lo, hi)
    decreases |moves|
  {
    if moves != [] {
      var n := |moves| - 1;
      LastMove(q, avg, moves);
      BalancingConserves(q, avg, moves[..n], lo, hi);
      MoveConserves(Replay(q, moves[..n]), moves[n]);
      MoveStaysWithin(Replay(q, moves[..n]), avg, moves[n], lo, hi);
    }
  }

  /** Balancing never makes the loads less even, and makes them more even exactly if some move is between loads that
      differ by two or more. */
  lemma {:induction false} BalancingEvens(q: Queues, avg: real, moves: seq<Move>)
    requires Trace(q, avg, moves)
    ensures Unevenness(Replay(q, moves)) <= Unevenness(q)
    ensures Unevenness(Replay(q, moves)) < Unevenness(q) <==>
            exists i :: 0 <= i < |moves| && Gap(Before(q, moves, i), moves[i]) >= 2
    decreases |moves|
  {
    hide Unevenness, Gap, Legal;
    if moves != [] {
      var n := |moves| - 1;
      LastMove(q, avg, moves);
      BalancingEvens(q, avg, moves[..n]);
      MoveEvens(Replay(q, moves[..n]), avg, moves[n]);
      assert Before(q, moves, n) == Replay(q, moves[..n]);
      if Unevenness(Replay(q, moves[..n])) < Unevenness(q) {
        var i :| 0 <= i < n && Gap(Before(q, moves[..n], i), moves[..n][i]) >= 2;
        assert Gap(Before(q, moves, i), moves[i]) >= 2;
      }
      if i :| 0 <= i < |moves| && Gap(Before(q, moves, i), moves[i]) >= 2 && i != n {
        assert Gap(Before(q, moves[..n], i), moves[..n][i]) >= 2;
      }
    }
  }

  /** A processer that had more than the average less one keeps more than that, whatever is stolen from it. */
  lemma {:induction false} SourcesStayAbove(q: Queues, avg: real, moves: seq<Move>, i: nat)
    requires Trace(q, avg, moves) && i < |q| && |q[i]| as real > avg - 1.0
    ensures i < |Replay(q, moves)| && |Replay(q, moves)[i]| as real > avg - 1.0
    decreases |moves|
  {
    if moves != [] {
      var n := |moves| - 1;
      LastMove(q, avg, moves);
      SourcesStayAbove(q, avg, moves[..n], i);
      var x, m := Replay(q, moves[..n]), moves[n];
      StealNumFits(|x[m.src]|, |x[m.dst]|, avg);
    }
  }

  /** The average load (lines 120-124). */
  function Average(q: Queues): real
    requires q != []
  {
    Total(q) as real / |q| as real
  }

  /** The same of every move of a trace. */
  lemma MovesTakeQuarters(q: Queues, avg: real, moves: seq<Move>, i: nat)
    requires Trace(q, avg, moves) && i < |moves|
    ensures var now, m := Before(q, moves, i), moves[i];
            && m.src < |now| && 1 <= m.count <= |now[m.src]|
            && (m.count > 1 ==> 4.0 * m.count as real <= |now[m.src]| as real - avg)
            && |now[m.src]| as real - avg < 4.0 * (m.count + 1) as real
  {
    var now, m := Before(q, moves, i), moves[i];
    assert Legal(now, avg, m);
    StealNumFits(|now[m.src]|, |now[m.dst]|, avg);
    StealNumIsQuarter(|now[m.src]|, avg);
  }

  lemma {:induction false} TotalIsAll(q: Queues)
    ensures |All(q)| == Total(q)
  {
    if q != [] { TotalIsAll(q[..|q| - 1]); }
  }

  /** In whole numbers: p processers have t tasks between them, one of them has n, and k are stolen from it. */
  predicate QuarterOf(k: int, n: nat, p: nat, t: nat) {
    k >= 1 && (k == 1 || 4 * (k * p) <= n * p - t) && n * p - t < 4 * ((k + 1) * p)
  }

  /** The guards and the number stolen, without fractions. */
  predicate Whole(n: nat, p: nat, t: nat, avg: real) {
    && (Overloaded(n, avg) <==> 10 * (n * p) > 11 * t)
    && (Underloaded(n, avg) <==> 10 * (n * p) < 3 * t)
    && (Overloaded(n, avg) ==> QuarterOf(StealNum(n, avg), n, p, t))
  }

  lemma QuarterInWholeNumbers(n: nat, p: nat, t: nat, avg: real)
    requires p > 0 && avg * p as real == t as real && Overloaded(n, avg)
    ensures QuarterOf(StealNum(n, avg), n, p, t)
  {
    AboveAverage(n, p, t, avg);
    StealNumIsQuarter(n, avg);
    hide StealNum, Overloaded;
    var k := StealNum(n, avg);
    if k > 1 { AtMost(k, n, p, t, avg); }
    LessThan(k + 1, n, p, t, avg);
  }

  lemma IsWhole(n: nat, p: nat, t: nat, avg: real)
    requires p > 0 && avg * p as real == t as real
    ensures Whole(n, p, t, avg)
  {
    hide StealNum, Overloaded, Underloaded, QuarterOf;
    Guards(n, p, t, avg);
    if Overloaded(n, avg) { QuarterInWholeNumbers(n, p, t, avg); }
  }

  /** So for processers that have these queues: p is their number, and t that of all their tasks. */
  lemma InWholeNumbers(q: Queues, n: nat)
    requires q != []
    ensures Whole(n, |q|, |All(q)|, Average(q))
  {
    hide Whole, Average, Total, All;
    TotalIsAll(q);
    AverageTimes(q);
    IsWhole(n, |q|, Total(q), Average(q));
  }

  lemma AverageTimes(q: Queues)
    requires q != []
    ensures Average(q) * |q| as real == Total(q) as real
  {
    hide Total;
  }

  lemma AboveAverage(n: nat, p: nat, t: nat, avg: real)
    requires p > 0 && avg * p as real == t as real && Overloaded(n, avg)
    ensures n as real >= avg
  {
    if avg < 0.0 { Scaled(0.0, avg, p as real); }
  }

  lemma {:induction false} Product(n: nat, p: nat)
    ensures (n * p) as real == n as real * p as real
  {
    if n > 0 {
      Product(n - 1, p);
      assert n * p == (n - 1) * p + p;
      Distributes((n - 1) as real, 1.0, p as real);
      assert ((n - 1) as real + 1.0) == n as real;
    }
  }

  lemma Distributes(x: real, y: real, p: real)
    ensures (x + y) * p == x * p + y * p
  {
  }

  lemma Regrouped(x: real, c: real, p: real)
    ensures (x * c) * p == c * (x * p) == (c * x) * p
  {
  }

  lemma Guards(n: nat, p: nat, t: nat, avg: real)
    requires p > 0 && avg * p as real == t as real
    ensures Overloaded(n, avg) <==> 10 * (n * p) > 11 * t
    ensures Underloaded(n, avg) <==> 10 * (n * p) < 3 * t
  {
    Scaled(n as real, avg * 1.1, p as real);
    Scaled(avg * 0.3, n as real, p as real);
    Regrouped(avg, 1.1, p as real);
    Regrouped(avg, 0.3, p as real);
    Product(n, p);
    var x := n * p;
    assert Overloaded(n, avg) <==> x as real > 1.1 * t as real;
    assert Underloaded(n, avg) <==> (x as real) < 0.3 * t as real;
  }

  lemma Sides(k: nat, n: nat, p: nat, t: nat, avg: real)
    requires avg * p as real == t as real
    ensures (4.0 * k as real) * p as real == (4 * (k * p)) as real
    ensures (n as real - avg) * p as real == (n * p - t) as real
  {
    Product(k, p);
    Product(n, p);
    Regrouped(k as real, 4.0, p as real);
    Distributes(n as real, -avg, p as real);
    var x, y := k * p, n * p;
    assert (4 * x) as real == 4.0 * x as real && (y - t) as real == y as real - t as real;
    assert (-avg) * p as real == -(t as real);
  }

  lemma AtMost(k: nat, n: nat, p: nat, t: nat, avg: real)
    requires p > 0 && avg * p as real == t as real && 4.0 * k as real <= n as real - avg
    ensures 4 * (k * p) <= n * p - t
  {
    Scaled(4.0 * k as real, n as real - avg, p as real);
    Sides(k, n, p, t, avg);
    var x, y := 4 * (k * p), n * p - t;
    assert x as real <= y as real;
  }

  lemma LessThan(k: nat, n: nat, p: nat, t: nat, avg: real)
    requires p > 0 && avg * p as real == t as real && n as real - avg < 4.0 * k as real
    ensures n * p - t < 4 * (k * p)
  {
    Scaled(4.0 * k as real, n as real - avg, p as real);
    Sides(k, n, p, t, avg);
    var x, y := 4 * (k * p), n * p - t;
    assert (y as real) < x as real;
  }

  lemma Scaled(x: real, y: real, p: real)
    requires p > 0.0
    ensures x > y <==> x * p > y * p
  {
    if x > y { assert (x - y) * p > 0.0; } else { assert (y - x) * p >= 0.0; }
  }

  // ----- The schedule

  predicate Ascending(r: seq<nat>) {
    forall i, j | 0 <= i < j < |r| :: r[i] < r[j]
  }

  /** The overloaded processers, in order. */
  function Over(q: Queues, avg: real): (r: seq<nat>)
    ensures Ascending(r) && forall i: nat :: i in r <==> i < |q| && Overloaded(|q[i]|, avg)
  {
    if q == [] then []
    else
      var n := |q| - 1;
      var before := Over(q[..n], avg);
      assert forall i | 0 <= i < |before| :: before[i] in before;
      if Overloaded(|q[n]|, avg) then before + [n] else before
  }

  /** The underloaded processers, in order. */
  function Under(q: Queues, avg: real): (r: seq<nat>)
    ensures Ascending(r) && forall i: nat :: i in r <==> i < |q| && Underloaded(|q[i]|, avg)
  {
    if q == [] then []
    else
      var n := |q| - 1;
      var before := Under(q[..n], avg);
      assert forall i | 0 <= i < |before| :: before[i] in before;
      if Underloaded(|q[n]|, avg) then before + [n] else before
  }

  function Load(q: Queues, i: nat): nat {
    if i < |q| then |q[i]| else 0
  }

  function MoveOf(q: Queues, src: nat, dst: nat, avg: real): (m: Move) {
    var k := StealNum(Load(q, src), avg);
    Move(src, dst, if k < 0 then 0 else k)
  }

  /** Lines 140-152, as a value: `dst` takes from those in `over` in turn, passing by those that are not overloaded
      any more, until it is not underloaded any more. */
  function Takes(q: Queues, over: seq<nat>, dst: nat, avg: real): seq<Move>
    decreases |over|
  {
    if over == [] then []
    else if !Overloaded(Load(q, over[0]), avg) then Takes(q, over[1..], dst, avg)
    else if !Underloaded(Load(q, dst), avg) then []
    else
      var m := MoveOf(q, over[0], dst, avg);
      [m] + Takes(Apply(q, m), over[1..], dst, avg)
  }

  /** Lines 139-153: those in `under` take in turn. */
  function Schedule(q: Queues, over: seq<nat>, under: seq<nat>, avg: real): seq<Move>
    decreases |under|
  {
    if under == [] then []
    else
      var moves := Takes(q, over, under[0], avg);
      moves + Schedule(Replay(q, moves), over, under[1..], avg)
  }

  lemma {:induction false} ReplayOne(q: Queues, m: Move, moves: seq<Move>)
    ensures Replay(q, [m] + moves) == Replay(Apply(q, m), moves)
    decreases |moves|
  {
    var all := [m] + moves;
    if moves == [] {
      assert all[..0] == [];
      assert Replay(q, all[..0]) == q;
    } else {
      var n := |moves| - 1;
      assert all[..n + 1] == [m] + moves[..n] && all[n + 1] == moves[n];
      ReplayOne(q, m, moves[..n]);
    }
  }

  lemma {:induction false} ReplayBoth(q: Queues, first: seq<Move>, second: seq<Move>)
    ensures Replay(q, first + second) == Replay(Replay(q, first), second)
    decreases |second|
  {
    var all := first + second;
    if second == [] {
      assert all == first;
    } else {
      var n := |second| - 1;
      assert all[..|all| - 1] == first + second[..n] && all[|all| - 1] == second[n];
      ReplayBoth(q, first, second[..n]);
    }
  }

  /** Moves go to one destination after the other, and for each from one source after the other. */
  predicate Ordered(moves: seq<Move>) {
    forall i, j | 0 <= i < j < |moves| ::
      moves[i].dst < moves[j].dst || (moves[i].dst == moves[j].dst && moves[i].src < moves[j].src)
  }

  ghost predicate Between(moves: seq<Move>, over: seq<nat>, under: seq<nat>) {
    forall m | m in moves :: m.src in over && m.dst in under
  }

  /** A first move before moves from later sources to the same destination. */
  lemma FirstBefore(m: Move, moves: seq<Move>, over: seq<nat>, dst: nat)
    requires Ascending(over) && over != [] && m.src == over[0] && m.dst == dst
    requires Between(moves, over[1..], [dst]) && Ordered(moves)
    ensures Between([m] + moves, over, [dst]) && Ordered([m] + moves)
  {
    forall j | 0 <= j < |moves|
      ensures m.src < moves[j].src && moves[j].dst == dst
    {
      assert moves[j] in moves;
      var k :| 0 <= k < |over[1..]| && over[1..][k] == moves[j].src;
      assert over[1..][k] == over[k + 1];
    }
    hide Ascending;
    assert forall x | x in moves :: x.src in over[1..] && x.dst == dst;
  }

  lemma {:induction false} TakesOrdered(q: Queues, over: seq<nat>, dst: nat, avg: real)
    requires Ascending(over)
    ensures Between(Takes(q, over, dst, avg), over, [dst]) && Ordered(Takes(q, over, dst, avg))
    decreases |over|
  {
    hide Overloaded, Underloaded, Apply, Ordered;
    if over == [] || (Overloaded(Load(q, over[0]), avg) && !Underloaded(Load(q, dst), avg)) {
      NoMoves(over, [dst]);
    } else {
      var rest := over[1..];
      assert Ascending(rest);
      if !Overloaded(Load(q, over[0]), avg) {
        TakesOrdered(q, rest, dst, avg);
      } else {
        var m := MoveOf(q, over[0], dst, avg);
        TakesOrdered(Apply(q, m), rest, dst, avg);
        FirstBefore(m, Takes(Apply(q, m), rest, dst, avg), over, dst);
      }
    }
  }

  lemma NoMoves(over: seq<nat>, under: seq<nat>)
    ensures Between([], over, under) && Ordered([])
  {
  }

  lemma {:induction false} ScheduleOrdered(q: Queues, over: seq<nat>, under: seq<nat>, avg: real)
    requires Ascending(over) && Ascending(under)
    ensures Between(Schedule(q, over, under, avg), over, under) && Ordered(Schedule(q, over, under, avg))
    decreases |under|
  {
    if under != [] {
      var first := Takes(q, over, under[0], avg);
      var rest := Schedule(Replay(q, first), over, under[1..], avg);
      assert Ascending(under[1..]);
      TakesOrdered(q, over, under[0], avg);
      ScheduleOrdered(Replay(q, first), over, under[1..], avg);
      forall i, j | 0 <= i < |first| && 0 <= j < |rest|
        ensures first[i].dst < rest[j].dst
      {
        assert first[i] in first && rest[j] in rest;
        var k :| 0 <= k < |under[1..]| && under[1..][k] == rest[j].dst;
        assert under[1..][k] == under[k + 1];
      }
      Joined(first, rest);
    }
  }

  lemma Joined(first: seq<Move>, rest: seq<Move>)
    requires Ordered(first) && Ordered(rest)
    requires forall i, j | 0 <= i < |first| && 0 <= j < |rest| :: first[i].dst < rest[j].dst
    ensures Ordered(first + rest)
  {
  }

  /** The loads of sources only fall, and those of destinations only rise. */
  lemma {:induction false} Drift(q: Queues, moves: seq<Move>, over: seq<nat>, under: seq<nat>)
    requires Between(moves, over, under) && forall i | i in over :: i !in under
    ensures forall i | i in over :: Load(Replay(q, moves), i) <= Load(q, i)
    ensures forall j | j in under :: Load(Replay(q, moves), j) >= Load(q, j)
    decreases |moves|
  {
    if moves != [] {
      var n := |moves| - 1;
      assert moves[n] in moves;
      assert forall m | m in moves[..n] :: m in moves;
      Drift(q, moves[..n], over, under);
      OneDrift(Replay(q, moves[..n]), moves[n]);
    }
  }

  lemma OneDrift(q: Queues, m: Move)
    ensures forall i: nat | i != m.dst :: Load(Apply(q, m), i) <= Load(q, i)
    ensures forall j: nat | j != m.src :: Load(Apply(q, m), j) >= Load(q, j)
  {
  }

  ghost predicate Served(moves: seq<Move>, src: nat, dst: nat) {
    exists m :: m in moves && m.src == src && m.dst == dst
  }

  /** The guards of lines 141 and 142 let a move through. */
  predicate Ready(q: Queues, src: nat, dst: nat, avg: real) {
    src < |q| && dst < |q| && Overloaded(|q[src]|, avg) && Underloaded(|q[dst]|, avg)
  }

  lemma ReadyBefore(q: Queues, moves: seq<Move>, over: seq<nat>, under: seq<nat>, i: nat, j: nat, avg: real)
    requires Between(moves, over, under) && (forall i | i in over :: i !in under)
    requires i in over && j in under && i < |q| && j < |q|
    requires Ready(Replay(q, moves), i, j, avg)
    ensures Ready(q, i, j, avg)
  {
    Drift(q, moves, over, under);
    assert Load(Replay(q, moves), i) <= Load(q, i) && Load(Replay(q, moves), j) >= Load(q, j);
  }

  lemma {:induction false} SameLength(q: Queues, moves: seq<Move>)
    ensures |Replay(q, moves)| == |q|
    decreases |moves|
  {
    if moves != [] { SameLength(q, moves[..|moves| - 1]); }
  }

  lemma {:induction false} TakesSettles(q: Queues, over: seq<nat>, dst: nat, avg: real, i: nat)
    requires Ascending(over) && i in over && dst !in over && i < |q| && dst < |q|
    requires Ready(Replay(q, Takes(q, over, dst, avg)), i, dst, avg)
    ensures Served(Takes(q, over, dst, avg), i, dst)
    decreases |over|
  {
    hide Replay, Apply, Overloaded, Underloaded, Between;
    var moves, rest := Takes(q, over, dst, avg), over[1..];
    TakesOrdered(q, over, dst, avg);
    ReadyBefore(q, moves, over, [dst], i, dst, avg);
    if !Overloaded(Load(q, over[0]), avg) {
      TakesSettles(q, rest, dst, avg, i);
    } else {
      var m := MoveOf(q, over[0], dst, avg);
      var tail := Takes(Apply(q, m), rest, dst, avg);
      assert moves == [m] + tail && m in moves;
      if i != over[0] {
        ReplayOne(q, m, tail);
        ApplyLength(q, m);
        TakesSettles(Apply(q, m), rest, dst, avg, i);
        var x :| x in tail && x.src == i && x.dst == dst;
        assert x in moves;
      }
    }
  }

  lemma ApplyLength(q: Queues, m: Move)
    ensures |Apply(q, m)| == |q|
  {
  }

  lemma {:induction false} ScheduleSettles(q: Queues, over: seq<nat>, under: seq<nat>, avg: real, i: nat, j: nat)
    requires Ascending(over) && Ascending(under) && (forall i | i in over :: i !in under)
    requires i in over && j in under && i < |q| && j < |q|
    requires Ready(Replay(q, Schedule(q, over, under, avg)), i, j, avg)
    ensures Served(Schedule(q, over, under, avg), i, j)
    decreases |under|
  {
    hide Replay, Ready, Takes, Ordered;
    var first := Takes(q, over, under[0], avg);
    var q1, rest := Replay(q, first), under[1..];
    var later := Schedule(q1, over, rest, avg);
    assert Schedule(q, over, under, avg) == first + later;
    ReplayBoth(q, first, later);
    SameLength(q, first);
    if j == under[0] {
      assert Ascending(rest);
      ScheduleOrdered(q1, over, rest, avg);
      assert Between(later, over, under);
      ReadyBefore(q1, later, over, under, i, j, avg);
      TakesSettles(q, over, j, avg, i);
    } else {
      assert Ascending(rest);
      ScheduleSettles(q1, over, rest, avg, i, j);
    }
  }

  /** What balancing leaves behind: it serves each pair of an overloaded and an underloaded processer at most once,
      and a pair that still qualifies at the end has been served. */
  lemma NoPairIsPassedBy(q: Queues, i: nat, j: nat)
    requires q != [] && Ready(q, i, j, Average(q))
    ensures var avg := Average(q);
            var moves := Schedule(q, Over(q, avg), Under(q, avg), avg);
            && Ordered(moves)
            && (Ready(Replay(q, moves), i, j, avg) ==> Served(moves, i, j))
  {
    hide Replay, Schedule, Ordered;
    var avg := Average(q);
    var over, under := Over(q, avg), Under(q, avg);
    ScheduleOrdered(q, over, under, avg);
    if Ready(Replay(q, Schedule(q, over, under, avg)), i, j, avg) {
      ScheduleSettles(q, over, under, avg, i, j);
    }
  }

  // ----- The methods

  ghost predicate DistinctProcs(procs: seq<Processer>) {
    forall i, j | 0 <= i < j < |procs| :: procs[i] != procs[j]
  }

  function QueuesOf(procs: seq<Processer>): Queues
    reads procs
  {
    seq(|procs|, i requires 0 <= i < |procs| reads procs => procs[i].runnable)
  }

  lemma {:induction false} TotalOne(q: Queues, i: nat)
    requires i < |q|
    ensures Total(q[..i + 1]) == Total(q[..i]) + |q[i]|
  {
    assert q[..i + 1][..i] == q[..i];
  }

  /** Lines 141-151 for one pair of processers; says whether the inner loop goes on. */
  method Balance(procs: seq<Processer>, src: nat, dst: nat, avg: real) returns (goOn: bool, ghost made: seq<Move>)
    requires DistinctProcs(procs) && src < |procs| && dst < |procs|
    modifies procs
    ensures made == [] ==> QueuesOf(procs) == old(QueuesOf(procs))
    ensures made != [] ==>
              && |made| == 1
              && Legal(old(QueuesOf(procs)), avg, made[0])
              && made[0] == MoveOf(old(QueuesOf(procs)), src, dst, avg)
              && QueuesOf(procs) == Apply(old(QueuesOf(procs)), made[0])
    ensures made != [] <==> Overloaded(|old(procs[src].runnable)|, avg) && Underloaded(|old(procs[dst].runnable)|, avg)
    ensures goOn <==> !Overloaded(|old(procs[src].runnable)|, avg) || Underloaded(|old(procs[dst].runnable)|, avg)
  {
    made := [];
    if !Overloaded(procs[src].TaskSize(), avg) {
      return true, made;
    }
    if !Underloaded(procs[dst].TaskSize(), avg) {
      return false, made;
    }
    ghost var q := QueuesOf(procs);
    StealNumFits(|q[src]|, |q[dst]|, avg);
    var num := StealNum(procs[src].TaskSize(), avg);
    var stolen := procs[src].Steal(num);
    if stolen != [] {
      procs[dst].AddTask(stolen);
    }
    made := [Move(src, dst, num)];
    goOn := true;
    assert QueuesOf(procs) == Apply(q, made[0]);
  }

  lemma TraceGrows(q: Queues, avg: real, moves: seq<Move>, m: Move)
    requires Trace(q, avg, moves) && Legal(Replay(q, moves), avg, m)
    ensures Trace(q, avg, moves + [m]) && Replay(q, moves + [m]) == Apply(Replay(q, moves), m)
  {
    var all, n := moves + [m], |moves|;
    assert all[..n] == moves;
    forall i | 0 <= i < |all|
      ensures Legal(Before(q, all, i), avg, all[i])
    {
      if i < n {
        assert all[..i] == moves[..i];
        assert Legal(Before(q, moves, i), avg, moves[i]);
      }
    }
  }

  /** Lines 120-123. */
  method CountTasks(procs: seq<Processer>) returns (total: nat)
    ensures total == Total(QueuesOf(procs))
  {
    total := 0;
    ghost var q := QueuesOf(procs);
    for i := 0 to |procs|
      invariant total == Total(q[..i])
    {
      TotalOne(q, i);
      total := total + procs[i].TaskSize();
    }
    assert q[..|procs|] == q;
  }

  /** Lines 127-136. */
  method Sort(procs: seq<Processer>, avg: real) returns (over: seq<nat>, under: seq<nat>)
    ensures over == Over(QueuesOf(procs), avg) && under == Under(QueuesOf(procs), avg)
  {
    over, under := [], [];
    ghost var q := QueuesOf(procs);
    for k := 0 to |procs|
      invariant over == Over(q[..k], avg) && under == Under(q[..k], avg)
    {
      assert q[..k + 1][..k] == q[..k];
      if Overloaded(procs[k].TaskSize(), avg) {
        over := over + [k];
      } else if Underloaded(procs[k].TaskSize(), avg) {
        under := under + [k];
      }
    }
    assert q[..|procs|] == q;
  }

  /** Lines 140-152: one underloaded processer takes from the overloaded ones in turn, after the moves `before`. */
  method Fill(procs: seq<Processer>, over: seq<nat>, dst: nat, avg: real, ghost q: Queues, ghost before: seq<Move>)
    returns (ghost moves: seq<Move>)
    requires DistinctProcs(procs) && dst < |procs| && forall i | i in over :: i < |procs|
    requires Trace(q, avg, before) && QueuesOf(procs) == Replay(q, before)
    modifies procs
    ensures Trace(q, avg, moves) && QueuesOf(procs) == Replay(q, moves)
    ensures moves == before + Takes(old(QueuesOf(procs)), over, dst, avg)
  {
    hide Trace, Replay, Legal, Apply, Overloaded, Underloaded, MoveOf;
    moves := before;
    ghost var all := before + Takes(QueuesOf(procs), over, dst, avg);
    var goOn, b := true, 0;
    while goOn && b < |over|
      invariant 0 <= b <= |over|
      invariant Trace(q, avg, moves) && QueuesOf(procs) == Replay(q, moves)
      invariant all == moves + if goOn then Takes(QueuesOf(procs), over[b..], dst, avg) else []
      decreases |over| - b
    {
      ghost var made;
      assert over[b] in over && over[b..][1..] == over[b + 1..];
      goOn, made := Balance(procs, over[b], dst, avg);
      if made != [] {
        TraceGrows(q, avg, moves, made[0]);
        moves := moves + [made[0]];
      }
      b := b + 1;
    }
  }

  lemma Nothing(q: Queues, avg: real)
    ensures Trace(q, avg, []) && Replay(q, []) == q
  {
  }

  lemma SomeTake(q: Queues, avg: real)
    ensures Schedule(q, Over(q, avg), Under(q, avg), avg) != [] <==> exists i, j :: Ready(q, i, j, avg)
  {
    var over, under := Over(q, avg), Under(q, avg);
    if over != [] && under != [] {
      assert over[0] in over && under[0] in under;
      assert Ready(q, over[0], under[0], avg);
      assert Takes(q, over, under[0], avg) != [];
    } else if over == [] {
      NoneTake(q, under, avg);
    }
  }

  lemma {:induction false} NoneTake(q: Queues, under: seq<nat>, avg: real)
    ensures Schedule(q, [], under, avg) == []
    decreases |under|
  {
    if under != [] { NoneTake(q, under[1..], avg); }
  }

  /** Lines 116-154: what the method does is the schedule, which is a trace of legal moves from the queues as they
      were; and it makes a move if, and only if, some processer is overloaded and some other is underloaded. */
  method Rebalance(procs: seq<Processer>) returns (ghost moves: seq<Move>)
    requires DistinctProcs(procs)
    modifies procs
    ensures procs == [] ==> moves == []
    ensures procs != [] ==>
              var q, avg := old(QueuesOf(procs)), Average(old(QueuesOf(procs)));
              && moves == Schedule(q, Over(q, avg), Under(q, avg), avg)
              && QueuesOf(procs) == Replay(q, moves)
              && Trace(q, avg, moves)
              && (moves != [] <==> exists i, j :: Ready(q, i, j, avg))
  {
    hide Trace, Replay, Ready, Takes;
    moves := [];
    if procs == [] {
      return;
    }
    ghost var q := QueuesOf(procs);
    var totalTasks := CountTasks(procs);
    var avg := totalTasks as real / |procs| as real;
    var over, under := Sort(procs, avg);
    Nothing(q, avg);
    SomeTake(q, avg);
    ghost var all := Schedule(q, over, under, avg);
    for a := 0 to |under|
      invariant Trace(q, avg, moves) && QueuesOf(procs) == Replay(q, moves)
      invariant all == moves + Schedule(QueuesOf(procs), over, under[a..], avg)
    {
      assert under[a] in under && under[a..][1..] == under[a + 1..];
      ghost var now, was := QueuesOf(procs), moves;
      moves := Fill(procs, over, under[a], avg, q, moves);
      ReplayBoth(q, was, Takes(now, over, under[a], avg));
    }
  }
}
