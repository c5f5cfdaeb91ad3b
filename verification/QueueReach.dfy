/**
Which pointers may outlive the node they point to.  No `next` field from `head` on does, and no word that a thread is
about to install in `head` or `tail` does; but the `next` field of a node that `head` has passed may, while somebody
still holds that node.
*/
module QueueReach {
  import opened Options
  import opened QueueModel
  import opened QueueInvariant
  import opened QueueFrames
  import opened QueueSteps
  import opened QueueTheorems
  import opened QueueLimits

  /** Node n has not been deleted, and its `next` points to a node x that has. */
  predicate Dangles(s: State, n: NodeId, x: NodeId) {
    && n < |s.nodes| && s.nodes[n].life.Shared?
    && s.nodes[n].next.Some? && s.nodes[n].next.value.ptr == x
    && x < |s.nodes| && s.nodes[x].life.Freed?
  }

  /** The word that the thread's next operation installs in `tail` or `head`, if its CAS succeeds. */
  function Installs(s: State, pc: Pc): Option<Word> {
    match pc
    case PushSwing(_, _, seen, next) => if s.tail == seen then Some(next) else None
    case PopSwing(w, next) => if s.head == w then Some(next) else None
    case _ => None
  }

  lemma ChainNext(s: State, i: nat)
    requires Chained(s) && i < |s.chain|
    ensures s.chain[i] < |s.nodes| && s.nodes[s.chain[i]].pos == Some(i)
    ensures s.nodes[s.chain[i]].next == if i == |s.chain| - 1 then None else Some(Word(s.chain[i + 1], 1))
  {
    hide Team;
  }

  lemma NextHasPlace(cfg: Config, s: State, n: NodeId)
    requires Inv(cfg, s) && n < |s.nodes| && s.nodes[n].next.Some? && !s.nodes[n].life.Freed?
    ensures IsLinked(s, n) && Pos(s, n) + 1 < |s.chain|
    ensures s.nodes[n].next == Some(Word(s.chain[Pos(s, n) + 1], 1))
  {
    hide Inv, Accounted, LinksInv, DataInv, Chained, Team;
    Nodes(cfg, s, n);
    if s.nodes[n].pos.Some? { ChainNext(s, Pos(s, n)); }
  }

  lemma DeletedExactly(cfg: Config, s: State, j: nat)
    requires Inv(cfg, s) && j < |s.chain|
    ensures s.chain[j] < |s.nodes|
    ensures s.nodes[s.chain[j]].life.Freed? <==> j < s.h && !SomeoneHas(s, s.chain[j])
  {
    hide Inv, NodeInv, Chained, Tallied, SomeoneHas, Garbage, Get;
    InvChained(cfg, s);
    InOrder(s);
    ChainNext(s, j);
    var n := s.chain[j];
    Nodes(cfg, s, n);
    LinkedFacts(cfg, s, n);
    if j < s.h && !s.nodes[n].life.Freed? {
      assert j in Garbage(s) by { InGarbage(s, j); }
      GarbageIsHeld(cfg, s);
    }
    if SomeoneHas(s, n) { HeldIsNotDeleted(cfg, s, n); }
  }

  lemma InGarbage(s: State, j: nat)
    requires j < s.h && j < |s.chain| && s.chain[j] < |s.nodes| && !s.nodes[s.chain[j]].life.Freed?
    ensures j in Garbage(s)
  {
  }

  lemma HeldIsNotDeleted(cfg: Config, s: State, n: NodeId)
    requires Inv(cfg, s) && n < |s.nodes| && SomeoneHas(s, n)
    ensures !s.nodes[n].life.Freed?
  {
    hide Inv, NodeInv, Chained, Tallied;
    var b :| b in s.threads && InHand(s.threads[b]) == Some(n);
    Threads(cfg, s, b);
    Nodes(cfg, s, n);
    if Grip(s.threads[b]).Some? { HeldIsShared(cfg, s, n, b); }
  }

  /** The `next` of a live node points to a deleted node if and only if `head` has passed both and no thread holds the
      successor or is about to delete it.  So from `head` on no `next` dangles. */
  lemma NextIsLive(cfg: Config, run: seq<State>, i: nat, n: NodeId, x: Word)
    requires Run(cfg, run) && i < |run| && n < |run[i].nodes| && run[i].nodes[n].next == Some(x)
    requires !run[i].nodes[n].life.Freed?
    ensures x.ptr < |run[i].nodes|
    ensures run[i].nodes[x.ptr].life.Freed? <==> Pos(run[i], n) + 1 < run[i].h && !SomeoneHas(run[i], x.ptr)
    ensures run[i].h <= Pos(run[i], n) + 1 ==> run[i].nodes[x.ptr].life.Shared?
  {
    hide Inv, Run, Chained, SomeoneHas;
    RunInv(cfg, run, i);
    NextHasPlace(cfg, run[i], n);
    DeletedExactly(cfg, run[i], Pos(run[i], n) + 1);
    if run[i].h <= Pos(run[i], n) + 1 { ReachableIsLive(cfg, run, i, Pos(run[i], n) + 1); }
  }

  /** No thread follows a dangling pointer: whatever word a thread's next CAS puts into `tail` or `head` points to a
      node that is live and in the chain, one place further on. */
  lemma InstalledIsLive(cfg: Config, run: seq<State>, i: nat, b: Tid, x: Word)
    requires Run(cfg, run) && i < |run| && b in run[i].threads && Installs(run[i], run[i].threads[b]) == Some(x)
    ensures x.ptr < |run[i].nodes| && run[i].nodes[x.ptr].life.Shared?
    ensures Pos(run[i], x.ptr) == 1 + if run[i].threads[b].PushSwing? then run[i].t else run[i].h
  {
    hide Inv, Run, Chained;
    RunInv(cfg, run, i);
    var s := run[i];
    InvChained(cfg, s);
    Threads(cfg, s, b);
    NotAtEnds(s);
    var j := 1 + if s.threads[b].PushSwing? then s.t else s.h;
    assert j < |s.chain| && x == Word(s.chain[j], 1);
    InOrder(s);
    ReachableIsLive(cfg, run, i, j);
    ChainNext(s, j);
  }

  lemma InOrder(s: State)
    requires Chained(s)
    ensures s.h <= s.t < |s.chain|
  {
    hide Team;
  }

  // ----- A node behind `head` that is still held, and whose successor has been deleted

  function Dangling0(): State {
    State(Word(0, 1), Word(0, 1),
      [Node(None, Counter(0, 2), None, Some(0), Shared, None, false, Attached, Attached)],
      map[
          0 := Idle,
          1 := Idle,
          2 := Idle,
          3 := Idle],
      0, 0, 0, 0, [0], 0, 0, 0, 0)
  }

  function Dangling1(): State {
    State(Word(0, 1), Word(1, 1),
      [Node(Some(5), Counter(0, 2), Some(Word(1, 1)), Some(0), Shared,
            Some(Fill(5, 0)), false, Detached(0, 2), Attached),
       Node(None, Counter(0, 2), None, Some(1), Shared, None, false, Attached, Attached)],
      map[
          0 := Free(Word(0, 2), TailSide, None, AfterPush(Push(5, None, First, 0, 0), Word(0, 2))),
          1 := Idle,
          2 := Idle,
          3 := Idle],
      0, 0, 0, 0, [0, 1], 0, 1, 1, 0)
  }

  lemma DanglingStage1(cfg: Config)
    ensures Leads(cfg, Dangling0(), Dangling1(), false)
  {
    hide Leads;
    var s1 := Apply(cfg, Dangling0(), 0, CallPush(5));
    var s2 := Apply(cfg, s1, 0, Go);
    var s3 := Apply(cfg, s2, 0, Go);
    var s4 := Apply(cfg, s3, 0, Go);
    var s5 := Apply(cfg, s4, 0, Go);
    Single(cfg, Dangling0(), s1, 0, CallPush(5), false);
    Single(cfg, s1, s2, 0, Go, false);
    Single(cfg, s2, s3, 0, Go, false);
    Single(cfg, s3, s4, 0, Go, false);
    Single(cfg, s4, s5, 0, Go, false);
    Single(cfg, s5, Dangling1(), 0, Go, false);
    Then(cfg, Dangling0(), s1, s2, false);
    Then(cfg, Dangling0(), s2, s3, false);
    Then(cfg, Dangling0(), s3, s4, false);
    Then(cfg, Dangling0(), s4, s5, false);
    Then(cfg, Dangling0(), s5, Dangling1(), false);
  }

  function Dangling2(): State {
    State(Word(0, 1), Word(1, 2),
      [Node(Some(5), Counter(0, 2), Some(Word(1, 1)), Some(0), Shared,
            Some(Fill(5, 0)), false, Detached(0, 2), Attached),
       Node(Some(6), Counter(0, 2), None, Some(1), Shared, Some(Fill(6, 1)), false, Attached, Attached),
       Node(None, Counter(0, 2), None, None, Private(1), None, false, Attached, Attached)],
      map[
          0 := Free(Word(0, 2), TailSide, None, AfterPush(Push(5, None, First, 0, 0), Word(0, 2))),
          1 := PushLink(Push(6, Some(2), First, 1, 0), Word(1, 2)),
          2 := Idle,
          3 := Idle],
      0, 0, 0, 0, [0, 1], 0, 1, 2, 0)
  }

  lemma DanglingStage2(cfg: Config)
    ensures Leads(cfg, Dangling1(), Dangling2(), false)
  {
    hide Leads;
    var s1 := Apply(cfg, Dangling1(), 1, CallPush(6));
    var s2 := Apply(cfg, s1, 1, Go);
    var s3 := Apply(cfg, s2, 1, Go);
    Single(cfg, Dangling1(), s1, 1, CallPush(6), false);
    Single(cfg, s1, s2, 1, Go, false);
    Single(cfg, s2, s3, 1, Go, false);
    Single(cfg, s3, Dangling2(), 1, Go, false);
    Then(cfg, Dangling1(), s1, s2, false);
    Then(cfg, Dangling1(), s2, s3, false);
    Then(cfg, Dangling1(), s3, Dangling2(), false);
  }

  function Dangling3(): State {
    State(Word(0, 1), Word(2, 1),
      [Node(Some(5), Counter(0, 2), Some(Word(1, 1)), Some(0), Shared,
            Some(Fill(5, 0)), false, Detached(0, 2), Attached),
       Node(Some(6), Counter(0, 1), Some(Word(2, 1)), Some(1), Shared, Some(Fill(6, 1)), false, Released, Attached),
       Node(None, Counter(0, 2), None, Some(2), Shared, None, false, Attached, Attached)],
      map[
          0 := Free(Word(0, 2), TailSide, None, AfterPush(Push(5, None, First, 0, 0), Word(0, 2))),
          1 := PushCount(Push(6, None, First, 1, 0)),
          2 := Idle,
          3 := Idle],
      0, 0, 0, 0, [0, 1, 2], 0, 2, 2, 0)
  }

  lemma DanglingStage3(cfg: Config)
    ensures Leads(cfg, Dangling2(), Dangling3(), false)
  {
    hide Leads;
    var s1 := Apply(cfg, Dangling2(), 1, Go);
    var s2 := Apply(cfg, s1, 1, Go);
    var s3 := Apply(cfg, s2, 1, Go);
    Single(cfg, Dangling2(), s1, 1, Go, false);
    Single(cfg, s1, s2, 1, Go, false);
    Single(cfg, s2, s3, 1, Go, false);
    Single(cfg, s3, Dangling3(), 1, Go, false);
    Then(cfg, Dangling2(), s1, s2, false);
    Then(cfg, Dangling2(), s2, s3, false);
    Then(cfg, Dangling2(), s3, Dangling3(), false);
  }

  function Dangling4(): State {
    State(Word(0, 1), Word(2, 1),
      [Node(Some(5), Counter(0, 2), Some(Word(1, 1)), Some(0), Shared,
            Some(Fill(5, 0)), false, Detached(0, 2), Attached),
       Node(Some(6), Counter(0, 1), Some(Word(2, 1)), Some(1), Shared, Some(Fill(6, 1)), false, Released, Attached),
       Node(None, Counter(0, 2), None, Some(2), Shared, None, false, Attached, Attached)],
      map[
          0 := Free(Word(0, 2), TailSide, None, AfterPush(Push(5, None, First, 0, 0), Word(0, 2))),
          1 := PushCount(Push(6, None, First, 1, 0)),
          2 := PopAcquire(Word(0, 1)),
          3 := Idle],
      0, 0, 0, 0, [0, 1, 2], 0, 2, 2, 0)
  }

  lemma DanglingStage4(cfg: Config)
    ensures Leads(cfg, Dangling3(), Dangling4(), false)
  {
    hide Leads;
    var s1 := Apply(cfg, Dangling3(), 2, CallPop);
    var s2 := Apply(cfg, s1, 2, Go);
    var s3 := Apply(cfg, s2, 2, Go);
    Single(cfg, Dangling3(), s1, 2, CallPop, false);
    Single(cfg, s1, s2, 2, Go, false);
    Single(cfg, s2, s3, 2, Go, false);
    Single(cfg, s3, Dangling4(), 2, Go, false);
    Then(cfg, Dangling3(), s1, s2, false);
    Then(cfg, Dangling3(), s2, s3, false);
    Then(cfg, Dangling3(), s3, Dangling4(), false);
  }

  function Dangling5(): State {
    State(Word(1, 1), Word(2, 1),
      [Node(Some(5), Counter(0, 2), Some(Word(1, 1)), Some(0), Shared,
            Some(Fill(5, 0)), false, Detached(0, 2), Detached(2, 2)),
       Node(Some(6), Counter(0, 1), Some(Word(2, 1)), Some(1), Shared, Some(Fill(6, 1)), false, Released, Attached),
       Node(None, Counter(0, 2), None, Some(2), Shared, None, false, Attached, Attached)],
      map[
          0 := Free(Word(0, 2), TailSide, None, AfterPush(Push(5, None, First, 0, 0), Word(0, 2))),
          1 := PushCount(Push(6, None, First, 1, 0)),
          2 := PopTake(Word(0, 2)),
          3 := Idle],
      0, 0, 0, 0, [0, 1, 2], 1, 2, 2, 0)
  }

  lemma DanglingStage5(cfg: Config)
    ensures Leads(cfg, Dangling4(), Dangling5(), false)
  {
    hide Leads;
    var s1 := Apply(cfg, Dangling4(), 2, Go);
    var s2 := Apply(cfg, s1, 2, Go);
    var s3 := Apply(cfg, s2, 2, Go);
    Single(cfg, Dangling4(), s1, 2, Go, false);
    Single(cfg, s1, s2, 2, Go, false);
    Single(cfg, s2, s3, 2, Go, false);
    Single(cfg, s3, Dangling5(), 2, Go, false);
    Then(cfg, Dangling4(), s1, s2, false);
    Then(cfg, Dangling4(), s2, s3, false);
    Then(cfg, Dangling4(), s3, Dangling5(), false);
  }

  function Dangling6(): State {
    State(Word(1, 1), Word(2, 1),
      [Node(Some(5), Counter(0, 2), Some(Word(1, 1)), Some(0), Shared,
            Some(Fill(5, 0)), false, Detached(0, 2), Detached(2, 2)),
       Node(Some(6), Counter(0, 1), Some(Word(2, 1)), Some(1), Shared, Some(Fill(6, 1)), false, Released, Attached),
       Node(None, Counter(0, 2), None, Some(2), Shared, None, false, Attached, Attached)],
      map[
          0 := Free(Word(0, 2), TailSide, None, AfterPush(Push(5, None, First, 0, 0), Word(0, 2))),
          1 := PushCount(Push(6, None, First, 1, 0)),
          2 := PopTake(Word(0, 2)),
          3 := PopAcquire(Word(1, 1))],
      0, 0, 0, 0, [0, 1, 2], 1, 2, 2, 0)
  }

  lemma DanglingStage6(cfg: Config)
    ensures Leads(cfg, Dangling5(), Dangling6(), false)
  {
    hide Leads;
    var s1 := Apply(cfg, Dangling5(), 3, CallPop);
    var s2 := Apply(cfg, s1, 3, Go);
    var s3 := Apply(cfg, s2, 3, Go);
    Single(cfg, Dangling5(), s1, 3, CallPop, false);
    Single(cfg, s1, s2, 3, Go, false);
    Single(cfg, s2, s3, 3, Go, false);
    Single(cfg, s3, Dangling6(), 3, Go, false);
    Then(cfg, Dangling5(), s1, s2, false);
    Then(cfg, Dangling5(), s2, s3, false);
    Then(cfg, Dangling5(), s3, Dangling6(), false);
  }

  function Dangling7(): State {
    State(Word(2, 1), Word(2, 1),
      [Node(Some(5), Counter(0, 2), Some(Word(1, 1)), Some(0), Shared,
            Some(Fill(5, 0)), false, Detached(0, 2), Detached(2, 2)),
       Node(Some(6), Counter(0, 1), Some(Word(2, 1)), Some(1), Shared,
            Some(Fill(6, 1)), false, Released, Detached(3, 2)),
       Node(None, Counter(0, 2), None, Some(2), Shared, None, false, Attached, Attached)],
      map[
          0 := Free(Word(0, 2), TailSide, None, AfterPush(Push(5, None, First, 0, 0), Word(0, 2))),
          1 := PushCount(Push(6, None, First, 1, 0)),
          2 := PopTake(Word(0, 2)),
          3 := PopTake(Word(1, 2))],
      0, 0, 0, 0, [0, 1, 2], 2, 2, 2, 0)
  }

  lemma DanglingStage7(cfg: Config)
    ensures Leads(cfg, Dangling6(), Dangling7(), false)
  {
    hide Leads;
    var s1 := Apply(cfg, Dangling6(), 3, Go);
    var s2 := Apply(cfg, s1, 3, Go);
    var s3 := Apply(cfg, s2, 3, Go);
    Single(cfg, Dangling6(), s1, 3, Go, false);
    Single(cfg, s1, s2, 3, Go, false);
    Single(cfg, s2, s3, 3, Go, false);
    Single(cfg, s3, Dangling7(), 3, Go, false);
    Then(cfg, Dangling6(), s1, s2, false);
    Then(cfg, Dangling6(), s2, s3, false);
    Then(cfg, Dangling6(), s3, Dangling7(), false);
  }

  function Dangling8(cfg: Config): State {
    State(Word(2, 1), Word(2, 1),
      [Node(Some(5), Counter(0, 2), Some(Word(1, 1)), Some(0), Shared,
            Some(Fill(5, 0)), false, Detached(0, 2), Detached(2, 2)),
       Node(if cfg.keepData then Some(6) else None, Counter(0, 1), Some(Word(2, 1)), Some(1), Shared,
            Some(Fill(6, 1)), true, Released, Detached(3, 2)),
       Node(None, Counter(0, 2), None, Some(2), Shared, None, false, Attached, Attached)],
      map[
          0 := Free(Word(0, 2), TailSide, None, AfterPush(Push(5, None, First, 0, 0), Word(0, 2))),
          1 := PushCount(Push(6, None, First, 1, 0)),
          2 := PopTake(Word(0, 2)),
          3 := Free(Word(1, 2), HeadSide, Some(Counter(0, 1)), AfterTake(Some(6)))],
      0, 0, 0, 0, [0, 1, 2], 2, 2, 2, 0)
  }

  lemma DanglingStage8(cfg: Config)
    ensures Leads(cfg, Dangling7(), Dangling8(cfg), false)
  {
    hide Leads;
    var s1 := Apply(cfg, Dangling7(), 3, Go);
    Single(cfg, Dangling7(), s1, 3, Go, false);
    Single(cfg, s1, Dangling8(cfg), 3, Go, false);
    Then(cfg, Dangling7(), s1, Dangling8(cfg), false);
  }

  function Dangling9(cfg: Config): State {
    State(Word(2, 1), Word(2, 1),
      [Node(Some(5), Counter(0, 2), Some(Word(1, 1)), Some(0), Shared,
            Some(Fill(5, 0)), false, Detached(0, 2), Detached(2, 2)),
       Node(if cfg.keepData then Some(6) else None, Counter(0, 0), Some(Word(2, 1)), Some(1), Freed,
            Some(Fill(6, 1)), true, Released, Released),
       Node(None, Counter(0, 2), None, Some(2), Shared, None, false, Attached, Attached)],
      map[
          0 := Free(Word(0, 2), TailSide, None, AfterPush(Push(5, None, First, 0, 0), Word(0, 2))),
          1 := PushCount(Push(6, None, First, 1, 0)),
          2 := PopTake(Word(0, 2)),
          3 := CountDelete(AfterTake(Some(6)))],
      0, 0, 0, 0, [0, 1, 2], 2, 2, 2, 0)
  }

  lemma DanglingStage9(cfg: Config)
    ensures Leads(cfg, Dangling8(cfg), Dangling9(cfg), false)
  {
    hide Leads;
    var s1 := Apply(cfg, Dangling8(cfg), 3, Go);
    Single(cfg, Dangling8(cfg), s1, 3, Go, false);
    Single(cfg, s1, Dangling9(cfg), 3, Go, false);
    Then(cfg, Dangling8(cfg), s1, Dangling9(cfg), false);
  }

  lemma DanglingEnds(cfg: Config)
    ensures Init({0, 1, 2, 3}) == Dangling0()
    ensures Dangles(Dangling9(cfg), 0, 1)
  {
  }

  /** In every variant of the queue some run leaves a dangling `next`: thread 0 stalls at line 113 with node 0 in
      its hands, and threads 2 and 3 pop nodes 0 and 1. */
  lemma SomeNextDangles(cfg: Config)
    ensures exists run: seq<State> {:trigger Run(cfg, run)} :: Run(cfg, run) && Dangles(run[|run| - 1], 0, 1)
  {
    hide Leads, Init, Run, Dangling0, Dangling1, Dangling2, Dangling3, Dangling4, Dangling5;
    hide Dangling6, Dangling7, Dangling8, Dangling9;
    DanglingEnds(cfg);
    DanglingStage1(cfg);
    DanglingStage2(cfg);
    DanglingStage3(cfg);
    DanglingStage4(cfg);
    DanglingStage5(cfg);
    DanglingStage6(cfg);
    DanglingStage7(cfg);
    DanglingStage8(cfg);
    DanglingStage9(cfg);
    Then(cfg, Dangling0(), Dangling1(), Dangling2(), false);
    Then(cfg, Dangling0(), Dangling2(), Dangling3(), false);
    Then(cfg, Dangling0(), Dangling3(), Dangling4(), false);
    Then(cfg, Dangling0(), Dangling4(), Dangling5(), false);
    Then(cfg, Dangling0(), Dangling5(), Dangling6(), false);
    Then(cfg, Dangling0(), Dangling6(), Dangling7(), false);
    Then(cfg, Dangling0(), Dangling7(), Dangling8(cfg), false);
    Then(cfg, Dangling0(), Dangling8(cfg), Dangling9(cfg), false);
    LeadsToRun(cfg, {0, 1, 2, 3}, Dangling9(cfg), false);
  }
}
