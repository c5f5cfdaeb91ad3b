/**
A thread that runs alone finishes its call: from every state that any run can reach, whatever the other threads were
doing when they stopped, a push or a pop that takes the next steps by itself returns after at most 29 of them.
*/
module QueueProgress {
  import opened Options
  import opened QueueModel
  import opened QueueInvariant
  import opened QueueFrames
  import opened QueueEffects
  import opened QueueSteps

  const SOLO_STEPS: nat := 29

  /** The node at `tail` holds data, so that a data CAS on it fails. */
  predicate TailFull(s: State) {
    Get(s, s.tail.ptr).data.Some?
  }

  /** From line 144 with the current tail: a full tail has to be advanced first. */
  function AcquireRank(s: State): nat {
    if TailFull(s) then 22 else 12
  }

  function ContRank(s: State, k: Cont): nat {
    match k
    case AfterPush(p, seen) => if p.fill.NotYet? then AcquireRank(s) + One(seen != s.tail) else 3
    case AfterEmpty => 1
    case AfterTake(_) => 3
    case AfterMiss(seen) => 12 + One(seen != s.head)
  }

  function SwingRank(s: State, p: Push, cur: NodeId, seen: Word): nat {
    if !p.fill.NotYet? then 8 + One(seen != s.tail)
    else if s.tail.ptr == cur then 18 + One(seen != s.tail)
    else AcquireRank(s) + 5
  }

  function LinkRank(s: State, p: Push, w: Word): nat {
    if !p.fill.NotYet? then 10 else if s.tail.ptr == w.ptr then 20 else AcquireRank(s) + 6
  }

  /** How many steps a thread at this program counter needs at most, if nobody else moves. */
  function Rank(s: State, pc: Pc): nat {
    match pc
    case Idle => 0
    case PushLoad(p) => AcquireRank(s) + 2
    case PushAcquire(p, seen) => AcquireRank(s) + One(seen != s.tail)
    case PushFill(p, w) => if Get(s, w.ptr).data.None? then 11 else LinkRank(s, p, w) + 1
    case PushLink(p, w) => LinkRank(s, p, w)
    case PushSwing(p, cur, seen, _) => SwingRank(s, p, cur, seen)
    case PushCount(_) => 3
    case PushSize(_) => 2
    case PushDone(_) => 1
    case PopPeek => 16
    case PopPeekAgain(_) => 15
    case PopLoad => 14
    case PopAcquire(seen) => 12 + One(seen != s.head)
    case PopCheck(w) => if w == s.head then 11 else 19
    case PopNext(w) => if w == s.head then 10 else 18
    case PopSwing(w, _) => if w == s.head then 9 else 17
    case PopTake(_) => 8
    case PopCount(_) => 3
    case PopSize(_) => 2
    case PopDone(_) => 1
    case Free(w, _, read, k) => ContRank(s, k) + 3 + One(read != Some(Get(s, w.ptr).count))
    case Drop(n, read, k) => ContRank(s, k) + 3 + One(read != Some(Get(s, n).count))
    case Destroy(_, k) => ContRank(s, k) + 2
    case CountDelete(k) => ContRank(s, k) + 1
  }

  lemma RankBound(s: State, pc: Pc)
    ensures Rank(s, pc) <= SOLO_STEPS
  {
  }

  predicate PushMoves(pc: Pc) {
    pc.PushLoad? || pc.PushAcquire? || pc.PushFill? || pc.PushLink? || pc.PushCount? || pc.PushSize? || pc.PushDone?
  }

  /** The thread has fewer steps to go after its next one. */
  predicate Closer(s: State, s': State, a: Tid) {
    a in s.threads && a in s'.threads && Rank(s', s'.threads[a]) < Rank(s, s.threads[a])
  }

  lemma PushGetsCloser(cfg: Config, s: State, a: Tid)
    requires a in s.threads && PushMoves(s.threads[a])
    requires s.threads[a].PushFill? ==> s.threads[a].p.fill.NotYet?
    requires s.threads[a].PushLink? ==> s.threads[a].p.own.Some?
    ensures Closer(s, Apply(cfg, s, a, Go), a)
  {
  }

  lemma SwingGetsCloser(cfg: Config, s: State, a: Tid)
    requires a in s.threads && s.threads[a].PushSwing?
    requires s.tail == s.threads[a].seen ==>
               && Get(s, s.threads[a].next.ptr).data.None?
               && s.threads[a].next.ptr != s.threads[a].cur && s.tail.ptr == s.threads[a].cur
    ensures Closer(s, Apply(cfg, s, a, Go), a)
  {
  }

  predicate PopMoves(pc: Pc) {
    || pc.PopPeek? || pc.PopPeekAgain? || pc.PopLoad? || pc.PopAcquire? || pc.PopCheck? || pc.PopNext? || pc.PopSwing?
    || pc.PopTake? || pc.PopCount? || pc.PopSize? || pc.PopDone?
  }

  lemma PopGetsCloser(cfg: Config, s: State, a: Tid)
    requires a in s.threads && PopMoves(s.threads[a])
    ensures Closer(s, Apply(cfg, s, a, Go), a)
  {
  }

  lemma ContSame(s: State, s': State, k: Cont)
    requires s'.head == s.head && s'.tail == s.tail && TailFull(s') == TailFull(s)
    ensures ContRank(s', k) == ContRank(s, k) == Rank(s', Resume(k))
  {
  }

  lemma ReleaseGetsCloser(cfg: Config, s: State, a: Tid)
    requires a in s.threads && Releases(s.threads[a])
    ensures Closer(s, Apply(cfg, s, a, Go), a)
  {
    var s' := Apply(cfg, s, a, Go);
    ContSame(s, s', s.threads[a].k);
    hide Resume, ContRank;
  }

  /** What the invariant adds: the push that is about to store has not stored yet, and the node that `tail` advances
      to is empty. */
  lemma SoloFacts(cfg: Config, s: State, a: Tid)
    requires Inv(cfg, s) && a in s.threads
    ensures s.threads[a].PushFill? ==> s.threads[a].p.fill.NotYet?
    ensures s.threads[a].PushLink? ==> s.threads[a].p.own.Some?
    ensures s.threads[a].PushSwing? && s.tail == s.threads[a].seen ==>
              && Get(s, s.threads[a].next.ptr).data.None?
              && s.threads[a].next.ptr != s.threads[a].cur && s.tail.ptr == s.threads[a].cur
  {
    assert ThreadInv(cfg, s, a);
    if s.threads[a].PushSwing? && s.tail == s.threads[a].seen {
      var pc := s.threads[a];
      SwingFacts(cfg, s, a, pc.p, pc.cur, pc.seen, pc.next);
      hide Inv;
      hide Accounted, LinksInv, Chained;
    }
  }

  /** From its k-th state on, only thread a takes steps; its weak CASes may fail spuriously. */
  ghost predicate Solo(cfg: Config, run: seq<State>, k: nat, a: Tid) {
    && Run(cfg, run) && k < |run| && a in run[k].threads
    && forall i | k < i < |run| :: SoloAt(cfg, run, i, a)
  }

  ghost predicate SoloAt(cfg: Config, run: seq<State>, i: int, a: Tid) {
    0 < i < |run| && (Step(cfg, run[i - 1], run[i], a, Go) || Step(cfg, run[i - 1], run[i], a, Spurious))
  }

  /** A weak CAS that fails although the word matches changes nothing; one that had to fail anyway is like any other. */
  lemma SpuriousStutters(cfg: Config, s: State, a: Tid)
    requires a in s.threads && s.threads[a].PushSwing?
    requires s.tail == s.threads[a].seen ==> s.tail.ptr == s.threads[a].cur
    ensures Apply(cfg, s, a, Spurious) == if s.tail == s.threads[a].seen then s else Apply(cfg, s, a, Go)
  {
    assert s.threads[a := s.threads[a]] == s.threads;
  }

  /** How many of the steps from k to i were such failures. */
  function Stutters(run: seq<State>, k: nat, i: nat): nat
    requires i < |run|
  {
    if i <= k then 0 else Stutters(run, k, i - 1) + if run[i] == run[i - 1] then 1 else 0
  }

  lemma GoGetsCloser(cfg: Config, s: State, a: Tid)
    requires Inv(cfg, s) && a in s.threads && !s.threads[a].Idle?
    ensures Closer(s, Apply(cfg, s, a, Go), a)
  {
    hide Inv, Apply, Closer;
    SoloFacts(cfg, s, a);
    if PushMoves(s.threads[a]) {
      PushGetsCloser(cfg, s, a);
    } else if PopMoves(s.threads[a]) {
      PopGetsCloser(cfg, s, a);
    } else if s.threads[a].PushSwing? {
      SwingGetsCloser(cfg, s, a);
    } else {
      ReleaseGetsCloser(cfg, s, a);
    }
  }

  /** Every step of a thread, but a spurious failure, brings it closer to its return. */
  lemma {:induction false} SoloRank(cfg: Config, run: seq<State>, k: nat, a: Tid, i: nat)
    requires Solo(cfg, run, k, a) && k <= i < |run|
    ensures a in run[i].threads
    ensures Rank(run[i], run[i].threads[a]) + (i - k) <= Rank(run[k], run[k].threads[a]) + Stutters(run, k, i)
  {
    hide Run, Inv, Apply, Rank;
    if i > k {
      SoloRank(cfg, run, k, a, i - 1);
      RunInv(cfg, run, i - 1);
      assert SoloAt(cfg, run, i, a);
      var s := run[i - 1];
      GoGetsCloser(cfg, s, a);
      if !Step(cfg, s, run[i], a, Go) {
        SoloFacts(cfg, s, a);
        SpuriousStutters(cfg, s, a);
      }
    }
  }

  /** A thread that runs alone returns: however a run has gone, the thread cannot take more than 29 steps by itself,
      spurious failures of its weak CASes not counted, without being back from its call, whatever the stopped threads
      hold; and until it is back it can take a step. */
  lemma AloneItReturns(cfg: Config, run: seq<State>, k: nat, a: Tid)
    requires Solo(cfg, run, k, a)
    ensures |run| - 1 - k <= SOLO_STEPS + Stutters(run, k, |run| - 1)
    ensures a in run[|run| - 1].threads
    ensures |run| - 1 - k == SOLO_STEPS + Stutters(run, k, |run| - 1) ==> run[|run| - 1].threads[a].Idle?
    ensures run[|run| - 1].threads[a].Idle? ||
            Step(cfg, run[|run| - 1], Apply(cfg, run[|run| - 1], a, Go), a, Go)
  {
    hide Run, Apply;
    SoloRank(cfg, run, k, a, |run| - 1);
    RankBound(run[k], run[k].threads[a]);
  }
}
