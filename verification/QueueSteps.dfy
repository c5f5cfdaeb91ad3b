/**
Every atomic operation of every thread keeps the queue's invariant: the operations that only read shared memory,
and then all of them together.
*/
module QueueSteps {
  import opened Options
  import opened QueueModel
  import opened QueueInvariant
  import opened QueueFrames
  import opened QueueEffects
  import opened QueueReleases

  // ----- Operations that only read shared memory

  lemma Knows(cfg: Config, s: State, a: Tid, pc: Pc)
    requires At(cfg, s, a, pc)
    ensures Inv(cfg, s) && a in s.threads && s.threads[a] == pc && PcInv(cfg, s, a, pc)
    ensures s.h <= s.t < |s.chain| && s.chain[s.t] == s.tail.ptr
  {
    assert ThreadInv(cfg, s, a) && Chained(s);
  }

  lemma SwingStays(cfg: Config, s: State, a: Tid, p: Push, cur: NodeId, seen: Word, next: Word)
    requires SwingKnows(cfg, s, a, p, cur, seen, next)
    requires s.t < |s.chain| && s.chain[s.t] == s.tail.ptr
    ensures s.tail.ptr == cur ==> PcInv(cfg, s, a, PushSwing(p, cur, s.tail, next))
    ensures s.tail.ptr != cur ==> PcInv(cfg, s, a, Drop(cur, None, AfterPush(p, s.tail)))
  {
  }

  lemma PushSwingFails(cfg: Config, s: State, a: Tid, p: Push, cur: NodeId, seen: Word, next: Word)
    requires At(cfg, s, a, PushSwing(p, cur, seen, next))
    ensures var s' := if s.tail.ptr == cur then To(s, a, PushSwing(p, cur, s.tail, next))
                      else To(s, a, Drop(cur, None, AfterPush(p, s.tail)));
            Keeps(cfg, s, s', a)
  {
    assert ThreadInv(cfg, s, a) && Chained(s);
    hide Inv;
    SwingStays(cfg, s, a, p, cur, seen, next);
    hide PcInv, Chained;
    if s.tail.ptr == cur {
      LocalStep(cfg, s, a, PushSwing(p, cur, s.tail, next));
    } else {
      LocalStep(cfg, s, a, Drop(cur, None, AfterPush(p, s.tail)));
    }
  }

  lemma PushFillFails(cfg: Config, s: State, a: Tid, p: Push, w: Word)
    requires At(cfg, s, a, PushFill(p, w)) && Get(s, w.ptr).data.Some?
    ensures Keeps(cfg, s, To(s, a, PushLink(p.(lost := p.lost + 1), w)), a)
  {
    hide Keeps;
    Knows(cfg, s, a, PushFill(p, w));
    assert NodeInv(cfg, s, w.ptr);
    hide Inv, PcInv, NodeInv;
    FillWasTaken(cfg, s, a, p, w);
    LocalStep(cfg, s, a, PushLink(p.(lost := p.lost + 1), w));
  }

  lemma FillWasTaken(cfg: Config, s: State, a: Tid, p: Push, w: Word)
    requires NodeInv(cfg, s, w.ptr) && FillKnows(s, a, p, w) && Get(s, w.ptr).data.Some?
    ensures PcInv(cfg, s, a, PushLink(p.(lost := p.lost + 1), w))
  {
    assert s.nodes[w.ptr].first.Some?;
    hide NodeInv;
  }

  lemma PushLinkFails(cfg: Config, s: State, a: Tid, p: Push, w: Word, next: Word)
    requires At(cfg, s, a, PushLink(p, w)) && p.fill.NotYet? && Get(s, w.ptr).next == Some(next)
    ensures Keeps(cfg, s, To(s, a, PushSwing(p, w.ptr, w, next)), a)
  {
    hide Inv, PcInv, Keeps, Chained;
    Knows(cfg, s, a, PushLink(p, w));
    InvChained(cfg, s);
    LinkWasMade(cfg, s, a, p, w, next);
    LocalStep(cfg, s, a, PushSwing(p, w.ptr, w, next));
  }

  lemma LinkWasMade(cfg: Config, s: State, a: Tid, p: Push, w: Word, next: Word)
    requires PcInv(cfg, s, a, PushLink(p, w)) && Chained(s) && p.fill.NotYet? && Get(s, w.ptr).next == Some(next)
    ensures PcInv(cfg, s, a, PushSwing(p, w.ptr, w, next))
  {
    hide Chained;
    NextInChain(s, w.ptr, next);
  }

  /** The four updates of the statistics. */
  predicate Counts(s: State, s': State, a: Tid, was: Pc, pc: Pc) {
    || (was.PushCount? && pc == PushSize(was.p) && s' == To(s, a, pc).(pushCount := s.pushCount + 1))
    || (was.PushSize? && pc == PushDone(was.p) && s' == To(s, a, pc).(size := s.size + 1))
    || (was.PopCount? && pc == PopSize(was.res) && s' == To(s, a, pc).(popCount := s.popCount + 1))
    || (was.PopSize? && pc == PopDone(was.res) && s' == To(s, a, pc).(size := s.size - 1))
  }

  lemma CountStep(cfg: Config, s: State, s': State, a: Tid, was: Pc, pc: Pc)
    requires At(cfg, s, a, was) && Counts(s, s', a, was, pc)
    ensures Keeps(cfg, s, s', a)
  {
    hide Inv, Keeps;
    Knows(cfg, s, a, was);
    QuietStep(cfg, s, s', a, pc);
  }

  lemma PopChecks(cfg: Config, s: State, a: Tid, w: Word)
    requires At(cfg, s, a, PopCheck(w))
    ensures Keeps(cfg, s, To(s, a, if w.ptr == s.tail.ptr then Drop(w.ptr, None, AfterEmpty) else PopNext(w)), a)
  {
    hide Inv, PcInv, Keeps;
    Knows(cfg, s, a, PopCheck(w));
    CheckKnows(cfg, s, a, w);
    if w.ptr == s.tail.ptr {
      LocalStep(cfg, s, a, Drop(w.ptr, None, AfterEmpty));
    } else {
      LocalStep(cfg, s, a, PopNext(w));
    }
  }

  lemma CheckKnows(cfg: Config, s: State, a: Tid, w: Word)
    requires PcInv(cfg, s, a, PopCheck(w)) && s.h <= s.t < |s.chain| && s.chain[s.t] == s.tail.ptr
    ensures PcInv(cfg, s, a, if w.ptr == s.tail.ptr then Drop(w.ptr, None, AfterEmpty) else PopNext(w))
  {
  }

  /** A node before the tail has a successor: the null case of `next` does not occur. */
  lemma PopReadsNext(cfg: Config, s: State, a: Tid, w: Word)
    requires At(cfg, s, a, PopNext(w))
    ensures Get(s, w.ptr).next.Some?
    ensures Keeps(cfg, s, To(s, a, PopSwing(w, Get(s, w.ptr).next.value)), a)
  {
    hide Inv, PcInv, Keeps, Chained;
    Knows(cfg, s, a, PopNext(w));
    InvChained(cfg, s);
    NextIsThere(cfg, s, a, w);
    LocalStep(cfg, s, a, PopSwing(w, Get(s, w.ptr).next.value));
  }

  lemma InvChained(cfg: Config, s: State)
    requires Inv(cfg, s)
    ensures Chained(s)
  {
  }

  lemma NextIsThere(cfg: Config, s: State, a: Tid, w: Word)
    requires PcInv(cfg, s, a, PopNext(w)) && Chained(s)
    ensures Get(s, w.ptr).next.Some?
    ensures PcInv(cfg, s, a, PopSwing(w, Get(s, w.ptr).next.value))
  {
    hide Chained;
    SuccessorOf(s, w.ptr);
  }

  lemma PopSwingFails(cfg: Config, s: State, a: Tid, w: Word, next: Word)
    requires At(cfg, s, a, PopSwing(w, next))
    ensures Keeps(cfg, s, To(s, a, Drop(w.ptr, None, AfterMiss(s.head))), a)
  {
    hide Inv, PcInv, Keeps;
    Knows(cfg, s, a, PopSwing(w, next));
    MissKnows(cfg, s, a, w, next);
    LocalStep(cfg, s, a, Drop(w.ptr, None, AfterMiss(s.head)));
  }

  lemma MissKnows(cfg: Config, s: State, a: Tid, w: Word, next: Word)
    requires PcInv(cfg, s, a, PopSwing(w, next))
    ensures PcInv(cfg, s, a, Drop(w.ptr, None, AfterMiss(s.head)))
  {
  }

  lemma PopPeeks(cfg: Config, s: State, a: Tid)
    requires At(cfg, s, a, PopPeek)
    ensures Keeps(cfg, s, To(s, a, PopPeekAgain(if cfg.headFirst then s.head.ptr else s.tail.ptr)), a)
  {
    assert Chained(s);
    LocalStep(cfg, s, a, PopPeekAgain(if cfg.headFirst then s.head.ptr else s.tail.ptr));
  }

  // ----- All of them together

  predicate Releases(pc: Pc) {
    pc.Free? || pc.Drop? || pc.Destroy? || pc.CountDelete?
  }

  lemma PushStep(cfg: Config, s: State, a: Tid, act: Action)
    requires Inv(cfg, s) && a in s.threads && Enabled(s.threads[a], act)
    requires PushOf(s.threads[a]).Some? && !Releases(s.threads[a])
    ensures Keeps(cfg, s, Apply(cfg, s, a, act), a)
  {
    hide Inv, Keeps, PushReady;
    Knows(cfg, s, a, s.threads[a]);
    match s.threads[a]
    case PushLoad(p) => LocalStep(cfg, s, a, PushAcquire(p, s.tail));
    case PushAcquire(p, seen) =>
      if s.tail == seen { PushAcquires(cfg, s, a, p); } else { LocalStep(cfg, s, a, PushAcquire(p, s.tail)); }
    case PushFill(p, w) =>
      if Get(s, w.ptr).data.Some? { PushFillFails(cfg, s, a, p, w); }
      else if Get(s, w.ptr).first.None? { FillsFirst(cfg, s, a, p, w); }
      else { FillsLate(cfg, s, a, p, w); }
    case PushLink(p, w) =>
      match Get(s, w.ptr).next {
        case None => if p.fill.NotYet? { LinksAgain(cfg, s, a, p, w); } else { LinksOnce(cfg, s, a, p, w); }
        case Some(x) =>
          if p.fill.NotYet? { PushLinkFails(cfg, s, a, p, w, x); } else { DeletesOwn(cfg, s, a, p, w, x); }
      }
    case PushSwing(p, cur, seen, next) =>
      if s.tail == seen && act.Go? { PushSwings(cfg, s, a, p, cur, seen, next); }
      else { PushSwingFails(cfg, s, a, p, cur, seen, next); }
    case PushCount(p) => CountStep(cfg, s, Apply(cfg, s, a, act), a, s.threads[a], PushSize(p));
    case PushSize(p) => CountStep(cfg, s, Apply(cfg, s, a, act), a, s.threads[a], PushDone(p));
    case PushDone(p) => LocalStep(cfg, s, a, Idle);
  }

  lemma PopStep(cfg: Config, s: State, a: Tid, act: Action)
    requires Inv(cfg, s) && HeadRoom(s) && a in s.threads && Enabled(s.threads[a], act)
    requires PushOf(s.threads[a]).None? && !Releases(s.threads[a])
    ensures Keeps(cfg, s, Apply(cfg, s, a, act), a)
  {
    hide Inv, Keeps;
    match s.threads[a]
    case Idle => if act.CallPush? { CallsPush(cfg, s, a, act.v); } else { LocalStep(cfg, s, a, PopPeek); }
    case PopPeek => PopPeeks(cfg, s, a);
    case PopPeekAgain(ptr) => LocalStep(cfg, s, a, Apply(cfg, s, a, act).threads[a]);
    case PopLoad => LocalStep(cfg, s, a, PopAcquire(s.head));
    case PopAcquire(seen) =>
      if s.head == seen { PopAcquires(cfg, s, a); }
      else { LocalStep(cfg, s, a, PopAcquire(s.head)); }
    case PopCheck(w) => PopChecks(cfg, s, a, w);
    case PopNext(w) => PopReadsNext(cfg, s, a, w);
    case PopSwing(w, next) =>
      if s.head == w { PopSwings(cfg, s, a, w, next); } else { PopSwingFails(cfg, s, a, w, next); }
    case PopTake(w) => PopTakes(cfg, s, a, w);
    case PopCount(res) => CountStep(cfg, s, Apply(cfg, s, a, act), a, s.threads[a], PopSize(res));
    case PopSize(res) => CountStep(cfg, s, Apply(cfg, s, a, act), a, s.threads[a], PopDone(res));
    case PopDone(res) => LocalStep(cfg, s, a, Idle);
  }

  lemma ReleaseStep(cfg: Config, s: State, a: Tid, act: Action)
    requires Inv(cfg, s) && a in s.threads && Enabled(s.threads[a], act)
    requires Releases(s.threads[a])
    ensures Keeps(cfg, s, Apply(cfg, s, a, act), a)
  {
    hide Inv, Keeps, FreeKnows, DropKnows, DestroyKnows;
    Knows(cfg, s, a, s.threads[a]);
    match s.threads[a]
    case Free(w, side, read, k) =>
      var now := Get(s, w.ptr).count;
      if read == Some(now) { Frees(cfg, s, a, w, side, read, k); }
      else { LocalStep(cfg, s, a, Free(w, side, Some(now), k)); }
    case Drop(n, read, k) =>
      var now := Get(s, n).count;
      if read == Some(now) { Drops(cfg, s, a, n, read, k); } else { LocalStep(cfg, s, a, Drop(n, Some(now), k)); }
    case Destroy(n, k) => Destroys(cfg, s, a, n, k);
    case CountDelete(k) => CountsDelete(cfg, s, a, k);
  }

  /** One atomic operation, by any thread, of any kind. */
  lemma StepInv(cfg: Config, s: State, s': State, a: Tid, act: Action)
    requires Inv(cfg, s) && HeadRoom(s) && Step(cfg, s, s', a, act)
    ensures Keeps(cfg, s, s', a)
  {
    hide Inv, Apply, Keeps;
    if Releases(s.threads[a]) {
      ReleaseStep(cfg, s, a, act);
    } else if PushOf(s.threads[a]).Some? {
      PushStep(cfg, s, a, act);
    } else {
      PopStep(cfg, s, a, act);
    }
  }

  /** Every state of every run satisfies the invariant. */
  lemma {:induction false} RunInv(cfg: Config, run: seq<State>, i: nat)
    requires Run(cfg, run) && i < |run|
    ensures Inv(cfg, run[i])
  {
    if i == 0 {
      var tids: set<Tid> :| |tids| < COUNT_MOD - 1 && run[0] == Init(tids);
      InitInv(cfg, tids);
    } else {
      RunInv(cfg, run, i - 1);
      assert NextAt(cfg, run, i);
      var a, act :| Step(cfg, run[i - 1], run[i], a, act);
      StepInv(cfg, run[i - 1], run[i], a, act);
    }
  }
}
