/**
What the invariant means for every run of the lock-free queue: no use after free, exact deletion, exact reference
accounts, a tail count that cannot overflow, progress of push, and the statistics counters.  None of these needs
line 202 or line 184 repaired.
*/
module QueueTheorems {
  import opened Options
  import opened QueueModel
  import opened QueueInvariant
  import opened QueueFrames
  import opened QueueEffects
  import opened QueueSteps
  import opened QueueRefinement

  // ----- Facts of one state, read off the invariant

  lemma Nodes(cfg: Config, s: State, n: NodeId)
    requires Inv(cfg, s) && n < |s.nodes|
    ensures NodeInv(cfg, s, n) && FewThreads(s) && Chained(s)
  {
  }

  lemma Threads(cfg: Config, s: State, b: Tid)
    requires Inv(cfg, s) && b in s.threads
    ensures ThreadInv(cfg, s, b) && FewThreads(s) && Chained(s) && Tallied(cfg, s)
  {
  }

  lemma GripInRange(cfg: Config, s: State, b: Tid)
    requires ThreadInv(cfg, s, b) && Grip(s.threads[b]).Some?
    requires Chained(s)
    ensures Grip(s.threads[b]).value < |s.nodes|
  {
  }

  // ----- Memory safety

  /** The node whose fields the thread's next operation reads, writes or frees. */
  function Touches(pc: Pc): Option<NodeId> {
    match pc
    case PushFill(_, w) => Some(w.ptr)
    case PushLink(_, w) => Some(w.ptr)
    case PopNext(w) => Some(w.ptr)
    case PopTake(w) => Some(w.ptr)
    case Free(w, _, _, _) => Some(w.ptr)
    case Drop(n, _, _) => Some(n)
    case Destroy(n, _) => Some(n)
    case _ => None
  }

  lemma TouchedIsLive(cfg: Config, s: State, b: Tid, n: NodeId)
    requires Inv(cfg, s) && b in s.threads
    requires Touches(s.threads[b]) == Some(n) || Own(s.threads[b]) == Some(n)
    ensures n < |s.nodes| && !s.nodes[n].life.Freed?
  {
    hide Inv, NodeInv, Chained, Tallied;
    Threads(cfg, s, b);
    if Own(s.threads[b]) == Some(n) {
      OwnIsPrivate(cfg, s, b, n);
    } else if s.threads[b].Destroy? {
    } else {
      assert Grip(s.threads[b]) == Some(n);
      GripInRange(cfg, s, b);
      Nodes(cfg, s, n);
      HeldIsShared(cfg, s, n, b);
    }
  }

  lemma OwnIsPrivate(cfg: Config, s: State, b: Tid, n: NodeId)
    requires ThreadInv(cfg, s, b) && Own(s.threads[b]) == Some(n)
    ensures n < |s.nodes| && s.nodes[n].life == Private(b) && s.nodes[n].pos.None?
  {
    hide IsLinked;
  }

  /** No use after free, in any run: whatever node a thread is about to touch, or still owns, has not been deleted. */
  lemma NoUseAfterFree(cfg: Config, run: seq<State>, i: nat, b: Tid, n: NodeId)
    requires Run(cfg, run) && i < |run| && b in run[i].threads
    requires Touches(run[i].threads[b]) == Some(n) || Own(run[i].threads[b]) == Some(n)
    ensures n < |run[i].nodes| && !run[i].nodes[n].life.Freed?
  {
    hide Inv, Run;
    RunInv(cfg, run, i);
    TouchedIsLive(cfg, run[i], b, n);
  }

  /** Nobody but a is concerned with n any more. */
  ghost predicate Abandoned(s: State, a: Tid, n: NodeId) {
    && n != s.head.ptr && n != s.tail.ptr
    && (forall b {:trigger s.threads[b]} | b in s.threads && b != a ::
          Touches(s.threads[b]) != Some(n) && Grip(s.threads[b]) != Some(n) && Own(s.threads[b]) != Some(n))
  }

  lemma LinkedFacts(cfg: Config, s: State, n: NodeId)
    requires NodeInv(cfg, s, n) && s.nodes[n].pos.Some?
    ensures Accounted(s, n) && LinksInv(s, n) && DataInv(cfg, s, n) && IsLinked(s, n)
    ensures !s.nodes[n].life.Shared? ==> Pos(s, n) < s.h && Pos(s, n) < s.t
  {
  }

  /** `head` and `tail` are at their positions. */
  lemma NotAtEnds(s: State)
    requires Chained(s)
    ensures Pos(s, s.head.ptr) == s.h && Pos(s, s.tail.ptr) == s.t
  {
    hide Team;
  }

  /** Deletion is safe, in any run: when a thread is about to delete a node at line 60 or 100, the node has not been
      deleted, `head` and `tail` have both left it, and no other thread holds it, owns it or is about to touch or
      delete it. */
  lemma DeletesWhatNobodyHolds(cfg: Config, run: seq<State>, i: nat, a: Tid, n: NodeId, k: Cont)
    requires Run(cfg, run) && i < |run| && a in run[i].threads && run[i].threads[a] == Destroy(n, k)
    ensures n < |run[i].nodes| && run[i].nodes[n].life == Doomed(a)
    ensures Pos(run[i], n) < run[i].h <= run[i].t && Abandoned(run[i], a, n)
  {
    hide Inv, NodeInv, Tallied, Chained, Run;
    var s := run[i];
    RunInv(cfg, run, i);
    InvChained(cfg, s);
    Bounds(cfg, s);
    NotAtEnds(s);
    Threads(cfg, s, a);
    Nodes(cfg, s, n);
    LinkedFacts(cfg, s, n);
    forall b | b in s.threads && b != a
      ensures Touches(s.threads[b]) != Some(n) && Grip(s.threads[b]) != Some(n) && Own(s.threads[b]) != Some(n)
    {
      Threads(cfg, s, b);
      if Grip(s.threads[b]) == Some(n) { HeldIsShared(cfg, s, n, b); }
      if Own(s.threads[b]) == Some(n) { OwnIsPrivate(cfg, s, b, n); }
    }
  }

  /** Lines 155-156 delete a node that only its allocator ever knew. */
  lemma OwnNodeIsUnknown(cfg: Config, s: State, a: Tid, b: Tid, n: NodeId)
    requires Inv(cfg, s) && a in s.threads && b in s.threads && a != b && Own(s.threads[a]) == Some(n)
    ensures n < |s.nodes| && n !in s.chain
    ensures Touches(s.threads[b]) != Some(n) && Grip(s.threads[b]) != Some(n) && Own(s.threads[b]) != Some(n)
  {
    hide Inv, NodeInv, Tallied;
    Threads(cfg, s, a);
    Threads(cfg, s, b);
    OwnIsPrivate(cfg, s, a, n);
    Nodes(cfg, s, n);
    if Grip(s.threads[b]) == Some(n) { HeldIsShared(cfg, s, n, b); }
    if Own(s.threads[b]) == Some(n) { OwnIsPrivate(cfg, s, b, n); }
  }

  // ----- A deleted node is never written again, so it is deleted once

  /** The nodes that an operation may write. */
  predicate MayWrite(pc: Pc, n: NodeId) {
    Touches(pc) == Some(n) || Grip(pc) == Some(n) || Own(pc) == Some(n)
  }

  lemma WritesOnlyThere(cfg: Config, s: State, a: Tid, act: Action, n: NodeId)
    requires a in s.threads && Enabled(s.threads[a], act)
    requires n < |s.nodes| && !MayWrite(s.threads[a], n)
    requires s.threads[a].PushLink? ==> s.threads[a].p.own.Some?
    ensures n < |Apply(cfg, s, a, act).nodes| && Apply(cfg, s, a, act).nodes[n] == s.nodes[n]
  {
    hide FoldedCounter, DroppedCounter, Unused, Bump, FreshNode, Resume;
  }

  lemma FreedIsFinal(cfg: Config, s: State, a: Tid, act: Action, n: NodeId)
    requires Inv(cfg, s) && a in s.threads && Enabled(s.threads[a], act)
    requires n < |s.nodes| && s.nodes[n].life.Freed?
    ensures n < |Apply(cfg, s, a, act).nodes| && Apply(cfg, s, a, act).nodes[n] == s.nodes[n]
  {
    hide Inv, NodeInv, Chained, Tallied, Apply;
    Threads(cfg, s, a);
    if Touches(s.threads[a]) == Some(n) || Own(s.threads[a]) == Some(n) { TouchedIsLive(cfg, s, a, n); }
    if Grip(s.threads[a]) == Some(n) {
      Nodes(cfg, s, n);
      HeldIsShared(cfg, s, n, a);
    }
    WritesOnlyThere(cfg, s, a, act, n);
  }

  /** Deleted once and for all: a node deleted at some point of a run is never changed again, so no later step
      deletes it a second time. */
  lemma {:induction false} DeletedForGood(cfg: Config, run: seq<State>, i: nat, j: nat, n: NodeId)
    requires Run(cfg, run) && i <= j < |run| && n < |run[i].nodes| && run[i].nodes[n].life.Freed?
    ensures n < |run[j].nodes| && run[j].nodes[n] == run[i].nodes[n]
    decreases j
  {
    hide Inv, Apply;
    if i < j {
      DeletedForGood(cfg, run, i, j - 1, n);
      RunInv(cfg, run, j - 1);
      assert NextAt(cfg, run, j);
      var a, act :| Step(cfg, run[j - 1], run[j], a, act);
      FreedIsFinal(cfg, run[j - 1], a, act, n);
    }
  }

  // ----- The reference accounts

  function Residue(node: Node, n: NodeId, s: State): int {
    Extra(node.tailLink, n, s.tail) + Extra(node.headLink, n, s.head)
  }

  lemma ModShift(x: int, y: int, z: int)
    requires 0 <= y < INTERNAL_MOD && x == (y - z) % INTERNAL_MOD
    ensures (x + z) % INTERNAL_MOD == y
  {
    var q := (y - z) / INTERNAL_MOD;
    assert y - z == q * INTERNAL_MOD + x;
    assert x + z == y - q * INTERNAL_MOD;
  }

  lemma ZeroIsUnheld(node: Node, holders: nat, residue: int)
    requires holders < INTERNAL_MOD && node.count.internal == (holders - residue) % INTERNAL_MOD
    requires node.count.external == One(!node.tailLink.Released?) + One(!node.headLink.Released?)
    requires node.tailLink.Released? && node.headLink.Released? ==> residue == 0
    ensures Unused(node.count) <==> holders == 0 && node.tailLink.Released? && node.headLink.Released?
  {
    if holders > 0 { SmallMod(holders); }
  }

  /** The accounts of every linked node in every run.  The internal count, plus the external counts (less one each)
      of the pointers not yet folded in, is the number of threads that hold a reference, modulo the width of the
      field; `external_counters` is the number of those pointers; and the test of lines 58 and 98 is exact: both are
      zero if and only if nobody holds the node and both pointers are folded in. */
  lemma ReferenceAccounts(cfg: Config, run: seq<State>, i: nat, n: NodeId)
    requires Run(cfg, run) && i < |run| && n in run[i].chain
    ensures n < |run[i].nodes|
    ensures (run[i].nodes[n].count.internal + Residue(run[i].nodes[n], n, run[i])) % INTERNAL_MOD
            == |Team(run[i].threads, Holding(n))|
    ensures run[i].nodes[n].count.external ==
            One(!run[i].nodes[n].tailLink.Released?) + One(!run[i].nodes[n].headLink.Released?)
    ensures Unused(run[i].nodes[n].count) <==>
            (Team(run[i].threads, Holding(n)) == {}
             && run[i].nodes[n].tailLink.Released? && run[i].nodes[n].headLink.Released?)
  {
    hide Inv, NodeInv, Team, Run;
    var s := run[i];
    RunInv(cfg, run, i);
    InvChained(cfg, s);
    Nodes(cfg, s, n);
    LinkedFacts(cfg, s, n);
    TeamBound(s.threads, Holding(n));
    ModShift(s.nodes[n].count.internal, |Team(s.threads, Holding(n))|, Residue(s.nodes[n], n, s));
    ZeroIsUnheld(s.nodes[n], |Team(s.threads, Holding(n))|, Residue(s.nodes[n], n, s));
  }

  /** Every node from `head` on is live, so neither `head` nor `tail` ever points to a deleted node. */
  lemma ReachableIsLive(cfg: Config, run: seq<State>, i: nat, j: nat)
    requires Run(cfg, run) && i < |run| && run[i].h <= j < |run[i].chain|
    ensures run[i].chain[j] < |run[i].nodes| && run[i].nodes[run[i].chain[j]].life.Shared?
    ensures run[i].h <= run[i].t < |run[i].chain|
    ensures run[i].head.ptr == run[i].chain[run[i].h] && run[i].tail.ptr == run[i].chain[run[i].t]
  {
    hide Inv, NodeInv, Run;
    RunInv(cfg, run, i);
    var s := run[i];
    InvChained(cfg, s);
    Nodes(cfg, s, s.chain[j]);
    LinkedFacts(cfg, s, s.chain[j]);
  }

  /** The external count in `tail`, less one, is the number of pushers that hold a reference to the tail node, so with
      fewer than 65535 threads it fits in 16 bits, and no thread's increment of it wraps around. */
  lemma TailCountIsExact(cfg: Config, run: seq<State>, i: nat)
    requires Run(cfg, run) && i < |run|
    ensures run[i].tail.count - 1 == |Team(run[i].threads, HoldingTail(run[i].tail.ptr))|
    ensures run[i].tail.count <= |run[i].threads| + 1 < COUNT_MOD
    ensures forall b | b in run[i].threads && run[i].threads[b].PushAcquire? ::
              Bump(run[i].tail).count == run[i].tail.count + 1
  {
    hide Inv, Run, Team;
    RunInv(cfg, run, i);
    var s := run[i];
    InvChained(cfg, s);
    TeamBound(s.threads, HoldingTail(s.tail.ptr));
    Nodes(cfg, s, s.chain[s.t]);
    forall b | b in s.threads && s.threads[b].PushAcquire?
      ensures Bump(s.tail).count == s.tail.count + 1
    {
      OneIsOutside(s.threads, HoldingTail(s.tail.ptr), b);
    }
  }

  lemma OneIsOutside(threads: map<Tid, Pc>, role: Role, b: Tid)
    requires b in threads && !Plays(threads[b], role)
    ensures |Team(threads, role)| < |threads|
  {
    Subset(Team(threads, role) + {b}, threads.Keys);
  }

  // ----- Progress of push

  /** One more value has been appended to the queue, once for each step that the atomic queue sees as an append. */
  lemma TailCountsAppends(cfg: Config, s: State, s': State, a: Tid, act: Action)
    requires Inv(cfg, s) && HeadRoom(s) && Step(cfg, s, s', a, act)
    ensures s'.t == s.t + One(Meaning(cfg, s, a, act).Append?)
    ensures s'.h == s.h + One(Meaning(cfg, s, a, act).Remove?)
    ensures s'.drops == s.drops + One(Meaning(cfg, s, a, act).Drops?)
  {
    hide Inv, NodeInv, Chained, Tallied, IsLinked;
    if s.threads[a].PushSwing? && s.tail == s.threads[a].seen && act.Go? {
      Threads(cfg, s, a);
      TailIsFilled(cfg, s, a);
    }
  }

  lemma TailIsFilled(cfg: Config, s: State, a: Tid)
    requires ThreadInv(cfg, s, a) && s.threads[a].PushSwing? && s.tail == s.threads[a].seen
    ensures Get(s, s.tail.ptr).first.Some?
  {
  }

  /** System-wide progress: a push that has failed its data CAS r times has seen r values appended since it
      began (r - 1 while it is still helping to advance `tail`), so the outer loop fails only when others succeed. */
  lemma FailedPushMeansProgress(cfg: Config, run: seq<State>, i: nat, b: Tid, p: Push)
    requires Run(cfg, run) && i < |run| && b in run[i].threads
    requires PushOf(run[i].threads[b]) == Some(p) && p.fill.NotYet?
    ensures p.lost <= run[i].t - p.born + 1
    ensures run[i].threads[b].PushAcquire? || run[i].threads[b].PushFill? ==> p.lost <= run[i].t - p.born
  {
    hide Inv, NodeInv, Chained, Tallied, IsLinked, Run;
    RunInv(cfg, run, i);
    Threads(cfg, run[i], b);
  }

  // ----- Which pushes are lost

  /** A data CAS that succeeds loses its value exactly when `head` has already passed the node. */
  lemma LostIffPassed(cfg: Config, s: State, a: Tid, p: Push, w: Word)
    requires At(cfg, s, a, PushFill(p, w)) && Get(s, w.ptr).data.None?
    ensures Meaning(cfg, s, a, Go).Drops? <==> Pos(s, w.ptr) < s.h
  {
    hide Inv, NodeInv, Chained, Tallied;
    Threads(cfg, s, a);
    Nodes(cfg, s, w.ptr);
    LinkedFacts(cfg, s, w.ptr);
    InvChained(cfg, s);
    Bounds(cfg, s);
  }

  // ----- The ledger of the queue

  /** All values ever appended, in order. */
  function Ledger(s: State): seq<Value> {
    seq(s.t, i requires 0 <= i => ValueAt(s, i))
  }

  /** The queue is the ledger without its first h values, the ones removed. */
  lemma QueueIsLedgerTail(s: State)
    requires s.h <= s.t
    ensures Ledger(s)[s.h..] == Queue(s)
  {
  }

  lemma LedgerStep(cfg: Config, s: State, s': State, a: Tid)
    requires Inv(cfg, s) && Keeps(cfg, s, s', a)
    ensures s.t <= s'.t && Ledger(s) == Ledger(s')[..s.t]
  {
    hide Inv, Keeps, Grows;
    InvChained(cfg, s);
    KeepsGrows(cfg, s, s', a);
    Forward(s, s', a);
    forall i | 0 <= i < s.t
      ensures ValueAt(s', i) == ValueAt(s, i)
    {
      Appended(cfg, s, i);
      ValueKept(s, s', a, i);
    }
  }

  lemma Forward(s: State, s': State, a: Tid)
    requires Grows(s, s', a)
    ensures s.t <= s'.t && s.h <= s'.h
  {
  }

  /** The queue never invents, duplicates or reorders values, in any run, repaired or not: the values appended form
      one growing sequence, and the values removed are a prefix of it that grows too. */
  lemma {:induction false} LedgerGrows(cfg: Config, run: seq<State>, i: nat, j: nat)
    requires Run(cfg, run) && i <= j < |run|
    ensures run[i].t <= run[j].t && run[i].h <= run[j].h <= run[j].t
    ensures Ledger(run[i]) == Ledger(run[j])[..run[i].t]
    ensures Queue(run[j]) == Ledger(run[j])[run[j].h..]
    decreases j
  {
    hide Inv, Apply, Keeps, Grows, Ledger, Queue;
    RunInv(cfg, run, j);
    Bounds(cfg, run[j]);
    QueueIsLedgerTail(run[j]);
    if i < j {
      LedgerGrows(cfg, run, i, j - 1);
      RunInv(cfg, run, j - 1);
      assert NextAt(cfg, run, j);
      var a, act :| Step(cfg, run[j - 1], run[j], a, act);
      StepInv(cfg, run[j - 1], run[j], a, act);
      LedgerStep(cfg, run[j - 1], run[j], a);
      KeepsGrows(cfg, run[j - 1], run[j], a);
      Forward(run[j - 1], run[j], a);
      LedgerLength(run[j]);
      assert Ledger(run[j])[..run[j - 1].t][..run[i].t] == Ledger(run[j])[..run[i].t];
    } else {
      LedgerLength(run[j]);
    }
  }

  lemma LedgerLength(s: State)
    ensures |Ledger(s)| == s.t && Ledger(s)[..s.t] == Ledger(s)
  {
  }

  /** The pop that moves `head` for the k-th time answers with the k-th value of the ledger. */
  lemma KthPopTakesKthValue(cfg: Config, s: State, s': State, a: Tid, w: Word, next: Word)
    requires At(cfg, s, a, PopSwing(w, next)) && HeadRoom(s) && s.head == w && Step(cfg, s, s', a, Go)
    ensures s.h < s.t && s'.h == s.h + 1
    ensures CallOf(s', s'.threads[a]) == Popped(Some(Ledger(s)[s.h]))
  {
    hide Inv, NodeInv, Chained, Tallied;
    Threads(cfg, s, a);
    InvChained(cfg, s);
    Bounds(cfg, s);
    HeadIsBehind(s, w);
    Appended(cfg, s, s.h);
    assert s'.nodes[w.ptr].first == s.nodes[w.ptr].first;
  }

  lemma HeadIsBehind(s: State, w: Word)
    requires NextKnows(s, w) && Chained(s) && s.head == w
    ensures s.h < s.t && Pos(s, w.ptr) == s.h && s.chain[s.h] == w.ptr < |s.nodes|
  {
  }

  // ----- Quiescence

  predicate Quiescent(s: State) {
    forall b | b in s.threads :: s.threads[b].Idle?
  }

  lemma NobodyPlays(s: State, role: Role)
    requires Quiescent(s)
    ensures Team(s.threads, role) == {}
  {
  }

  lemma NodeAtRest(cfg: Config, s: State, n: NodeId)
    requires Inv(cfg, s) && Quiescent(s) && n < |s.nodes|
    ensures s.nodes[n].pos.None? ==> s.nodes[n].life.Freed?
    ensures s.nodes[n].pos.Some? && Pos(s, n) < s.h ==> s.nodes[n].life.Freed?
    ensures s.nodes[n].pos.Some? && s.h <= Pos(s, n) ==> s.nodes[n].life.Shared? && Pos(s, n) <= s.t
    ensures s.nodes[n].pos.Some? && s.h <= Pos(s, n) ==> (s.nodes[n].first.Some? <==> Pos(s, n) < s.t)
  {
    hide Inv, NodeInv, Tallied;
    Nodes(cfg, s, n);
    NobodyPlays(s, Holding(n));
    if s.nodes[n].pos.None? {
      UnlinkedFacts(cfg, s, n);
    } else {
      LinkedFacts(cfg, s, n);
      InvChained(cfg, s);
      TailAtRest(cfg, s);
    }
  }

  lemma UnlinkedFacts(cfg: Config, s: State, n: NodeId)
    requires NodeInv(cfg, s, n) && s.nodes[n].pos.None?
    ensures PrivateInv(s, n)
  {
  }

  lemma TailAtRest(cfg: Config, s: State)
    requires Inv(cfg, s) && Quiescent(s)
    ensures |s.chain| == s.t + 1 && Get(s, s.chain[s.t]).first.None? && s.tail.count == 1
  {
    hide Inv, NodeInv, Tallied;
    InvChained(cfg, s);
    NobodyPlays(s, HoldingTail(s.tail.ptr));
    Nodes(cfg, s, s.chain[s.t]);
    LinkedFacts(cfg, s, s.chain[s.t]);
    if s.t + 2 == |s.chain| {
      assert false;
    }
  }

  lemma FreedAtRest(cfg: Config, s: State)
    requires Inv(cfg, s) && Quiescent(s)
    ensures FreedAt(s) == Below(s.h)
  {
    hide Inv, Tallied;
    InvChained(cfg, s);
    forall i | 0 <= i < |s.chain|
      ensures Get(s, s.chain[i]).life.Freed? <==> i < s.h
    {
      assert s.nodes[s.chain[i]].pos == Some(i);
      NodeAtRest(cfg, s, s.chain[i]);
    }
  }

  /** The numbers below k. */
  ghost function Below(k: nat): (r: set<nat>)
    ensures |r| == k && forall i: nat {:trigger i in r} :: i in r <==> i < k
  {
    if k == 0 then {} else Below(k - 1) + {k - 1}
  }

  lemma Tally(cfg: Config, s: State)
    requires Inv(cfg, s)
    ensures Tallied(cfg, s)
  {
  }

  /** The counters when no call is in progress: every popped node has been deleted (`destruct_count` is
      `pop_count`), and `size` is `push_count` - `pop_count`, which is the number of values stored plus the number
      of pushes lost; with line 202 repaired none is lost. */
  lemma CountersAtQuiescence(cfg: Config, run: seq<State>, i: nat)
    requires Run(cfg, run) && i < |run| && Quiescent(run[i])
    ensures run[i].popCount == run[i].destructCount == run[i].h
    ensures run[i].size == run[i].pushCount - run[i].popCount == |Queue(run[i])| + run[i].drops
    ensures cfg.keepData ==> run[i].size == |Queue(run[i])|
  {
    hide Inv, NodeInv, Team, FreedAt, Quiescent, Run;
    RunInv(cfg, run, i);
    var s := run[i];
    TailAtRest(cfg, s);
    FreedAtRest(cfg, s);
    InvChained(cfg, s);
    Tally(cfg, s);
    NobodyPlays(s, Uncounted);
    NobodyPlays(s, Unsized);
    NobodyPlays(s, PopUncounted);
    NobodyPlays(s, PopUnsized);
    NobodyPlays(s, Deleting);
    Bounds(cfg, s);
  }

  /** The positions behind `head` whose nodes have not been deleted. */
  ghost function Garbage(s: State): set<nat> {
    set i | 0 <= i < s.h && i < |s.chain| && !Get(s, s.chain[i]).life.Freed?
  }

  /** The node that a thread holds or is about to delete. */
  function InHand(pc: Pc): Option<NodeId> {
    if Grip(pc).Some? then Grip(pc) else Doom(pc)
  }

  /** Some thread is still busy with node n. */
  ghost predicate SomeoneHas(s: State, n: NodeId) {
    exists b :: b in s.threads && InHand(s.threads[b]) == Some(n)
  }

  /** The counters in the middle of a run: what is missing from each is exactly what threads in the middle of a call
      have yet to add.  `pop_count` and `push_count` lack the threads between their linearization point and their
      counter update; `fills` is one more than the values appended and lost while the tail node holds data; and
      `destruct_count` lacks the nodes just deleted by threads that have yet to count them, and the undeleted nodes
      behind `head`, each of which some thread holds or is about to delete, so that there are never more of them than
      threads. */
  lemma CountersMidRun(cfg: Config, run: seq<State>, i: nat)
    requires Run(cfg, run) && i < |run|
    ensures run[i].popCount + |Team(run[i].threads, PopUncounted)| == run[i].h
    ensures run[i].pushCount + |Team(run[i].threads, Uncounted)| == run[i].fills
    ensures run[i].size ==
            run[i].fills - |Team(run[i].threads, Unsized)| - (run[i].h - |Team(run[i].threads, PopUnsized)|)
    ensures run[i].fills == run[i].t + run[i].drops + One(Get(run[i], run[i].tail.ptr).first.Some?)
    ensures run[i].destructCount + |Team(run[i].threads, Deleting)| + |Garbage(run[i])| == run[i].h
    ensures forall j | j in Garbage(run[i]) :: SomeoneHas(run[i], run[i].chain[j])
    ensures |Garbage(run[i])| <= |run[i].threads|
  {
    hide Inv, NodeInv, Run, Team, Garbage, FreedAt, SomeoneHas;
    RunInv(cfg, run, i);
    Tally(cfg, run[i]);
    InvChained(cfg, run[i]);
    GarbageIsRest(cfg, run[i]);
    GarbageIsHeld(cfg, run[i]);
  }

  lemma FreedBehind(cfg: Config, s: State, i: nat)
    requires Inv(cfg, s) && i in FreedAt(s)
    ensures i < s.h
  {
    hide Inv, NodeInv, Tallied;
    InvChained(cfg, s);
    assert s.nodes[s.chain[i]].pos == Some(i);
    Nodes(cfg, s, s.chain[i]);
    LinkedFacts(cfg, s, s.chain[i]);
  }

  lemma GarbageIsRest(cfg: Config, s: State)
    requires Inv(cfg, s)
    ensures |FreedAt(s)| + |Garbage(s)| == s.h
  {
    hide Inv;
    InvChained(cfg, s);
    forall i | i in FreedAt(s)
      ensures i < s.h
    {
      FreedBehind(cfg, s, i);
    }
    assert FreedAt(s) + Garbage(s) == Below(s.h);
    assert FreedAt(s) !! Garbage(s);
  }

  lemma DetachedHasOwner(cfg: Config, s: State, n: NodeId)
    requires NodeInv(cfg, s, n) && s.nodes[n].pos.Some? && Pos(s, n) < s.h <= s.t && !s.nodes[n].life.Freed?
    requires !s.nodes[n].tailLink.Released? || !s.nodes[n].headLink.Released? || s.nodes[n].life.Doomed?
    ensures SomeoneHas(s, n)
  {
    hide Accounted, DataInv;
    var node := s.nodes[n];
    if node.life.Doomed? {
      assert InHand(s.threads[node.life.owner]) == Some(n);
    } else if !node.tailLink.Released? {
      assert InHand(s.threads[node.tailLink.owner]) == Some(n);
    } else {
      assert InHand(s.threads[node.headLink.owner]) == Some(n);
    }
  }

  lemma SharedHasHolder(s: State, n: NodeId)
    requires n < |s.nodes| && Accounted(s, n) && !Unused(s.nodes[n].count)
    requires s.nodes[n].tailLink.Released? && s.nodes[n].headLink.Released?
    ensures SomeoneHas(s, n)
  {
    var holders := Team(s.threads, Holding(n));
    assert |holders| != 0;
    var b :| b in holders;
    assert InHand(s.threads[b]) == Some(n);
  }

  lemma GarbageIsHeld(cfg: Config, s: State)
    requires Inv(cfg, s)
    ensures forall j | j in Garbage(s) :: SomeoneHas(s, s.chain[j])
    ensures |Garbage(s)| <= |s.threads|
  {
    hide Inv, NodeInv, SomeoneHas, Accounted;
    InvChained(cfg, s);
    forall j | j in Garbage(s)
      ensures SomeoneHas(s, s.chain[j]) && Pos(s, s.chain[j]) == j
    {
      var n := s.chain[j];
      assert s.nodes[n].pos == Some(j);
      Nodes(cfg, s, n);
      LinkedFacts(cfg, s, n);
      if s.nodes[n].life.Shared? && s.nodes[n].tailLink.Released? && s.nodes[n].headLink.Released? {
        SharedHasHolder(s, n);
      } else {
        DetachedHasOwner(cfg, s, n);
      }
    }
    hide Chained;
    GarbageFits(s);
  }

  function HandPos(s: State, pc: Pc): nat {
    if InHand(pc).Some? then Pos(s, InHand(pc).value) else 0
  }

  lemma GarbageFits(s: State)
    requires forall j | j in Garbage(s) :: SomeoneHas(s, s.chain[j]) && Pos(s, s.chain[j]) == j
    ensures |Garbage(s)| <= |s.threads|
  {
    hide InHand, Pos;
    var image := set b | b in s.threads :: HandPos(s, s.threads[b]);
    forall j | j in Garbage(s)
      ensures j in image
    {
      var b :| b in s.threads && InHand(s.threads[b]) == Some(s.chain[j]);
      assert HandPos(s, s.threads[b]) == j;
    }
    Subset(Garbage(s), image);
    ImageFits(s, s.threads.Keys);
  }

  lemma {:induction false} ImageFits(s: State, who: set<Tid>)
    requires who <= s.threads.Keys
    ensures |set b | b in who :: HandPos(s, s.threads[b])| <= |who|
  {
    hide HandPos;
    var image := set b | b in who :: HandPos(s, s.threads[b]);
    if who != {} {
      var a :| a in who;
      ImageFits(s, who - {a});
      var less := set b | b in who - {a} :: HandPos(s, s.threads[b]);
      assert image <= less + {HandPos(s, s.threads[a])};
      Subset(image, less + {HandPos(s, s.threads[a])});
    }
  }

  /** No leak: when no call is in progress the nodes not yet deleted are exactly those from `head` to `tail`.  So
      once the destructor has popped the queue empty, deleting the node at `head` (line 135) deletes the last one. */
  lemma NoLeakAtQuiescence(cfg: Config, run: seq<State>, i: nat, n: NodeId)
    requires Run(cfg, run) && i < |run| && Quiescent(run[i]) && n < |run[i].nodes|
    ensures !run[i].nodes[n].life.Freed? <==> n in run[i].chain && run[i].h <= Pos(run[i], n) <= run[i].t
    ensures Queue(run[i]) == [] ==> (!run[i].nodes[n].life.Freed? <==> n == run[i].head.ptr)
  {
    hide Inv, NodeInv, Run, Quiescent;
    RunInv(cfg, run, i);
    NodeAtRest(cfg, run[i], n);
    InvChained(cfg, run[i]);
    Nodes(cfg, run[i], n);
    if run[i].nodes[n].pos.Some? { LinkedFacts(cfg, run[i], n); }
    Bounds(cfg, run[i]);
  }
}
