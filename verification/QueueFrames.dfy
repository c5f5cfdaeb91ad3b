/**
What one thread's step leaves alone: the other threads' knowledge and the untouched nodes' accounts.
*/
module QueueFrames {
  import opened Options
  import opened QueueModel
  import opened QueueInvariant

  /** Thread a is about to perform the operation that `pc` names, in a state that satisfies the invariant. */
  ghost predicate At(cfg: Config, s: State, a: Tid, pc: Pc) {
    Inv(cfg, s) && a in s.threads && s.threads[a] == pc
  }

  /** What a step of thread a may do to a node that existed before it. */
  predicate NodeGrows(old': Node, new': Node, a: Tid) {
    && (old'.pos.Some? ==> new'.pos == old'.pos)
    && (old'.first.Some? ==> new'.first == old'.first)
    && (old'.life.Private? && old'.life.owner != a ==> new' == old')
    && (old'.life.Doomed? && old'.life.owner != a ==> new'.life == old'.life)
    && (old'.tailLink.Detached? && old'.tailLink.owner != a ==> new'.tailLink == old'.tailLink)
    && (old'.headLink.Detached? && old'.headLink.owner != a ==>
          new'.headLink == old'.headLink && new'.taken == old'.taken)
  }

  ghost predicate NodesGrow(s: State, s': State, a: Tid) {
    && |s.nodes| <= |s'.nodes|
    && (forall n {:trigger s'.nodes[n]} | 0 <= n < |s.nodes| :: NodeGrows(s.nodes[n], s'.nodes[n], a))
  }

  /** Positions only move forward, the chain only grows, and other threads' nodes keep what those threads know. */
  ghost predicate Grows(s: State, s': State, a: Tid) {
    && NodesGrow(s, s', a)
    && |s.chain| <= |s'.chain|
    && (forall i {:trigger s'.chain[i]} | 0 <= i < |s.chain| :: s'.chain[i] == s.chain[i])
    && s.h <= s'.h
    && s.t <= s'.t
  }

  /** A step of a ends well: the invariant holds again, and nothing other threads rely on was lost. */
  ghost predicate Keeps(cfg: Config, s: State, s': State, a: Tid) {
    Inv(cfg, s') && Grows(s, s', a)
  }

  // ----- What another thread knows stays true

  lemma LinkedKept(s: State, s': State, a: Tid, n: NodeId)
    requires IsLinked(s, n) && Grows(s, s', a)
    ensures IsLinked(s', n) && Pos(s', n) == Pos(s, n) && NodeGrows(s.nodes[n], s'.nodes[n], a)
  {
  }

  lemma PushKept(s: State, s': State, a: Tid, b: Tid, p: Push)
    requires PushInv(s, b, p) && a != b && Grows(s, s', a)
    ensures PushInv(s', b, p)
  {
  }

  lemma TriedKept(cfg: Config, s: State, s': State, a: Tid, b: Tid, p: Push, n: NodeId)
    requires TriedInv(cfg, s, b, p, n) && Grows(s, s', a)
    ensures TriedInv(cfg, s', b, p, n)
  {
    LinkedKept(s, s', a, n);
    hide IsLinked, Pos, NodesGrow;
  }

  lemma ContinuesKept(s: State, s': State, a: Tid, b: Tid, k: Cont)
    requires ContInv(s, b, k) && a != b && Grows(s, s', a)
    ensures ContInv(s', b, k)
  {
    hide PushInv, NodesGrow;
    if k.AfterPush? { PushKept(s, s', a, b, k.p); }
  }

  lemma PushPcKept(cfg: Config, s: State, s': State, a: Tid, b: Tid, pc: Pc)
    requires PcInv(cfg, s, b, pc) && a != b && Grows(s, s', a)
    requires pc.PushLoad? || pc.PushAcquire? || pc.PushFill? || pc.PushLink? || pc.PushSwing?
    ensures PcInv(cfg, s', b, pc)
  {
    hide PushInv, TriedInv, IsLinked, Pos, NodesGrow;
    PushKept(s, s', a, b, pc.p);
    if pc.PushFill? { LinkedKept(s, s', a, pc.w.ptr); }
    if pc.PushLink? { TriedKept(cfg, s, s', a, b, pc.p, pc.w.ptr); }
    if pc.PushSwing? {
      TriedKept(cfg, s, s', a, b, pc.p, pc.cur);
      TriedIsLinked(cfg, s, b, pc.p, pc.cur);
      LinkedKept(s, s', a, pc.cur);
    }
  }

  lemma TriedIsLinked(cfg: Config, s: State, b: Tid, p: Push, n: NodeId)
    requires TriedInv(cfg, s, b, p, n)
    ensures IsLinked(s, n)
  {
  }

  lemma ReleasePcKept(cfg: Config, s: State, s': State, a: Tid, b: Tid, pc: Pc)
    requires PcInv(cfg, s, b, pc) && a != b && Grows(s, s', a)
    requires pc.Free? || pc.Drop? || pc.Destroy?
    ensures PcInv(cfg, s', b, pc)
  {
    hide ContInv, IsLinked, Pos, NodesGrow;
    ContinuesKept(s, s', a, b, pc.k);
    LinkedKept(s, s', a, if pc.Free? then pc.w.ptr else pc.n);
  }

  lemma PopPcKept(cfg: Config, s: State, s': State, a: Tid, b: Tid, pc: Pc)
    requires PcInv(cfg, s, b, pc) && a != b && Grows(s, s', a)
    requires pc.PopCheck? || pc.PopNext? || pc.PopSwing? || pc.PopTake?
    ensures PcInv(cfg, s', b, pc)
  {
    hide IsLinked, Pos, NodesGrow;
    LinkedKept(s, s', a, pc.w.ptr);
  }

  lemma PcKept(cfg: Config, s: State, s': State, a: Tid, b: Tid, pc: Pc)
    requires PcInv(cfg, s, b, pc) && a != b && Grows(s, s', a)
    ensures PcInv(cfg, s', b, pc)
  {
    hide IsLinked, NodesGrow;
    match pc
    case PushLoad(_) => PushPcKept(cfg, s, s', a, b, pc);
    case PushAcquire(_, _) => PushPcKept(cfg, s, s', a, b, pc);
    case PushFill(_, _) => PushPcKept(cfg, s, s', a, b, pc);
    case PushLink(_, _) => PushPcKept(cfg, s, s', a, b, pc);
    case PushSwing(_, _, _, _) => PushPcKept(cfg, s, s', a, b, pc);
    case PopPeekAgain(ptr) => if cfg.headFirst { LinkedKept(s, s', a, ptr); }
    case PopCheck(_) => PopPcKept(cfg, s, s', a, b, pc);
    case PopNext(_) => PopPcKept(cfg, s, s', a, b, pc);
    case PopSwing(_, _) => PopPcKept(cfg, s, s', a, b, pc);
    case PopTake(_) => PopPcKept(cfg, s, s', a, b, pc);
    case Free(_, _, _, _) => ReleasePcKept(cfg, s, s', a, b, pc);
    case Drop(_, _, _) => ReleasePcKept(cfg, s, s', a, b, pc);
    case Destroy(_, _) => ReleasePcKept(cfg, s, s', a, b, pc);
    case CountDelete(k) => ContinuesKept(s, s', a, b, k);
    case _ =>
  }

  lemma ThreadKept(cfg: Config, s: State, s': State, a: Tid, b: Tid)
    requires ThreadInv(cfg, s, b) && a != b
    requires b in s'.threads && s'.threads[b] == s.threads[b]
    requires Grows(s, s', a)
    ensures ThreadInv(cfg, s', b)
  {
    hide PcInv, Grows;
    PcKept(cfg, s, s', a, b, s.threads[b]);
  }

  predicate SameButNext(old': Node, new': Node) {
    new' == old' || (old'.pos.Some? && new' == old'.(next := new'.next))
  }

  /** A node that the step does not write, or whose `next` it sets, and about which the acting thread claims
      the same as before. */
  ghost predicate Untouched(s: State, s': State, a: Tid, pc: Pc, n: NodeId)
    requires a in s.threads
  {
    var was := s.threads[a];
    && n < |s.nodes| && n < |s'.nodes|
    && SameButNext(s.nodes[n], s'.nodes[n])
    && (s.tail.ptr == n) == (s'.tail.ptr == n) && (s.tail.ptr == n ==> s'.tail == s.tail)
    && (s.head.ptr == n) == (s'.head.ptr == n) && (s.head.ptr == n ==> s'.head == s.head)
    && (s.nodes[n].pos.Some? ==>
          && (s.nodes[n].pos.value < s'.t ==> s.nodes[n].pos.value < s.t)
          && (s.nodes[n].pos.value < s'.h ==> s.nodes[n].pos.value < s.h)
          && (s.nodes[n].pos.value == s'.t ==> s.nodes[n].pos.value == s.t)
          && (s.nodes[n].pos.value + 1 < |s'.chain| ==>
                s.nodes[n].pos.value + 1 < |s.chain| || s.nodes[n].first.Some?))
    && SameClaims(was, pc, n, s.nodes[n].pos == Some(s'.t))
  }

  predicate SameClaims(was: Pc, pc: Pc, n: NodeId, isTail: bool) {
    && (Grip(pc) == Some(n)) == (Grip(was) == Some(n))
    && (Own(was) == Some(n) ==> Own(pc) == Some(n))
    && (TailWord(was).Some? && TailWord(was).value.ptr == n ==> TailWord(pc) == TailWord(was))
    && (HeadWord(was).Some? && HeadWord(was).value.ptr == n ==> HeadWord(pc) == HeadWord(was))
    && (Doom(was) == Some(n) ==> Doom(pc) == Some(n))
    && (isTail && TailGrip(was) == Some(n) && Stored(was).Some? ==>
          TailGrip(pc) == Some(n) && Stored(pc) == Stored(was))
  }

  lemma AccountKept(cfg: Config, s: State, s': State, a: Tid, pc: Pc, n: NodeId)
    requires a in s.threads && s'.threads == s.threads[a := pc]
    requires NodeInv(cfg, s, n) && Grows(s, s', a) && Untouched(s, s', a, pc, n)
    requires s.nodes[n].pos.Some?
    ensures Accounted(s', n)
  {
    TeamStep(s.threads, a, pc, Holding(n));
  }

  lemma LinksKept(cfg: Config, s: State, s': State, a: Tid, pc: Pc, n: NodeId)
    requires a in s.threads && s'.threads == s.threads[a := pc]
    requires NodeInv(cfg, s, n) && Grows(s, s', a) && Untouched(s, s', a, pc, n)
    requires s.nodes[n].pos.Some?
    ensures LinksInv(s', n)
  {
    hide Accounted, DataInv;
  }

  lemma DataKept(cfg: Config, s: State, s': State, a: Tid, pc: Pc, n: NodeId)
    requires a in s.threads && s'.threads == s.threads[a := pc]
    requires NodeInv(cfg, s, n) && Grows(s, s', a) && Untouched(s, s', a, pc, n)
    requires s.nodes[n].pos.Some?
    ensures DataInv(cfg, s', n)
  {
    hide Accounted, LinksInv;
  }

  lemma PrivateKept(cfg: Config, s: State, s': State, a: Tid, pc: Pc, n: NodeId)
    requires a in s.threads && s'.threads == s.threads[a := pc]
    requires NodeInv(cfg, s, n) && Grows(s, s', a) && Untouched(s, s', a, pc, n)
    requires s.nodes[n].pos.None?
    ensures PrivateInv(s', n)
  {
    TeamStep(s.threads, a, pc, Holding(n));
  }

  lemma NodeKept(cfg: Config, s: State, s': State, a: Tid, pc: Pc, n: NodeId)
    requires a in s.threads && s'.threads == s.threads[a := pc]
    requires NodeInv(cfg, s, n) && Grows(s, s', a) && Untouched(s, s', a, pc, n)
    ensures NodeInv(cfg, s', n)
  {
    hide Accounted, LinksInv, DataInv, PrivateInv;
    if s.nodes[n].pos.Some? {
      AccountKept(cfg, s, s', a, pc, n);
      LinksKept(cfg, s, s', a, pc, n);
      DataKept(cfg, s, s', a, pc, n);
    } else {
      PrivateKept(cfg, s, s', a, pc, n);
    }
  }

  ghost predicate AllNodes(cfg: Config, s: State) {
    forall n {:trigger NodeInv(cfg, s, n)} | 0 <= n < |s.nodes| :: NodeInv(cfg, s, n)
  }

  predicate Inside(n: Option<NodeId>, nodes: set<NodeId>) {
    n.Some? ==> n.value in nodes
  }

  function PtrOf(w: Option<Word>): Option<NodeId> {
    match w
    case None => None
    case Some(x) => Some(x.ptr)
  }

  /** The two program counters differ only in what they claim about these nodes. */
  predicate ClaimsWithin(was: Pc, pc: Pc, nodes: set<NodeId>) {
    && (Grip(pc) == Grip(was) || (Inside(Grip(pc), nodes) && Inside(Grip(was), nodes)))
    && (Own(pc) == Own(was) || Inside(Own(was), nodes))
    && (TailWord(pc) == TailWord(was) || Inside(PtrOf(TailWord(was)), nodes))
    && (HeadWord(pc) == HeadWord(was) || Inside(PtrOf(HeadWord(was)), nodes))
    && (Doom(pc) == Doom(was) || Inside(Doom(was), nodes))
    && ((TailGrip(pc) == TailGrip(was) && Stored(pc) == Stored(was)) || Inside(TailGrip(was), nodes))
  }

  lemma ClaimsOutside(was: Pc, pc: Pc, nodes: set<NodeId>, n: NodeId, isTail: bool)
    requires ClaimsWithin(was, pc, nodes) && n !in nodes
    ensures SameClaims(was, pc, n, isTail)
  {
  }

  /** `head`, `tail` and the positions move only over these nodes. */
  ghost predicate MovesWithin(s: State, s': State, nodes: set<NodeId>) {
    && (s'.tail == s.tail || (s.tail.ptr in nodes && s'.tail.ptr in nodes))
    && (s'.head == s.head || (s.head.ptr in nodes && s'.head.ptr in nodes))
    && (s'.t == s.t || (s'.t == s.t + 1 < |s.chain| && s.chain[s.t] in nodes && s.chain[s.t + 1] in nodes))
    && (s'.h == s.h || (s'.h == s.h + 1 < |s.chain| && s.chain[s.h] in nodes))
    && (|s'.chain| == |s.chain| ||
        (0 < |s.chain| && |s'.chain| == |s.chain| + 1 && Get(s, s.chain[|s.chain| - 1]).first.Some?))
  }

  /** Only these nodes are written or new; of a linked node, `next` may be set besides. */
  ghost predicate WritesWithin(s: State, s': State, nodes: set<NodeId>) {
    && |s.nodes| <= |s'.nodes|
    && (forall n | 0 <= n < |s.nodes| && n !in nodes :: SameButNext(s.nodes[n], s'.nodes[n]))
    && (forall n | |s.nodes| <= n < |s'.nodes| :: n in nodes)
  }

  /** Writing one node. */
  lemma OneWrite(s: State, s': State, a: Tid, x: NodeId, node: Node, nodes: set<NodeId>)
    requires x < |s.nodes| && x in nodes
    requires s'.nodes == Put(s.nodes, x, node) && NodeGrows(s.nodes[x], node, a)
    ensures NodesGrow(s, s', a) && WritesWithin(s, s', nodes)
  {
  }

  /** The nodes outside a given set keep their invariant when nothing about them changes. */
  lemma FrameNodes(cfg: Config, s: State, s': State, a: Tid, pc: Pc, nodes: set<NodeId>)
    requires AllNodes(cfg, s)
    requires a in s.threads && s'.threads == s.threads[a := pc]
    requires Grows(s, s', a) && MovesWithin(s, s', nodes) && ClaimsWithin(s.threads[a], pc, nodes)
    requires WritesWithin(s, s', nodes)
    requires forall n | n in nodes && n < |s'.nodes| :: NodeInv(cfg, s', n)
    ensures AllNodes(cfg, s')
  {
    forall n | 0 <= n < |s'.nodes|
      ensures NodeInv(cfg, s', n)
    {
      if n !in nodes {
        assert NodeInv(cfg, s, n);
        ClaimsOutside(s.threads[a], pc, nodes, n, s.nodes[n].pos == Some(s'.t));
        hide ClaimsWithin, SameClaims, Accounted, LinksInv, DataInv, PrivateInv;
        NodeKept(cfg, s, s', a, pc, n);
      }
    }
  }

  lemma TeamsStep(s: State, a: Tid, pc: Pc)
    requires a in s.threads
    ensures var old', new' := s.threads, s.threads[a := pc];
            && |Team(new', Uncounted)| ==
               |Team(old', Uncounted)| - One(PushPending(old'[a])) + One(PushPending(pc))
            && |Team(new', Unsized)| ==
               |Team(old', Unsized)|
               - One(PushPending(old'[a]) || old'[a].PushSize?) + One(PushPending(pc) || pc.PushSize?)
            && |Team(new', PopUncounted)| ==
               |Team(old', PopUncounted)| - One(PopPending(old'[a])) + One(PopPending(pc))
            && |Team(new', PopUnsized)| ==
               |Team(old', PopUnsized)|
               - One(PopPending(old'[a]) || old'[a].PopSize?) + One(PopPending(pc) || pc.PopSize?)
            && |Team(new', Deleting)| == |Team(old', Deleting)| - One(old'[a].CountDelete?) + One(pc.CountDelete?)
  {
    TeamStep(s.threads, a, pc, Deleting);
    TeamStep(s.threads, a, pc, Uncounted);
    TeamStep(s.threads, a, pc, Unsized);
    TeamStep(s.threads, a, pc, PopUncounted);
    TeamStep(s.threads, a, pc, PopUnsized);
  }

  function FirstAtTail(s: State): int
    requires s.t < |s.chain|
  {
    One(Get(s, s.chain[s.t]).first.Some?)
  }

  /** What a step adds to the statistics, the positions and the fills, and what its thread owes before and after,
      cancel out. */
  predicate Balanced(cfg: Config, s: State, s': State, was: Pc, pc: Pc)
    requires s.t < |s.chain| && s'.t < |s'.chain|
  {
    && s'.pushCount + One(PushPending(pc)) - s'.fills == s.pushCount + One(PushPending(was)) - s.fills
    && s'.popCount + One(PopPending(pc)) - s'.h == s.popCount + One(PopPending(was)) - s.h
    && s'.size + One(PushPending(pc) || pc.PushSize?) - One(PopPending(pc) || pc.PopSize?) - s'.fills + s'.h ==
       s.size + One(PushPending(was) || was.PushSize?) - One(PopPending(was) || was.PopSize?) - s.fills + s.h
    && s'.fills - s'.t - FirstAtTail(s') - s'.drops == s.fills - s.t - FirstAtTail(s) - s.drops
    && (cfg.keepData ==> s'.drops == s.drops)
  }

  lemma TallyStep(cfg: Config, s: State, s': State, a: Tid, pc: Pc)
    requires Tallied(cfg, s)
    requires a in s.threads && s'.threads == s.threads[a := pc]
    requires s'.t < |s'.chain|
    requires Balanced(cfg, s, s', s.threads[a], pc)
    requires s'.destructCount + One(pc.CountDelete?) - |FreedAt(s')| ==
             s.destructCount + One(s.threads[a].CountDelete?) - |FreedAt(s)|
    ensures Tallied(cfg, s')
  {
    TeamsStep(s, a, pc);
  }

  lemma FreedKept(s: State, s': State)
    requires |s.chain| <= |s'.chain|
    requires forall i | 0 <= i < |s.chain| :: s'.chain[i] == s.chain[i]
    requires forall i | 0 <= i < |s.chain| :: Get(s', s.chain[i]).life.Freed? == Get(s, s.chain[i]).life.Freed?
    requires forall i | |s.chain| <= i < |s'.chain| :: !Get(s', s'.chain[i]).life.Freed?
    ensures FreedAt(s') == FreedAt(s)
  {
  }

  /** Writing one node without moving, relinking or deleting it. */
  lemma OneWriteChain(s: State, s': State, a: Tid, pc: Pc, x: NodeId, node: Node)
    requires Chained(s) && x < |s.nodes|
    requires s'.nodes == Put(s.nodes, x, node)
    requires node.pos == s.nodes[x].pos && node.next == s.nodes[x].next
    requires node.life.Freed? == s.nodes[x].life.Freed?
    requires a in s.threads && s'.threads == s.threads[a := pc]
    requires s'.chain == s.chain
    requires s'.h == s.h && s'.t == s.t && s'.head == s.head && s'.tail == s.tail ==>
               (TailGrip(pc) == Some(s.tail.ptr)) == (TailGrip(s.threads[a]) == Some(s.tail.ptr))
    ensures s'.h == s.h && s'.t == s.t && s'.head == s.head && s'.tail == s.tail ==> Chained(s')
    ensures FreedAt(s') == FreedAt(s)
  {
    FreedKept(s, s');
    if s'.h == s.h && s'.t == s.t && s'.head == s.head && s'.tail == s.tail {
      ChainKept(s, s', a, pc);
    }
  }

  /** The chain is as it was when no position, no link, neither anchor and no tail reference changes. */
  lemma ChainKept(s: State, s': State, a: Tid, pc: Pc)
    requires Chained(s)
    requires a in s.threads && s'.threads == s.threads[a := pc]
    requires s'.chain == s.chain && s'.h == s.h && s'.t == s.t && s'.head == s.head && s'.tail == s.tail
    requires |s.nodes| <= |s'.nodes|
    requires forall i {:trigger s.chain[i]} | 0 <= i < |s.chain| ::
               && s'.nodes[s.chain[i]].pos == s.nodes[s.chain[i]].pos
               && s'.nodes[s.chain[i]].next == s.nodes[s.chain[i]].next
    requires (TailGrip(pc) == Some(s.tail.ptr)) == (TailGrip(s.threads[a]) == Some(s.tail.ptr))
    ensures Chained(s')
  {
    TeamStep(s.threads, a, pc, HoldingTail(s.tail.ptr));
  }

  lemma Assemble(cfg: Config, s: State, s': State, a: Tid, pc: Pc)
    requires Inv(cfg, s)
    requires a in s.threads && s'.threads == s.threads[a := pc]
    requires Chained(s')
    requires AllNodes(cfg, s')
    requires Grows(s, s', a)
    requires PcInv(cfg, s', a, pc)
    requires Tallied(cfg, s')
    ensures Inv(cfg, s')
  {
    assert s'.threads.Keys == s.threads.Keys;
    assert |s'.threads| == |s'.threads.Keys| == |s.threads.Keys| == |s.threads|;
    forall b | b in s'.threads
      ensures ThreadInv(cfg, s', b)
    {
      if b != a {
        assert ThreadInv(cfg, s, b);
        ThreadKept(cfg, s, s', a, b);
      }
    }
  }

  /** Only linked nodes are ever held. */
  lemma Unheld(cfg: Config, s: State, n: NodeId)
    requires Inv(cfg, s) && !IsLinked(s, n)
    ensures Team(s.threads, Holding(n)) == {}
  {
    forall b | b in s.threads
      ensures Grip(s.threads[b]) != Some(n)
    {
      assert ThreadInv(cfg, s, b);
    }
  }

  /** No thread has a tail reference to a node that has yet to become the tail. */
  lemma UnheldTail(cfg: Config, s: State, n: NodeId)
    requires Inv(cfg, s) && IsLinked(s, n) && s.t < Pos(s, n)
    ensures Team(s.threads, HoldingTail(n)) == {}
  {
    forall b | b in s.threads
      ensures TailGrip(s.threads[b]) != Some(n)
    {
      assert ThreadInv(cfg, s, b);
    }
  }

  /** The program counters claim the same about every node. */
  predicate Quiet(tail: NodeId, pc: Pc, pc': Pc) {
    && Grip(pc') == Grip(pc)
    && Own(pc') == Own(pc)
    && TailWord(pc') == TailWord(pc)
    && HeadWord(pc') == HeadWord(pc)
    && Doom(pc') == Doom(pc)
    && (TailGrip(pc') == Some(tail)) == (TailGrip(pc) == Some(tail))
    && (TailGrip(pc') == Some(tail) ==> Stored(pc') == Stored(pc))
  }

  lemma QuietNodes(cfg: Config, s: State, s': State, a: Tid, pc: Pc)
    requires Inv(cfg, s)
    requires a in s.threads && s'.threads == s.threads[a := pc]
    requires s'.nodes == s.nodes && s'.chain == s.chain && s'.h == s.h && s'.t == s.t
    requires s'.head == s.head && s'.tail == s.tail
    requires Quiet(s.tail.ptr, s.threads[a], pc)
    ensures AllNodes(cfg, s')
  {
    forall n | 0 <= n < |s'.nodes|
      ensures NodeInv(cfg, s', n)
    {
      assert NodeInv(cfg, s, n);
      NodeKept(cfg, s, s', a, pc, n);
    }
  }

  lemma QuietChain(s: State, s': State, a: Tid, pc: Pc)
    requires Chained(s)
    requires a in s.threads && s'.threads == s.threads[a := pc]
    requires s'.nodes == s.nodes && s'.chain == s.chain && s'.h == s.h && s'.t == s.t
    requires s'.head == s.head && s'.tail == s.tail
    requires Quiet(s.tail.ptr, s.threads[a], pc)
    ensures Chained(s')
  {
    TeamStep(s.threads, a, pc, HoldingTail(s.tail.ptr));
  }

  /** The moves of a program counter that keep what the thread holds, owns and owes. */
  predicate LocalMove(tail: NodeId, was: Pc, pc: Pc) {
    match was
    case PushLoad(p) => pc.PushAcquire? && pc.p == p
    case PushAcquire(p, _) => pc.PushAcquire? && pc.p == p
    case PushFill(p, w) => p.fill.NotYet? && pc.PushLink? && pc.w == w && pc.p == p.(lost := pc.p.lost)
    case PushLink(p, w) => p.fill.NotYet? && pc.PushSwing? && pc.p == p && pc.cur == w.ptr
    case PushSwing(p, cur, _, _) =>
      || (pc.PushSwing? && pc.p == p && pc.cur == cur)
      || (cur != tail && pc.Drop? && pc.n == cur && pc.k.AfterPush? && pc.k.p == p)
    case PushDone(p) => p.own.None? && pc.Idle?
    case PopPeek => pc.PopPeekAgain?
    case PopPeekAgain(_) => pc.PopLoad? || pc.PopDone?
    case PopLoad => pc.PopAcquire?
    case PopAcquire(_) => pc.PopAcquire?
    case PopCheck(w) => (pc.PopNext? && pc.w == w) || (pc.Drop? && pc.n == w.ptr && pc.k.AfterEmpty?)
    case PopNext(w) => pc.PopSwing? && pc.w == w
    case PopSwing(w, _) => pc.Drop? && pc.n == w.ptr && pc.k.AfterMiss?
    case PopDone(_) => pc.Idle?
    case Free(w, side, _, k) => pc.Free? && pc.w == w && pc.side == side && pc.k == k
    case Drop(n, _, k) => pc.Drop? && pc.n == n && pc.k == k
    case Idle => pc.PopPeek?
    case _ => false
  }

  lemma LocalMoveIsQuiet(tail: NodeId, was: Pc, pc: Pc)
    requires LocalMove(tail, was, pc)
    ensures Quiet(tail, was, pc)
  {
  }

  lemma LocalMoveOwesTheSame(tail: NodeId, was: Pc, pc: Pc)
    requires LocalMove(tail, was, pc)
    ensures PushPending(pc) == PushPending(was) && PopPending(pc) == PopPending(was)
    ensures !pc.PushSize? && !was.PushSize? && !pc.PopSize? && !was.PopSize? && !pc.CountDelete? && !was.CountDelete?
  {
  }

  lemma QuietTally(cfg: Config, s: State, s': State, a: Tid, pc: Pc)
    requires Chained(s) && Tallied(cfg, s)
    requires a in s.threads && s'.threads == s.threads[a := pc]
    requires s' == To(s, a, pc).(
               pushCount := s'.pushCount, popCount := s'.popCount, size := s'.size, destructCount := s'.destructCount)
    requires PaysUp(s, s', s.threads[a], pc)
    ensures Tallied(cfg, s')
  {
    TeamsStep(s, a, pc);
    assert FreedAt(s') == FreedAt(s);
  }

  /** What the step adds to the statistics is what the thread no longer owes them. */
  predicate PaysUp(s: State, s': State, was: Pc, pc: Pc) {
    && s'.pushCount + One(PushPending(pc)) == s.pushCount + One(PushPending(was))
    && s'.popCount + One(PopPending(pc)) == s.popCount + One(PopPending(was))
    && s'.size + One(PushPending(pc) || pc.PushSize?) - One(PopPending(pc) || pc.PopSize?) ==
       s.size + One(PushPending(was) || was.PushSize?) - One(PopPending(was) || was.PopSize?)
    && s'.destructCount + One(pc.CountDelete?) == s.destructCount + One(was.CountDelete?)
  }

  lemma PcInvLocal(cfg: Config, s: State, s': State, a: Tid, pc: Pc)
    requires PcInv(cfg, s, a, pc)
    requires s'.nodes == s.nodes && s'.chain == s.chain && s'.h == s.h && s'.t == s.t
    ensures PcInv(cfg, s', a, pc)
  {
    hide PcInv;
    PcKept(cfg, s, s', a + 1, a, pc);
  }

  /** A step that changes nothing but the thread's own locals and the statistics. */
  lemma QuietStep(cfg: Config, s: State, s': State, a: Tid, pc: Pc)
    requires Inv(cfg, s)
    requires a in s.threads
    requires s' == To(s, a, pc).(
               pushCount := s'.pushCount, popCount := s'.popCount, size := s'.size, destructCount := s'.destructCount)
    requires Quiet(s.tail.ptr, s.threads[a], pc)
    requires PcInv(cfg, s, a, pc)
    requires PaysUp(s, s', s.threads[a], pc)
    ensures Keeps(cfg, s, s', a)
  {
    QuietNodes(cfg, s, s', a, pc);
    QuietChain(s, s', a, pc);
    QuietTally(cfg, s, s', a, pc);
    PcInvLocal(cfg, s, s', a, pc);
    assert Grows(s, s', a);
    Assemble(cfg, s, s', a, pc);
  }

  lemma LocalStep(cfg: Config, s: State, a: Tid, pc: Pc)
    requires Inv(cfg, s)
    requires a in s.threads
    requires LocalMove(s.tail.ptr, s.threads[a], pc)
    requires PcInv(cfg, s, a, pc)
    ensures Keeps(cfg, s, To(s, a, pc), a)
  {
    hide Inv, PcInv, Quiet, LocalMove, PushPending, PopPending, Keeps;
    LocalMoveIsQuiet(s.tail.ptr, s.threads[a], pc);
    LocalMoveOwesTheSame(s.tail.ptr, s.threads[a], pc);
    QuietStep(cfg, s, To(s, a, pc), a, pc);
  }

  /** A step of a, from `was` to `pc`, that writes only these nodes. */
  ghost predicate Framed(s: State, s': State, a: Tid, was: Pc, pc: Pc, nodes: set<NodeId>) {
    && a in s.threads && s.threads[a] == was
    && s'.threads == s.threads[a := pc]
    && Grows(s, s', a)
    && WritesWithin(s, s', nodes)
    && MovesWithin(s, s', nodes)
    && ClaimsWithin(was, pc, nodes)
  }

  /** Everything a step of a, from `was` to `pc`, must show besides the accounts of the nodes it writes. */
  ghost predicate Effect(cfg: Config, s: State, s': State, a: Tid, was: Pc, pc: Pc, nodes: set<NodeId>) {
    && Framed(s, s', a, was, pc, nodes)
    && Chained(s')
    && PcInv(cfg, s', a, pc)
    && s.t < |s.chain|
    && Balanced(cfg, s, s', was, pc)
    && s'.destructCount + One(pc.CountDelete?) - |FreedAt(s')| ==
       s.destructCount + One(was.CountDelete?) - |FreedAt(s)|
  }

  lemma EffectStep(cfg: Config, s: State, s': State, a: Tid, was: Pc, pc: Pc, nodes: set<NodeId>)
    requires Inv(cfg, s)
    requires Effect(cfg, s, s', a, was, pc, nodes)
    requires forall n | n in nodes && n < |s'.nodes| :: NodeInv(cfg, s', n)
    ensures Keeps(cfg, s, s', a)
  {
    assert AllNodes(cfg, s) && Tallied(cfg, s);
    hide NodeInv, PcInv, Chained, Balanced, ClaimsWithin;
    FrameNodes(cfg, s, s', a, pc, nodes);
    TallyStep(cfg, s, s', a, pc);
    hide Tallied, Grows;
    Assemble(cfg, s, s', a, pc);
  }

  /** What the invariant says of a linked node, in its parts. */
  ghost predicate Sound(cfg: Config, s: State, n: NodeId) {
    IsLinked(s, n) && Accounted(s, n) && LinksInv(s, n) && DataInv(cfg, s, n)
  }

  /** A node's account moves with its external counts and its holders. */
  lemma AccountMoves(s: State, s': State, a: Tid, was: Pc, pc: Pc, n: NodeId)
    requires n < |s.nodes| && n < |s'.nodes| && Accounted(s, n)
    requires a in s.threads && s.threads[a] == was && s'.threads == s.threads[a := pc]
    requires s'.nodes[n].count == s.nodes[n].count
    requires s'.nodes[n].tailLink.Released? == s.nodes[n].tailLink.Released?
    requires s'.nodes[n].headLink.Released? == s.nodes[n].headLink.Released?
    requires Extra(s'.nodes[n].tailLink, n, s'.tail) + Extra(s'.nodes[n].headLink, n, s'.head)
             - One(Grip(pc) == Some(n)) ==
             Extra(s.nodes[n].tailLink, n, s.tail) + Extra(s.nodes[n].headLink, n, s.head)
             - One(Grip(was) == Some(n))
    ensures Accounted(s', n)
  {
    TeamStep(s.threads, a, pc, Holding(n));
  }
}
