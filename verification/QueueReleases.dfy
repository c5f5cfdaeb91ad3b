/**
Giving up references: folding a detached external pointer into its node (lines 83-103), dropping one reference
(lines 46-63), and deleting the node whose counters have both reached zero.
*/
module QueueReleases {
  import opened Options
  import opened QueueModel
  import opened QueueInvariant
  import opened QueueFrames

  function ContOwn(k: Cont): Option<NodeId> {
    match k
    case AfterPush(p, _) => p.own
    case _ => None
  }

  function ContOwesPush(k: Cont): bool {
    k.AfterPush? && !k.p.fill.NotYet?
  }

  /** What a thread that has given up its reference holds and owes. */
  lemma AfterClaims(c: Counter, n: NodeId, k: Cont)
    ensures var pc := After(c, n, k);
            && Grip(pc) == TailGrip(pc) == None
            && TailWord(pc) == HeadWord(pc) == None
            && Doom(pc) == (if Unused(c) then Some(n) else None)
            && Own(pc) == ContOwn(k)
            && PushPending(pc) == ContOwesPush(k) && PopPending(pc) == k.AfterTake?
            && !pc.PushSize? && !pc.PopSize? && !pc.CountDelete?
  {
  }

  lemma ResumeClaims(k: Cont)
    ensures var pc := Resume(k);
            && Grip(pc) == TailGrip(pc) == None
            && TailWord(pc) == HeadWord(pc) == None
            && Doom(pc) == None
            && Own(pc) == ContOwn(k)
            && PushPending(pc) == ContOwesPush(k) && PopPending(pc) == k.AfterTake?
            && !pc.PushSize? && !pc.PopSize? && !pc.CountDelete?
  {
  }

  lemma CountDeleteClaims(k: Cont)
    ensures var pc := CountDelete(k);
            && Grip(pc) == TailGrip(pc) == None
            && TailWord(pc) == HeadWord(pc) == None
            && Doom(pc) == None
            && Own(pc) == ContOwn(k)
            && PushPending(pc) == ContOwesPush(k) && PopPending(pc) == k.AfterTake?
  {
  }

  lemma ResumeInv(cfg: Config, s: State, a: Tid, k: Cont)
    requires ContInv(s, a, k)
    ensures PcInv(cfg, s, a, Resume(k))
  {
  }

  lemma ContKept(s: State, s': State, a: Tid, k: Cont)
    requires ContInv(s, a, k) && s'.t == s.t && |s.nodes| <= |s'.nodes|
    requires forall n | 0 <= n < |s.nodes| && s.nodes[n].pos.None? :: s'.nodes[n] == s.nodes[n]
    ensures ContInv(s', a, k)
  {
  }

  lemma ShiftMod(x: int, k: int)
    ensures (x % INTERNAL_MOD + k) % INTERNAL_MOD == (x + k) % INTERNAL_MOD
    ensures (x + INTERNAL_MOD) % INTERNAL_MOD == x % INTERNAL_MOD
  {
  }

  // ----- Folding and dropping

  /** The thread at `was` gives up its reference to n, which becomes `node`. */
  ghost predicate GivesUp(s: State, a: Tid, was: Pc, n: NodeId, node: Node, k: Cont) {
    && a in s.threads && s.threads[a] == was
    && Grip(was) == Some(n) && TailGrip(was) == None && Doom(was) == None && Own(was) == ContOwn(k)
    && (TailWord(was).Some? ==> TailWord(was).value.ptr == n)
    && (HeadWord(was).Some? ==> HeadWord(was).value.ptr == n)
    && PushPending(was) == ContOwesPush(k) && PopPending(was) == k.AfterTake?
    && !was.PushSize? && !was.PopSize? && !was.CountDelete?
    && IsLinked(s, n) && s.nodes[n].life.Shared? && ContInv(s, a, k)
    && s.h <= s.t < |s.chain|
    && node == s.nodes[n].(count := node.count, tailLink := node.tailLink, headLink := node.headLink)
    && (node.tailLink == s.nodes[n].tailLink ||
        (s.nodes[n].tailLink.Detached? && s.nodes[n].tailLink.owner == a && node.tailLink.Released?))
    && (node.headLink == s.nodes[n].headLink ||
        (s.nodes[n].headLink.Detached? && s.nodes[n].headLink.owner == a && node.headLink.Released?))
    && (s.nodes[n].tailLink.Detached? && s.nodes[n].tailLink.owner == a ==>
          node.tailLink.Released?)
    && (s.nodes[n].headLink.Detached? && s.nodes[n].headLink.owner == a ==>
          node.headLink.Released?)
  }

  function SettledNode(a: Tid, node: Node): Node {
    node.(life := if Unused(node.count) then Doomed(a) else node.life)
  }

  lemma SettledInv(cfg: Config, s: State, a: Tid, was: Pc, n: NodeId, node: Node, k: Cont)
    requires GivesUp(s, a, was, n, node, k)
    requires LinksInv(s, n) && DataInv(cfg, s, n)
    requires Accounted(Settled(s, a, n, node, k), n)
    ensures NodeInv(cfg, Settled(s, a, n, node, k), n)
  {
    AfterClaims(node.count, n, k);
    hide Accounted, After;
  }

  lemma SettledFrame(s: State, a: Tid, was: Pc, n: NodeId, node: Node, k: Cont)
    requires GivesUp(s, a, was, n, node, k)
    ensures Framed(s, Settled(s, a, n, node, k), a, was, After(node.count, n, k), {n})
  {
    AfterClaims(node.count, n, k);
    hide After, Grip, TailGrip, TailWord, HeadWord, Doom, Own, PushPending, PopPending;
    OneWrite(s, Settled(s, a, n, node, k), a, n, SettledNode(a, node), {n});
  }

  lemma SettledChain(s: State, a: Tid, was: Pc, n: NodeId, node: Node, k: Cont)
    requires GivesUp(s, a, was, n, node, k) && Chained(s)
    ensures Chained(Settled(s, a, n, node, k)) && FreedAt(Settled(s, a, n, node, k)) == FreedAt(s)
  {
    AfterClaims(node.count, n, k);
    hide After, Grip, TailGrip, TailWord, HeadWord, Doom, Own, PushPending, PopPending, Chained, ContInv;
    OneWriteChain(s, Settled(s, a, n, node, k), a, After(node.count, n, k), n, SettledNode(a, node));
  }

  lemma SettledKnows(cfg: Config, s: State, a: Tid, was: Pc, n: NodeId, node: Node, k: Cont)
    requires GivesUp(s, a, was, n, node, k)
    ensures PcInv(cfg, Settled(s, a, n, node, k), a, After(node.count, n, k))
  {
    hide Grip, TailGrip, TailWord, HeadWord, Doom, Own, PushPending, PopPending;
    var s' := Settled(s, a, n, node, k);
    ContKept(s, s', a, k);
    hide ContInv, Resume;
    ResumeInv(cfg, s', a, k);
  }

  lemma SettledBalance(cfg: Config, s: State, a: Tid, was: Pc, n: NodeId, node: Node, k: Cont)
    requires GivesUp(s, a, was, n, node, k)
    ensures Balanced(cfg, s, Settled(s, a, n, node, k), was, After(node.count, n, k))
  {
    AfterClaims(node.count, n, k);
    hide After, Grip, TailGrip, TailWord, HeadWord, Doom, Own, PushPending, PopPending, ContInv;
  }

  lemma Settles(cfg: Config, s: State, a: Tid, was: Pc, n: NodeId, node: Node, k: Cont)
    requires Inv(cfg, s) && GivesUp(s, a, was, n, node, k)
    requires Accounted(Settled(s, a, n, node, k), n)
    ensures Keeps(cfg, s, Settled(s, a, n, node, k), a)
  {
    assert NodeInv(cfg, s, n) && Chained(s);
    hide Inv, Accounted, LinksInv, DataInv, Settled, After, Framed, PcInv, Balanced, Chained;
    SettledInv(cfg, s, a, was, n, node, k);
    SettledFrame(s, a, was, n, node, k);
    SettledChain(s, a, was, n, node, k);
    SettledKnows(cfg, s, a, was, n, node, k);
    SettledBalance(cfg, s, a, was, n, node, k);
    hide NodeInv, GivesUp;
    assert Settled(s, a, n, node, k).destructCount == s.destructCount by { SettledCount(s, a, n, node, k); }
    EffectStep(cfg, s, Settled(s, a, n, node, k), a, was, After(node.count, n, k), {n});
  }

  lemma SettledCount(s: State, a: Tid, n: NodeId, node: Node, k: Cont)
    ensures Settled(s, a, n, node, k).destructCount == s.destructCount
  {
  }

  lemma FreeAccount(s: State, a: Tid, w: Word, side: Side, read: Option<Counter>, k: Cont)
    requires a in s.threads && s.threads[a] == Free(w, side, read, k) && FreeKnows(s, a, w, side, k)
    requires Accounted(s, w.ptr)
    ensures Accounted(Settled(s, a, w.ptr, Folded(s.nodes[w.ptr], w, side), k), w.ptr)
  {
    var n, node := w.ptr, s.nodes[w.ptr];
    var pc := After(Folded(node, w, side).count, n, k);
    AfterClaims(Folded(node, w, side).count, n, k);
    hide After, Own, TailWord, HeadWord, Doom, TailGrip, PushPending, PopPending, ContInv;
    TeamStep(s.threads, a, pc, Holding(n));
    var sum := |Team(s.threads, Holding(n))| - Extra(node.tailLink, n, s.tail) - Extra(node.headLink, n, s.head);
    ShiftMod(sum, w.count + (INTERNAL_MOD - 2));
    ShiftMod(sum + w.count - 2, 0);
  }

  lemma Frees(cfg: Config, s: State, a: Tid, w: Word, side: Side, read: Option<Counter>, k: Cont)
    requires At(cfg, s, a, Free(w, side, read, k))
    ensures Keeps(cfg, s, Settled(s, a, w.ptr, Folded(Get(s, w.ptr), w, side), k), a)
  {
    assert ThreadInv(cfg, s, a) && Chained(s);
    assert NodeInv(cfg, s, w.ptr);
    HeldIsShared(cfg, s, w.ptr, a);
    hide Inv;
    FreeAccount(s, a, w, side, read, k);
    hide NodeInv, Accounted, Settled;
    var node := Folded(s.nodes[w.ptr], w, side);
    assert GivesUp(s, a, Free(w, side, read, k), w.ptr, node, k);
    hide GivesUp;
    Settles(cfg, s, a, Free(w, side, read, k), w.ptr, node, k);
  }

  lemma DropAccount(s: State, a: Tid, n: NodeId, read: Option<Counter>, k: Cont)
    requires a in s.threads && s.threads[a] == Drop(n, read, k) && IsLinked(s, n)
    requires Accounted(s, n)
    ensures Accounted(Settled(s, a, n, s.nodes[n].(count := DroppedCounter(s.nodes[n].count)), k), n)
  {
    var node := s.nodes[n];
    AfterClaims(DroppedCounter(node.count), n, k);
    hide After, Own, TailWord, HeadWord, Doom, TailGrip, PushPending, PopPending, ContInv;
    TeamStep(s.threads, a, After(DroppedCounter(node.count), n, k), Holding(n));
    var sum := |Team(s.threads, Holding(n))| - Extra(node.tailLink, n, s.tail) - Extra(node.headLink, n, s.head);
    ShiftMod(sum, INTERNAL_MOD - 1);
    ShiftMod(sum - 1, 0);
  }

  lemma Drops(cfg: Config, s: State, a: Tid, n: NodeId, read: Option<Counter>, k: Cont)
    requires At(cfg, s, a, Drop(n, read, k))
    ensures Keeps(cfg, s, Settled(s, a, n, Get(s, n).(count := DroppedCounter(Get(s, n).count)), k), a)
  {
    assert ThreadInv(cfg, s, a) && Chained(s);
    assert NodeInv(cfg, s, n);
    HeldIsShared(cfg, s, n, a);
    hide Inv;
    DropAccount(s, a, n, read, k);
    hide Accounted, Settled;
    var node := s.nodes[n].(count := DroppedCounter(s.nodes[n].count));
    assert GivesUp(s, a, Drop(n, read, k), n, node, k);
    hide GivesUp;
    Settles(cfg, s, a, Drop(n, read, k), n, node, k);
  }

  // ----- Deleting

  ghost predicate DestroyReady(s: State, a: Tid, n: NodeId, k: Cont) {
    && a in s.threads && s.threads[a] == Destroy(n, k)
    && DestroyKnows(s, a, n, k)
    && s.t < |s.chain|
  }

  lemma DestroyNode(cfg: Config, s: State, a: Tid, n: NodeId, k: Cont)
    requires DestroyReady(s, a, n, k) && Sound(cfg, s, n)
    ensures NodeInv(cfg, Destroyed(s, a, n, k), n)
  {
    CountDeleteClaims(k);
    hide Resume, ContInv;
    AccountMoves(s, Destroyed(s, a, n, k), a, Destroy(n, k), CountDelete(k), n);
    hide Accounted;
  }

  lemma DestroyFrame(s: State, a: Tid, n: NodeId, k: Cont)
    requires DestroyReady(s, a, n, k)
    ensures Framed(s, Destroyed(s, a, n, k), a, Destroy(n, k), CountDelete(k), {n})
  {
    CountDeleteClaims(k);
    hide Resume, ContInv;
    OneWrite(s, Destroyed(s, a, n, k), a, n, s.nodes[n].(life := Freed), {n});
  }

  lemma DestroyChain(s: State, a: Tid, n: NodeId, k: Cont)
    requires DestroyReady(s, a, n, k) && Chained(s)
    ensures Chained(Destroyed(s, a, n, k))
  {
    CountDeleteClaims(k);
    hide Resume, ContInv;
    ChainKept(s, Destroyed(s, a, n, k), a, CountDelete(k));
  }

  lemma ChainAt(s: State, i: nat)
    requires Chained(s) && i < |s.chain|
    ensures s.chain[i] < |s.nodes| && s.nodes[s.chain[i]].pos == Some(i)
  {
  }

  lemma DestroyFreed(s: State, a: Tid, n: NodeId, k: Cont)
    requires DestroyReady(s, a, n, k) && Chained(s)
    ensures |FreedAt(Destroyed(s, a, n, k))| == |FreedAt(s)| + 1
  {
    hide Resume, ContInv, Team, Chained;
    forall i | 0 <= i < |s.chain|
      ensures s.chain[i] < |s.nodes| && (s.chain[i] == n <==> i == Pos(s, n))
    {
      ChainAt(s, i);
    }
    assert Pos(s, n) !in FreedAt(s);
    assert FreedAt(Destroyed(s, a, n, k)) == FreedAt(s) + {Pos(s, n)};
  }

  lemma DestroyKnown(cfg: Config, s: State, a: Tid, n: NodeId, k: Cont)
    requires DestroyReady(s, a, n, k)
    ensures PcInv(cfg, Destroyed(s, a, n, k), a, CountDelete(k))
  {
    ContKept(s, Destroyed(s, a, n, k), a, k);
    hide ContInv, Resume;
  }

  lemma DestroyBalance(cfg: Config, s: State, a: Tid, n: NodeId, k: Cont)
    requires DestroyReady(s, a, n, k)
    ensures Balanced(cfg, s, Destroyed(s, a, n, k), Destroy(n, k), CountDelete(k))
    ensures Destroyed(s, a, n, k).destructCount == s.destructCount
  {
    CountDeleteClaims(k);
    hide Resume, ContInv;
  }

  lemma DestroyFacts(cfg: Config, s: State, a: Tid, n: NodeId, k: Cont)
    requires At(cfg, s, a, Destroy(n, k))
    ensures DestroyReady(s, a, n, k) && Sound(cfg, s, n) && Chained(s) && s.t < |s.chain|
  {
    assert ThreadInv(cfg, s, a) && Chained(s);
    assert NodeInv(cfg, s, n);
    hide Inv, Accounted, LinksInv, DataInv;
  }

  lemma Destroys(cfg: Config, s: State, a: Tid, n: NodeId, k: Cont)
    requires At(cfg, s, a, Destroy(n, k))
    ensures Keeps(cfg, s, Destroyed(s, a, n, k), a)
  {
    hide Inv, Destroyed, Resume, Framed, Balanced, DestroyReady, Sound, PcInv, NodeInv, Chained, Keeps;
    DestroyFacts(cfg, s, a, n, k);
    DestroyFreed(s, a, n, k);
    DestroyNode(cfg, s, a, n, k);
    DestroyFrame(s, a, n, k);
    DestroyChain(s, a, n, k);
    DestroyKnown(cfg, s, a, n, k);
    DestroyBalance(cfg, s, a, n, k);
    EffectStep(cfg, s, Destroyed(s, a, n, k), a, Destroy(n, k), CountDelete(k), {n});
  }

  /** Lines 61 and 101. */
  lemma CountsDelete(cfg: Config, s: State, a: Tid, k: Cont)
    requires At(cfg, s, a, CountDelete(k))
    ensures Keeps(cfg, s, To(s, a, Resume(k)).(destructCount := s.destructCount + 1), a)
  {
    var s' := To(s, a, Resume(k)).(destructCount := s.destructCount + 1);
    assert ContInv(s, a, k) by { assert ThreadInv(cfg, s, a); }
    hide Inv;
    CountDeleteClaims(k);
    ResumeClaims(k);
    ResumeInv(cfg, s, a, k);
    hide Keeps, Resume, ContInv, PcInv, Grip, TailGrip, TailWord, HeadWord, Doom, Own, PushPending, PopPending;
    QuietStep(cfg, s, s', a, Resume(k));
  }
}
