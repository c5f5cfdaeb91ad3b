/**
The operations that write shared memory: allocating, taking references, storing a value, linking, advancing
`tail` and `head`, and taking the data.  For each: the facts that the invariant gives the acting thread (Ready),
the accounts of the nodes it writes (Node), everything else it must show (Effect), and the step itself.
*/
module QueueEffects {
  import opened Options
  import opened QueueModel
  import opened QueueInvariant
  import opened QueueFrames

  // ----- Allocating a node (line 140)

  function CalledPc(s: State, v: Value): Pc {
    PushLoad(Push(v, Some(|s.nodes|), NotYet, s.t, 0))
  }

  lemma CallNode(cfg: Config, s: State, a: Tid, v: Value)
    requires a in s.threads && s.threads[a] == Idle && Team(s.threads, Holding(|s.nodes|)) == {}
    ensures NodeInv(cfg, PushCalled(s, a, v), |s.nodes|)
  {
    TeamStep(s.threads, a, CalledPc(s, v), Holding(|s.nodes|));
  }

  lemma CallEffect(cfg: Config, s: State, a: Tid, v: Value)
    requires a in s.threads && s.threads[a] == Idle && Chained(s)
    ensures Effect(cfg, s, PushCalled(s, a, v), a, Idle, CalledPc(s, v), {|s.nodes|})
  {
    hide Framed, Chained;
    var s' := PushCalled(s, a, v);
    assert s.t < |s.chain| by { ChainInRange(s); }
    CallFrame(s, a, v);
    CallChain(s, a, v);
  }

  lemma CallFrame(s: State, a: Tid, v: Value)
    requires a in s.threads && s.threads[a] == Idle
    ensures Framed(s, PushCalled(s, a, v), a, Idle, CalledPc(s, v), {|s.nodes|})
  {
  }

  lemma ChainInRange(s: State)
    requires Chained(s)
    ensures s.t < |s.chain|
  {
  }

  lemma CallChain(s: State, a: Tid, v: Value)
    requires a in s.threads && s.threads[a] == Idle && Chained(s)
    ensures Chained(PushCalled(s, a, v)) && FreedAt(PushCalled(s, a, v)) == FreedAt(s)
  {
    ChainKept(s, PushCalled(s, a, v), a, CalledPc(s, v));
    FreedKept(s, PushCalled(s, a, v));
  }

  lemma CallsPush(cfg: Config, s: State, a: Tid, v: Value)
    requires At(cfg, s, a, Idle)
    ensures Keeps(cfg, s, PushCalled(s, a, v), a)
  {
    Unheld(cfg, s, |s.nodes|);
    assert Chained(s);
    hide Inv, NodeInv, Effect, Chained, PushCalled;
    CallNode(cfg, s, a, v);
    CallEffect(cfg, s, a, v);
    assert |PushCalled(s, a, v).nodes| >= 0;
    EffectStep(cfg, s, PushCalled(s, a, v), a, Idle, CalledPc(s, v), {|s.nodes|});
  }

  // ----- Taking a reference (lines 71-79)

  /** The tail's count stays within 16 bits, because each thread holds at most one of the references it counts. */
  lemma TailRoom(s: State, a: Tid, p: Push)
    requires FewThreads(s) && Chained(s) && a in s.threads && s.threads[a] == PushAcquire(p, s.tail)
    ensures Bump(s.tail) == Word(s.tail.ptr, s.tail.count + 1)
    ensures Chained(TailTaken(s, a, p))
  {
    var s', pc := TailTaken(s, a, p), PushFill(p, Bump(s.tail));
    TeamStep(s.threads, a, pc, HoldingTail(s.tail.ptr));
    TeamBound(s'.threads, HoldingTail(s.tail.ptr));
    assert s'.threads.Keys == s.threads.Keys;
    assert |s'.threads| == |s'.threads.Keys| == |s.threads.Keys| == |s.threads|;
  }

  ghost predicate AcquireReady(s: State, a: Tid, p: Push) {
    && a in s.threads && s.threads[a] == PushAcquire(p, s.tail)
    && Bump(s.tail) == Word(s.tail.ptr, s.tail.count + 1)
    && PushReady(s, a, p)
    && IsLinked(s, s.tail.ptr) && Pos(s, s.tail.ptr) == s.t < |s.chain|
    && s.nodes[s.tail.ptr].tailLink.Attached?
  }

  lemma AcquireFacts(cfg: Config, s: State, a: Tid, p: Push)
    requires At(cfg, s, a, PushAcquire(p, s.tail))
    ensures AcquireReady(s, a, p) && Chained(TailTaken(s, a, p)) && Sound(cfg, s, s.tail.ptr)
  {
    assert Chained(s) && ThreadInv(cfg, s, a);
    assert NodeInv(cfg, s, s.chain[s.t]);
    TailRoom(s, a, p);
  }

  lemma AcquireNode(cfg: Config, s: State, a: Tid, p: Push)
    requires AcquireReady(s, a, p) && Sound(cfg, s, s.tail.ptr)
    ensures NodeInv(cfg, TailTaken(s, a, p), s.tail.ptr)
  {
    AccountMoves(s, TailTaken(s, a, p), a, PushAcquire(p, s.tail), PushFill(p, Bump(s.tail)), s.tail.ptr);
    hide Accounted;
  }

  lemma AcquireEffect(cfg: Config, s: State, a: Tid, p: Push)
    requires AcquireReady(s, a, p) && Chained(TailTaken(s, a, p))
    ensures Effect(cfg, s, TailTaken(s, a, p), a, PushAcquire(p, s.tail), PushFill(p, Bump(s.tail)), {s.tail.ptr})
  {
    hide Chained;
    var s' := TailTaken(s, a, p);
    assert Framed(s, s', a, PushAcquire(p, s.tail), PushFill(p, Bump(s.tail)), {s.tail.ptr});
    hide Framed;
    assert FreedAt(s') == FreedAt(s);
  }

  lemma PushAcquires(cfg: Config, s: State, a: Tid, p: Push)
    requires At(cfg, s, a, PushAcquire(p, s.tail))
    ensures Keeps(cfg, s, TailTaken(s, a, p), a)
  {
    hide Inv, NodeInv, Effect, Sound, AcquireReady, Chained, TailTaken;
    AcquireFacts(cfg, s, a, p);
    AcquireNode(cfg, s, a, p);
    AcquireEffect(cfg, s, a, p);
    EffectStep(cfg, s, TailTaken(s, a, p), a, PushAcquire(p, s.tail), PushFill(p, Bump(s.tail)), {s.tail.ptr});
  }

  ghost predicate HeadReady(s: State, a: Tid) {
    && a in s.threads && s.threads[a] == PopAcquire(s.head)
    && Bump(s.head) == Word(s.head.ptr, s.head.count + 1)
    && IsLinked(s, s.head.ptr) && Pos(s, s.head.ptr) == s.h
    && s.nodes[s.head.ptr].headLink.Attached?
  }

  lemma HeadFacts(cfg: Config, s: State, a: Tid)
    requires At(cfg, s, a, PopAcquire(s.head)) && HeadRoom(s)
    ensures HeadReady(s, a) && Chained(s) && Sound(cfg, s, s.head.ptr)
  {
    assert Chained(s);
    assert NodeInv(cfg, s, s.chain[s.h]);
  }

  lemma HeadNode(cfg: Config, s: State, a: Tid)
    requires HeadReady(s, a) && Sound(cfg, s, s.head.ptr)
    ensures NodeInv(cfg, HeadTaken(s, a), s.head.ptr)
  {
    AccountMoves(s, HeadTaken(s, a), a, PopAcquire(s.head), PopCheck(Bump(s.head)), s.head.ptr);
    hide Accounted;
  }

  lemma HeadFrame(s: State, a: Tid)
    requires HeadReady(s, a) && Chained(s) && HeadRoom(s)
    ensures Framed(s, HeadTaken(s, a), a, PopAcquire(s.head), PopCheck(Bump(s.head)), {s.head.ptr})
  {
    hide Chained;
  }

  lemma HeadChain(s: State, a: Tid)
    requires HeadReady(s, a) && Chained(s) && HeadRoom(s)
    ensures Chained(HeadTaken(s, a))
  {
    TeamStep(s.threads, a, PopCheck(Bump(s.head)), HoldingTail(s.tail.ptr));
  }

  lemma HeadBalance(cfg: Config, s: State, a: Tid)
    requires HeadReady(s, a) && s.t < |s.chain|
    ensures PcInv(cfg, HeadTaken(s, a), a, PopCheck(Bump(s.head)))
    ensures Balanced(cfg, s, HeadTaken(s, a), PopAcquire(s.head), PopCheck(Bump(s.head)))
    ensures FreedAt(HeadTaken(s, a)) == FreedAt(s)
  {
  }

  lemma HeadEffect(cfg: Config, s: State, a: Tid)
    requires HeadReady(s, a) && Chained(s) && HeadRoom(s)
    ensures Effect(cfg, s, HeadTaken(s, a), a, PopAcquire(s.head), PopCheck(Bump(s.head)), {s.head.ptr})
  {
    hide Framed, PcInv, Balanced;
    HeadFrame(s, a);
    HeadChain(s, a);
    HeadBalance(cfg, s, a);
  }

  lemma PopAcquires(cfg: Config, s: State, a: Tid)
    requires At(cfg, s, a, PopAcquire(s.head)) && HeadRoom(s)
    ensures Keeps(cfg, s, HeadTaken(s, a), a)
  {
    hide Inv, NodeInv, Effect, Sound, HeadReady, Chained, HeadTaken;
    HeadFacts(cfg, s, a);
    HeadNode(cfg, s, a);
    HeadEffect(cfg, s, a);
    EffectStep(cfg, s, HeadTaken(s, a), a, PopAcquire(s.head), PopCheck(Bump(s.head)), {s.head.ptr});
  }

  // ----- Storing a value (line 149)

  ghost predicate StoreReady(cfg: Config, s: State, a: Tid, p: Push, w: Word) {
    && a in s.threads && s.threads[a] == PushFill(p, w)
    && FillKnows(s, a, p, w)
    && s.t < |s.chain|
    && s.nodes[w.ptr].data.None?
    && !s.nodes[w.ptr].life.Private?
    && !(s.nodes[w.ptr].headLink.Detached? && !s.nodes[w.ptr].taken)
    && (s.nodes[w.ptr].first.None? ==> !s.nodes[w.ptr].taken && w.ptr == s.chain[s.t] && Pos(s, w.ptr) == s.t)
    && (s.nodes[w.ptr].first.Some? ==> s.nodes[w.ptr].taken && Pos(s, w.ptr) < s.h && !cfg.keepData)
    && (s.nodes[w.ptr].first.Some? ==> s.chain[s.t] != w.ptr)
  }

  /** A data CAS succeeds on the tail, or on a node that `head` has passed and whose data a popper has cleared. */
  lemma StoreFacts(cfg: Config, s: State, a: Tid, p: Push, w: Word)
    requires At(cfg, s, a, PushFill(p, w)) && Get(s, w.ptr).data.None?
    ensures StoreReady(cfg, s, a, p, w) && Chained(s) && Sound(cfg, s, w.ptr)
  {
    assert ThreadInv(cfg, s, a) && Chained(s);
    assert NodeInv(cfg, s, w.ptr);
  }

  lemma FirstNode(cfg: Config, s: State, a: Tid, p: Push, w: Word)
    requires StoreReady(cfg, s, a, p, w) && Sound(cfg, s, w.ptr) && s.nodes[w.ptr].first.None?
    ensures NodeInv(cfg, FilledFirst(s, a, p, w), w.ptr)
  {
    AccountMoves(s, FilledFirst(s, a, p, w), a, PushFill(p, w), PushLink(p.(fill := First), w), w.ptr);
    hide Accounted;
  }

  lemma FirstFrame(cfg: Config, s: State, a: Tid, p: Push, w: Word)
    requires StoreReady(cfg, s, a, p, w) && s.nodes[w.ptr].first.None?
    ensures Framed(s, FilledFirst(s, a, p, w), a, PushFill(p, w), PushLink(p.(fill := First), w), {w.ptr})
  {
    var node := s.nodes[w.ptr].(data := Some(p.value), first := Some(Fill(p.value, a)));
    OneWrite(s, FilledFirst(s, a, p, w), a, w.ptr, node, {w.ptr});
  }

  lemma FirstEffect(cfg: Config, s: State, a: Tid, p: Push, w: Word)
    requires StoreReady(cfg, s, a, p, w) && Chained(s) && s.nodes[w.ptr].first.None?
    ensures Effect(cfg, s, FilledFirst(s, a, p, w), a, PushFill(p, w), PushLink(p.(fill := First), w), {w.ptr})
  {
    hide Framed, Chained;
    FirstFrame(cfg, s, a, p, w);
    var node := s.nodes[w.ptr].(data := Some(p.value), first := Some(Fill(p.value, a)));
    OneWriteChain(s, FilledFirst(s, a, p, w), a, PushLink(p.(fill := First), w), w.ptr, node);
  }

  lemma FillsFirst(cfg: Config, s: State, a: Tid, p: Push, w: Word)
    requires At(cfg, s, a, PushFill(p, w)) && Get(s, w.ptr).data.None? && Get(s, w.ptr).first.None?
    ensures Keeps(cfg, s, FilledFirst(s, a, p, w), a)
  {
    StoreFacts(cfg, s, a, p, w);
    assert w.ptr < |s.nodes|;
    hide Inv, NodeInv, Effect, Sound, StoreReady, Chained, FilledFirst;
    FirstNode(cfg, s, a, p, w);
    FirstEffect(cfg, s, a, p, w);
    EffectStep(cfg, s, FilledFirst(s, a, p, w), a, PushFill(p, w), PushLink(p.(fill := First), w), {w.ptr});
  }

  lemma LateNode(cfg: Config, s: State, a: Tid, p: Push, w: Word)
    requires StoreReady(cfg, s, a, p, w) && Sound(cfg, s, w.ptr) && s.nodes[w.ptr].first.Some?
    ensures NodeInv(cfg, FilledLate(s, a, p, w), w.ptr)
  {
    AccountMoves(s, FilledLate(s, a, p, w), a, PushFill(p, w), PushLink(p.(fill := Late), w), w.ptr);
    hide Accounted;
  }

  lemma LateFrame(cfg: Config, s: State, a: Tid, p: Push, w: Word)
    requires StoreReady(cfg, s, a, p, w) && s.nodes[w.ptr].first.Some?
    ensures Framed(s, FilledLate(s, a, p, w), a, PushFill(p, w), PushLink(p.(fill := Late), w), {w.ptr})
  {
    OneWrite(s, FilledLate(s, a, p, w), a, w.ptr, s.nodes[w.ptr].(data := Some(p.value)), {w.ptr});
  }

  lemma LateEffect(cfg: Config, s: State, a: Tid, p: Push, w: Word)
    requires StoreReady(cfg, s, a, p, w) && Chained(s) && s.nodes[w.ptr].first.Some?
    ensures Effect(cfg, s, FilledLate(s, a, p, w), a, PushFill(p, w), PushLink(p.(fill := Late), w), {w.ptr})
  {
    hide Framed, Chained;
    LateFrame(cfg, s, a, p, w);
    OneWriteChain(s, FilledLate(s, a, p, w), a, PushLink(p.(fill := Late), w), w.ptr,
                  s.nodes[w.ptr].(data := Some(p.value)));
  }

  lemma FillsLate(cfg: Config, s: State, a: Tid, p: Push, w: Word)
    requires At(cfg, s, a, PushFill(p, w)) && Get(s, w.ptr).data.None? && Get(s, w.ptr).first.Some?
    ensures Keeps(cfg, s, FilledLate(s, a, p, w), a)
  {
    StoreFacts(cfg, s, a, p, w);
    assert w.ptr < |s.nodes|;
    hide Inv, NodeInv, Effect, Sound, StoreReady, Chained, FilledLate;
    LateNode(cfg, s, a, p, w);
    LateEffect(cfg, s, a, p, w);
    EffectStep(cfg, s, FilledLate(s, a, p, w), a, PushFill(p, w), PushLink(p.(fill := Late), w), {w.ptr});
  }

  // ----- Linking the next node (lines 153 and 170)

  /** Only the tail can lack a successor, and it lacks one only when it ends the chain. */
  ghost predicate LinkReady(cfg: Config, s: State, a: Tid, p: Push, w: Word) {
    && a in s.threads && s.threads[a] == PushLink(p, w)
    && LinkKnows(cfg, s, a, p, w)
    && |s.chain| == s.t + 1 && s.chain[s.t] == w.ptr == s.tail.ptr && Pos(s, w.ptr) == s.t && s.h <= s.t
    && p.own == Some(OwnOf(p)) && OwnOf(p) < |s.nodes|
    && s.nodes[OwnOf(p)] == FreshNode(a) && OwnOf(p) != w.ptr && OwnOf(p) != s.head.ptr
    && !s.nodes[w.ptr].life.Private?
  }

  lemma LinkFacts(cfg: Config, s: State, a: Tid, p: Push, w: Word)
    requires At(cfg, s, a, PushLink(p, w)) && Get(s, w.ptr).next.None?
    ensures LinkReady(cfg, s, a, p, w) && Chained(s)
    ensures Team(s.threads, Holding(OwnOf(p))) == {} && Team(s.threads, Holding(|s.nodes|)) == {}
  {
    assert ThreadInv(cfg, s, a) && Chained(s);
    assert NodeInv(cfg, s, OwnOf(p)) && NodeInv(cfg, s, w.ptr);
    Unheld(cfg, s, OwnOf(p));
    Unheld(cfg, s, |s.nodes|);
    hide Inv;
    assert s.nodes[s.chain[Pos(s, w.ptr)]].next.None?;
  }

  /** The node that has just been linked, and the private one that replaces it. */
  lemma LinkNodes(cfg: Config, s: State, s': State, a: Tid, p: Push, w: Word, pc: Pc)
    requires LinkReady(cfg, s, a, p, w)
    requires Team(s.threads, Holding(OwnOf(p))) == {} && Team(s.threads, Holding(|s.nodes|)) == {}
    requires s'.threads == s.threads[a := pc] && Grip(pc) == Some(w.ptr)
    requires s'.h == s.h && s'.t == s.t && s'.head == s.head && s'.tail == s.tail && s'.chain == s.chain + [OwnOf(p)]
    requires OwnOf(p) < |s'.nodes| && s'.nodes[OwnOf(p)] == FreshNode(a).(pos := Some(|s.chain|), life := Shared)
    requires |s'.nodes| > |s.nodes| ==> s'.nodes[|s.nodes|] == FreshNode(a) && Own(pc) == Some(|s.nodes|)
    ensures NodeInv(cfg, s', OwnOf(p))
    ensures |s'.nodes| > |s.nodes| ==> NodeInv(cfg, s', |s.nodes|)
  {
    TeamStep(s.threads, a, pc, Holding(OwnOf(p)));
    TeamStep(s.threads, a, pc, Holding(|s.nodes|));
  }

  /** s' is s with the pusher's own node at the end of the chain. */
  ghost predicate LinksOwn(s: State, s': State, p: Push, w: Word) {
    && s'.chain == s.chain + [OwnOf(p)] && s'.h == s.h && s'.t == s.t && s'.head == s.head && s'.tail == s.tail
    && |s.nodes| <= |s'.nodes| && forall n | 0 <= n < |s.nodes| :: s'.nodes[n] == Extended(s, p, w)[n]
  }

  lemma LinkFreed(cfg: Config, s: State, s': State, a: Tid, p: Push, w: Word)
    requires LinkReady(cfg, s, a, p, w) && Chained(s) && LinksOwn(s, s', p, w)
    ensures FreedAt(s') == FreedAt(s)
  {
    hide LinkKnows;
    FreedKept(s, s');
  }

  lemma LinkChain(cfg: Config, s: State, s': State, a: Tid, p: Push, w: Word, pc: Pc)
    requires LinkReady(cfg, s, a, p, w) && Chained(s) && LinksOwn(s, s', p, w)
    requires s'.threads == s.threads[a := pc] && TailGrip(pc) == Some(w.ptr)
    ensures Chained(s')
  {
    LinkEnds(cfg, s, s', a, p, w);
    ChainEnds(s);
    hide LinkKnows, Team, LinkReady, LinksOwn, Chained;
    TeamStep(s.threads, a, pc, HoldingTail(s.tail.ptr));
    forall i: nat | i < |s'.chain|
      ensures ChainedAt(s', i)
    {
      LinkAt(cfg, s, s', a, p, w, i);
    }
    MakeChained(s');
  }

  ghost predicate ChainedAt(s: State, i: nat)
    requires i < |s.chain|
  {
    && s.chain[i] < |s.nodes| && s.nodes[s.chain[i]].pos == Some(i)
    && s.nodes[s.chain[i]].next == if i == |s.chain| - 1 then None else Some(Word(s.chain[i + 1], 1))
  }

  lemma ChainEnds(s: State)
    requires Chained(s)
    ensures 1 <= s.head.count < COUNT_MOD && s.tail.count == 1 + |Team(s.threads, HoldingTail(s.tail.ptr))|
  {
  }

  lemma MakeChained(s: State)
    requires s.h <= s.t < |s.chain| <= s.t + 2
    requires forall i: nat {:trigger ChainedAt(s, i)} | i < |s.chain| :: ChainedAt(s, i)
    requires s.head.ptr == s.chain[s.h] && s.tail.ptr == s.chain[s.t]
    requires 1 <= s.head.count < COUNT_MOD && s.tail.count == 1 + |Team(s.threads, HoldingTail(s.tail.ptr))|
    ensures Chained(s)
  {
    hide Team;
    forall i {:trigger s.chain[i]} | 0 <= i < |s.chain|
      ensures s.chain[i] < |s.nodes| && s.nodes[s.chain[i]].pos == Some(i)
    {
      assert ChainedAt(s, i);
    }
    forall i {:trigger s.nodes[s.chain[i]].next} | 0 <= i < |s.chain|
      ensures s.nodes[s.chain[i]].next == if i == |s.chain| - 1 then None else Some(Word(s.chain[i + 1], 1))
    {
      assert ChainedAt(s, i);
    }
  }

  lemma LinkEnds(cfg: Config, s: State, s': State, a: Tid, p: Push, w: Word)
    requires LinkReady(cfg, s, a, p, w) && Chained(s) && LinksOwn(s, s', p, w)
    ensures s'.h <= s'.t < |s'.chain| <= s'.t + 2
    ensures s'.head.ptr == s'.chain[s'.h] && s'.tail.ptr == s'.chain[s'.t]
    ensures s.tail.ptr == w.ptr && s.threads[a] == PushLink(p, w)
    ensures s'.head == s.head && s'.tail == s.tail
  {
    hide LinkKnows, Team;
  }

  lemma LinkAt(cfg: Config, s: State, s': State, a: Tid, p: Push, w: Word, i: nat)
    requires LinkReady(cfg, s, a, p, w) && Chained(s) && LinksOwn(s, s', p, w) && i < |s'.chain|
    ensures ChainedAt(s', i)
  {
    hide LinkKnows, Team;
    if i < |s.chain| - 1 {
      assert s.nodes[s.chain[i]].next == Some(Word(s.chain[i + 1], 1));
    }
  }

  function OncePc(p: Push, w: Word): Pc {
    PushSwing(p.(own := None), w.ptr, w, Word(OwnOf(p), 1))
  }

  lemma OnceEffect(cfg: Config, s: State, a: Tid, p: Push, w: Word)
    requires LinkReady(cfg, s, a, p, w) && !p.fill.NotYet? && Chained(LinkedOnce(s, a, p, w))
    requires FreedAt(LinkedOnce(s, a, p, w)) == FreedAt(s)
    ensures Effect(cfg, s, LinkedOnce(s, a, p, w), a, PushLink(p, w), OncePc(p, w), {OwnOf(p)})
  {
    hide Chained;
    assert Framed(s, LinkedOnce(s, a, p, w), a, PushLink(p, w), OncePc(p, w), {OwnOf(p)});
    hide Framed;
  }

  lemma LinksOnce(cfg: Config, s: State, a: Tid, p: Push, w: Word)
    requires At(cfg, s, a, PushLink(p, w)) && Get(s, w.ptr).next.None? && !p.fill.NotYet?
    ensures Keeps(cfg, s, LinkedOnce(s, a, p, w), a)
  {
    LinkFacts(cfg, s, a, p, w);
    hide Inv, NodeInv, Effect, Chained;
    LinkNodes(cfg, s, LinkedOnce(s, a, p, w), a, p, w, OncePc(p, w));
    LinkChain(cfg, s, LinkedOnce(s, a, p, w), a, p, w, OncePc(p, w));
    LinkFreed(cfg, s, LinkedOnce(s, a, p, w), a, p, w);
    hide LinkReady, LinkedOnce;
    OnceEffect(cfg, s, a, p, w);
    EffectStep(cfg, s, LinkedOnce(s, a, p, w), a, PushLink(p, w), OncePc(p, w), {OwnOf(p)});
  }

  function AgainPc(s: State, p: Push, w: Word): Pc {
    PushSwing(p.(own := Some(|s.nodes|)), w.ptr, w, Word(OwnOf(p), 1))
  }

  lemma AgainEffect(cfg: Config, s: State, a: Tid, p: Push, w: Word)
    requires LinkReady(cfg, s, a, p, w) && p.fill.NotYet? && Chained(LinkedAgain(s, a, p, w))
    requires FreedAt(LinkedAgain(s, a, p, w)) == FreedAt(s)
    ensures Effect(cfg, s, LinkedAgain(s, a, p, w), a, PushLink(p, w), AgainPc(s, p, w), {OwnOf(p), |s.nodes|})
  {
    hide Chained;
    assert Framed(s, LinkedAgain(s, a, p, w), a, PushLink(p, w), AgainPc(s, p, w), {OwnOf(p), |s.nodes|});
    hide Framed;
  }

  lemma LinksAgain(cfg: Config, s: State, a: Tid, p: Push, w: Word)
    requires At(cfg, s, a, PushLink(p, w)) && Get(s, w.ptr).next.None? && p.fill.NotYet?
    ensures Keeps(cfg, s, LinkedAgain(s, a, p, w), a)
  {
    LinkFacts(cfg, s, a, p, w);
    hide Inv, NodeInv, Effect, Chained;
    LinkNodes(cfg, s, LinkedAgain(s, a, p, w), a, p, w, AgainPc(s, p, w));
    LinkChain(cfg, s, LinkedAgain(s, a, p, w), a, p, w, AgainPc(s, p, w));
    LinkFreed(cfg, s, LinkedAgain(s, a, p, w), a, p, w);
    assert |LinkedAgain(s, a, p, w).nodes| == |s.nodes| + 1;
    hide LinkReady, LinkedAgain;
    AgainEffect(cfg, s, a, p, w);
    EffectStep(cfg, s, LinkedAgain(s, a, p, w), a, PushLink(p, w), AgainPc(s, p, w), {OwnOf(p), |s.nodes|});
  }

  // ----- Deleting a node nobody else has seen (lines 155-156)

  ghost predicate OwnReady(cfg: Config, s: State, a: Tid, p: Push, w: Word, next: Word) {
    && a in s.threads && s.threads[a] == PushLink(p, w) && !p.fill.NotYet?
    && LinkKnows(cfg, s, a, p, w)
    && s.t < |s.chain| && s.chain[s.t] != OwnOf(p)
    && Pos(s, w.ptr) + 1 < |s.chain| && next == Word(s.chain[Pos(s, w.ptr) + 1], 1)
    && p.own == Some(OwnOf(p)) && OwnOf(p) < |s.nodes| && OwnOf(p) != w.ptr
    && s.nodes[OwnOf(p)] == FreshNode(a)
  }

  lemma OwnFacts(cfg: Config, s: State, a: Tid, p: Push, w: Word, next: Word)
    requires At(cfg, s, a, PushLink(p, w)) && !p.fill.NotYet? && Get(s, w.ptr).next == Some(next)
    ensures OwnReady(cfg, s, a, p, w, next) && Chained(s)
    ensures Team(s.threads, Holding(OwnOf(p))) == {}
  {
    assert ThreadInv(cfg, s, a) && Chained(s);
    assert NodeInv(cfg, s, OwnOf(p));
    Unheld(cfg, s, OwnOf(p));
    hide Inv, Team;
    OwnIsReady(cfg, s, a, p, w, next);
  }

  lemma OwnIsReady(cfg: Config, s: State, a: Tid, p: Push, w: Word, next: Word)
    requires a in s.threads && s.threads[a] == PushLink(p, w) && !p.fill.NotYet? && Get(s, w.ptr).next == Some(next)
    requires Chained(s) && LinkKnows(cfg, s, a, p, w) && NodeInv(cfg, s, OwnOf(p))
    ensures OwnReady(cfg, s, a, p, w, next)
  {
    hide Team, Chained, NodeInv;
    TailInRange(s);
    NextInChain(s, w.ptr, next);
    OwnIsFresh(cfg, s, a, p);
  }

  lemma TailInRange(s: State)
    requires Chained(s)
    ensures s.t < |s.chain| && s.chain[s.t] < |s.nodes| && s.nodes[s.chain[s.t]].pos.Some?
  {
    hide Team;
  }

  /** The successor of a linked node is the next one of the chain. */
  lemma NextInChain(s: State, n: NodeId, next: Word)
    requires Chained(s) && IsLinked(s, n) && Get(s, n).next == Some(next)
    ensures Pos(s, n) + 1 < |s.chain| && next == Word(s.chain[Pos(s, n) + 1], 1)
  {
    hide Team;
    assert s.nodes[s.chain[Pos(s, n)]].next.Some?;
  }

  /** A linked node before the tail has a successor, the next one of the chain. */
  lemma SuccessorOf(s: State, n: NodeId)
    requires Chained(s) && IsLinked(s, n) && Pos(s, n) < s.t
    ensures Pos(s, n) + 1 < |s.chain| && Get(s, n).next == Some(Word(s.chain[Pos(s, n) + 1], 1))
  {
    hide Team;
    assert s.nodes[s.chain[Pos(s, n)]].next.Some?;
  }

  lemma OwnIsFresh(cfg: Config, s: State, a: Tid, p: Push)
    requires PushInv(s, a, p) && p.own.Some? && NodeInv(cfg, s, OwnOf(p))
    ensures OwnOf(p) < |s.nodes| && s.nodes[OwnOf(p)] == FreshNode(a) && s.nodes[OwnOf(p)].pos.None?
  {
    hide Team;
  }

  function OwnPc(p: Push, w: Word, next: Word): Pc {
    PushSwing(p.(own := None), w.ptr, w, next)
  }

  lemma OwnNode(cfg: Config, s: State, a: Tid, p: Push, w: Word, next: Word)
    requires OwnReady(cfg, s, a, p, w, next) && Team(s.threads, Holding(OwnOf(p))) == {}
    ensures NodeInv(cfg, OwnDeleted(s, a, p, w, next), OwnOf(p))
  {
    TeamStep(s.threads, a, OwnPc(p, w, next), Holding(OwnOf(p)));
  }

  lemma OwnChain(cfg: Config, s: State, a: Tid, p: Push, w: Word, next: Word)
    requires OwnReady(cfg, s, a, p, w, next) && Chained(s)
    ensures Chained(OwnDeleted(s, a, p, w, next)) && FreedAt(OwnDeleted(s, a, p, w, next)) == FreedAt(s)
  {
    ChainKept(s, OwnDeleted(s, a, p, w, next), a, OwnPc(p, w, next));
    FreedKept(s, OwnDeleted(s, a, p, w, next));
  }

  lemma OwnFrame(cfg: Config, s: State, a: Tid, p: Push, w: Word, next: Word)
    requires OwnReady(cfg, s, a, p, w, next)
    ensures Framed(s, OwnDeleted(s, a, p, w, next), a, PushLink(p, w), OwnPc(p, w, next), {OwnOf(p)})
  {
    OneWrite(s, OwnDeleted(s, a, p, w, next), a, OwnOf(p), s.nodes[OwnOf(p)].(life := Freed), {OwnOf(p)});
  }

  lemma OwnBalance(cfg: Config, s: State, a: Tid, p: Push, w: Word, next: Word)
    requires OwnReady(cfg, s, a, p, w, next)
    ensures PcInv(cfg, OwnDeleted(s, a, p, w, next), a, OwnPc(p, w, next))
    ensures Balanced(cfg, s, OwnDeleted(s, a, p, w, next), PushLink(p, w), OwnPc(p, w, next))
  {
  }

  lemma OwnEffect(cfg: Config, s: State, a: Tid, p: Push, w: Word, next: Word)
    requires OwnReady(cfg, s, a, p, w, next) && Chained(s)
    ensures Effect(cfg, s, OwnDeleted(s, a, p, w, next), a, PushLink(p, w), OwnPc(p, w, next), {OwnOf(p)})
  {
    hide Chained, Framed, PcInv, Balanced;
    OwnChain(cfg, s, a, p, w, next);
    OwnFrame(cfg, s, a, p, w, next);
    OwnBalance(cfg, s, a, p, w, next);
  }

  lemma DeletesOwn(cfg: Config, s: State, a: Tid, p: Push, w: Word, next: Word)
    requires At(cfg, s, a, PushLink(p, w)) && !p.fill.NotYet? && Get(s, w.ptr).next == Some(next)
    ensures Keeps(cfg, s, OwnDeleted(s, a, p, w, next), a)
  {
    OwnFacts(cfg, s, a, p, w, next);
    assert OwnOf(p) < |s.nodes|;
    hide Inv, NodeInv, Effect, OwnReady, Chained, OwnDeleted;
    OwnNode(cfg, s, a, p, w, next);
    OwnEffect(cfg, s, a, p, w, next);
    EffectStep(cfg, s, OwnDeleted(s, a, p, w, next), a, PushLink(p, w), OwnPc(p, w, next), {OwnOf(p)});
  }

  // ----- Advancing the tail (line 109)

  function SwungPc(p: Push, seen: Word): Pc {
    Free(seen, TailSide, None, AfterPush(p, seen))
  }

  ghost predicate SwingReady(cfg: Config, s: State, a: Tid, p: Push, cur: NodeId, seen: Word, next: Word) {
    && a in s.threads && s.threads[a] == PushSwing(p, cur, seen, next) && s.tail == seen
    && SwingKnows(cfg, s, a, p, cur, seen, next)
    && s.h <= s.t && s.t + 1 < |s.chain|
    && cur == s.tail.ptr == s.chain[s.t] && next == Word(s.chain[s.t + 1], 1)
    && Pos(s, cur) == s.t && IsLinked(s, next.ptr) && Pos(s, next.ptr) == s.t + 1
    && s.nodes[next.ptr].first.None?
    && s.nodes[cur].tailLink.Attached? && !s.nodes[cur].life.Private?
  }

  lemma SwingFacts(cfg: Config, s: State, a: Tid, p: Push, cur: NodeId, seen: Word, next: Word)
    requires At(cfg, s, a, PushSwing(p, cur, seen, next)) && s.tail == seen
    ensures SwingReady(cfg, s, a, p, cur, seen, next) && Chained(s) && Sound(cfg, s, cur) && Sound(cfg, s, next.ptr)
    ensures Team(s.threads, HoldingTail(next.ptr)) == {}
  {
    assert ThreadInv(cfg, s, a) && Chained(s);
    assert s.chain[s.t] == cur;
    assert NodeInv(cfg, s, cur) && NodeInv(cfg, s, s.chain[s.t + 1]);
    UnheldTail(cfg, s, next.ptr);
  }

  lemma SwingNodes(cfg: Config, s: State, a: Tid, p: Push, cur: NodeId, seen: Word, next: Word, n: NodeId)
    requires SwingReady(cfg, s, a, p, cur, seen, next) && Sound(cfg, s, n) && (n == cur || n == next.ptr)
    ensures NodeInv(cfg, Swung(s, a, p, cur, seen, next), n)
  {
    AccountMoves(s, Swung(s, a, p, cur, seen, next), a, PushSwing(p, cur, seen, next), SwungPc(p, seen), n);
    hide Accounted;
  }

  lemma SwingFrame(cfg: Config, s: State, a: Tid, p: Push, cur: NodeId, seen: Word, next: Word)
    requires SwingReady(cfg, s, a, p, cur, seen, next)
    ensures Framed(s, Swung(s, a, p, cur, seen, next), a, PushSwing(p, cur, seen, next), SwungPc(p, seen),
                   {cur, next.ptr})
  {
    var node := s.nodes[cur].(tailLink := Detached(a, seen.count));
    OneWrite(s, Swung(s, a, p, cur, seen, next), a, cur, node, {cur, next.ptr});
  }

  lemma SwingChain(cfg: Config, s: State, a: Tid, p: Push, cur: NodeId, seen: Word, next: Word)
    requires SwingReady(cfg, s, a, p, cur, seen, next) && Chained(s)
    requires Team(s.threads, HoldingTail(next.ptr)) == {}
    ensures Chained(Swung(s, a, p, cur, seen, next)) && FreedAt(Swung(s, a, p, cur, seen, next)) == FreedAt(s)
  {
    var s', node := Swung(s, a, p, cur, seen, next), s.nodes[cur].(tailLink := Detached(a, seen.count));
    OneWriteChain(s, s', a, SwungPc(p, seen), cur, node);
    ChainEnds(s);
    ChainLength(s);
    TeamStep(s.threads, a, SwungPc(p, seen), HoldingTail(next.ptr));
    hide Chained, Team, FreedAt;
    forall i: nat | i < |s'.chain|
      ensures ChainedAt(s', i)
    {
      ChainHolds(s, i);
    }
    MakeChained(s');
  }

  lemma SwingBalance(cfg: Config, s: State, a: Tid, p: Push, cur: NodeId, seen: Word, next: Word)
    requires SwingReady(cfg, s, a, p, cur, seen, next)
    ensures PcInv(cfg, Swung(s, a, p, cur, seen, next), a, SwungPc(p, seen))
    ensures Balanced(cfg, s, Swung(s, a, p, cur, seen, next), PushSwing(p, cur, seen, next), SwungPc(p, seen))
  {
  }

  lemma SwingEffect(cfg: Config, s: State, a: Tid, p: Push, cur: NodeId, seen: Word, next: Word)
    requires SwingReady(cfg, s, a, p, cur, seen, next) && Chained(s)
    requires Team(s.threads, HoldingTail(next.ptr)) == {}
    ensures Effect(cfg, s, Swung(s, a, p, cur, seen, next), a, PushSwing(p, cur, seen, next), SwungPc(p, seen),
                   {cur, next.ptr})
  {
    hide Framed, Chained, PcInv, Balanced;
    SwingFrame(cfg, s, a, p, cur, seen, next);
    SwingChain(cfg, s, a, p, cur, seen, next);
    SwingBalance(cfg, s, a, p, cur, seen, next);
  }

  lemma PushSwings(cfg: Config, s: State, a: Tid, p: Push, cur: NodeId, seen: Word, next: Word)
    requires At(cfg, s, a, PushSwing(p, cur, seen, next)) && s.tail == seen
    ensures Keeps(cfg, s, Swung(s, a, p, cur, seen, next), a)
  {
    hide Inv, NodeInv, Effect, Sound, SwingReady, Chained, Swung;
    SwingFacts(cfg, s, a, p, cur, seen, next);
    SwingNodes(cfg, s, a, p, cur, seen, next, cur);
    SwingNodes(cfg, s, a, p, cur, seen, next, next.ptr);
    SwingEffect(cfg, s, a, p, cur, seen, next);
    EffectStep(cfg, s, Swung(s, a, p, cur, seen, next), a, PushSwing(p, cur, seen, next), SwungPc(p, seen),
               {cur, next.ptr});
  }

  // ----- Advancing the head (line 201)

  ghost predicate PassReady(s: State, a: Tid, w: Word, next: Word) {
    && a in s.threads && s.threads[a] == PopSwing(w, next) && s.head == w
    && s.h < s.t < |s.chain|
    && w.ptr == s.chain[s.h] && next == Word(s.chain[s.h + 1], 1)
    && IsLinked(s, w.ptr) && Pos(s, w.ptr) == s.h
    && IsLinked(s, next.ptr) && Pos(s, next.ptr) == s.h + 1
    && s.nodes[w.ptr].first.Some? && !s.nodes[w.ptr].taken
    && s.nodes[w.ptr].headLink.Attached? && !s.nodes[w.ptr].life.Private?
  }

  lemma PassIsReady(cfg: Config, s: State, a: Tid, w: Word, next: Word)
    requires a in s.threads && s.threads[a] == PopSwing(w, next) && s.head == w && PassKnows(s, w, next)
    requires s.h < s.t < |s.chain| && s.chain[s.h] == w.ptr && Pos(s, w.ptr) == s.h
    requires Sound(cfg, s, w.ptr) && IsLinked(s, s.chain[s.h + 1]) && Pos(s, s.chain[s.h + 1]) == s.h + 1
    ensures PassReady(s, a, w, next)
  {
    hide Accounted;
  }

  lemma PassFacts(cfg: Config, s: State, a: Tid, w: Word, next: Word)
    requires At(cfg, s, a, PopSwing(w, next)) && s.head == w
    ensures PassReady(s, a, w, next) && Chained(s) && Sound(cfg, s, w.ptr) && Sound(cfg, s, next.ptr)
  {
    assert ThreadInv(cfg, s, a) && Chained(s);
    HeadPos(s, w, next);
    assert NodeInv(cfg, s, w.ptr) && NodeInv(cfg, s, s.chain[s.h + 1]);
    hide Inv, Accounted, LinksInv, DataInv, PassReady, Chained, Team;
    PassIsReady(cfg, s, a, w, next);
  }

  lemma HeadPos(s: State, w: Word, next: Word)
    requires Chained(s) && PassKnows(s, w, next) && s.head == w
    ensures s.h < s.t < |s.chain| && s.chain[s.h] == w.ptr < |s.nodes| && Pos(s, w.ptr) == s.h
    ensures s.chain[s.h + 1] == next.ptr < |s.nodes| && Pos(s, next.ptr) == s.h + 1
    ensures s.nodes[next.ptr].pos.Some? && s.nodes[w.ptr].pos.Some?
  {
    hide Team;
  }

  lemma PassNodes(cfg: Config, s: State, a: Tid, w: Word, next: Word, n: NodeId)
    requires PassReady(s, a, w, next) && Sound(cfg, s, n) && (n == w.ptr || n == next.ptr)
    ensures NodeInv(cfg, HeadSwung(s, a, w, next), n)
  {
    var s' := HeadSwung(s, a, w, next);
    AccountMoves(s, s', a, PopSwing(w, next), PopTake(w), n);
    hide Accounted;
  }

  lemma PassFrame(s: State, a: Tid, w: Word, next: Word)
    requires PassReady(s, a, w, next)
    ensures Framed(s, HeadSwung(s, a, w, next), a, PopSwing(w, next), PopTake(w), {w.ptr, next.ptr})
  {
    var s', node := HeadSwung(s, a, w, next), s.nodes[w.ptr].(headLink := Detached(a, w.count));
    OneWrite(s, s', a, w.ptr, node, {w.ptr, next.ptr});
  }

  lemma PassChain(s: State, a: Tid, w: Word, next: Word)
    requires PassReady(s, a, w, next) && Chained(s)
    ensures Chained(HeadSwung(s, a, w, next)) && FreedAt(HeadSwung(s, a, w, next)) == FreedAt(s)
  {
    var s', node := HeadSwung(s, a, w, next), s.nodes[w.ptr].(headLink := Detached(a, w.count));
    OneWriteChain(s, s', a, PopTake(w), w.ptr, node);
    ChainEnds(s);
    TailInRange(s);
    ChainLength(s);
    TeamStep(s.threads, a, PopTake(w), HoldingTail(s.tail.ptr));
    hide Chained, Team, FreedAt;
    forall i: nat | i < |s'.chain|
      ensures ChainedAt(s', i)
    {
      ChainHolds(s, i);
    }
    MakeChained(s');
  }

  lemma ChainHolds(s: State, i: nat)
    requires Chained(s) && i < |s.chain|
    ensures ChainedAt(s, i)
  {
    hide Team;
  }

  lemma ChainLength(s: State)
    requires Chained(s)
    ensures s.h <= s.t < |s.chain| <= s.t + 2 && s.tail.ptr == s.chain[s.t]
  {
    hide Team;
  }

  lemma PassBalance(cfg: Config, s: State, a: Tid, w: Word, next: Word)
    requires PassReady(s, a, w, next)
    ensures PcInv(cfg, HeadSwung(s, a, w, next), a, PopTake(w))
    ensures Balanced(cfg, s, HeadSwung(s, a, w, next), PopSwing(w, next), PopTake(w))
  {
  }

  lemma PassEffect(cfg: Config, s: State, a: Tid, w: Word, next: Word)
    requires PassReady(s, a, w, next) && Chained(s)
    ensures Effect(cfg, s, HeadSwung(s, a, w, next), a, PopSwing(w, next), PopTake(w), {w.ptr, next.ptr})
  {
    hide Framed, Chained, PcInv, Balanced;
    PassFrame(s, a, w, next);
    PassChain(s, a, w, next);
    PassBalance(cfg, s, a, w, next);
  }

  lemma PopSwings(cfg: Config, s: State, a: Tid, w: Word, next: Word)
    requires At(cfg, s, a, PopSwing(w, next)) && s.head == w
    ensures Keeps(cfg, s, HeadSwung(s, a, w, next), a)
  {
    hide Inv, NodeInv, Effect, Sound, PassReady, Chained, HeadSwung;
    PassFacts(cfg, s, a, w, next);
    PassNodes(cfg, s, a, w, next, w.ptr);
    PassNodes(cfg, s, a, w, next, next.ptr);
    PassEffect(cfg, s, a, w, next);
    EffectStep(cfg, s, HeadSwung(s, a, w, next), a, PopSwing(w, next), PopTake(w), {w.ptr, next.ptr});
  }

  // ----- Taking the data (line 202)

  function TakenPc(s: State, w: Word): Pc {
    Free(w, HeadSide, None, AfterTake(Get(s, w.ptr).data))
  }

  /** The popper that moved `head` over a node finds there the first value ever stored in it. */
  ghost predicate TakeReady(s: State, a: Tid, w: Word) {
    && a in s.threads && s.threads[a] == PopTake(w)
    && TakeKnows(s, a, w)
    && s.h <= s.t < |s.chain| && s.chain[s.t] != w.ptr
    && !s.nodes[w.ptr].life.Private?
    && s.nodes[w.ptr].first.Some? && s.nodes[w.ptr].data == FirstValue(s.nodes[w.ptr])
  }

  lemma TakeFacts(cfg: Config, s: State, a: Tid, w: Word)
    requires At(cfg, s, a, PopTake(w))
    ensures TakeReady(s, a, w) && Chained(s) && Sound(cfg, s, w.ptr)
  {
    assert Chained(s) && ThreadInv(cfg, s, a);
    assert NodeInv(cfg, s, w.ptr);
  }

  function TakenNode(cfg: Config, s: State, w: Word): Node {
    Get(s, w.ptr).(taken := true, data := if cfg.keepData then Get(s, w.ptr).data else None)
  }

  lemma TakeNode(cfg: Config, s: State, a: Tid, w: Word)
    requires TakeReady(s, a, w) && Sound(cfg, s, w.ptr)
    ensures NodeInv(cfg, DataTaken(cfg, s, a, w), w.ptr)
  {
    AccountMoves(s, DataTaken(cfg, s, a, w), a, PopTake(w), TakenPc(s, w), w.ptr);
    hide Accounted;
  }

  lemma TakeFrame(cfg: Config, s: State, a: Tid, w: Word)
    requires TakeReady(s, a, w)
    ensures Framed(s, DataTaken(cfg, s, a, w), a, PopTake(w), TakenPc(s, w), {w.ptr})
  {
    OneWrite(s, DataTaken(cfg, s, a, w), a, w.ptr, TakenNode(cfg, s, w), {w.ptr});
  }

  lemma TakeBalance(cfg: Config, s: State, a: Tid, w: Word)
    requires TakeReady(s, a, w)
    ensures PcInv(cfg, DataTaken(cfg, s, a, w), a, TakenPc(s, w))
    ensures Balanced(cfg, s, DataTaken(cfg, s, a, w), PopTake(w), TakenPc(s, w))
  {
  }

  lemma TakeEffect(cfg: Config, s: State, a: Tid, w: Word)
    requires TakeReady(s, a, w) && Chained(s)
    ensures Effect(cfg, s, DataTaken(cfg, s, a, w), a, PopTake(w), TakenPc(s, w), {w.ptr})
  {
    hide Framed, Chained, PcInv, Balanced;
    TakeFrame(cfg, s, a, w);
    TakeBalance(cfg, s, a, w);
    OneWriteChain(s, DataTaken(cfg, s, a, w), a, TakenPc(s, w), w.ptr, TakenNode(cfg, s, w));
  }

  lemma PopTakes(cfg: Config, s: State, a: Tid, w: Word)
    requires At(cfg, s, a, PopTake(w))
    ensures Keeps(cfg, s, DataTaken(cfg, s, a, w), a)
  {
    hide Inv, NodeInv, Effect, Sound, TakeReady, Chained, DataTaken;
    TakeFacts(cfg, s, a, w);
    TakeNode(cfg, s, a, w);
    TakeEffect(cfg, s, a, w);
    EffectStep(cfg, s, DataTaken(cfg, s, a, w), a, PopTake(w), TakenPc(s, w), {w.ptr});
  }
}
