/**
The inductive invariant of the queue: the shape of the chain, the reference accounts of every node, what every
program counter knows, and the statistics counters.
*/
module QueueInvariant {
  import opened Options
  import opened QueueModel

  // ----- What a program counter says about a node

  function PushOf(pc: Pc): Option<Push> {
    match pc
    case PushLoad(p) => Some(p)
    case PushAcquire(p, _) => Some(p)
    case PushFill(p, _) => Some(p)
    case PushLink(p, _) => Some(p)
    case PushSwing(p, _, _, _) => Some(p)
    case PushCount(p) => Some(p)
    case PushSize(p) => Some(p)
    case PushDone(p) => Some(p)
    case Free(_, _, _, AfterPush(p, _)) => Some(p)
    case Drop(_, _, AfterPush(p, _)) => Some(p)
    case Destroy(_, AfterPush(p, _)) => Some(p)
    case CountDelete(AfterPush(p, _)) => Some(p)
    case _ => None
  }

  /** The node to which the thread holds a counted reference. */
  function Grip(pc: Pc): Option<NodeId> {
    match pc
    case PushFill(_, w) => Some(w.ptr)
    case PushLink(_, w) => Some(w.ptr)
    case PushSwing(_, cur, _, _) => Some(cur)
    case PopCheck(w) => Some(w.ptr)
    case PopNext(w) => Some(w.ptr)
    case PopSwing(w, _) => Some(w.ptr)
    case PopTake(w) => Some(w.ptr)
    case Free(w, _, _, _) => Some(w.ptr)
    case Drop(n, _, _) => Some(n)
    case _ => None
  }

  /** The node the thread reached through `tail` and has not yet seen `tail` leave. */
  function TailGrip(pc: Pc): Option<NodeId> {
    match pc
    case PushFill(_, w) => Some(w.ptr)
    case PushLink(_, w) => Some(w.ptr)
    case PushSwing(_, cur, _, _) => Some(cur)
    case _ => None
  }

  /** The node the thread has allocated and neither linked nor deleted. */
  function Own(pc: Pc): Option<NodeId> {
    match PushOf(pc)
    case Some(p) => p.own
    case None => None
  }

  /** The word the thread has taken out of `tail` and not yet folded into its node. */
  function TailWord(pc: Pc): Option<Word> {
    match pc
    case Free(w, TailSide, _, _) => Some(w)
    case _ => None
  }

  /** The word the thread has taken out of `head` and not yet folded into its node. */
  function HeadWord(pc: Pc): Option<Word> {
    match pc
    case PopTake(w) => Some(w)
    case Free(w, HeadSide, _, _) => Some(w)
    case _ => None
  }

  /** The node the thread is about to delete, having given up the last reference to it. */
  function Doom(pc: Pc): Option<NodeId> {
    match pc
    case Destroy(n, _) => Some(n)
    case _ => None
  }

  /** The value that the thread was first to store in the node of its TailGrip. */
  function Stored(pc: Pc): Option<Value> {
    match pc
    case PushLink(p, _) => if p.fill.First? then Some(p.value) else None
    case PushSwing(p, _, _, _) => if p.fill.First? then Some(p.value) else None
    case _ => None
  }

  /** The push has stored its value and not yet counted it. */
  predicate PushPending(pc: Pc) {
    PushOf(pc).Some? && !PushOf(pc).value.fill.NotYet? && !pc.PushSize? && !pc.PushDone?
  }

  /** The pop has moved `head` and not yet counted it. */
  predicate PopPending(pc: Pc) {
    match pc
    case PopTake(_) => true
    case PopCount(_) => true
    case Free(_, _, _, k) => k.AfterTake?
    case Drop(_, _, k) => k.AfterTake?
    case Destroy(_, k) => k.AfterTake?
    case CountDelete(k) => k.AfterTake?
    case _ => false
  }

  // ----- Counting threads by what they do

  datatype Role =
    | Holding(n: NodeId) | HoldingTail(n: NodeId)
    | Uncounted | Unsized | PopUncounted | PopUnsized | Deleting

  predicate Plays(pc: Pc, role: Role) {
    match role
    case Holding(n) => Grip(pc) == Some(n)
    case HoldingTail(n) => TailGrip(pc) == Some(n)
    case Uncounted => PushPending(pc)
    case Unsized => PushPending(pc) || pc.PushSize?
    case PopUncounted => PopPending(pc)
    case PopUnsized => PopPending(pc) || pc.PopSize?
    case Deleting => pc.CountDelete?
  }

  ghost function Team(threads: map<Tid, Pc>, role: Role): set<Tid> {
    set b | b in threads && Plays(threads[b], role)
  }

  function One(b: bool): int {
    if b then 1 else 0
  }

  /** One thread's step changes the size of a team by what that thread joins or leaves. */
  lemma TeamStep(threads: map<Tid, Pc>, a: Tid, pc: Pc, role: Role)
    requires a in threads
    ensures |Team(threads[a := pc], role)| ==
            |Team(threads, role)| - One(Plays(threads[a], role)) + One(Plays(pc, role))
  {
    var old', new' := Team(threads, role), Team(threads[a := pc], role);
    assert old' - {a} == new' - {a};
    assert One(a in old') == |old'| - |old' - {a}|;
    assert One(a in new') == |new'| - |new' - {a}|;
  }

  lemma TeamBound(threads: map<Tid, Pc>, role: Role)
    ensures |Team(threads, role)| <= |threads|
  {
    Subset(Team(threads, role), threads.Keys);
  }

  lemma Subset<T>(small: set<T>, big: set<T>)
    requires small <= big
    ensures |small| <= |big|
  {
    assert big == small + (big - small);
  }

  // ----- The chain

  ghost predicate IsLinked(s: State, n: NodeId) {
    && n < |s.nodes|
    && s.nodes[n].pos.Some?
    && s.nodes[n].pos.value < |s.chain|
    && s.chain[s.nodes[n].pos.value] == n
  }

  /** The position of a node in the chain. */
  function Pos(s: State, n: NodeId): nat {
    var node := Get(s, n);
    if node.pos.Some? then node.pos.value else 0
  }

  ghost predicate Chained(s: State) {
    && s.h <= s.t < |s.chain| <= s.t + 2
    && (forall i {:trigger s.chain[i]} | 0 <= i < |s.chain| ::
          s.chain[i] < |s.nodes| && s.nodes[s.chain[i]].pos == Some(i))
    && (forall i {:trigger s.nodes[s.chain[i]].next} | 0 <= i < |s.chain| ::
          s.nodes[s.chain[i]].next == if i == |s.chain| - 1 then None else Some(Word(s.chain[i + 1], 1)))
    && s.head.ptr == s.chain[s.h]
    && s.tail.ptr == s.chain[s.t]
    && 1 <= s.head.count < COUNT_MOD
    && s.tail.count == 1 + |Team(s.threads, HoldingTail(s.tail.ptr))|
  }

  // ----- The accounts of one node

  /** What an external pointer that is not folded yet adds to the internal count: its count, less the one that
      the pointer itself started with. */
  function Extra(link: Link, n: NodeId, anchor: Word): int {
    match link
    case Attached => if anchor.ptr == n then anchor.count - 1 else 0
    case Detached(_, count) => count - 1
    case Released => 0
  }

  ghost predicate Accounted(s: State, n: NodeId)
    requires n < |s.nodes|
  {
    var node := s.nodes[n];
    && node.count.external == One(!node.tailLink.Released?) + One(!node.headLink.Released?)
    && node.count.internal ==
       (|Team(s.threads, Holding(n))| - Extra(node.tailLink, n, s.tail) - Extra(node.headLink, n, s.head))
       % INTERNAL_MOD
  }

  ghost predicate PrivateInv(s: State, n: NodeId)
    requires n < |s.nodes|
  {
    var node := s.nodes[n];
    && (node.life.Private? || node.life.Freed?)
    && (node.life.Private? ==> node == FreshNode(node.life.owner))
    && (node.life.Private? ==> node.life.owner in s.threads && Own(s.threads[node.life.owner]) == Some(n))
    && |Team(s.threads, Holding(n))| == 0
  }

  ghost predicate LinksInv(s: State, n: NodeId)
    requires n < |s.nodes| && s.nodes[n].pos.Some?
  {
    var node := s.nodes[n];
    && (node.tailLink.Attached? <==> s.t <= node.pos.value)
    && (node.tailLink.Detached? ==>
          && node.tailLink.owner in s.threads
          && TailWord(s.threads[node.tailLink.owner]) == Some(Word(n, node.tailLink.count)))
    && (node.headLink.Attached? <==> s.h <= node.pos.value)
    && (node.headLink.Detached? ==>
          && node.headLink.owner in s.threads
          && HeadWord(s.threads[node.headLink.owner]) == Some(Word(n, node.headLink.count)))
    && (node.life.Shared? || node.life.Doomed? || node.life.Freed?)
    && (node.life.Shared? <==> !Unused(node.count))
    && (node.life.Doomed? ==> node.life.owner in s.threads && Doom(s.threads[node.life.owner]) == Some(n))
  }

  function FirstValue(node: Node): Option<Value> {
    match node.first
    case None => None
    case Some(f) => Some(f.value)
  }

  ghost predicate DataInv(cfg: Config, s: State, n: NodeId)
    requires n < |s.nodes| && s.nodes[n].pos.Some?
  {
    var node := s.nodes[n];
    && (node.pos.value < s.t || node.pos.value + 1 < |s.chain| ==> node.first.Some?)
    && (s.t < node.pos.value ==> node.first.None?)
    && (node.pos.value == s.t && node.first.Some? ==>
          && node.first.value.owner in s.threads
          && TailGrip(s.threads[node.first.value.owner]) == Some(n)
          && Stored(s.threads[node.first.value.owner]) == Some(node.first.value.value))
    && (node.taken ==> node.pos.value < s.h)
    && (!node.taken || cfg.keepData ==> node.data == FirstValue(node))
    && (node.data.Some? ==> node.first.Some?)
  }

  ghost predicate NodeInv(cfg: Config, s: State, n: NodeId) {
    && n < |s.nodes|
    && if s.nodes[n].pos.Some? then
         && IsLinked(s, n)
         && Accounted(s, n)
         && LinksInv(s, n)
         && DataInv(cfg, s, n)
       else PrivateInv(s, n)
  }

  // ----- What each program counter knows

  ghost predicate PushInv(s: State, b: Tid, p: Push) {
    && (p.fill.NotYet? ==> p.own.Some?)
    && (p.own.Some? ==>
          && p.own.value < |s.nodes|
          && s.nodes[p.own.value].life == Private(b)
          && s.nodes[p.own.value].pos.None?)
    && p.born <= s.t
  }

  /** The push holds node n, whose data CAS is behind it. */
  ghost predicate TriedInv(cfg: Config, s: State, b: Tid, p: Push, n: NodeId) {
    && IsLinked(s, n)
    && Pos(s, n) <= s.t
    && s.nodes[n].first.Some?
    && match p.fill
       case NotYet => p.born + p.lost <= Pos(s, n) + 1
       case First => s.nodes[n].first == Some(Fill(p.value, b))
       case Late => !cfg.keepData && Pos(s, n) < s.h
  }

  ghost predicate ContInv(s: State, b: Tid, k: Cont) {
    match k
    case AfterPush(p, _) =>
      && PushInv(s, b, p)
      && (p.fill.NotYet? <==> p.own.Some?)
      && (p.fill.NotYet? ==> p.born + p.lost <= s.t)
    case AfterTake(res) => res.Some?
    case _ => true
  }

  ghost predicate PushReady(s: State, b: Tid, p: Push) {
    PushInv(s, b, p) && p.fill.NotYet? && p.born + p.lost <= s.t
  }

  ghost predicate FillKnows(s: State, b: Tid, p: Push, w: Word) {
    && PushInv(s, b, p)
    && p.fill.NotYet?
    && IsLinked(s, w.ptr)
    && Pos(s, w.ptr) <= s.t
    && p.born + p.lost <= Pos(s, w.ptr)
  }

  ghost predicate LinkKnows(cfg: Config, s: State, b: Tid, p: Push, w: Word) {
    PushInv(s, b, p) && p.own.Some? && TriedInv(cfg, s, b, p, w.ptr)
  }

  ghost predicate SwingKnows(cfg: Config, s: State, b: Tid, p: Push, cur: NodeId, seen: Word, next: Word) {
    && PushInv(s, b, p)
    && (p.fill.NotYet? <==> p.own.Some?)
    && TriedInv(cfg, s, b, p, cur)
    && seen.ptr == cur
    && Pos(s, cur) + 1 < |s.chain|
    && next == Word(s.chain[Pos(s, cur) + 1], 1)
  }

  predicate PushOver(p: Push) {
    p.own.None? && !p.fill.NotYet?
  }

  ghost predicate Behind(s: State, n: NodeId) {
    IsLinked(s, n) && Pos(s, n) <= s.h
  }

  ghost predicate NextKnows(s: State, w: Word) {
    Behind(s, w.ptr) && Pos(s, w.ptr) < s.t
  }

  ghost predicate PassKnows(s: State, w: Word, next: Word) {
    && NextKnows(s, w)
    && Pos(s, w.ptr) + 1 < |s.chain|
    && next == Word(s.chain[Pos(s, w.ptr) + 1], 1)
  }

  ghost predicate TakeKnows(s: State, b: Tid, w: Word) {
    && IsLinked(s, w.ptr)
    && Pos(s, w.ptr) < s.h
    && s.nodes[w.ptr].headLink == Detached(b, w.count)
    && !s.nodes[w.ptr].taken
  }

  ghost predicate FreeKnows(s: State, b: Tid, w: Word, side: Side, k: Cont) {
    && IsLinked(s, w.ptr)
    && Pos(s, w.ptr) < s.t
    && ContInv(s, b, k)
    && if side.TailSide? then s.nodes[w.ptr].tailLink == Detached(b, w.count) && k.AfterPush?
       else s.nodes[w.ptr].headLink == Detached(b, w.count) && k.AfterTake?
  }

  ghost predicate DropKnows(s: State, b: Tid, n: NodeId, k: Cont) {
    IsLinked(s, n) && ContInv(s, b, k) && !k.AfterTake?
  }

  ghost predicate DestroyKnows(s: State, b: Tid, n: NodeId, k: Cont) {
    IsLinked(s, n) && ContInv(s, b, k) && s.nodes[n].life == Doomed(b)
  }

  ghost predicate PcInv(cfg: Config, s: State, b: Tid, pc: Pc) {
    match pc
    case PushLoad(p) => PushReady(s, b, p)
    case PushAcquire(p, _) => PushReady(s, b, p)
    case PushFill(p, w) => FillKnows(s, b, p, w)
    case PushLink(p, w) => LinkKnows(cfg, s, b, p, w)
    case PushSwing(p, cur, seen, next) => SwingKnows(cfg, s, b, p, cur, seen, next)
    case PushCount(p) => PushOver(p)
    case PushSize(p) => PushOver(p)
    case PushDone(p) => PushOver(p)
    case PopPeekAgain(ptr) => cfg.headFirst ==> Behind(s, ptr)
    case PopCheck(w) => Behind(s, w.ptr)
    case PopNext(w) => NextKnows(s, w)
    case PopSwing(w, next) => PassKnows(s, w, next)
    case PopTake(w) => TakeKnows(s, b, w)
    case Free(w, side, _, k) => FreeKnows(s, b, w, side, k)
    case Drop(n, _, k) => DropKnows(s, b, n, k)
    case Destroy(n, k) => DestroyKnows(s, b, n, k)
    case CountDelete(k) => ContInv(s, b, k)
    case _ => true
  }

  ghost predicate ThreadInv(cfg: Config, s: State, b: Tid) {
    b in s.threads && PcInv(cfg, s, b, s.threads[b])
  }

  // ----- The statistics

  /** Chain positions of the nodes that have been deleted. */
  ghost function FreedAt(s: State): set<nat> {
    set i | 0 <= i < |s.chain| && Get(s, s.chain[i]).life.Freed?
  }

  ghost predicate Tallied(cfg: Config, s: State) {
    && s.t < |s.chain|
    && s.pushCount + |Team(s.threads, Uncounted)| == s.fills
    && s.popCount + |Team(s.threads, PopUncounted)| == s.h
    && s.size == (s.fills - |Team(s.threads, Unsized)|) - (s.h - |Team(s.threads, PopUnsized)|)
    && s.fills == s.t + One(Get(s, s.chain[s.t]).first.Some?) + s.drops
    && (cfg.keepData ==> s.drops == 0)
    && s.destructCount + |Team(s.threads, Deleting)| == |FreedAt(s)|
  }

  ghost predicate Inv(cfg: Config, s: State) {
    && FewThreads(s)
    && Chained(s)
    && (forall n {:trigger NodeInv(cfg, s, n)} | 0 <= n < |s.nodes| :: NodeInv(cfg, s, n))
    && (forall b {:trigger ThreadInv(cfg, s, b)} | b in s.threads :: ThreadInv(cfg, s, b))
    && Tallied(cfg, s)
  }

  lemma InitInv(cfg: Config, tids: set<Tid>)
    requires |tids| < COUNT_MOD - 1
    ensures Inv(cfg, Init(tids))
  {
    var s := Init(tids);
    assert s.threads.Keys == tids;
    assert |s.threads| == |s.threads.Keys|;
    assert Team(s.threads, HoldingTail(0)) == {};
    assert Team(s.threads, Holding(0)) == {};
    assert Team(s.threads, Uncounted) == Team(s.threads, PopUncounted) == {};
    assert Team(s.threads, Unsized) == Team(s.threads, PopUnsized) == Team(s.threads, Deleting) == {};
    assert FreedAt(s) == {};
    assert NodeInv(cfg, s, 0);
  }

  lemma SmallMod(k: int)
    requires 0 < k < INTERNAL_MOD
    ensures k % INTERNAL_MOD != 0
  {
  }

  /** A node somebody holds is shared: neither deleted nor about to be. */
  lemma HeldIsShared(cfg: Config, s: State, n: NodeId, b: Tid)
    requires FewThreads(s) && NodeInv(cfg, s, n) && ThreadInv(cfg, s, b)
    requires Grip(s.threads[b]) == Some(n)
    ensures IsLinked(s, n) && s.nodes[n].life.Shared?
  {
    assert b in Team(s.threads, Holding(n));
    TeamBound(s.threads, Holding(n));
    assert s.nodes[n].pos.Some?;
    SmallMod(|Team(s.threads, Holding(n))|);
  }
}
