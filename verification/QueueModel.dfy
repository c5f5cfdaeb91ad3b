/**
The multi-producer, multi-consumer queue of thread_safe/lockfree_queue.hpp as a transition system.
One step is one atomic operation of one thread; memory is sequentially consistent.

Fields marked "auxiliary" exist only to state and prove invariants: no step's choice and no other field
depends on them.
*/
module QueueModel {
  import opened Options

  type Tid = nat
  type NodeId = nat
  /** The address of a caller's object; the queue only moves addresses around. */
  type Value = int

  /** A `counted_node_ptr`: a 48-bit pointer and a 16-bit external count in one word. */
  datatype Word = Word(ptr: NodeId, count: nat)

  /** A `node_counter`: 30 bits of internal count and 2 bits of external pointers. */
  datatype Counter = Counter(internal: nat, external: nat)

  const COUNT_MOD: nat := 0x1_0000
  const INTERNAL_MOD: nat := 0x4000_0000

  /** Auxiliary: what may still happen to a node. */
  datatype Life = Private(owner: Tid) | Shared | Doomed(owner: Tid) | Freed

  /** Auxiliary: one of a node's two external pointers.  Attached: it is still in `tail`, `head` or a `next`
      field, or will be; Detached: the thread `owner` took it out of `tail` or `head` with that external count and
      has yet to fold it into the node; Released: folded. */
  datatype Link = Attached | Detached(owner: Tid, count: nat) | Released

  /** Auxiliary: the first value ever stored in a node, and the thread that stored it. */
  datatype Fill = Fill(value: Value, owner: Tid)

  datatype Node = Node(
    data: Option<Value>,
    count: Counter,
    next: Option<Word>,
    pos: Option<nat>,     // auxiliary: the index in the chain, once linked
    life: Life,           // auxiliary
    first: Option<Fill>,  // auxiliary
    taken: bool,          // auxiliary: the popper has read `data`
    tailLink: Link,       // auxiliary: the external pointer that passes through `tail`
    headLink: Link)       // auxiliary: the external pointer that passes through `head`

  function FreshNode(owner: Tid): Node {
    Node(None, Counter(0, 2), None, None, Private(owner), None, false, Attached, Attached)
  }

  /** Auxiliary: whether a push has stored its value, and where. */
  datatype Outcome = NotYet | First | Late

  /** The locals of one push.  `own` is the node it has allocated and not yet linked or deleted. */
  datatype Push = Push(
    value: Value,
    own: Option<NodeId>,
    fill: Outcome,
    born: nat,   // auxiliary: how many values had been appended when the push began
    lost: nat)   // auxiliary: how many of its data CASes have failed

  datatype Side = TailSide | HeadSide

  /** What a thread does after it has given up a reference. */
  datatype Cont =
    | AfterPush(p: Push, seen: Word)
    | AfterEmpty
    | AfterTake(res: Option<Value>)
    | AfterMiss(seen: Word)

  /** Program counters; each names the atomic operation the thread performs next. */
  datatype Pc =
    | Idle
    | PushLoad(p: Push)                                              // line 142
    | PushAcquire(p: Push, seen: Word)                               // line 144: CAS on tail
    | PushFill(p: Push, w: Word)                                     // line 149: CAS on data
    | PushLink(p: Push, w: Word)                                     // lines 153 and 170: CAS on next
    | PushSwing(p: Push, cur: NodeId, seen: Word, next: Word)        // line 109: weak CAS on tail
    | PushCount(p: Push)                                             // line 164
    | PushSize(p: Push)                                              // line 165
    | PushDone(p: Push)
    | PopPeek                                                        // line 184: first load
    | PopPeekAgain(ptr: NodeId)                                      // line 184: second load
    | PopLoad                                                        // line 188
    | PopAcquire(seen: Word)                                         // line 191: CAS on head
    | PopCheck(w: Word)                                              // line 195
    | PopNext(w: Word)                                               // line 200
    | PopSwing(w: Word, next: Word)                                  // line 201: CAS on head
    | PopTake(w: Word)                                               // line 202
    | PopCount(res: Option<Value>)                                   // line 205
    | PopSize(res: Option<Value>)                                    // line 206
    | PopDone(res: Option<Value>)
    | Free(w: Word, side: Side, read: Option<Counter>, k: Cont)   // lines 83-103
    | Drop(n: NodeId, read: Option<Counter>, k: Cont)             // lines 46-63
    | Destroy(n: NodeId, k: Cont)                                 // lines 60 and 100
    | CountDelete(k: Cont)                                        // lines 61 and 101

  function Resume(k: Cont): Pc {
    match k
    case AfterPush(p, seen) => if p.fill.NotYet? then PushAcquire(p, seen) else PushCount(p)
    case AfterEmpty => PopDone(None)
    case AfterTake(res) => PopCount(res)
    case AfterMiss(seen) => PopAcquire(seen)
  }

  /** `keepData`: line 202 reads the data without clearing it.  `headFirst`: line 184 reads `head` before
      `tail`.  The source has `keepData == false`, and leaves the order at line 184 to the compiler. */
  datatype Config = Config(keepData: bool, headFirst: bool)

  datatype State = State(
    head: Word,
    tail: Word,
    nodes: seq<Node>,            // the index is the node's identity, which is never reused
    threads: map<Tid, Pc>,
    pushCount: int,
    popCount: int,
    size: int,
    destructCount: int,
    chain: seq<NodeId>,          // auxiliary: every linked node, in link order
    h: nat,                      // auxiliary: the position of `head`
    t: nat,                      // auxiliary: the position of `tail`
    fills: nat,                  // auxiliary: successful data CASes
    drops: nat)                  // auxiliary: those of them that hit a node filled before

  function Get(s: State, n: NodeId): Node {
    if n < |s.nodes| then s.nodes[n] else FreshNode(0)
  }

  function Put(nodes: seq<Node>, n: NodeId, node: Node): seq<Node> {
    if n < |nodes| then nodes[n := node] else nodes
  }

  /** The queue as constructed (lines 125-131), with every thread idle. */
  function Init(tids: set<Tid>): State {
    State(Word(0, 1), Word(0, 1), [FreshNode(0).(pos := Some(0), life := Shared)],
          map b | b in tids :: Idle, 0, 0, 0, 0, [0], 0, 0, 0, 0)
  }

  /** One more external reference; the count has 16 bits. */
  function Bump(w: Word): Word {
    w.(count := (w.count + 1) % COUNT_MOD)
  }

  function FoldedCounter(c: Counter, w: Word): Counter {
    Counter((c.internal + w.count + (INTERNAL_MOD - 2)) % INTERNAL_MOD, (c.external + 3) % 4)
  }

  function DroppedCounter(c: Counter): Counter {
    Counter((c.internal + (INTERNAL_MOD - 1)) % INTERNAL_MOD, c.external)
  }

  predicate Unused(c: Counter) {
    c.internal == 0 && c.external == 0
  }

  /** What the environment chooses for a thread's next step: the call it makes when idle, or that a weak CAS
      fails although the word matches. */
  datatype Action = CallPush(v: Value) | CallPop | Go | Spurious

  predicate Enabled(pc: Pc, act: Action) {
    match act
    case CallPush(_) => pc.Idle?
    case CallPop => pc.Idle?
    case Go => !pc.Idle?
    case Spurious => pc.PushSwing?
  }

  function To(s: State, a: Tid, pc: Pc): State {
    s.(threads := s.threads[a := pc])
  }

  function Apply(cfg: Config, s: State, a: Tid, act: Action): State
    requires a in s.threads
  {
    match s.threads[a]
    case Idle =>
      if act.CallPush? then PushCalled(s, a, act.v) else To(s, a, PopPeek)
    case PushLoad(p) => To(s, a, PushAcquire(p, s.tail))
    case PushAcquire(p, seen) =>
      if s.tail == seen then TailTaken(s, a, p)
      else To(s, a, PushAcquire(p, s.tail))
    case PushFill(p, w) => Filled(s, a, p, w)
    case PushLink(p, w) => Linked(s, a, p, w)
    case PushSwing(p, cur, seen, next) =>
      if s.tail == seen && act.Go? then Swung(s, a, p, cur, seen, next)
      else if s.tail.ptr == cur then To(s, a, PushSwing(p, cur, s.tail, next))
      else To(s, a, Drop(cur, None, AfterPush(p, s.tail)))
    case PushCount(p) => To(s, a, PushSize(p)).(pushCount := s.pushCount + 1)
    case PushSize(p) => To(s, a, PushDone(p)).(size := s.size + 1)
    case PushDone(p) => To(s, a, Idle)
    case PopPeek => To(s, a, PopPeekAgain(if cfg.headFirst then s.head.ptr else s.tail.ptr))
    case PopPeekAgain(ptr) =>
      To(s, a, if ptr == (if cfg.headFirst then s.tail.ptr else s.head.ptr) then PopDone(None) else PopLoad)
    case PopLoad => To(s, a, PopAcquire(s.head))
    case PopAcquire(seen) =>
      if s.head == seen then HeadTaken(s, a)
      else To(s, a, PopAcquire(s.head))
    case PopCheck(w) => To(s, a, if w.ptr == s.tail.ptr then Drop(w.ptr, None, AfterEmpty) else PopNext(w))
    case PopNext(w) =>
      To(s, a, PopSwing(w, match Get(s, w.ptr).next case Some(x) => x case None => Word(0, 0)))
    case PopSwing(w, next) =>
      if s.head == w then HeadSwung(s, a, w, next) else To(s, a, Drop(w.ptr, None, AfterMiss(s.head)))
    case PopTake(w) => DataTaken(cfg, s, a, w)
    case PopCount(res) => To(s, a, PopSize(res)).(popCount := s.popCount + 1)
    case PopSize(res) => To(s, a, PopDone(res)).(size := s.size - 1)
    case PopDone(res) => To(s, a, Idle)
    case Free(w, side, read, k) => FreeStep(s, a, w, side, read, k)
    case Drop(n, read, k) => DropStep(s, a, n, read, k)
    case Destroy(n, k) => Destroyed(s, a, n, k)
    case CountDelete(k) => To(s, a, Resume(k)).(destructCount := s.destructCount + 1)
  }

  /** Lines 139-141: a push allocates a node of its own. */
  function PushCalled(s: State, a: Tid, v: Value): State {
    To(s, a, PushLoad(Push(v, Some(|s.nodes|), NotYet, s.t, 0))).(nodes := s.nodes + [FreshNode(a)])
  }

  /** Lines 71-79 on `tail`: one more external reference. */
  function TailTaken(s: State, a: Tid, p: Push): State {
    To(s, a, PushFill(p, Bump(s.tail))).(tail := Bump(s.tail))
  }

  /** Lines 71-79 on `head`. */
  function HeadTaken(s: State, a: Tid): State {
    To(s, a, PopCheck(Bump(s.head))).(head := Bump(s.head))
  }

  /** Line 149: the data CAS. */
  function Filled(s: State, a: Tid, p: Push, w: Word): State {
    var node := Get(s, w.ptr);
    if node.data.Some? then To(s, a, PushLink(p.(lost := p.lost + 1), w))
    else if node.first.None? then FilledFirst(s, a, p, w)
    else FilledLate(s, a, p, w)
  }

  function FilledFirst(s: State, a: Tid, p: Push, w: Word): State {
    To(s, a, PushLink(p.(fill := First), w)).(
      nodes := Put(s.nodes, w.ptr, Get(s, w.ptr).(data := Some(p.value), first := Some(Fill(p.value, a)))),
      fills := s.fills + 1)
  }

  function FilledLate(s: State, a: Tid, p: Push, w: Word): State {
    To(s, a, PushLink(p.(fill := Late), w)).(
      nodes := Put(s.nodes, w.ptr, Get(s, w.ptr).(data := Some(p.value))),
      fills := s.fills + 1,
      drops := s.drops + 1)
  }

  /** Lines 152-157 and 168-174: the CAS on `next`, and what each outcome does with the thread's own node. */
  function Linked(s: State, a: Tid, p: Push, w: Word): State {
    match Get(s, w.ptr).next
    case None => if p.fill.NotYet? then LinkedAgain(s, a, p, w) else LinkedOnce(s, a, p, w)
    case Some(x) =>
      if p.fill.NotYet? then To(s, a, PushSwing(p, w.ptr, w, x)) else OwnDeleted(s, a, p, w, x)
  }

  function OwnOf(p: Push): NodeId {
    if p.own.Some? then p.own.value else 0
  }

  /** The nodes once the thread's own node follows w's node. */
  function Extended(s: State, p: Push, w: Word): seq<Node> {
    Put(Put(s.nodes, w.ptr, Get(s, w.ptr).(next := Some(Word(OwnOf(p), 1)))), OwnOf(p),
        Get(s, OwnOf(p)).(pos := Some(|s.chain|), life := Shared))
  }

  /** Line 153: the push has stored its value and needs no further node. */
  function LinkedOnce(s: State, a: Tid, p: Push, w: Word): State {
    To(s, a, PushSwing(p.(own := None), w.ptr, w, Word(OwnOf(p), 1))).(
      nodes := Extended(s, p, w),
      chain := s.chain + [OwnOf(p)])
  }

  /** Lines 170-173: the push has not stored its value, and allocates another node. */
  function LinkedAgain(s: State, a: Tid, p: Push, w: Word): State {
    To(s, a, PushSwing(p.(own := Some(|s.nodes|)), w.ptr, w, Word(OwnOf(p), 1))).(
      nodes := Extended(s, p, w) + [FreshNode(a)],
      chain := s.chain + [OwnOf(p)])
  }

  /** Lines 155-156. */
  function OwnDeleted(s: State, a: Tid, p: Push, w: Word, next: Word): State {
    To(s, a, PushSwing(p.(own := None), w.ptr, w, next)).(
      nodes := Put(s.nodes, OwnOf(p), Get(s, OwnOf(p)).(life := Freed)))
  }

  /** Lines 109-114: the CAS that advances `tail`. */
  function Swung(s: State, a: Tid, p: Push, cur: NodeId, seen: Word, next: Word): State
  {
    To(s, a, Free(seen, TailSide, None, AfterPush(p, seen))).(
      tail := next,
      t := s.t + 1,
      nodes := Put(s.nodes, cur, Get(s, cur).(tailLink := Detached(a, seen.count))))
  }

  /** Line 201: the CAS that advances `head`. */
  function HeadSwung(s: State, a: Tid, w: Word, next: Word): State {
    To(s, a, PopTake(w)).(
      head := next,
      h := s.h + 1,
      nodes := Put(s.nodes, w.ptr, Get(s, w.ptr).(headLink := Detached(a, w.count))))
  }

  /** Line 202: the popper takes the data out, or reads it if `keepData`. */
  function DataTaken(cfg: Config, s: State, a: Tid, w: Word): State {
    var node := Get(s, w.ptr);
    To(s, a, Free(w, HeadSide, None, AfterTake(node.data))).(
      nodes := Put(s.nodes, w.ptr, node.(taken := true, data := if cfg.keepData then node.data else None)))
  }

  /** Lines 60 and 100. */
  function Destroyed(s: State, a: Tid, n: NodeId, k: Cont): State {
    To(s, a, CountDelete(k)).(nodes := Put(s.nodes, n, Get(s, n).(life := Freed)))
  }

  /** Lines 83-103: load the counter, then CAS it until the CAS succeeds; the last reference deletes. */
  function FreeStep(s: State, a: Tid, w: Word, side: Side, read: Option<Counter>, k: Cont): State {
    if read != Some(Get(s, w.ptr).count) then To(s, a, Free(w, side, Some(Get(s, w.ptr).count), k))
    else Settled(s, a, w.ptr, Folded(Get(s, w.ptr), w, side), k)
  }

  function Folded(node: Node, w: Word, side: Side): Node {
    var c := FoldedCounter(node.count, w);
    if side.TailSide? then node.(count := c, tailLink := Released) else node.(count := c, headLink := Released)
  }

  /** Lines 46-63: the same loop, giving up one reference. */
  function DropStep(s: State, a: Tid, n: NodeId, read: Option<Counter>, k: Cont): State {
    if read != Some(Get(s, n).count) then To(s, a, Drop(n, Some(Get(s, n).count), k))
    else Settled(s, a, n, Get(s, n).(count := DroppedCounter(Get(s, n).count)), k)
  }

  /** The thread that brings a counter to zero goes on to delete the node. */
  function After(c: Counter, n: NodeId, k: Cont): Pc {
    if Unused(c) then Destroy(n, k) else Resume(k)
  }

  function Settled(s: State, a: Tid, n: NodeId, node: Node, k: Cont): State {
    To(s, a, After(node.count, n, k)).(
      nodes := Put(s.nodes, n, node.(life := if Unused(node.count) then Doomed(a) else node.life)))
  }

  /** Thread `a` performs one atomic operation. */
  predicate Step(cfg: Config, s: State, s': State, a: Tid, act: Action) {
    && a in s.threads
    && Enabled(s.threads[a], act)
    && s' == Apply(cfg, s, a, act)
  }

  /** The external count of `head` can be raised without limit by poppers that keep losing, so a run assumes
      that it does not reach the end of its 16 bits. */
  predicate HeadRoom(s: State) {
    s.head.count < COUNT_MOD - 1
  }

  /** Fewer than 65535 threads use the queue. */
  predicate FewThreads(s: State) {
    |s.threads| < COUNT_MOD - 1
  }

  ghost predicate Next(cfg: Config, s: State, s': State) {
    HeadRoom(s) && exists a, act :: Step(cfg, s, s', a, act)
  }

  ghost predicate NextAt(cfg: Config, run: seq<State>, i: int) {
    0 < i < |run| && Next(cfg, run[i - 1], run[i])
  }

  /** A run: the states of any interleaving, of any length, of any threads fewer than 65535. */
  ghost predicate Run(cfg: Config, run: seq<State>) {
    && 0 < |run|
    && (exists tids: set<Tid> :: |tids| < COUNT_MOD - 1 && run[0] == Init(tids))
    && forall i | 0 < i < |run| :: NextAt(cfg, run, i)
  }
}
