/**
The lock-free queue refines an atomic FIFO queue: every atomic operation of every thread is one step of the atomic
queue or leaves it alone.  So every interleaving is linearizable.
*/
module QueueRefinement {
  import opened Options
  import opened QueueModel
  import opened QueueInvariant
  import opened QueueFrames
  import opened QueueEffects
  import opened QueueSteps

  // ----- The atomic queue

  /** What the atomic queue knows about a thread: the call it is in, and whether that call has taken effect. */
  datatype Call =
    | NoCall
    | Pushing(v: Value)
    | Pushed
    | Dropped
    | Popping
    | Popped(res: Option<Value>)

  datatype Spec = Spec(queue: seq<Value>, calls: map<Tid, Call>)

  /** Append names the push that takes effect: a thread may complete another thread's push.  Misses is an "empty"
      answered while the queue holds a value. */
  datatype Event =
    | Stutter | BeginPush(v: Value) | BeginPop | End | Append(pusher: Tid) | Remove | Empty | Misses | Drops

  predicate SpecStep(q: Spec, q': Spec, a: Tid, e: Event) {
    && a in q.calls
    && match e
       case Stutter => q' == q
       case BeginPush(v) => q.calls[a] == NoCall && q' == q.(calls := q.calls[a := Pushing(v)])
       case BeginPop => q.calls[a] == NoCall && q' == q.(calls := q.calls[a := Popping])
       case End =>
         && (q.calls[a].Pushed? || q.calls[a].Dropped? || q.calls[a].Popped?)
         && q' == q.(calls := q.calls[a := NoCall])
       case Append(b) =>
         && b in q.calls && q.calls[b].Pushing?
         && q' == Spec(q.queue + [q.calls[b].v], q.calls[b := Pushed])
       case Remove =>
         && q.calls[a] == Popping && q.queue != []
         && q' == Spec(q.queue[1..], q.calls[a := Popped(Some(q.queue[0]))])
       case Empty => q.calls[a] == Popping && q.queue == [] && q' == q.(calls := q.calls[a := Popped(None)])
       case Misses => q.calls[a] == Popping && q.queue != [] && q' == q.(calls := q.calls[a := Popped(None)])
       case Drops => q.calls[a].Pushing? && q' == q.(calls := q.calls[a := Dropped])
  }

  // ----- The abstraction

  /** The value in the i-th node of the chain: the first one stored there. */
  function ValueAt(s: State, i: nat): Value {
    if i < |s.chain| && Get(s, s.chain[i]).first.Some? then Get(s, s.chain[i]).first.value.value else 0
  }

  /** The data of the nodes from `head` up to but excluding `tail`. */
  function Queue(s: State): seq<Value> {
    seq(if s.h <= s.t then s.t - s.h else 0, i requires 0 <= i => ValueAt(s, s.h + i))
  }

  /** A push has taken effect once `tail` has left the node that holds its value. */
  function PushCall(s: State, p: Push, grip: Option<NodeId>): Call {
    match p.fill
    case NotYet => Pushing(p.value)
    case First => if grip.Some? && s.t <= Pos(s, grip.value) then Pushing(p.value) else Pushed
    case Late => Dropped
  }

  function ContCall(s: State, k: Cont): Call {
    match k
    case AfterPush(p, _) => PushCall(s, p, None)
    case AfterEmpty => Popped(None)
    case AfterTake(res) => Popped(res)
    case AfterMiss(_) => Popping
  }

  function CallOf(s: State, pc: Pc): Call {
    match pc
    case Idle => NoCall
    case PushLoad(p) => PushCall(s, p, None)
    case PushAcquire(p, _) => PushCall(s, p, None)
    case PushFill(p, w) => PushCall(s, p, Some(w.ptr))
    case PushLink(p, w) => PushCall(s, p, Some(w.ptr))
    case PushSwing(p, cur, _, _) => PushCall(s, p, Some(cur))
    case PushCount(p) => PushCall(s, p, None)
    case PushSize(p) => PushCall(s, p, None)
    case PushDone(p) => PushCall(s, p, None)
    case PopTake(w) => Popped(FirstValue(Get(s, w.ptr)))
    case PopCount(res) => Popped(res)
    case PopSize(res) => Popped(res)
    case PopDone(res) => Popped(res)
    case Free(_, _, _, k) => ContCall(s, k)
    case Drop(_, _, k) => ContCall(s, k)
    case Destroy(_, k) => ContCall(s, k)
    case CountDelete(k) => ContCall(s, k)
    case _ => Popping
  }

  function Calls(s: State): map<Tid, Call> {
    map b | b in s.threads :: CallOf(s, s.threads[b])
  }

  function Abs(s: State): Spec {
    Spec(Queue(s), Calls(s))
  }

  /** What a step means to the atomic queue.  Only the CASes that advance `tail` and `head`, and the reads that
      answer "empty", touch it; a push is lost exactly when its data CAS hits a node that was filled before. */
  function Meaning(cfg: Config, s: State, a: Tid, act: Action): Event
    requires a in s.threads
  {
    match s.threads[a]
    case Idle => if act.CallPush? then BeginPush(act.v) else BeginPop
    case PushFill(_, w) => if Get(s, w.ptr).data.None? && Get(s, w.ptr).first.Some? then Drops else Stutter
    case PushSwing(_, _, seen, _) =>
      if s.tail == seen && act.Go? && Get(s, s.tail.ptr).first.Some? then Append(Get(s, s.tail.ptr).first.value.owner)
      else Stutter
    case PushDone(_) => End
    case PopPeekAgain(ptr) =>
      if ptr != (if cfg.headFirst then s.tail.ptr else s.head.ptr) then Stutter
      else if s.h == s.t then Empty
      else Misses
    case PopCheck(w) => if w.ptr == s.tail.ptr then Empty else Stutter
    case PopSwing(w, _) => if s.head == w then Remove else Stutter
    case PopDone(_) => End
    case _ => Stutter
  }

  // ----- What a step of a keeps

  lemma ValueKept(s: State, s': State, a: Tid, i: nat)
    requires Chained(s) && Grows(s, s', a) && i < |s.chain| && Get(s, s.chain[i]).first.Some?
    ensures ValueAt(s', i) == ValueAt(s, i)
  {
    assert s'.chain[i] == s.chain[i];
    assert s'.nodes[s.chain[i]].first == s.nodes[s.chain[i]].first;
  }

  lemma Appended(cfg: Config, s: State, i: nat)
    requires Inv(cfg, s) && i < s.t
    ensures i < |s.chain| && Get(s, s.chain[i]).first.Some?
  {
    assert Chained(s);
    assert NodeInv(cfg, s, s.chain[i]);
  }

  lemma ValuesKept(cfg: Config, s: State, s': State, a: Tid)
    requires Inv(cfg, s) && Grows(s, s', a)
    ensures forall i: nat {:trigger ValueAt(s', i)} | i < s.t :: ValueAt(s', i) == ValueAt(s, i)
  {
    assert Chained(s);
    forall i: nat | i < s.t
      ensures ValueAt(s', i) == ValueAt(s, i)
    {
      Appended(cfg, s, i);
      ValueKept(s, s', a, i);
    }
  }

  /** The queue after a step that moves neither `head` nor `tail`, or one of them over one node. */
  lemma QueueMoves(s: State, s': State)
    requires s.h <= s.t && s'.h <= s'.t
    requires forall i: nat {:trigger ValueAt(s', i)} | i < s.t :: ValueAt(s', i) == ValueAt(s, i)
    ensures s'.h == s.h && s'.t == s.t ==> Queue(s') == Queue(s)
    ensures s'.h == s.h && s'.t == s.t + 1 ==> Queue(s') == Queue(s) + [ValueAt(s', s.t)]
    ensures s'.h == s.h + 1 && s'.t == s.t ==>
              Queue(s) != [] && Queue(s') == Queue(s)[1..] && Queue(s)[0] == ValueAt(s, s.h)
  {
    hide ValueAt;
  }

  /** Another thread's call changes only when `tail` leaves the node that the thread has filled. */
  lemma OtherCall(cfg: Config, s: State, s': State, a: Tid, b: Tid)
    requires Inv(cfg, s) && Keeps(cfg, s, s', a) && a != b && b in s.threads && b in s'.threads
    requires s'.threads[b] == s.threads[b]
    requires s'.t == s.t ||
             (s'.t == s.t + 1 && Get(s, s.tail.ptr).first.Some? && Get(s, s.tail.ptr).first.value.owner != b)
    ensures CallOf(s', s'.threads[b]) == CallOf(s, s.threads[b])
  {
    hide Inv, NodeInv, Keeps, Grows, CallOf;
    OtherFacts(cfg, s, b);
    KeepsGrows(cfg, s, s', a);
    OtherCallKept(cfg, s, s', a, b);
  }

  lemma OtherFacts(cfg: Config, s: State, b: Tid)
    requires Inv(cfg, s) && b in s.threads
    ensures ThreadInv(cfg, s, b)
    ensures s.threads[b].PopTake? ==> Get(s, s.threads[b].w.ptr).first.Some?
    ensures s.tail.ptr < |s.nodes| && s.t < |s.chain| && s.chain[s.t] == s.tail.ptr
  {
    assert ThreadInv(cfg, s, b) && Chained(s);
    if s.threads[b].PopTake? {
      assert NodeInv(cfg, s, s.threads[b].w.ptr);
    }
    hide Inv;
  }

  lemma KeepsGrows(cfg: Config, s: State, s': State, a: Tid)
    requires Keeps(cfg, s, s', a)
    ensures Grows(s, s', a) && Inv(cfg, s')
  {
  }

  lemma OtherCallKept(cfg: Config, s: State, s': State, a: Tid, b: Tid)
    requires ThreadInv(cfg, s, b) && Grows(s, s', a) && a != b && b in s'.threads
    requires s'.threads[b] == s.threads[b]
    requires s.threads[b].PopTake? ==> Get(s, s.threads[b].w.ptr).first.Some?
    requires s.tail.ptr < |s.nodes| && s.t < |s.chain| && s.chain[s.t] == s.tail.ptr
    requires s'.t == s.t ||
             (s'.t == s.t + 1 && Get(s, s.tail.ptr).first.Some? && Get(s, s.tail.ptr).first.value.owner != b)
    ensures CallOf(s', s'.threads[b]) == CallOf(s, s.threads[b])
  {
  }

  // ----- What a step does to the acting thread's own call

  /** The event, as far as the acting thread's call and the positions are concerned. */
  predicate OwnStep(s: State, s': State, was: Call, now: Call, e: Event) {
    && s'.t == s.t
    && s'.h == (if e.Remove? then s.h + 1 else s.h)
    && match e
       case Stutter => now == was
       case BeginPush(v) => was == NoCall && now == Pushing(v)
       case BeginPop => was == NoCall && now == Popping
       case End => (was.Pushed? || was.Dropped? || was.Popped?) && now == NoCall
       case Append(_) => false
       case Remove => was == Popping && s.h < s.t && now == Popped(Some(ValueAt(s, s.h)))
       case Empty => was == Popping && s.h == s.t && now == Popped(None)
       case Misses => was == Popping && s.h < s.t && now == Popped(None)
       case Drops => was.Pushing? && now == Dropped
  }

  lemma Bounds(cfg: Config, s: State)
    requires Inv(cfg, s)
    ensures s.h <= s.t
  {
    assert Chained(s);
  }

  /** The queue and the other threads' calls, when `tail` stays. */
  lemma Frame(cfg: Config, s: State, s': State, a: Tid)
    requires Inv(cfg, s) && Keeps(cfg, s, s', a) && a in s.threads && a in s'.threads
    requires s'.threads == s.threads[a := s'.threads[a]] && s'.t == s.t
    ensures s.h <= s.t && s'.h <= s'.t
    ensures forall i: nat {:trigger ValueAt(s', i)} | i < s.t :: ValueAt(s', i) == ValueAt(s, i)
    ensures Calls(s') == Calls(s)[a := CallOf(s', s'.threads[a])]
  {
    hide Inv, Keeps, CallOf, ValueAt, Grows;
    KeepsGrows(cfg, s, s', a);
    ValuesKept(cfg, s, s', a);
    Bounds(cfg, s);
    Bounds(cfg, s');
    forall b | b in s'.threads && b != a
      ensures CallOf(s', s'.threads[b]) == CallOf(s, s.threads[b])
    {
      OtherCall(cfg, s, s', a, b);
    }
  }

  lemma OwnStepIsSpecStep(s: State, s': State, a: Tid, e: Event)
    requires a in s.threads && a in s'.threads
    requires s.h <= s.t && s'.h <= s'.t
    requires forall i: nat {:trigger ValueAt(s', i)} | i < s.t :: ValueAt(s', i) == ValueAt(s, i)
    requires Calls(s') == Calls(s)[a := CallOf(s', s'.threads[a])]
    requires OwnStep(s, s', CallOf(s, s.threads[a]), CallOf(s', s'.threads[a]), e)
    ensures SpecStep(Abs(s), Abs(s'), a, e)
  {
    QueueMoves(s, s');
    assert |Queue(s)| == s.t - s.h;
    hide Queue, ValueAt, CallOf;
  }

  lemma Local(cfg: Config, s: State, s': State, a: Tid, e: Event)
    requires Inv(cfg, s) && Keeps(cfg, s, s', a) && a in s.threads && a in s'.threads
    requires s'.threads == s.threads[a := s'.threads[a]]
    requires OwnStep(s, s', CallOf(s, s.threads[a]), CallOf(s', s'.threads[a]), e)
    ensures SpecStep(Abs(s), Abs(s'), a, e)
  {
    hide Inv, Keeps, CallOf;
    assert s'.t == s.t;
    hide OwnStep;
    Frame(cfg, s, s', a);
    OwnStepIsSpecStep(s, s', a, e);
  }

  predicate PushPhase(pc: Pc) {
    match pc
    case PushLoad(p) => p.fill.NotYet?
    case PushAcquire(p, _) => p.fill.NotYet?
    case PushCount(p) => !p.fill.NotYet?
    case PushSize(p) => !p.fill.NotYet?
    case PushDone(p) => !p.fill.NotYet?
    case _ => false
  }

  lemma PushOwnCall(cfg: Config, s: State, a: Tid, act: Action)
    requires a in s.threads && PushPhase(s.threads[a])
    ensures var s' := Apply(cfg, s, a, act);
            OwnStep(s, s', CallOf(s, s.threads[a]), CallOf(s', s'.threads[a]), Meaning(cfg, s, a, act))
  {
  }

  lemma FillOwnCall(cfg: Config, s: State, a: Tid, p: Push, w: Word)
    requires a in s.threads && s.threads[a] == PushFill(p, w) && FillKnows(s, a, p, w)
    requires Get(s, w.ptr).data.None? && Get(s, w.ptr).first.None? ==> Pos(s, w.ptr) == s.t
    ensures var s' := Filled(s, a, p, w);
            OwnStep(s, s', CallOf(s, s.threads[a]), CallOf(s', s'.threads[a]), Meaning(cfg, s, a, Go))
  {
  }

  lemma LinkOwnCall(cfg: Config, s: State, a: Tid, p: Push, w: Word)
    requires a in s.threads && s.threads[a] == PushLink(p, w)
    requires Pos(Linked(s, a, p, w), w.ptr) == Pos(s, w.ptr)
    ensures var s' := Linked(s, a, p, w);
            OwnStep(s, s', CallOf(s, s.threads[a]), CallOf(s', s'.threads[a]), Stutter)
  {
    hide Pos, Extended;
  }

  lemma SwingOwnCall(cfg: Config, s: State, a: Tid, p: Push, cur: NodeId, seen: Word, next: Word)
    requires a in s.threads && s.threads[a] == PushSwing(p, cur, seen, next)
    requires s.tail.ptr != cur ==> Pos(s, cur) < s.t
    ensures var s' := if s.tail.ptr == cur then To(s, a, PushSwing(p, cur, s.tail, next))
                      else To(s, a, Drop(cur, None, AfterPush(p, s.tail)));
            OwnStep(s, s', CallOf(s, s.threads[a]), CallOf(s', s'.threads[a]), Stutter)
  {
  }

  /** Where a pop may answer "empty", the answer is right at that instant. */
  predicate PopPhase(cfg: Config, s: State, pc: Pc) {
    match pc
    case PopPeek => true
    case PopPeekAgain(_) => s.h <= s.t
    case PopLoad => true
    case PopAcquire(_) => true
    case PopCheck(w) => w.ptr == s.tail.ptr ==> s.h == s.t
    case PopNext(_) => true
    case PopCount(_) => true
    case PopSize(_) => true
    case PopDone(_) => true
    case _ => false
  }

  lemma PopOwnCall(cfg: Config, s: State, a: Tid, act: Action)
    requires a in s.threads && PopPhase(cfg, s, s.threads[a])
    ensures var s' := Apply(cfg, s, a, act);
            OwnStep(s, s', CallOf(s, s.threads[a]), CallOf(s', s'.threads[a]), Meaning(cfg, s, a, act))
  {
  }

  lemma PassOwnCall(cfg: Config, s: State, a: Tid, w: Word, next: Word)
    requires PassReady(s, a, w, next)
    ensures var s' := HeadSwung(s, a, w, next);
            OwnStep(s, s', CallOf(s, s.threads[a]), CallOf(s', s'.threads[a]), Remove)
  {
  }

  lemma TakeOwnCall(cfg: Config, s: State, a: Tid, w: Word)
    requires TakeReady(s, a, w)
    ensures var s' := DataTaken(cfg, s, a, w);
            OwnStep(s, s', CallOf(s, s.threads[a]), CallOf(s', s'.threads[a]), Stutter)
  {
  }

  lemma ReleaseOwnCall(cfg: Config, s: State, a: Tid, act: Action)
    requires a in s.threads && Enabled(s.threads[a], act)
    requires Releases(s.threads[a])
    ensures var s' := Apply(cfg, s, a, act);
            OwnStep(s, s', CallOf(s, s.threads[a]), CallOf(s', s'.threads[a]), Stutter)
  {
  }

  // ----- The step that advances `tail`

  /** The thread that filled the tail is still in its push, which has not taken effect. */
  lemma FillerCall(cfg: Config, s: State, n: NodeId)
    requires Sound(cfg, s, n) && Pos(s, n) == s.t && s.nodes[n].first.Some?
    ensures var f := s.nodes[n].first.value;
            && f.owner in s.threads
            && CallOf(s, s.threads[f.owner]) == Pushing(f.value)
            && TailGrip(s.threads[f.owner]) == Some(n)
            && Stored(s.threads[f.owner]).Some?
  {
  }

  /** Its push takes effect when `tail` leaves the node, whichever thread moves `tail`. */
  lemma FillerCallAfter(s: State, s': State, pc: Pc, n: NodeId)
    requires TailGrip(pc) == Some(n) && Stored(pc).Some? && Pos(s', n) < s'.t
    ensures CallOf(s', pc) == Pushed
  {
  }

  lemma SwingerCall(cfg: Config, s: State, a: Tid, p: Push, cur: NodeId, seen: Word, next: Word)
    requires SwingReady(cfg, s, a, p, cur, seen, next)
    ensures var s', f := Swung(s, a, p, cur, seen, next), s.nodes[cur].first.value;
            && a in s'.threads
            && CallOf(s', s'.threads[a]) == (if p.fill.First? then Pushed else CallOf(s, s.threads[a]))
            && (p.fill.First? ==> f.owner == a)
            && (f.owner == a && Stored(s.threads[a]).Some? ==> p.fill.First?)
  {
  }

  lemma SwungShape(cfg: Config, s: State, a: Tid, p: Push, cur: NodeId, seen: Word, next: Word)
    requires SwingReady(cfg, s, a, p, cur, seen, next) && Grows(s, Swung(s, a, p, cur, seen, next), a)
    ensures var s' := Swung(s, a, p, cur, seen, next);
            && s'.t == s.t + 1 && s'.threads == s.threads[a := SwungPc(p, seen)]
            && Pos(s', cur) == Pos(s, cur) == s.t
            && a in s.threads && s.threads[a] == PushSwing(p, cur, seen, next)
            && cur == s.tail.ptr && IsLinked(s, cur) && Get(s, s.tail.ptr).first.Some?
  {
  }

  lemma SwungCalls(cfg: Config, s: State, a: Tid, p: Push, cur: NodeId, seen: Word, next: Word)
    requires Inv(cfg, s) && SwingReady(cfg, s, a, p, cur, seen, next) && Sound(cfg, s, cur)
    requires Keeps(cfg, s, Swung(s, a, p, cur, seen, next), a)
    ensures IsLinked(s, cur) && s.nodes[cur].first.Some?
    ensures var f := s.nodes[cur].first.value.owner;
            f in s.threads && Calls(Swung(s, a, p, cur, seen, next)) == Calls(s)[f := Pushed]
  {
    hide Inv, Keeps, Sound, Swung, CallOf, Stored, TailGrip, SwingReady, Grows, Pos;
    var s' := Swung(s, a, p, cur, seen, next);
    KeepsGrows(cfg, s, s', a);
    SwungShape(cfg, s, a, p, cur, seen, next);
    var f := s.nodes[cur].first.value.owner;
    FillerCall(cfg, s, cur);
    SwingerCall(cfg, s, a, p, cur, seen, next);
    assert f == a ==> Stored(s.threads[a]).Some?;
    if f != a {
      FillerCallAfter(s, s', s.threads[f], cur);
    }
    forall b | b in s'.threads && b != a && b != f
      ensures CallOf(s', s'.threads[b]) == CallOf(s, s.threads[b])
    {
      OtherCall(cfg, s, s', a, b);
    }
  }

  lemma SwungQueue(cfg: Config, s: State, s': State, a: Tid, cur: NodeId)
    requires Inv(cfg, s) && Keeps(cfg, s, s', a) && s.h <= s.t < |s.chain| && s.chain[s.t] == cur
    requires Get(s, cur).first.Some? && s'.h == s.h && s'.t == s.t + 1
    ensures Queue(s') == Queue(s) + [Get(s, cur).first.value.value]
  {
    hide Inv, Keeps, Queue;
    KeepsGrows(cfg, s, s', a);
    ValuesKept(cfg, s, s', a);
    InvChained(cfg, s);
    ValueKept(s, s', a, s.t);
    hide Chained, Grows;
    assert ValueAt(s, s.t) == Get(s, cur).first.value.value;
    QueueMoves(s, s');
  }

  lemma SwungMeans(cfg: Config, s: State, a: Tid, p: Push, cur: NodeId, seen: Word, next: Word)
    requires SwingReady(cfg, s, a, p, cur, seen, next) && s.tail == seen
    ensures cur < |s.nodes| && s.nodes[cur].first.Some?
    ensures s.h <= s.t < |s.chain| && s.chain[s.t] == cur && Pos(s, cur) == s.t
    ensures Meaning(cfg, s, a, Go) == Append(s.nodes[cur].first.value.owner)
    ensures Swung(s, a, p, cur, seen, next).h == s.h && Swung(s, a, p, cur, seen, next).t == s.t + 1
  {
  }

  lemma AppendHappens(s: State, s': State, a: Tid, f: Tid, v: Value)
    requires a in s.threads && f in s.threads && CallOf(s, s.threads[f]) == Pushing(v)
    requires Queue(s') == Queue(s) + [v] && Calls(s') == Calls(s)[f := Pushed]
    ensures SpecStep(Abs(s), Abs(s'), a, Append(f))
  {
    hide CallOf, Queue;
  }

  lemma SwungRefines(cfg: Config, s: State, a: Tid, p: Push, cur: NodeId, seen: Word, next: Word)
    requires At(cfg, s, a, PushSwing(p, cur, seen, next)) && s.tail == seen
    ensures SpecStep(Abs(s), Abs(Swung(s, a, p, cur, seen, next)), a, Meaning(cfg, s, a, Go))
  {
    hide Inv, Keeps, Chained, SwingReady, Sound, Meaning, Swung, CallOf, Stored, TailGrip, Queue, Calls, Abs, SpecStep;
    var s' := Swung(s, a, p, cur, seen, next);
    PushSwings(cfg, s, a, p, cur, seen, next);
    SwingFacts(cfg, s, a, p, cur, seen, next);
    SwungMeans(cfg, s, a, p, cur, seen, next);
    var f := s.nodes[cur].first.value;
    FillerCall(cfg, s, cur);
    SwungQueue(cfg, s, s', a, cur);
    SwungCalls(cfg, s, a, p, cur, seen, next);
    AppendHappens(s, s', a, f.owner, f.value);
  }

  // ----- The refinement

  lemma OneThread(cfg: Config, s: State, a: Tid, act: Action)
    requires a in s.threads
    ensures var s' := Apply(cfg, s, a, act); a in s'.threads && s'.threads == s.threads[a := s'.threads[a]]
  {
    hide After, Folded, Extended, Resume, Get, Put, Bump;
    match s.threads[a]
    case Free(w, side, read, k) =>
    case Drop(n, read, k) =>
    case PushFill(p, w) =>
    case PushLink(p, w) =>
    case PushSwing(p, cur, seen, next) =>
    case _ =>
  }

  /** A step that changes only the acting thread's call, and its call as Meaning says. */
  lemma ByOwnCall(cfg: Config, s: State, a: Tid, act: Action)
    requires Inv(cfg, s) && a in s.threads && Keeps(cfg, s, Apply(cfg, s, a, act), a)
    requires a in Apply(cfg, s, a, act).threads
    requires OwnStep(s, Apply(cfg, s, a, act), CallOf(s, s.threads[a]),
                     CallOf(Apply(cfg, s, a, act), Apply(cfg, s, a, act).threads[a]), Meaning(cfg, s, a, act))
    ensures SpecStep(Abs(s), Abs(Apply(cfg, s, a, act)), a, Meaning(cfg, s, a, act))
  {
    hide Inv, Keeps, CallOf, Meaning, Apply, OwnStep;
    OneThread(cfg, s, a, act);
    Local(cfg, s, Apply(cfg, s, a, act), a, Meaning(cfg, s, a, act));
  }

  lemma BeginOwnCall(cfg: Config, s: State, a: Tid, act: Action)
    requires a in s.threads && s.threads[a].Idle?
    ensures var s' := Apply(cfg, s, a, act);
            OwnStep(s, s', CallOf(s, s.threads[a]), CallOf(s', s'.threads[a]), Meaning(cfg, s, a, act))
  {
  }

  lemma FillRefines(cfg: Config, s: State, a: Tid, p: Push, w: Word)
    requires At(cfg, s, a, PushFill(p, w)) && Keeps(cfg, s, Filled(s, a, p, w), a)
    ensures SpecStep(Abs(s), Abs(Filled(s, a, p, w)), a, Meaning(cfg, s, a, Go))
    ensures Meaning(cfg, s, a, Go).Drops? ==> !cfg.keepData
  {
    assert ThreadInv(cfg, s, a);
    if Get(s, w.ptr).data.None? {
      StoreFacts(cfg, s, a, p, w);
    }
    hide Inv, Keeps, Sound;
    FillOwnCall(cfg, s, a, p, w);
    assert Filled(s, a, p, w).threads == s.threads[a := Filled(s, a, p, w).threads[a]];
    hide CallOf, OwnStep, Filled, StoreReady, FillKnows;
    Local(cfg, s, Filled(s, a, p, w), a, Meaning(cfg, s, a, Go));
  }

  lemma LinkRefines(cfg: Config, s: State, a: Tid, p: Push, w: Word)
    requires At(cfg, s, a, PushLink(p, w)) && Keeps(cfg, s, Linked(s, a, p, w), a)
    ensures SpecStep(Abs(s), Abs(Linked(s, a, p, w)), a, Stutter)
  {
    hide Linked;
    assert ThreadInv(cfg, s, a);
    hide Inv, CallOf, OwnStep;
    assert Pos(Linked(s, a, p, w), w.ptr) == Pos(s, w.ptr) by { KeepsGrows(cfg, s, Linked(s, a, p, w), a); }
    hide Keeps, PcInv;
    LinkOwnCall(cfg, s, a, p, w);
    assert Apply(cfg, s, a, Go) == Linked(s, a, p, w);
    OneThread(cfg, s, a, Go);
    hide Apply;
    Local(cfg, s, Linked(s, a, p, w), a, Stutter);
  }

  /** `tail` never comes back to a node it has left. */
  lemma SwingAhead(cfg: Config, s: State, a: Tid, p: Push, cur: NodeId, seen: Word, next: Word)
    requires At(cfg, s, a, PushSwing(p, cur, seen, next))
    ensures s.tail.ptr != cur ==> Pos(s, cur) < s.t
  {
    assert ThreadInv(cfg, s, a) && Chained(s);
    hide Inv;
  }

  lemma SwingRefines(cfg: Config, s: State, a: Tid, p: Push, cur: NodeId, seen: Word, next: Word)
    requires At(cfg, s, a, PushSwing(p, cur, seen, next))
    ensures var s' := if s.tail.ptr == cur then To(s, a, PushSwing(p, cur, s.tail, next))
                      else To(s, a, Drop(cur, None, AfterPush(p, s.tail)));
            SpecStep(Abs(s), Abs(s'), a, Stutter)
  {
    var s' := if s.tail.ptr == cur then To(s, a, PushSwing(p, cur, s.tail, next))
              else To(s, a, Drop(cur, None, AfterPush(p, s.tail)));
    hide Keeps, CallOf, OwnStep, Inv;
    PushSwingFails(cfg, s, a, p, cur, seen, next);
    SwingAhead(cfg, s, a, p, cur, seen, next);
    SwingOwnCall(cfg, s, a, p, cur, seen, next);
    Local(cfg, s, s', a, Stutter);
  }

  /** An "empty" answered at line 195 is given at an instant when the queue is empty; so is one answered at line 184,
      if `head` is read first. */
  lemma EmptyIsTrue(cfg: Config, s: State, a: Tid)
    requires Inv(cfg, s) && a in s.threads
    requires s.threads[a].PopPeekAgain? || s.threads[a].PopCheck?
    ensures PopPhase(cfg, s, s.threads[a])
    ensures cfg.headFirst && s.threads[a].PopPeekAgain? && s.threads[a].ptr == s.tail.ptr ==> s.h == s.t
  {
    assert ThreadInv(cfg, s, a) && Chained(s);
    hide Inv;
  }

  lemma PassRefines(cfg: Config, s: State, a: Tid, w: Word, next: Word)
    requires At(cfg, s, a, PopSwing(w, next)) && s.head == w
    ensures SpecStep(Abs(s), Abs(HeadSwung(s, a, w, next)), a, Remove)
  {
    hide Inv, Keeps, CallOf, OwnStep, Sound, PassReady;
    PopSwings(cfg, s, a, w, next);
    PassFacts(cfg, s, a, w, next);
    PassOwnCall(cfg, s, a, w, next);
    Local(cfg, s, HeadSwung(s, a, w, next), a, Remove);
  }

  lemma MissRefines(cfg: Config, s: State, a: Tid, w: Word, next: Word)
    requires At(cfg, s, a, PopSwing(w, next))
    ensures SpecStep(Abs(s), Abs(To(s, a, Drop(w.ptr, None, AfterMiss(s.head)))), a, Stutter)
  {
    hide Inv, Keeps;
    PopSwingFails(cfg, s, a, w, next);
    Local(cfg, s, To(s, a, Drop(w.ptr, None, AfterMiss(s.head))), a, Stutter);
  }

  lemma TakeRefines(cfg: Config, s: State, a: Tid, w: Word)
    requires At(cfg, s, a, PopTake(w))
    ensures SpecStep(Abs(s), Abs(DataTaken(cfg, s, a, w)), a, Stutter)
  {
    hide Inv, Keeps, CallOf, OwnStep, Sound, TakeReady;
    PopTakes(cfg, s, a, w);
    TakeFacts(cfg, s, a, w);
    TakeOwnCall(cfg, s, a, w);
    Local(cfg, s, DataTaken(cfg, s, a, w), a, Stutter);
  }

  lemma PushPhaseHolds(cfg: Config, s: State, a: Tid)
    requires Inv(cfg, s) && a in s.threads
    requires var was := s.threads[a];
             was.PushLoad? || was.PushAcquire? || was.PushCount? || was.PushSize? || was.PushDone?
    ensures PushPhase(s.threads[a])
  {
    assert ThreadInv(cfg, s, a);
    hide Inv;
  }

  predicate OwnSteps(pc: Pc) {
    !pc.PushFill? && !pc.PushLink? && !pc.PushSwing? && !pc.PopSwing? && !pc.PopTake?
  }

  /** The steps that concern nobody else's call: beginning and ending a call, looking, counting, releasing. */
  lemma OtherRefines(cfg: Config, s: State, a: Tid, act: Action)
    requires Inv(cfg, s) && a in s.threads && Enabled(s.threads[a], act) && OwnSteps(s.threads[a])
    requires Keeps(cfg, s, Apply(cfg, s, a, act), a)
    ensures SpecStep(Abs(s), Abs(Apply(cfg, s, a, act)), a, Meaning(cfg, s, a, act))
    ensures cfg.headFirst ==> !Meaning(cfg, s, a, act).Misses?
  {
    hide Inv, Keeps, Apply, OwnStep, CallOf, Abs, SpecStep, PushPhase;
    OneThread(cfg, s, a, act);
    var pc := s.threads[a];
    if pc.Idle? {
      BeginOwnCall(cfg, s, a, act);
    } else if Releases(pc) {
      ReleaseOwnCall(cfg, s, a, act);
    } else if pc.PushLoad? || pc.PushAcquire? || pc.PushCount? || pc.PushSize? || pc.PushDone? {
      PushPhaseHolds(cfg, s, a);
      PushOwnCall(cfg, s, a, act);
    } else {
      if pc.PopPeekAgain? || pc.PopCheck? { EmptyIsTrue(cfg, s, a); }
      PopOwnCall(cfg, s, a, act);
    }
    ByOwnCall(cfg, s, a, act);
  }

  /** Every step of the implementation, in every configuration, is the atomic queue's step that Meaning names; with
      line 202 repaired no push is ever dropped, and with `head` loaded first at line 184 no pop ever misses a value. */
  lemma StepRefines(cfg: Config, s: State, s': State, a: Tid, act: Action)
    requires Inv(cfg, s) && HeadRoom(s) && Step(cfg, s, s', a, act)
    ensures SpecStep(Abs(s), Abs(s'), a, Meaning(cfg, s, a, act))
    ensures Meaning(cfg, s, a, act).Drops? ==> !cfg.keepData
    ensures Meaning(cfg, s, a, act).Misses? ==> !cfg.headFirst
  {
    hide Inv, Keeps, Abs, SpecStep, OwnStep, CallOf, PushPhase, PopPhase;
    StepInv(cfg, s, s', a, act);
    match s.threads[a]
    case PushFill(p, w) => FillRefines(cfg, s, a, p, w);
    case PushLink(p, w) => LinkRefines(cfg, s, a, p, w);
    case PushSwing(p, cur, seen, next) =>
      if s.tail == seen && act.Go? { SwungRefines(cfg, s, a, p, cur, seen, next); }
      else { SwingRefines(cfg, s, a, p, cur, seen, next); }
    case PopSwing(w, next) =>
      if s.head == w { PassRefines(cfg, s, a, w, next); } else { MissRefines(cfg, s, a, w, next); }
    case PopTake(w) => TakeRefines(cfg, s, a, w);
    case _ => OtherRefines(cfg, s, a, act);
  }

  /** What an atomic queue may get wrong: losing a push, and answering "empty" although it holds a value. */
  datatype Faults = Faults(drops: bool, misses: bool)

  function FaultsOf(cfg: Config): Faults {
    Faults(!cfg.keepData, !cfg.headFirst)
  }

  predicate Allowed(q: Spec, q': Spec, a: Tid, e: Event, f: Faults) {
    SpecStep(q, q', a, e) && (e.Drops? ==> f.drops) && (e.Misses? ==> f.misses)
  }

  ghost predicate SpecNext(q: Spec, q': Spec, f: Faults) {
    exists a, e :: Allowed(q, q', a, e, f)
  }

  ghost predicate SpecNextAt(run: seq<Spec>, i: int, f: Faults) {
    0 < i < |run| && SpecNext(run[i - 1], run[i], f)
  }

  /** A run of the atomic queue, with no faults but those. */
  ghost predicate SpecRun(run: seq<Spec>, f: Faults) {
    && 0 < |run|
    && run[0].queue == []
    && (forall b | b in run[0].calls :: run[0].calls[b] == NoCall)
    && forall i | 0 < i < |run| :: SpecNextAt(run, i, f)
  }

  function AbsRun(run: seq<State>): seq<Spec> {
    seq(|run|, i requires 0 <= i < |run| => Abs(run[i]))
  }

  /** Linearizability, over every run of every configuration: the queue behaves as an atomic FIFO queue, which may lose
      a push only if line 202 clears the data, and may answer "empty" over a value only if line 184 loads `tail`
      first. */
  lemma RunRefines(cfg: Config, run: seq<State>)
    requires Run(cfg, run)
    ensures SpecRun(AbsRun(run), FaultsOf(cfg))
  {
    var q := AbsRun(run);
    var tids: set<Tid> :| |tids| < COUNT_MOD - 1 && run[0] == Init(tids);
    assert q[0] == Abs(Init(tids));
    forall i | 0 < i < |q|
      ensures SpecNextAt(q, i, FaultsOf(cfg))
    {
      NextIsSpec(cfg, run, i);
    }
  }

  lemma NextIsSpec(cfg: Config, run: seq<State>, i: nat)
    requires Run(cfg, run) && 0 < i < |run|
    ensures SpecNext(Abs(run[i - 1]), Abs(run[i]), FaultsOf(cfg))
  {
    hide Run, Inv, Step, HeadRoom, Abs, Meaning, Allowed;
    var a, act := NextRefines(cfg, run, i);
  }

  /** The thread that takes the i-th step, what it does, and what that means to the atomic queue. */
  lemma NextRefines(cfg: Config, run: seq<State>, i: nat) returns (a: Tid, act: Action)
    requires Run(cfg, run) && 0 < i < |run|
    ensures Inv(cfg, run[i - 1]) && HeadRoom(run[i - 1]) && Step(cfg, run[i - 1], run[i], a, act)
    ensures Allowed(Abs(run[i - 1]), Abs(run[i]), a, Meaning(cfg, run[i - 1], a, act), FaultsOf(cfg))
  {
    hide Inv, SpecStep, Abs, Meaning, Apply, Init;
    RunInv(cfg, run, i - 1);
    assert NextAt(cfg, run, i);
    a, act :| Step(cfg, run[i - 1], run[i], a, act);
    StepRefines(cfg, run[i - 1], run[i], a, act);
  }
}
