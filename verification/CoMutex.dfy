/**
The coroutine mutex of sync/co_mutex.hpp as a transition system: one atomic operation of one task per step, any
number of tasks.  The wait queue is the atomic FIFO queue that the lock-free queue refines.  A task that parks is
put into the wait queue by a to-do, some time after its CAS; that to-do is a step of its own.
*/
module CoMutex {
  import opened Fifo

  type Tid = nat

  /** The packed word: one bit for `locked`, 31 bits for `waiters`. */
  datatype Word = Word(locked: bool, waiters: nat)

  const WAITERS_MOD: nat := 0x8000_0000

  /** Program counters; each names the atomic operation the task performs next.  `woken`: the task has been parked
      and woken since it called `lock`. */
  datatype Pc =
    | Idle
    | LockLoad(woken: bool)              // line 25
    | LockCas(old': Word, woken: bool)   // line 33
    | Parking                            // lines 39-43: the to-do has not run yet
    | Parked
    | Holding                            // line 36
    | UnlockLoad                         // line 49
    | UnlockCas(old': Word)              // line 50
    | WakeCas(old': Word)                // line 53
    | Popping                            // line 55
    | Waking(task: Tid)                  // line 57
    | TryLoad                            // line 65
    | TryCas(old': Word)                 // line 67

  datatype State = State(word: Word, queue: seq<Tid>, tasks: map<Tid, Pc>)

  /** What an idle task calls. */
  datatype Action = CallLock | CallTryLock | Go

  function To(s: State, a: Tid, pc: Pc): State {
    s.(tasks := s.tasks[a := pc])
  }

  function Init(tids: set<Tid>): State {
    State(Word(false, 0), [], map b | b in tids :: Idle)
  }

  /** Lines 27-31. */
  function Wanted(w: Word): Word {
    if w.locked then w.(waiters := (w.waiters + 1) % WAITERS_MOD) else w.(locked := true)
  }

  /** Line 53: the 31-bit field goes down by one. */
  function OneFewer(w: Word): Word {
    w.(waiters := (w.waiters + WAITERS_MOD - 1) % WAITERS_MOD)
  }

  function Apply(repaired: bool, s: State, a: Tid, act: Action): State
    requires a in s.tasks
  {
    match s.tasks[a]
    case Idle => To(s, a, if act.CallTryLock? then TryLoad else LockLoad(false))
    case LockLoad(woken) => To(s, a, LockCas(s.word, woken))
    case LockCas(w, woken) =>
      if s.word != w then To(s, a, LockLoad(woken)) else Entered(repaired, s, a, w)
    case Parking => To(s, a, Parked).(queue := s.queue + [a])
    case Parked => s
    case Holding => To(s, a, UnlockLoad)
    case UnlockLoad => To(s, a, UnlockCas(s.word))
    case UnlockCas(w) => if s.word != w then To(s, a, UnlockCas(s.word)) else Opened(s, a, w)
    case WakeCas(w) =>
      if s.word != w then To(s, a, Idle) else To(s, a, Popping).(word := OneFewer(w))
    case Popping => if s.queue == [] then s else To(s, a, Waking(s.queue[0])).(queue := s.queue[1..])
    case Waking(task) => To(To(s, task, LockLoad(true)), a, Idle)
    case TryLoad => To(s, a, if s.word.locked then Idle else TryCas(s.word))
    case TryCas(w) => if s.word != w then To(s, a, Idle) else To(s, a, Holding).(word := w.(locked := true))
  }

  /** Lines 33-44 after the CAS: as written, line 34 looks at the word just stored, which is always locked. */
  function Entered(repaired: bool, s: State, a: Tid, w: Word): State {
    To(s, a, if repaired && w.locked then Parking else Holding).(word := Wanted(w))
  }

  /** Lines 50-53. */
  function Opened(s: State, a: Tid, w: Word): State {
    To(s, a, if w.waiters > 0 then WakeCas(w.(locked := false)) else Idle).(word := w.(locked := false))
  }

  predicate Step(repaired: bool, s: State, s': State, a: Tid, act: Action) {
    && a in s.tasks
    && (s.tasks[a].Idle? <==> !act.Go?)
    && !s.tasks[a].Parked?
    && s' == Apply(repaired, s, a, act)
  }

  ghost predicate Next(repaired: bool, s: State, s': State) {
    exists a, act :: Step(repaired, s, s', a, act)
  }

  ghost predicate NextAt(repaired: bool, run: seq<State>, i: int) {
    0 < i < |run| && Next(repaired, run[i - 1], run[i])
  }

  ghost predicate Run(repaired: bool, run: seq<State>) {
    && 0 < |run|
    && (exists tids: set<Tid> :: |tids| < WAITERS_MOD && run[0] == Init(tids))
    && forall i | 0 < i < |run| :: NextAt(repaired, run, i)
  }

  // ----- Counting tasks by what they do

  datatype Role = Holder | Parker | Popper

  predicate Plays(pc: Pc, role: Role) {
    match role
    case Holder => pc.Holding? || pc.UnlockLoad? || pc.UnlockCas?
    case Parker => pc.Parking?
    case Popper => pc.Popping?
  }

  ghost function Team(tasks: map<Tid, Pc>, role: Role): set<Tid> {
    set b | b in tasks && Plays(tasks[b], role)
  }

  function One(b: bool): int {
    if b then 1 else 0
  }

  // ----- The invariant

  /** The locked bit is set exactly while one task holds the lock. */
  ghost predicate Locked(s: State) {
    |Team(s.tasks, Holder)| == One(s.word.locked)
  }

  /** Every waiter counted, or owed to an unlocker in the pop loop, is queued or on its way to the queue. */
  ghost predicate Counted(s: State) {
    s.word.waiters + |Team(s.tasks, Popper)| == |s.queue| + |Team(s.tasks, Parker)|
  }

  ghost predicate WokenBy(s: State, t: Tid, b: Tid) {
    b in s.tasks && s.tasks[b] == Waking(t)
  }

  /** A parked task is queued once, or in the hands of one unlocker, and not both. */
  ghost predicate Places(s: State) {
    && (forall i {:trigger s.queue[i]} | 0 <= i < |s.queue| :: s.queue[i] in s.tasks && s.tasks[s.queue[i]].Parked?)
    && (forall i, j | 0 <= i < j < |s.queue| :: s.queue[i] != s.queue[j])
    && (forall t, b {:trigger WokenBy(s, t, b)} | WokenBy(s, t, b) ::
          t in s.tasks && s.tasks[t].Parked? && t !in s.queue)
    && (forall t, b, c {:trigger WokenBy(s, t, b), WokenBy(s, t, c)} | WokenBy(s, t, b) && WokenBy(s, t, c) :: b == c)
    && (forall t {:trigger s.tasks[t]} | t in s.tasks && s.tasks[t].Parked? ::
          t in s.queue || exists b :: WokenBy(s, t, b))
  }

  /** What the second CAS of `unlock` and the CAS of `try_lock` expect to find. */
  predicate Expects(pc: Pc) {
    && (pc.WakeCas? ==> !pc.old'.locked && pc.old'.waiters > 0)
    && (pc.TryCas? ==> !pc.old'.locked)
  }

  ghost predicate Pending(s: State) {
    forall b {:trigger s.tasks[b]} | b in s.tasks :: Expects(s.tasks[b])
  }

  /** The task will see to the waiters: an unlocker whose CAS is going to succeed, an unlocker that is popping or
      waking a waiter, or a woken task that has yet to retry its lock CAS. */
  predicate Helper(word: Word, pc: Pc) {
    match pc
    case WakeCas(w) => w == word
    case Popping => true
    case Waking(_) => true
    case LockLoad(woken) => woken
    case LockCas(_, woken) => woken
    case _ => false
  }

  ghost predicate Helped(s: State) {
    exists b :: b in s.tasks && Helper(s.word, s.tasks[b])
  }

  ghost predicate Unstranded(s: State) {
    !s.word.locked && s.word.waiters > 0 ==> Helped(s)
  }

  ghost predicate Inv(s: State) {
    |s.tasks| < WAITERS_MOD && Locked(s) && Counted(s) && Places(s) && Pending(s) && Unstranded(s)
  }

  lemma InitInv(tids: set<Tid>)
    requires |tids| < WAITERS_MOD
    ensures Inv(Init(tids))
  {
    var s := Init(tids);
    assert s.tasks.Keys == tids;
    assert Team(s.tasks, Holder) == Team(s.tasks, Parker) == Team(s.tasks, Popper) == {};
  }

  // ----- One step

  lemma OneTask(s: State, s': State, a: Tid)
    requires a in s.tasks && a in s'.tasks && s'.tasks == s.tasks[a := s'.tasks[a]]
    ensures forall role ::
              |Team(s'.tasks, role)| ==
              |Team(s.tasks, role)| - One(Plays(s.tasks[a], role)) + One(Plays(s'.tasks[a], role))
    ensures |s'.tasks| == |s.tasks|
  {
    forall role
      ensures |Team(s'.tasks, role)| ==
              |Team(s.tasks, role)| - One(Plays(s.tasks[a], role)) + One(Plays(s'.tasks[a], role))
    {
      var was, now := Team(s.tasks, role), Team(s'.tasks, role);
      assert was - {a} == now - {a};
      assert One(a in was) == |was| - |was - {a}|;
      assert One(a in now) == |now| - |now - {a}|;
    }
    assert s'.tasks.Keys == s.tasks.Keys;
  }

  lemma {:induction false} DistinctCount(q: seq<Tid>, all: set<Tid>)
    requires (forall i | 0 <= i < |q| :: q[i] in all) && (forall i, j | 0 <= i < j < |q| :: q[i] != q[j])
    ensures |q| <= |all|
  {
    if q != [] {
      DistinctCount(q[1..], all - {q[0]});
    }
  }

  /** The waiters field never reaches the end of its 31 bits. */
  lemma WaitersFit(s: State, a: Tid)
    requires Inv(s) && a in s.tasks && !s.tasks[a].Parked? && !s.tasks[a].Parking?
    ensures s.word.waiters + 1 < WAITERS_MOD
  {
    var parkers := Team(s.tasks, Parker);
    var others := s.tasks.Keys - parkers - {a};
    DistinctCount(s.queue, others);
    assert s.tasks.Keys == others + parkers + {a};
  }

  /** Steps that touch only the acting task's counter, and park or wake nobody. */
  lemma LocalStep(s: State, a: Tid, pc: Pc)
    requires Inv(s) && a in s.tasks
    requires forall role :: Plays(s.tasks[a], role) <==> Plays(pc, role)
    requires !s.tasks[a].Parked? && !s.tasks[a].Waking? && !pc.Parked? && !pc.Waking?
    requires Expects(pc)
    requires Helper(s.word, s.tasks[a]) ==> Helper(s.word, pc)
    ensures Inv(To(s, a, pc))
  {
    var s' := To(s, a, pc);
    OneTask(s, s', a);
    PlacesKept(s, s', a);
    if !s.word.locked && s.word.waiters > 0 {
      HelpedKept(s, s', a);
    }
  }

  lemma HelpedKept(s: State, s': State, a: Tid)
    requires Helped(s) && a in s.tasks && a in s'.tasks && s'.tasks == s.tasks[a := s'.tasks[a]] && s'.word == s.word
    requires Helper(s.word, s.tasks[a]) ==> Helper(s.word, s'.tasks[a])
    ensures Helped(s')
  {
    var b :| b in s.tasks && Helper(s.word, s.tasks[b]);
    assert b in s'.tasks && Helper(s'.word, s'.tasks[b]);
  }

  lemma PlacesKept(s: State, s': State, a: Tid)
    requires Places(s) && a in s.tasks && a in s'.tasks && s'.tasks == s.tasks[a := s'.tasks[a]]
    requires !s.tasks[a].Parked? && !s.tasks[a].Waking? && !s'.tasks[a].Parked? && !s'.tasks[a].Waking?
    requires s'.queue == s.queue
    ensures Places(s')
  {
    forall t, b | WokenBy(s', t, b)
      ensures t in s'.tasks && s'.tasks[t].Parked? && t !in s'.queue
    {
      assert WokenBy(s, t, b);
    }
    forall t, b, c | WokenBy(s', t, b) && WokenBy(s', t, c)
      ensures b == c
    {
      assert WokenBy(s, t, b) && WokenBy(s, t, c);
    }
    forall t | t in s'.tasks && s'.tasks[t].Parked? && t !in s'.queue
      ensures exists b :: WokenBy(s', t, b)
    {
      var b :| WokenBy(s, t, b);
      assert WokenBy(s', t, b);
    }
  }

  /** Lines 33-36 and 67: a CAS that takes an unlocked mutex. */
  lemma TakeStep(s: State, a: Tid)
    requires Inv(s) && a in s.tasks && !s.word.locked
    requires s.tasks[a] == TryCas(s.word) || s.tasks[a].LockCas?
    ensures Inv(To(s, a, Holding).(word := s.word.(locked := true)))
  {
    var s' := To(s, a, Holding).(word := s.word.(locked := true));
    OneTask(s, s', a);
    PlacesKept(s, s', a);
  }

  /** Lines 30 and 33: a CAS that counts one more waiter. */
  lemma ParkStep(s: State, a: Tid)
    requires Inv(s) && a in s.tasks && s.word.locked && s.tasks[a].LockCas?
    ensures Inv(To(s, a, Parking).(word := Wanted(s.word)))
  {
    var s' := To(s, a, Parking).(word := Wanted(s.word));
    WaitersFit(s, a);
    OneTask(s, s', a);
    PlacesKept(s, s', a);
  }

  lemma OpenStep(s: State, a: Tid)
    requires Inv(s) && a in s.tasks && s.tasks[a] == UnlockCas(s.word)
    ensures Inv(Opened(s, a, s.word))
  {
    var s' := Opened(s, a, s.word);
    OneTask(s, s', a);
    PlacesKept(s, s', a);
    assert a in Team(s.tasks, Holder);
    if s'.word.waiters > 0 {
      assert Helper(s'.word, s'.tasks[a]);
    }
  }

  lemma WakeStep(s: State, a: Tid)
    requires Inv(s) && a in s.tasks && s.tasks[a] == WakeCas(s.word)
    ensures Inv(To(s, a, Popping).(word := OneFewer(s.word)))
  {
    var s' := To(s, a, Popping).(word := OneFewer(s.word));
    WaitersFit(s, a);
    OneTask(s, s', a);
    PlacesKept(s, s', a);
    assert Helper(s'.word, s'.tasks[a]);
  }

  /** Line 41: the to-do puts the parked task into the wait queue. */
  lemma EnqueueStep(s: State, a: Tid)
    requires Inv(s) && a in s.tasks && s.tasks[a].Parking?
    ensures Inv(To(s, a, Parked).(queue := s.queue + [a]))
  {
    var s' := To(s, a, Parked).(queue := s.queue + [a]);
    OneTask(s, s', a);
    EnqueuePlaces(s, s', a);
    if Helped(s) { HelpedKept(s, s', a); }
  }

  lemma EnqueuePlaces(s: State, s': State, a: Tid)
    requires Places(s) && a in s.tasks && s.tasks[a].Parking?
    requires s' == To(s, a, Parked).(queue := s.queue + [a])
    ensures Places(s')
  {
    forall t, b | WokenBy(s', t, b)
      ensures t in s'.tasks && s'.tasks[t].Parked? && t !in s'.queue
    {
      assert WokenBy(s, t, b);
    }
    forall t, b, c | WokenBy(s', t, b) && WokenBy(s', t, c)
      ensures b == c
    {
      assert WokenBy(s, t, b) && WokenBy(s, t, c);
    }
    forall t | t in s'.tasks && s'.tasks[t].Parked? && t !in s'.queue
      ensures exists b :: WokenBy(s', t, b)
    {
      assert s'.queue[|s.queue|] == a;
      assert t != a;
      assert s.queue <= s'.queue;
      assert t !in s.queue;
      var b :| WokenBy(s, t, b);
      assert WokenBy(s', t, b);
    }
  }

  lemma PopStep(s: State, a: Tid)
    requires Inv(s) && a in s.tasks && s.tasks[a].Popping? && s.queue != []
    ensures Inv(To(s, a, Waking(s.queue[0])).(queue := s.queue[1..]))
  {
    var s' := To(s, a, Waking(s.queue[0])).(queue := s.queue[1..]);
    OneTask(s, s', a);
    PopPlaces(s, s', a);
    assert Helper(s'.word, s'.tasks[a]);
  }

  lemma PopPlaces(s: State, s': State, a: Tid)
    requires Places(s) && a in s.tasks && s.tasks[a].Popping? && s.queue != []
    requires s' == To(s, a, Waking(s.queue[0])).(queue := s.queue[1..])
    ensures Places(s')
  {
    forall t, b | WokenBy(s', t, b)
      ensures t in s'.tasks && s'.tasks[t].Parked? && t !in s'.queue
    {
      assert b != a ==> WokenBy(s, t, b);
    }
    forall t, b, c | WokenBy(s', t, b) && WokenBy(s', t, c)
      ensures b == c
    {
      assert b != a ==> WokenBy(s, t, b);
      assert c != a ==> WokenBy(s, t, c);
    }
    forall t | t in s'.tasks && s'.tasks[t].Parked? && t !in s'.queue
      ensures exists b :: WokenBy(s', t, b)
    {
      if t == s.queue[0] {
        assert WokenBy(s', t, a);
      } else {
        assert s.queue == [s.queue[0]] + s'.queue;
        var b :| WokenBy(s, t, b);
        assert WokenBy(s', t, b);
      }
    }
  }

  /** Line 57: the popped task becomes runnable, and will retry. */
  lemma DeliverStep(s: State, a: Tid)
    requires Inv(s) && a in s.tasks && s.tasks[a].Waking?
    ensures s.tasks[a].task in s.tasks
    ensures Inv(To(To(s, s.tasks[a].task, LockLoad(true)), a, Idle))
  {
    var t := s.tasks[a].task;
    assert WokenBy(s, t, a);
    var s1 := To(s, t, LockLoad(true));
    var s' := To(s1, a, Idle);
    OneTask(s, s1, t);
    OneTask(s1, s', a);
    DeliverPlaces(s, s', a, t);
    assert Helper(s'.word, s'.tasks[t]);
  }

  lemma DeliverPlaces(s: State, s': State, a: Tid, t: Tid)
    requires Places(s) && WokenBy(s, t, a)
    requires s' == To(To(s, t, LockLoad(true)), a, Idle)
    ensures Places(s')
  {
    forall u, b | WokenBy(s', u, b)
      ensures u in s'.tasks && s'.tasks[u].Parked? && u !in s'.queue
    {
      assert WokenBy(s, u, b);
    }
    forall u, b, c | WokenBy(s', u, b) && WokenBy(s', u, c)
      ensures b == c
    {
      assert WokenBy(s, u, b) && WokenBy(s, u, c);
    }
    forall u | u in s'.tasks && s'.tasks[u].Parked? && u !in s'.queue
      ensures exists b :: WokenBy(s', u, b)
    {
      var b :| WokenBy(s, u, b);
      assert WokenBy(s', u, b);
    }
  }

  lemma StepInv(s: State, s': State, a: Tid, act: Action)
    requires Inv(s) && Step(true, s, s', a, act)
    ensures Inv(s')
  {
    hide Inv, Places, Counted, Locked, Unstranded, OneFewer;
    match s.tasks[a]
    case Idle => LocalStep(s, a, if act.CallTryLock? then TryLoad else LockLoad(false));
    case LockLoad(woken) => LocalStep(s, a, LockCas(s.word, woken));
    case LockCas(w, woken) =>
      if s.word != w { LocalStep(s, a, LockLoad(woken)); }
      else if w.locked { ParkStep(s, a); }
      else { TakeStep(s, a); }
    case Parking => EnqueueStep(s, a);
    case Holding => LocalStep(s, a, UnlockLoad);
    case UnlockLoad => LocalStep(s, a, UnlockCas(s.word));
    case UnlockCas(w) => if s.word != w { LocalStep(s, a, UnlockCas(s.word)); } else { OpenStep(s, a); }
    case WakeCas(w) => if s.word != w { LocalStep(s, a, Idle); } else { WakeStep(s, a); }
    case Popping => if s.queue != [] { PopStep(s, a); }
    case Waking(task) => DeliverStep(s, a);
    case TryLoad => LocalStep(s, a, if s.word.locked then Idle else TryCas(s.word));
    case TryCas(w) => TryStep(s, a, w);
  }

  lemma TryStep(s: State, a: Tid, w: Word)
    requires Inv(s) && a in s.tasks && s.tasks[a] == TryCas(w)
    ensures Inv(Apply(true, s, a, Go))
  {
    if s.word != w { LocalStep(s, a, Idle); } else { TakeStep(s, a); }
  }

  // ----- Every run of the repaired mutex

  lemma {:induction false} RunInv(run: seq<State>, i: nat)
    requires Run(true, run) && i < |run|
    ensures Inv(run[i])
  {
    hide Inv, Step;
    if i == 0 {
      var tids: set<Tid> :| |tids| < WAITERS_MOD && run[0] == Init(tids);
      InitInv(tids);
    } else {
      RunInv(run, i - 1);
      assert NextAt(true, run, i);
      var a, act :| Step(true, run[i - 1], run[i], a, act);
      StepInv(run[i - 1], run[i], a, act);
    }
  }

  ghost predicate Exclusive(s: State) {
    |Team(s.tasks, Holder)| <= 1
  }

  /** Mutual exclusion and conservation over every run: the locked bit is set exactly while one task holds the lock,
      and waiters + unlockers in the pop loop = queued tasks + tasks whose to-do has not run. */
  lemma LockedMeansOneHolder(run: seq<State>, i: nat)
    requires Run(true, run) && i < |run|
    ensures |Team(run[i].tasks, Holder)| == One(run[i].word.locked)
    ensures run[i].word.waiters + |Team(run[i].tasks, Popper)| == |run[i].queue| + |Team(run[i].tasks, Parker)|
    ensures run[i].word.waiters < WAITERS_MOD
  {
    hide Run, Places, Unstranded, Team;
    RunInv(run, i);
    FewWaiters(run[i]);
  }

  lemma FewWaiters(s: State)
    requires Inv(s)
    ensures s.word.waiters < WAITERS_MOD
  {
    var parkers := Team(s.tasks, Parker);
    var others := s.tasks.Keys - parkers;
    DistinctCount(s.queue, others);
    assert s.tasks.Keys == others + parkers;
  }

  /** No waiter is stranded: while the mutex is unlocked and counts a waiter, some unlocker's CAS is going to
      succeed, or some unlocker is popping or waking a waiter, or a woken task has yet to retry. */
  lemma NoWaiterStranded(run: seq<State>, i: nat)
    requires Run(true, run) && i < |run| && !run[i].word.locked && run[i].word.waiters > 0
    ensures exists b :: b in run[i].tasks && Helper(run[i].word, run[i].tasks[b])
  {
    RunInv(run, i);
  }

  /** A task that waits, queued or not yet, is never on its own: somebody holds the lock, or sees to the waiters. */
  lemma EveryWaiterIsSeenTo(run: seq<State>, i: nat, t: Tid)
    requires Run(true, run) && i < |run| && t in run[i].tasks
    requires run[i].tasks[t].Parked? || run[i].tasks[t].Parking?
    ensures Team(run[i].tasks, Holder) != {} || Helped(run[i])
  {
    RunInv(run, i);
    var s := run[i];
    if t !in s.queue && s.tasks[t].Parked? {
      var b :| WokenBy(s, t, b);
      assert Helper(s.word, s.tasks[b]);
    } else {
      assert s.tasks[t].Parking? ==> t in Team(s.tasks, Parker);
      assert s.word.waiters + |Team(s.tasks, Popper)| > 0;
      if b :| b in Team(s.tasks, Popper) { assert Helper(s.word, s.tasks[b]); }
    }
  }

  /** The pop loop of lines 54-60 waits only for a task that is queued or that a to-do is about to queue. */
  lemma PopLoopHasATask(run: seq<State>, i: nat, b: Tid)
    requires Run(true, run) && i < |run| && b in run[i].tasks && run[i].tasks[b].Popping?
    ensures run[i].queue != [] || exists t :: t in run[i].tasks && run[i].tasks[t].Parking?
  {
    RunInv(run, i);
    assert b in Team(run[i].tasks, Popper);
    if run[i].queue == [] {
      var t :| t in Team(run[i].tasks, Parker);
    }
  }

  /** A parked task is queued exactly once, or is being woken by exactly one unlocker. */
  lemma WokenOnce(run: seq<State>, i: nat, t: Tid)
    requires Run(true, run) && i < |run| && t in run[i].tasks && run[i].tasks[t].Parked?
    ensures t in run[i].queue <==> !exists b :: WokenBy(run[i], t, b)
    ensures forall b, c | WokenBy(run[i], t, b) && WokenBy(run[i], t, c) :: b == c
    ensures forall j, k | 0 <= j < k < |run[i].queue| :: !(run[i].queue[j] == run[i].queue[k] == t)
  {
    RunInv(run, i);
  }

  // ----- What a task does that runs alone

  /** n steps of a, and of nobody else, lead from s to s'. */
  ghost predicate Solo(s: State, s': State, a: Tid, n: nat)
    decreases n
  {
    if n == 0 then s' == s else exists mid :: Step(true, s, mid, a, Go) && Solo(mid, s', a, n - 1)
  }

  lemma SoloStep(s: State, mid: State, s': State, a: Tid, n: nat)
    requires Step(true, s, mid, a, Go) && Solo(mid, s', a, n)
    ensures Solo(s, s', a, n + 1)
  {
    hide Step;
  }

  lemma SoloEnd(s: State, a: Tid)
    ensures Solo(s, s, a, 0)
  {
  }

  /** There is only one state that a can reach by n steps of its own. */
  lemma {:induction false} SoloIsFunctional(s: State, x: State, y: State, a: Tid, n: nat)
    requires Solo(s, x, a, n) && Solo(s, y, a, n)
    ensures x == y
    decreases n
  {
    if n > 0 {
      var m :| Step(true, s, m, a, Go) && Solo(m, x, a, n - 1);
      var k :| Step(true, s, k, a, Go) && Solo(k, y, a, n - 1);
      SoloIsFunctional(m, x, y, a, n - 1);
    }
  }

  predicate InLock(pc: Pc) {
    pc.LockLoad? || pc.LockCas?
  }

  /** What `lock` comes to, undisturbed: the lock is taken if it is free, however many waiters there are; otherwise the
      task counts itself as one more and parks. */
  function Locking(s: State, a: Tid): State {
    if s.word.locked then To(s, a, Parking).(word := Word(true, s.word.waiters + 1))
    else To(s, a, Holding).(word := Word(true, s.word.waiters))
  }

  lemma LockCasAlone(s: State, a: Tid)
    requires a in s.tasks && s.tasks[a].LockCas? && s.tasks[a].old' == s.word && s.word.waiters + 1 < WAITERS_MOD
    ensures Solo(s, Locking(s, a), a, 1)
  {
    assert Step(true, s, Locking(s, a), a, Go);
    SoloEnd(Locking(s, a), a);
    SoloStep(s, Locking(s, a), Locking(s, a), a, 0);
  }

  lemma LockLoadAlone(s: State, a: Tid)
    requires a in s.tasks && s.tasks[a].LockLoad? && s.word.waiters + 1 < WAITERS_MOD
    ensures Solo(s, Locking(s, a), a, 2)
  {
    var mid := To(s, a, LockCas(s.word, s.tasks[a].woken));
    LockCasAlone(mid, a);
    assert Locking(mid, a) == Locking(s, a) by { Overwritten(s.tasks, a, mid.tasks[a], Locking(s, a).tasks[a]); }
    assert Step(true, s, mid, a, Go);
    SoloStep(s, mid, Locking(s, a), a, 1);
  }

  lemma Overwritten(tasks: map<Tid, Pc>, a: Tid, x: Pc, y: Pc)
    ensures tasks[a := x][a := y] == tasks[a := y]
  {
  }

  lemma LocksAlone(s: State, a: Tid) returns (n: nat)
    requires Inv(s) && a in s.tasks && InLock(s.tasks[a])
    ensures n <= 3 && Solo(s, Locking(s, a), a, n)
  {
    hide Solo, Inv;
    WaitersFit(s, a);
    if s.tasks[a].LockLoad? {
      LockLoadAlone(s, a);
      return 2;
    } else if s.tasks[a].old' == s.word {
      LockCasAlone(s, a);
      return 1;
    }
    var mid := To(s, a, LockLoad(s.tasks[a].woken));
    LockLoadAlone(mid, a);
    assert Locking(mid, a) == Locking(s, a) by { Overwritten(s.tasks, a, mid.tasks[a], Locking(s, a).tasks[a]); }
    assert Step(true, s, mid, a, Go);
    SoloStep(s, mid, Locking(s, a), a, 2);
    return 3;
  }

  /** A task inside `lock` that runs alone is through with it after at most three steps: holding a mutex that was free,
      whatever its waiters, or else on its way to sleep. */
  lemma LockAlone(run: seq<State>, i: nat, a: Tid) returns (n: nat)
    requires Run(true, run) && i < |run| && a in run[i].tasks && InLock(run[i].tasks[a])
    ensures n <= 3 && Solo(run[i], Locking(run[i], a), a, n)
    ensures Locking(run[i], a).tasks[a] == if run[i].word.locked then Parking else Holding
  {
    hide Run, Solo, Inv;
    RunInv(run, i);
    n := LocksAlone(run[i], a);
  }

  /** What `try_lock` comes to: it takes a free mutex, and leaves a locked one alone. */
  function Trying(s: State, a: Tid): State {
    if s.word.locked then To(s, a, Idle) else To(s, a, Holding).(word := Word(true, s.word.waiters))
  }

  lemma TryAlone(s: State, a: Tid) returns (n: nat)
    requires a in s.tasks && s.tasks[a].TryLoad?
    ensures n <= 2 && Solo(s, Trying(s, a), a, n)
  {
    hide Solo;
    SoloEnd(Trying(s, a), a);
    if s.word.locked {
      assert Step(true, s, Trying(s, a), a, Go);
      SoloStep(s, Trying(s, a), Trying(s, a), a, 0);
      return 1;
    }
    var mid := To(s, a, TryCas(s.word));
    assert Step(true, mid, Trying(s, a), a, Go) by { Overwritten(s.tasks, a, mid.tasks[a], Holding); }
    assert Step(true, s, mid, a, Go);
    SoloStep(mid, Trying(s, a), Trying(s, a), a, 0);
    SoloStep(s, mid, Trying(s, a), a, 1);
    return 2;
  }

  /** What `unlock` comes to: the mutex is free; and if it counts waiters, one fewer is counted, and the one that has
      waited longest is sent back into `lock`. */
  function Unlocking(s: State, a: Tid): State {
    if s.word.waiters == 0 then To(s, a, Idle).(word := Word(false, 0))
    else if s.queue == [] then To(s, a, Popping).(word := Word(false, s.word.waiters - 1))
    else
      To(To(s, s.queue[0], LockLoad(true)), a, Idle).(
        word := Word(false, s.word.waiters - 1), queue := s.queue[1..])
  }

  lemma WakingAlone(s: State, a: Tid)
    requires a in s.tasks && s.tasks[a].Waking?
    ensures Solo(s, To(To(s, s.tasks[a].task, LockLoad(true)), a, Idle), a, 1)
  {
    var s' := To(To(s, s.tasks[a].task, LockLoad(true)), a, Idle);
    assert Step(true, s, s', a, Go);
    SoloEnd(s', a);
    SoloStep(s, s', s', a, 0);
  }

  /** From line 55 on. */
  lemma PopAlone(s: State, a: Tid)
    requires a in s.tasks && s.tasks[a].Popping? && s.queue != [] && s.queue[0] != a
    ensures Solo(s, To(To(s, s.queue[0], LockLoad(true)), a, Idle).(queue := s.queue[1..]), a, 2)
  {
    hide Solo;
    var t := s.queue[0];
    var mid := To(s, a, Waking(t)).(queue := s.queue[1..]);
    WakingAlone(mid, a);
    assert s.tasks[a := Waking(t)][t := LockLoad(true)][a := Idle] == s.tasks[t := LockLoad(true)][a := Idle];
    assert Step(true, s, mid, a, Go);
    SoloStep(s, mid, To(To(s, t, LockLoad(true)), a, Idle).(queue := s.queue[1..]), a, 1);
  }

  /** From line 53 on. */
  lemma WakeAlone(s: State, a: Tid) returns (n: nat)
    requires a in s.tasks && s.tasks[a] == WakeCas(s.word) && !s.word.locked && 0 < s.word.waiters < WAITERS_MOD
    requires s.queue != [] ==> s.queue[0] != a
    ensures n <= 3 && Solo(s, Unlocking(s, a), a, n)
  {
    hide Solo;
    var mid := To(s, a, Popping).(word := Word(false, s.word.waiters - 1));
    assert Step(true, s, mid, a, Go);
    SoloEnd(mid, a);
    if s.queue == [] {
      SoloStep(s, mid, mid, a, 0);
      return 1;
    }
    PopAlone(mid, a);
    var t := s.queue[0];
    assert s.tasks[a := Popping][t := LockLoad(true)][a := Idle] == s.tasks[t := LockLoad(true)][a := Idle];
    SoloStep(s, mid, Unlocking(s, a), a, 2);
    return 3;
  }

  /** From line 50 on, with the word just loaded. */
  lemma OpenAlone(s: State, a: Tid) returns (n: nat)
    requires a in s.tasks && s.tasks[a] == UnlockCas(s.word) && s.word.waiters < WAITERS_MOD
    requires s.queue != [] ==> s.queue[0] != a
    ensures n <= 4 && Solo(s, Unlocking(s, a), a, n)
  {
    hide Solo;
    var mid := Opened(s, a, s.word);
    assert Step(true, s, mid, a, Go);
    SoloEnd(mid, a);
    if s.word.waiters == 0 {
      SoloStep(s, mid, mid, a, 0);
      return 1;
    }
    var m := WakeAlone(mid, a);
    assert Unlocking(mid, a) == Unlocking(s, a) by { SameUnlocking(s, mid, a); }
    SoloStep(s, mid, Unlocking(s, a), a, m);
    return m + 1;
  }

  lemma SameUnlocking(s: State, mid: State, a: Tid)
    requires a in s.tasks && a in mid.tasks && mid.tasks == s.tasks[a := mid.tasks[a]]
    requires mid.word.waiters == s.word.waiters && mid.queue == s.queue
    ensures Unlocking(mid, a) == Unlocking(s, a)
  {
    assert Unlocking(mid, a).tasks == Unlocking(s, a).tasks;
  }

  lemma HolderIsNotQueued(s: State, a: Tid)
    requires Inv(s) && a in s.tasks && !s.tasks[a].Parked?
    ensures s.queue != [] ==> s.queue[0] != a
  {
  }

  /** A task inside `unlock`, or about to call it, that runs alone frees the mutex and, if there are waiters, sends the
      first in the queue back into `lock`, within six steps; or, if none has got to the queue yet, it is at the pop loop
      for the one that a to-do is about to queue. */
  lemma UnlockAlone(run: seq<State>, i: nat, a: Tid) returns (n: nat)
    requires Run(true, run) && i < |run| && a in run[i].tasks && Plays(run[i].tasks[a], Holder)
    ensures n <= 6 && Solo(run[i], Unlocking(run[i], a), a, n)
  {
    hide Run, Solo, Inv, Unlocking;
    RunInv(run, i);
    var s := run[i];
    FewWaiters(s);
    HolderIsNotQueued(s, a);
    var fresh' := To(s, a, UnlockCas(s.word));
    SameUnlocking(s, fresh', a);
    var m := OpenAlone(fresh', a);
    if s.tasks[a].Holding? {
      var mid := To(s, a, UnlockLoad);
      Overwritten(s.tasks, a, UnlockLoad, UnlockCas(s.word));
      assert Step(true, s, mid, a, Go) && Step(true, mid, fresh', a, Go);
      SoloStep(mid, fresh', Unlocking(s, a), a, m);
      SoloStep(s, mid, Unlocking(s, a), a, m + 1);
      return m + 2;
    } else if s.tasks[a] == UnlockCas(s.word) {
      assert fresh' == s by { assert s.tasks[a := s.tasks[a]] == s.tasks; }
      return m;
    }
    assert Step(true, s, fresh', a, Go);
    SoloStep(s, fresh', Unlocking(s, a), a, m);
    return m + 1;
  }

  /** The pop loop alone wakes the task that has waited longest. */
  lemma PopLoopAlone(run: seq<State>, i: nat, a: Tid)
    requires Run(true, run) && i < |run| && a in run[i].tasks && run[i].tasks[a].Popping? && run[i].queue != []
    ensures var s := run[i];
            Solo(s, To(To(s, s.queue[0], LockLoad(true)), a, Idle).(queue := s.queue[1..]), a, 2)
  {
    hide Run, Solo, Inv;
    RunInv(run, i);
    HolderIsNotQueued(run[i], a);
    PopAlone(run[i], a);
  }

  // ----- A waiter can always get in

  /** n steps, by anybody, lead from s to s'. */
  ghost predicate Reach(s: State, s': State, n: nat)
    decreases n
  {
    if n == 0 then s' == s else exists mid, a, act :: Step(true, s, mid, a, act) && Reach(mid, s', n - 1)
  }

  lemma {:induction false} SoloReaches(s: State, s': State, a: Tid, n: nat)
    requires Solo(s, s', a, n)
    ensures Reach(s, s', n)
    decreases n
  {
    hide Step;
    if n > 0 {
      var mid :| Step(true, s, mid, a, Go) && Solo(mid, s', a, n - 1);
      SoloReaches(mid, s', a, n - 1);
    }
  }

  lemma {:induction false} ReachFurther(s: State, mid: State, s': State, m: nat, n: nat)
    requires Reach(s, mid, m) && Reach(mid, s', n)
    ensures Reach(s, s', m + n)
    decreases m
  {
    hide Step;
    if m > 0 {
      var x, a, act :| Step(true, s, x, a, act) && Reach(x, mid, m - 1);
      ReachFurther(x, mid, s', m - 1, n);
    }
  }

  lemma {:induction false} ReachInv(s: State, s': State, n: nat)
    requires Inv(s) && Reach(s, s', n)
    ensures Inv(s') && s'.tasks.Keys == s.tasks.Keys
    decreases n
  {
    hide Inv, Step;
    if n > 0 {
      var mid, a, act :| Step(true, s, mid, a, act) && Reach(mid, s', n - 1);
      StepInv(s, mid, a, act);
      StepTasks(s, mid, a, act);
      ReachInv(mid, s', n - 1);
    }
  }

  lemma WokenIsTask(s: State, a: Tid)
    requires Inv(s) && a in s.tasks && s.tasks[a].Waking?
    ensures s.tasks[a].task in s.tasks
  {
    assert WokenBy(s, s.tasks[a].task, a);
  }

  lemma StepTasks(s: State, s': State, a: Tid, act: Action)
    requires Inv(s) && Step(true, s, s', a, act)
    ensures s'.tasks.Keys == s.tasks.Keys
  {
    if s.tasks[a].Waking? { WokenIsTask(s, a); }
    hide Inv;
  }

  /** The task has to wait for the mutex, or has been woken and not got it yet. */
  predicate Waits(pc: Pc) {
    pc.Parking? || pc.Parked? || (InLock(pc) && pc.woken)
  }

  /** Some task that waits in s holds the mutex after n more steps. */
  ghost predicate GetsIn(s: State, n: nat) {
    exists s', t :: Reach(s, s', n) && t in s.tasks && Waits(s.tasks[t]) && t in s'.tasks && s'.tasks[t].Holding?
  }

  lemma GetsInLater(s: State, mid: State, m: nat, n: nat)
    requires Reach(s, mid, m) && GetsIn(mid, n)
    requires forall t | t in mid.tasks && Waits(mid.tasks[t]) :: t in s.tasks && Waits(s.tasks[t])
    ensures GetsIn(s, m + n)
  {
    hide Reach;
    var s', t :| Reach(mid, s', n) && t in mid.tasks && Waits(mid.tasks[t]) && t in s'.tasks && s'.tasks[t].Holding?;
    ReachFurther(s, mid, s', m, n);
  }

  lemma WokenGetsIn(s: State, t: Tid) returns (n: nat)
    requires Inv(s) && !s.word.locked && t in s.tasks && InLock(s.tasks[t]) && s.tasks[t].woken
    ensures n <= 3 && GetsIn(s, n)
  {
    hide Inv, Solo, Reach;
    n := LocksAlone(s, t);
    SoloReaches(s, Locking(s, t), t, n);
    assert Locking(s, t).tasks[t].Holding?;
  }

  /** The waiters after `t` has been delivered are those before. */
  lemma DeliveryGetsIn(s: State, s': State, a: Tid, t: Tid, m: nat) returns (n: nat)
    requires Inv(s) && Reach(s, s', m) && a in s.tasks && !Waits(s.tasks[a])
    requires t in s.tasks && Waits(s.tasks[t]) && s'.tasks == s.tasks[t := LockLoad(true)][a := Idle] && !s'.word.locked
    requires t != a
    ensures n <= m + 3 && GetsIn(s, n)
  {
    hide Inv, Reach, GetsIn;
    ReachInv(s, s', m);
    var k := WokenGetsIn(s', t);
    GetsInLater(s, s', m, k);
    return m + k;
  }

  lemma WakingGetsIn(s: State, a: Tid) returns (n: nat)
    requires Inv(s) && !s.word.locked && a in s.tasks && s.tasks[a].Waking?
    ensures n <= 4 && GetsIn(s, n)
  {
    var t := s.tasks[a].task;
    assert WokenBy(s, t, a);
    hide Inv, Solo, Reach;
    WakingAlone(s, a);
    var s' := To(To(s, t, LockLoad(true)), a, Idle);
    SoloReaches(s, s', a, 1);
    n := DeliveryGetsIn(s, s', a, t, 1);
  }

  lemma FirstIsParked(s: State)
    requires Inv(s) && s.queue != []
    ensures s.queue[0] in s.tasks && s.tasks[s.queue[0]].Parked?
  {
  }

  lemma QueuedPopGetsIn(s: State, a: Tid) returns (n: nat)
    requires Inv(s) && !s.word.locked && a in s.tasks && s.tasks[a].Popping? && s.queue != []
    ensures n <= 5 && GetsIn(s, n)
  {
    FirstIsParked(s);
    hide Inv, Solo, Reach;
    PopAlone(s, a);
    var s' := To(To(s, s.queue[0], LockLoad(true)), a, Idle).(queue := s.queue[1..]);
    SoloReaches(s, s', a, 2);
    n := DeliveryGetsIn(s, s', a, s.queue[0], 2);
  }

  lemma SomeParker(s: State, a: Tid) returns (t: Tid)
    requires Inv(s) && a in s.tasks && s.tasks[a].Popping? && s.queue == []
    ensures t in s.tasks && s.tasks[t].Parking?
  {
    assert a in Team(s.tasks, Popper);
    t :| t in Team(s.tasks, Parker);
  }

  /** One more step in front, which makes nobody a waiter. */
  lemma StepGetsIn(s: State, mid: State, a: Tid, n: nat)
    requires Step(true, s, mid, a, Go) && GetsIn(mid, n)
    requires forall t | t in mid.tasks && Waits(mid.tasks[t]) :: t in s.tasks && Waits(s.tasks[t])
    ensures GetsIn(s, n + 1)
  {
    hide Step, GetsIn, Reach, Waits;
    OneStep(s, mid, a, Go);
    GetsInLater(s, mid, 1, n);
  }

  lemma Enqueues(s: State, t: Tid) returns (mid: State)
    requires t in s.tasks && s.tasks[t].Parking?
    ensures Step(true, s, mid, t, Go) && mid.word == s.word && mid.queue == s.queue + [t]
    ensures mid.tasks == s.tasks[t := Parked]
  {
    mid := To(s, t, Parked).(queue := s.queue + [t]);
  }

  lemma PopGetsIn(s: State, a: Tid) returns (n: nat)
    requires Inv(s) && !s.word.locked && a in s.tasks && s.tasks[a].Popping?
    ensures n <= 6 && GetsIn(s, n)
  {
    hide Inv, Step, GetsIn;
    if s.queue != [] {
      n := QueuedPopGetsIn(s, a);
    } else {
      var t := SomeParker(s, a);
      var mid := Enqueues(s, t);
      StepInv(s, mid, t, Go);
      var k := QueuedPopGetsIn(mid, a);
      StepGetsIn(s, mid, t, k);
      return k + 1;
    }
  }

  lemma OneStep(s: State, s': State, a: Tid, act: Action)
    requires Step(true, s, s', a, act)
    ensures Reach(s, s', 1)
  {
    hide Step;
    assert Reach(s', s', 0);
  }

  lemma Wakes(s: State, a: Tid) returns (mid: State)
    requires Inv(s) && !s.word.locked && a in s.tasks && s.tasks[a] == WakeCas(s.word)
    ensures Step(true, s, mid, a, Go) && !mid.word.locked && mid.tasks == s.tasks[a := Popping]
  {
    mid := To(s, a, Popping).(word := OneFewer(s.word));
  }

  lemma WakeGetsIn(s: State, a: Tid) returns (n: nat)
    requires Inv(s) && !s.word.locked && a in s.tasks && s.tasks[a] == WakeCas(s.word)
    ensures n <= 7 && GetsIn(s, n)
  {
    hide Inv, Step, GetsIn;
    var mid := Wakes(s, a);
    StepInv(s, mid, a, Go);
    var k := PopGetsIn(mid, a);
    StepGetsIn(s, mid, a, k);
    return k + 1;
  }

  /** Whoever sees to the waiters of a free mutex. */
  lemma SomeHelper(s: State, t: Tid) returns (b: Tid)
    requires Inv(s) && !s.word.locked && t in s.tasks && Waits(s.tasks[t])
    ensures b in s.tasks && Helper(s.word, s.tasks[b])
  {
    if InLock(s.tasks[t]) {
      return t;
    } else if t !in s.queue && s.tasks[t].Parked? {
      b :| WokenBy(s, t, b);
      return;
    }
    assert s.tasks[t].Parking? ==> t in Team(s.tasks, Parker);
    assert s.word.waiters + |Team(s.tasks, Popper)| > 0;
    if c :| c in Team(s.tasks, Popper) { return c; }
    assert Helped(s);
    b :| b in s.tasks && Helper(s.word, s.tasks[b]);
  }

  lemma FreeGetsIn(s: State, t: Tid) returns (n: nat)
    requires Inv(s) && !s.word.locked && t in s.tasks && Waits(s.tasks[t])
    ensures n <= 7 && GetsIn(s, n)
  {
    var b := SomeHelper(s, t);
    hide Inv, GetsIn;
    match s.tasks[b]
    case WakeCas(_) => n := WakeGetsIn(s, b);
    case Popping => n := PopGetsIn(s, b);
    case Waking(_) => n := WakingGetsIn(s, b);
    case LockLoad(_) => n := WokenGetsIn(s, b);
    case LockCas(_, _) => n := WokenGetsIn(s, b);
  }

  lemma SomeHolder(s: State) returns (h: Tid)
    requires Inv(s) && s.word.locked
    ensures h in s.tasks && Plays(s.tasks[h], Holder)
  {
    h :| h in Team(s.tasks, Holder);
  }

  lemma UnlockingWaits(s: State, h: Tid, t: Tid)
    requires h in s.tasks && Plays(s.tasks[h], Holder) && t in s.tasks && Waits(s.tasks[t])
    requires s.queue != [] ==> s.queue[0] in s.tasks && s.tasks[s.queue[0]].Parked?
    ensures var s' := Unlocking(s, h);
            && t in s'.tasks && Waits(s'.tasks[t]) && !s'.word.locked
            && forall u | u in s'.tasks && Waits(s'.tasks[u]) :: u in s.tasks && Waits(s.tasks[u])
  {
  }

  /** No deadlock: from every state of every run in which a task waits, some interleaving of at most thirteen steps puts
      a task that waits into the mutex. */
  lemma WaitersGetIn(run: seq<State>, i: nat, t: Tid) returns (n: nat)
    requires Run(true, run) && i < |run| && t in run[i].tasks && Waits(run[i].tasks[t])
    ensures n <= 13 && GetsIn(run[i], n)
  {
    hide Run, Inv, Solo, Reach, GetsIn, Unlocking;
    RunInv(run, i);
    var s := run[i];
    if !s.word.locked {
      n := FreeGetsIn(s, t);
    } else {
      var h := SomeHolder(s);
      var m := UnlockAlone(run, i, h);
      SoloReaches(s, Unlocking(s, h), h, m);
      ReachInv(s, Unlocking(s, h), m);
      if s.queue != [] { FirstIsParked(s); }
      UnlockingWaits(s, h, t);
      var k := FreeGetsIn(Unlocking(s, h), t);
      GetsInLater(s, Unlocking(s, h), m, k);
      return m + k;
    }
  }

  // ----- The order in which waiters are woken

  lemma StepMovesOn(repaired: bool, s: State, s': State, a: Tid, act: Action)
    requires Step(repaired, s, s', a, act)
    ensures OneMove(s.queue, s'.queue)
  {
  }

  /** First come, first served: at any later moment of a run the queue is what was left of it from the front, with the
      newcomers behind. */
  lemma {:induction false} FirstComeFirstServed(repaired: bool, run: seq<State>, i: nat, j: nat)
    requires Run(repaired, run) && i <= j < |run|
    ensures MovedOn(run[i].queue, run[j].queue)
    decreases j
  {
    hide Step, MovedOn, OneMove;
    if i == j {
      Unmoved(run[i].queue);
    } else {
      FirstComeFirstServed(repaired, run, i, j - 1);
      assert NextAt(repaired, run, j);
      var a, act :| Step(repaired, run[j - 1], run[j], a, act);
      StepMovesOn(repaired, run[j - 1], run[j], a, act);
      MovesFurther(run[i].queue, run[j - 1].queue, run[j].queue);
    }
  }

  // ----- As written

  lemma QuietStep(s: State, s': State, a: Tid, act: Action)
    requires Step(false, s, s', a, act) && s'.word.waiters == 0
    requires s.word.waiters == 0
    ensures Step(true, s, s', a, act)
  {
  }

  lemma QuietRun(run: seq<State>)
    requires Run(false, run) && forall i | 0 <= i < |run| :: run[i].word.waiters == 0
    ensures Run(true, run)
  {
    hide Step;
    forall i | 0 < i < |run|
      ensures NextAt(true, run, i)
    {
      assert NextAt(false, run, i);
      var a, act :| Step(false, run[i - 1], run[i], a, act);
      QuietStep(run[i - 1], run[i], a, act);
    }
  }

  /** The first step that counts a waiter hands the lock to a second task. */
  lemma ContendedStep(s: State, s': State, a: Tid, act: Action)
    requires Inv(s) && Step(false, s, s', a, act) && s.word.waiters == 0 && s'.word.waiters > 0
    ensures !Exclusive(s')
  {
    assert s.tasks[a].LockCas? && s.word.locked;
    OneTask(s, s', a);
  }

  lemma FirstWaiter(run: seq<State>, k: nat) returns (j: nat)
    requires Run(false, run) && k < |run| && run[k].word.waiters > 0
    ensures 0 < j <= k && run[j].word.waiters > 0 && forall i | 0 <= i < j :: run[i].word.waiters == 0
  {
    j := 0;
    while run[j].word.waiters == 0
      invariant j <= k && forall i | 0 <= i < j :: run[i].word.waiters == 0
      decreases k - j
    {
      j := j + 1;
    }
  }

  lemma PrefixRun(repaired: bool, run: seq<State>, j: nat)
    requires Run(repaired, run) && 0 < j <= |run|
    ensures Run(repaired, run[..j])
  {
    hide Next;
    forall i | 0 < i < j
      ensures NextAt(repaired, run[..j], i)
    {
      assert NextAt(repaired, run, i);
    }
  }

  /** As written, a run keeps mutual exclusion if and only if no task ever counted itself as a waiter: line 34 lets
      every task through whose CAS succeeds, also the one that only announced that it would wait. */
  lemma AsWrittenExclusion(run: seq<State>)
    requires Run(false, run)
    ensures (forall i | 0 <= i < |run| :: Exclusive(run[i])) <==>
            (forall i | 0 <= i < |run| :: run[i].word.waiters == 0)
  {
    hide Inv, Step, Run;
    if forall i | 0 <= i < |run| :: run[i].word.waiters == 0 {
      QuietRun(run);
      forall i | 0 <= i < |run|
        ensures Exclusive(run[i])
      {
        LockedMeansOneHolder(run, i);
      }
    } else {
      var k :| 0 <= k < |run| && run[k].word.waiters > 0;
      var j := FirstWaiter(run, k);
      FirstWaiterBreaks(run, j);
    }
  }

  lemma FirstWaiterBreaks(run: seq<State>, j: nat)
    requires Run(false, run) && 0 < j < |run| && run[j].word.waiters > 0
    requires forall i | 0 <= i < j :: run[i].word.waiters == 0
    ensures !Exclusive(run[j])
  {
    hide Inv, Step, Exclusive;
    PrefixRun(false, run, j);
    QuietRun(run[..j]);
    RunInv(run[..j], j - 1);
    assert NextAt(false, run, j);
    var a, act :| Step(false, run[j - 1], run[j], a, act);
    ContendedStep(run[j - 1], run[j], a, act);
  }

  /** Two tasks that call `lock` one after the other. */
  function TwoCallers(): (r: seq<State>)
    ensures |r| == 7
  {
    var free, held, claimed := Word(false, 0), Word(true, 0), Word(true, 1);
    [State(free, [], map[0 := Idle, 1 := Idle]),
     State(free, [], map[0 := LockLoad(false), 1 := Idle]),
     State(free, [], map[0 := LockCas(free, false), 1 := Idle]),
     State(held, [], map[0 := Holding, 1 := Idle]),
     State(held, [], map[0 := Holding, 1 := LockLoad(false)]),
     State(held, [], map[0 := Holding, 1 := LockCas(held, false)]),
     State(claimed, [], map[0 := Holding, 1 := Holding])]
  }

  lemma TwoHolders()
    ensures Run(false, TwoCallers()) && !Exclusive(TwoCallers()[6])
  {
    var run := TwoCallers();
    assert run[0].tasks == Init({0, 1}).tasks;
    assert |{0, 1}| == 2;
    assert run[0] == Init({0, 1});
    forall i | 0 < i < |run|
      ensures NextAt(false, run, i)
    {
      var a := if i <= 3 then 0 else 1;
      var act := if i == 1 || i == 4 then CallLock else Go;
      assert Step(false, run[i - 1], run[i], a, act);
    }
    assert Team(run[6].tasks, Holder) == {0, 1};
  }

  /** Every run keeps mutual exclusion if and only if line 34 is repaired. */
  lemma RepairIsExact(repaired: bool)
    ensures repaired <==> forall run, i: nat | Run(repaired, run) && i < |run| :: Exclusive(run[i])
  {
    hide Run, TwoCallers;
    if repaired {
      forall run, i: nat | Run(repaired, run) && i < |run|
        ensures Exclusive(run[i])
      {
        LockedMeansOneHolder(run, i);
      }
    } else {
      TwoHolders();
    }
  }
}
