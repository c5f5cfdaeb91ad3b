/**
The sleep/wake handshake that processer/processer.cpp uses between `Start`/`Wait` and `AddTask`/`WakeUp`, and
scheduler/scheduler.cpp between `IOSubmitThread` and `IOSubmit`/`WakeUpIOSubmit`: one consumer, any number of
producers, and threads that steal from the queue at any moment.  One step is one atomic operation of one thread; the
flag is atomic, and a wait on the condition variable releases the lock and falls asleep in one step.
*/
module Handshake {
  type Tid = nat
  type Item = int

  /** `bootClears`: the flag starts out as "waiting" and the consumer clears it when it starts (processer.hpp:37,
      processer.cpp:50).  `popAfterWake`: the woken consumer pops before it leaves the lock (processer.cpp:109).
      `headFirst`: line 184 of lockfree_queue.hpp loads `head` before `tail`.  `recheck`: the consumer pops once more
      after it has set the flag, as the source does (processer.cpp:103, scheduler.cpp:104). */
  datatype Config = Config(bootClears: bool, popAfterWake: bool, headFirst: bool, recheck: bool)

  /** The two places where the repository uses the handshake, with either order of the loads at line 184. */
  function ProcesserWait(headFirst: bool): Config {
    Config(true, true, headFirst, true)
  }

  function SchedulerSubmit(headFirst: bool): Config {
    Config(false, false, headFirst, true)
  }

  /** The consumer.  A pop starts and answers in two steps; `seen` is how many items had been pushed when it started.
                               processer.cpp   scheduler.cpp */
  datatype Consumer =
    | Boot                     // 50
    | Poll                     // 52             100
    | Polling(seen: nat)
    | Lock                     // 101            102
    | Mark                     // 102            103
    | Repoll                   // 103            104
    | Repolling(seen: nat)
    | Unmark(item: Item)       // 105            106
    | Check                    // 108            108: is the flag clear?
    | Asleep                   // 108            108
    | Notified                 // 108            108: awake, to take the lock again
    | Repop                    // 109
    | Repopping(seen: nat)
    | Working(item: Item)      // 59             112

  /** A producer, or a thread that only wakes or only steals. */
  datatype Producer =
    | Idle
    | ReadFlag                 // 72, 81         66: its items are in the queue
    | WantLock                 // 113            79
    | Clear                    // 114-115        80-81
    | Notify                   // 116            82

  datatype Owner = Nobody | TheConsumer | Thread(t: Tid)

  /** Auxiliary: what has become of the items.  No step depends on it, but for what a pop may miss. */
  datatype Books = Books(
    log: seq<Item>,            // all items pushed, in order
    out: seq<Item>,            // all items taken off the queue, in order
    stolen: seq<Item>,
    worked: seq<Item>)         // those the consumer has worked on, in order

  datatype State = State(
    queue: seq<Item>,
    books: Books,
    waiting: bool,
    lock: Owner,
    consumer: Consumer,
    producers: map<Tid, Producer>)

  datatype Action =
    | Consume(empty: bool)     // a step of the consumer; a pop misses items if it may and `empty` says so
    | SpuriousWake
    | Push(t: Tid, item: Item) // AddTask of a list pushes several items before it reads the flag
    | Requeue(item: Item)      // a to-do of the consumer's own (processer.cpp:129-131), which reads no flag
    | WakeOnly(t: Tid)         // Stop calls WakeUp without a push
    | Steal(t: Tid)
    | Produce(t: Tid)

  function Init(cfg: Config, tids: set<Tid>): State {
    State([], Books([], [], [], []), cfg.bootClears, Nobody, if cfg.bootClears then Boot else Poll,
          map t | t in tids :: Idle)
  }

  predicate Enabled(s: State, act: Action) {
    match act
    case Consume(_) => !s.consumer.Asleep? && (s.consumer.Lock? || s.consumer.Notified? ==> s.lock.Nobody?)
    case SpuriousWake => s.consumer.Asleep?
    case Push(t, _) => t in s.producers && (s.producers[t].Idle? || s.producers[t].ReadFlag?)
    case Requeue(_) => s.consumer.Working?
    case WakeOnly(t) => t in s.producers && s.producers[t].Idle?
    case Steal(t) => t in s.producers && s.producers[t].Idle?
    case Produce(t) =>
      && t in s.producers && !s.producers[t].Idle?
      && (s.producers[t].WantLock? ==> s.lock.Nobody?)
  }

  /** A pop answers "empty" when the queue is empty; and, with `tail` loaded first at line 184, also when nothing has
      been removed that had not been removed when it started, that is, when every item in the queue was pushed after
      the pop had started: HandshakeQueue derives this from the queue. */
  predicate Misses(cfg: Config, s: State, seen: nat, empty: bool) {
    s.queue == [] || (!cfg.headFirst && empty && |s.books.log| - |s.queue| == seen)
  }

  function Taken(s: State): State
    requires s.queue != []
  {
    s.(queue := s.queue[1..], books := s.books.(out := s.books.out + [s.queue[0]]))
  }

  function Pushed(s: State, item: Item): State {
    s.(queue := s.queue + [item], books := s.books.(log := s.books.log + [item]))
  }

  function Stolen(s: State): State
    requires s.queue != []
  {
    var s' := Taken(s);
    s'.(books := s'.books.(stolen := s'.books.stolen + [s.queue[0]]))
  }

  function ConsumerStep(cfg: Config, s: State, empty: bool): State {
    match s.consumer
    case Boot => s.(consumer := Poll, waiting := false)
    case Poll => s.(consumer := Polling(|s.books.log|))
    case Polling(seen) =>
      if Misses(cfg, s, seen, empty) then s.(consumer := Lock) else Taken(s).(consumer := Working(s.queue[0]))
    case Lock => s.(consumer := Mark, lock := TheConsumer)
    case Mark => s.(consumer := if cfg.recheck then Repoll else Check, waiting := true)
    case Repoll => s.(consumer := Repolling(|s.books.log|))
    case Repolling(seen) =>
      if Misses(cfg, s, seen, empty) then s.(consumer := Check) else Taken(s).(consumer := Unmark(s.queue[0]))
    case Unmark(item) => s.(consumer := Working(item), waiting := false, lock := Nobody)
    case Check =>
      if s.waiting then s.(consumer := Asleep, lock := Nobody)
      else if cfg.popAfterWake then s.(consumer := Repop)
      else s.(consumer := Poll, lock := Nobody)
    case Asleep => s
    case Notified => s.(consumer := Check, lock := TheConsumer)
    case Repop => s.(consumer := Repopping(|s.books.log|))
    case Repopping(seen) =>
      if Misses(cfg, s, seen, empty) then s.(consumer := Poll, lock := Nobody)
      else Taken(s).(consumer := Working(s.queue[0]), lock := Nobody)
    case Working(item) => s.(consumer := Poll, books := s.books.(worked := s.books.worked + [item]))
  }

  function To(s: State, t: Tid, pc: Producer): State {
    s.(producers := s.producers[t := pc])
  }

  function ProducerStep(s: State, t: Tid): State
    requires t in s.producers
  {
    match s.producers[t]
    case Idle => s
    case ReadFlag => To(s, t, if s.waiting then WantLock else Idle)
    case WantLock => To(s, t, Clear).(lock := Thread(t))
    case Clear => if s.waiting then To(s, t, Notify).(waiting := false) else To(s, t, Idle).(lock := Nobody)
    case Notify =>
      To(s, t, Idle).(lock := Nobody, consumer := if s.consumer.Asleep? then Notified else s.consumer)
  }

  function Apply(cfg: Config, s: State, act: Action): State
    requires Enabled(s, act)
  {
    match act
    case Consume(empty) => ConsumerStep(cfg, s, empty)
    case SpuriousWake => s.(consumer := Notified)
    case Push(t, item) => To(Pushed(s, item), t, ReadFlag)
    case Requeue(item) => Pushed(s, item)
    case WakeOnly(t) => To(s, t, WantLock)
    case Steal(t) => if s.queue == [] then s else Stolen(s)
    case Produce(t) => ProducerStep(s, t)
  }

  predicate Step(cfg: Config, s: State, s': State, act: Action) {
    Enabled(s, act) && s' == Apply(cfg, s, act)
  }

  ghost predicate Next(cfg: Config, s: State, s': State) {
    exists act :: Step(cfg, s, s', act)
  }

  ghost predicate NextAt(cfg: Config, run: seq<State>, i: int) {
    0 < i < |run| && Next(cfg, run[i - 1], run[i])
  }

  ghost predicate Run(cfg: Config, run: seq<State>) {
    && 0 < |run|
    && (exists tids :: run[0] == Init(cfg, tids))
    && forall i | 0 < i < |run| :: NextAt(cfg, run, i)
  }

  // ----- The invariant

  /** The consumer has popped in vain under the lock and has not yet seen its flag cleared. */
  predicate Committed(c: Consumer) {
    c.Check? || c.Asleep? || c.Notified?
  }

  predicate ConsumerOwns(c: Consumer) {
    || c.Mark? || c.Repoll? || c.Repolling? || c.Unmark? || c.Check? || c.Repop? || c.Repopping?
  }

  predicate Owns(p: Producer) {
    p.Clear? || p.Notify?
  }

  /** Between its push and the clearing of the flag. */
  predicate Arriving(p: Producer) {
    p.ReadFlag? || p.WantLock? || p.Clear?
  }

  ghost predicate Someone(s: State, p: Producer -> bool) {
    exists t :: t in s.producers && p(s.producers[t])
  }

  /** The lock is owned by whoever is between taking and leaving it. */
  ghost predicate Locked(s: State) {
    && (s.lock.TheConsumer? <==> ConsumerOwns(s.consumer))
    && (forall t | t in s.producers :: Owns(s.producers[t]) <==> s.lock == Thread(t))
    && (s.lock.Thread? ==> s.lock.t in s.producers)
  }

  predicate Rechecking(c: Consumer) {
    c.Repoll? || c.Repolling?
  }

  /** Only a consumer about to sleep, or not yet started, is marked as waiting. */
  predicate Marked(s: State) {
    && (s.waiting ==> Committed(s.consumer) || s.consumer.Boot? || Rechecking(s.consumer) || s.consumer.Unmark?)
    && (Rechecking(s.consumer) ==> s.waiting)
  }

  ghost predicate Arrivals(s: State) {
    Committed(s.consumer) && s.waiting && s.queue != [] ==> Someone(s, Arriving)
  }

  /** Whoever has pushed since the second pop started finds the flag set, and cannot clear it before the consumer
      leaves the lock. */
  ghost predicate Newcomers(s: State) {
    && |s.queue| <= |s.books.log|
    && (s.consumer.Repolling? ==>
          s.consumer.seen <= |s.books.log| && (s.consumer.seen < |s.books.log| ==> Someone(s, Arriving)))
  }

  ghost predicate Notices(s: State) {
    s.consumer.Asleep? && !s.waiting ==> Someone(s, (p: Producer) => p.Notify?)
  }

  /** Who is about to notify has cleared the flag, and nobody can have set it again. */
  predicate Cleared(s: State) {
    forall t | t in s.producers && s.producers[t].Notify? :: !s.waiting
  }

  ghost predicate Inv(s: State) {
    Locked(s) && Marked(s) && Arrivals(s) && Newcomers(s) && Notices(s) && Cleared(s)
  }

  predicate Answering(c: Consumer) {
    c.Polling? || c.Repolling? || c.Repopping?
  }

  lemma PopInv(cfg: Config, s: State, empty: bool)
    requires Inv(s) && Enabled(s, Consume(empty)) && Answering(s.consumer)
    ensures Inv(ConsumerStep(cfg, s, empty))
  {
  }

  lemma ConsumerInv(cfg: Config, s: State, empty: bool)
    requires cfg.recheck && Inv(s) && Enabled(s, Consume(empty))
    ensures Inv(ConsumerStep(cfg, s, empty))
  {
    if Answering(s.consumer) {
      PopInv(cfg, s, empty);
    } else {
      hide Misses;
    }
  }

  lemma ProducerInv(s: State, t: Tid)
    requires Inv(s) && Enabled(s, Produce(t))
    ensures Inv(ProducerStep(s, t))
  {
  }

  /** Every step of every thread keeps the invariant. */
  lemma StepInv(cfg: Config, s: State, s': State, act: Action)
    requires cfg.recheck && Inv(s) && Step(cfg, s, s', act)
    ensures Inv(s')
  {
    match act
    case Consume(empty) => ConsumerInv(cfg, s, empty);
    case Produce(t) => ProducerInv(s, t);
    case Push(t, item) => assert Arriving(s'.producers[t]);
    case _ =>
  }

  lemma {:induction false} RunInv(cfg: Config, run: seq<State>, i: nat)
    requires cfg.recheck && Run(cfg, run) && i < |run|
    ensures Inv(run[i])
  {
    hide Inv, Step;
    if i == 0 {
      var tids :| run[0] == Init(cfg, tids);
      InitInv(cfg, tids);
    } else {
      RunInv(cfg, run, i - 1);
      assert NextAt(cfg, run, i);
      var act :| Step(cfg, run[i - 1], run[i], act);
      StepInv(cfg, run[i - 1], run[i], act);
    }
  }

  lemma InitInv(cfg: Config, tids: set<Tid>)
    ensures Inv(Init(cfg, tids))
  {
  }

  // ----- No wakeup is lost

  /** Between its push and the end of its wake call. */
  predicate OnItsWay(p: Producer) {
    !p.Idle?
  }

  /** The consumer sleeps on work that nobody is going to wake it for. */
  ghost predicate Lost(s: State) {
    s.consumer.Asleep? && s.queue != [] && !Someone(s, OnItsWay)
  }

  lemma Weaker(s: State, p: Producer -> bool, q: Producer -> bool)
    requires Someone(s, p) && forall pc | p(pc) :: q(pc)
    ensures Someone(s, q)
  {
    var t :| t in s.producers && p(s.producers[t]);
    assert q(s.producers[t]);
  }

  /** No lost wakeup, in any run, with either order of the loads at line 184, and with any producers, stealers and
      spurious wakeups: if the consumer sleeps while the queue holds an item, then some producer is between its push
      and the end of its wake call; and while the flag still says "waiting" it has yet to clear the flag. */
  lemma NoLostWakeup(cfg: Config, run: seq<State>, i: nat)
    requires cfg.recheck && Run(cfg, run) && i < |run|
    requires run[i].consumer.Asleep? && run[i].queue != []
    ensures Someone(run[i], OnItsWay)
    ensures run[i].waiting ==> Someone(run[i], Arriving)
  {
    hide Run;
    RunInv(cfg, run, i);
    if run[i].waiting {
      Weaker(run[i], Arriving, OnItsWay);
    } else {
      Weaker(run[i], (p: Producer) => p.Notify?, OnItsWay);
    }
  }

  /** t is on its way to wake the consumer, and has yet to clear the flag if it is set; and u, which is t itself or the
      thread that has the lock t waits for, can take its next step. */
  predicate OpenPath(s: State, t: Tid, u: Tid) {
    && t in s.producers && (if s.waiting then Arriving(s.producers[t]) else s.producers[t].Notify?)
    && (u == t || (s.producers[t].WantLock? && s.lock == Thread(u)))
    && Enabled(s, Produce(u))
  }

  /** That producer is not blocked: it, or the thread that has the lock it waits for, can take its next step. */
  lemma WakePathIsOpen(cfg: Config, run: seq<State>, i: nat)
    requires cfg.recheck && Run(cfg, run) && i < |run|
    requires run[i].consumer.Asleep? && run[i].queue != []
    ensures exists t, u :: OpenPath(run[i], t, u)
  {
    hide Run;
    RunInv(cfg, run, i);
    var s := run[i];
    if s.waiting {
      var t :| t in s.producers && Arriving(s.producers[t]);
      assert OpenPath(s, t, if s.producers[t].WantLock? && s.lock.Thread? then s.lock.t else t);
    } else {
      var t :| t in s.producers && s.producers[t].Notify?;
      assert OpenPath(s, t, t);
    }
  }

  /** A consumer that is at work, or looking for work, is never marked as waiting, so producers leave its lock alone. */
  lemma BusyIsNotMarked(cfg: Config, run: seq<State>, i: nat)
    requires cfg.recheck && Run(cfg, run) && i < |run|
    requires run[i].consumer.Working? || run[i].consumer.Poll? || run[i].consumer.Polling? || run[i].consumer.Lock?
             || run[i].consumer.Repop? || run[i].consumer.Repopping?
    ensures !run[i].waiting
  {
    hide Run;
    RunInv(cfg, run, i);
  }

  /** A processer never sleeps on a runnable task, and the submit thread never sleeps on a request, that nobody is
      about to wake it for: as written, with either order of the loads at line 184. */
  lemma BothUses(cfg: Config, headFirst: bool, run: seq<State>, i: nat)
    requires cfg == ProcesserWait(headFirst) || cfg == SchedulerSubmit(headFirst)
    requires Run(cfg, run) && i < |run|
    ensures !Lost(run[i])
  {
    hide Run;
    NotLost(cfg, run, i);
  }

  lemma NotLost(cfg: Config, run: seq<State>, i: nat)
    requires cfg.recheck && Run(cfg, run) && i < |run|
    ensures !Lost(run[i])
  {
    hide Run;
    if run[i].consumer.Asleep? && run[i].queue != [] {
      NoLostWakeup(cfg, run, i);
    }
  }

  // ----- What becomes of the items

  /** What the consumer has popped and not yet worked off. */
  function InHand(c: Consumer): seq<Item> {
    match c
    case Unmark(item) => [item]
    case Working(item) => [item]
    case _ => []
  }

  /** The items leave the queue in the order in which they came; and each that has left it has been stolen, or worked
      on, or is in the consumer's hand, each once. */
  predicate Conserved(s: State) {
    && s.books.log == s.books.out + s.queue
    && multiset(s.books.out) == multiset(s.books.stolen) + multiset(s.books.worked) + multiset(InHand(s.consumer))
  }

  /** An item goes from the queue to where `b` and the hand say. */
  lemma TakenConserves(s: State, s': State)
    requires Conserved(s) && s.queue != [] && s'.queue == s.queue[1..]
    requires s'.books.log == s.books.log && s'.books.out == s.books.out + [s.queue[0]]
    requires multiset(s'.books.stolen) + multiset(s'.books.worked) + multiset(InHand(s'.consumer)) ==
             multiset(s.books.stolen) + multiset(s.books.worked) + multiset(InHand(s.consumer)) + multiset{s.queue[0]}
    ensures Conserved(s')
  {
    assert s.queue == [s.queue[0]] + s.queue[1..];
    assert multiset(s'.books.out) == multiset(s.books.out) + multiset{s.queue[0]};
  }

  lemma PopConserves(cfg: Config, s: State, empty: bool)
    requires Conserved(s) && Answering(s.consumer)
    ensures Conserved(ConsumerStep(cfg, s, empty))
  {
    var s' := ConsumerStep(cfg, s, empty);
    if !Misses(cfg, s, s.consumer.seen, empty) { TakenConserves(s, s'); }
    hide Misses;
  }

  lemma NothingMoves(s: State, s': State)
    requires Conserved(s) && s'.queue == s.queue && s'.books == s.books && InHand(s'.consumer) == InHand(s.consumer)
    ensures Conserved(s')
  {
  }

  lemma WorkConserves(s: State, s': State, item: Item)
    requires Conserved(s) && InHand(s.consumer) == [item] && InHand(s'.consumer) == []
    requires s'.queue == s.queue && s'.books == s.books.(worked := s.books.worked + [item])
    ensures Conserved(s')
  {
    assert multiset(s.books.worked + [item]) == multiset(s.books.worked) + multiset{item};
  }

  lemma ConsumerConserves(cfg: Config, s: State, empty: bool)
    requires Conserved(s) && !Answering(s.consumer)
    ensures Conserved(ConsumerStep(cfg, s, empty))
  {
    hide Misses, Conserved;
    if s.consumer.Working? {
      WorkConserves(s, ConsumerStep(cfg, s, empty), s.consumer.item);
    } else {
      NothingMoves(s, ConsumerStep(cfg, s, empty));
    }
  }

  lemma StealConserves(s: State)
    requires Conserved(s) && s.queue != []
    ensures Conserved(Stolen(s))
  {
    assert multiset(s.books.stolen + [s.queue[0]]) == multiset(s.books.stolen) + multiset{s.queue[0]};
    TakenConserves(s, Stolen(s));
  }

  lemma PushConserves(s: State, item: Item, s': State)
    requires Conserved(s) && InHand(s'.consumer) == InHand(s.consumer)
    requires s'.queue == s.queue + [item] && s'.books == s.books.(log := s.books.log + [item])
    ensures Conserved(s')
  {
  }

  lemma StepConserves(cfg: Config, s: State, s': State, act: Action)
    requires Conserved(s) && Step(cfg, s, s', act)
    ensures Conserved(s')
  {
    hide Conserved, ConsumerStep, Stolen;
    match act
    case Consume(empty) =>
      if Answering(s.consumer) { PopConserves(cfg, s, empty); } else { ConsumerConserves(cfg, s, empty); }
    case Steal(_) => if s.queue != [] { StealConserves(s); } else { NothingMoves(s, s'); }
    case Push(_, item) => PushConserves(s, item, s');
    case Requeue(item) => PushConserves(s, item, s');
    case _ => NothingMoves(s, s');
  }

  /** Conservation over every run: the items pushed, in order, are those that have left the queue followed by those in
      it; and those that have left it have been stolen or worked on or are in the consumer's hand, each once.  So no
      item that the consumer pops goes without being worked on. */
  lemma {:induction false} ItemsAreConserved(cfg: Config, run: seq<State>, i: nat)
    requires Run(cfg, run) && i < |run|
    ensures Conserved(run[i])
  {
    hide Step, Conserved;
    if i == 0 {
      NoItemsYet(cfg, run);
    } else {
      ItemsAreConserved(cfg, run, i - 1);
      assert NextAt(cfg, run, i);
      var act :| Step(cfg, run[i - 1], run[i], act);
      StepConserves(cfg, run[i - 1], run[i], act);
    }
  }

  lemma NoItemsYet(cfg: Config, run: seq<State>)
    requires Run(cfg, run)
    ensures Conserved(run[0])
  {
  }

  // ----- A consumer that is not asleep works on the next item, and one that is asleep is woken

  /** Whatever its pops miss that they may miss, a consumer that runs alone is working on the item after at most n
      steps, all of which it can take. */
  predicate Works(cfg: Config, s: State, item: Item, n: nat)
    decreases n
  {
    || s.consumer == Working(item)
    || (n > 0 && forall empty: bool ::
          Enabled(s, Consume(empty)) && Works(cfg, ConsumerStep(cfg, s, empty), item, n - 1))
  }

  lemma OneStep(cfg: Config, s: State, item: Item, n: nat)
    requires n > 0 && forall empty: bool ::
               Enabled(s, Consume(empty)) && Works(cfg, ConsumerStep(cfg, s, empty), item, n - 1)
    ensures Works(cfg, s, item, n)
  {
  }

  lemma {:induction false} WorksLonger(cfg: Config, s: State, item: Item, m: nat, n: nat)
    requires Works(cfg, s, item, m) && m <= n
    ensures Works(cfg, s, item, n)
    decreases m
  {
    if m > 0 && s.consumer != Working(item) {
      forall empty: bool
        ensures Enabled(s, Consume(empty)) && Works(cfg, ConsumerStep(cfg, s, empty), item, n - 1)
      {
        WorksLonger(cfg, ConsumerStep(cfg, s, empty), item, m - 1, n - 1);
      }
    }
  }

  /** A pop that started now or later cannot miss what is in the queue now. */
  predicate Sharp(s: State, seen: nat) {
    |s.books.log| < seen + |s.queue|
  }

  /** The consumer is going to look at the queue before it sleeps. */
  predicate Looking(s: State) {
    match s.consumer
    case Asleep => false
    case Check => !s.waiting
    case Notified => !s.waiting
    case Repolling(seen) => Sharp(s, seen)
    case _ => true
  }

  function Distance(s: State): nat {
    match s.consumer
    case Poll => 2
    case Polling(seen) => if Sharp(s, seen) then 1 else 6
    case Lock => 5
    case Mark => 4
    case Repoll => 3
    case Repolling(_) => 2
    case Repop => 2
    case Repopping(seen) => if Sharp(s, seen) then 1 else 3
    case Boot => 3
    case Working(_) => 3
    case Check => 3
    case Unmark(_) => 4
    case Notified => 4
    case Asleep => 0
  }

  predicate LockIsThere(s: State) {
    s.lock == if ConsumerOwns(s.consumer) then TheConsumer else Nobody
  }

  /** Having popped the item, under the lock or not. */
  lemma HandWorks(cfg: Config, s: State, item: Item)
    requires s.consumer == Unmark(item)
    ensures Works(cfg, s, item, 1)
  {
  }

  lemma PopWorks(cfg: Config, s: State, empty: bool)
    requires s.queue != [] && Answering(s.consumer) && Sharp(s, s.consumer.seen)
    ensures var s' := ConsumerStep(cfg, s, empty);
            s'.consumer == (if s.consumer.Repolling? then Unmark(s.queue[0]) else Working(s.queue[0]))
  {
  }

  /** A step that takes no item brings the consumer closer to the first. */
  lemma StepLooks(cfg: Config, s: State, empty: bool)
    requires cfg.recheck && s.queue != [] && Looking(s) && LockIsThere(s)
    requires !(Answering(s.consumer) && Sharp(s, s.consumer.seen))
    ensures Enabled(s, Consume(empty))
    ensures var s' := ConsumerStep(cfg, s, empty);
            || s'.consumer == Working(s.queue[0])
            || (s'.queue == s.queue && Looking(s') && LockIsThere(s') && Distance(s') < Distance(s))
  {
  }

  lemma {:induction false} LookerWorks(cfg: Config, s: State)
    requires cfg.recheck && s.queue != [] && Looking(s) && LockIsThere(s)
    ensures Works(cfg, s, s.queue[0], Distance(s))
    decreases Distance(s)
  {
    var item, n := s.queue[0], Distance(s);
    forall empty: bool
      ensures Enabled(s, Consume(empty)) && Works(cfg, ConsumerStep(cfg, s, empty), item, n - 1)
    {
      var s' := ConsumerStep(cfg, s, empty);
      if Answering(s.consumer) && Sharp(s, s.consumer.seen) {
        PopWorks(cfg, s, empty);
        if s.consumer.Repolling? { HandWorks(cfg, s', item); }
      } else {
        StepLooks(cfg, s, empty);
        if s'.consumer != Working(item) {
          LookerWorks(cfg, s');
          WorksLonger(cfg, s', item, Distance(s'), n - 1);
        }
      }
    }
    OneStep(cfg, s, item, n);
  }

  /** A consumer that is going to look at the queue before it sleeps, and runs alone with nobody else in its lock, is
      working on the first item in the queue after at most six steps, with either order of the loads at line 184. */
  lemma ConsumerWorks(cfg: Config, run: seq<State>, i: nat)
    requires cfg.recheck && Run(cfg, run) && i < |run| && run[i].queue != [] && Looking(run[i]) && !run[i].lock.Thread?
    ensures Works(cfg, run[i], run[i].queue[0], 6)
  {
    hide Run, Works;
    RunInv(cfg, run, i);
    LookerWorks(cfg, run[i]);
    WorksLonger(cfg, run[i], run[i].queue[0], Distance(run[i]), 6);
  }

  /** After at most m steps of producers, the consumer alone is working on the item within n. */
  ghost predicate Served(cfg: Config, s: State, item: Item, m: nat, n: nat)
    decreases m
  {
    || Works(cfg, s, item, n)
    || (m > 0 && exists t :: Enabled(s, Produce(t)) && Served(cfg, ProducerStep(s, t), item, m - 1, n))
  }

  lemma ServedLater(cfg: Config, s: State, t: Tid, item: Item, m: nat, n: nat)
    requires Enabled(s, Produce(t)) && Served(cfg, ProducerStep(s, t), item, m, n)
    ensures Served(cfg, s, item, m + 1, n)
  {
  }

  lemma NotifyServes(cfg: Config, s: State, t: Tid)
    requires cfg.recheck && s.queue != [] && s.consumer.Asleep? && !s.waiting
    requires t in s.producers && s.producers[t].Notify?
    ensures Served(cfg, s, s.queue[0], 1, 6)
  {
    var s' := ProducerStep(s, t);
    LookerWorks(cfg, s');
    WorksLonger(cfg, s', s.queue[0], Distance(s'), 6);
    hide Works;
    assert Served(cfg, s', s.queue[0], 0, 6);
    ServedLater(cfg, s, t, s.queue[0], 0, 6);
  }

  lemma ClearServes(cfg: Config, s: State, t: Tid)
    requires cfg.recheck && s.queue != [] && s.consumer.Asleep? && s.waiting
    requires t in s.producers && s.producers[t].Clear?
    ensures Served(cfg, s, s.queue[0], 2, 6)
  {
    hide Works, Served;
    NotifyServes(cfg, ProducerStep(s, t), t);
    ServedLater(cfg, s, t, s.queue[0], 1, 6);
  }

  lemma ArrivalServes(cfg: Config, s: State, t: Tid) returns (m: nat)
    requires cfg.recheck && s.queue != [] && s.consumer.Asleep? && s.waiting && s.lock.Nobody?
    requires t in s.producers && (s.producers[t].ReadFlag? || s.producers[t].WantLock?)
    ensures m <= 4 && Served(cfg, s, s.queue[0], m, 6)
  {
    hide Works, Served;
    var s' := ProducerStep(s, t);
    if s.producers[t].WantLock? {
      ClearServes(cfg, s', t);
      ServedLater(cfg, s, t, s.queue[0], 2, 6);
      return 3;
    }
    var s'' := ProducerStep(s', t);
    ClearServes(cfg, s'', t);
    ServedLater(cfg, s', t, s.queue[0], 2, 6);
    ServedLater(cfg, s, t, s.queue[0], 3, 6);
    return 4;
  }

  /** A consumer that sleeps while the queue holds an item is woken and works on the first: at most four steps of
      producers on their way suffice, and then six of its own. */
  lemma SleeperIsServed(cfg: Config, run: seq<State>, i: nat) returns (m: nat)
    requires cfg.recheck && Run(cfg, run) && i < |run| && run[i].consumer.Asleep? && run[i].queue != []
    ensures m <= 4 && Served(cfg, run[i], run[i].queue[0], m, 6)
  {
    hide Run, Works, Served;
    RunInv(cfg, run, i);
    var s := run[i];
    if !s.waiting {
      var t :| t in s.producers && s.producers[t].Notify?;
      NotifyServes(cfg, s, t);
      return 1;
    } else if s.lock.Thread? {
      ClearServes(cfg, s, s.lock.t);
      return 2;
    }
    var t :| t in s.producers && Arriving(s.producers[t]);
    m := ArrivalServes(cfg, s, t);
  }

  // ----- What the second pop is for

  function Sleeper(queue: seq<Item>, waiting: bool, lock: Owner, consumer: Consumer, producer: Producer): State {
    State(queue, Books(queue, [], [], []), waiting, lock, consumer, map[0 := producer])
  }

  /** An item is pushed between the consumer's pop and its setting of the flag. */
  function Oversleeping(): (r: seq<State>)
    ensures |r| == 8
  {
    [Sleeper([], false, Nobody, Poll, Idle), Sleeper([], false, Nobody, Polling(0), Idle),
     Sleeper([], false, Nobody, Lock, Idle), Sleeper([7], false, Nobody, Lock, ReadFlag),
     Sleeper([7], false, Nobody, Lock, Idle), Sleeper([7], false, TheConsumer, Mark, Idle),
     Sleeper([7], true, TheConsumer, Check, Idle), Sleeper([7], true, Nobody, Asleep, Idle)]
  }

  lemma OversleepingSteps(cfg: Config, i: nat)
    requires !cfg.recheck && 0 < i < 8
    ensures Next(cfg, Oversleeping()[i - 1], Oversleeping()[i])
  {
    var act := if i == 3 then Push(0, 7) else if i == 4 then Produce(0) else Consume(false);
    assert Step(cfg, Oversleeping()[i - 1], Oversleeping()[i], act);
  }

  lemma Oversleeps(cfg: Config) returns (run: seq<State>)
    requires !cfg.recheck
    ensures |run| > 0 && Run(cfg, run) && Lost(run[|run| - 1])
  {
    hide Next;
    run := (if cfg.bootClears then [Init(cfg, {0})] else []) + Oversleeping();
    var skip := |run| - 8;
    assert run[0] == Init(cfg, {0});
    forall i | 0 < i < |run|
      ensures NextAt(cfg, run, i)
    {
      if i == skip { Boots(cfg); } else { OversleepingSteps(cfg, i - skip); }
    }
  }

  lemma Boots(cfg: Config)
    requires cfg.bootClears
    ensures Next(cfg, Init(cfg, {0}), Oversleeping()[0])
  {
    assert Step(cfg, Init(cfg, {0}), Oversleeping()[0], Consume(true));
  }

  /** In either use of the handshake and with either order of the loads, no wakeup is lost in any run if and only if
      the consumer pops again after it has set the flag. */
  lemma RecheckIsNeeded(cfg: Config)
    ensures cfg.recheck <==> forall run, i: nat | Run(cfg, run) && i < |run| :: !Lost(run[i])
  {
    hide Run, Lost;
    if cfg.recheck {
      forall run, i: nat | Run(cfg, run) && i < |run|
        ensures !Lost(run[i])
      {
        NotLost(cfg, run, i);
      }
    } else {
      var run := Oversleeps(cfg);
      assert !(!Lost(run[|run| - 1]));
    }
  }
}
