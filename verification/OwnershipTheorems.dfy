/**
What the invariant means for every run: no task is lost, doubled or run twice, and nothing is published before its
context is saved.
*/
module OwnershipTheorems {
  import opened Options
  import opened OwnershipModel
  import opened OwnershipInvariant
  import opened OwnershipTurns
  import opened OwnershipSteps

  // ----- Theorems: these do not mention `loc`

  /** In every run no two places hold a task and no place holds it twice, so none is queued or run twice; and if the
      status is restored some place holds it, so none is lost. */
  lemma OnePlace(restores: bool, run: seq<State>, i: nat, t: Task)
    requires Run(restores, run) && i < |run| && t in run[i].tasks
    ensures restores ==> exists pl :: t in Held(run[i], pl)
    ensures forall pl, pl' | t in Held(run[i], pl) && t in Held(run[i], pl') :: pl == pl'
    ensures forall pl, j, k | 0 <= j < k < |Held(run[i], pl)| :: !(Held(run[i], pl)[j] == Held(run[i], pl)[k] == t)
  {
    hide Held, Run;
    RunInv(restores, run, i);
    Parts(run[i]);
    assert restores ==> t in Held(run[i], run[i].loc[t]);
    forall pl, j, k | 0 <= j < k < |Held(run[i], pl)|
      ensures Held(run[i], pl)[j] != Held(run[i], pl)[k]
    {
      assert Distinct(Held(run[i], pl));
    }
  }

  /** No task runs on two processers. */
  lemma NoTaskRunsTwice(restores: bool, run: seq<State>, i: nat, p: Pid, q: Pid)
    requires Run(restores, run) && i < |run| && p in run[i].procs && q in run[i].procs && p != q
    ensures run[i].procs[p].stack.On? ==> run[i].procs[q].stack != run[i].procs[p].stack
  {
    hide Inv, Run;
    RunInv(restores, run, i);
    Parts(run[i]);
    if run[i].procs[p].stack.On? { OneCpu(run[i], p, q, run[i].procs[p].stack.t); }
  }

  /** Deferred publication: a task that any queue, wait queue, ring, pool, batch or hand holds has its context saved,
      and no thread is executing on its stack. */
  lemma PublishedIsSaved(restores: bool, run: seq<State>, i: nat, pl: Place, t: Task)
    requires Run(restores, run) && i < |run| && t in Held(run[i], pl) && !pl.Cpu?
    ensures t in run[i].tasks && run[i].tasks[t].saved
    ensures forall q | q in run[i].procs :: run[i].procs[q].stack != On(t)
  {
    hide Inv, Run, Housed, Held;
    RunInv(restores, run, i);
    Parts(run[i]);
    ElsewhereThanCpu(run[i], pl, t);
  }

  /** Whoever switches to a task loads a saved context that nobody else is executing on, or about to load. */
  lemma SwitchIsSafe(restores: bool, run: seq<State>, i: nat, p: Pid)
    requires Run(restores, run) && i < |run| && p in run[i].procs
    requires run[i].procs[p].pc.MainSwap? || run[i].procs[p].pc.YieldSwap?
    ensures run[i].procs[p].running.Some?
    ensures var t := run[i].procs[p].running.value;
            && t in run[i].tasks && run[i].tasks[t].saved
            && forall q | q in run[i].procs && q != p ::
                 run[i].procs[q].stack != On(t) && run[i].procs[q].running != Some(t)
  {
    hide Inv, Run, Housed;
    var s := run[i];
    RunInv(restores, run, i);
    AtProc(s, p);
    var t := s.procs[p].running.value;
    assert t in Held(s, Slot(p));
    PublishedIsSaved(restores, run, i, Slot(p), t);
    forall q | q in s.procs && q != p
      ensures s.procs[q].stack != On(t) && s.procs[q].running != Some(t)
    {
      InPlace(s, Slot(p), t);
      InPlace(s, Slot(q), t);
    }
  }

  /** A channel operation that holds the mutex wakes only a task that has gone to sleep, because a parking task keeps
      the mutex until its to-do releases it. */
  lemma ChannelWakesSleepers(restores: bool, run: seq<State>, i: nat, p: Pid, c: ChanId, j: nat)
    requires Run(restores, run) && i < |run| && UserAt(run[i], p) && ChanAt(run[i], c).lock == Some(Me(run[i], p))
    requires j < |ChanAt(run[i], c).parked|
    ensures var t := ChanAt(run[i], c).parked[j];
            && t in run[i].tasks && run[i].tasks[t].saved
            && forall q | q in run[i].procs :: run[i].procs[q].stack != On(t)
  {
    hide Inv, Run, Housed;
    RunInv(restores, run, i);
    NotOpen(run[i], p, c);
    PublishedIsSaved(restores, run, i, ChanQ(c), ChanAt(run[i], c).parked[j]);
  }

  /** No task code runs, and no scheduling decision is made, before the to-dos of the last switch have been run. */
  lemma ToDosComeFirst(restores: bool, run: seq<State>, i: nat, p: Pid)
    requires Run(restores, run) && i < |run| && p in run[i].procs
    ensures run[i].procs[p].pc.User? || run[i].procs[p].pc.MainTop? ==> run[i].procs[p].todos == []
    ensures |run[i].procs[p].todos| <= 1
  {
    hide Inv, Run, Housed;
    RunInv(restores, run, i);
    AtProc(run[i], p);
  }

  // ----- The status of a woken task

  /** One processer and one task, as written. */
  function AsWritten(pc: Pc, stack: Stack, running: Option<Task>, todos: seq<ToDo>, bags: map<Bag, seq<Task>>,
                     status: Status, saved: bool, loc: Place): State {
    State(map[0 := Proc(pc, stack, running, todos)], bags, map[], map[0 := TaskState(status, saved)], false,
          map[0 := loc])
  }

  lemma OneKey<V>(a: V, b: V)
    ensures map[0 := a][0 := b] == map[0 := b]
  {
  }

  lemma Popped(bags: map<Bag, seq<Task>>, status: Status)
    requires RunQ(0) in bags && bags[RunQ(0)] == [0]
    ensures Next(AsWritten(MainTop, Main, None, [], bags, status, true, In(RunQ(0))),
                 AsWritten(MainSwap, Main, Some(0), [], bags[RunQ(0) := []], status, true, Slot(0)))
  {
    var s, s' := AsWritten(MainTop, Main, None, [], bags, status, true, In(RunQ(0))),
                 AsWritten(MainSwap, Main, Some(0), [], bags[RunQ(0) := []], status, true, Slot(0));
    OneKey(s.procs[0], s'.procs[0]);
    OneKey(s.tasks[0], s'.tasks[0]);
    OneKey(s.loc[0], s'.loc[0]);
    assert bags[RunQ(0)][..0] + bags[RunQ(0)][1..] == [];
    assert Step(s, s', Turn(0));
  }

  lemma SwappedIn(bags: map<Bag, seq<Task>>, status: Status)
    ensures Next(AsWritten(MainSwap, Main, Some(0), [], bags, status, true, Slot(0)),
                 AsWritten(Drain, On(0), Some(0), [], bags, status, false, Cpu(0)))
  {
    var s, s' := AsWritten(MainSwap, Main, Some(0), [], bags, status, true, Slot(0)),
                 AsWritten(Drain, On(0), Some(0), [], bags, status, false, Cpu(0));
    OneKey(s.procs[0], s'.procs[0]);
    OneKey(s.tasks[0], s'.tasks[0]);
    OneKey(s.loc[0], s'.loc[0]);
    assert Step(s, s', Turn(0));
  }

  lemma Entered(bags: map<Bag, seq<Task>>, status: Status)
    ensures Next(AsWritten(Drain, On(0), Some(0), [], bags, status, false, Cpu(0)),
                 AsWritten(User, On(0), Some(0), [], bags, status, false, Cpu(0)))
  {
    var s, s' := AsWritten(Drain, On(0), Some(0), [], bags, status, false, Cpu(0)),
                 AsWritten(User, On(0), Some(0), [], bags, status, false, Cpu(0));
    OneKey(s.procs[0], s'.procs[0]);
    OneKey(s.tasks[0], s'.tasks[0]);
    OneKey(s.loc[0], s'.loc[0]);
    assert Step(s, s', Turn(0));
  }

  lemma Waits(bags: map<Bag, seq<Task>>)
    ensures Next(AsWritten(User, On(0), Some(0), [], bags, Runnable, false, Cpu(0)),
                 AsWritten(YieldTop, On(0), Some(0), [JoinMutex(0, 0)], bags, Block, false, Cpu(0)))
  {
    var s, s' := AsWritten(User, On(0), Some(0), [], bags, Runnable, false, Cpu(0)),
                 AsWritten(YieldTop, On(0), Some(0), [JoinMutex(0, 0)], bags, Block, false, Cpu(0));
    OneKey(s.procs[0], s'.procs[0]);
    OneKey(s.tasks[0], s'.tasks[0]);
    OneKey(s.loc[0], s'.loc[0]);
    assert [] + [JoinMutex(0, 0)] == [JoinMutex(0, 0)];
    assert Step(s, s', UserLock(0, 0));
  }

  lemma Yields(bags: map<Bag, seq<Task>>)
    ensures Next(AsWritten(User, On(0), Some(0), [], bags, Block, false, Cpu(0)),
                 AsWritten(YieldTop, On(0), Some(0), [], bags, Block, false, Cpu(0)))
  {
    var s, s' := AsWritten(User, On(0), Some(0), [], bags, Block, false, Cpu(0)),
                 AsWritten(YieldTop, On(0), Some(0), [], bags, Block, false, Cpu(0));
    OneKey(s.procs[0], s'.procs[0]);
    OneKey(s.tasks[0], s'.tasks[0]);
    OneKey(s.loc[0], s'.loc[0]);
    assert Step(s, s', UserYield(0));
  }

  lemma Released(bags: map<Bag, seq<Task>>, todos: seq<ToDo>)
    ensures Next(AsWritten(YieldTop, On(0), Some(0), todos, bags, Block, false, Cpu(0)),
                 AsWritten(YieldPop(0), On(0), None, todos, bags, Block, false, Cpu(0)))
  {
    var s, s' := AsWritten(YieldTop, On(0), Some(0), todos, bags, Block, false, Cpu(0)),
                 AsWritten(YieldPop(0), On(0), None, todos, bags, Block, false, Cpu(0));
    OneKey(s.procs[0], s'.procs[0]);
    OneKey(s.tasks[0], s'.tasks[0]);
    OneKey(s.loc[0], s'.loc[0]);
    assert todos + [] == todos;
    assert Step(s, s', Turn(0));
  }

  lemma FoundNone(bags: map<Bag, seq<Task>>, todos: seq<ToDo>)
    requires RunQ(0) in bags && bags[RunQ(0)] == []
    ensures Next(AsWritten(YieldPop(0), On(0), None, todos, bags, Block, false, Cpu(0)),
                 AsWritten(YieldOut(0), On(0), None, todos, bags, Block, false, Cpu(0)))
  {
    var s, s' := AsWritten(YieldPop(0), On(0), None, todos, bags, Block, false, Cpu(0)),
                 AsWritten(YieldOut(0), On(0), None, todos, bags, Block, false, Cpu(0));
    OneKey(s.procs[0], s'.procs[0]);
    OneKey(s.tasks[0], s'.tasks[0]);
    OneKey(s.loc[0], s'.loc[0]);
    assert Step(s, s', Turn(0));
  }

  lemma SwappedOut(bags: map<Bag, seq<Task>>, todos: seq<ToDo>)
    ensures Next(AsWritten(YieldOut(0), On(0), None, todos, bags, Block, false, Cpu(0)),
                 AsWritten(Drain, Main, None, todos, bags, Block, true, if todos == [] then Nowhere else ToDos(0)))
  {
    var s, s' := AsWritten(YieldOut(0), On(0), None, todos, bags, Block, false, Cpu(0)),
                 AsWritten(Drain, Main, None, todos, bags, Block, true, if todos == [] then Nowhere else ToDos(0));
    OneKey(s.procs[0], s'.procs[0]);
    OneKey(s.tasks[0], s'.tasks[0]);
    OneKey(s.loc[0], s'.loc[0]);
    assert Step(s, s', Turn(0));
  }

  lemma Joined(bags: map<Bag, seq<Task>>)
    requires MutexQ(0) !in bags
    ensures Next(AsWritten(Drain, Main, None, [JoinMutex(0, 0)], bags, Block, true, ToDos(0)),
                 AsWritten(Drain, Main, None, [], bags[MutexQ(0) := [0]], Block, true, In(MutexQ(0))))
  {
    var s, s' := AsWritten(Drain, Main, None, [JoinMutex(0, 0)], bags, Block, true, ToDos(0)),
                 AsWritten(Drain, Main, None, [], bags[MutexQ(0) := [0]], Block, true, In(MutexQ(0)));
    OneKey(s.procs[0], s'.procs[0]);
    OneKey(s.tasks[0], s'.tasks[0]);
    OneKey(s.loc[0], s'.loc[0]);
    assert [JoinMutex(0, 0)][1..] == [] && [] + [0] == [0];
    assert Step(s, s', Turn(0));
  }

  lemma BackToMain(bags: map<Bag, seq<Task>>, loc: Place)
    ensures Next(AsWritten(Drain, Main, None, [], bags, Block, true, loc),
                 AsWritten(MainTop, Main, None, [], bags, Block, true, loc))
  {
    var s, s' := AsWritten(Drain, Main, None, [], bags, Block, true, loc),
                 AsWritten(MainTop, Main, None, [], bags, Block, true, loc);
    OneKey(s.procs[0], s'.procs[0]);
    OneKey(s.tasks[0], s'.tasks[0]);
    OneKey(s.loc[0], s'.loc[0]);
    assert Step(s, s', Turn(0));
  }

  lemma Carried(bags: map<Bag, seq<Task>>, src: Bag, dst: Bag)
    requires Route(src, 0, dst) && src in bags && bags[src] == [0] && src != dst && (dst in bags ==> bags[dst] == [])
    ensures Next(AsWritten(MainTop, Main, None, [], bags, Block, true, In(src)),
                 AsWritten(MainTop, Main, None, [], bags[src := []][dst := [0]], Block, true, In(dst)))
  {
    var s, s' := AsWritten(MainTop, Main, None, [], bags, Block, true, In(src)),
                 AsWritten(MainTop, Main, None, [], bags[src := []][dst := [0]], Block, true, In(dst));
    OneKey(s.procs[0], s'.procs[0]);
    OneKey(s.tasks[0], s'.tasks[0]);
    OneKey(s.loc[0], s'.loc[0]);
    var taken := Remove(s, src, 0);
    assert bags[src][..0] + bags[src][1..] == [];
    assert taken.bags == bags[src := []];
    assert BagAt(taken, dst) + [0] == [0];
    assert Step(s, s', Carry(src, 0, dst));
  }

  /** The containers after each change to them. */
  function Bags(n: nat): map<Bag, seq<Task>> {
    match n
    case 0 => map[RunQ(0) := [0]]
    case 1 => Bags(0)[RunQ(0) := []]
    case 2 => Bags(1)[MutexQ(0) := [0]]
    case 3 => Bags(2)[MutexQ(0) := []][Hand(0) := [0]]
    case 4 => Bags(3)[Hand(0) := []][RunQ(0) := [0]]
    case _ => Bags(4)[RunQ(0) := []]
  }

  /** A task that has been parked and woken yields, and is gone: lines 127-142 leave no to-do for it. */
  function Losing(): (r: seq<State>)
    ensures |r| == 20
  {
    [Init(false, {0}),
     // the task is spawned, and runs
     AsWritten(MainTop, Main, None, [], Bags(0), Runnable, true, In(RunQ(0))),
     AsWritten(MainSwap, Main, Some(0), [], Bags(1), Runnable, true, Slot(0)),
     AsWritten(Drain, On(0), Some(0), [], Bags(1), Runnable, false, Cpu(0)),
     AsWritten(User, On(0), Some(0), [], Bags(1), Runnable, false, Cpu(0)),
     // it waits for a mutex and is parked
     AsWritten(YieldTop, On(0), Some(0), [JoinMutex(0, 0)], Bags(1), Block, false, Cpu(0)),
     AsWritten(YieldPop(0), On(0), None, [JoinMutex(0, 0)], Bags(1), Block, false, Cpu(0)),
     AsWritten(YieldOut(0), On(0), None, [JoinMutex(0, 0)], Bags(1), Block, false, Cpu(0)),
     AsWritten(Drain, Main, None, [JoinMutex(0, 0)], Bags(1), Block, true, ToDos(0)),
     AsWritten(Drain, Main, None, [], Bags(2), Block, true, In(MutexQ(0))),
     // it is woken
     AsWritten(MainTop, Main, None, [], Bags(2), Block, true, In(MutexQ(0))),
     AsWritten(MainTop, Main, None, [], Bags(3), Block, true, In(Hand(0))),
     AsWritten(MainTop, Main, None, [], Bags(4), Block, true, In(RunQ(0))),
     // it runs again, its status still "block"
     AsWritten(MainSwap, Main, Some(0), [], Bags(5), Block, true, Slot(0)),
     AsWritten(Drain, On(0), Some(0), [], Bags(5), Block, false, Cpu(0)),
     AsWritten(User, On(0), Some(0), [], Bags(5), Block, false, Cpu(0)),
     // it yields
     AsWritten(YieldTop, On(0), Some(0), [], Bags(5), Block, false, Cpu(0)),
     AsWritten(YieldPop(0), On(0), None, [], Bags(5), Block, false, Cpu(0)),
     AsWritten(YieldOut(0), On(0), None, [], Bags(5), Block, false, Cpu(0)),
     AsWritten(Drain, Main, None, [], Bags(5), Block, true, Nowhere)]
  }

  lemma LosingStarts()
    ensures Next(Init(false, {0}), AsWritten(MainTop, Main, None, [], Bags(0), Runnable, true, In(RunQ(0))))
  {
    var s, s' := Init(false, {0}), AsWritten(MainTop, Main, None, [], Bags(0), Runnable, true, In(RunQ(0)));
    assert s.procs == map[0 := Proc(MainTop, Main, None, [])];
    assert [] + [0] == [0];
    assert Step(s, s', Spawn(0, 0));
  }

  lemma LosingSteps(i: nat)
    requires 0 < i < 10
    ensures Next(Losing()[i - 1], Losing()[i])
  {
    hide Next, AsWritten;
    match i
    case 1 => LosingStarts();
    case 2 => Popped(Bags(0), Runnable);
    case 3 => SwappedIn(Bags(1), Runnable);
    case 4 => Entered(Bags(1), Runnable);
    case 5 => Waits(Bags(1));
    case 6 => Released(Bags(1), [JoinMutex(0, 0)]);
    case 7 => FoundNone(Bags(1), [JoinMutex(0, 0)]);
    case 8 => SwappedOut(Bags(1), [JoinMutex(0, 0)]);
    case 9 => Joined(Bags(1));
  }

  lemma LosingGoesOn(i: nat)
    requires 10 <= i < 20
    ensures Next(Losing()[i - 1], Losing()[i])
  {
    hide Next, AsWritten;
    match i
    case 10 => BackToMain(Bags(2), In(MutexQ(0)));
    case 11 => Carried(Bags(2), MutexQ(0), Hand(0));
    case 12 => Carried(Bags(3), Hand(0), RunQ(0));
    case 13 => Popped(Bags(4), Block);
    case 14 => SwappedIn(Bags(5), Block);
    case 15 => Entered(Bags(5), Block);
    case 16 => Yields(Bags(5));
    case 17 => Released(Bags(5), []);
    case 18 => FoundNone(Bags(5), []);
    case 19 => SwappedOut(Bags(5), []);
  }

  lemma LosingRuns()
    ensures Run(false, Losing())
  {
    hide Next;
    var run := Losing();
    forall i | 0 < i < |run|
      ensures NextAt(run, i)
    {
      if i < 10 { LosingSteps(i); } else { LosingGoesOn(i); }
    }
    hide Losing;
    assert run[0] == Init(false, {0}) by {
      LosingBegins();
    }
  }

  lemma LosingBegins()
    ensures Losing()[0] == Init(false, {0})
  {
  }

  /** No place holds the task at the end. */
  lemma LosingLoses()
    ensures 0 in Losing()[19].tasks && forall pl :: 0 !in Held(Losing()[19], pl)
  {
    assert Losing()[19] == AsWritten(Drain, Main, None, [], Bags(5), Block, true, Nowhere);
  }

  ghost predicate NothingLost(s: State) {
    forall t | t in s.tasks :: exists pl :: t in Held(s, pl)
  }

  /** Line 44 sets the status of a suspending task to "block", and as written nothing sets it back.  Every run keeps
      every task in some place if and only if the status is set back to runnable. */
  lemma StatusMustBeRestored(restores: bool)
    ensures restores <==> forall run: seq<State>, i: nat | Run(restores, run) && i < |run| :: NothingLost(run[i])
  {
    hide Run, Held;
    if restores {
      forall run: seq<State>, i: nat | Run(restores, run) && i < |run|
        ensures NothingLost(run[i])
      {
        forall t | t in run[i].tasks
          ensures exists pl :: t in Held(run[i], pl)
        {
          OnePlace(restores, run, i, t);
        }
      }
    } else {
      LosingRuns();
      LosingLoses();
      assert !NothingLost(Losing()[19]);
    }
  }
}
