/**
What a processer does when its thread runs on: whom it runs next, and what becomes of the task it leaves.
*/
module OwnershipSchedule {
  import opened Options
  import opened Fifo
  import opened OwnershipModel
  import opened OwnershipInvariant
  import opened OwnershipTurns
  import opened OwnershipSteps
  import opened OwnershipTheorems
  import opened OwnershipAsWritten
  import opened OwnershipJourneys

  /** n steps of p's own code, with nothing else in between. */
  function Turns(s: State, p: Pid, n: nat): State
    decreases n
  {
    if n == 0 then s
    else
      var before := Turns(s, p, n - 1);
      if p in before.procs then TurnStep(before, p) else before
  }

  /** Running t in its own code, with nothing pending. */
  predicate Runs(s: State, p: Pid, t: Task) {
    p in s.procs && s.procs[p] == Proc(User, On(t), Some(t), [])
  }

  lemma PopTurn(s: State, p: Pid)
    requires p in s.procs && BagAt(s, RunQ(p)) != [] && (s.procs[p].pc.MainTop? || s.procs[p].pc.YieldPop?)
    ensures var s', u, proc := TurnStep(s, p), BagAt(s, RunQ(p))[0], s.procs[p];
            && p in s'.procs && BagAt(s', RunQ(p)) == BagAt(s, RunQ(p))[1..]
            && s'.procs[p] == proc.(running := Some(u),
                                    pc := if proc.pc.MainTop? then MainSwap else YieldSwap(proc.pc.cur))
  {
    assert BagAt(s, RunQ(p))[..0] == [];
  }

  lemma SwitchTurn(s: State, p: Pid)
    requires p in s.procs && s.procs[p].running.Some? && (s.procs[p].pc.MainSwap? || s.procs[p].pc.YieldSwap?)
    ensures var s', proc := TurnStep(s, p), s.procs[p];
            && p in s'.procs && s'.bags == s.bags
            && s'.procs[p] == proc.(pc := Drain, stack := On(proc.running.value))
  {
    var proc, t := s.procs[p], s.procs[p].running.value;
    if proc.pc.MainSwap? {
      LoadKeeps(SetProc(s, p, proc.(pc := Drain, stack := On(t))), p, t);
    } else {
      OutKeeps(s, p, proc, proc.pc.cur, On(t));
      LoadKeeps(SwitchOut(s, p, proc, proc.pc.cur, On(t)), p, t);
    }
    hide Load, SwitchOut;
  }

  lemma LoadKeeps(s: State, p: Pid, t: Task)
    ensures Load(s, p, t).procs == s.procs && Load(s, p, t).bags == s.bags && Load(s, p, t).chans == s.chans
  {
  }

  lemma TopKeeps(s: State, p: Pid, proc: Proc, cur: Task)
    ensures YieldTopStep(s, p, proc, cur).bags == s.bags && YieldTopStep(s, p, proc, cur).chans == s.chans
  {
  }

  lemma OutKeeps(s: State, p: Pid, proc: Proc, cur: Task, stack: Stack)
    ensures var s' := SwitchOut(s, p, proc, cur, stack);
            && s'.procs == s.procs[p := proc.(pc := Drain, stack := stack)]
            && s'.bags == s.bags && s'.chans == s.chans
  {
  }

  lemma OutTurn(s: State, p: Pid)
    requires p in s.procs && s.procs[p].pc.YieldOut?
    ensures var s', proc := TurnStep(s, p), s.procs[p];
            p in s'.procs && s'.bags == s.bags && s'.procs[p] == proc.(pc := Drain, stack := Main)
  {
  }

  lemma OverTurn(s: State, p: Pid)
    requires p in s.procs && s.procs[p].pc.Drain? && s.procs[p].todos == []
    ensures var s', proc := TurnStep(s, p), s.procs[p];
            && p in s'.procs && s'.bags == s.bags
            && s'.procs[p] == proc.(pc := if proc.stack.Main? then MainTop else User)
  {
  }

  lemma ToDoTurn(s: State, p: Pid, todo: ToDo)
    requires p in s.procs && s.procs[p].pc.Drain? && s.procs[p].todos == [todo]
    ensures var s', proc := TurnStep(s, p), s.procs[p];
            && p in s'.procs && s'.procs[p] == proc.(todos := [])
            && BagAt(s', RunQ(p)) == BagAt(s, RunQ(p)) + if todo.Requeue? then [todo.t] else []
  {
    assert [todo][1..] == [];
    assert BagAt(s, RunQ(p)) + [] == BagAt(s, RunQ(p));
  }

  /** Lines 52-60: a processer with work loads the first task of its queue and is in the task's code three steps on. */
  lemma Dispatches(restores: bool, run: seq<State>, i: nat, p: Pid)
    requires Run(restores, run) && i < |run| && p in run[i].procs
    requires run[i].procs[p].pc.MainTop? && BagAt(run[i], RunQ(p)) != []
    ensures var s', q := Turns(run[i], p, 3), BagAt(run[i], RunQ(p));
            Runs(s', p, q[0]) && BagAt(s', RunQ(p)) == q[1..]
  {
    hide Run, TurnStep, Inv;
    RunInv(restores, run, i);
    var s := run[i];
    AtProc(s, p);
    PopTurn(s, p);
    var s1 := Turns(s, p, 1);
    SwitchTurn(s1, p);
    var s2 := Turns(s, p, 2);
    OverTurn(s2, p);
    SameBag(s1, s2, p);
    SameBag(s2, Turns(s, p, 3), p);
  }

  /** The to-do that line 126-142 leave for t, and the one it brought. */
  function Pending(s: State, proc: Proc, t: Task): seq<ToDo> {
    proc.todos + match StatusOf(s, t)
      case Runnable => [Requeue(t)]
      case Done => [Recycle(t)]
      case Block => []
  }

  lemma TopTurn(s: State, p: Pid, t: Task)
    requires p in s.procs && s.procs[p].pc.YieldTop? && s.procs[p].running == Some(t)
    ensures var s', proc := TurnStep(s, p), s.procs[p];
            && p in s'.procs && s'.bags == s.bags && s'.tasks == s.tasks
            && s'.procs[p] == proc.(pc := YieldPop(t), running := None, todos := Pending(s, proc, t))
  {
  }

  /** What pends when a processer yields is one to-do, about the task that yields; or none, as written, if its status
      is "block" and it has suspended itself on nothing. */
  lemma PendingIsOne(s: State, p: Pid, t: Task)
    requires Inv(s) && p in s.procs && s.procs[p].pc.YieldTop? && s.procs[p].stack == On(t)
    ensures s.procs[p].running == Some(t)
    ensures var todos := Pending(s, s.procs[p], t);
            || (|todos| == 1 && todos[0].t == t && (todos[0].Requeue? <==> StatusOf(s, t).Runnable?)
                && (todos[0].Recycle? <==> StatusOf(s, t).Done?))
            || (todos == [] && !s.restores && StatusOf(s, t).Block?)
  {
    AtProc(s, p);
    hide Inv, Housed, SavedInv;
    assert s.procs[p].todos + [] == s.procs[p].todos;
    assert [] + [Requeue(t)] == [Requeue(t)] && [] + [Recycle(t)] == [Recycle(t)];
  }

  /** Lines 126-160 with work in the queue: symmetric scheduling.  The processer goes from t straight to the first task
      u of its queue, performs what t left to be done, and is in u's code at most five steps on; t is behind the others
      if it was runnable. */
  lemma YieldsToNext(restores: bool, run: seq<State>, i: nat, p: Pid, t: Task)
    requires Run(restores, run) && i < |run| && p in run[i].procs
    requires run[i].procs[p].pc.YieldTop? && run[i].procs[p].stack == On(t) && BagAt(run[i], RunQ(p)) != []
    ensures var s, q := run[i], BagAt(run[i], RunQ(p));
            var n := 4 + |Pending(s, s.procs[p], t)|;
            && n <= 5 && Runs(Turns(s, p, n), p, q[0])
            && BagAt(Turns(s, p, n), RunQ(p)) == q[1..] + if StatusOf(s, t).Runnable? then [t] else []
  {
    hide Run, TurnStep, Inv, Pending, BagAt, StatusOf;
    RunInv(restores, run, i);
    var s := run[i];
    PendingIsOne(s, p, t);
    var todos, q := Pending(s, s.procs[p], t), BagAt(s, RunQ(p));
    TopTurn(s, p, t);
    var s1 := Turns(s, p, 1);
    SameBag(s, s1, p);
    PopTurn(s1, p);
    var s2 := Turns(s, p, 2);
    SwitchTurn(s2, p);
    var s3 := Turns(s, p, 3);
    SameBag(s2, s3, p);
    var s4 := Turns(s, p, 4);
    if todos == [] {
      OverTurn(s3, p);
      SameBag(s3, s4, p);
      assert q[1..] + [] == q[1..];
    } else {
      assert todos == [todos[0]];
      ToDoTurn(s3, p, todos[0]);
      OverTurn(s4, p);
      SameBag(s4, Turns(s, p, 5), p);
    }
  }

  lemma SameBag(s: State, s': State, p: Pid)
    requires s'.bags == s.bags
    ensures BagAt(s', RunQ(p)) == BagAt(s, RunQ(p))
  {
  }

  /** Lines 154-155: with nothing else to run, a runnable task that yields is back in its own code three steps on, and
      nothing has changed. */
  lemma YieldsToItself(restores: bool, run: seq<State>, i: nat, p: Pid, t: Task)
    requires Run(restores, run) && i < |run| && p in run[i].procs
    requires run[i].procs[p].pc.YieldTop? && run[i].procs[p].stack == On(t) && BagAt(run[i], RunQ(p)) == []
    requires StatusOf(run[i], t).Runnable?
    ensures Runs(Turns(run[i], p, 3), p, t) && BagAt(Turns(run[i], p, 3), RunQ(p)) == []
  {
    hide Run, TurnStep, Inv, Pending;
    RunInv(restores, run, i);
    var s := run[i];
    PendingIsOne(s, p, t);
    var todos := Pending(s, s.procs[p], t);
    TopTurn(s, p, t);
    var s1 := Turns(s, p, 1);
    StayShape(s1, p, t);
    var s2 := Turns(s, p, 2);
    OverTurn(s2, p);
    SameBag(s2, Turns(s, p, 3), p);
  }

  /** Lines 156-158: with nothing else to run, the processer leaves a task that has suspended itself or finished for its
      dispatch loop, performs what the task left to be done, and is at its pop at most five steps on. */
  lemma YieldsToMain(restores: bool, run: seq<State>, i: nat, p: Pid, t: Task)
    requires Run(restores, run) && i < |run| && p in run[i].procs
    requires run[i].procs[p].pc.YieldTop? && run[i].procs[p].stack == On(t) && BagAt(run[i], RunQ(p)) == []
    requires !StatusOf(run[i], t).Runnable?
    ensures var s, n := run[i], 4 + |Pending(run[i], run[i].procs[p], t)|;
            && n <= 5 && p in Turns(s, p, n).procs
            && Turns(s, p, n).procs[p] == Proc(MainTop, Main, None, [])
  {
    hide Run, TurnStep, Inv, Pending;
    RunInv(restores, run, i);
    var s := run[i];
    PendingIsOne(s, p, t);
    var todos := Pending(s, s.procs[p], t);
    TopTurn(s, p, t);
    var s1 := Turns(s, p, 1);
    StayShape(s1, p, t);
    var s2 := Turns(s, p, 2);
    OutTurn(s2, p);
    var s3 := Turns(s, p, 3);
    var s4 := Turns(s, p, 4);
    if todos == [] {
      OverTurn(s3, p);
    } else {
      assert todos == [todos[0]];
      ToDoTurn(s3, p, todos[0]);
      OverTurn(s4, p);
    }
  }

  // ----- The containers and the channels, over every run

  lemma AddMoves(s: State, b: Bag, t: Task, x: Bag)
    ensures BagAt(Add(s, b, t), x) == BagAt(s, x) + if x == b then [t] else []
    ensures Add(s, b, t).chans == s.chans
  {
    assert BagAt(s, x) + [] == BagAt(s, x);
  }

  lemma RemoveMoves(s: State, b: Bag, i: nat, x: Bag)
    requires i < |BagAt(s, b)|
    ensures BagAt(Remove(s, b, i), x) == if x == b then BagAt(s, b)[..i] + BagAt(s, b)[i + 1..] else BagAt(s, x)
    ensures Remove(s, b, i).chans == s.chans
  {
  }

  lemma PerformMoves(s: State, p: Pid, todo: ToDo, x: Bag)
    ensures OneMove(BagAt(s, x), BagAt(Perform(s, p, todo), x))
    ensures !todo.ReleaseChan? ==> Perform(s, p, todo).chans == s.chans
  {
    match todo
    case Requeue(t) => AddMoves(s, RunQ(p), t, x);
    case Recycle(t) => AddMoves(s, Pool, t, x);
    case JoinMutex(t, m) => AddMoves(s, MutexQ(m), t, x);
    case SubmitIO(t) => AddMoves(s, IoQ, t, x);
    case ReleaseChan(_, _) =>
  }

  lemma PopMovesBags(s: State, p: Pid, proc: Proc, x: Bag)
    requires BagAt(s, RunQ(p)) != []
    ensures OneMove(BagAt(s, x), BagAt(PopRunnable(s, p, proc), x)) && PopRunnable(s, p, proc).chans == s.chans
  {
    RemoveMoves(s, RunQ(p), 0, x);
    assert BagAt(s, RunQ(p))[..0] + BagAt(s, RunQ(p))[1..] == BagAt(s, RunQ(p))[1..];
    hide Remove;
  }

  /** A turn that neither pops nor performs a to-do touches no container and no channel. */
  predicate Quiet(s: State, p: Pid)
    requires p in s.procs
  {
    match s.procs[p].pc
    case MainTop => BagAt(s, RunQ(p)) == []
    case YieldPop(_) => BagAt(s, RunQ(p)) == []
    case Drain => s.procs[p].todos == []
    case _ => true
  }

  lemma QuietTurn(s: State, p: Pid)
    requires p in s.procs && Quiet(s, p)
    ensures TurnStep(s, p).bags == s.bags && TurnStep(s, p).chans == s.chans
  {
    var proc := s.procs[p];
    hide Load, SwitchOut, YieldTopStep, PopRunnable, BagAt, StatusOf, Perform;
    match proc.pc
    case MainSwap =>
      if proc.running.Some? {
        LoadKeeps(SetProc(s, p, proc.(pc := Drain, stack := On(proc.running.value))), p, proc.running.value);
      }
    case YieldTop => if proc.running.Some? { TopKeeps(s, p, proc, proc.running.value); }
    case YieldSwap(cur) =>
      if proc.running.Some? {
        OutKeeps(s, p, proc, cur, On(proc.running.value));
        LoadKeeps(SwitchOut(s, p, proc, cur, On(proc.running.value)), p, proc.running.value);
      }
    case YieldOut(cur) => OutKeeps(s, p, proc, cur, Main);
    case _ =>
  }

  lemma TurnMoves(s: State, p: Pid, x: Bag)
    requires p in s.procs
    ensures OneMove(BagAt(s, x), BagAt(TurnStep(s, p), x))
  {
    var proc := s.procs[p];
    if Quiet(s, p) {
      QuietTurn(s, p);
      hide TurnStep;
      Same(s, TurnStep(s, p), x);
    } else if proc.pc.Drain? {
      hide Perform, OneMove;
      PerformMoves(SetProc(s, p, proc.(todos := proc.todos[1..])), p, proc.todos[0], x);
    } else {
      hide PopRunnable, OneMove;
      PopMovesBags(s, p, proc.(pc := if proc.pc.MainTop? then MainSwap else YieldSwap(proc.pc.cur)), x);
    }
  }

  lemma Same(s: State, s': State, x: Bag)
    requires s'.bags == s.bags
    ensures OneMove(BagAt(s, x), BagAt(s', x))
  {
  }

  lemma CarryMoves(s: State, src: Bag, i: nat, dst: Bag, x: Bag)
    requires Enabled(s, Carry(src, i, dst))
    ensures BagAt(Apply(s, Carry(src, i, dst)), x) ==
            if x == dst then BagAt(s, dst) + [BagAt(s, src)[i]]
            else if x == src then BagAt(s, src)[..i] + BagAt(s, src)[i + 1..]
            else BagAt(s, x)
    ensures !src.Ring? ==> i == 0
  {
    RemoveMoves(s, src, i, x);
    AddMoves(Remove(s, src, i), dst, BagAt(s, src)[i], x);
    assert BagAt(s, x) + [] == BagAt(s, x);
    hide Add, Remove;
  }

  lemma StepMoves(s: State, act: Action, x: Bag)
    requires Enabled(s, act) && !x.Ring?
    ensures OneMove(BagAt(s, x), BagAt(Apply(s, act), x))
  {
    hide TurnStep, Add;
    match act
    case Turn(p) => TurnMoves(s, p, x);
    case Carry(src, i, dst) =>
      CarryMoves(s, src, i, dst, x);
      if x == src { assert BagAt(s, src)[..0] + BagAt(s, src)[1..] == BagAt(s, src)[1..]; }
    case ChanWake(p, c) =>
      AddMoves(SetChan(s, c, ChanAt(s, c).(parked := ChanAt(s, c).parked[1..])), Hand(p), ChanAt(s, c).parked[0], x);
    case Spawn(t, p) => AddMoves(s.(tasks := s.tasks[t := TaskState(Runnable, true)]), RunQ(p), t, x);
    case _ =>
  }

  /** What a turn of p takes off its queue, and what it puts where. */
  predicate Pops(s: State, p: Pid)
    requires p in s.procs
  {
    (s.procs[p].pc.MainTop? || s.procs[p].pc.YieldPop?) && BagAt(s, RunQ(p)) != []
  }

  /** Container b after the step. */
  function BagAfter(s: State, act: Action, b: Bag): seq<Task>
    requires Enabled(s, act)
  {
    var q := BagAt(s, b);
    match act
    case Carry(src, i, dst) =>
      if b == dst then q + [BagAt(s, src)[i]] else if b == src then Without(q, i) else q
    case Spawn(t, p) => if b == RunQ(p) then q + [t] else q
    case ChanWake(p, c) => if b == Hand(p) then q + [ChanAt(s, c).parked[0]] else q
    case Turn(p) =>
      if Pops(s, p) then if b == RunQ(p) then q[1..] else q
      else if s.procs[p].pc.Drain? && s.procs[p].todos != [] && Dst(p, s.procs[p].todos[0]) == In(b)
      then q + [s.procs[p].todos[0].t]
      else q
    case _ => q
  }

  lemma PerformBags(s: State, p: Pid, todo: ToDo, b: Bag)
    ensures BagAt(Perform(s, p, todo), b) == BagAt(s, b) + if Dst(p, todo) == In(b) then [todo.t] else []
  {
    assert BagAt(s, b) + [] == BagAt(s, b);
  }

  lemma TurnBags(s: State, p: Pid, b: Bag)
    requires p in s.procs && !s.procs[p].pc.User?
    ensures BagAt(TurnStep(s, p), b) == BagAfter(s, Turn(p), b)
  {
    var proc := s.procs[p];
    if Quiet(s, p) {
      QuietTurn(s, p);
      hide TurnStep;
    } else if proc.pc.Drain? {
      PerformBags(SetProc(s, p, proc.(todos := proc.todos[1..])), p, proc.todos[0], b);
      assert BagAt(s, b) + [] == BagAt(s, b);
      hide Perform, Dst;
    } else {
      RemoveMoves(s, RunQ(p), 0, b);
      assert BagAt(s, RunQ(p))[..0] + BagAt(s, RunQ(p))[1..] == BagAt(s, RunQ(p))[1..];
      hide Remove;
    }
  }

  lemma StepBags(s: State, act: Action, b: Bag)
    requires Enabled(s, act)
    ensures BagAt(Apply(s, act), b) == BagAfter(s, act, b)
  {
    assert BagAt(s, b) + [] == BagAt(s, b);
    hide TurnStep, Add;
    match act
    case Turn(p) => TurnBags(s, p, b);
    case Carry(src, i, dst) => CarryMoves(s, src, i, dst, b);
    case ChanWake(p, c) =>
      AddMoves(SetChan(s, c, ChanAt(s, c).(parked := ChanAt(s, c).parked[1..])), Hand(p), ChanAt(s, c).parked[0], b);
    case Spawn(t, p) => AddMoves(s.(tasks := s.tasks[t := TaskState(Runnable, true)]), RunQ(p), t, b);
    case _ =>
  }

  /** What every step does to every container: a dispatch takes the first task of the processer's own queue, a to-do
      puts its task behind the others, a new task goes to the queue it was spawned on, a task woken by a channel to the
      hands of the processer that wakes it, and a task that is carried leaves one container and is the last of another;
      nothing else touches them. */
  lemma ContainersChangeSo(s: State, s': State, act: Action, b: Bag)
    requires Step(s, s', act)
    ensures BagAt(s', b) == BagAfter(s, act, b)
  {
    hide BagAfter, BagAt;
    StepBags(s, act, b);
  }

  /** Every container but the ring is first in, first out, over every run. */
  lemma {:induction false} ContainersAreFifo(restores: bool, run: seq<State>, i: nat, j: nat, b: Bag)
    requires Run(restores, run) && i <= j < |run| && !b.Ring?
    ensures MovedOn(BagAt(run[i], b), BagAt(run[j], b))
    decreases j
  {
    hide MovedOn, OneMove, Apply, BagAt;
    if i == j {
      Unmoved(BagAt(run[i], b));
    } else {
      ContainersAreFifo(restores, run, i, j - 1, b);
      assert NextAt(run, j);
      var act :| Step(run[j - 1], run[j], act);
      StepMoves(run[j - 1], act, b);
      MovesFurther(BagAt(run[i], b), BagAt(run[j - 1], b), BagAt(run[j], b));
    }
  }

  /** The step performs the to-do that releases c. */
  predicate Releases(s: State, act: Action, c: ChanId) {
    && act.Turn? && act.p in s.procs && s.procs[act.p].pc.Drain? && s.procs[act.p].todos != []
    && s.procs[act.p].todos[0].ReleaseChan? && s.procs[act.p].todos[0].c == c
  }

  /** Channel c after the step. */
  function ChanAfter(s: State, act: Action, c: ChanId): Chan
    requires Enabled(s, act)
  {
    var ch := ChanAt(s, c);
    if Releases(s, act, c) then Chan(None, ch.parked)
    else match act
      case ChanLock(p, d) => if d == c then Chan(Some(Me(s, p)), ch.parked) else ch
      case ChanUnlock(_, d) => if d == c then Chan(None, ch.parked) else ch
      case ChanPark(p, d) => if d == c then Chan(ch.lock, ch.parked + [Me(s, p)]) else ch
      case ChanWake(_, d) => if d == c then Chan(ch.lock, ch.parked[1..]) else ch
      case _ => ch
  }

  lemma TurnChans(s: State, p: Pid, c: ChanId)
    requires p in s.procs && !s.procs[p].pc.User?
    ensures ChanAt(TurnStep(s, p), c) == ChanAfter(s, Turn(p), c)
  {
    var proc := s.procs[p];
    if proc.pc.Drain? && proc.todos != [] {
      DrainChansOnly(SetProc(s, p, proc.(todos := proc.todos[1..])), p, proc.todos[0], c);
      hide Perform;
    } else {
      OtherTurnChans(s, p);
      hide TurnStep;
    }
  }

  lemma DrainChansOnly(s: State, p: Pid, todo: ToDo, c: ChanId)
    ensures ChanAt(Perform(s, p, todo), c) ==
            if todo.ReleaseChan? && todo.c == c then ChanAt(s, c).(lock := None) else ChanAt(s, c)
  {
  }

  lemma OtherTurnChans(s: State, p: Pid)
    requires p in s.procs && (s.procs[p].pc.Drain? ==> s.procs[p].todos == [])
    ensures TurnStep(s, p).chans == s.chans
  {
    var proc := s.procs[p];
    if Quiet(s, p) {
      QuietTurn(s, p);
      hide TurnStep;
    } else {
      hide PopRunnable;
      PopMovesBags(s, p, proc.(pc := if proc.pc.MainTop? then MainSwap else YieldSwap(proc.pc.cur)), Pool);
    }
  }

  lemma StepChans(s: State, act: Action, c: ChanId)
    requires Enabled(s, act)
    ensures ChanAt(Apply(s, act), c) == ChanAfter(s, act, c)
  {
    hide TurnStep, BagAt;
    if act.Turn? { TurnChans(s, act.p, c); }
  }

  /** What every step does to every channel: the mutex is taken by ChanLock and given up by ChanUnlock and by the to-do
      of a task that has parked; a task parks behind the others, and the first is woken; nothing else touches them. */
  lemma ChannelsChangeSo(s: State, s': State, act: Action, c: ChanId)
    requires Step(s, s', act)
    ensures ChanAt(s', c) == ChanAfter(s, act, c)
  {
    hide ChanAfter, ChanAt;
    StepChans(s, act, c);
  }
}
