/**
The steps of a processer's own code (dispatching, yielding, switching, running to-dos), and those that carry tasks
between containers, keep the invariant.
*/
module OwnershipTurns {
  import opened Options
  import opened OwnershipModel
  import opened OwnershipInvariant

  // ----- Steps that move no task: the processer's own code between switches

  predicate Shuffles(s: State, s': State, p: Pid)
    requires p in s.procs
  {
    && p in s'.procs
    && s' == s.(procs := s.procs[p := s'.procs[p]], tasks := s'.tasks)
    && s'.tasks.Keys == s.tasks.Keys
    && s'.procs[p].stack == s.procs[p].stack
    && Held(s', Slot(p)) == Held(s, Slot(p))
    && Held(s', ToDos(p)) == Held(s, ToDos(p))
  }

  ghost predicate OwnStatus(s: State, s': State, p: Pid)
    requires p in s.procs
  {
    forall t {:trigger s'.tasks[t]} | t in s.tasks && t in s'.tasks ::
      s'.tasks[t].saved == s.tasks[t].saved && (s.procs[p].stack != On(t) ==> s'.tasks[t] == s.tasks[t])
  }

  lemma ShuffleStep(s: State, s': State, p: Pid)
    requires Inv(s) && p in s.procs && Shuffles(s, s', p) && OwnStatus(s, s', p)
    requires |s.procs[p].todos| == 1 && s.procs[p].todos[0].ReleaseChan? ==> s'.procs[p].todos == s.procs[p].todos
    requires ProcInv(s', p)
    ensures Inv(s')
  {
    hide ProcInv;
    ShuffleHoused(s, s', p);
    ChansKept(s, s');
    ShuffleLeaves(s, s', p);
    Assemble(s, s', Some(p));
  }

  lemma ShuffleHoused(s: State, s': State, p: Pid)
    requires Inv(s) && p in s.procs && Shuffles(s, s', p) && OwnStatus(s, s', p)
    ensures Housed(s') && SavedInv(s')
  {
    hide ProcInv, ChanInv, Housed;
    Stayed(s, s');
    assert s'.tasks.Keys == s.tasks.Keys;
  }

  lemma ShuffleLeaves(s: State, s': State, p: Pid)
    requires Inv(s) && p in s.procs && Shuffles(s, s', p) && OwnStatus(s, s', p) && ProcInv(s', p)
    ensures Leaves(s, s', Some(p))
  {
    hide ProcInv, ChanInv, Housed;
    forall q | q in s.procs && q != p
      ensures s'.procs[q] == s.procs[q] && SameStatus(s, s', s.procs[q]) && SameWindow(s, s', s.procs[q])
    {
      if s.procs[q].stack.On? { OneCpu(s, q, p, s.procs[q].stack.t); }
    }
  }

  lemma YieldTopInv(s: State, p: Pid)
    requires Inv(s) && p in s.procs && s.procs[p].pc.YieldTop?
    ensures Inv(TurnStep(s, p))
  {
    hide Inv, Housed, SavedInv;
    AtProc(s, p);
    var cur := s.procs[p].stack.t;
    OwnIsNotCaptured(Requeue(cur));
    OwnIsNotCaptured(Recycle(cur));
    assert forall todo: ToDo :: [] + [todo] == [todo];
    assert s.procs[p].todos + [] == s.procs[p].todos;
    ShuffleStep(s, TurnStep(s, p), p);
  }

  lemma YieldStays(s: State, p: Pid, cur: Task)
    requires Inv(s) && p in s.procs && s.procs[p].pc == YieldPop(cur) && BagAt(s, RunQ(p)) == []
    ensures Inv(TurnStep(s, p))
  {
    hide Inv, Housed, SavedInv, TurnStep;
    AtProc(s, p);
    if s.procs[p].todos != [] {
      OwnIsNotCaptured(s.procs[p].todos[0]);
      assert s.procs[p].todos == [s.procs[p].todos[0]];
    }
    StayShape(s, p, cur);
    ShuffleStep(s, TurnStep(s, p), p);
  }

  lemma StayShape(s: State, p: Pid, cur: Task)
    requires p in s.procs && s.procs[p].pc == YieldPop(cur) && BagAt(s, RunQ(p)) == [] && |s.procs[p].todos| <= 1
    ensures TurnStep(s, p) == SetProc(s, p,
              if StatusOf(s, cur).Runnable? && s.procs[p].todos != []
              then s.procs[p].(pc := Drain, running := Some(cur), todos := [])
              else s.procs[p].(pc := YieldOut(cur)))
  {
    if s.procs[p].todos != [] { assert s.procs[p].todos[..0] == []; }
  }

  lemma DrainEndInv(s: State, p: Pid)
    requires Inv(s) && p in s.procs && s.procs[p].pc.Drain? && s.procs[p].todos == []
    ensures Inv(TurnStep(s, p))
  {
    hide Inv, Housed, SavedInv;
    AtProc(s, p);
    ShuffleStep(s, TurnStep(s, p), p);
  }

  lemma UserYieldInv(s: State, p: Pid, done: bool)
    requires Inv(s) && UserAt(s, p)
    ensures Inv(Apply(s, if done then UserFinish(p) else UserYield(p)))
  {
    hide Inv, Housed, SavedInv;
    AtProc(s, p);
    MeIsTask(s, p);
    ShuffleStep(s, Apply(s, if done then UserFinish(p) else UserYield(p)), p);
  }

  lemma SuspendInv(s: State, p: Pid, todo: ToDo)
    requires Inv(s) && UserAt(s, p) && todo.t == Me(s, p) && (todo.JoinMutex? || todo.SubmitIO?)
    ensures Inv(Suspend(s, p, todo))
  {
    hide Inv, Housed, SavedInv;
    AtProc(s, p);
    MeIsTask(s, p);
    OwnIsNotCaptured(todo);
    assert [] + [todo] == [todo];
    ShuffleStep(s, Suspend(s, p, todo), p);
  }

  // ----- Steps that move a task

  lemma PopInv(s: State, p: Pid, pc: Pc)
    requires Inv(s) && p in s.procs && BagAt(s, RunQ(p)) != []
    requires if s.procs[p].pc.MainTop? then pc == MainSwap
             else s.procs[p].pc.YieldPop? && pc == YieldSwap(s.procs[p].pc.cur)
    ensures Inv(PopRunnable(s, p, s.procs[p].(pc := pc)))
  {
    hide Inv, Housed, SavedInv;
    var s' := PopRunnable(s, p, s.procs[p].(pc := pc));
    AtProc(s, p);
    PopHoused(s, p, pc);
    PopOthers(s, p, pc);
    Assemble(s, s', Some(p));
  }

  lemma PopHoused(s: State, p: Pid, pc: Pc)
    requires Inv(s) && p in s.procs && BagAt(s, RunQ(p)) != []
    requires s.procs[p].running.None?
    ensures Housed(PopRunnable(s, p, s.procs[p].(pc := pc))) && SavedInv(PopRunnable(s, p, s.procs[p].(pc := pc)))
    ensures BagAt(s, RunQ(p))[0] in s.tasks && s.procs[p].stack != On(BagAt(s, RunQ(p))[0])
  {
    hide Housed, ProcInv, ChanInv;
    var s' := PopRunnable(s, p, s.procs[p].(pc := pc));
    var t := BagAt(s, RunQ(p))[0];
    ElsewhereThanCpu(s, In(RunQ(p)), t);
    Moved(s, s', t, In(RunQ(p)), 0, Slot(p));
  }

  lemma PopOthers(s: State, p: Pid, pc: Pc)
    requires Inv(s) && p in s.procs && BagAt(s, RunQ(p)) != []
    requires s.procs[p].stack != On(BagAt(s, RunQ(p))[0])
    requires if s.procs[p].pc.MainTop? then pc == MainSwap
             else s.procs[p].pc.YieldPop? && pc == YieldSwap(s.procs[p].pc.cur)
    ensures Leaves(s, PopRunnable(s, p, s.procs[p].(pc := pc)), Some(p))
    ensures forall c {:trigger ChanInv(PopRunnable(s, p, s.procs[p].(pc := pc)), c)} ::
              ChanInv(PopRunnable(s, p, s.procs[p].(pc := pc)), c)
  {
    hide Housed, SavedInv;
    AtProc(s, p);
    ChansKept(s, PopRunnable(s, p, s.procs[p].(pc := pc)));
  }

  lemma SwitchPlaces(s: State, p: Pid, cur: Task)
    requires p in s.procs && Owes(s, s.procs[p], cur)
    ensures var s' := SwitchOut(s, p, s.procs[p], cur, Main);
            && Held(s, Cpu(p)) == [cur] && Held(s', Cpu(p)) == [] && Held(s, ToDos(p)) == []
            && Held(s', ToDos(p)) == (if s.procs[p].todos == [] then [] else [cur])
  {
    hide StatusOf;
    if s.procs[p].todos != [] {
      var todo := s.procs[p].todos[0];
      assert s.procs[p].todos == [todo];
      CapturedOne(todo, On(cur));
      CapturedOne(todo, Main);
    }
  }

  lemma SwitchElsewhere(s: State, p: Pid, cur: Task)
    requires p in s.procs && s.procs[p].stack == On(cur) && s.procs[p].running != Some(cur)
    ensures SameElsewhere(s, SwitchOut(s, p, s.procs[p], cur, Main), Cpu(p), ToDos(p))
  {
    hide Captured, Published, StatusOf;
  }

  lemma SwitchOutHoused(s: State, p: Pid, cur: Task)
    requires Inv(s) && p in s.procs && Owes(s, s.procs[p], cur) && s.procs[p].running != Some(cur)
    ensures Housed(SwitchOut(s, p, s.procs[p], cur, Main)) && SavedInv(SwitchOut(s, p, s.procs[p], cur, Main))
    ensures cur in s.tasks
  {
    hide ProcInv, ChanInv, Housed;
    var s' := SwitchOut(s, p, s.procs[p], cur, Main);
    InPlace(s, Cpu(p), cur);
    SwitchPlaces(s, p, cur);
    SwitchElsewhere(s, p, cur);
    hide Held;
    if s.procs[p].todos == [] {
      Vanished(s, s', cur, Cpu(p));
    } else {
      assert Without([cur], 0) == [] && [] + [cur] == [cur];
      Moved(s, s', cur, Cpu(p), 0, ToDos(p));
    }
  }

  function Loaded(s: State, p: Pid, t: Task): State
    requires p in s.procs
  {
    Load(SetProc(s, p, s.procs[p].(pc := Drain, stack := On(t))), p, t)
  }

  lemma LoadPlaces(s: State, p: Pid, t: Task)
    requires p in s.procs && s.procs[p].stack.Main? && s.procs[p].running == Some(t)
    requires t in s.tasks
    requires |s.procs[p].todos| <= 1 && (s.procs[p].todos != [] ==> s.procs[p].todos[0].t != t)
    ensures Held(s, Slot(p)) == [t] && Held(Loaded(s, p, t), Slot(p)) == []
    ensures Held(s, Cpu(p)) == [] && Held(Loaded(s, p, t), Cpu(p)) == [t]
    ensures SameElsewhere(s, Loaded(s, p, t), Slot(p), Cpu(p))
  {
    if s.procs[p].todos != [] {
      var todo := s.procs[p].todos[0];
      assert s.procs[p].todos == [todo];
      CapturedOne(todo, Main);
      CapturedOne(todo, On(t));
    }
  }

  lemma LoadHoused(s: State, p: Pid, t: Task)
    requires Housed(s) && SavedInv(s) && p in s.procs && s.procs[p].stack.Main? && s.procs[p].running == Some(t)
    requires |s.procs[p].todos| <= 1
    ensures Housed(Loaded(s, p, t)) && SavedInv(Loaded(s, p, t))
    ensures t in s.tasks && s.loc[t] == Slot(p)
    ensures s.procs[p].todos != [] ==> s.procs[p].todos[0].t != t
  {
    hide Housed;
    InPlace(s, Slot(p), t);
    if s.procs[p].todos != [] {
      var todo := s.procs[p].todos[0];
      assert s.procs[p].todos == [todo];
      CapturedOne(todo, Main);
      InPlace(s, ToDos(p), todo.t);
    }
    LoadPlaces(s, p, t);
    hide Held;
    assert Without([t], 0) == [] && [] + [t] == [t];
    Moved(s, Loaded(s, p, t), t, Slot(p), 0, Cpu(p));
  }

  lemma MainSwapInv(s: State, p: Pid)
    requires Inv(s) && p in s.procs && s.procs[p].pc.MainSwap?
    ensures Inv(TurnStep(s, p))
  {
    hide Inv, Housed, SavedInv;
    AtProc(s, p);
    var t := s.procs[p].running.value;
    LoadHoused(s, p, t);
    LoadShape(s, p, t);
    ElsewhereThanCpu(s, Slot(p), t);
    hide Loaded;
    Bystanders(s, Loaded(s, p, t), p, t);
    ChansKept(s, Loaded(s, p, t));
    Assemble(s, Loaded(s, p, t), Some(p));
  }

  lemma YieldOutInv(s: State, p: Pid, cur: Task)
    requires Inv(s) && p in s.procs && s.procs[p].pc == YieldOut(cur)
    ensures Inv(TurnStep(s, p))
  {
    hide Inv, Housed, SavedInv;
    AtProc(s, p);
    SwitchOutHoused(s, p, cur);
    SwitchShape(s, p, cur);
    hide SwitchOut;
    var s' := SwitchOut(s, p, s.procs[p], cur, Main);
    Bystanders(s, s', p, cur);
    ChansKept(s, s');
    Assemble(s, s', Some(p));
  }

  lemma YieldSwapInv(s: State, p: Pid, cur: Task)
    requires Inv(s) && p in s.procs && s.procs[p].pc == YieldSwap(cur)
    ensures Inv(TurnStep(s, p))
  {
    hide Inv, Housed, SavedInv;
    AtProc(s, p);
    var t := s.procs[p].running.value;
    var s1 := SwitchOut(s, p, s.procs[p], cur, Main);
    SwitchOutHoused(s, p, cur);
    LoadHoused(s1, p, t);
    SwapIsBoth(s, p, cur, t);
    SwapLeaves(s, p, cur, t);
    Assemble(s, TurnStep(s, p), Some(p));
  }

  lemma SwapIsBoth(s: State, p: Pid, cur: Task, t: Task)
    requires p in s.procs && s.procs[p].pc == YieldSwap(cur) && s.procs[p].running == Some(t)
    ensures TurnStep(s, p) == Loaded(SwitchOut(s, p, s.procs[p], cur, Main), p, t)
  {
    assert s.procs[p := s.procs[p].(pc := Drain, stack := On(t))] ==
           s.procs[p := s.procs[p].(pc := Drain, stack := Main)][p := s.procs[p].(pc := Drain, stack := On(t))];
  }

  lemma SwapLeaves(s: State, p: Pid, cur: Task, t: Task)
    requires Inv(s) && p in s.procs && s.procs[p].pc == YieldSwap(cur) && s.procs[p].running == Some(t)
    ensures Leaves(s, TurnStep(s, p), Some(p))
    ensures forall c {:trigger ChanInv(TurnStep(s, p), c)} :: ChanInv(TurnStep(s, p), c)
  {
    hide Housed, SavedInv, ChanInv, TurnStep;
    AtProc(s, p);
    ElsewhereThanCpu(s, Slot(p), t);
    SwapShape(s, p, cur, t);
    SwapKnows(s, TurnStep(s, p), p, cur, t);
    Bystanders(s, TurnStep(s, p), p, t);
    ChansKept(s, TurnStep(s, p));
  }

  lemma LoadShape(s: State, p: Pid, t: Task)
    requires p in s.procs && t in s.tasks
    ensures Loaded(s, p, t).restores == s.restores
    ensures Loaded(s, p, t).procs == s.procs[p := s.procs[p].(pc := Drain, stack := On(t))]
    ensures Loaded(s, p, t).chans == s.chans
    ensures forall u | u != t :: StatusOf(Loaded(s, p, t), u) == StatusOf(s, u)
    ensures s.restores ==> StatusOf(Loaded(s, p, t), t) == Runnable
  {
  }

  lemma SwitchShape(s: State, p: Pid, cur: Task)
    requires p in s.procs
    ensures SwitchOut(s, p, s.procs[p], cur, Main).procs == s.procs[p := s.procs[p].(pc := Drain, stack := Main)]
    ensures SwitchOut(s, p, s.procs[p], cur, Main).chans == s.chans
    ensures SwitchOut(s, p, s.procs[p], cur, Main).restores == s.restores
    ensures SwitchOut(s, p, s.procs[p], cur, Main).tasks.Keys == s.tasks.Keys
    ensures forall u :: StatusOf(SwitchOut(s, p, s.procs[p], cur, Main), u) == StatusOf(s, u)
  {
  }

  lemma SwapShape(s: State, p: Pid, cur: Task, t: Task)
    requires p in s.procs && s.procs[p].pc == YieldSwap(cur) && s.procs[p].running == Some(t) && t in s.tasks
    ensures TurnStep(s, p).restores == s.restores
    ensures TurnStep(s, p).procs == s.procs[p := s.procs[p].(pc := Drain, stack := On(t))]
    ensures TurnStep(s, p).chans == s.chans
    ensures forall u | u != t :: StatusOf(TurnStep(s, p), u) == StatusOf(s, u)
    ensures s.restores ==> StatusOf(TurnStep(s, p), t) == Runnable
  {
    hide TurnStep, Loaded, SwitchOut, StatusOf;
    SwapIsBoth(s, p, cur, t);
    SwitchShape(s, p, cur);
    LoadShape(SwitchOut(s, p, s.procs[p], cur, Main), p, t);
  }

  lemma SwapKnows(s: State, s': State, p: Pid, cur: Task, t: Task)
    requires p in s.procs && s.procs[p].pc == YieldSwap(cur) && s.procs[p].running == Some(t) && ProcInv(s, p)
    requires s'.procs == s.procs[p := s.procs[p].(pc := Drain, stack := On(t))] && s'.chans == s.chans
    requires s'.restores == s.restores && (s.restores ==> StatusOf(s', t) == Runnable)
    ensures ProcInv(s', p)
  {
  }

  /** Only t's status and p's fields differ, and t is on no other CPU. */
  lemma Bystanders(s: State, s': State, p: Pid, t: Task)
    requires p in s.procs && p in s'.procs && s'.procs == s.procs[p := s'.procs[p]] && s'.chans == s.chans
    requires s'.restores == s.restores
    requires forall u | u != t :: StatusOf(s', u) == StatusOf(s, u)
    requires StatusOf(s', t) == StatusOf(s, t) || forall q | q in s.procs && q != p :: s.procs[q].stack != On(t)
    requires ProcInv(s', p)
    ensures Leaves(s, s', Some(p))
  {
    hide ProcInv;
    assert s'.procs.Keys == s.procs.Keys;
  }

  // ----- The to-dos

  function Dst(p: Pid, todo: ToDo): Place {
    match todo
    case Requeue(_) => In(RunQ(p))
    case Recycle(_) => In(Pool)
    case JoinMutex(_, m) => In(MutexQ(m))
    case SubmitIO(_) => In(IoQ)
    case ReleaseChan(_, c) => ChanQ(c)
  }

  function Drained(s: State, p: Pid): State
    requires p in s.procs && s.procs[p].todos != []
  {
    Perform(SetProc(s, p, s.procs[p].(todos := s.procs[p].todos[1..])), p, s.procs[p].todos[0])
  }

  predicate Ready(s: State, p: Pid, todo: ToDo) {
    && p in s.procs && s.procs[p].todos == [todo] && s.procs[p].stack != On(todo.t)
    && (todo.ReleaseChan? ==> Open(ChanAt(s, todo.c)) && ChanAt(s, todo.c).lock == Some(todo.t))
  }

  lemma DrainMoves(s: State, p: Pid, todo: ToDo)
    requires Ready(s, p, todo)
    ensures Held(s, ToDos(p)) == [todo.t] && Held(Drained(s, p), ToDos(p)) == []
    ensures Held(Drained(s, p), Dst(p, todo)) == Held(s, Dst(p, todo)) + [todo.t]
    ensures Drained(s, p).restores == s.restores && Drained(s, p).tasks == s.tasks
    ensures Drained(s, p).loc == s.loc[todo.t := Dst(p, todo)]
  {
    CapturedOne(todo, s.procs[p].stack);
    assert [todo][1..] == [];
    if todo.ReleaseChan? {
      var parked := ChanAt(s, todo.c).parked;
      assert parked == parked[..|parked| - 1] + [todo.t];
    }
  }

  lemma DrainElsewhere(s: State, p: Pid, todo: ToDo)
    requires Ready(s, p, todo)
    ensures SameElsewhere(s, Drained(s, p), ToDos(p), Dst(p, todo))
  {
    hide Captured, Published;
  }

  lemma DrainHoused(s: State, p: Pid, todo: ToDo)
    requires Housed(s) && SavedInv(s) && Ready(s, p, todo)
    ensures Housed(Drained(s, p)) && SavedInv(Drained(s, p))
    ensures todo.t in s.tasks && s.loc[todo.t] == ToDos(p)
  {
    hide Housed, Held, Drained, SameElsewhere;
    DrainMoves(s, p, todo);
    DrainElsewhere(s, p, todo);
    InPlace(s, ToDos(p), todo.t);
    assert Without([todo.t], 0) == [];
    Moved(s, Drained(s, p), todo.t, ToDos(p), 0, Dst(p, todo));
  }

  lemma DrainChans(s: State, p: Pid, todo: ToDo)
    requires Inv(s) && p in s.procs && s.procs[p].todos == [todo] && s.procs[p].stack != On(todo.t)
    ensures forall c {:trigger ChanInv(Drained(s, p), c)} :: ChanInv(Drained(s, p), c)
  {
    hide Housed, SavedInv, ProcInv;
    var s' := Drained(s, p);
    forall c
      ensures ChanInv(s', c)
    {
      assert ChanInv(s, c);
      if Open(ChanAt(s', c)) {
        assert ChanAt(s', c) == ChanAt(s, c);
        var q :| q in s.procs && s.procs[q].todos == [ReleaseChan(ChanAt(s, c).lock.value, c)];
        assert q != p;
        assert s'.procs[q] == s.procs[q];
      }
    }
  }

  lemma DrainLeaves(s: State, p: Pid, todo: ToDo)
    requires Inv(s) && p in s.procs && s.procs[p].pc.Drain? && s.procs[p].todos == [todo]
    requires todo.t in s.loc && s.loc[todo.t] == ToDos(p)
    ensures Leaves(s, Drained(s, p), Some(p))
  {
    hide Housed, SavedInv, ChanInv;
    AtProc(s, p);
    var s' := Drained(s, p);
    forall q | q in s.procs && q != p
      ensures s'.procs[q] == s.procs[q] && SameStatus(s, s', s.procs[q]) && SameWindow(s, s', s.procs[q])
    {
      AtProc(s, q);
      OneToDo(s, p, q, todo.t);
    }
  }

  lemma DrainInv(s: State, p: Pid)
    requires Inv(s) && p in s.procs && s.procs[p].pc.Drain? && s.procs[p].todos != []
    ensures Inv(TurnStep(s, p))
  {
    hide Inv, Housed, SavedInv, Drained;
    AtProc(s, p);
    var todo := s.procs[p].todos[0];
    assert s.procs[p].todos == [todo];
    DrainHoused(s, p, todo);
    DrainChans(s, p, todo);
    DrainLeaves(s, p, todo);
    DrainShape(s, p);
    Assemble(s, TurnStep(s, p), Some(p));
  }

  lemma DrainShape(s: State, p: Pid)
    requires p in s.procs && s.procs[p].pc.Drain? && s.procs[p].todos != []
    ensures TurnStep(s, p) == Drained(s, p)
  {
  }

  // ----- Containers

  lemma CarryInv(s: State, src: Bag, i: nat, dst: Bag)
    requires Inv(s) && Route(src, i, dst) && i < |BagAt(s, src)|
    ensures Inv(Apply(s, Carry(src, i, dst)))
  {
    hide ProcInv, ChanInv, Housed;
    var s', t := Apply(s, Carry(src, i, dst)), BagAt(s, src)[i];
    assert src != dst;
    InPlace(s, In(src), t);
    Moved(s, s', t, In(src), i, In(dst));
    NoProcMoves(s, s');
  }

  lemma NoProcMoves(s: State, s': State)
    requires Inv(s) && Housed(s') && SavedInv(s') && s'.procs == s.procs && s'.chans == s.chans
    requires s'.restores == s.restores
    requires forall q {:trigger s.procs[q]} | q in s.procs :: SameStatus(s, s', s.procs[q])
    ensures Inv(s')
  {
    hide Housed, SavedInv, ProcInv, ChanInv;
    ChansKept(s, s');
    Assemble(s, s', None);
  }

  lemma SpawnInv(s: State, t: Task, p: Pid)
    requires Inv(s) && t !in s.tasks && p in s.procs
    ensures Inv(Apply(s, Spawn(t, p)))
  {
    hide Inv, SavedInv, Held, Housed;
    var s' := Spawned(s, t, p);
    forall q | q in s.procs
      ensures SameStatus(s, s', s.procs[q])
    {
      AtProc(s, q);
      RunnersAreTasks(s, q);
    }
    if q :| q in s.procs { AtProc(s, q); }
    SpawnHoused(s, t, p);
    NoProcMoves(s, s');
  }

  lemma RunnersAreTasks(s: State, q: Pid)
    requires Housed(s) && q in s.procs
    ensures s.procs[q].stack.On? ==> s.procs[q].stack.t in s.tasks
  {
    assert s.procs[q].stack.On? ==> s.procs[q].stack.t in Held(s, Cpu(q));
  }

  lemma SpawnHoused(s: State, t: Task, p: Pid)
    requires Housed(s) && SavedInv(s) && t !in s.tasks
    ensures Housed(Spawned(s, t, p)) && SavedInv(Spawned(s, t, p))
  {
    hide Held;
    var s' := Spawned(s, t, p);
    SpawnMoves(s, t, p);
    forall pl
      ensures t !in Held(s, pl)
    {
    }
    assert t in Held(s, In(RunQ(p))) + [t];
  }

  lemma SpawnMoves(s: State, t: Task, p: Pid)
    ensures Held(Spawned(s, t, p), In(RunQ(p))) == Held(s, In(RunQ(p))) + [t]
    ensures forall pl {:trigger Held(Spawned(s, t, p), pl)} | pl != In(RunQ(p)) ::
              Held(Spawned(s, t, p), pl) == Held(s, pl)
  {
  }
}
