/**
Where each task goes: to the queue of the mutex or channel it waits for, to the I/O queue, back to the runnable queue,
or, once its function has returned, to the pool and nowhere else ever after.  What a task has asked for is what it did
last in its own code; it is recorded beside the run, from its steps alone.
*/
module OwnershipJourneys {
  import opened Options
  import opened OwnershipModel
  import opened OwnershipInvariant
  import opened OwnershipTurns
  import opened OwnershipSteps
  import opened OwnershipTheorems
  import opened OwnershipAsWritten

  /** What a task did last in its own code. */
  datatype Ask = New | Yielded | WaitsFor(m: MutexId) | DoesIO | ParksOn(c: ChanId) | Finished

  type Asks = map<Task, Ask>

  function Asked(asks: Asks, s: State, act: Action): Asks
    requires Enabled(s, act)
  {
    match act
    case UserYield(p) => asks[Me(s, p) := Yielded]
    case UserLock(p, m) => asks[Me(s, p) := WaitsFor(m)]
    case UserIO(p) => asks[Me(s, p) := DoesIO]
    case UserFinish(p) => asks[Me(s, p) := Finished]
    case ChanPark(p, c) => asks[Me(s, p) := ParksOn(c)]
    case Spawn(t, _) => asks[t := New]
    case _ => asks
  }

  /** The to-do does for t what it asked for. */
  predicate Meets(ask: Ask, todo: ToDo, t: Task) {
    match ask
    case New => false
    case Yielded => todo == Requeue(t)
    case WaitsFor(m) => todo == JoinMutex(t, m)
    case DoesIO => todo == SubmitIO(t)
    case ParksOn(c) => todo == ReleaseChan(t, c)
    case Finished => todo == Recycle(t)
  }

  /** On its way off the CPU, t has its to-do, or is about to get it; as written it may get none when it yields. */
  predicate WillMeet(proc: Proc, ask: Ask, t: Task) {
    if proc.pc.YieldTop? && (ask.Yielded? || ask.Finished?) then proc.todos == []
    else (proc.todos == [] && ask.Yielded?) || (|proc.todos| == 1 && Meets(ask, proc.todos[0], t))
  }

  /** A task that asked for this may be there. */
  predicate Suits(s: State, ask: Ask, t: Task, pl: Place) {
    match pl
    case Cpu(p) =>
      p in s.procs && if Switching(s.procs[p].pc) then WillMeet(s.procs[p], ask, t) else !ask.Finished?
    case Slot(_) => !ask.Finished?
    case ToDos(p) => p in s.procs && |s.procs[p].todos| == 1 && Meets(ask, s.procs[p].todos[0], t)
    case ChanQ(c) => ask == ParksOn(c)
    case Nowhere => ask.Yielded?
    case In(b) =>
      match b {
        case RunQ(_) => !ask.Finished?
        case Batch => !ask.Finished?
        case Hand(_) => ask.WaitsFor? || ask.ParksOn?
        case MutexQ(m) => ask == WaitsFor(m)
        case IoQ => ask.DoesIO?
        case SubmitHand => ask.DoesIO?
        case Ring => ask.DoesIO?
        case WaitHand => ask.DoesIO?
        case Pool => ask.Finished?
      }
  }

  ghost predicate AskInv(s: State, asks: Asks) {
    && asks.Keys == s.tasks.Keys == s.loc.Keys
    && (forall t {:trigger s.loc[t]} | t in s.loc :: Suits(s, asks[t], t, s.loc[t]))
    && (forall t {:trigger s.tasks[t]} | t in s.tasks :: s.tasks[t].status.Done? <==> asks[t].Finished?)
  }

  /** What a step that concerns p and moves t, or changes its status or what it asks for, leaves alone. */
  ghost predicate Rest(s: State, s': State, asks: Asks, asks': Asks, p: Pid, t: Task)
    requires asks.Keys == s.tasks.Keys == s.loc.Keys
  {
    && s'.tasks.Keys == s.tasks.Keys + {t} && s'.loc.Keys == s.loc.Keys + {t} && asks'.Keys == asks.Keys + {t}
    && (forall u | u in s.loc && u != t :: s'.loc[u] == s.loc[u] && asks'[u] == asks[u] &&
          (s'.tasks[u].status.Done? <==> s.tasks[u].status.Done?))
    && (forall q | q in s.procs && q != p :: q in s'.procs && s'.procs[q] == s.procs[q])
    && (forall u | u in s.loc && u != t && (s.loc[u] == Cpu(p) || s.loc[u] == ToDos(p)) ::
          Suits(s', asks[u], u, s.loc[u]))
  }

  lemma SuitsKept(s: State, s': State, ask: Ask, t: Task, pl: Place)
    requires Suits(s, ask, t, pl)
    requires pl.Cpu? || pl.ToDos? ==> pl.p in s.procs ==> pl.p in s'.procs && s'.procs[pl.p] == s.procs[pl.p]
    ensures Suits(s', ask, t, pl)
  {
    hide Meets, WillMeet;
  }

  lemma Follows(s: State, s': State, asks: Asks, asks': Asks, p: Pid, t: Task)
    requires AskInv(s, asks) && Rest(s, s', asks, asks', p, t)
    requires Suits(s', asks'[t], t, s'.loc[t]) && (s'.tasks[t].status.Done? <==> asks'[t].Finished?)
    ensures AskInv(s', asks')
  {
    hide Suits;
    forall u | u in s'.loc
      ensures Suits(s', asks'[u], u, s'.loc[u])
    {
      if u != t && s.loc[u] != Cpu(p) && s.loc[u] != ToDos(p) { SuitsKept(s, s', asks[u], u, s.loc[u]); }
    }
  }

  // ----- Steps of a processer

  /** Whom p's thread executes, and whom its to-do is about. */
  lemma WhoIsAt(s: State, p: Pid, u: Task)
    requires Inv(s) && p in s.procs && u in s.loc
    ensures s.loc[u] == Cpu(p) ==> s.procs[p].stack == On(u)
    ensures s.loc[u] == ToDos(p) ==>
              |s.procs[p].todos| == 1 && s.procs[p].todos[0].t == u && s.procs[p].stack != On(u)
  {
    AtProc(s, p);
    var proc := s.procs[p];
    if proc.todos != [] {
      assert proc.todos == [proc.todos[0]];
      CapturedOne(proc.todos[0], proc.stack);
    }
    assert s.loc[u].Nowhere? || u in Held(s, s.loc[u]);
    hide Inv, Housed, SavedInv;
  }

  /** Besides t, only v may be at p. */
  ghost predicate Moves(s: State, s': State, asks: Asks, asks': Asks, p: Pid, t: Task)
    requires asks.Keys == s.tasks.Keys == s.loc.Keys
  {
    && s'.tasks.Keys == s.tasks.Keys + {t} && s'.loc.Keys == s.loc.Keys + {t} && asks'.Keys == asks.Keys + {t}
    && (forall u | u in s.loc && u != t :: s'.loc[u] == s.loc[u] && asks'[u] == asks[u] &&
          (s'.tasks[u].status.Done? <==> s.tasks[u].status.Done?))
    && (forall q | q in s.procs && q != p :: q in s'.procs && s'.procs[q] == s.procs[q])
  }

  lemma FollowsAt(s: State, s': State, asks: Asks, asks': Asks, p: Pid, t: Task, v: Task)
    requires Inv(s) && AskInv(s, asks) && p in s.procs && Moves(s, s', asks, asks', p, t)
    requires s.procs[p].stack.On? ==> s.procs[p].stack.t == v || s.procs[p].stack.t == t
    requires s.procs[p].todos != [] ==> s.procs[p].todos[0].t == v || s.procs[p].todos[0].t == t
    requires v != t && v in s.loc ==> Suits(s', asks[v], v, s.loc[v])
    requires Suits(s', asks'[t], t, s'.loc[t]) && (s'.tasks[t].status.Done? <==> asks'[t].Finished?)
    ensures AskInv(s', asks')
  {
    forall u | u in s.loc && u != t && (s.loc[u] == Cpu(p) || s.loc[u] == ToDos(p))
      ensures Suits(s', asks[u], u, s.loc[u])
    {
      WhoIsAt(s, p, u);
    }
    hide Inv, Suits;
    Follows(s, s', asks, asks', p, t);
  }

  lemma AskAt(s: State, asks: Asks, t: Task)
    requires AskInv(s, asks) && t in s.tasks
    ensures t in asks && t in s.loc && Suits(s, asks[t], t, s.loc[t])
    ensures s.tasks[t].status.Done? <==> asks[t].Finished?
  {
    hide Suits;
  }

  lemma PopShape(s: State, p: Pid, proc: Proc)
    requires BagAt(s, RunQ(p)) != []
    ensures var s', t := PopRunnable(s, p, proc), BagAt(s, RunQ(p))[0];
            && s'.procs == s.procs[p := proc.(running := Some(t))] && s'.tasks == s.tasks
            && s'.loc == s.loc[t := Slot(p)]
  {
  }

  lemma PopMoves(s: State, asks: Asks, p: Pid, proc: Proc)
    requires asks.Keys == s.tasks.Keys == s.loc.Keys && p in s.procs && BagAt(s, RunQ(p)) != []
    requires BagAt(s, RunQ(p))[0] in s.tasks
    ensures Moves(s, PopRunnable(s, p, proc), asks, asks, p, BagAt(s, RunQ(p))[0])
  {
    PopShape(s, p, proc);
    hide PopRunnable;
  }

  lemma PopperSuits(s: State, s': State, p: Pid, ask: Ask, v: Task)
    requires p in s.procs && s.procs[p].pc.YieldPop? && Suits(s, ask, v, Cpu(p))
    requires p in s'.procs && s'.procs[p].pc.YieldSwap? && s'.procs[p].todos == s.procs[p].todos
    ensures Suits(s', ask, v, Cpu(p))
  {
  }

  lemma PopFollows(s: State, asks: Asks, p: Pid, pc: Pc)
    requires Inv(s) && AskInv(s, asks) && p in s.procs && BagAt(s, RunQ(p)) != []
    requires s.procs[p].pc.MainTop? || (s.procs[p].pc.YieldPop? && pc == YieldSwap(s.procs[p].pc.cur))
    ensures AskInv(PopRunnable(s, p, s.procs[p].(pc := pc)), asks)
  {
    AtProc(s, p);
    var t, proc := BagAt(s, RunQ(p))[0], s.procs[p];
    InPlace(s, In(RunQ(p)), t);
    var v := if proc.stack.On? then proc.stack.t else t;
    InPlace(s, Cpu(p), v);
    AskAt(s, asks, t);
    var s' := PopRunnable(s, p, proc.(pc := pc));
    assert Suits(s', asks[t], t, Slot(p));
    hide Inv, Housed, SavedInv, Suits, WindowKnown;
    PopShape(s, p, proc.(pc := pc));
    AskKeys(s, asks);
    if proc.stack.On? {
      AskAt(s, asks, v);
      PopperSuits(s, s', p, asks[v], v);
    }
    hide AskInv, Moves;
    PopMoves(s, asks, p, proc.(pc := pc));
    hide PopRunnable;
    FollowsAt(s, s', asks, asks, p, t, v);
  }

  lemma DrainOverFollows(s: State, asks: Asks, p: Pid)
    requires Inv(s) && AskInv(s, asks) && p in s.procs && s.procs[p].pc.Drain? && s.procs[p].todos == []
    ensures AskInv(DrainStep(s, p, s.procs[p]), asks)
  {
    hide Inv, Meets;
    var s' := DrainStep(s, p, s.procs[p]);
    forall u | u in s'.loc
      ensures Suits(s', asks[u], u, s'.loc[u])
    {
      assert Suits(s, asks[u], u, s.loc[u]);
    }
  }

  lemma DrainShapes(s: State, p: Pid, todo: ToDo)
    requires p in s.procs && s.procs[p].todos == [todo]
    ensures var s' := DrainStep(s, p, s.procs[p]);
            && s'.procs == s.procs[p := s.procs[p].(todos := [])] && s'.tasks == s.tasks
            && s'.loc == s.loc[todo.t := Dst(p, todo)]
  {
    assert [todo][1..] == [];
    PerformShape(SetProc(s, p, s.procs[p].(todos := s.procs[p].todos[1..])), p, todo);
    hide Perform;
  }

  lemma DstSuits(s: State, p: Pid, ask: Ask, todo: ToDo)
    requires Meets(ask, todo, todo.t)
    ensures Suits(s, ask, todo.t, Dst(p, todo))
  {
  }

  lemma DrainerSuits(s: State, s': State, p: Pid, ask: Ask, v: Task)
    requires p in s.procs && s.procs[p].pc.Drain? && Suits(s, ask, v, Cpu(p))
    requires p in s'.procs && s'.procs[p].pc.Drain?
    ensures Suits(s', ask, v, Cpu(p))
  {
  }

  lemma DrainMove(s: State, asks: Asks, p: Pid, todo: ToDo)
    requires asks.Keys == s.tasks.Keys == s.loc.Keys && p in s.procs && s.procs[p].todos == [todo] && todo.t in s.tasks
    ensures Moves(s, DrainStep(s, p, s.procs[p]), asks, asks, p, todo.t)
  {
    DrainShapes(s, p, todo);
    hide DrainStep;
  }

  lemma DrainFollows(s: State, asks: Asks, p: Pid)
    requires Inv(s) && AskInv(s, asks) && p in s.procs && s.procs[p].pc.Drain? && s.procs[p].todos != []
    ensures AskInv(DrainStep(s, p, s.procs[p]), asks)
  {
    AtProc(s, p);
    var proc := s.procs[p];
    var todo := proc.todos[0];
    assert proc.todos == [todo];
    CapturedOne(todo, proc.stack);
    InPlace(s, ToDos(p), todo.t);
    var v := if proc.stack.On? then proc.stack.t else todo.t;
    InPlace(s, Cpu(p), v);
    AskAt(s, asks, todo.t);
    assert Meets(asks[todo.t], todo, todo.t);
    hide Inv, Housed, SavedInv, Suits, WindowKnown, Meets;
    DrainShapes(s, p, todo);
    var s' := DrainStep(s, p, proc);
    DstSuits(s', p, asks[todo.t], todo);
    if proc.stack.On? {
      AskAt(s, asks, v);
      DrainerSuits(s, s', p, asks[v], v);
    }
    AskKeys(s, asks);
    hide AskInv, Moves;
    DrainMove(s, asks, p, todo);
    hide DrainStep, Dst;
    FollowsAt(s, s', asks, asks, p, todo.t, v);
  }

  lemma TopShape(s: State, p: Pid, proc: Proc, cur: Task)
    requires |proc.todos| <= 1
    ensures var s' := YieldTopStep(s, p, proc, cur);
            && s'.tasks == s.tasks && s'.loc == s.loc
            && p in s'.procs && s'.procs == s.procs[p := s'.procs[p]]
            && s'.procs[p].pc == YieldPop(cur)
            && s'.procs[p].todos == proc.todos + match StatusOf(s, cur) {
                 case Runnable => [Requeue(cur)]
                 case Done => [Recycle(cur)]
                 case Block => []
               }
  {
  }

  lemma TopSuits(s: State, s': State, p: Pid, ask: Ask, t: Task)
    requires p in s.procs && s.procs[p].pc.YieldTop? && Suits(s, ask, t, Cpu(p))
    requires StatusOf(s, t).Done? <==> ask.Finished?
    requires if StatusOf(s, t).Block? then |s.procs[p].todos| <= 1 else s.procs[p].todos == []
    requires s'.procs == YieldTopStep(s, p, s.procs[p], t).procs
    ensures Suits(s', ask, t, Cpu(p))
  {
    TopShape(s, p, s.procs[p], t);
    assert s.procs[p].todos + [] == s.procs[p].todos;
    hide YieldTopStep;
  }

  lemma YieldTopFollows(s: State, asks: Asks, p: Pid)
    requires Inv(s) && AskInv(s, asks) && p in s.procs && s.procs[p].pc.YieldTop?
    ensures s.procs[p].stack.On? && AskInv(YieldTopStep(s, p, s.procs[p], s.procs[p].stack.t), asks)
  {
    AtProc(s, p);
    var proc := s.procs[p];
    var t := proc.stack.t;
    InPlace(s, Cpu(p), t);
    AskAt(s, asks, t);
    hide Suits;
    var s' := YieldTopStep(s, p, proc, t);
    TopSuits(s, s', p, asks[t], t);
    TopShape(s, p, proc, t);
    hide Inv, Housed, SavedInv, AskInv, YieldTopStep;
    FollowsAt(s, s', asks, asks, p, t, t);
  }

  lemma YieldStayFollows(s: State, asks: Asks, p: Pid, cur: Task)
    requires Inv(s) && AskInv(s, asks) && p in s.procs && s.procs[p].pc == YieldPop(cur) && BagAt(s, RunQ(p)) == []
    ensures AskInv(TurnStep(s, p), asks)
  {
    AtProc(s, p);
    InPlace(s, Cpu(p), cur);
    AskAt(s, asks, cur);
    StayShape(s, p, cur);
    hide Inv, Housed, SavedInv, AskInv, TurnStep;
    FollowsAt(s, TurnStep(s, p), asks, asks, p, cur, cur);
  }

  lemma OutShape(s: State, p: Pid, cur: Task, stack: Stack)
    requires p in s.procs && cur in s.tasks
    ensures var s' := SwitchOut(s, p, s.procs[p], cur, stack);
            && s'.procs == s.procs[p := s.procs[p].(pc := Drain, stack := stack)]
            && s'.tasks == s.tasks[cur := s.tasks[cur].(saved := true)]
            && s'.loc == s.loc[cur := if s.procs[p].todos == [] then Nowhere else ToDos(p)]
  {
  }

  lemma OutSuits(s: State, s': State, p: Pid, ask: Ask, cur: Task, stack: Stack)
    requires p in s.procs && (s.procs[p].pc.YieldSwap? || s.procs[p].pc.YieldOut?) && Suits(s, ask, cur, Cpu(p))
    requires p in s'.procs && s'.procs[p].todos == s.procs[p].todos
    ensures Suits(s', ask, cur, if s.procs[p].todos == [] then Nowhere else ToDos(p))
  {
  }

  lemma OutMoves(s: State, asks: Asks, p: Pid, cur: Task)
    requires asks.Keys == s.tasks.Keys == s.loc.Keys && p in s.procs && cur in s.tasks
    ensures Moves(s, SwitchOut(s, p, s.procs[p], cur, Main), asks, asks, p, cur)
  {
    OutShape(s, p, cur, Main);
    hide SwitchOut;
  }

  lemma OutFollows(s: State, asks: Asks, p: Pid, cur: Task)
    requires Inv(s) && AskInv(s, asks) && p in s.procs
    requires s.procs[p].pc == YieldSwap(cur) || s.procs[p].pc == YieldOut(cur)
    ensures AskInv(SwitchOut(s, p, s.procs[p], cur, Main), asks)
  {
    AtProc(s, p);
    InPlace(s, Cpu(p), cur);
    hide Inv, Housed, SavedInv, Suits, WindowKnown;
    AskAt(s, asks, cur);
    AskKeys(s, asks);
    hide AskInv, Moves;
    var s' := SwitchOut(s, p, s.procs[p], cur, Main);
    OutMoves(s, asks, p, cur);
    OutShape(s, p, cur, Main);
    hide SwitchOut;
    OutSuits(s, s', p, asks[cur], cur, Main);
    FollowsAt(s, s', asks, asks, p, cur, cur);
  }

  lemma LoadChanges(s: State, p: Pid, t: Task)
    requires p in s.procs && t in s.tasks
    ensures var s' := Loaded(s, p, t);
            && s'.procs == s.procs[p := s.procs[p].(pc := Drain, stack := On(t))]
            && s'.tasks == s.tasks[t := s'.tasks[t]] && t in s'.tasks
            && (s'.tasks[t].status == s.tasks[t].status || s'.tasks[t].status.Runnable?)
            && s'.loc == s.loc[t := Cpu(p)]
  {
  }

  /** Loading, when the thread is off every stack. */
  lemma LoadFollows(s: State, asks: Asks, p: Pid, t: Task)
    requires AskInv(s, asks) && p in s.procs && t in s.tasks && t in s.loc && s.loc[t] == Slot(p)
    requires !Switching(s.procs[p].pc) || forall u | u in s.loc :: s.loc[u] != Cpu(p)
    ensures AskInv(Loaded(s, p, t), asks)
  {
    LoadChanges(s, p, t);
    AskAt(s, asks, t);
    hide Loaded, Meets;
    var s' := Loaded(s, p, t);
    forall u | u in s.loc && u != t && (s.loc[u] == Cpu(p) || s.loc[u] == ToDos(p))
      ensures Suits(s', asks[u], u, s.loc[u])
    {
      AskAt(s, asks, u);
    }
    hide AskInv;
    assert Suits(s', asks[t], t, Cpu(p));
    hide Suits;
    Follows(s, s', asks, asks, p, t) by { assert asks.Keys == s.tasks.Keys == s.loc.Keys by { AskKeys(s, asks); } }
  }

  lemma AskKeys(s: State, asks: Asks)
    requires AskInv(s, asks)
    ensures asks.Keys == s.tasks.Keys == s.loc.Keys
  {
  }

  lemma SwapFollows(s: State, asks: Asks, p: Pid, cur: Task)
    requires Inv(s) && AskInv(s, asks) && p in s.procs && s.procs[p].pc == YieldSwap(cur)
    ensures AskInv(TurnStep(s, p), asks)
  {
    AtProc(s, p);
    var t := s.procs[p].running.value;
    InPlace(s, Slot(p), t);
    InPlace(s, Cpu(p), cur);
    var s1 := SwitchOut(s, p, s.procs[p], cur, Main);
    OutFollows(s, asks, p, cur);
    OutShape(s, p, cur, Main);
    SwapIsBoth(s, p, cur, t);
    hide Inv, Housed, SavedInv, AskInv, SwitchOut, TurnStep, Loaded;
    LoadFollows(s1, asks, p, t);
  }

  lemma MainFollows(s: State, asks: Asks, p: Pid)
    requires Inv(s) && AskInv(s, asks) && p in s.procs && s.procs[p].pc.MainSwap?
    ensures AskInv(TurnStep(s, p), asks)
  {
    AtProc(s, p);
    var t := s.procs[p].running.value;
    InPlace(s, Slot(p), t);
    assert TurnStep(s, p) == Loaded(s, p, t);
    hide Inv, Housed, SavedInv, AskInv, TurnStep, Loaded;
    LoadFollows(s, asks, p, t);
  }

  lemma TurnFollows(s: State, asks: Asks, p: Pid)
    requires Inv(s) && AskInv(s, asks) && p in s.procs && !s.procs[p].pc.User?
    ensures AskInv(TurnStep(s, p), asks)
  {
    AtProc(s, p);
    hide Inv, Housed, SavedInv, AskInv, PopRunnable, DrainStep, YieldTopStep, SwitchOut, Load;
    var proc := s.procs[p];
    match proc.pc
    case MainTop => if BagAt(s, RunQ(p)) != [] { PopFollows(s, asks, p, MainSwap); }
    case MainSwap => MainFollows(s, asks, p);
    case Drain => if proc.todos == [] { DrainOverFollows(s, asks, p); } else { DrainFollows(s, asks, p); }
    case YieldTop => YieldTopFollows(s, asks, p);
    case YieldPop(cur) =>
      if BagAt(s, RunQ(p)) == [] { YieldStayFollows(s, asks, p, cur); } else { PopFollows(s, asks, p, YieldSwap(cur)); }
    case YieldSwap(cur) => SwapFollows(s, asks, p, cur);
    case YieldOut(cur) => OutFollows(s, asks, p, cur);
  }

  // ----- The other steps

  /** A step that changes no processer and concerns t alone. */
  lemma TaskFollows(s: State, s': State, asks: Asks, asks': Asks, t: Task)
    requires AskInv(s, asks) && s'.procs == s.procs
    requires s'.tasks.Keys == s.tasks.Keys + {t} && s'.loc.Keys == s.loc.Keys + {t} && asks'.Keys == asks.Keys + {t}
    requires forall u | u in s.loc && u != t ::
               s'.loc[u] == s.loc[u] && asks'[u] == asks[u] && s'.tasks[u] == s.tasks[u]
    requires Suits(s', asks'[t], t, s'.loc[t]) && (s'.tasks[t].status.Done? <==> asks'[t].Finished?)
    ensures AskInv(s', asks')
  {
    hide Suits;
    forall u | u in s'.loc
      ensures Suits(s', asks'[u], u, s'.loc[u])
    {
      if u != t { SuitsKept(s, s', asks[u], u, s.loc[u]); }
    }
  }

  lemma NothingFollows(s: State, s': State, asks: Asks)
    requires AskInv(s, asks) && s'.procs == s.procs && s'.tasks == s.tasks && s'.loc == s.loc
    ensures AskInv(s', asks)
  {
    hide Suits;
    forall u | u in s'.loc
      ensures Suits(s', asks[u], u, s'.loc[u])
    {
      SuitsKept(s, s', asks[u], u, s.loc[u]);
    }
  }

  lemma CarryFollows(s: State, asks: Asks, src: Bag, i: nat, dst: Bag)
    requires Inv(s) && AskInv(s, asks) && Enabled(s, Carry(src, i, dst))
    ensures AskInv(Apply(s, Carry(src, i, dst)), asks)
  {
    Parts(s);
    var t := BagAt(s, src)[i];
    InPlace(s, In(src), t);
    AskAt(s, asks, t);
    var s' := Apply(s, Carry(src, i, dst));
    CarryShape(s, src, i, dst);
    assert Suits(s', asks[t], t, In(dst));
    hide Inv, Housed, SavedInv, Apply, Suits;
    AskKeys(s, asks);
    TaskFollows(s, s', asks, asks, t);
  }

  lemma CarryShape(s: State, src: Bag, i: nat, dst: Bag)
    requires Enabled(s, Carry(src, i, dst))
    ensures var s' := Apply(s, Carry(src, i, dst));
            s'.procs == s.procs && s'.tasks == s.tasks && s'.loc == s.loc[BagAt(s, src)[i] := In(dst)]
  {
  }

  lemma WakeFollows(s: State, asks: Asks, p: Pid, c: ChanId)
    requires Inv(s) && AskInv(s, asks) && Enabled(s, ChanWake(p, c))
    ensures AskInv(Woken(s, p, c), asks)
  {
    Parts(s);
    var t := ChanAt(s, c).parked[0];
    NotOpen(s, p, c);
    InPlace(s, ChanQ(c), t);
    AskAt(s, asks, t);
    WakeMoves(s, p, c);
    hide Inv, Housed, SavedInv;
    AskKeys(s, asks);
    assert Woken(s, p, c).procs == s.procs;
    hide Woken;
    TaskFollows(s, Woken(s, p, c), asks, asks, t);
  }

  lemma SpawnFollows(s: State, asks: Asks, t: Task, p: Pid)
    requires AskInv(s, asks) && t !in s.tasks
    ensures AskInv(Spawned(s, t, p), asks[t := New])
  {
    AskKeys(s, asks);
    TaskFollows(s, Spawned(s, t, p), asks, asks[t := New], t);
  }

  predicate Calls(act: Action) {
    act.UserYield? || act.UserLock? || act.UserIO? || act.UserFinish? || act.ChanPark?
  }

  lemma CallShape(s: State, act: Action)
    requires Enabled(s, act) && Calls(act) && Me(s, act.p) in s.tasks && s.procs[act.p].todos == []
    ensures var s', t, p := Apply(s, act), Me(s, act.p), act.p;
            && s'.loc == s.loc && s'.tasks.Keys == s.tasks.Keys
            && s'.tasks == s.tasks[t := s'.tasks[t]]
            && s'.tasks[t].status == (match act
                 case UserYield(_) => s.tasks[t].status
                 case UserFinish(_) => Done
                 case _ => Block)
            && p in s'.procs && s'.procs == s.procs[p := s'.procs[p]]
            && s'.procs[p].pc.YieldTop?
            && s'.procs[p].todos == (match act
                 case UserLock(_, m) => [JoinMutex(t, m)]
                 case UserIO(_) => [SubmitIO(t)]
                 case ChanPark(_, c) => [ReleaseChan(t, c)]
                 case _ => [])
  {
    assert forall todo: ToDo :: [] + [todo] == [todo];
  }

  lemma CallSuits(s: State, asks: Asks, act: Action)
    requires Enabled(s, act) && Calls(act) && Me(s, act.p) in s.tasks && s.procs[act.p].todos == []
    ensures var s', t, asks' := Apply(s, act), Me(s, act.p), Asked(asks, s, act);
            && t in asks' && asks' == asks[t := asks'[t]] && Suits(s', asks'[t], t, Cpu(act.p))
            && (asks'[t].Finished? <==> act.UserFinish?)
  {
    CallShape(s, act);
    hide Apply;
  }

  lemma CallMoves(s: State, asks: Asks, act: Action)
    requires asks.Keys == s.tasks.Keys == s.loc.Keys
    requires Enabled(s, act) && Calls(act) && Me(s, act.p) in s.tasks && s.procs[act.p].todos == []
    ensures Moves(s, Apply(s, act), asks, Asked(asks, s, act), act.p, Me(s, act.p))
  {
    CallShape(s, act);
    hide Apply;
  }

  lemma CallFollows(s: State, asks: Asks, act: Action)
    requires Inv(s) && AskInv(s, asks) && Enabled(s, act) && Calls(act)
    ensures AskInv(Apply(s, act), Asked(asks, s, act))
  {
    var p := act.p;
    AtProc(s, p);
    MeIsTask(s, p);
    hide Inv, Housed, SavedInv, Suits, WindowKnown;
    var t := Me(s, p);
    AskAt(s, asks, t);
    AskKeys(s, asks);
    hide AskInv, Moves;
    CallSuits(s, asks, act);
    CallMoves(s, asks, act);
    CallStatus(s, asks, act);
    hide Apply, Asked;
    FollowsAt(s, Apply(s, act), asks, Asked(asks, s, act), p, t, t);
  }

  lemma CallStatus(s: State, asks: Asks, act: Action)
    requires Enabled(s, act) && Calls(act) && Me(s, act.p) in s.tasks && s.procs[act.p].todos == []
    requires !s.tasks[Me(s, act.p)].status.Done?
    ensures Apply(s, act).loc == s.loc && Me(s, act.p) in Apply(s, act).tasks
    ensures Apply(s, act).tasks[Me(s, act.p)].status.Done? <==> act.UserFinish?
  {
    CallShape(s, act);
    hide Apply;
  }

  lemma ChanFollows(s: State, asks: Asks, act: Action)
    requires Inv(s) && AskInv(s, asks) && Enabled(s, act) && (act.ChanLock? || act.ChanUnlock?)
    ensures AskInv(Apply(s, act), asks)
  {
    hide Inv, AskInv;
    NothingFollows(s, Apply(s, act), asks);
  }

  lemma StepFollows(s: State, asks: Asks, act: Action)
    requires Inv(s) && AskInv(s, asks) && Enabled(s, act)
    ensures AskInv(Apply(s, act), Asked(asks, s, act))
  {
    hide Inv, AskInv, TurnStep, Woken, Spawned;
    match act
    case Turn(p) => TurnFollows(s, asks, p);
    case Carry(src, i, dst) => CarryFollows(s, asks, src, i, dst);
    case ChanWake(p, c) => WakeFollows(s, asks, p, c);
    case Spawn(t, p) => SpawnFollows(s, asks, t, p);
    case ChanLock(_, _) => ChanFollows(s, asks, act);
    case ChanUnlock(_, _) => ChanFollows(s, asks, act);
    case _ => CallFollows(s, asks, act);
  }

  // ----- Every run

  /** `asks` records what the tasks ask for along the run. */
  ghost predicate History(run: seq<State>, asks: seq<Asks>) {
    && |asks| == |run| > 0 && asks[0] == map[]
    && forall i {:trigger asks[i]} | 0 < i < |run| :: Recorded(run, asks, i)
  }

  ghost predicate Recorded(run: seq<State>, asks: seq<Asks>, i: int) {
    && 0 < i < |run| == |asks|
    && exists act {:trigger Advances(run[i - 1], run[i], asks[i - 1], asks[i], act)} ::
         Advances(run[i - 1], run[i], asks[i - 1], asks[i], act)
  }

  predicate Advances(s: State, s': State, asks: Asks, asks': Asks, act: Action) {
    Step(s, s', act) && asks' == Asked(asks, s, act)
  }

  lemma LastAsk(run: seq<State>, asks: seq<Asks>, i: nat) returns (act: Action)
    requires History(run, asks) && 0 < i < |run|
    ensures |asks| == |run| && Advances(run[i - 1], run[i], asks[i - 1], asks[i], act)
  {
    hide Advances;
    assert asks[i] == asks[i];
    assert Recorded(run, asks, i);
    act :| Advances(run[i - 1], run[i], asks[i - 1], asks[i], act);
  }

  lemma HistoryGrows(run: seq<State>, less: seq<Asks>, next: Asks, act: Action)
    requires |run| > 1 && History(run[..|run| - 1], less)
    requires Advances(run[|run| - 2], run[|run| - 1], less[|run| - 2], next, act)
    ensures History(run, less + [next])
  {
    hide Advances;
    var asks, n := less + [next], |run| - 1;
    forall i | 0 < i < |run|
      ensures Recorded(run, asks, i)
    {
      if i < n {
        assert less[i] == asks[i] && less[i - 1] == asks[i - 1];
        assert run[..n][i] == run[i] && run[..n][i - 1] == run[i - 1];
        assert Recorded(run[..n], less, i);
        var a :| Advances(run[..n][i - 1], run[..n][i], less[i - 1], less[i], a);
        assert Advances(run[i - 1], run[i], asks[i - 1], asks[i], a);
      } else {
        assert Advances(run[n - 1], run[n], asks[n - 1], asks[n], act);
      }
    }
  }

  lemma {:induction false} EveryRunHasHistory(restores: bool, run: seq<State>) returns (asks: seq<Asks>)
    requires Run(restores, run)
    ensures History(run, asks)
    decreases |run|
  {
    hide Apply, Asked;
    if |run| == 1 {
      return [map[]];
    }
    var n := |run| - 1;
    ShorterRun(restores, run);
    assert NextAt(run, n);
    hide Run;
    var less := EveryRunHasHistory(restores, run[..n]);
    HistoryLength(run[..n], less);
    var act :| Step(run[n - 1], run[n], act);
    hide History;
    HistoryGrows(run, less, Asked(less[n - 1], run[n - 1], act), act);
    return less + [Asked(less[n - 1], run[n - 1], act)];
  }

  lemma ShorterRun(restores: bool, run: seq<State>)
    requires Run(restores, run) && |run| > 1
    ensures Run(restores, run[..|run| - 1])
  {
    hide Next;
    var less := run[..|run| - 1];
    forall i | 0 < i < |less|
      ensures NextAt(less, i)
    {
      assert NextAt(run, i);
    }
  }

  lemma {:induction false} AsksAreFollowed(restores: bool, run: seq<State>, asks: seq<Asks>, i: nat)
    requires Run(restores, run) && History(run, asks) && i < |run|
    ensures AskInv(run[i], asks[i])
  {
    hide Inv, AskInv, Apply, Asked;
    if i == 0 {
      NobodyYet(restores, run, asks);
    } else {
      AsksAreFollowed(restores, run, asks, i - 1);
      RunInv(restores, run, i - 1);
      var act := LastAsk(run, asks, i);
      StepFollows(run[i - 1], asks[i - 1], act);
    }
  }

  lemma NobodyYet(restores: bool, run: seq<State>, asks: seq<Asks>)
    requires Run(restores, run) && History(run, asks)
    ensures AskInv(run[0], asks[0])
  {
  }

  // ----- The theorems

  /** Each task is only where what it asked for brings it: in every state of every run, with the status restored or as
      written, a mutex's queue holds tasks that wait for that mutex, a channel's those that have parked on it, the I/O
      queue, the ring and the hands in between those that do I/O, the pool those whose function has returned; those are
      in no runnable queue and never run again; and each pending to-do does what its task asked for. */
  lemma PlacesSuit(restores: bool, run: seq<State>, asks: seq<Asks>, i: nat, pl: Place, t: Task)
    requires Run(restores, run) && History(run, asks) && i < |run| && t in Held(run[i], pl)
    ensures t in asks[i] && Suits(run[i], asks[i][t], t, pl)
  {
    hide Run, History, Inv, AskInv, Held, Suits;
    HistoryLength(run, asks);
    RunInv(restores, run, i);
    Parts(run[i]);
    InPlace(run[i], pl, t);
    AsksAreFollowed(restores, run, asks, i);
    AskAt(run[i], asks[i], t);
  }

  /** Where a to-do about t brings it. */
  function Destination(p: Pid, ask: Ask): Place {
    match ask
    case New => Nowhere
    case Yielded => In(RunQ(p))
    case WaitsFor(m) => In(MutexQ(m))
    case DoesIO => In(IoQ)
    case ParksOn(c) => ChanQ(c)
    case Finished => In(Pool)
  }

  /** And it gets there: the to-do about t puts it behind those that are already in the queue it asked for. */
  lemma ArrivesWhereAsked(restores: bool, run: seq<State>, asks: seq<Asks>, i: nat, p: Pid, t: Task)
    requires Run(restores, run) && History(run, asks) && i < |run| && p in run[i].procs
    requires run[i].procs[p].pc.Drain? && t in Held(run[i], ToDos(p))
    ensures t in asks[i]
    ensures var pl := Destination(p, asks[i][t]);
            && Held(run[i], ToDos(p)) == [t] && Held(TurnStep(run[i], p), ToDos(p)) == []
            && Held(TurnStep(run[i], p), pl) == Held(run[i], pl) + [t]
  {
    hide Run, History;
    var s := run[i];
    HistoryLength(run, asks);
    PlacesSuit(restores, run, asks, i, ToDos(p), t);
    RunInv(restores, run, i);
    AtProc(s, p);
    hide Inv, Housed, SavedInv;
    var todo := s.procs[p].todos[0];
    assert s.procs[p].todos == [todo];
    CapturedOne(todo, s.procs[p].stack);
    DrainMoves(s, p, todo);
    DrainShape(s, p);
    assert Dst(p, todo) == Destination(p, asks[i][t]);
    hide TurnStep, Drained, Held;
  }

  // ----- Tasks whose function has returned

  /** Step k of the run: t's function returns on processer p (lines 33-35). */
  predicate Finishes(run: seq<State>, k: nat, p: Pid, t: Task) {
    && 0 < k < |run| && UserAt(run[k - 1], p) && t == Me(run[k - 1], p)
    && run[k] == Apply(run[k - 1], UserFinish(p))
  }

  lemma FinishIsDone(restores: bool, run: seq<State>, k: nat, p: Pid, t: Task)
    requires Run(restores, run) && Finishes(run, k, p, t)
    ensures t in run[k].tasks && run[k].tasks[t].status.Done?
  {
    hide Run, Inv;
    RunInv(restores, run, k - 1);
    MeIsTask(run[k - 1], p);
  }

  /** Nobody asks for anything after it has finished. */
  lemma AskStays(s: State, asks: Asks, act: Action, t: Task)
    requires Inv(s) && AskInv(s, asks) && Enabled(s, act) && t in asks && asks[t].Finished?
    ensures t in Asked(asks, s, act) && Asked(asks, s, act)[t].Finished?
  {
    AskKeys(s, asks);
    if Calls(act) {
      AtProc(s, act.p);
      MeIsTask(s, act.p);
      AskAt(s, asks, Me(s, act.p));
    }
    hide Inv, AskInv, Housed, SavedInv;
  }

  lemma {:induction false} FinishedStays(restores: bool, run: seq<State>, asks: seq<Asks>, k: nat, i: nat, t: Task)
    requires Run(restores, run) && History(run, asks) && k <= i < |run| == |asks|
    requires t in asks[k] && asks[k][t].Finished?
    ensures t in asks[i] && asks[i][t].Finished?
    decreases i
  {
    hide Run, History, Inv, AskInv, Apply, Asked, Enabled;
    if k < i {
      FinishedStays(restores, run, asks, k, i - 1, t);
      RunInv(restores, run, i - 1);
      AsksAreFollowed(restores, run, asks, i - 1);
      var act := LastAsk(run, asks, i);
      AskStays(run[i - 1], asks[i - 1], act, t);
    }
  }

  /** Only these places hold a finished task: the CPU it is on its way off, the to-do that will give it to the pool, and
      the pool. */
  predicate Retired(s: State, pl: Place, t: Task) {
    match pl
    case Cpu(p) => p in s.procs && s.procs[p].stack == On(t) && Switching(s.procs[p].pc)
    case ToDos(p) => p in s.procs && s.procs[p].todos == [Recycle(t)]
    case In(b) => b.Pool?
    case _ => false
  }

  lemma FinishedSuits(s: State, t: Task, pl: Place)
    requires t in Held(s, pl) && Suits(s, Finished, t, pl)
    ensures Retired(s, pl, t)
  {
  }

  /** A task whose function has returned never runs in its own code again, and goes to the pool: in every later state of
      every run, with the status restored or as written, some place holds it, and only these three can. */
  lemma FinishedAreRetired(restores: bool, run: seq<State>, k: nat, i: nat, p: Pid, t: Task)
    requires Run(restores, run) && Finishes(run, k, p, t) && k <= i < |run|
    ensures exists pl :: t in Held(run[i], pl)
    ensures forall pl | t in Held(run[i], pl) :: Retired(run[i], pl, t)
    ensures forall q | q in run[i].procs && UserAt(run[i], q) :: Me(run[i], q) != t
  {
    hide Run, History, Inv, AskInv, Held, Suits, Finishes;
    var asks := EveryRunHasHistory(restores, run);
    HistoryLength(run, asks);
    FinishIsDone(restores, run, k, p, t);
    AsksAreFollowed(restores, run, asks, k);
    AskAt(run[k], asks[k], t);
    FinishedStays(restores, run, asks, k, i, t);
    forall pl | t in Held(run[i], pl)
      ensures Retired(run[i], pl, t)
    {
      PlacesSuit(restores, run, asks, i, pl, t);
      FinishedSuits(run[i], t, pl);
    }
    RunInv(restores, run, i);
    AsksAreFollowed(restores, run, asks, i);
    SomewhereOrYielded(run[i], asks[i], t);
    forall q | q in run[i].procs && UserAt(run[i], q)
      ensures Me(run[i], q) != t
    {
      OnCpu(run[i], q);
    }
  }

  lemma HistoryLength(run: seq<State>, asks: seq<Asks>)
    requires History(run, asks)
    ensures |asks| == |run|
  {
  }

  lemma OnCpu(s: State, q: Pid)
    requires UserAt(s, q)
    ensures Me(s, q) in Held(s, Cpu(q)) && !Retired(s, Cpu(q), Me(s, q))
  {
  }

  lemma SomewhereOrYielded(s: State, asks: Asks, t: Task)
    requires Inv(s) && AskInv(s, asks) && t in asks && asks[t].Finished?
    ensures exists pl :: t in Held(s, pl)
  {
    AskKeys(s, asks);
    AskAt(s, asks, t);
    Parts(s);
    hide AskInv, SavedInv, Held;
    assert s.loc[t].Nowhere? || t in Held(s, s.loc[t]);
  }

  /** The pool holds nothing else: whatever is in it has finished. */
  lemma PoolHoldsFinished(restores: bool, run: seq<State>, i: nat, t: Task)
    requires Run(restores, run) && i < |run| && t in BagAt(run[i], Pool)
    ensures exists k: nat, p: Pid :: k <= i && Finishes(run, k, p, t)
  {
    hide Run, History, Inv, AskInv, Finishes;
    var asks := EveryRunHasHistory(restores, run);
    HistoryLength(run, asks);
    assert t in Held(run[i], In(Pool));
    PlacesSuit(restores, run, asks, i, In(Pool), t);
    var k, p := HasFinished(run, asks, i, t);
    assert Finishes(run, k, p, t);
  }

  lemma {:induction false} HasFinished(run: seq<State>, asks: seq<Asks>, i: nat, t: Task) returns (k: nat, p: Pid)
    requires History(run, asks) && i < |run| && t in asks[i] && asks[i][t].Finished?
    ensures k <= i && Finishes(run, k, p, t)
  {
    hide Apply, Inv;
    if i > 0 {
      var act := LastAsk(run, asks, i);
      if act.UserFinish? && Me(run[i - 1], act.p) == t {
        k, p := i, act.p;
      } else {
        k, p := HasFinished(run, asks, i - 1, t);
      }
    }
  }
}
