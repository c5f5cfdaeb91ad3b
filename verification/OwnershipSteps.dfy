/**
The channel operations of running tasks keep the invariant; so does every step, and every state of every run
satisfies it.
*/
module OwnershipSteps {
  import opened Options
  import opened OwnershipModel
  import opened OwnershipInvariant
  import opened OwnershipTurns

  // ----- Channels

  /** A task that is running in its own code has not parked. */
  lemma NotOpen(s: State, p: Pid, c: ChanId)
    requires Inv(s) && UserAt(s, p) && ChanAt(s, c).lock == Some(Me(s, p))
    ensures !Open(ChanAt(s, c))
  {
    hide SavedInv;
    assert ChanInv(s, c);
    AtProc(s, p);
    forall q | q in s.procs
      ensures s.procs[q].todos != [ReleaseChan(Me(s, p), c)]
    {
      if q != p { OneCpu(s, p, q, Me(s, p)); }
    }
  }

  /** Only channel c differs, and nobody was about to release it. */
  lemma ChanStep(s: State, s': State, c: ChanId, p: Option<Pid>)
    requires Inv(s) && !Open(ChanAt(s, c)) && Housed(s') && SavedInv(s')
    requires s'.chans == s.chans[c := ChanAt(s', c)] && s'.procs.Keys == s.procs.Keys && s'.restores == s.restores
    requires forall q {:trigger s'.procs[q]} | q in s.procs && p != Some(q) ::
               s'.procs[q] == s.procs[q] && SameStatus(s, s', s.procs[q])
    requires p.Some? ==> p.value in s.procs && ProcInv(s', p.value) && s.procs[p.value].todos == []
    requires ChanInv(s', c)
    ensures Inv(s')
  {
    hide Housed, SavedInv;
    forall q | q in s.procs && p != Some(q)
      ensures SameWindow(s, s', s.procs[q])
    {
      assert ProcInv(s, q);
    }
    forall d
      ensures ChanInv(s', d)
    {
      assert ChanInv(s, d);
      if d != c && Open(ChanAt(s', d)) {
        assert ChanAt(s', d) == ChanAt(s, d);
        var q :| q in s.procs && s.procs[q].todos == [ReleaseChan(ChanAt(s, d).lock.value, d)];
        assert p != Some(q);
        assert s'.procs[q] == s.procs[q];
      }
    }
    Assemble(s, s', p);
  }

  /** Taking or releasing a channel's mutex, by a running task. */
  lemma ChanLockInv(s: State, p: Pid, c: ChanId, lock: Option<Task>)
    requires Inv(s) && UserAt(s, p)
    requires if lock.None? then ChanAt(s, c).lock == Some(Me(s, p))
             else ChanAt(s, c).lock.None? && lock.value == Me(s, p)
    ensures Inv(SetChan(s, c, ChanAt(s, c).(lock := lock)))
  {
    hide Inv, SavedInv, ProcInv, Housed, Held;
    AtProc(s, p);
    if lock.None? { NotOpen(s, p, c); } else { MeIsTask(s, p); NotParked(s, c, Me(s, p)); }
    RelockInv(s, c, lock);
  }

  lemma RelockInv(s: State, c: ChanId, lock: Option<Task>)
    requires Inv(s) && !Open(ChanAt(s, c)) && !Open(ChanAt(s, c).(lock := lock))
    ensures Inv(SetChan(s, c, ChanAt(s, c).(lock := lock)))
  {
    hide Inv, SavedInv, ProcInv, Housed, Held;
    var s' := SetChan(s, c, ChanAt(s, c).(lock := lock));
    Parts(s);
    RelockHeld(s, c, lock);
    Stayed(s, s');
    SavedKept(s, s');
    ChanStep(s, s', c, None);
  }

  lemma RelockHeld(s: State, c: ChanId, lock: Option<Task>)
    requires !Open(ChanAt(s, c)) && !Open(ChanAt(s, c).(lock := lock))
    ensures forall pl {:trigger Held(SetChan(s, c, ChanAt(s, c).(lock := lock)), pl)} ::
              Held(SetChan(s, c, ChanAt(s, c).(lock := lock)), pl) == Held(s, pl)
  {
  }

  lemma SavedKept(s: State, s': State)
    requires SavedInv(s) && s'.tasks == s.tasks && s'.loc == s.loc
    ensures SavedInv(s')
  {
  }

  lemma NotParked(s: State, c: ChanId, t: Task)
    requires Housed(s) && t in s.tasks && s.loc[t].Cpu? && ChanAt(s, c).lock.None?
    ensures t !in ChanAt(s, c).parked
  {
    assert t in ChanAt(s, c).parked ==> t in Held(s, ChanQ(c));
  }

  lemma ParkInv(s: State, p: Pid, c: ChanId)
    requires Inv(s) && UserAt(s, p) && ChanAt(s, c).lock == Some(Me(s, p))
    ensures Inv(Parked(s, p, c))
  {
    hide Inv, Housed, SavedInv, Parked;
    var s' := Parked(s, p, c);
    AtProc(s, p);
    NotOpen(s, p, c);
    MeIsTask(s, p);
    ParkShape(s, p, c);
    ParkHoused(s, p, c);
    forall q | q in s.procs && q != p
      ensures s'.procs[q] == s.procs[q] && SameStatus(s, s', s.procs[q])
    {
      OneCpu(s, p, q, Me(s, p));
    }
    assert s'.procs[p].todos == [ReleaseChan(Me(s, p), c)];
    ChanStep(s, s', c, Some(p));
  }

  lemma ParkShape(s: State, p: Pid, c: ChanId)
    requires UserAt(s, p) && Me(s, p) in s.tasks && s.procs[p].todos == [] && ChanAt(s, c).lock == Some(Me(s, p))
    ensures Parked(s, p, c).procs == s.procs[p := s.procs[p].(pc := YieldTop, todos := [ReleaseChan(Me(s, p), c)])]
    ensures Parked(s, p, c).chans == s.chans[c := ChanAt(Parked(s, p, c), c)]
    ensures ChanAt(Parked(s, p, c), c) == ChanAt(s, c).(parked := ChanAt(s, c).parked + [Me(s, p)])
    ensures Parked(s, p, c).tasks == s.tasks[Me(s, p) := s.tasks[Me(s, p)].(status := Block)]
    ensures Parked(s, p, c).loc == s.loc && Parked(s, p, c).bags == s.bags && Parked(s, p, c).restores == s.restores
  {
    assert [] + [ReleaseChan(Me(s, p), c)] == [ReleaseChan(Me(s, p), c)];
  }

  lemma ParkHoused(s: State, p: Pid, c: ChanId)
    requires Housed(s) && SavedInv(s) && UserAt(s, p) && Me(s, p) in s.tasks && s.procs[p].todos == []
    requires s.procs[p].running == Some(Me(s, p))
    requires ChanAt(s, c).lock == Some(Me(s, p)) && !Open(ChanAt(s, c))
    ensures Housed(Parked(s, p, c)) && SavedInv(Parked(s, p, c))
  {
    hide Housed, Parked;
    var s' := Parked(s, p, c);
    ParkShape(s, p, c);
    OwnIsNotCaptured(ReleaseChan(Me(s, p), c));
    assert Published(ChanAt(s', c)) == ChanAt(s, c).parked;
    assert s'.tasks.Keys == s.tasks.Keys;
    Stayed(s, s');
  }

  lemma WakeInv(s: State, p: Pid, c: ChanId)
    requires Inv(s) && UserAt(s, p) && ChanAt(s, c).lock == Some(Me(s, p)) && ChanAt(s, c).parked != []
    ensures Inv(Woken(s, p, c))
  {
    hide Inv, Housed, SavedInv, ProcInv;
    var s' := Woken(s, p, c);
    AtProc(s, p);
    NotOpen(s, p, c);
    WakeHoused(s, p, c);
    ChanStep(s, s', c, None);
  }

  lemma WakeHoused(s: State, p: Pid, c: ChanId)
    requires Housed(s) && SavedInv(s) && ChanAt(s, c).parked != [] && !Open(ChanAt(s, c))
    ensures Housed(Woken(s, p, c)) && SavedInv(Woken(s, p, c)) && !Open(ChanAt(Woken(s, p, c), c))
  {
    hide Housed, Held, Woken, SameElsewhere, Published, Open;
    var t := ChanAt(s, c).parked[0];
    WakeMoves(s, p, c);
    WakeElsewhere(s, p, c);
    InPlace(s, ChanQ(c), t);
    Moved(s, Woken(s, p, c), t, ChanQ(c), 0, In(Hand(p)));
  }

  lemma WakeMoves(s: State, p: Pid, c: ChanId)
    requires ChanAt(s, c).parked != [] && !Open(ChanAt(s, c))
    ensures !Open(ChanAt(Woken(s, p, c), c))
    ensures Held(s, ChanQ(c)) == ChanAt(s, c).parked
    ensures Held(Woken(s, p, c), ChanQ(c)) == Without(ChanAt(s, c).parked, 0)
    ensures Held(Woken(s, p, c), In(Hand(p))) == Held(s, In(Hand(p))) + [ChanAt(s, c).parked[0]]
    ensures Woken(s, p, c).restores == s.restores && Woken(s, p, c).tasks == s.tasks
    ensures Woken(s, p, c).loc == s.loc[ChanAt(s, c).parked[0] := In(Hand(p))]
  {
    var parked := ChanAt(s, c).parked;
    assert ChanAt(Woken(s, p, c), c) == ChanAt(s, c).(parked := parked[1..]);
    assert parked[..0] + parked[1..] == parked[1..];
  }

  lemma WakeElsewhere(s: State, p: Pid, c: ChanId)
    requires ChanAt(s, c).parked != []
    ensures SameElsewhere(s, Woken(s, p, c), ChanQ(c), In(Hand(p)))
  {
    hide Captured, Published;
  }

  // ----- Every step and every run

  lemma TurnInv(s: State, p: Pid)
    requires Inv(s) && p in s.procs && !s.procs[p].pc.User?
    ensures Inv(TurnStep(s, p))
  {
    hide Inv, Housed, SavedInv, PopRunnable, Load, DrainStep, YieldTopStep, SwitchOut;
    AtProc(s, p);
    match s.procs[p].pc
    case MainTop => if BagAt(s, RunQ(p)) != [] { PopInv(s, p, MainSwap); }
    case MainSwap => MainSwapInv(s, p);
    case Drain => if s.procs[p].todos == [] { DrainEndInv(s, p); } else { DrainInv(s, p); }
    case YieldTop => YieldTopInv(s, p);
    case YieldPop(cur) => if BagAt(s, RunQ(p)) == [] { YieldStays(s, p, cur); } else { PopInv(s, p, YieldSwap(cur)); }
    case YieldSwap(cur) => YieldSwapInv(s, p, cur);
    case YieldOut(cur) => YieldOutInv(s, p, cur);
  }

  lemma StepInv(s: State, s': State, act: Action)
    requires Inv(s) && Step(s, s', act)
    ensures Inv(s')
  {
    hide Inv, TurnStep, Suspend, SetChan, Parked, Woken, Spawned;
    match act
    case Turn(p) => TurnInv(s, p);
    case UserYield(p) => UserYieldInv(s, p, false);
    case UserLock(p, m) => SuspendInv(s, p, JoinMutex(Me(s, p), m));
    case UserIO(p) => SuspendInv(s, p, SubmitIO(Me(s, p)));
    case UserFinish(p) => UserYieldInv(s, p, true);
    case ChanLock(p, c) => ChanLockInv(s, p, c, Some(Me(s, p)));
    case ChanUnlock(p, c) => ChanLockInv(s, p, c, None);
    case ChanPark(p, c) => ParkInv(s, p, c);
    case ChanWake(p, c) => WakeInv(s, p, c);
    case Carry(src, i, dst) => CarryInv(s, src, i, dst);
    case Spawn(t, p) => SpawnInv(s, t, p);
  }

  /** Only q's fields differ, and perhaps what is known of tasks and containers. */
  predicate Turned(s: State, s': State, q: Pid) {
    && q in s'.procs && s'.procs == s.procs[q := s'.procs[q]]
    && s'.restores == s.restores && s'.tasks.Keys == s.tasks.Keys
  }

  lemma PerformShape(s: State, p: Pid, todo: ToDo)
    ensures Perform(s, p, todo).procs == s.procs && Perform(s, p, todo).tasks == s.tasks
    ensures Perform(s, p, todo).loc == s.loc[todo.t := Dst(p, todo)] && Perform(s, p, todo).restores == s.restores
  {
  }

  lemma LoadMode(s: State, q: Pid, t: Task)
    ensures Load(s, q, t).procs == s.procs
    ensures Load(s, q, t).restores == s.restores && Load(s, q, t).tasks.Keys == s.tasks.Keys
  {
  }

  lemma PopMode(s: State, q: Pid, proc: Proc)
    requires BagAt(s, RunQ(q)) != []
    ensures Turned(s, PopRunnable(s, q, proc), q)
  {
  }

  lemma DrainMode(s: State, q: Pid, proc: Proc)
    ensures Turned(s, DrainStep(s, q, proc), q)
  {
    if proc.todos != [] { PerformShape(SetProc(s, q, proc.(todos := proc.todos[1..])), q, proc.todos[0]); }
    hide Perform;
  }

  lemma OutMode(s: State, q: Pid, proc: Proc, cur: Task, stack: Stack)
    ensures Turned(s, SwitchOut(s, q, proc, cur, stack), q)
  {
  }

  lemma YieldMode(s: State, q: Pid, proc: Proc, cur: Task)
    ensures Turned(s, YieldTopStep(s, q, proc, cur), q)
  {
  }

  lemma TurnMode(s: State, q: Pid)
    requires q in s.procs
    ensures Turned(s, TurnStep(s, q), q)
  {
    var proc := s.procs[q];
    hide Load, SwitchOut, DrainStep, PopRunnable, YieldTopStep, StatusOf, BagAt;
    assert s.procs == s.procs[q := proc];
    match proc.pc
    case MainTop => if BagAt(s, RunQ(q)) != [] { PopMode(s, q, proc.(pc := MainSwap)); }
    case MainSwap =>
      if proc.running.Some? {
        LoadMode(SetProc(s, q, proc.(pc := Drain, stack := On(proc.running.value))), q, proc.running.value);
      }
    case Drain => DrainMode(s, q, proc);
    case YieldTop => if proc.running.Some? { YieldMode(s, q, proc, proc.running.value); }
    case YieldPop(cur) => if BagAt(s, RunQ(q)) != [] { PopMode(s, q, proc.(pc := YieldSwap(cur))); }
    case YieldSwap(cur) =>
      if proc.running.Some? {
        OutMode(s, q, proc, cur, On(proc.running.value));
        LoadMode(SwitchOut(s, q, proc, cur, On(proc.running.value)), q, proc.running.value);
      }
    case YieldOut(cur) => OutMode(s, q, proc, cur, Main);
    case _ =>
  }

  /** No step changes what the run is a run of, and only Spawn makes a task. */
  lemma StepMode(s: State, act: Action)
    requires Enabled(s, act)
    ensures Apply(s, act).restores == s.restores
    ensures Apply(s, act).tasks.Keys == s.tasks.Keys + if act.Spawn? then {act.t} else {}
  {
    hide TurnStep, BagAt;
    if act.Turn? { TurnMode(s, act.p); }
  }

  lemma {:induction false} RunInv(restores: bool, run: seq<State>, i: nat)
    requires Run(restores, run) && i < |run|
    ensures Inv(run[i]) && run[i].restores == restores
  {
    hide Inv, Apply;
    if i == 0 {
      var pids :| run[0] == Init(restores, pids);
      InitInv(restores, pids);
    } else {
      RunInv(restores, run, i - 1);
      assert NextAt(run, i);
      var act :| Step(run[i - 1], run[i], act);
      StepInv(run[i - 1], run[i], act);
      StepMode(run[i - 1], act);
    }
  }
}
