/**
Which tasks are lost as written, where line 44 sets the status of a suspending task to "block" and nothing sets it
back: exactly those that have called `Yield` with that status and have been switched out since.
*/
module OwnershipAsWritten {
  import opened Options
  import opened OwnershipModel
  import opened OwnershipInvariant
  import opened OwnershipTurns
  import opened OwnershipSteps
  import opened OwnershipTheorems

  predicate Switching(pc: Pc) {
    pc.YieldTop? || pc.YieldPop? || pc.YieldSwap? || pc.YieldOut?
  }

  /** t is on its way off p's thread, and no to-do will see to it. */
  predicate Leaving(s: State, p: Pid, t: Task) {
    && p in s.procs && s.procs[p].stack == On(t) && Switching(s.procs[p].pc) && s.procs[p].todos == []
    && StatusOf(s, t).Block?
  }

  /** The step is a call of `Yield` by t on processer p while t's status is still "block". */
  predicate YieldsBlocked(s: State, s': State, p: Pid, t: Task) {
    UserAt(s, p) && t == Me(s, p) && StatusOf(s, t).Block? && s' == Apply(s, UserYield(p))
  }

  // ----- Where a task is, from one state to the next

  /** t stays where it is, or goes from one place to another, or its processer switches it out without a to-do. */
  predicate LocMoves(s: State, s': State, act: Action, t: Task) {
    && t in s.loc && t in s'.loc
    && (s.loc[t].Nowhere? ==> s'.loc[t].Nowhere?)
    && (s'.loc[t].Nowhere? && !s.loc[t].Nowhere? ==>
          act.Turn? && Leaving(s, act.p, t) && act.p in s'.procs && s'.procs[act.p].stack != On(t))
  }

  lemma DrainMovesLoc(s: State, p: Pid, t: Task)
    requires Inv(s) && p in s.procs && s.procs[p].pc.Drain? && t in s.tasks
    ensures LocMoves(s, TurnStep(s, p), Turn(p), t)
  {
    AtProc(s, p);
    InPlace(s, ToDos(p), t);
    var proc := s.procs[p];
    hide Inv, Housed, SavedInv, Perform, Leaving;
    if proc.todos != [] {
      assert proc.todos == [proc.todos[0]];
      CapturedOne(proc.todos[0], proc.stack);
      PerformShape(SetProc(s, p, proc.(todos := proc.todos[1..])), p, proc.todos[0]);
    }
  }

  lemma LoadMovesLoc(s: State, p: Pid, u: Task, t: Task)
    requires t in s.loc
    ensures t in Load(s, p, u).loc && Load(s, p, u).loc[t] == if t == u then Cpu(p) else s.loc[t]
    ensures Load(s, p, u).procs == s.procs
  {
  }

  lemma OutMovesLoc(s: State, p: Pid, cur: Task, stack: Stack, t: Task)
    requires t in s.loc && p in s.procs
    ensures var s' := SwitchOut(s, p, s.procs[p], cur, stack);
            && t in s'.loc
            && s'.loc[t] == (if t != cur then s.loc[t] else if s.procs[p].todos == [] then Nowhere else ToDos(p))
            && p in s'.procs && s'.procs[p].stack == stack
  {
  }

  lemma PopMovesLoc(s: State, p: Pid, proc: Proc, t: Task)
    requires Inv(s) && BagAt(s, RunQ(p)) != [] && t in s.tasks
    ensures LocMoves(s, PopRunnable(s, p, proc), Turn(p), t)
  {
    Parts(s);
    InPlace(s, In(RunQ(p)), t);
    hide Inv, Housed, SavedInv, Leaving;
  }

  lemma TurnMovesLoc(s: State, p: Pid, t: Task)
    requires Inv(s) && p in s.procs && !s.procs[p].pc.User? && t in s.tasks
    ensures LocMoves(s, TurnStep(s, p), Turn(p), t)
  {
    AtProc(s, p);
    InPlace(s, Cpu(p), t);
    InPlace(s, Slot(p), t);
    var proc := s.procs[p];
    hide Inv, Housed, SavedInv, Load, SwitchOut, DrainStep, PopRunnable;
    match proc.pc
    case MainTop => if BagAt(s, RunQ(p)) != [] { PopMovesLoc(s, p, proc.(pc := MainSwap), t); }
    case YieldPop(cur) => if BagAt(s, RunQ(p)) != [] { PopMovesLoc(s, p, proc.(pc := YieldSwap(cur)), t); }
    case MainSwap =>
      var u := proc.running.value;
      LoadMovesLoc(SetProc(s, p, proc.(pc := Drain, stack := On(u))), p, u, t);
    case Drain => DrainMovesLoc(s, p, t);
    case YieldSwap(cur) =>
      var u := proc.running.value;
      OutMovesLoc(s, p, cur, On(u), t);
      LoadMovesLoc(SwitchOut(s, p, proc, cur, On(u)), p, u, t);
    case YieldOut(cur) => OutMovesLoc(s, p, cur, Main, t);
    case _ =>
  }

  lemma StepMovesLoc(s: State, act: Action, t: Task)
    requires Inv(s) && Enabled(s, act) && t in s.tasks
    ensures LocMoves(s, Apply(s, act), act, t)
  {
    Parts(s);
    hide Inv, Housed, SavedInv, TurnStep, LocMoves;
    match act
    case Turn(p) => TurnMovesLoc(s, p, t);
    case _ => OtherMovesLoc(s, act, t);
  }

  lemma CarryMovesLoc(s: State, src: Bag, i: nat, dst: Bag, t: Task)
    requires Inv(s) && Enabled(s, Carry(src, i, dst)) && t in s.tasks
    ensures LocMoves(s, Apply(s, Carry(src, i, dst)), Carry(src, i, dst), t)
  {
    Parts(s);
    InPlace(s, In(src), BagAt(s, src)[i]);
    InPlace(s, Nowhere, t);
    hide Inv, Housed, SavedInv;
  }

  lemma WakeMovesLoc(s: State, p: Pid, c: ChanId, t: Task)
    requires Inv(s) && Enabled(s, ChanWake(p, c)) && t in s.tasks
    ensures LocMoves(s, Apply(s, ChanWake(p, c)), ChanWake(p, c), t)
  {
    Parts(s);
    NotOpen(s, p, c);
    InPlace(s, ChanQ(c), ChanAt(s, c).parked[0]);
    InPlace(s, Nowhere, t);
    hide Inv, Housed, SavedInv;
  }

  lemma OtherMovesLoc(s: State, act: Action, t: Task)
    requires Inv(s) && Enabled(s, act) && t in s.tasks && !act.Turn?
    ensures LocMoves(s, Apply(s, act), act, t)
  {
    if act.Carry? {
      CarryMovesLoc(s, act.src, act.i, act.dst, t);
    } else if act.ChanWake? {
      WakeMovesLoc(s, act.p, act.c, t);
    } else {
      Parts(s);
      InPlace(s, Nowhere, t);
      hide Inv, Housed, SavedInv;
    }
  }

  // ----- From the blocked yield to the switch-out

  function Actor(act: Action): Option<Pid> {
    match act
    case Carry(_, _, _) => None
    case Spawn(_, _) => None
    case Turn(p) => Some(p)
    case UserYield(p) => Some(p)
    case UserLock(p, _) => Some(p)
    case UserIO(p) => Some(p)
    case UserFinish(p) => Some(p)
    case ChanLock(p, _) => Some(p)
    case ChanUnlock(p, _) => Some(p)
    case ChanPark(p, _) => Some(p)
    case ChanWake(p, _) => Some(p)
  }

  /** A turn of q changes no other processer, and no status but that of the task it loads. */
  lemma TurnSpares(s: State, q: Pid, p: Pid, t: Task)
    requires Inv(s) && p in s.procs && q in s.procs && q != p && s.procs[p].stack == On(t)
    ensures p in TurnStep(s, q).procs && TurnStep(s, q).procs[p] == s.procs[p]
    ensures StatusOf(TurnStep(s, q), t) == StatusOf(s, t)
  {
    AtProc(s, q);
    InPlace(s, Cpu(p), t);
    InPlace(s, Slot(q), t);
    OneCpu(s, p, q, t);
    var proc := s.procs[q];
    hide Inv, Housed, SavedInv, Load, SwitchOut, DrainStep, StatusOf;
    match proc.pc
    case MainSwap =>
      LoadSpares(SetProc(s, q, proc.(pc := Drain, stack := On(proc.running.value))), q, proc.running.value, t);
    case Drain => DrainSpares(s, q, p);
    case YieldSwap(cur) =>
      OutSpares(s, q, cur, On(proc.running.value), t, p);
      LoadSpares(SwitchOut(s, q, proc, cur, On(proc.running.value)), q, proc.running.value, t);
    case YieldOut(cur) => OutSpares(s, q, cur, Main, t, p);
    case _ =>
  }

  lemma DrainSpares(s: State, q: Pid, p: Pid)
    requires p in s.procs && q in s.procs && q != p
    ensures var s' := DrainStep(s, q, s.procs[q]);
            s'.tasks == s.tasks && p in s'.procs && s'.procs[p] == s.procs[p]
  {
    var proc := s.procs[q];
    if proc.todos != [] {
      PerformShape(SetProc(s, q, proc.(todos := proc.todos[1..])), q, proc.todos[0]);
    }
    hide Perform;
  }

  lemma LoadSpares(s: State, q: Pid, u: Task, t: Task)
    ensures Load(s, q, u).procs == s.procs && (u != t ==> StatusOf(Load(s, q, u), t) == StatusOf(s, t))
  {
  }

  lemma OutSpares(s: State, q: Pid, cur: Task, stack: Stack, t: Task, p: Pid)
    requires q in s.procs && p in s.procs
    ensures var s' := SwitchOut(s, q, s.procs[q], cur, stack);
            && StatusOf(s', t) == StatusOf(s, t)
            && p in s'.procs && (p != q ==> s'.procs[p] == s.procs[p])
  {
  }

  /** What somebody else does leaves p's processer and the status of its task alone. */
  lemma OthersSpare(s: State, act: Action, p: Pid, t: Task)
    requires Inv(s) && Enabled(s, act) && Actor(act) != Some(p) && p in s.procs && s.procs[p].stack == On(t)
    ensures p in Apply(s, act).procs && Apply(s, act).procs[p] == s.procs[p]
    ensures StatusOf(Apply(s, act), t) == StatusOf(s, t)
  {
    Parts(s);
    InPlace(s, Cpu(p), t);
    if Actor(act).Some? && Actor(act).value in s.procs { OneCpu(s, p, Actor(act).value, t); }
    if act.Turn? { TurnSpares(s, act.p, p, t); }
    hide Inv, Housed, SavedInv, TurnStep;
  }

  lemma OthersProc(s: State, act: Action, p: Pid)
    requires Inv(s) && Enabled(s, act) && Actor(act) != Some(p)
    ensures p in Apply(s, act).procs <==> p in s.procs
    ensures p in s.procs ==> Apply(s, act).procs[p] == s.procs[p]
  {
    if act.Turn? { TurnMode(s, act.p); }
    hide Inv, TurnStep;
  }

  // The last step before t is Leaving.

  lemma TurnLeaves(s: State, t: Task, p: Pid)
    requires Inv(s) && p in s.procs && !s.procs[p].pc.User? && Leaving(TurnStep(s, p), p, t)
    ensures Leaving(s, p, t)
  {
    AtProc(s, p);
    var proc := s.procs[p];
    hide Inv, Housed, SavedInv, Load, SwitchOut, DrainStep;
    match proc.pc
    case MainSwap =>
      LoadSpares(SetProc(s, p, proc.(pc := Drain, stack := On(proc.running.value))), p, proc.running.value, t);
    case Drain => DrainPc(s, p, proc);
    case YieldSwap(cur) =>
      OutPc(s, p, proc, cur, On(proc.running.value));
      LoadSpares(SwitchOut(s, p, proc, cur, On(proc.running.value)), p, proc.running.value, t);
    case YieldOut(cur) => OutPc(s, p, proc, cur, Main);
    case _ =>
  }

  lemma DrainPc(s: State, p: Pid, proc: Proc)
    requires proc.pc.Drain?
    ensures p in DrainStep(s, p, proc).procs && !Switching(DrainStep(s, p, proc).procs[p].pc)
  {
    if proc.todos != [] { PerformShape(SetProc(s, p, proc.(todos := proc.todos[1..])), p, proc.todos[0]); }
    hide Perform;
  }

  lemma OutPc(s: State, p: Pid, proc: Proc, cur: Task, stack: Stack)
    ensures p in SwitchOut(s, p, proc, cur, stack).procs && SwitchOut(s, p, proc, cur, stack).procs[p].pc.Drain?
  {
  }

  lemma UserLeaves(s: State, act: Action, t: Task, p: Pid)
    requires Inv(s) && Enabled(s, act) && Actor(act) == Some(p) && !act.Turn?
    requires Leaving(Apply(s, act), p, t)
    ensures YieldsBlocked(s, Apply(s, act), p, t)
  {
    MeIsTask(s, p);
    hide Inv;
  }

  lemma LeavingBegins(s: State, act: Action, t: Task, p: Pid)
    requires Inv(s) && Enabled(s, act)
    requires Leaving(Apply(s, act), p, t)
    ensures Leaving(s, p, t) || YieldsBlocked(s, Apply(s, act), p, t)
  {
    hide Inv, Apply, YieldsBlocked;
    if Actor(act) != Some(p) {
      OthersProc(s, act, p);
      OthersSpare(s, act, p, t);
    } else if act.Turn? {
      assert Apply(s, act) == TurnStep(s, p) by { TurnIsStep(s, p); }
      TurnLeaves(s, t, p);
    } else {
      UserLeaves(s, act, t, p);
    }
  }

  lemma TurnIsStep(s: State, p: Pid)
    requires Enabled(s, Turn(p))
    ensures Apply(s, Turn(p)) == TurnStep(s, p)
  {
  }

  /** t is one step further on its way, or nowhere. */
  lemma LeavingGoesOn(s: State, act: Action, t: Task, p: Pid)
    requires Inv(s) && Enabled(s, act) && t in s.tasks && Leaving(s, p, t)
    ensures Leaving(Apply(s, act), p, t) || (t in Apply(s, act).loc && Apply(s, act).loc[t].Nowhere?)
  {
    hide Inv, Apply;
    if Actor(act) != Some(p) {
      OthersSpare(s, act, p, t);
    } else {
      TurnIsStep(s, p);
      LeavingTurn(s, t, p);
    }
  }

  lemma LeavingPop(s: State, t: Task, p: Pid)
    requires Inv(s) && t in s.tasks && Leaving(s, p, t) && s.procs[p].pc.YieldPop?
    ensures Leaving(TurnStep(s, p), p, t)
  {
    AtProc(s, p);
    hide Inv, Housed, SavedInv;
    if BagAt(s, RunQ(p)) != [] { PopKeeps(s, p, s.procs[p].(pc := YieldSwap(t)), t); }
    hide PopRunnable;
  }

  lemma PopKeeps(s: State, p: Pid, proc: Proc, t: Task)
    requires BagAt(s, RunQ(p)) != []
    ensures var s' := PopRunnable(s, p, proc);
            && p in s'.procs && s'.procs[p] == proc.(running := Some(BagAt(s, RunQ(p))[0]))
            && StatusOf(s', t) == StatusOf(s, t)
  {
  }

  lemma LeavingOut(s: State, t: Task, p: Pid)
    requires Inv(s) && t in s.tasks && Leaving(s, p, t) && (s.procs[p].pc.YieldSwap? || s.procs[p].pc.YieldOut?)
    ensures t in TurnStep(s, p).loc && TurnStep(s, p).loc[t].Nowhere?
  {
    AtProc(s, p);
    InPlace(s, Cpu(p), t);
    var proc := s.procs[p];
    hide Inv, Housed, SavedInv, Load, SwitchOut;
    if proc.pc.YieldSwap? {
      OutMovesLoc(s, p, t, On(proc.running.value), t);
      LoadMovesLoc(SwitchOut(s, p, proc, t, On(proc.running.value)), p, proc.running.value, t);
    } else {
      OutMovesLoc(s, p, t, Main, t);
    }
  }

  lemma LeavingTop(s: State, t: Task, p: Pid)
    requires Inv(s) && Leaving(s, p, t) && s.procs[p].pc.YieldTop?
    ensures Leaving(TurnStep(s, p), p, t)
  {
    AtProc(s, p);
    hide Inv, Housed, SavedInv;
    assert s.procs[p].todos + [] == s.procs[p].todos;
  }

  lemma LeavingTurn(s: State, t: Task, p: Pid)
    requires Inv(s) && t in s.tasks && Leaving(s, p, t)
    ensures Leaving(TurnStep(s, p), p, t) || (t in TurnStep(s, p).loc && TurnStep(s, p).loc[t].Nowhere?)
  {
    hide Inv, TurnStep;
    match s.procs[p].pc
    case YieldTop => LeavingTop(s, t, p);
    case YieldPop(_) => LeavingPop(s, t, p);
    case _ => LeavingOut(s, t, p);
  }

  // ----- Every run as written

  lemma NowhereIsUnheld(s: State, t: Task)
    requires Inv(s) && t in s.tasks && !s.restores
    ensures t in s.loc && (s.loc[t].Nowhere? <==> forall pl :: t !in Held(s, pl))
  {
    Parts(s);
    hide Inv;
    assert s.loc[t].Nowhere? || t in Held(s, s.loc[t]);
    hide Held;
    forall pl | t in Held(s, pl)
      ensures !s.loc[t].Nowhere?
    {
      InPlace(s, pl, t);
      NobodyNowhere(s, pl, t);
    }
  }

  lemma NobodyNowhere(s: State, pl: Place, t: Task)
    requires t in Held(s, pl)
    ensures !pl.Nowhere?
  {
  }

  /** Step j of the run is such a call on processer p, and by step k p is off t's stack. */
  predicate Left(run: seq<State>, p: Pid, t: Task, j: nat, k: nat) {
    && 0 < j <= k < |run|
    && YieldsBlocked(run[j - 1], run[j], p, t)
    && p in run[k].procs && run[k].procs[p].stack != On(t)
  }

  lemma LastStep(run: seq<State>, i: nat) returns (act: Action)
    requires Run(false, run) && 0 < i < |run|
    ensures Step(run[i - 1], run[i], act) && Inv(run[i - 1]) && Inv(run[i]) && !run[i - 1].restores && !run[i].restores
  {
    hide Inv, Step;
    RunInv(false, run, i - 1);
    RunInv(false, run, i);
    assert NextAt(run, i);
    act :| Step(run[i - 1], run[i], act);
  }

  lemma {:induction false} LeavingBegan(run: seq<State>, m: nat, p: Pid, t: Task) returns (j: nat)
    requires Run(false, run) && m < |run| && Leaving(run[m], p, t)
    ensures 0 < j <= m && YieldsBlocked(run[j - 1], run[j], p, t)
  {
    hide Inv, Apply, YieldsBlocked;
    if m > 0 {
      var act := LastStep(run, m);
      LeavingBegins(run[m - 1], act, t, p);
      if Leaving(run[m - 1], p, t) { j := LeavingBegan(run, m - 1, p, t); } else { j := m; }
    }
  }

  /** A task that has just come to be nowhere was there before the step. */
  lemma NewIsQueued(s: State, act: Action, t: Task)
    requires Enabled(s, act)
    requires t in Apply(s, act).tasks && t in Apply(s, act).loc && Apply(s, act).loc[t].Nowhere?
    ensures t in s.tasks
  {
    StepMode(s, act);
    if !act.Spawn? { assert Apply(s, act).tasks.Keys == s.tasks.Keys; }
  }

  lemma {:induction false} NowhereHasLeft(run: seq<State>, i: nat, t: Task) returns (p: Pid, j: nat, k: nat)
    requires Run(false, run) && i < |run| && t in run[i].tasks && t in run[i].loc && run[i].loc[t].Nowhere?
    ensures k <= i && Left(run, p, t, j, k)
  {
    hide Inv, Apply, YieldsBlocked, Leaving;
    if i > 0 {
      var act := LastStep(run, i);
      NewIsQueued(run[i - 1], act, t);
      StepMovesLoc(run[i - 1], act, t);
      if run[i - 1].loc[t].Nowhere? {
        p, j, k := NowhereHasLeft(run, i - 1, t);
      } else {
        p, k := act.p, i;
        j := LeavingBegan(run, i - 1, p, t);
      }
    }
  }

  lemma StillATask(run: seq<State>, i: nat, t: Task)
    requires Run(false, run) && 0 < i < |run| && t in run[i - 1].tasks
    ensures t in run[i].tasks && t in run[i].loc && t in run[i - 1].loc
  {
    hide Inv, Apply;
    var act := LastStep(run, i);
    StepMode(run[i - 1], act);
    Parts(run[i - 1]);
    Parts(run[i]);
  }

  /** From the blocked yield on, t is on its way off the stack or nowhere. */
  lemma {:induction false} LeavingOrNowhere(run: seq<State>, p: Pid, t: Task, j: nat, k: nat)
    requires Run(false, run) && 0 < j <= k < |run| && YieldsBlocked(run[j - 1], run[j], p, t)
    ensures t in run[k].tasks && t in run[k].loc && (Leaving(run[k], p, t) || run[k].loc[t].Nowhere?)
    decreases k
  {
    hide Inv, Apply, Leaving, YieldsBlocked;
    var act := LastStep(run, k);
    if k == j {
      YieldLeaves(run[j - 1], run[j], p, t);
    } else {
      LeavingOrNowhere(run, p, t, j, k - 1);
    }
    StillATask(run, k, t);
    if j < k {
      if run[k - 1].loc[t].Nowhere? {
        StepMovesLoc(run[k - 1], act, t);
      } else {
        LeavingGoesOn(run[k - 1], act, t, p);
      }
    }
  }

  lemma YieldLeaves(s: State, s': State, p: Pid, t: Task)
    requires Inv(s) && YieldsBlocked(s, s', p, t)
    ensures t in s.tasks && Leaving(s', p, t)
  {
    AtProc(s, p);
    MeIsTask(s, p);
    hide Inv, Housed, SavedInv;
  }

  lemma {:induction false} NowhereForGood(run: seq<State>, k: nat, i: nat, t: Task)
    requires Run(false, run) && k <= i < |run| && t in run[k].tasks && t in run[k].loc && run[k].loc[t].Nowhere?
    ensures t in run[i].tasks && t in run[i].loc && run[i].loc[t].Nowhere?
    decreases i
  {
    hide Inv, Apply;
    if k < i {
      NowhereForGood(run, k, i - 1, t);
      var act := LastStep(run, i);
      StillATask(run, i, t);
      StepMovesLoc(run[i - 1], act, t);
    }
  }

  /** As written, in every state of every run, for every task: no place holds it if and only if it has called `Yield`
      with status "block" and its processer has left its stack since. */
  lemma LostExactly(run: seq<State>, i: nat, t: Task)
    requires Run(false, run) && i < |run| && t in run[i].tasks
    ensures (forall pl :: t !in Held(run[i], pl)) <==> exists p: Pid, j: nat, k: nat :: k <= i && Left(run, p, t, j, k)
  {
    hide Inv, Run, Held, YieldsBlocked;
    RunInv(false, run, i);
    NowhereIsUnheld(run[i], t);
    if run[i].loc[t].Nowhere? {
      var p, j, k := NowhereHasLeft(run, i, t);
      assert Left(run, p, t, j, k);
    }
    if p: Pid, j: nat, k: nat :| k <= i && Left(run, p, t, j, k) {
      LeavingOrNowhere(run, p, t, j, k);
      NowhereForGood(run, k, i, t);
    }
  }

  // ----- A whole run

  /** No task whose status is "block" has called `Yield` in the first i steps. */
  ghost predicate NoBlockedYield(run: seq<State>, i: nat) {
    forall j, p, t {:trigger YieldsBlocked(run[j - 1], run[j], p, t)} | 0 < j <= i && j < |run| ::
      !YieldsBlocked(run[j - 1], run[j], p, t)
  }

  /** As written, whenever no processer is in the middle of a yield: every task is in some place if and only if no task
      has called `Yield` with status "block" so far. */
  lemma NothingLostAsWritten(run: seq<State>, i: nat)
    requires Run(false, run) && i < |run|
    ensures NoBlockedYield(run, i) ==> NothingLost(run[i])
    ensures (forall p | p in run[i].procs :: !Switching(run[i].procs[p].pc)) ==>
              (NothingLost(run[i]) <==> NoBlockedYield(run, i))
  {
    hide Inv, Run, Held, YieldsBlocked;
    RunInv(false, run, i);
    forall t | NoBlockedYield(run, i) && t in run[i].tasks
      ensures exists pl :: t in Held(run[i], pl)
    {
      LostExactly(run, i, t);
    }
    if !NoBlockedYield(run, i) {
      var j, p, t :| 0 < j <= i && YieldsBlocked(run[j - 1], run[j], p, t);
      LeavingOrNowhere(run, p, t, j, i);
      NowhereIsUnheld(run[i], t);
    }
  }
}
