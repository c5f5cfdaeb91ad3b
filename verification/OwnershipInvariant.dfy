/**
The invariant of task ownership: every task is in exactly one place, contexts are saved exactly while nobody executes
on them, and what each program counter knows; and what a step leaves alone.
*/
module OwnershipInvariant {
  import opened Options
  import opened OwnershipModel

  predicate Distinct(q: seq<Task>) {
    forall i, j | 0 <= i < j < |q| :: q[i] != q[j]
  }

  /** Every task is in exactly one place, the one that `loc` says, and there once; as written it may be nowhere. */
  ghost predicate Housed(s: State) {
    && s.loc.Keys == s.tasks.Keys
    && (forall pl, t {:trigger t in Held(s, pl)} | t in Held(s, pl) :: t in s.tasks && s.loc[t] == pl)
    && (forall pl {:trigger Held(s, pl)} :: Distinct(Held(s, pl)))
    && (forall t {:trigger s.loc[t]} | t in s.tasks :: (s.loc[t].Nowhere? && !s.restores) || t in Held(s, s.loc[t]))
  }

  ghost predicate SameElsewhere(s: State, s': State, src: Place, dst: Place) {
    forall pl {:trigger Held(s', pl)} | pl != src && pl != dst :: Held(s', pl) == Held(s, pl)
  }

  function Without(q: seq<Task>, i: nat): seq<Task>
    requires i < |q|
  {
    q[..i] + q[i + 1..]
  }

  lemma WithoutOne(q: seq<Task>, i: nat)
    requires i < |q| && Distinct(q)
    ensures Distinct(Without(q, i)) && forall t :: t in Without(q, i) <==> t in q && t != q[i]
  {
    var r := Without(q, i);
    forall t | t in q && t != q[i]
      ensures t in r
    {
      var k :| 0 <= k < |q| && q[k] == t;
      assert r[if k < i then k else k - 1] == t;
    }
  }

  /** A task goes from one place to another. */
  lemma Moved(s: State, s': State, t: Task, src: Place, i: nat, dst: Place)
    requires Housed(s) && src != dst
    requires i < |Held(s, src)| && Held(s, src)[i] == t
    requires Held(s', src) == Without(Held(s, src), i) && Held(s', dst) == Held(s, dst) + [t]
    requires SameElsewhere(s, s', src, dst)
    requires s'.tasks.Keys == s.tasks.Keys && s'.loc == s.loc[t := dst] && s'.restores == s.restores
    ensures t in s.tasks && s.loc[t] == src && Housed(s')
  {
    hide Held, Without;
    assert t in Held(s, src);
    WithoutOne(Held(s, src), i);
    forall pl
      ensures Distinct(Held(s', pl))
      ensures forall u | u in Held(s', pl) :: u in s'.tasks && s'.loc[u] == pl
    {
      if pl == src {
      } else if pl == dst {
        assert t !in Held(s, dst);
      } else {
        assert Held(s', pl) == Held(s, pl);
      }
    }
    AllHeld(s, s', t, src, dst);
  }

  lemma AllHeld(s: State, s': State, t: Task, src: Place, dst: Place)
    requires Housed(s) && t in s.tasks && src != dst
    requires forall u :: u in Held(s', src) <==> u in Held(s, src) && u != t
    requires Held(s', dst) == Held(s, dst) + [t]
    requires SameElsewhere(s, s', src, dst)
    requires s'.tasks.Keys == s.tasks.Keys && s'.loc == s.loc[t := dst] && s'.restores == s.restores
    ensures forall u {:trigger s'.loc[u]} | u in s'.tasks ::
              (s'.loc[u].Nowhere? && !s'.restores) || u in Held(s', s'.loc[u])
  {
    hide Held;
    forall u | u in s'.tasks
      ensures (s'.loc[u].Nowhere? && !s'.restores) || u in Held(s', s'.loc[u])
    {
      if u == t {
        assert t in Held(s, dst) + [t];
      } else {
        assert s'.loc[u] == s.loc[u];
      }
    }
  }

  /** A task goes from its place to nowhere. */
  lemma Vanished(s: State, s': State, t: Task, src: Place)
    requires Housed(s) && Held(s, src) == [t] && Held(s', src) == []
    requires forall pl {:trigger Held(s', pl)} | pl != src :: Held(s', pl) == Held(s, pl)
    requires s'.tasks.Keys == s.tasks.Keys && s'.loc == s.loc[t := Nowhere] && !s.restores && !s'.restores
    ensures t in s.tasks && s.loc[t] == src && Housed(s')
  {
    hide Held;
    assert t in Held(s, src);
    forall pl
      ensures Distinct(Held(s', pl))
      ensures forall u | u in Held(s', pl) :: u in s'.tasks && s'.loc[u] == pl
    {
    }
    forall u | u in s'.tasks
      ensures s'.loc[u].Nowhere? || u in Held(s', s'.loc[u])
    {
      if u != t && !s.loc[u].Nowhere? {
        assert u in Held(s, s.loc[u]);
        assert s.loc[u] == src ==> u in [t];
      }
    }
  }

  /** A step that moves no task. */
  lemma Stayed(s: State, s': State)
    requires Housed(s)
    requires forall pl {:trigger Held(s', pl)} :: Held(s', pl) == Held(s, pl)
    requires s'.tasks.Keys == s.tasks.Keys && s'.loc == s.loc && s'.restores == s.restores
    ensures Housed(s')
  {
    hide Held;
  }

  // ----- What each program counter knows

  predicate Fits(status: Status, todo: ToDo, cur: Task) {
    && todo.t == cur
    && match status
       case Runnable => todo.Requeue?
       case Done => todo.Recycle?
       case Block => todo.JoinMutex? || todo.SubmitIO? || todo.ReleaseChan?
  }

  /** As written: a task that yields with status "block" leaves no to-do for itself. */
  predicate Forgotten(s: State, proc: Proc, cur: Task) {
    !s.restores && proc.todos == [] && StatusOf(s, cur).Block?
  }

  predicate Owes(s: State, proc: Proc, cur: Task) {
    && proc.stack == On(cur)
    && (Forgotten(s, proc, cur) || (|proc.todos| == 1 && Fits(StatusOf(s, cur), proc.todos[0], cur)))
  }

  predicate PcKnows(s: State, proc: Proc) {
    match proc.pc
    case MainTop => proc == Proc(MainTop, Main, None, [])
    case MainSwap => proc.stack.Main? && proc.running.Some? && proc.todos == []
    case Drain =>
      && |proc.todos| <= 1
      && (proc.todos != [] ==> proc.stack != On(proc.todos[0].t))
      && proc.running == (if proc.stack.On? then Some(proc.stack.t) else None)
      && (proc.stack.On? && s.restores ==> StatusOf(s, proc.stack.t).Runnable?)
    case User =>
      && proc.stack.On? && proc.running == Some(proc.stack.t) && proc.todos == []
      && (s.restores ==> StatusOf(s, proc.stack.t).Runnable?)
    case YieldTop =>
      && proc.stack.On? && proc.running == Some(proc.stack.t)
      && if StatusOf(s, proc.stack.t).Block? then Owes(s, proc, proc.stack.t) else proc.todos == []
    case YieldPop(cur) => proc.running.None? && Owes(s, proc, cur)
    case YieldSwap(cur) => proc.running.Some? && proc.running.value != cur && Owes(s, proc, cur)
    case YieldOut(cur) => proc.running.None? && Owes(s, proc, cur) && !StatusOf(s, cur).Runnable?
  }

  /** A pending release of a channel's mutex finds the parked task at the end of the wait queue. */
  predicate WindowKnown(s: State, proc: Proc) {
    |proc.todos| == 1 && proc.todos[0].ReleaseChan? ==>
      Open(ChanAt(s, proc.todos[0].c)) && ChanAt(s, proc.todos[0].c).lock == Some(proc.todos[0].t)
  }

  ghost predicate ProcInv(s: State, p: Pid) {
    p in s.procs && PcKnows(s, s.procs[p]) && WindowKnown(s, s.procs[p])
  }

  /** A channel whose last waiter still holds the mutex is going to be released by that waiter's to-do. */
  ghost predicate ChanInv(s: State, c: ChanId) {
    Open(ChanAt(s, c)) ==>
      exists p :: p in s.procs && s.procs[p].todos == [ReleaseChan(ChanAt(s, c).lock.value, c)]
  }

  /** A context is saved exactly while no thread executes on its stack. */
  ghost predicate SavedInv(s: State) {
    forall t {:trigger s.tasks[t]} | t in s.tasks && t in s.loc :: s.tasks[t].saved <==> !s.loc[t].Cpu?
  }

  ghost predicate Inv(s: State) {
    && Housed(s)
    && SavedInv(s)
    && (forall p {:trigger ProcInv(s, p)} | p in s.procs :: ProcInv(s, p))
    && (forall c {:trigger ChanInv(s, c)} :: ChanInv(s, c))
  }

  lemma InitInv(restores: bool, pids: set<Pid>)
    ensures Inv(Init(restores, pids))
  {
  }

  // ----- What a step leaves alone

  /** The window of the processer's pending release, if it has one, is as it was. */
  predicate SameWindow(s: State, s': State, proc: Proc) {
    |proc.todos| == 1 && proc.todos[0].ReleaseChan? ==> ChanAt(s', proc.todos[0].c) == ChanAt(s, proc.todos[0].c)
  }

  predicate SameStatus(s: State, s': State, proc: Proc) {
    proc.stack.On? ==> StatusOf(s', proc.stack.t) == StatusOf(s, proc.stack.t)
  }

  lemma ProcKept(s: State, s': State, q: Pid)
    requires ProcInv(s, q) && q in s'.procs && s'.procs[q] == s.procs[q] && s'.restores == s.restores
    requires SameStatus(s, s', s.procs[q]) && SameWindow(s, s', s.procs[q])
    ensures ProcInv(s', q)
  {
  }

  /** Every processer but p (if it is one) goes on as before. */
  ghost predicate Leaves(s: State, s': State, p: Option<Pid>) {
    && s'.procs.Keys == s.procs.Keys && s'.restores == s.restores
    && (forall q {:trigger s'.procs[q]} | q in s.procs && p != Some(q) ::
          s'.procs[q] == s.procs[q] && SameStatus(s, s', s.procs[q]) && SameWindow(s, s', s.procs[q]))
    && (p.Some? ==> p.value in s'.procs && ProcInv(s', p.value))
  }

  lemma Assemble(s: State, s': State, p: Option<Pid>)
    requires Inv(s) && Housed(s') && SavedInv(s') && Leaves(s, s', p)
    requires forall c {:trigger ChanInv(s', c)} :: ChanInv(s', c)
    ensures Inv(s')
  {
    hide Housed, SavedInv, ChanInv, SameStatus, SameWindow;
    forall q | q in s'.procs
      ensures ProcInv(s', q)
    {
      if p != Some(q) {
        assert ProcInv(s, q);
        ProcKept(s, s', q);
      }
    }
  }

  /** No two processers execute on the same stack, and none has a to-do about another's running task. */
  lemma OneCpu(s: State, p: Pid, q: Pid, t: Task)
    requires Housed(s) && p in s.procs && s.procs[p].stack == On(t) && q in s.procs && q != p
    ensures s.procs[q].stack != On(t)
    ensures s.procs[q].todos != [] ==> s.procs[q].todos[0].t != t
  {
    assert t in Held(s, Cpu(p));
    assert s.procs[q].stack == On(t) ==> t in Held(s, Cpu(q));
    assert s.procs[q].stack != On(t) && s.procs[q].todos != [] && s.procs[q].todos[0].t == t ==>
             t in Held(s, ToDos(q));
  }

  lemma ChansKept(s: State, s': State)
    requires Inv(s) && s'.chans == s.chans && s'.procs.Keys == s.procs.Keys
    requires forall q {:trigger s'.procs[q]}
               | q in s.procs && |s.procs[q].todos| == 1 && s.procs[q].todos[0].ReleaseChan? ::
               s'.procs[q].todos == s.procs[q].todos
    ensures forall c {:trigger ChanInv(s', c)} :: ChanInv(s', c)
  {
    hide Housed, SavedInv, ProcInv;
    forall c
      ensures ChanInv(s', c)
    {
      assert ChanInv(s, c);
      assert ChanAt(s', c) == ChanAt(s, c);
      if Open(ChanAt(s, c)) {
        var p :| p in s.procs && s.procs[p].todos == [ReleaseChan(ChanAt(s, c).lock.value, c)];
        assert s'.procs[p].todos == s.procs[p].todos;
      }
    }
  }

  lemma CapturedOne(todo: ToDo, stack: Stack)
    ensures Captured([todo], stack) == if stack == On(todo.t) then [] else [todo.t]
  {
    assert [todo][1..] == [];
  }

  lemma OwnIsNotCaptured(todo: ToDo)
    ensures Captured([todo], On(todo.t)) == []
  {
    assert [todo][1..] == [];
  }

  // ----- Parts of the invariant

  lemma AtProc(s: State, p: Pid)
    requires Inv(s) && p in s.procs
    ensures ProcInv(s, p) && Housed(s) && SavedInv(s)
  {
  }

  lemma MeIsTask(s: State, p: Pid)
    requires Inv(s) && UserAt(s, p)
    ensures Me(s, p) in s.tasks && s.loc[Me(s, p)] == Cpu(p)
  {
    assert Me(s, p) in Held(s, Cpu(p));
  }

  lemma InPlace(s: State, pl: Place, t: Task)
    requires Housed(s)
    ensures s.loc.Keys == s.tasks.Keys
    ensures t in Held(s, pl) ==> t in s.tasks && s.loc[t] == pl
  {
    hide Held;
  }

  lemma ElsewhereThanCpu(s: State, pl: Place, t: Task)
    requires Housed(s) && t in Held(s, pl) && !pl.Cpu?
    ensures t in s.tasks && s.loc.Keys == s.tasks.Keys && s.loc[t] == pl
    ensures forall q | q in s.procs :: s.procs[q].stack != On(t)
  {
    forall q | q in s.procs
      ensures s.procs[q].stack != On(t)
    {
      assert s.procs[q].stack == On(t) ==> t in Held(s, Cpu(q));
    }
  }

  /** A parked task is captured by one to-do only. */
  lemma OneToDo(s: State, p: Pid, q: Pid, t: Task)
    requires Housed(s) && q in s.procs && q != p && t in s.loc && s.loc[t] == ToDos(p)
    ensures s.procs[q].todos != [] ==> s.procs[q].todos[0].t != t
  {
    assert s.procs[q].todos != [] && s.procs[q].todos[0].t == t ==> t in Held(s, ToDos(q)) || t in Held(s, Cpu(q));
  }

  lemma Parts(s: State)
    requires Inv(s)
    ensures Housed(s) && SavedInv(s)
  {
  }
}
