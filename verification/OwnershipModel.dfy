/**
Who owns a coroutine: the symmetric scheduling of processer/processer.cpp, with its deferred "to-dos", the service
threads of scheduler/scheduler.cpp that move tasks between containers, and the parking done by the mutex, the
channel and the I/O hook.  One step is one action of one thread; a context switch saves and restores in one step.

The containers are the atomic queues that the lock-free queue refines, and the ring is a bag of submitted requests.
*/
module OwnershipModel {
  import opened Options

  type Pid = nat
  type Task = nat
  type MutexId = nat
  type ChanId = nat

  datatype Status = Runnable | Block | Done

  /** `saved`: the context has been saved since the task last ran (a new task's context is ready to be loaded). */
  datatype TaskState = TaskState(status: Status, saved: bool)

  /** Whose stack the processer's thread is executing on. */
  datatype Stack = Main | On(t: Task)

  /** The closures in `LastScheToDos_`. */
  datatype ToDo =
    | Requeue(t: Task)                   // processer.cpp:129-131
    | Recycle(t: Task)                   // processer.cpp:135-137
    | JoinMutex(t: Task, m: MutexId)     // co_mutex.hpp:40-42
    | SubmitIO(t: Task)                  // hook.cpp:37-39
    | ReleaseChan(t: Task, c: ChanId)    // co_chan.hpp:88-90 and 129-131: the deferred release of `mtx_`

  /** Where a processer is in its code, on whichever stack. */
  datatype Pc =
    | MainTop                 // line 52
    | MainSwap                // line 59
    | Drain                   // lines 21-29, after a switch
    | User                    // in a task's own code
    | YieldTop                // lines 126-142
    | YieldPop(cur: Task)     // line 150
    | YieldSwap(cur: Task)    // line 153
    | YieldOut(cur: Task)     // line 158

  datatype Proc = Proc(pc: Pc, stack: Stack, running: Option<Task>, todos: seq<ToDo>)

  /** The containers that hold task pointers outside the processers' own fields. */
  datatype Bag =
    | RunQ(p: Pid)
    | Hand(p: Pid)       // popped from a wait queue, not yet added to a runnable queue
    | MutexQ(m: MutexId)
    | IoQ
    | SubmitHand         // popped by the submit thread
    | Ring               // submitted, not completed
    | WaitHand           // completed, in the hands of the I/O wait thread
    | Batch              // stolen by the load balancer
    | Pool

  /** A channel, as far as parking goes: its mutex and the tasks of its wait queue in order. */
  datatype Chan = Chan(lock: Option<Task>, parked: seq<Task>)

  datatype Place = Cpu(p: Pid) | Slot(p: Pid) | ToDos(p: Pid) | ChanQ(c: ChanId) | In(bag: Bag) | Nowhere

  datatype State = State(
    procs: map<Pid, Proc>,
    bags: map<Bag, seq<Task>>,
    chans: map<ChanId, Chan>,
    tasks: map<Task, TaskState>,
    restores: bool,              // what Load does about a task's status; no step changes it
    loc: map<Task, Place>)       // auxiliary: no step depends on it

  function BagAt(s: State, b: Bag): seq<Task> {
    if b in s.bags then s.bags[b] else []
  }

  function ChanAt(s: State, c: ChanId): Chan {
    if c in s.chans then s.chans[c] else Chan(None, [])
  }

  /** Processers that have not started a task; no task exists yet. */
  function Init(restores: bool, pids: set<Pid>): State {
    State(map p | p in pids :: Proc(MainTop, Main, None, []), map[], map[], map[], restores, map[])
  }

  datatype Action =
    | Turn(p: Pid)                             // the next action of the processer's own code
    | UserYield(p: Pid)
    | UserLock(p: Pid, m: MutexId)             // a lock that has to wait
    | UserIO(p: Pid)
    | UserFinish(p: Pid)
    | ChanLock(p: Pid, c: ChanId)
    | ChanUnlock(p: Pid, c: ChanId)
    | ChanPark(p: Pid, c: ChanId)
    | ChanWake(p: Pid, c: ChanId)
    | Carry(src: Bag, i: nat, dst: Bag)
    | Spawn(t: Task, p: Pid)

  /** The ways a task pointer is carried from one container to another. */
  predicate Route(src: Bag, i: nat, dst: Bag) {
    match (src, dst)
    case (RunQ(_), Batch) => i == 0          // Steal
    case (Batch, RunQ(_)) => i == 0          // AddTask of what was stolen
    case (MutexQ(_), Hand(_)) => i == 0      // unlock pops a waiter
    case (Hand(p), RunQ(q)) => i == 0 && p == q    // AddTask of a woken task, to the current processer
    case (IoQ, SubmitHand) => i == 0
    case (SubmitHand, Ring) => i == 0
    case (Ring, WaitHand) => true            // completions come in any order
    case (WaitHand, RunQ(_)) => i == 0
    case _ => false
  }

  predicate UserAt(s: State, p: Pid) {
    p in s.procs && s.procs[p].pc.User? && s.procs[p].stack.On?
  }

  function Me(s: State, p: Pid): Task
    requires UserAt(s, p)
  {
    s.procs[p].stack.t
  }

  predicate Enabled(s: State, act: Action) {
    match act
    case Turn(p) => p in s.procs && !s.procs[p].pc.User?
    case UserYield(p) => UserAt(s, p)
    case UserLock(p, _) => UserAt(s, p)
    case UserIO(p) => UserAt(s, p)
    case UserFinish(p) => UserAt(s, p)
    case ChanLock(p, c) => UserAt(s, p) && ChanAt(s, c).lock.None?
    case ChanUnlock(p, c) => UserAt(s, p) && ChanAt(s, c).lock == Some(Me(s, p))
    case ChanPark(p, c) => UserAt(s, p) && ChanAt(s, c).lock == Some(Me(s, p))
    case ChanWake(p, c) => UserAt(s, p) && ChanAt(s, c).lock == Some(Me(s, p)) && ChanAt(s, c).parked != []
    case Carry(src, i, dst) => Route(src, i, dst) && i < |BagAt(s, src)|
    case Spawn(t, p) => t !in s.tasks && p in s.procs
  }

  // ----- Steps

  function SetProc(s: State, p: Pid, proc: Proc): State {
    s.(procs := s.procs[p := proc])
  }

  function SetLoc(s: State, t: Task, pl: Place): State {
    s.(loc := s.loc[t := pl])
  }

  function Add(s: State, b: Bag, t: Task): State {
    s.(bags := s.bags[b := BagAt(s, b) + [t]], loc := s.loc[t := In(b)])
  }

  function Remove(s: State, b: Bag, i: nat): State
    requires i < |BagAt(s, b)|
  {
    s.(bags := s.bags[b := BagAt(s, b)[..i] + BagAt(s, b)[i + 1..]])
  }

  function SetStatus(s: State, t: Task, status: Status): State {
    if t in s.tasks then s.(tasks := s.tasks[t := s.tasks[t].(status := status)]) else s
  }

  function SetSaved(s: State, t: Task, saved: bool): State {
    if t in s.tasks then s.(tasks := s.tasks[t := s.tasks[t].(saved := saved)]) else s
  }

  function StatusOf(s: State, t: Task): Status {
    if t in s.tasks then s.tasks[t].status else Done
  }

  /** Task `t` is loaded on p's thread.  As written, its status stays what line 44 set it to when it suspended itself;
      repaired, it is runnable again. */
  function Load(s: State, p: Pid, t: Task): State {
    var loaded := SetSaved(s, t, false);
    SetLoc(if s.restores then SetStatus(loaded, t, Runnable) else loaded, t, Cpu(p))
  }

  /** Line 52: the pop, and `runningTask_` takes the task. */
  function PopRunnable(s: State, p: Pid, proc: Proc): State
    requires BagAt(s, RunQ(p)) != []
  {
    var t := BagAt(s, RunQ(p))[0];
    SetLoc(SetProc(Remove(s, RunQ(p), 0), p, proc.(running := Some(t))), t, Slot(p))
  }

  /** Lines 25-27: one to-do. */
  function Perform(s: State, p: Pid, todo: ToDo): State {
    match todo
    case Requeue(t) => Add(s, RunQ(p), t)
    case Recycle(t) => Add(s, Pool, t)
    case JoinMutex(t, m) => Add(s, MutexQ(m), t)
    case SubmitIO(t) => Add(s, IoQ, t)
    case ReleaseChan(t, c) => SetLoc(SetChan(s, c, ChanAt(s, c).(lock := None)), t, ChanQ(c))
  }

  function DrainStep(s: State, p: Pid, proc: Proc): State {
    if proc.todos != [] then Perform(SetProc(s, p, proc.(todos := proc.todos[1..])), p, proc.todos[0])
    else SetProc(s, p, proc.(pc := if proc.stack.Main? then MainTop else User))
  }

  /** Lines 126-142. */
  function YieldTopStep(s: State, p: Pid, proc: Proc, cur: Task): State {
    var more := match StatusOf(s, cur)
      case Runnable => [Requeue(cur)]
      case Done => [Recycle(cur)]
      case Block => [];
    SetProc(s, p, proc.(pc := YieldPop(cur), running := None, todos := proc.todos + more))
  }

  /** Lines 150-159: with nothing else to run, a runnable task goes on, and its to-do is withdrawn. */
  function YieldPopStep(s: State, p: Pid, proc: Proc, cur: Task): State {
    if BagAt(s, RunQ(p)) != [] then PopRunnable(s, p, proc.(pc := YieldSwap(cur)))
    else if StatusOf(s, cur).Runnable? && proc.todos != [] then
      SetProc(s, p, proc.(pc := Drain, running := Some(cur), todos := proc.todos[..|proc.todos| - 1]))
    else SetProc(s, p, proc.(pc := YieldOut(cur)))
  }

  /** Lines 153 and 158: the context switch away from `cur`. */
  function SwitchOut(s: State, p: Pid, proc: Proc, cur: Task, stack: Stack): State {
    SetLoc(SetSaved(SetProc(s, p, proc.(pc := Drain, stack := stack)), cur, true), cur,
           if proc.todos == [] then Nowhere else ToDos(p))
  }

  function TurnStep(s: State, p: Pid): State
    requires p in s.procs
  {
    var proc := s.procs[p];
    match proc.pc
    case MainTop => if BagAt(s, RunQ(p)) == [] then s else PopRunnable(s, p, proc.(pc := MainSwap))
    case MainSwap =>
      if proc.running.None? then s
      else Load(SetProc(s, p, proc.(pc := Drain, stack := On(proc.running.value))), p, proc.running.value)
    case Drain => DrainStep(s, p, proc)
    case User => s
    case YieldTop => if proc.running.None? then s else YieldTopStep(s, p, proc, proc.running.value)
    case YieldPop(cur) => YieldPopStep(s, p, proc, cur)
    case YieldSwap(cur) =>
      if proc.running.None? then s
      else Load(SwitchOut(s, p, proc, cur, On(proc.running.value)), p, proc.running.value)
    case YieldOut(cur) => SwitchOut(s, p, proc, cur, Main)
  }

  /** Lines 38-46, after the to-do has been added: the task suspends itself. */
  function Suspend(s: State, p: Pid, todo: ToDo): State
    requires UserAt(s, p)
  {
    SetStatus(SetProc(s, p, s.procs[p].(pc := YieldTop, todos := s.procs[p].todos + [todo])), Me(s, p), Block)
  }

  function SetChan(s: State, c: ChanId, ch: Chan): State {
    s.(chans := s.chans[c := ch])
  }

  /** co_chan.hpp:89-90 and 130-131: the task enters the wait queue while it still holds the channel's mutex. */
  function Parked(s: State, p: Pid, c: ChanId): State
    requires UserAt(s, p)
  {
    Suspend(SetChan(s, c, ChanAt(s, c).(parked := ChanAt(s, c).parked + [Me(s, p)])), p, ReleaseChan(Me(s, p), c))
  }

  /** co_chan.hpp:75-78, 112-115 and 122-125: the first waiter leaves the wait queue. */
  function Woken(s: State, p: Pid, c: ChanId): State
    requires ChanAt(s, c).parked != []
  {
    Add(SetChan(s, c, ChanAt(s, c).(parked := ChanAt(s, c).parked[1..])), Hand(p), ChanAt(s, c).parked[0])
  }

  /** A new task: its context is ready to be loaded. */
  function Spawned(s: State, t: Task, p: Pid): State {
    Add(s.(tasks := s.tasks[t := TaskState(Runnable, true)]), RunQ(p), t)
  }

  function Apply(s: State, act: Action): State
    requires Enabled(s, act)
  {
    match act
    case Turn(p) => TurnStep(s, p)
    case UserYield(p) => SetProc(s, p, s.procs[p].(pc := YieldTop))
    case UserLock(p, m) => Suspend(s, p, JoinMutex(Me(s, p), m))
    case UserIO(p) => Suspend(s, p, SubmitIO(Me(s, p)))
    case UserFinish(p) => SetStatus(SetProc(s, p, s.procs[p].(pc := YieldTop)), Me(s, p), Done)
    case ChanLock(p, c) => SetChan(s, c, ChanAt(s, c).(lock := Some(Me(s, p))))
    case ChanUnlock(p, c) => SetChan(s, c, ChanAt(s, c).(lock := None))
    case ChanPark(p, c) => Parked(s, p, c)
    case ChanWake(p, c) => Woken(s, p, c)
    case Carry(src, i, dst) => Add(Remove(s, src, i), dst, BagAt(s, src)[i])
    case Spawn(t, p) => Spawned(s, t, p)
  }

  predicate Step(s: State, s': State, act: Action) {
    Enabled(s, act) && s' == Apply(s, act)
  }

  ghost predicate Next(s: State, s': State) {
    exists act :: Step(s, s', act)
  }

  ghost predicate NextAt(run: seq<State>, i: int) {
    0 < i < |run| && Next(run[i - 1], run[i])
  }

  /** A run, as written or with the status restored. */
  ghost predicate Run(restores: bool, run: seq<State>) {
    && 0 < |run|
    && (exists pids :: run[0] == Init(restores, pids))
    && forall i | 0 < i < |run| :: NextAt(run, i)
  }

  // ----- Where a task is

  /** The tasks of the to-dos, less the one that is still executing. */
  function Captured(todos: seq<ToDo>, stack: Stack): seq<Task> {
    if todos == [] then []
    else (if stack == On(todos[0].t) then [] else [todos[0].t]) + Captured(todos[1..], stack)
  }

  /** The last task of the wait queue is still on its way to sleep: it holds the mutex. */
  predicate Open(ch: Chan) {
    ch.lock.Some? && ch.parked != [] && ch.parked[|ch.parked| - 1] == ch.lock.value
  }

  function Published(ch: Chan): seq<Task> {
    if Open(ch) then ch.parked[..|ch.parked| - 1] else ch.parked
  }

  /** The tasks that a place holds: on a CPU; popped by a processer and about to be loaded; captured by a pending
      to-do after the switch; in a channel's wait queue with the channel's mutex released; or in a container. */
  function Held(s: State, pl: Place): seq<Task> {
    match pl
    case Cpu(p) => if p in s.procs && s.procs[p].stack.On? then [s.procs[p].stack.t] else []
    case Slot(p) =>
      if p in s.procs && s.procs[p].running.Some? && s.procs[p].stack != On(s.procs[p].running.value)
      then [s.procs[p].running.value] else []
    case ToDos(p) => if p in s.procs then Captured(s.procs[p].todos, s.procs[p].stack) else []
    case ChanQ(c) => Published(ChanAt(s, c))
    case In(b) => BagAt(s, b)
    case Nowhere => []
  }
}
