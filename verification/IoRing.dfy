/**
The I/O round trip: `IOSubmit` of hook/hook.cpp parks a coroutine and hands over a request, `Exec` of
io_uring/io_uring_engine.cpp submits it, perhaps linked to a timeout, `WaitResult` consumes completions, and the I/O
wait thread of scheduler/scheduler.cpp wakes the coroutine.

`repaired` stands for the intended behaviour: one wake, when the last completion of the submission has been consumed,
and a negative result when the timeout expired.
*/
module IoRing {
  import opened Options

  type Task = nat
  type Sub = nat

  const EAGAIN: int := 11
  const ENOENT: int := 2
  const ETIME: int := 62
  const ECANCELED: int := 125

  datatype Kind = Normal | Timer

  datatype Cqe = Cqe(sub: Sub, kind: Kind, res: int)

  /** A submission's `ring_data` and `result`.  Only the repaired code needs the last two. */
  datatype Data = Data(task: Task, ret: int, pending: nat, expired: bool)

  datatype Decision = Wake | Retry | Fail

  datatype Reaped = Reaped(data: Data, decision: Decision)

  /** Lines 104-126, as written. */
  function ReapAsWritten(d: Data, c: Cqe): Reaped {
    match c.kind
    case Normal => Reaped(d.(ret := c.res), Wake)
    case Timer =>
      if c.res == -ETIME then Reaped(d.(ret := EAGAIN), Wake)
      else if c.res == -ENOENT || c.res == -ECANCELED then Reaped(d, Retry)
      else Reaped(d, Fail)
  }

  /** The same, repaired: every completion is counted, and the last one wakes the task. */
  function ReapRepaired(d: Data, c: Cqe): Reaped {
    var left := if d.pending == 0 then 0 else d.pending - 1;
    var d' :=
      if c.kind.Timer? && c.res == -ETIME then d.(ret := -EAGAIN, expired := true)
      else if c.kind.Normal? && !d.expired then d.(ret := c.res)
      else d;
    Reaped(d'.(pending := left), if left == 0 then Wake else Retry)
  }

  function Reap(repaired: bool, d: Data, c: Cqe): Reaped {
    if repaired then ReapRepaired(d, c) else ReapAsWritten(d, c)
  }

  // ----- Runs: submissions, completions in any order, and their consumption

  /** How far one of a submission's completions has come. */
  datatype Stage = Absent | Outstanding | Queued(res: int) | Consumed(res: int)

  /** Auxiliary: what the ring owes a submission, and what has been consumed. */
  datatype Ticket = Ticket(op: Stage, timer: Stage)

  /** Auxiliary: the completion whose consumption woke a task for the first time, and the result stored by then. */
  datatype First = First(kind: Kind, ret: int)

  datatype State = State(
    cq: seq<Cqe>,
    data: map<Sub, Data>,
    wakes: seq<Sub>,            // the submissions whose task has been woken, in order
    first: map<Sub, First>,     // auxiliary
    tickets: map<Sub, Ticket>)

  function Init(): State {
    State([], map[], [], map[], map[])
  }

  datatype Event =
    | Submit(sub: Sub, task: Task, linked: bool)   // Exec, lines 38-59
    | Complete(c: Cqe)                             // the ring posts a completion
    | Consume                                      // one pass through WaitResult

  function StageOf(t: Ticket, kind: Kind): Stage {
    if kind.Normal? then t.op else t.timer
  }

  function SetStage(t: Ticket, kind: Kind, stage: Stage): Ticket {
    if kind.Normal? then t.(op := stage) else t.(timer := stage)
  }

  predicate Enabled(s: State, e: Event) {
    match e
    case Submit(sub, _, _) => sub !in s.tickets && sub !in s.data
    case Complete(c) => c.sub in s.tickets && StageOf(s.tickets[c.sub], c.kind).Outstanding?
    case Consume => s.cq != [] && s.cq[0].sub in s.data && s.cq[0].sub in s.tickets
  }

  function Apply(repaired: bool, s: State, e: Event): State
    requires Enabled(s, e)
  {
    match e
    case Submit(sub, task, linked) =>
      s.(data := s.data[sub := Data(task, 0, if linked then 2 else 1, false)],
         tickets := s.tickets[sub := Ticket(Outstanding, if linked then Outstanding else Absent)])
    case Complete(c) =>
      s.(cq := s.cq + [c], tickets := s.tickets[c.sub := SetStage(s.tickets[c.sub], c.kind, Queued(c.res))])
    case Consume => Consumption(repaired, s, s.cq[0])
  }

  function Consumption(repaired: bool, s: State, c: Cqe): State
    requires s.cq != [] && c.sub in s.data && c.sub in s.tickets
  {
    var r := Reap(repaired, s.data[c.sub], c);
    State(s.cq[1..], s.data[c.sub := r.data], if r.decision.Wake? then s.wakes + [c.sub] else s.wakes,
          if r.decision.Wake? && c.sub !in s.first then s.first[c.sub := First(c.kind, r.data.ret)] else s.first,
          s.tickets[c.sub := SetStage(s.tickets[c.sub], c.kind, Consumed(c.res))])
  }

  predicate Step(repaired: bool, s: State, s': State, e: Event) {
    Enabled(s, e) && s' == Apply(repaired, s, e)
  }

  ghost predicate Next(repaired: bool, s: State, s': State) {
    exists e :: Step(repaired, s, s', e)
  }

  ghost predicate NextAt(repaired: bool, run: seq<State>, i: int) {
    0 < i < |run| && Next(repaired, run[i - 1], run[i])
  }

  ghost predicate Run(repaired: bool, run: seq<State>) {
    && 0 < |run| && run[0] == Init()
    && forall i | 0 < i < |run| :: NextAt(repaired, run, i)
  }

  // ----- The invariant

  function One(b: bool): int {
    if b then 1 else 0
  }

  function Owed(stage: Stage): int {
    One(stage.Outstanding? || stage.Queued?)
  }

  predicate Expired(t: Ticket) {
    t.timer == Consumed(-ETIME)
  }

  function Count(wakes: seq<Sub>, sub: Sub): nat {
    multiset(wakes)[sub]
  }

  /** What the data and the wakes of a submission say about the completions consumed. */
  predicate Settled(repaired: bool, d: Data, wakes: nat, first: Option<First>, t: Ticket) {
    && !t.op.Absent?
    && (first.Some? <==> wakes > 0)
    && if repaired then
         && d.pending == Owed(t.op) + Owed(t.timer)
         && (d.expired <==> Expired(t))
         && wakes == One(d.pending == 0)
         && (Expired(t) ==> d.ret == -EAGAIN)
         && (!Expired(t) && t.op.Consumed? ==> d.ret == t.op.res)
         && (wakes > 0 ==> first.value.ret == d.ret)
       else
         && wakes == One(t.op.Consumed?) + One(Expired(t))
         && (t.op.Consumed? && !Expired(t) ==> d.ret == t.op.res && first == Some(First(Normal, t.op.res)))
         && (Expired(t) && !t.op.Consumed? ==> d.ret == EAGAIN && first == Some(First(Timer, EAGAIN)))
         && (Expired(t) && t.op.Consumed? ==>
               || (first == Some(First(Normal, t.op.res)) && d.ret == EAGAIN)
               || (first == Some(First(Timer, EAGAIN)) && d.ret == t.op.res))
  }

  function FirstOf(s: State, sub: Sub): Option<First> {
    if sub in s.first then Some(s.first[sub]) else None
  }

  /** The completion queue holds exactly once what the tickets say is queued. */
  ghost predicate QueueInv(s: State) {
    && (forall i {:trigger s.cq[i]} | 0 <= i < |s.cq| ::
          s.cq[i].sub in s.tickets && StageOf(s.tickets[s.cq[i].sub], s.cq[i].kind) == Queued(s.cq[i].res))
    && (forall i, j | 0 <= i < j < |s.cq| :: s.cq[i].sub != s.cq[j].sub || s.cq[i].kind != s.cq[j].kind)
  }

  ghost predicate SettledAll(repaired: bool, s: State)
    requires s.data.Keys == s.tickets.Keys
  {
    forall sub {:trigger s.tickets[sub]} | sub in s.tickets ::
      Settled(repaired, s.data[sub], Count(s.wakes, sub), FirstOf(s, sub), s.tickets[sub])
  }

  ghost predicate Known(s: State) {
    && s.data.Keys == s.tickets.Keys
    && (forall sub | sub in s.wakes :: sub in s.tickets)
    && (forall sub | sub in s.first :: sub in s.tickets)
  }

  ghost predicate Inv(repaired: bool, s: State) {
    Known(s) && QueueInv(s) && SettledAll(repaired, s)
  }

  lemma SubmitInv(repaired: bool, s: State, e: Event)
    requires Inv(repaired, s) && Enabled(s, e) && e.Submit?
    ensures Inv(repaired, Apply(repaired, s, e))
  {
    hide Settled;
    assert e.sub !in s.wakes && e.sub !in s.first;
    NewSettles(repaired, e.task, e.linked);
  }

  lemma NewSettles(repaired: bool, task: Task, linked: bool)
    ensures Settled(repaired, Data(task, 0, if linked then 2 else 1, false), 0, None,
                    Ticket(Outstanding, if linked then Outstanding else Absent))
  {
  }

  /** Posting a completion changes nothing that has been settled. */
  lemma PostSettles(repaired: bool, d: Data, wakes: nat, first: Option<First>, t: Ticket, c: Cqe)
    requires Settled(repaired, d, wakes, first, t) && StageOf(t, c.kind).Outstanding?
    ensures Settled(repaired, d, wakes, first, SetStage(t, c.kind, Queued(c.res)))
  {
  }

  lemma CompleteInv(repaired: bool, s: State, e: Event)
    requires Inv(repaired, s) && Enabled(s, e) && e.Complete?
    ensures Inv(repaired, Apply(repaired, s, e))
  {
    hide Settled;
    var c := e.c;
    PostSettles(repaired, s.data[c.sub], Count(s.wakes, c.sub), FirstOf(s, c.sub), s.tickets[c.sub], c);
    PostQueued(s, c);
    hide QueueInv;
  }

  lemma PostQueued(s: State, c: Cqe)
    requires QueueInv(s) && c.sub in s.tickets && StageOf(s.tickets[c.sub], c.kind).Outstanding?
    ensures var stage := SetStage(s.tickets[c.sub], c.kind, Queued(c.res));
            QueueInv(s.(cq := s.cq + [c], tickets := s.tickets[c.sub := stage]))
  {
  }

  function FirstAfter(first: Option<First>, r: Reaped, kind: Kind): Option<First> {
    if r.decision.Wake? && first.None? then Some(First(kind, r.data.ret)) else first
  }

  lemma ReapSettles(repaired: bool, d: Data, wakes: nat, first: Option<First>, t: Ticket, c: Cqe)
    requires Settled(repaired, d, wakes, first, t) && StageOf(t, c.kind) == Queued(c.res)
    ensures var r := Reap(repaired, d, c);
            Settled(repaired, r.data, wakes + One(r.decision.Wake?), FirstAfter(first, r, c.kind),
                    SetStage(t, c.kind, Consumed(c.res)))
  {
  }

  /** What a consumption does to one submission's wakes and first result. */
  lemma ConsumeShape(repaired: bool, s: State, c: Cqe, sub: Sub)
    requires s.cq != [] && c == s.cq[0] && c.sub in s.data && c.sub in s.tickets
    ensures var s', r := Consumption(repaired, s, c), Reap(repaired, s.data[c.sub], c);
            && Count(s'.wakes, sub) == Count(s.wakes, sub) + One(sub == c.sub && r.decision.Wake?)
            && FirstOf(s', sub) == if sub == c.sub then FirstAfter(FirstOf(s, sub), r, c.kind) else FirstOf(s, sub)
  {
    hide Reap;
  }

  lemma ConsumeInv(repaired: bool, s: State)
    requires Inv(repaired, s) && Enabled(s, Consume)
    ensures Inv(repaired, Apply(repaired, s, Consume))
  {
    hide Settled, Reap, StageOf, SetStage, Count, FirstOf, FirstAfter;
    var c, s' := s.cq[0], Apply(repaired, s, Consume);
    ConsumeQueued(s, s', c);
    ReapSettles(repaired, s.data[c.sub], Count(s.wakes, c.sub), FirstOf(s, c.sub), s.tickets[c.sub], c);
    forall sub | sub in s'.tickets
      ensures Settled(repaired, s'.data[sub], Count(s'.wakes, sub), FirstOf(s', sub), s'.tickets[sub])
    {
      ConsumeShape(repaired, s, c, sub);
      assert Settled(repaired, s.data[sub], Count(s.wakes, sub), FirstOf(s, sub), s.tickets[sub]);
    }
    hide QueueInv, SettledAll;
    assert Known(s');
  }

  lemma ConsumeQueued(s: State, s': State, c: Cqe)
    requires QueueInv(s) && s.cq != [] && c == s.cq[0] && c.sub in s.tickets && s'.cq == s.cq[1..]
    requires s'.tickets == s.tickets[c.sub := SetStage(s.tickets[c.sub], c.kind, Consumed(c.res))]
    ensures StageOf(s.tickets[c.sub], c.kind) == Queued(c.res) && QueueInv(s')
  {
  }

  lemma {:induction false} RunInv(repaired: bool, run: seq<State>, i: nat)
    requires Run(repaired, run) && i < |run|
    ensures Inv(repaired, run[i])
  {
    hide Inv, Apply;
    if i == 0 {
      InitInv(repaired);
    } else {
      RunInv(repaired, run, i - 1);
      assert NextAt(repaired, run, i);
      var e :| Step(repaired, run[i - 1], run[i], e);
      match e
      case Submit(_, _, _) => SubmitInv(repaired, run[i - 1], e);
      case Complete(_) => CompleteInv(repaired, run[i - 1], e);
      case Consume => ConsumeInv(repaired, run[i - 1]);
    }
  }

  lemma InitInv(repaired: bool)
    ensures Inv(repaired, Init())
  {
  }

  // ----- How often a coroutine is woken, and with what

  /** All completions that the submission will ever get have been consumed. */
  predicate Over(t: Ticket) {
    t.op.Consumed? && (t.timer.Absent? || t.timer.Consumed?)
  }

  lemma SettledAt(repaired: bool, run: seq<State>, i: nat, sub: Sub)
    requires Run(repaired, run) && i < |run| && sub in run[i].tickets
    ensures sub in run[i].data
    ensures Settled(repaired, run[i].data[sub], Count(run[i].wakes, sub), FirstOf(run[i], sub), run[i].tickets[sub])
  {
    hide Settled, Run;
    RunInv(repaired, run, i);
  }

  /** Repaired, in every run and for every order of the completions: a submission's task is woken once, exactly when
      its last completion has been consumed, and by then the result has been stored: -EAGAIN if the timeout expired,
      the operation's own result otherwise. */
  lemma WokenOnceWithResult(run: seq<State>, i: nat, sub: Sub)
    requires Run(true, run) && i < |run| && sub in run[i].tickets
    ensures sub in run[i].data
    ensures Count(run[i].wakes, sub) == One(Over(run[i].tickets[sub]))
    ensures Over(run[i].tickets[sub]) ==>
              run[i].data[sub].ret == if Expired(run[i].tickets[sub]) then -EAGAIN else run[i].tickets[sub].op.res
  {
    SettledAt(true, run, i, sub);
  }

  /** As written: a submission wakes its task once for the operation and once more for a timeout that expired.  So,
      once all is consumed, the task has been woken exactly once if and only if no linked timeout expired, and then
      the operation's result has been stored. */
  lemma WakesAsWritten(run: seq<State>, i: nat, sub: Sub)
    requires Run(false, run) && i < |run| && sub in run[i].tickets
    ensures sub in run[i].data
    ensures var t := run[i].tickets[sub];
            && (Over(t) ==> (Count(run[i].wakes, sub) == 1 <==> !Expired(t)))
            && (!Expired(t) ==> Count(run[i].wakes, sub) == One(t.op.Consumed?))
            && (!Expired(t) && sub in run[i].wakes ==> t.op.Consumed? && run[i].data[sub].ret == t.op.res)
  {
    SettledAt(false, run, i, sub);
  }

  /** A linked read that times out; the ring posts its completions in this order. */
  function TimedOut(first: Cqe, second: Cqe): (r: seq<State>)
    requires first.kind != second.kind
    ensures |r| == 6
  {
    var begun := Ticket(Outstanding, Outstanding);
    var one := SetStage(begun, first.kind, Queued(first.res));
    var both := SetStage(one, second.kind, Queued(second.res));
    var half := SetStage(both, first.kind, Consumed(first.res));
    var over := SetStage(half, second.kind, Consumed(second.res));
    var data := Data(7, 0, 2, false);
    var got, got' := ReapAsWritten(data, first).data, ReapAsWritten(ReapAsWritten(data, first).data, second).data;
    var woken := First(first.kind, got.ret);
    [Init(),
     State([], map[0 := data], [], map[], map[0 := begun]),
     State([first], map[0 := data], [], map[], map[0 := one]),
     State([first, second], map[0 := data], [], map[], map[0 := both]),
     State([second], map[0 := got], [0], map[0 := woken], map[0 := half]),
     State([], map[0 := got'], [0, 0], map[0 := woken], map[0 := over])]
  }

  const CANCELLED: Cqe := Cqe(0, Normal, -ECANCELED)
  const EXPIRED: Cqe := Cqe(0, Timer, -ETIME)

  predicate Pair(first: Cqe, second: Cqe) {
    (first == CANCELLED && second == EXPIRED) || (first == EXPIRED && second == CANCELLED)
  }

  lemma TimedOutPosts(first: Cqe, second: Cqe, i: nat)
    requires Pair(first, second) && 0 < i <= 3
    ensures Next(false, TimedOut(first, second)[i - 1], TimedOut(first, second)[i])
  {
    var e := if i == 1 then Submit(0, 7, true) else Complete(if i == 2 then first else second);
    assert Step(false, TimedOut(first, second)[i - 1], TimedOut(first, second)[i], e);
  }

  lemma TimedOutConsumes(first: Cqe, second: Cqe, i: nat)
    requires Pair(first, second) && 4 <= i < 6
    ensures Next(false, TimedOut(first, second)[i - 1], TimedOut(first, second)[i])
  {
    assert Step(false, TimedOut(first, second)[i - 1], TimedOut(first, second)[i], Consume);
  }

  /** Both orders are runs of the code as written; the task is woken twice, the first time with the result of the
      first completion. */
  lemma TimedOutRuns(first: Cqe, second: Cqe)
    requires Pair(first, second)
    ensures var run := TimedOut(first, second);
            && Run(false, run)
            && Count(run[5].wakes, 0) == 2
            && 0 in run[5].tickets && Over(run[5].tickets[0]) && Expired(run[5].tickets[0])
            && FirstOf(run[5], 0) == Some(First(first.kind, if first == CANCELLED then -ECANCELED else EAGAIN))
  {
    var run := TimedOut(first, second);
    forall i | 0 < i < |run|
      ensures NextAt(false, run, i)
    {
      if i <= 3 { TimedOutPosts(first, second, i); } else { TimedOutConsumes(first, second, i); }
    }
  }

  /** Every run wakes every task at most once if and only if the double report of an expired pair is repaired. */
  lemma OneWakeNeedsRepair(repaired: bool)
    ensures repaired <==>
            forall run: seq<State>, i: nat, sub | Run(repaired, run) && i < |run| && sub in run[i].tickets ::
              Count(run[i].wakes, sub) <= 1
  {
    if repaired {
      forall run: seq<State>, i: nat, sub | Run(repaired, run) && i < |run| && sub in run[i].tickets
        ensures Count(run[i].wakes, sub) <= 1
      {
        WokenOnceWithResult(run, i, sub);
      }
    } else {
      TimedOutRuns(CANCELLED, EXPIRED);
      assert 0 in TimedOut(CANCELLED, EXPIRED)[5].tickets;
    }
  }

  // ----- What the caller of a hooked function sees

  datatype Answer = Answer(ret: int, errno: int)

  /** hook.cpp:42-46. */
  function Hooked(ret: int, errno: int): Answer {
    if ret < 0 then Answer(-1, -ret) else Answer(ret, errno)
  }

  /** What the caller of a hooked function is meant to get: the operation's result, or -1 and `errno` in the POSIX
      manner; for an expired timeout, -1 and EAGAIN. */
  function Intended(t: Ticket, errno: int): Answer
    requires t.op.Consumed?
  {
    if Expired(t) then Answer(-1, EAGAIN)
    else if t.op.res < 0 then Answer(-1, -t.op.res)
    else Answer(t.op.res, errno)
  }

  /** The round trip, repaired: a task is woken only when its submission is over, and its caller gets the intended
      answer. */
  lemma RoundTrip(run: seq<State>, i: nat, sub: Sub, errno: int)
    requires Run(true, run) && i < |run| && sub in run[i].tickets && sub in run[i].wakes
    ensures Over(run[i].tickets[sub]) && sub in run[i].data && sub in run[i].first
    ensures run[i].first[sub].ret == run[i].data[sub].ret
    ensures Hooked(run[i].first[sub].ret, errno) == Intended(run[i].tickets[sub], errno)
  {
    SettledAt(true, run, i, sub);
  }

  /** As written: a submission that is over has given its caller, at its first wake, the intended answer if and only
      if its linked timeout did not expire; or it expired, and the operation's completion came first and was -EAGAIN.
      Without that coincidence the caller gets 11 as if 11 bytes had been transferred, because line 108 of the engine
      stores a positive EAGAIN, if the timeout's completion came first, and the operation's own result if that came
      first. */
  lemma FirstAnswerAsWritten(run: seq<State>, i: nat, sub: Sub, errno: int)
    requires Run(false, run) && i < |run| && sub in run[i].tickets && Over(run[i].tickets[sub])
    ensures sub in run[i].first
    ensures var t, first := run[i].tickets[sub], run[i].first[sub];
            && (Hooked(first.ret, errno) == Intended(t, errno) <==>
                  !Expired(t) || (first.kind.Normal? && t.op.res == -EAGAIN))
            && first.ret == (if first.kind.Normal? then t.op.res else EAGAIN)
            && (first.kind.Timer? ==> Expired(t) && Hooked(first.ret, errno) == Answer(11, errno))
  {
    SettledAt(false, run, i, sub);
  }

  /** A ring that cancels the operation of an expired pair never gives the intended answer to a timeout. */
  lemma CancelledAnswerAsWritten(run: seq<State>, i: nat, sub: Sub, errno: int)
    requires Run(false, run) && i < |run| && sub in run[i].tickets && Over(run[i].tickets[sub])
    requires Expired(run[i].tickets[sub]) ==> run[i].tickets[sub].op.res == -ECANCELED
    ensures sub in run[i].first
    ensures Hooked(run[i].first[sub].ret, errno) == Intended(run[i].tickets[sub], errno) <==>
            !Expired(run[i].tickets[sub])
  {
    FirstAnswerAsWritten(run, i, sub, errno);
  }

  /** Every submission of every run gets the intended answer at its first wake if and only if the code is repaired. */
  lemma AnswersNeedRepair(repaired: bool)
    ensures repaired <==>
            forall run: seq<State>, i: nat, sub, errno: int |
              && Run(repaired, run) && i < |run| && sub in run[i].tickets && Over(run[i].tickets[sub])
              && sub in run[i].first ::
              Hooked(run[i].first[sub].ret, errno) == Intended(run[i].tickets[sub], errno)
  {
    if repaired {
      forall run: seq<State>, i: nat, sub, errno: int |
        Run(repaired, run) && i < |run| && sub in run[i].tickets && Over(run[i].tickets[sub]) && sub in run[i].first
        ensures Hooked(run[i].first[sub].ret, errno) == Intended(run[i].tickets[sub], errno)
      {
        SettledAt(true, run, i, sub);
        RoundTrip(run, i, sub, errno);
      }
    } else {
      TimedOutRuns(EXPIRED, CANCELLED);
      var s := TimedOut(EXPIRED, CANCELLED)[5];
      assert 0 in s.tickets && Over(s.tickets[0]) && 0 in s.first;
      assert Hooked(s.first[0].ret, 0) != Intended(s.tickets[0], 0);
    }
  }

  // ----- The engine

  datatype Verdict = Blocked | Failed | Woken(task: Task)

  /** `WaitResult` on the ring: completions are consumed until one of them ends the call, or none is left. */
  function Waits(repaired: bool, s: State): (State, Verdict)
    decreases |s.cq|
  {
    if !Enabled(s, Consume) then (s, Blocked)
    else
      var d := s.data[s.cq[0].sub];
      match Reap(repaired, d, s.cq[0]).decision
      case Wake => (Apply(repaired, s, Consume), Woken(d.task))
      case Fail => (Apply(repaired, s, Consume), Failed)
      case Retry => Waits(repaired, Apply(repaired, s, Consume))
  }

  /** A call keeps the invariant, wakes a task exactly if it says so, and blocks only when no completion is left. */
  lemma {:induction false} WaitsMeans(repaired: bool, s: State)
    requires Inv(repaired, s)
    ensures var (s', v) := Waits(repaired, s);
            && Inv(repaired, s')
            && (v.Blocked? ==> s'.cq == [] && s'.wakes == s.wakes)
            && (v.Failed? ==> s'.wakes == s.wakes && !repaired)
            && (v.Woken? ==>
                  exists sub :: sub in s'.data && s'.data[sub].task == v.task && s'.wakes == s.wakes + [sub])
    decreases |s.cq|
  {
    hide Inv, Settled;
    if s.cq == [] {
    } else {
      FirstIsKnown(repaired, s);
      var c := s.cq[0];
      var s1 := Apply(repaired, s, Consume);
      ConsumeInv(repaired, s);
      match Reap(repaired, s.data[c.sub], c).decision
      case Wake =>
        assert c.sub in s1.data && s1.data[c.sub].task == s.data[c.sub].task;
        assert s1.wakes == s.wakes + [c.sub];
      case Fail =>
      case Retry => WaitsMeans(repaired, s1);
    }
  }

  // ----- What a call consumes, and whom it wakes

  /** A timer completion that says nothing: its operation came first, or was cancelled. */
  predicate Idles(c: Cqe) {
    c.kind.Timer? && (c.res == -ENOENT || c.res == -ECANCELED)
  }

  predicate Breaks(c: Cqe) {
    c.kind.Timer? && c.res != -ENOENT && c.res != -ECANCELED && c.res != -ETIME
  }

  /** As written, a call passes over the timer completions that say nothing, and the first other one decides: it fails
      on any other timer error, and wakes on the rest; it blocks if there is no other one. */
  lemma {:induction false} WaitsAsWritten(s: State) returns (n: nat)
    requires Inv(false, s)
    ensures var (s', v) := Waits(false, s);
            && n <= |s.cq| && s'.cq == s.cq[n..]
            && (forall i | 0 <= i < n - 1 :: Idles(s.cq[i]))
            && (v.Blocked? <==> n == |s.cq| && forall i | 0 <= i < n :: Idles(s.cq[i]))
            && (v.Failed? <==> n > 0 && Breaks(s.cq[n - 1]))
            && (v.Woken? <==> n > 0 && !Idles(s.cq[n - 1]) && !Breaks(s.cq[n - 1]))
    decreases |s.cq|
  {
    hide Inv;
    if s.cq == [] {
      return 0;
    }
    FirstIsKnown(false, s);
    ConsumeInv(false, s);
    if Idles(s.cq[0]) {
      var s1 := Apply(false, s, Consume);
      assert s1.cq == s.cq[1..];
      var m := WaitsAsWritten(s1);
      assert forall i | 0 < i < |s.cq| :: s.cq[i] == s1.cq[i - 1];
      return m + 1;
    }
    return 1;
  }

  /** Step j of the run is the submission of `sub` by t. */
  predicate Submitted(repaired: bool, run: seq<State>, j: nat, sub: Sub, t: Task, linked: bool) {
    0 < j < |run| && Step(repaired, run[j - 1], run[j], Submit(sub, t, linked))
  }

  /** What a submission records stays: its task, and whether it has a timer. */
  predicate Recorded(s: State, sub: Sub, t: Task, linked: bool) {
    && sub in s.data && s.data[sub].task == t
    && sub in s.tickets && !s.tickets[sub].op.Absent? && (s.tickets[sub].timer.Absent? <==> !linked)
  }

  lemma StepRecords(repaired: bool, s: State, s': State, e: Event, sub: Sub, t: Task, linked: bool)
    requires Inv(repaired, s) && Step(repaired, s, s', e) && Recorded(s, sub, t, linked)
    ensures Recorded(s', sub, t, linked)
  {
    hide Settled, SettledAll;
    if e.Consume? { ConsumeQueued(s, s', s.cq[0]); }
  }

  /** The task stored for a submission is the one that submitted, in every later state of the run; and it has a timer
      if and only if it was given a timeout. */
  lemma {:induction false} SubmitterIsStored(repaired: bool, run: seq<State>, j: nat, i: nat, sub: Sub, t: Task,
                                             linked: bool)
    requires Run(repaired, run) && j <= i < |run| && Submitted(repaired, run, j, sub, t, linked)
    ensures Recorded(run[i], sub, t, linked)
    decreases i
  {
    if j < i {
      hide Inv, Apply, Recorded;
      SubmitterIsStored(repaired, run, j, i - 1, sub, t, linked);
      RunInv(repaired, run, i - 1);
      assert NextAt(repaired, run, i);
      var e :| Step(repaired, run[i - 1], run[i], e);
      StepRecords(repaired, run[i - 1], run[i], e, sub, t, linked);
    }
  }

  /** Whatever is stored was submitted. */
  lemma {:induction false} StoredWasSubmitted(repaired: bool, run: seq<State>, i: nat, sub: Sub)
    returns (j: nat, t: Task, linked: bool)
    requires Run(repaired, run) && i < |run| && sub in run[i].data
    ensures j <= i && Submitted(repaired, run, j, sub, t, linked)
  {
    if i > 0 {
      assert NextAt(repaired, run, i);
      var e :| Step(repaired, run[i - 1], run[i], e);
      if e.Submit? && e.sub == sub {
        j, t, linked := i, e.task, e.linked;
      } else {
        assert sub in run[i - 1].data;
        j, t, linked := StoredWasSubmitted(repaired, run, i - 1, sub);
      }
    }
  }

  /** One call consumes completions from the front of the queue, changes no task, and, if it wakes one, wakes the task
      of the completion it consumed last. */
  lemma {:induction false} WaitsWakes(repaired: bool, s: State) returns (n: nat)
    requires Inv(repaired, s)
    ensures var (s', v) := Waits(repaired, s);
            && n <= |s.cq| && s'.cq == s.cq[n..]
            && (v.Woken? ==>
                  && n > 0 && s.cq[n - 1].sub in s.data
                  && v.task == s.data[s.cq[n - 1].sub].task && s'.wakes == s.wakes + [s.cq[n - 1].sub])
    decreases |s.cq|
  {
    hide Inv, Reap;
    if s.cq == [] {
      return 0;
    }
    FirstIsKnown(repaired, s);
    ConsumeInv(repaired, s);
    var c, s1 := s.cq[0], Apply(repaired, s, Consume);
    if Reap(repaired, s.data[c.sub], c).decision.Retry? {
      var m := WaitsWakes(repaired, s1);
      SameTasks(repaired, s);
      assert m > 0 ==> s1.cq[m - 1] == s.cq[m];
      return m + 1;
    }
    return 1;
  }

  lemma SameTasks(repaired: bool, s: State)
    requires Enabled(s, Consume)
    ensures Apply(repaired, s, Consume).data.Keys == s.data.Keys
    ensures forall sub | sub in s.data :: Apply(repaired, s, Consume).data[sub].task == s.data[sub].task
  {
  }

  /** In every run: a call of `WaitResult` that wakes a task wakes the one that submitted the entry whose completion the
      call consumed last. */
  lemma WokenSubmitted(repaired: bool, run: seq<State>, i: nat) returns (n: nat, j: nat, linked: bool)
    requires Run(repaired, run) && i < |run| && Waits(repaired, run[i]).1.Woken?
    ensures var (s', v) := Waits(repaired, run[i]);
            && 0 < n <= |run[i].cq| && s'.cq == run[i].cq[n..]
            && s'.wakes == run[i].wakes + [run[i].cq[n - 1].sub]
            && j <= i && Submitted(repaired, run, j, run[i].cq[n - 1].sub, v.task, linked)
  {
    hide Run, Inv, Waits, Apply;
    RunInv(repaired, run, i);
    n := WaitsWakes(repaired, run[i]);
    var sub, t := run[i].cq[n - 1].sub, 0;
    j, t, linked := StoredWasSubmitted(repaired, run, i, sub);
    SubmitterIsStored(repaired, run, j, i, sub, t, linked);
  }

  lemma FirstIsKnown(repaired: bool, s: State)
    requires Inv(repaired, s) && s.cq != []
    ensures Enabled(s, Consume)
  {
    assert s.cq[0].sub in s.tickets;
  }

  class Engine {
    const repaired: bool
    var cq: seq<Cqe>
    var data: map<Sub, Data>
    ghost var wakes: seq<Sub>
    ghost var first: map<Sub, First>
    ghost var tickets: map<Sub, Ticket>

    ghost function Contents(): State
      reads this
    {
      State(cq, data, wakes, first, tickets)
    }

    ghost predicate Valid()
      reads this
    {
      Inv(repaired, Contents())
    }

    constructor (repaired: bool)
      ensures Valid() && Contents() == Init() && this.repaired == repaired
    {
      this.repaired, cq, data, wakes, first, tickets := repaired, [], map[], [], map[], map[];
      new;
      InitInv(repaired);
    }

    /** Lines 38-59, with room in the ring: one entry, or, with a timeout, a linked pair that shares one result. */
    method Exec(sub: Sub, task: Task, seconds: int, nanoseconds: int)
      requires Valid() && sub !in data && seconds >= 0 && nanoseconds >= 0
      modifies this
      ensures Valid()
      ensures Contents() == Apply(repaired, old(Contents()), Submit(sub, task, seconds + nanoseconds > 0))
    {
      var linked := seconds > 0 || nanoseconds > 0;
      SubmitInv(repaired, Contents(), Submit(sub, task, linked));
      data := data[sub := Data(task, 0, if linked then 2 else 1, false)];
      tickets := tickets[sub := Ticket(Outstanding, if linked then Outstanding else Absent)];
    }

    /** Lines 97-127.  Where the source waits for the next completion, the call returns `Blocked`. */
    method WaitResult() returns (v: Verdict)
      requires Valid()
      modifies this
      ensures Valid()
      ensures (Contents(), v) == Waits(repaired, old(Contents()))
      decreases |cq|
    {
      hide Inv, Reap, SetStage;
      WaitsMeans(repaired, Contents());
      if cq == [] {
        return Blocked;
      }
      FirstIsKnown(repaired, Contents());
      ConsumeInv(repaired, Contents());
      ghost var s := Contents();
      var c := cq[0];
      var d := data[c.sub];
      var reaped := Reap(repaired, d, c);
      cq, data := cq[1..], data[c.sub := reaped.data];
      tickets := tickets[c.sub := SetStage(tickets[c.sub], c.kind, Consumed(c.res))];
      wakes := if reaped.decision.Wake? then wakes + [c.sub] else wakes;
      if reaped.decision.Wake? && c.sub !in first {
        first := first[c.sub := First(c.kind, reaped.data.ret)];
      }
      assert Contents() == Apply(repaired, s, Consume);
      match reaped.decision {
        case Wake => return Woken(d.task);
        case Fail => return Failed;
        case Retry => v := WaitResult();
      }
    }
  }
}
