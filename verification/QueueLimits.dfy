/**
Where the queue as written falls short of its specification, and that nothing else does: concrete interleavings for
the clearing read of line 202 and for reading `tail` before `head` at line 184, and the theorems that these two
choices are exactly what makes the difference.
*/
module QueueLimits {
  import opened Options
  import opened QueueModel
  import opened QueueInvariant
  import opened QueueFrames
  import opened QueueSteps
  import opened QueueRefinement

  // ----- Paths

  ghost predicate Path(cfg: Config, path: seq<State>, busy: bool) {
    && 0 < |path|
    && (forall i | 0 < i < |path| :: NextAt(cfg, path, i))
    && (busy ==> forall i {:trigger path[i].h} | 0 <= i < |path| :: path[i].h < path[i].t)
  }

  /** Some interleaving leads from s to s'. */
  ghost predicate Leads(cfg: Config, s: State, s': State, busy: bool) {
    exists path {:trigger Path(cfg, path, busy)} :: Path(cfg, path, busy) && path[0] == s && path[|path| - 1] == s'
  }

  lemma Single(cfg: Config, s: State, s': State, a: Tid, act: Action, busy: bool)
    requires HeadRoom(s) && Step(cfg, s, s', a, act)
    requires busy ==> s.h < s.t && s'.h < s'.t
    ensures Leads(cfg, s, s', busy)
  {
    hide Apply;
    var path := [s, s'];
    assert path[0] == s && path[1] == s';
    assert NextAt(cfg, path, 1);
    assert Path(cfg, path, busy);
  }

  lemma Joined(cfg: Config, p: seq<State>, q: seq<State>, busy: bool)
    requires Path(cfg, p, busy) && Path(cfg, q, busy) && p[|p| - 1] == q[0]
    ensures Path(cfg, p + q[1..], busy)
  {
    var r := p + q[1..];
    forall i | 0 < i < |r|
      ensures NextAt(cfg, r, i)
    {
      if i >= |p| {
        assert r[i] == q[i - |p| + 1] && r[i - 1] == q[i - |p|];
        assert NextAt(cfg, q, i - |p| + 1);
      } else {
        assert NextAt(cfg, p, i);
      }
    }
    if busy {
      forall i | 0 <= i < |r|
        ensures r[i].h < r[i].t
      {
        if i >= |p| {
          assert r[i] == q[i - |p| + 1];
          assert q[i - |p| + 1].h < q[i - |p| + 1].t;
        } else {
          assert r[i] == p[i];
          assert p[i].h < p[i].t;
        }
      }
    }
  }

  lemma Then(cfg: Config, s: State, s': State, s'': State, busy: bool)
    requires Leads(cfg, s, s', busy) && Leads(cfg, s', s'', busy)
    ensures Leads(cfg, s, s'', busy)
  {
    var p :| Path(cfg, p, busy) && p[0] == s && p[|p| - 1] == s';
    var q :| Path(cfg, q, busy) && q[0] == s' && q[|q| - 1] == s'';
    Joined(cfg, p, q, busy);
    var r := p + q[1..];
    assert r[|r| - 1] == s'';
  }

  // ----- Line 202 as written: a push is lost

  function Lost0(): State {
    State(Word(0, 1), Word(0, 1),
      [Node(None, Counter(0, 2), None, Some(0), Shared, None, false, Attached, Attached)],
      map[
          0 := Idle,
          1 := Idle,
          2 := Idle],
      0, 0, 0, 0, [0], 0, 0, 0, 0)
  }

  function Lost1(): State {
    State(Word(0, 1), Word(0, 2),
      [Node(None, Counter(0, 2), None, Some(0), Shared, None, false, Attached, Attached),
       Node(None, Counter(0, 2), None, None, Private(1), None, false, Attached, Attached),
       Node(None, Counter(0, 2), None, None, Private(0), None, false, Attached, Attached)],
      map[
          0 := PushAcquire(Push(5, Some(2), NotYet, 0, 0), Word(0, 2)),
          1 := PushFill(Push(7, Some(1), NotYet, 0, 0), Word(0, 2)),
          2 := Idle],
      0, 0, 0, 0, [0], 0, 0, 0, 0)
  }

  lemma LostStage1(cfg: Config)
    requires !cfg.keepData
    ensures Leads(cfg, Lost0(), Lost1(), false)
  {
    hide Leads;
    var s1 := Apply(cfg, Lost0(), 1, CallPush(7));
    var s2 := Apply(cfg, s1, 1, Go);
    var s3 := Apply(cfg, s2, 1, Go);
    var s4 := Apply(cfg, s3, 0, CallPush(5));
    Single(cfg, Lost0(), s1, 1, CallPush(7), false);
    Single(cfg, s1, s2, 1, Go, false);
    Single(cfg, s2, s3, 1, Go, false);
    Single(cfg, s3, s4, 0, CallPush(5), false);
    Single(cfg, s4, Lost1(), 0, Go, false);
    Then(cfg, Lost0(), s1, s2, false);
    Then(cfg, Lost0(), s2, s3, false);
    Then(cfg, Lost0(), s3, s4, false);
    Then(cfg, Lost0(), s4, Lost1(), false);
  }

  function Lost2(): State {
    State(Word(0, 1), Word(2, 1),
      [Node(Some(5), Counter(0, 2), Some(Word(2, 1)), Some(0), Shared,
            Some(Fill(5, 0)), false, Detached(0, 3), Attached),
       Node(None, Counter(0, 2), None, None, Private(1), None, false, Attached, Attached),
       Node(None, Counter(0, 2), None, Some(1), Shared, None, false, Attached, Attached)],
      map[
          0 := Free(Word(0, 3), TailSide, None, AfterPush(Push(5, None, First, 0, 0), Word(0, 3))),
          1 := PushFill(Push(7, Some(1), NotYet, 0, 0), Word(0, 2)),
          2 := Idle],
      0, 0, 0, 0, [0, 2], 0, 1, 1, 0)
  }

  lemma LostStage2(cfg: Config)
    requires !cfg.keepData
    ensures Leads(cfg, Lost1(), Lost2(), false)
  {
    hide Leads;
    var s1 := Apply(cfg, Lost1(), 0, Go);
    var s2 := Apply(cfg, s1, 0, Go);
    var s3 := Apply(cfg, s2, 0, Go);
    Single(cfg, Lost1(), s1, 0, Go, false);
    Single(cfg, s1, s2, 0, Go, false);
    Single(cfg, s2, s3, 0, Go, false);
    Single(cfg, s3, Lost2(), 0, Go, false);
    Then(cfg, Lost1(), s1, s2, false);
    Then(cfg, Lost1(), s2, s3, false);
    Then(cfg, Lost1(), s3, Lost2(), false);
  }

  function Lost3(): State {
    State(Word(0, 2), Word(2, 1),
      [Node(Some(5), Counter(0, 2), Some(Word(2, 1)), Some(0), Shared,
            Some(Fill(5, 0)), false, Detached(0, 3), Attached),
       Node(None, Counter(0, 2), None, None, Private(1), None, false, Attached, Attached),
       Node(None, Counter(0, 2), None, Some(1), Shared, None, false, Attached, Attached)],
      map[
          0 := Free(Word(0, 3), TailSide, None, AfterPush(Push(5, None, First, 0, 0), Word(0, 3))),
          1 := PushFill(Push(7, Some(1), NotYet, 0, 0), Word(0, 2)),
          2 := PopCheck(Word(0, 2))],
      0, 0, 0, 0, [0, 2], 0, 1, 1, 0)
  }

  lemma LostStage3(cfg: Config)
    requires !cfg.keepData
    ensures Leads(cfg, Lost2(), Lost3(), false)
  {
    hide Leads;
    var s1 := Apply(cfg, Lost2(), 2, CallPop);
    var s2 := Apply(cfg, s1, 2, Go);
    var s3 := Apply(cfg, s2, 2, Go);
    var s4 := Apply(cfg, s3, 2, Go);
    Single(cfg, Lost2(), s1, 2, CallPop, false);
    Single(cfg, s1, s2, 2, Go, false);
    Single(cfg, s2, s3, 2, Go, false);
    Single(cfg, s3, s4, 2, Go, false);
    Single(cfg, s4, Lost3(), 2, Go, false);
    Then(cfg, Lost2(), s1, s2, false);
    Then(cfg, Lost2(), s2, s3, false);
    Then(cfg, Lost2(), s3, s4, false);
    Then(cfg, Lost2(), s4, Lost3(), false);
  }

  function Lost4(): State {
    State(Word(2, 1), Word(2, 1),
      [Node(Some(7), Counter(0, 2), Some(Word(2, 1)), Some(0), Shared,
            Some(Fill(5, 0)), true, Detached(0, 3), Detached(2, 2)),
       Node(None, Counter(0, 2), None, None, Private(1), None, false, Attached, Attached),
       Node(None, Counter(0, 2), None, Some(1), Shared, None, false, Attached, Attached)],
      map[
          0 := Free(Word(0, 3), TailSide, None, AfterPush(Push(5, None, First, 0, 0), Word(0, 3))),
          1 := PushLink(Push(7, Some(1), Late, 0, 0), Word(0, 2)),
          2 := Free(Word(0, 2), HeadSide, None, AfterTake(Some(5)))],
      0, 0, 0, 0, [0, 2], 1, 1, 2, 1)
  }

  lemma LostStage4(cfg: Config)
    requires !cfg.keepData
    ensures Leads(cfg, Lost3(), Lost4(), false)
  {
    hide Leads;
    var s1 := Apply(cfg, Lost3(), 2, Go);
    var s2 := Apply(cfg, s1, 2, Go);
    var s3 := Apply(cfg, s2, 2, Go);
    var s4 := Apply(cfg, s3, 2, Go);
    Single(cfg, Lost3(), s1, 2, Go, false);
    Single(cfg, s1, s2, 2, Go, false);
    Single(cfg, s2, s3, 2, Go, false);
    Single(cfg, s3, s4, 2, Go, false);
    Single(cfg, s4, Lost4(), 1, Go, false);
    Then(cfg, Lost3(), s1, s2, false);
    Then(cfg, Lost3(), s2, s3, false);
    Then(cfg, Lost3(), s3, s4, false);
    Then(cfg, Lost3(), s4, Lost4(), false);
  }

  // ----- Line 184 with `tail` read first: a pop answers "empty" though the queue never was

  function Spurious0(): State {
    State(Word(0, 1), Word(0, 1),
      [Node(None, Counter(0, 2), None, Some(0), Shared, None, false, Attached, Attached)],
      map[
          0 := Idle,
          1 := Idle,
          2 := Idle,
          3 := Idle],
      0, 0, 0, 0, [0], 0, 0, 0, 0)
  }

  function Spurious1(): State {
    State(Word(0, 1), Word(1, 1),
      [Node(Some(5), Counter(0, 2), Some(Word(1, 1)), Some(0), Shared,
            Some(Fill(5, 0)), false, Detached(0, 2), Attached),
       Node(None, Counter(0, 2), None, Some(1), Shared, None, false, Attached, Attached)],
      map[
          0 := Free(Word(0, 2), TailSide, None, AfterPush(Push(5, None, First, 0, 0), Word(0, 2))),
          1 := Idle,
          2 := Idle,
          3 := Idle],
      0, 0, 0, 0, [0, 1], 0, 1, 1, 0)
  }

  lemma SpuriousStage1(cfg: Config)
    requires !cfg.headFirst
    ensures Leads(cfg, Spurious0(), Spurious1(), false)
  {
    hide Leads;
    var s1 := Apply(cfg, Spurious0(), 0, CallPush(5));
    var s2 := Apply(cfg, s1, 0, Go);
    var s3 := Apply(cfg, s2, 0, Go);
    var s4 := Apply(cfg, s3, 0, Go);
    var s5 := Apply(cfg, s4, 0, Go);
    Single(cfg, Spurious0(), s1, 0, CallPush(5), false);
    Single(cfg, s1, s2, 0, Go, false);
    Single(cfg, s2, s3, 0, Go, false);
    Single(cfg, s3, s4, 0, Go, false);
    Single(cfg, s4, s5, 0, Go, false);
    Single(cfg, s5, Spurious1(), 0, Go, false);
    Then(cfg, Spurious0(), s1, s2, false);
    Then(cfg, Spurious0(), s2, s3, false);
    Then(cfg, Spurious0(), s3, s4, false);
    Then(cfg, Spurious0(), s4, s5, false);
    Then(cfg, Spurious0(), s5, Spurious1(), false);
  }

  function Spurious2(): State {
    State(Word(0, 1), Word(1, 2),
      [Node(Some(5), Counter(0, 2), Some(Word(1, 1)), Some(0), Shared,
            Some(Fill(5, 0)), false, Detached(0, 2), Attached),
       Node(None, Counter(0, 2), None, Some(1), Shared, None, false, Attached, Attached),
       Node(None, Counter(0, 2), None, None, Private(2), None, false, Attached, Attached)],
      map[
          0 := Free(Word(0, 2), TailSide, None, AfterPush(Push(5, None, First, 0, 0), Word(0, 2))),
          1 := PopPeekAgain(1),
          2 := PushFill(Push(6, Some(2), NotYet, 1, 0), Word(1, 2)),
          3 := Idle],
      0, 0, 0, 0, [0, 1], 0, 1, 1, 0)
  }

  lemma SpuriousStage2(cfg: Config)
    requires !cfg.headFirst
    ensures Leads(cfg, Spurious1(), Spurious2(), true)
  {
    hide Leads;
    var s1 := Apply(cfg, Spurious1(), 1, CallPop);
    var s2 := Apply(cfg, s1, 1, Go);
    var s3 := Apply(cfg, s2, 2, CallPush(6));
    var s4 := Apply(cfg, s3, 2, Go);
    Single(cfg, Spurious1(), s1, 1, CallPop, true);
    Single(cfg, s1, s2, 1, Go, true);
    Single(cfg, s2, s3, 2, CallPush(6), true);
    Single(cfg, s3, s4, 2, Go, true);
    Single(cfg, s4, Spurious2(), 2, Go, true);
    Then(cfg, Spurious1(), s1, s2, true);
    Then(cfg, Spurious1(), s2, s3, true);
    Then(cfg, Spurious1(), s3, s4, true);
    Then(cfg, Spurious1(), s4, Spurious2(), true);
  }

  function Spurious3(): State {
    State(Word(0, 1), Word(2, 1),
      [Node(Some(5), Counter(0, 2), Some(Word(1, 1)), Some(0), Shared,
            Some(Fill(5, 0)), false, Detached(0, 2), Attached),
       Node(Some(6), Counter(0, 2), Some(Word(2, 1)), Some(1), Shared,
            Some(Fill(6, 2)), false, Detached(2, 2), Attached),
       Node(None, Counter(0, 2), None, Some(2), Shared, None, false, Attached, Attached)],
      map[
          0 := Free(Word(0, 2), TailSide, None, AfterPush(Push(5, None, First, 0, 0), Word(0, 2))),
          1 := PopPeekAgain(1),
          2 := Free(Word(1, 2), TailSide, None, AfterPush(Push(6, None, First, 1, 0), Word(1, 2))),
          3 := Idle],
      0, 0, 0, 0, [0, 1, 2], 0, 2, 2, 0)
  }

  lemma SpuriousStage3(cfg: Config)
    requires !cfg.headFirst
    ensures Leads(cfg, Spurious2(), Spurious3(), true)
  {
    hide Leads;
    var s1 := Apply(cfg, Spurious2(), 2, Go);
    var s2 := Apply(cfg, s1, 2, Go);
    Single(cfg, Spurious2(), s1, 2, Go, true);
    Single(cfg, s1, s2, 2, Go, true);
    Single(cfg, s2, Spurious3(), 2, Go, true);
    Then(cfg, Spurious2(), s1, s2, true);
    Then(cfg, Spurious2(), s2, Spurious3(), true);
  }

  function Spurious4(): State {
    State(Word(0, 2), Word(2, 1),
      [Node(Some(5), Counter(0, 2), Some(Word(1, 1)), Some(0), Shared,
            Some(Fill(5, 0)), false, Detached(0, 2), Attached),
       Node(Some(6), Counter(0, 2), Some(Word(2, 1)), Some(1), Shared,
            Some(Fill(6, 2)), false, Detached(2, 2), Attached),
       Node(None, Counter(0, 2), None, Some(2), Shared, None, false, Attached, Attached)],
      map[
          0 := Free(Word(0, 2), TailSide, None, AfterPush(Push(5, None, First, 0, 0), Word(0, 2))),
          1 := PopPeekAgain(1),
          2 := Free(Word(1, 2), TailSide, None, AfterPush(Push(6, None, First, 1, 0), Word(1, 2))),
          3 := PopCheck(Word(0, 2))],
      0, 0, 0, 0, [0, 1, 2], 0, 2, 2, 0)
  }

  lemma SpuriousStage4(cfg: Config)
    requires !cfg.headFirst
    ensures Leads(cfg, Spurious3(), Spurious4(), true)
  {
    hide Leads;
    var s1 := Apply(cfg, Spurious3(), 3, CallPop);
    var s2 := Apply(cfg, s1, 3, Go);
    var s3 := Apply(cfg, s2, 3, Go);
    var s4 := Apply(cfg, s3, 3, Go);
    Single(cfg, Spurious3(), s1, 3, CallPop, true);
    Single(cfg, s1, s2, 3, Go, true);
    Single(cfg, s2, s3, 3, Go, true);
    Single(cfg, s3, s4, 3, Go, true);
    Single(cfg, s4, Spurious4(), 3, Go, true);
    Then(cfg, Spurious3(), s1, s2, true);
    Then(cfg, Spurious3(), s2, s3, true);
    Then(cfg, Spurious3(), s3, s4, true);
    Then(cfg, Spurious3(), s4, Spurious4(), true);
  }

  function Spurious5(): State {
    State(Word(1, 1), Word(2, 1),
      [Node(Some(5), Counter(0, 2), Some(Word(1, 1)), Some(0), Shared,
            Some(Fill(5, 0)), false, Detached(0, 2), Detached(3, 2)),
       Node(Some(6), Counter(0, 2), Some(Word(2, 1)), Some(1), Shared,
            Some(Fill(6, 2)), false, Detached(2, 2), Attached),
       Node(None, Counter(0, 2), None, Some(2), Shared, None, false, Attached, Attached)],
      map[
          0 := Free(Word(0, 2), TailSide, None, AfterPush(Push(5, None, First, 0, 0), Word(0, 2))),
          1 := PopDone(None),
          2 := Free(Word(1, 2), TailSide, None, AfterPush(Push(6, None, First, 1, 0), Word(1, 2))),
          3 := PopTake(Word(0, 2))],
      0, 0, 0, 0, [0, 1, 2], 1, 2, 2, 0)
  }

  lemma SpuriousStage5(cfg: Config)
    requires !cfg.headFirst
    ensures Leads(cfg, Spurious4(), Spurious5(), true)
  {
    hide Leads;
    var s1 := Apply(cfg, Spurious4(), 3, Go);
    var s2 := Apply(cfg, s1, 3, Go);
    var s3 := Apply(cfg, s2, 3, Go);
    Single(cfg, Spurious4(), s1, 3, Go, true);
    Single(cfg, s1, s2, 3, Go, true);
    Single(cfg, s2, s3, 3, Go, true);
    Single(cfg, s3, Spurious5(), 1, Go, true);
    Then(cfg, Spurious4(), s1, s2, true);
    Then(cfg, Spurious4(), s2, s3, true);
    Then(cfg, Spurious4(), s3, Spurious5(), true);
  }

  // ----- The two choices are exactly what matters

  lemma LeadsToRun(cfg: Config, tids: set<Tid>, s: State, busy: bool)
    requires Leads(cfg, Init(tids), s, busy) && |tids| < COUNT_MOD - 1
    ensures exists run {:trigger Run(cfg, run)} :: Run(cfg, run) && run[|run| - 1] == s
  {
    var path :| Path(cfg, path, busy) && path[0] == Init(tids) && path[|path| - 1] == s;
    hide Init, Next;
    assert forall i | 0 < i < |path| :: NextAt(cfg, path, i);
    assert Run(cfg, path);
  }

  lemma LostEnds()
    ensures Init({0, 1, 2}) == Lost0() && Lost4().drops == 1
  {
  }

  lemma SomePushLost(cfg: Config)
    requires !cfg.keepData
    ensures exists run: seq<State> {:trigger Run(cfg, run)} :: Run(cfg, run) && run[|run| - 1].drops == 1
  {
    hide Leads, Init, Lost0, Lost1, Lost2, Lost3, Lost4, Run;
    LostEnds();
    LostStage1(cfg);
    LostStage2(cfg);
    LostStage3(cfg);
    LostStage4(cfg);
    Then(cfg, Lost0(), Lost1(), Lost2(), false);
    Then(cfg, Lost0(), Lost2(), Lost3(), false);
    Then(cfg, Lost0(), Lost3(), Lost4(), false);
    LeadsToRun(cfg, {0, 1, 2}, Lost4(), false);
  }

  /** No run loses a push exactly if line 202 reads the data without clearing it. */
  lemma KeepDataIsExact(cfg: Config)
    ensures (forall run: seq<State> {:trigger Run(cfg, run)} | Run(cfg, run) :: run[|run| - 1].drops == 0) <==>
            cfg.keepData
  {
    if cfg.keepData {
      forall run: seq<State> | Run(cfg, run)
        ensures run[|run| - 1].drops == 0
      {
        RunInv(cfg, run, |run| - 1);
        assert Tallied(cfg, run[|run| - 1]);
      }
    } else {
      SomePushLost(cfg);
    }
  }

  /** Thread b makes a call that answers "empty" at the end of the run, and the queue is not empty at any moment from
      before the call to the answer. */
  ghost predicate SpuriousEmpty(cfg: Config, run: seq<State>, k: nat, b: Tid) {
    && Run(cfg, run) && k < |run|
    && b in run[k].threads && run[k].threads[b] == Idle
    && b in run[|run| - 1].threads && run[|run| - 1].threads[b] == PopDone(None)
    && forall i | k <= i < |run| :: Queue(run[i]) != []
  }

  /** A thread's answer becomes "empty" only at a moment when the queue is empty. */
  lemma {:induction false} AnswerNeedsEmpty(cfg: Config, run: seq<State>, k: nat, b: Tid, i: nat)
    requires cfg.headFirst && Run(cfg, run) && k <= i < |run|
    requires b in run[k].threads && run[k].threads[b] == Idle
    requires forall j | k <= j < |run| :: Queue(run[j]) != []
    ensures b in run[i].threads && CallOf(run[i], run[i].threads[b]) != Popped(None)
  {
    if i > k {
      hide Inv, CallOf, Meaning, Apply, Init, Next;
      AnswerNeedsEmpty(cfg, run, k, b, i - 1);
      NextIsSpec(cfg, run, i);
      var q, q' := Abs(run[i - 1]), Abs(run[i]);
      assert q.queue != [] && b in q.calls && q.calls[b] != Popped(None);
      hide Run, Queue;
      var a, e :| Allowed(q, q', a, e, FaultsOf(cfg));
      AnswerStep(q, q', a, e, b);
      hide SpecStep;
      assert b in Calls(run[i]);
    }
  }

  lemma AnswerStep(q: Spec, q': Spec, a: Tid, e: Event, b: Tid)
    requires SpecStep(q, q', a, e) && !e.Misses? && q.queue != [] && b in q.calls && q.calls[b] != Popped(None)
    ensures b in q'.calls && q'.calls[b] != Popped(None)
  {
  }

  lemma SpuriousEnds()
    ensures Init({0, 1, 2, 3}) == Spurious0()
    ensures 1 in Spurious1().threads && Spurious1().threads[1] == Idle
    ensures 1 in Spurious5().threads && Spurious5().threads[1] == PopDone(None)
  {
  }

  lemma SomeSpuriousEmpty(cfg: Config)
    requires !cfg.headFirst
    ensures exists run, k, b :: SpuriousEmpty(cfg, run, k, b)
  {
    hide Leads, Init, Spurious0, Spurious1, Spurious2, Spurious3, Spurious4, Spurious5, SpuriousEmpty;
    SpuriousEnds();
    SpuriousStage1(cfg);
    SpuriousStage2(cfg);
    SpuriousStage3(cfg);
    SpuriousStage4(cfg);
    SpuriousStage5(cfg);
    Then(cfg, Spurious1(), Spurious2(), Spurious3(), true);
    Then(cfg, Spurious1(), Spurious3(), Spurious4(), true);
    Then(cfg, Spurious1(), Spurious4(), Spurious5(), true);
    SpuriousRun(cfg, {0, 1, 2, 3}, Spurious0(), Spurious1(), Spurious5(), 1);
  }

  lemma SpuriousRun(cfg: Config, tids: set<Tid>, s0: State, s1: State, s2: State, b: Tid)
    requires |tids| < COUNT_MOD - 1 && s0 == Init(tids)
    requires Leads(cfg, s0, s1, false) && Leads(cfg, s1, s2, true)
    requires b in s1.threads && s1.threads[b] == Idle && b in s2.threads && s2.threads[b] == PopDone(None)
    ensures exists run, k, b :: SpuriousEmpty(cfg, run, k, b)
  {
    hide Init;
    var p: seq<State> :| Path(cfg, p, false) && p[0] == s0 && p[|p| - 1] == s1;
    var q: seq<State> :| Path(cfg, q, true) && q[0] == s1 && q[|q| - 1] == s2;
    assert Path(cfg, q, false);
    Joined(cfg, p, q, false);
    var r, k := p + q[1..], |p| - 1;
    assert r[0] == Init(tids) && r[|r| - 1] == s2 && r[k] == s1;
    assert Run(cfg, r);
    forall i | k <= i < |r|
      ensures Queue(r[i]) != []
    {
      hide Run;
      assert r[i] == q[i - k];
      BusyQueue(cfg, q, i - k);
    }
    hide Path, Queue, Run;
    assert SpuriousEmpty(cfg, r, k, b);
  }

  lemma BusyQueue(cfg: Config, path: seq<State>, i: nat)
    requires Path(cfg, path, true) && i < |path|
    ensures Queue(path[i]) != []
  {
    assert path[i].h < path[i].t;
    assert |Queue(path[i])| == path[i].t - path[i].h;
  }

  /** No "empty" answer is ever spurious exactly if line 184 reads `head` before `tail`. */
  lemma HeadFirstIsExact(cfg: Config)
    ensures (forall run, k, b :: !SpuriousEmpty(cfg, run, k, b)) <==> cfg.headFirst
  {
    if cfg.headFirst {
      forall run, k, b
        ensures !SpuriousEmpty(cfg, run, k, b)
      {
        if SpuriousEmpty(cfg, run, k, b) {
          AnswerNeedsEmpty(cfg, run, k, b, |run| - 1);
        }
      }
    } else {
      SomeSpuriousEmpty(cfg);
    }
  }
}
