/**
The values of the lock-free queue over a whole run, in every configuration: each value appended is the value of one
push, and is appended once; the values removed are the first of them, in order; and each pop returns the value that
it removed.
*/
module QueueLedger {
  import opened Options
  import opened QueueModel
  import opened QueueInvariant
  import opened QueueFrames
  import opened QueueSteps
  import opened QueueRefinement
  import opened QueueTheorems

  // ----- The books of the atomic queue

  /** What the calls made and the answers given amount to.  Nothing here is read off the queue's contents. */
  datatype Books = Books(
    begun: multiset<Value>,       // the values of the pushes begun
    appended: seq<Value>,         // the values of the pushes that took effect, in order
    dropped: multiset<Value>,     // the values of the pushes that were lost
    removed: seq<Value>,          // the values that pops took, in order
    returned: multiset<Value>)    // the values that pops returned

  function Empty(): Books {
    Books(multiset{}, [], multiset{}, [], multiset{})
  }

  function Record(b: Books, q: Spec, a: Tid, e: Event): Books {
    match e
    case BeginPush(v) => b.(begun := b.begun + multiset{v})
    case Append(p) => if p in q.calls && q.calls[p].Pushing? then b.(appended := b.appended + [q.calls[p].v]) else b
    case Drops => if a in q.calls && q.calls[a].Pushing? then b.(dropped := b.dropped + multiset{q.calls[a].v}) else b
    case Remove => if q.queue != [] then b.(removed := b.removed + [q.queue[0]]) else b
    case End =>
      if a in q.calls && q.calls[a].Popped? && q.calls[a].res.Some?
      then b.(returned := b.returned + multiset{q.calls[a].res.value}) else b
    case _ => b
  }

  /** The keys at which a map holds x. */
  ghost function Where<V>(m: map<Tid, V>, x: V): set<Tid> {
    set b | b in m && m[b] == x
  }

  /** Every value begun is appended once, lost, or still being pushed; every value removed is returned once, or still
      in the hands of the pop that removed it; and the queue is what has been appended and not removed. */
  ghost predicate Balanced(b: Books, q: Spec) {
    && b.appended == b.removed + q.queue
    && (forall v :: PushesBalance(b, q, v))
    && (forall v :: PopsBalance(b, q, v))
  }

  lemma Pick<T>(all: set<T>, x: T)
    ensures |all| == |all - {x}| + One(x in all)
  {
    if x in all { assert all == (all - {x}) + {x}; } else { assert all - {x} == all; }
  }

  lemma OneDiffers<T>(was: set<T>, will: set<T>, x: T)
    requires forall y | y != x :: y in was <==> y in will
    ensures |was| - One(x in was) == |will| - One(x in will)
  {
    assert was - {x} == will - {x};
    Pick(was, x);
    Pick(will, x);
  }

  lemma WhereStep<V>(m: map<Tid, V>, a: Tid, now: V, x: V)
    requires a in m
    ensures |Where(m[a := now], x)| == |Where(m, x)| - One(m[a] == x) + One(now == x)
  {
    OneDiffers(Where(m, x), Where(m[a := now], x), a);
  }

  /** The thread whose call an event changes. */
  function Subject(a: Tid, e: Event): Tid {
    if e.Append? then e.pusher else a
  }

  lemma OneCallChanges(q: Spec, q': Spec, a: Tid, e: Event)
    requires SpecStep(q, q', a, e)
    ensures Subject(a, e) in q.calls && Subject(a, e) in q'.calls
    ensures q'.calls == q.calls[Subject(a, e) := q'.calls[Subject(a, e)]]
  {
  }

  ghost predicate PushesBalance(b: Books, q: Spec, v: Value) {
    b.begun[v] == multiset(b.appended)[v] + b.dropped[v] + |Where(q.calls, Pushing(v))|
  }

  ghost predicate PopsBalance(b: Books, q: Spec, v: Value) {
    multiset(b.removed)[v] == b.returned[v] + |Where(q.calls, Popped(Some(v)))|
  }

  lemma PushesStep(b: Books, q: Spec, q': Spec, a: Tid, e: Event, v: Value)
    requires PushesBalance(b, q, v) && SpecStep(q, q', a, e)
    ensures PushesBalance(Record(b, q, a, e), q', v)
  {
    OneCallChanges(q, q', a, e);
    var x := Subject(a, e);
    WhereStep(q.calls, x, q'.calls[x], Pushing(v));
    hide Where;
  }

  lemma PopsStep(b: Books, q: Spec, q': Spec, a: Tid, e: Event, v: Value)
    requires PopsBalance(b, q, v) && SpecStep(q, q', a, e)
    ensures PopsBalance(Record(b, q, a, e), q', v)
  {
    OneCallChanges(q, q', a, e);
    var x := Subject(a, e);
    WhereStep(q.calls, x, q'.calls[x], Popped(Some(v)));
    hide Where;
  }

  lemma RecordBalances(b: Books, q: Spec, q': Spec, a: Tid, e: Event)
    requires Balanced(b, q) && SpecStep(q, q', a, e)
    ensures Balanced(Record(b, q, a, e), q')
  {
    hide PushesBalance, PopsBalance;
    var b' := Record(b, q, a, e);
    forall v
      ensures PushesBalance(b', q', v) && PopsBalance(b', q', v)
    {
      assert PushesBalance(b, q, v) && PopsBalance(b, q, v);
      PushesStep(b, q, q', a, e, v);
      PopsStep(b, q, q', a, e, v);
    }
    QueueStep(b, q, q', a, e);
  }

  lemma QueueStep(b: Books, q: Spec, q': Spec, a: Tid, e: Event)
    requires b.appended == b.removed + q.queue && SpecStep(q, q', a, e)
    ensures Record(b, q, a, e).appended == Record(b, q, a, e).removed + q'.queue
  {
  }

  // ----- The books of a run

  /** b is what the calls and answers of the first i steps of the run amount to. */
  ghost predicate BooksOf(cfg: Config, run: seq<State>, i: nat, b: Books)
    requires i < |run|
  {
    if i == 0 then b == Empty()
    else exists b0, a, act {:trigger Booked(cfg, run, i, b0, a, act, b)} ::
           BooksOf(cfg, run, i - 1, b0) && Booked(cfg, run, i, b0, a, act, b)
  }

  ghost predicate Booked(cfg: Config, run: seq<State>, i: nat, b0: Books, a: Tid, act: Action, b: Books)
    requires 0 < i < |run|
  {
    && Step(cfg, run[i - 1], run[i], a, act)
    && b == Record(b0, Abs(run[i - 1]), a, Meaning(cfg, run[i - 1], a, act))
  }

  lemma {:induction false} EveryRunHasBooks(cfg: Config, run: seq<State>, i: nat) returns (b: Books)
    requires Run(cfg, run) && i < |run|
    ensures BooksOf(cfg, run, i, b)
  {
    hide Apply, Record, Abs, Meaning;
    if i == 0 {
      b := Empty();
    } else {
      var b0 := EveryRunHasBooks(cfg, run, i - 1);
      assert NextAt(cfg, run, i);
      var a, act :| Step(cfg, run[i - 1], run[i], a, act);
      b := Record(b0, Abs(run[i - 1]), a, Meaning(cfg, run[i - 1], a, act));
      assert Booked(cfg, run, i, b0, a, act, b);
    }
  }

  /** An append adds its value to the ledger, and nothing else does. */
  lemma LedgerAppends(cfg: Config, s: State, s': State, a: Tid, act: Action)
    requires Inv(cfg, s) && HeadRoom(s) && Step(cfg, s, s', a, act)
    requires SpecStep(Abs(s), Abs(s'), a, Meaning(cfg, s, a, act))
    ensures var e := Meaning(cfg, s, a, act);
            && s.h <= s.t && s'.h <= s'.t
            && Ledger(s') == if e.Append? then Ledger(s) + [Calls(s)[e.pusher].v] else Ledger(s)
  {
    hide Inv, Keeps, Meaning, Apply, ValueAt, Calls;
    StepInv(cfg, s, s', a, act);
    LedgerStep(cfg, s, s', a);
    TailCountsAppends(cfg, s, s', a, act);
    Bounds(cfg, s);
    KeepsGrows(cfg, s, s', a);
    Bounds(cfg, s');
    LedgerLength(s');
    if Meaning(cfg, s, a, act).Append? {
      assert Queue(s')[s.t - s.h] == ValueAt(s', s.t);
      assert Ledger(s') == Ledger(s')[..s.t] + [ValueAt(s', s.t)];
    }
  }

  /** Conservation of values, over every run of every configuration: what has been appended, in order, is the ledger;
      every push begun has had its value appended once, or lost, or is still pushing; the values removed are the
      first h of the ledger; and every value removed has been returned once, or is in the hands of its pop. */
  lemma {:induction false} ValuesAreConserved(cfg: Config, run: seq<State>, i: nat, b: Books)
    requires Run(cfg, run) && i < |run| && BooksOf(cfg, run, i, b)
    ensures Balanced(b, Abs(run[i]))
    ensures run[i].h <= run[i].t && b.appended == Ledger(run[i]) && b.removed == Ledger(run[i])[..run[i].h]
    ensures cfg.keepData ==> b.dropped == multiset{}
    decreases i
  {
    hide Run, Inv, Apply, Meaning, SpecStep, Balanced, Record, Ledger;
    if i == 0 {
      NoValuesYet(cfg, run, b);
    } else {
      var b0, a, act :| BooksOf(cfg, run, i - 1, b0) && Booked(cfg, run, i, b0, a, act, b);
      ValuesAreConserved(cfg, run, i - 1, b0);
      RunInv(cfg, run, i - 1);
      RoomAt(cfg, run, i);
      BooksStep(cfg, run[i - 1], run[i], a, act, b0);
    }
  }

  lemma RoomAt(cfg: Config, run: seq<State>, i: nat)
    requires Run(cfg, run) && 0 < i < |run|
    ensures HeadRoom(run[i - 1])
  {
    assert NextAt(cfg, run, i);
  }

  lemma NoValuesYet(cfg: Config, run: seq<State>, b: Books)
    requires Run(cfg, run) && b == Empty()
    ensures Balanced(b, Abs(run[0])) && run[0].h == run[0].t == 0 && Ledger(run[0]) == []
  {
    var tids: set<Tid> :| |tids| < COUNT_MOD - 1 && run[0] == Init(tids);
    var q := Abs(run[0]);
    forall v
      ensures PushesBalance(b, q, v) && PopsBalance(b, q, v)
    {
      assert Where(q.calls, Pushing(v)) == {} && Where(q.calls, Popped(Some(v))) == {};
    }
  }

  lemma BooksStep(cfg: Config, s: State, s': State, a: Tid, act: Action, b: Books)
    requires Inv(cfg, s) && HeadRoom(s) && Step(cfg, s, s', a, act)
    requires Balanced(b, Abs(s)) && b.appended == Ledger(s) && (cfg.keepData ==> b.dropped == multiset{})
    ensures var b' := Record(b, Abs(s), a, Meaning(cfg, s, a, act));
            && Balanced(b', Abs(s'))
            && s'.h <= s'.t && b'.appended == Ledger(s') && b'.removed == Ledger(s')[..s'.h]
            && (cfg.keepData ==> b'.dropped == multiset{})
  {
    hide Inv, Apply, Meaning, SpecStep, Balanced, Record, Ledger, Queue, Calls;
    var e := Meaning(cfg, s, a, act);
    StepRefines(cfg, s, s', a, act);
    RecordBalances(b, Abs(s), Abs(s'), a, e);
    LedgerAppends(cfg, s, s', a, act);
    RecordAppends(b, Abs(s), Abs(s'), a, e);
    var b' := Record(b, Abs(s), a, e);
    TakenOff(b', s');
  }

  lemma RecordAppends(b: Books, q: Spec, q': Spec, a: Tid, e: Event)
    requires SpecStep(q, q', a, e)
    ensures var b' := Record(b, q, a, e);
            && b'.appended == (if e.Append? then b.appended + [q.calls[e.pusher].v] else b.appended)
            && (b'.dropped == b.dropped || e.Drops?)
  {
  }

  lemma TakenOff(b: Books, s: State)
    requires Balanced(b, Abs(s)) && s.h <= s.t && b.appended == Ledger(s)
    ensures b.removed == Ledger(s)[..s.h]
  {
    hide PushesBalance, PopsBalance, ValueAt, Calls;
    assert |Queue(s)| == s.t - s.h && |Ledger(s)| == s.t;
  }

  // ----- What a pop may miss when line 184 loads `tail` first

  lemma {:induction false} ChainGrows(cfg: Config, run: seq<State>, i: nat, j: nat)
    requires Run(cfg, run) && i <= j < |run|
    ensures run[i].chain <= run[j].chain
    decreases j
  {
    hide Run, Inv, Apply, Keeps, Grows;
    if i < j {
      ChainGrows(cfg, run, i, j - 1);
      var a, act := NextRefines(cfg, run, j);
      StepInv(cfg, run[j - 1], run[j], a, act);
      KeepsGrows(cfg, run[j - 1], run[j], a);
      ChainKeeps(run[j - 1], run[j], a);
    }
  }

  lemma ChainKeeps(s: State, s': State, a: Tid)
    requires Grows(s, s', a)
    ensures s.chain <= s'.chain
  {
    hide NodesGrow;
  }

  /** The comparison of line 184 with `tail` loaded in the i-th state of a run and `head` in the j-th.  It says "empty"
      if and only if `head` stands where `tail` stood; and then every value in the queue was appended after the first
      load, so after the pop began. */
  lemma MissedValuesAreNew(cfg: Config, run: seq<State>, i: nat, j: nat)
    requires Run(cfg, run) && i <= j < |run|
    ensures run[j].head.ptr == run[i].tail.ptr <==> run[j].h == run[i].t
    ensures run[j].head.ptr == run[i].tail.ptr ==>
              run[i].t <= |Ledger(run[j])| && Queue(run[j]) == Ledger(run[j])[run[i].t..]
  {
    hide Run, Inv, Ledger, Queue;
    RunInv(cfg, run, i);
    RunInv(cfg, run, j);
    ChainGrows(cfg, run, i, j);
    InvChained(cfg, run[i]);
    InvChained(cfg, run[j]);
    EndsAt(run[i]);
    EndsAt(run[j]);
    PosAt(run[j], run[i].t);
    PosAt(run[j], run[j].h);
    hide Chained;
    LedgerGrows(cfg, run, i, j);
    LedgerLength(run[j]);
  }

  lemma EndsAt(s: State)
    requires Chained(s)
    ensures s.h <= s.t < |s.chain| && s.head.ptr == s.chain[s.h] && s.tail.ptr == s.chain[s.t]
  {
    hide Team;
  }

  lemma PosAt(s: State, i: nat)
    requires Chained(s) && i < |s.chain|
    ensures s.chain[i] < |s.nodes| && s.nodes[s.chain[i]].pos == Some(i)
  {
    hide Team;
  }
}
