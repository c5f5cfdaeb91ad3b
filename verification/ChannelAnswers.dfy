/**
What every call on a channel answers, over every sequence of operations.  A parked call leaves two variables behind,
the operation that wakes it writes them, and what it answers is read from them when it goes on.  What it should answer
is read from the books alone.
*/
module ChannelAnswers {
  import opened Options
  import opened Processers
  import opened Channel

  /** The calls, named by their number in the sequence of operations: those in the wait queues, the variables of those
      that have parked, and the answers of those that have not. */
  datatype Desk = Desk(senders: seq<nat>, receivers: seq<nat>, locals: map<nat, Local>, prompt: map<nat, Outcome>)

  function Touched(locals: map<nat, Local>, i: nat, w: Wake): map<nat, Local> {
    if i in locals then locals[i := Written(locals[i], w)] else locals
  }

  /** The first call of the wait queue is woken. */
  function WakeOne(d: Desk, w: Wake): Desk {
    if w.Sent? || w.SendFailed? then
      if d.senders == [] then d
      else d.(senders := d.senders[1..], locals := Touched(d.locals, d.senders[0], w))
    else
      if d.receivers == [] then d
      else d.(receivers := d.receivers[1..], locals := Touched(d.locals, d.receivers[0], w))
  }

  function WakeEach(d: Desk, ws: seq<Wake>): Desk
    decreases |ws|
  {
    if ws == [] then d else WakeEach(WakeOne(d, ws[0]), ws[1..])
  }

  /** Call n is made, with `v` in its variable. */
  function Enter(d: Desk, n: nat, op: Op, outcome: Outcome, v: Value): Desk {
    if !outcome.Parks? then d.(prompt := d.prompt[n := outcome])
    else if op.Send? then d.(senders := d.senders + [n], locals := d.locals[n := Local(false, v)])
    else d.(receivers := d.receivers + [n], locals := d.locals[n := Local(false, v)])
  }

  function DeskThen(d: Desk, c: Chan, n: nat, op: Op, v: Value): Desk {
    var e := Perform(c, op);
    Enter(WakeEach(d, e.wakes), n, op, e.outcome, v)
  }

  /** After the operations; `vars(i)` is what call i's variable held before. */
  function DeskAfter(capacity: nat, ops: seq<Op>, vars: nat -> Value): Desk {
    if ops == [] then Desk([], [], map[], map[])
    else
      var n := |ops| - 1;
      DeskThen(DeskAfter(capacity, ops[..n], vars), After(capacity, ops[..n]).chan, n, ops[n], vars(n))
  }

  /** What call i answers, if it is over: at once, or when it goes on after it has been woken. */
  function AnswerOf(throws: bool, ops: seq<Op>, d: Desk, i: nat): Option<Outcome>
    requires i < |ops|
  {
    if i in d.prompt then Some(d.prompt[i])
    else if i in d.senders || i in d.receivers || i !in d.locals then None
    else Some(Resumed(throws, ops[i].Send?, d.locals[i]))
  }

  // ----- What the calls should answer

  /** The sends that did not fail at once, in order: the k-th sent the k-th accepted value. */
  function SendCalls(capacity: nat, ops: seq<Op>): seq<nat> {
    if ops == [] then []
    else
      var n := |ops| - 1;
      var before := SendCalls(capacity, ops[..n]);
      if ops[n].Send? && !Perform(After(capacity, ops[..n]).chan, ops[n]).outcome.Throws? then before + [n] else before
  }

  function RecvCalls(capacity: nat, ops: seq<Op>): seq<nat> {
    if ops == [] then []
    else
      var n := |ops| - 1;
      var before := RecvCalls(capacity, ops[..n]);
      if ops[n].Recv? && !Perform(After(capacity, ops[..n]).chan, ops[n]).outcome.Throws? then before + [n] else before
  }

  /** How many of the accepted values have been delivered or buffered. */
  function Taken(p: Play): nat {
    |p.books.receipts| + |p.chan.buffer|
  }

  /** The k-th accepted send has succeeded if its value has been delivered or buffered, and failed if Close has
      cancelled it. */
  function SendShould(p: Play, k: nat): Option<Outcome> {
    if k < Taken(p) then Some(Done) else if k < Taken(p) + |p.chan.senders| then None else Some(Throws)
  }

  /** The k-th receiver gets the k-th accepted value, or fails if Close has cancelled it. */
  function RecvShould(p: Play, k: nat): Option<Outcome> {
    if k < |p.books.receipts| then if k < |p.books.accepted| then Some(Got(p.books.accepted[k])) else None
    else if k < |p.books.receipts| + |p.chan.receivers| then None
    else Some(Throws)
  }

  ghost predicate SendsIntended(throws: bool, ops: seq<Op>, p: Play, d: Desk, a: seq<nat>) {
    forall k {:trigger a[k]} | 0 <= k < |a| :: a[k] < |ops| && AnswerOf(throws, ops, d, a[k]) == SendShould(p, k)
  }

  ghost predicate RecvsIntended(throws: bool, ops: seq<Op>, p: Play, d: Desk, r: seq<nat>) {
    forall k {:trigger r[k]} | 0 <= k < |r| :: r[k] < |ops| && AnswerOf(throws, ops, d, r[k]) == RecvShould(p, k)
  }

  ghost predicate OthersIntended(throws: bool, ops: seq<Op>, d: Desk, a: seq<nat>, r: seq<nat>) {
    forall i: nat {:trigger ops[i]} | i < |ops| && !ops[i].Close? && i !in a && i !in r ::
      AnswerOf(throws, ops, d, i) == Some(Throws)
  }

  /** Every call answers as it should; one that found the channel closed fails. */
  ghost predicate AsIntended(throws: bool, capacity: nat, ops: seq<Op>, vars: nat -> Value) {
    var p, d := After(capacity, ops), DeskAfter(capacity, ops, vars);
    var a, r := SendCalls(capacity, ops), RecvCalls(capacity, ops);
    && SendsIntended(throws, ops, p, d, a)
    && RecvsIntended(throws, ops, p, d, r)
    && OthersIntended(throws, ops, d, a, r)
  }

  // ----- The invariant

  /** Calls of one kind, in the order in which they were made. */
  predicate InOrder(calls: seq<nat>, ops: seq<Op>, sends: bool) {
    && (forall k | 0 <= k < |calls| :: calls[k] < |ops| && (if sends then ops[calls[k]].Send? else ops[calls[k]].Recv?))
    && (forall j, k | 0 <= j < k < |calls| :: calls[j] < calls[k])
  }

  /** A call that parked, and whether it has been told of an error. */
  predicate Left(d: Desk, i: nat, isError: bool) {
    i !in d.prompt && i in d.locals && d.locals[i].isError == isError
  }

  predicate SendKnown(d: Desk, a: seq<nat>, k: nat, taken: nat, parked: nat)
    requires k < |a|
  {
    var i := a[k];
    if k < taken then (i in d.prompt && d.prompt[i] == Done) || Left(d, i, false)
    else if k < parked then Left(d, i, false) && k - taken < |d.senders| && d.senders[k - taken] == i
    else Left(d, i, true)
  }

  predicate RecvKnown(d: Desk, r: seq<nat>, k: nat, accepted: seq<Value>, served: nat, parked: nat)
    requires k < |r|
  {
    var i := r[k];
    if k < served then
      && k < |accepted|
      && ((i in d.prompt && d.prompt[i] == Got(accepted[k])) || (Left(d, i, false) && d.locals[i].data == accepted[k]))
    else if k < parked then Left(d, i, false) && k - served < |d.receivers| && d.receivers[k - served] == i
    else Left(d, i, true)
  }

  ghost predicate AllSends(d: Desk, a: seq<nat>, taken: nat, parked: nat) {
    forall k {:trigger SendKnown(d, a, k, taken, parked)} | 0 <= k < |a| :: SendKnown(d, a, k, taken, parked)
  }

  ghost predicate AllRecvs(d: Desk, r: seq<nat>, acc: seq<Value>, served: nat, parked: nat) {
    forall k {:trigger RecvKnown(d, r, k, acc, served, parked)} | 0 <= k < |r| ::
      RecvKnown(d, r, k, acc, served, parked)
  }

  ghost predicate SendsKnown(p: Play, d: Desk, a: seq<nat>) {
    && |a| == |p.books.accepted| && |d.senders| == |p.chan.senders|
    && AllSends(d, a, Taken(p), Taken(p) + |p.chan.senders|)
  }

  ghost predicate RecvsKnown(p: Play, d: Desk, r: seq<nat>) {
    && |r| == |p.books.arrivals| && |d.receivers| == |p.chan.receivers|
    && AllRecvs(d, r, p.books.accepted, |p.books.receipts|, |p.books.receipts| + |p.chan.receivers|)
  }

  ghost predicate Refused(d: Desk, a: seq<nat>, r: seq<nat>, ops: seq<Op>) {
    && (forall i | i in d.prompt || i in d.locals :: i < |ops|)
    && forall i: nat {:trigger ops[i]} | i < |ops| && !ops[i].Close? && i !in a && i !in r ::
         i in d.prompt && d.prompt[i] == Throws
  }

  ghost predicate DeskInv(p: Play, d: Desk, a: seq<nat>, r: seq<nat>, ops: seq<Op>) {
    && InOrder(a, ops, true) && InOrder(r, ops, false)
    && SendsKnown(p, d, a) && RecvsKnown(p, d, r) && Refused(d, a, r, ops)
  }

  lemma Lengths(p: Play)
    requires Balanced(p)
    ensures |p.books.accepted| == Taken(p) + |p.chan.senders| + |p.books.lostSends|
    ensures |p.books.arrivals| == |p.books.receipts| + |p.chan.receivers| + |p.books.lostRecvs|
    ensures Valid(p.chan) && (p.chan.closed || (p.books.lostSends == [] && p.books.lostRecvs == []))
    ensures p.books.lostRecvs != [] ==> p.chan.buffer == []
  {
  }

  // ----- Every operation keeps it

  function More(calls: seq<nat>, n: nat, joins: bool): seq<nat> {
    if joins then calls + [n] else calls
  }

  lemma OrderGrows(calls: seq<nat>, ops: seq<Op>, op: Op, sends: bool, joins: bool)
    requires InOrder(calls, ops, sends) && (joins ==> if sends then op.Send? else op.Recv?)
    ensures InOrder(More(calls, |ops|, joins), ops + [op], sends)
  {
  }

  lemma WakeNone(d: Desk, w: Wake)
    ensures WakeEach(d, []) == d && WakeEach(d, [w]) == WakeOne(d, w)
  {
    assert [w][1..] == [];
  }

  lemma RefusedGrows(d: Desk, d': Desk, a: seq<nat>, r: seq<nat>, a': seq<nat>, r': seq<nat>, ops: seq<Op>, op: Op)
    requires Refused(d, a, r, ops) && a <= a' && r <= r'
    requires d'.prompt == d.prompt || (|ops| in d'.prompt && d'.prompt == d.prompt[|ops| := d'.prompt[|ops|]])
    requires d'.locals.Keys <= d.locals.Keys + {|ops|}
    requires op.Close? || |ops| in a' || |ops| in r' || (|ops| in d'.prompt && d'.prompt[|ops|] == Throws)
    ensures Refused(d', a', r', ops + [op])
  {
    forall i: nat | i < |ops + [op]| && !(ops + [op])[i].Close? && i !in a' && i !in r'
      ensures i in d'.prompt && d'.prompt[i] == Throws
    {
      if i < |ops| { assert (ops + [op])[i] == ops[i]; }
    }
  }

  // What one more call means for those before it, if it wakes nobody.

  /** d' is d with one more call, n. */
  ghost predicate Entered(d: Desk, d': Desk, n: nat) {
    && (forall i | i != n :: (i in d'.prompt <==> i in d.prompt) && (i in d.prompt ==> d'.prompt[i] == d.prompt[i]))
    && (forall i | i != n :: (i in d'.locals <==> i in d.locals) && (i in d.locals ==> d'.locals[i] == d.locals[i]))
    && d.senders <= d'.senders && d.receivers <= d'.receivers
  }

  lemma EntersDesk(d: Desk, n: nat, op: Op, outcome: Outcome, v: Value)
    ensures Entered(d, Enter(d, n, op, outcome, v), n)
  {
  }

  lemma SendsStay(d: Desk, d': Desk, a: seq<nat>, n: nat, taken: nat, parked: nat)
    requires Entered(d, d', n) && AllSends(d, a, taken, parked) && forall k | 0 <= k < |a| :: a[k] < n
    ensures AllSends(d', a, taken, parked)
  {
    forall k {:trigger SendKnown(d', a, k, taken, parked)} | 0 <= k < |a|
      ensures SendKnown(d', a, k, taken, parked)
    {
      assert SendKnown(d, a, k, taken, parked);
    }
  }

  lemma RecvsStay(d: Desk, d': Desk, r: seq<nat>, n: nat, acc: seq<Value>, acc': seq<Value>, served: nat, parked: nat)
    requires Entered(d, d', n) && acc <= acc'
    requires AllRecvs(d, r, acc, served, parked) && forall k | 0 <= k < |r| :: r[k] < n
    ensures AllRecvs(d', r, acc', served, parked)
  {
    forall k {:trigger RecvKnown(d', r, k, acc', served, parked)} | 0 <= k < |r|
      ensures RecvKnown(d', r, k, acc', served, parked)
    {
      assert RecvKnown(d, r, k, acc, served, parked);
    }
  }

  lemma InRange(calls: seq<nat>, ops: seq<Op>, sends: bool)
    requires InOrder(calls, ops, sends)
    ensures forall k | 0 <= k < |calls| :: calls[k] < |ops|
    ensures forall j, k | 0 <= j < |calls| && 0 <= k < |calls| && j != k :: calls[j] != calls[k]
  {
  }

  /** One more accepted send, number n, which is done or has parked; those before it keep their rank. */
  lemma SendJoins(d: Desk, a: seq<nat>, n: nat, taken: nat, parked: nat, taken': nat, parked': nat)
    requires AllSends(d, a, taken, parked) && |a| == parked
    requires (taken' == taken && parked <= parked') || (parked == taken <= taken')
    requires SendKnown(d, a + [n], |a|, taken', parked')
    ensures AllSends(d, a + [n], taken', parked')
  {
    forall k {:trigger SendKnown(d, a + [n], k, taken', parked')} | 0 <= k < |a + [n]|
      ensures SendKnown(d, a + [n], k, taken', parked')
    {
      if k < |a| { assert SendKnown(d, a, k, taken, parked); }
    }
  }

  lemma RecvJoins(d: Desk, r: seq<nat>, n: nat, acc: seq<Value>, served: nat, parked: nat, served': nat, parked': nat)
    requires AllRecvs(d, r, acc, served, parked) && |r| == parked
    requires (served' == served && parked <= parked') || (parked == served <= served')
    requires RecvKnown(d, r + [n], |r|, acc, served', parked')
    ensures AllRecvs(d, r + [n], acc, served', parked')
  {
    forall k {:trigger RecvKnown(d, r + [n], k, acc, served', parked')} | 0 <= k < |r + [n]|
      ensures RecvKnown(d, r + [n], k, acc, served', parked')
    {
      if k < |r| { assert RecvKnown(d, r, k, acc, served, parked); }
    }
  }

  lemma NewDone(d: Desk, a: seq<nat>, n: nat, taken: nat, parked: nat)
    requires |a| < taken && n in d.prompt && d.prompt[n] == Done
    ensures SendKnown(d, a + [n], |a|, taken, parked)
  {
  }

  lemma NewGot(d: Desk, r: seq<nat>, n: nat, acc: seq<Value>, served: nat, parked: nat)
    requires |r| < served && |r| < |acc| && n in d.prompt && d.prompt[n] == Got(acc[|r|])
    ensures RecvKnown(d, r + [n], |r|, acc, served, parked)
  {
  }

  // ----- A send that wakes nobody

  lemma SendBooks(p: Play, t: Task, x: Value)
    requires p.chan.closed || p.chan.receivers == []
    ensures var c, p' := p.chan, Then(p, Send(t, x));
            && p'.books.receipts == p.books.receipts && p'.books.arrivals == p.books.arrivals
            && p'.chan.receivers == c.receivers
            && p'.books.accepted == (if c.closed then p.books.accepted else p.books.accepted + [x])
            && |p'.chan.buffer| == |c.buffer| + (if !c.closed && |c.buffer| < c.capacity then 1 else 0)
            && |p'.chan.senders| == |c.senders| + (if !c.closed && |c.buffer| >= c.capacity then 1 else 0)
  {
  }

  /** The desk after it. */
  lemma SendDesk(d: Desk, c: Chan, n: nat, t: Task, x: Value, v: Value)
    requires c.closed || c.receivers == []
    ensures var op, e, d' := Send(t, x), Perform(c, Send(t, x)), DeskThen(d, c, n, Send(t, x), v);
            && Entered(d, d', n) && d'.receivers == d.receivers
            && (e.outcome.Parks? <==> !c.closed && |c.buffer| >= c.capacity)
            && (e.outcome.Parks? ==>
                  d'.prompt == d.prompt && d'.senders == d.senders + [n] && d'.locals == d.locals[n := Local(false, v)])
            && (!e.outcome.Parks? ==>
                  && d'.senders == d.senders && d'.locals == d.locals
                  && d'.prompt == d.prompt[n := if c.closed then Throws else Done])
  {
    WakeNone(d, Sent(t));
  }

  lemma SendQuietSends(p: Play, d: Desk, a: seq<nat>, ops: seq<Op>, t: Task, x: Value, v: Value)
    requires SendsKnown(p, d, a) && InOrder(a, ops, true) && Balanced(p) && (p.chan.closed || p.chan.receivers == [])
    requires |ops| !in d.prompt
    ensures var op, n := Send(t, x), |ops|;
            SendsKnown(Then(p, op), DeskThen(d, p.chan, n, op, v), if p.chan.closed then a else a + [n])
  {
    var op, n, c := Send(t, x), |ops|, p.chan;
    var d', p' := DeskThen(d, c, n, op, v), Then(p, op);
    var taken, parked := Taken(p), Taken(p) + |c.senders|;
    Lengths(p);
    SendBooks(p, t, x);
    SendDesk(d, c, n, t, x, v);
    InRange(a, ops, true);
    hide Balanced, InOrder, DeskThen, Then, Perform;
    SendsStay(d, d', a, n, taken, parked);
    hide Entered, AllSends;
    if !c.closed {
      if |c.buffer| < c.capacity { NewDone(d', a, n, Taken(p'), Taken(p') + |p'.chan.senders|); }
      assert SendKnown(d', a + [n], |a|, Taken(p'), Taken(p') + |p'.chan.senders|);
      SendJoins(d', a, n, taken, parked, Taken(p'), Taken(p') + |p'.chan.senders|);
    }
  }

  lemma SendQuietRecvs(p: Play, d: Desk, r: seq<nat>, ops: seq<Op>, t: Task, x: Value, v: Value)
    requires RecvsKnown(p, d, r) && InOrder(r, ops, false) && (p.chan.closed || p.chan.receivers == [])
    ensures var op, n := Send(t, x), |ops|; RecvsKnown(Then(p, op), DeskThen(d, p.chan, n, op, v), r)
  {
    var op, n, c := Send(t, x), |ops|, p.chan;
    var d', p' := DeskThen(d, c, n, op, v), Then(p, op);
    SendBooks(p, t, x);
    SendDesk(d, c, n, t, x, v);
    InRange(r, ops, false);
    hide InOrder, DeskThen, Then, Perform;
    RecvsStay(d, d', r, n, p.books.accepted, p'.books.accepted, |p.books.receipts|, |p.books.receipts| + |c.receivers|);
  }

  lemma SendQuiet(p: Play, d: Desk, a: seq<nat>, r: seq<nat>, ops: seq<Op>, t: Task, x: Value, v: Value)
    requires DeskInv(p, d, a, r, ops) && Balanced(p) && (p.chan.closed || p.chan.receivers == [])
    ensures var op, n := Send(t, x), |ops|;
            DeskInv(Then(p, op), DeskThen(d, p.chan, n, op, v), if p.chan.closed then a else a + [n], r, ops + [op])
  {
    var op, n, c := Send(t, x), |ops|, p.chan;
    assert n !in d.prompt;
    hide InOrder, DeskThen, Then, Perform, Balanced, SendsKnown, RecvsKnown, Refused;
    SendDesk(d, c, n, t, x, v);
    OrderGrows(a, ops, op, true, !c.closed);
    OrderGrows(r, ops, op, false, false);
    RefusedGrows(d, DeskThen(d, c, n, op, v), a, r, if c.closed then a else a + [n], r, ops, op);
    SendQuietSends(p, d, a, ops, t, x, v);
    SendQuietRecvs(p, d, r, ops, t, x, v);
  }

  // ----- A send that hands its value to a parked receiver

  /** The receiver that is woken gets the value that belongs to its rank. */
  lemma GiveRecvs(d: Desk, r: seq<nat>, ops: seq<Op>, acc: seq<Value>, x: Value, parked: nat, t: Task)
    requires InOrder(r, ops, false) && |acc| < parked <= |r| && |d.receivers| == parked - |acc|
    requires AllRecvs(d, r, acc, |acc|, parked)
    ensures AllRecvs(WakeOne(d, Received(t, x)), r, acc + [x], |acc| + 1, parked)
  {
    InRange(r, ops, false);
    var d', g := WakeOne(d, Received(t, x)), |acc|;
    assert RecvKnown(d, r, g, acc, g, parked);
    forall k {:trigger RecvKnown(d', r, k, acc + [x], g + 1, parked)} | 0 <= k < |r|
      ensures RecvKnown(d', r, k, acc + [x], g + 1, parked)
    {
      assert RecvKnown(d, r, k, acc, g, parked);
      assert k != g ==> r[k] != r[g];
    }
  }

  /** Waking a receiver leaves the senders' variables alone. */
  lemma SendsApart(d: Desk, a: seq<nat>, r: seq<nat>, ops: seq<Op>, taken: nat, parked: nat, w: Wake)
    requires InOrder(a, ops, true) && InOrder(r, ops, false) && w.Received?
    requires d.receivers != [] ==> d.receivers[0] in r
    requires AllSends(d, a, taken, parked)
    ensures AllSends(WakeOne(d, w), a, taken, parked)
  {
    var d' := WakeOne(d, w);
    forall k {:trigger SendKnown(d', a, k, taken, parked)} | 0 <= k < |a|
      ensures SendKnown(d', a, k, taken, parked)
    {
      assert SendKnown(d, a, k, taken, parked);
      assert ops[a[k]].Send?;
    }
  }

  lemma HandOffBooks(p: Play, t: Task, x: Value)
    requires !p.chan.closed && p.chan.receivers != []
    ensures var c, p' := p.chan, Then(p, Send(t, x));
            && |p'.books.receipts| == |p.books.receipts| + 1 && p'.books.arrivals == p.books.arrivals
            && p'.chan == c.(receivers := c.receivers[1..])
            && p'.books.accepted == p.books.accepted + [x]
  {
    OneWake(Call(p.books, Send(t, x), Done), Received(p.chan.receivers[0], x));
  }

  lemma HandOffDesk(d: Desk, c: Chan, n: nat, t: Task, x: Value, v: Value)
    requires !c.closed && c.receivers != []
    ensures var d1, d' := WakeOne(d, Received(c.receivers[0], x)), DeskThen(d, c, n, Send(t, x), v);
            && Entered(d1, d', n) && d'.senders == d.senders && d'.receivers == d1.receivers && d'.locals == d1.locals
            && d'.prompt == d.prompt[n := Done] && d1.locals.Keys == d.locals.Keys
            && (d.receivers != [] ==> |d1.receivers| == |d.receivers| - 1)
  {
    WakeNone(d, Received(c.receivers[0], x));
  }

  lemma HandOffSends(p: Play, d: Desk, a: seq<nat>, r: seq<nat>, ops: seq<Op>, t: Task, x: Value, v: Value)
    requires DeskInv(p, d, a, r, ops) && Balanced(p) && !p.chan.closed && p.chan.receivers != []
    requires d.receivers != [] && d.receivers[0] in r
    ensures var op, n := Send(t, x), |ops|; SendsKnown(Then(p, op), DeskThen(d, p.chan, n, op, v), a + [n])
  {
    var op, n, c, w := Send(t, x), |ops|, p.chan, Received(p.chan.receivers[0], x);
    var d1, d', p' := WakeOne(d, w), DeskThen(d, c, n, op, v), Then(p, op);
    Lengths(p);
    HandOffBooks(p, t, x);
    HandOffDesk(d, c, n, t, x, v);
    InRange(a, ops, true);
    hide Balanced, DeskThen, Then, WakeOne, Refused, RecvsKnown, InOrder;
    SendsApart(d, a, r, ops, Taken(p), Taken(p), w);
    SendsStay(d1, d', a, n, Taken(p), Taken(p));
    hide Entered, AllSends;
    NewDone(d', a, n, Taken(p'), Taken(p'));
    SendJoins(d', a, n, Taken(p), Taken(p), Taken(p'), Taken(p'));
  }

  lemma HandOffRecvs(p: Play, d: Desk, r: seq<nat>, ops: seq<Op>, t: Task, x: Value, v: Value)
    requires RecvsKnown(p, d, r) && InOrder(r, ops, false) && Balanced(p) && !p.chan.closed && p.chan.receivers != []
    ensures var op, n := Send(t, x), |ops|; RecvsKnown(Then(p, op), DeskThen(d, p.chan, n, op, v), r)
    ensures d.receivers != [] && d.receivers[0] in r
  {
    var op, n, c, w := Send(t, x), |ops|, p.chan, Received(p.chan.receivers[0], x);
    var d1, d', p', g := WakeOne(d, w), DeskThen(d, c, n, op, v), Then(p, op), |p.books.receipts|;
    Lengths(p);
    HandOffBooks(p, t, x);
    HandOffDesk(d, c, n, t, x, v);
    InRange(r, ops, false);
    hide Balanced, InOrder, DeskThen, Then, WakeOne;
    assert d.receivers[0] in r by {
      assert RecvKnown(d, r, g, p.books.accepted, g, g + |c.receivers|);
      assert r[g] == d.receivers[0];
    }
    GiveRecvs(d, r, ops, p.books.accepted, x, g + |c.receivers|, w.task);
    hide AllRecvs;
    RecvsStay(d1, d', r, n, p'.books.accepted, p'.books.accepted, g + 1, g + |c.receivers|);
  }

  lemma HandOff(p: Play, d: Desk, a: seq<nat>, r: seq<nat>, ops: seq<Op>, t: Task, x: Value, v: Value)
    requires DeskInv(p, d, a, r, ops) && Balanced(p) && !p.chan.closed && p.chan.receivers != []
    ensures var op, n := Send(t, x), |ops|;
            DeskInv(Then(p, op), DeskThen(d, p.chan, n, op, v), a + [n], r, ops + [op])
  {
    var op, n, c := Send(t, x), |ops|, p.chan;
    hide InOrder, DeskThen, Then, Perform, Balanced, SendsKnown, RecvsKnown, Refused, WakeOne;
    HandOffDesk(d, c, n, t, x, v);
    OrderGrows(a, ops, op, true, true);
    OrderGrows(r, ops, op, false, false);
    RefusedGrows(d, DeskThen(d, c, n, op, v), a, r, a + [n], r, ops, op);
    HandOffRecvs(p, d, r, ops, t, x, v);
    HandOffSends(p, d, a, r, ops, t, x, v);
  }

  // ----- A receive that wakes nobody

  lemma RecvBooks(p: Play, t: Task)
    requires p.chan.senders == []
    ensures var c, p' := p.chan, Then(p, Recv(t));
            && p'.books.accepted == p.books.accepted && p'.chan.senders == c.senders && Taken(p') == Taken(p)
            && |p'.books.arrivals| == |p.books.arrivals| + (if c.closed && c.buffer == [] then 0 else 1)
            && |p'.books.receipts| == |p.books.receipts| + (if c.buffer == [] then 0 else 1)
            && |p'.chan.receivers| == |c.receivers| + (if !c.closed && c.buffer == [] then 1 else 0)
  {
  }

  /** The value at the head of what has been accepted and not delivered. */
  lemma HeadValue(p: Play)
    requires Balanced(p) && (p.chan.buffer != [] || p.chan.senders != [])
    ensures |p.books.receipts| < |p.books.accepted|
    ensures p.books.accepted[|p.books.receipts|] ==
            if p.chan.buffer != [] then p.chan.buffer[0] else p.chan.senders[0].value
  {
    assert |Delivered(p.books.receipts)| == |p.books.receipts|;
  }

  lemma RecvDesk(d: Desk, c: Chan, n: nat, t: Task, v: Value)
    requires c.senders == []
    ensures var d' := DeskThen(d, c, n, Recv(t), v);
            && Entered(d, d', n) && d'.senders == d.senders
            && (!c.closed && c.buffer == [] ==>
                  && d'.prompt == d.prompt && d'.receivers == d.receivers + [n]
                  && d'.locals == d.locals[n := Local(false, v)])
            && (c.closed || c.buffer != [] ==>
                  && d'.receivers == d.receivers && d'.locals == d.locals
                  && d'.prompt == d.prompt[n := if c.buffer == [] then Throws else Got(c.buffer[0])])
  {
    WakeNone(d, Sent(t));
  }

  lemma RecvQuietRecvs(p: Play, d: Desk, r: seq<nat>, ops: seq<Op>, t: Task, v: Value)
    requires RecvsKnown(p, d, r) && InOrder(r, ops, false) && Balanced(p) && p.chan.senders == []
    requires |ops| !in d.prompt
    ensures var op, n, c := Recv(t), |ops|, p.chan;
            RecvsKnown(Then(p, op), DeskThen(d, c, n, op, v), if c.closed && c.buffer == [] then r else r + [n])
  {
    var op, n, c, g := Recv(t), |ops|, p.chan, |p.books.receipts|;
    var d', p', acc := DeskThen(d, c, n, op, v), Then(p, op), p.books.accepted;
    Lengths(p);
    RecvBooks(p, t);
    RecvDesk(d, c, n, t, v);
    InRange(r, ops, false);
    if c.buffer != [] { HeadValue(p); }
    hide Balanced, InOrder, DeskThen, Then, Perform;
    RecvsStay(d, d', r, n, acc, acc, g, g + |c.receivers|);
    hide Entered, AllRecvs;
    if c.buffer != [] {
      NewGot(d', r, n, acc, g + 1, g + 1);
      RecvJoins(d', r, n, acc, g, g, g + 1, g + 1);
    } else if !c.closed {
      assert RecvKnown(d', r + [n], |r|, acc, g, g + |c.receivers| + 1);
      RecvJoins(d', r, n, acc, g, g + |c.receivers|, g, g + |c.receivers| + 1);
    }
  }

  lemma RecvQuietSends(p: Play, d: Desk, a: seq<nat>, ops: seq<Op>, t: Task, v: Value)
    requires SendsKnown(p, d, a) && InOrder(a, ops, true) && p.chan.senders == []
    ensures SendsKnown(Then(p, Recv(t)), DeskThen(d, p.chan, |ops|, Recv(t), v), a)
  {
    RecvBooks(p, t);
    RecvDesk(d, p.chan, |ops|, t, v);
    InRange(a, ops, true);
    hide InOrder, DeskThen, Then, Perform, AllSends;
    SendsStay(d, DeskThen(d, p.chan, |ops|, Recv(t), v), a, |ops|, Taken(p), Taken(p));
  }

  lemma RecvQuiet(p: Play, d: Desk, a: seq<nat>, r: seq<nat>, ops: seq<Op>, t: Task, v: Value)
    requires DeskInv(p, d, a, r, ops) && Balanced(p) && p.chan.senders == []
    ensures var op, n, c := Recv(t), |ops|, p.chan;
            DeskInv(Then(p, op), DeskThen(d, c, n, op, v), a, if c.closed && c.buffer == [] then r else r + [n],
                    ops + [op])
  {
    var op, n, c := Recv(t), |ops|, p.chan;
    var r' := if c.closed && c.buffer == [] then r else r + [n];
    assert n !in d.prompt;
    hide InOrder, DeskThen, Then, Perform, Balanced, RecvsKnown, SendsKnown, Refused;
    RecvDesk(d, c, n, t, v);
    OrderGrows(a, ops, op, true, false);
    OrderGrows(r, ops, op, false, !(c.closed && c.buffer == []));
    RefusedGrows(d, DeskThen(d, c, n, op, v), a, r, a, r', ops, op);
    RecvQuietRecvs(p, d, r, ops, t, v);
    RecvQuietSends(p, d, a, ops, t, v);
  }

  // ----- A receive that takes over the value of a parked sender

  lemma TakeBooks(p: Play, t: Task)
    requires p.chan.senders != [] && Valid(p.chan)
    ensures var c, p' := p.chan, Then(p, Recv(t));
            && p'.books.accepted == p.books.accepted && |p'.chan.senders| == |c.senders| - 1
            && Taken(p') == Taken(p) + 1 && |p'.books.arrivals| == |p.books.arrivals| + 1
            && |p'.books.receipts| == |p.books.receipts| + 1 && p'.chan.receivers == c.receivers == []
  {
    OneWake(Call(p.books, Recv(t), Perform(p.chan, Recv(t)).outcome), Sent(p.chan.senders[0].task));
  }

  lemma TakeDesk(d: Desk, c: Chan, n: nat, t: Task, v: Value)
    requires c.senders != [] && Valid(c)
    ensures var d1, d' := WakeOne(d, Sent(c.senders[0].task)), DeskThen(d, c, n, Recv(t), v);
            && Entered(d1, d', n) && d'.receivers == d.receivers && d'.senders == d1.senders && d'.locals == d1.locals
            && d'.prompt == d.prompt[n := Got(if c.buffer != [] then c.buffer[0] else c.senders[0].value)]
            && d1.locals.Keys == d.locals.Keys
            && (d.senders != [] ==> |d1.senders| == |d.senders| - 1)
  {
    WakeNone(d, Sent(c.senders[0].task));
  }

  lemma TakeSends(d: Desk, a: seq<nat>, taken: nat, parked: nat, t: Task)
    requires taken < parked && |d.senders| == parked - taken && AllSends(d, a, taken, parked)
    ensures AllSends(WakeOne(d, Sent(t)), a, taken + 1, parked)
  {
    var d' := WakeOne(d, Sent(t));
    forall k {:trigger SendKnown(d', a, k, taken + 1, parked)} | 0 <= k < |a|
      ensures SendKnown(d', a, k, taken + 1, parked)
    {
      assert SendKnown(d, a, k, taken, parked);
    }
  }

  lemma RecvsApart(d: Desk, r: seq<nat>, acc: seq<Value>, served: nat, parked: nat, t: Task)
    requires AllRecvs(d, r, acc, served, parked)
    ensures AllRecvs(WakeOne(d, Sent(t)), r, acc, served, parked)
  {
    var d' := WakeOne(d, Sent(t));
    forall k {:trigger RecvKnown(d', r, k, acc, served, parked)} | 0 <= k < |r|
      ensures RecvKnown(d', r, k, acc, served, parked)
    {
      assert RecvKnown(d, r, k, acc, served, parked);
    }
  }

  lemma TakeKnowsSends(p: Play, d: Desk, a: seq<nat>, ops: seq<Op>, t: Task, v: Value)
    requires SendsKnown(p, d, a) && InOrder(a, ops, true) && Valid(p.chan) && p.chan.senders != []
    ensures SendsKnown(Then(p, Recv(t)), DeskThen(d, p.chan, |ops|, Recv(t), v), a)
  {
    var n, c, w := |ops|, p.chan, Sent(p.chan.senders[0].task);
    TakeBooks(p, t);
    TakeDesk(d, c, n, t, v);
    InRange(a, ops, true);
    hide InOrder, DeskThen, Then, Perform, WakeOne, Valid;
    TakeSends(d, a, Taken(p), Taken(p) + |c.senders|, w.task);
    SendsStay(WakeOne(d, w), DeskThen(d, c, n, Recv(t), v), a, n, Taken(p) + 1, Taken(p) + |c.senders|);
  }

  lemma TakeKnowsRecvs(p: Play, d: Desk, r: seq<nat>, ops: seq<Op>, t: Task, v: Value)
    requires RecvsKnown(p, d, r) && InOrder(r, ops, false) && Balanced(p) && p.chan.senders != []
    ensures RecvsKnown(Then(p, Recv(t)), DeskThen(d, p.chan, |ops|, Recv(t), v), r + [|ops|])
  {
    var n, c, g, w, acc := |ops|, p.chan, |p.books.receipts|, Sent(p.chan.senders[0].task), p.books.accepted;
    var d1, d' := WakeOne(d, w), DeskThen(d, c, n, Recv(t), v);
    Lengths(p);
    HeadValue(p);
    TakeBooks(p, t);
    TakeDesk(d, c, n, t, v);
    InRange(r, ops, false);
    hide InOrder, DeskThen, Then, Perform, WakeOne, Valid, Balanced;
    RecvsApart(d, r, acc, g, g, w.task);
    RecvsStay(d1, d', r, n, acc, acc, g, g);
    hide Entered, AllRecvs;
    NewGot(d', r, n, acc, g + 1, g + 1);
    RecvJoins(d', r, n, acc, g, g, g + 1, g + 1);
  }

  lemma Takes(p: Play, d: Desk, a: seq<nat>, r: seq<nat>, ops: seq<Op>, t: Task, v: Value)
    requires DeskInv(p, d, a, r, ops) && Balanced(p) && p.chan.senders != []
    ensures DeskInv(Then(p, Recv(t)), DeskThen(d, p.chan, |ops|, Recv(t), v), a, r + [|ops|], ops + [Recv(t)])
  {
    var n, c := |ops|, p.chan;
    Lengths(p);
    hide InOrder, DeskThen, Then, Perform, WakeOne, Balanced, Refused, SendsKnown, RecvsKnown;
    TakeDesk(d, c, n, t, v);
    OrderGrows(a, ops, Recv(t), true, false);
    OrderGrows(r, ops, Recv(t), false, true);
    RefusedGrows(d, DeskThen(d, c, n, Recv(t), v), a, r, a, r + [n], ops, Recv(t));
    TakeKnowsSends(p, d, a, ops, t, v);
    TakeKnowsRecvs(p, d, r, ops, t, v);
  }

  // ----- Close

  /** d' is d with the calls in `failed` told of an error. */
  ghost predicate Told(d: Desk, d': Desk, failed: seq<nat>) {
    && d'.prompt == d.prompt && d'.locals.Keys == d.locals.Keys
    && forall i | i in d.locals ::
         d'.locals[i] == if i in failed then d.locals[i].(isError := true) else d.locals[i]
  }

  lemma {:induction false} WakesJoin(d: Desk, xs: seq<Wake>, ys: seq<Wake>)
    ensures WakeEach(d, xs + ys) == WakeEach(WakeEach(d, xs), ys)
    decreases |xs|
  {
    if xs == [] {
      assert xs + ys == ys;
    } else {
      WakesJoin(WakeOne(d, xs[0]), xs[1..], ys);
      assert (xs + ys)[1..] == xs[1..] + ys;
    }
  }

  lemma {:induction false} SendsFail(d: Desk, senders: seq<Sender>)
    requires |d.senders| == |senders|
    ensures var d' := WakeEach(d, FailSenders(senders));
            d'.senders == [] && d'.receivers == d.receivers && Told(d, d', d.senders)
    decreases |senders|
  {
    if senders != [] {
      assert FailSenders(senders)[1..] == FailSenders(senders[1..]);
      SendsFail(WakeOne(d, FailSenders(senders)[0]), senders[1..]);
    }
  }

  lemma {:induction false} RecvsFail(d: Desk, receivers: seq<Task>)
    requires |d.receivers| == |receivers|
    ensures var d' := WakeEach(d, FailReceivers(receivers));
            d'.receivers == [] && d'.senders == d.senders && Told(d, d', d.receivers)
    decreases |receivers|
  {
    if receivers != [] {
      assert FailReceivers(receivers)[1..] == FailReceivers(receivers[1..]);
      RecvsFail(WakeOne(d, FailReceivers(receivers)[0]), receivers[1..]);
    }
  }

  lemma CloseDesk(d: Desk, c: Chan, n: nat, v: Value) returns (d2: Desk)
    requires |d.senders| == |c.senders| && |d.receivers| == |c.receivers| && Valid(c)
    ensures Told(d, d2, d.senders + d.receivers) && d2.senders == [] && d2.receivers == []
    ensures DeskThen(d, c, n, Close, v) == d2.(prompt := d2.prompt[n := Done])
  {
    if c.closed {
      WakeNone(d, Sent(0));
      return d;
    }
    var d1 := WakeEach(d, FailSenders(c.senders));
    d2 := WakeEach(d1, FailReceivers(c.receivers));
    SendsFail(d, c.senders);
    RecvsFail(d1, c.receivers);
    WakesJoin(d, FailSenders(c.senders), FailReceivers(c.receivers));
  }

  /** The wait queues hold the calls of the ranks in between. */
  lemma SendersAre(d: Desk, a: seq<nat>, taken: nat, parked: nat, m: nat)
    requires AllSends(d, a, taken, parked) && m < |d.senders| == parked - taken && parked <= |a|
    ensures d.senders[m] == a[taken + m]
  {
    assert SendKnown(d, a, taken + m, taken, parked);
  }

  lemma ReceiversAre(d: Desk, r: seq<nat>, acc: seq<Value>, served: nat, parked: nat, m: nat)
    requires AllRecvs(d, r, acc, served, parked) && m < |d.receivers| == parked - served && parked <= |r|
    ensures d.receivers[m] == r[served + m]
  {
    assert RecvKnown(d, r, served + m, acc, served, parked);
  }

  /** Which calls wait, by rank. */
  lemma WhoWaits(p: Play, d: Desk, a: seq<nat>, r: seq<nat>, ops: seq<Op>)
    requires DeskInv(p, d, a, r, ops) && Balanced(p)
    ensures forall k | 0 <= k < |a| :: a[k] in d.senders + d.receivers <==> Taken(p) <= k < Taken(p) + |p.chan.senders|
    ensures var g := |p.books.receipts|;
            forall k | 0 <= k < |r| :: r[k] in d.senders + d.receivers <==> g <= k < g + |p.chan.receivers|
  {
    var taken, parked, g := Taken(p), Taken(p) + |p.chan.senders|, |p.books.receipts|;
    Lengths(p);
    hide Balanced, SendKnown, RecvKnown, Refused;
    forall m | 0 <= m < |d.senders|
      ensures d.senders[m] == a[taken + m]
    {
      SendersAre(d, a, taken, parked, m);
    }
    forall m | 0 <= m < |d.receivers|
      ensures d.receivers[m] == r[g + m]
    {
      ReceiversAre(d, r, p.books.accepted, g, g + |p.chan.receivers|, m);
    }
    hide AllSends, AllRecvs;
    forall k | 0 <= k < |a|
      ensures a[k] in d.senders + d.receivers <==> taken <= k < parked
    {
      if taken <= k < parked { assert d.senders[k - taken] == a[k]; }
    }
    forall k | 0 <= k < |r|
      ensures r[k] in d.senders + d.receivers <==> g <= k < g + |p.chan.receivers|
    {
      if g <= k < g + |p.chan.receivers| { assert d.receivers[k - g] == r[k]; }
    }
  }

  lemma CloseSends(d: Desk, d2: Desk, d': Desk, n: nat, failed: seq<nat>, a: seq<nat>, taken: nat, parked: nat)
    requires AllSends(d, a, taken, parked) && Told(d, d2, failed) && d' == d2.(prompt := d2.prompt[n := Done])
    requires forall k | 0 <= k < |a| :: a[k] < n && (a[k] in failed <==> taken <= k < parked)
    ensures AllSends(d', a, taken, taken)
  {
    forall k {:trigger SendKnown(d', a, k, taken, taken)} | 0 <= k < |a|
      ensures SendKnown(d', a, k, taken, taken)
    {
      assert SendKnown(d, a, k, taken, parked);
    }
  }

  lemma CloseRecvs(d: Desk, d2: Desk, d': Desk, n: nat, failed: seq<nat>, r: seq<nat>, acc: seq<Value>, served: nat,
                   parked: nat)
    requires AllRecvs(d, r, acc, served, parked) && Told(d, d2, failed) && d' == d2.(prompt := d2.prompt[n := Done])
    requires forall k | 0 <= k < |r| :: r[k] < n && (r[k] in failed <==> served <= k < parked)
    ensures AllRecvs(d', r, acc, served, served)
  {
    forall k {:trigger RecvKnown(d', r, k, acc, served, served)} | 0 <= k < |r|
      ensures RecvKnown(d', r, k, acc, served, served)
    {
      assert RecvKnown(d, r, k, acc, served, parked);
    }
  }

  lemma CloseBooks(p: Play)
    requires Balanced(p)
    ensures var p' := Then(p, Close);
            && p'.books.accepted == p.books.accepted && p'.books.arrivals == p.books.arrivals
            && p'.books.receipts == p.books.receipts && p'.chan.buffer == p.chan.buffer
            && p'.chan.senders == [] && p'.chan.receivers == []
  {
    var c, b := p.chan, p.books;
    if !c.closed {
      WakesAppend(b, FailSenders(c.senders), FailReceivers(c.receivers));
      Channel.SendersFail(b, c.senders);
      Channel.ReceiversFail(AllWakes(b, FailSenders(c.senders)), c.receivers);
    }
  }

  lemma ClosesKnown(p: Play, d: Desk, d2: Desk, d': Desk, a: seq<nat>, r: seq<nat>, ops: seq<Op>)
    requires DeskInv(p, d, a, r, ops) && Balanced(p)
    requires Told(d, d2, d.senders + d.receivers) && d2.senders == [] && d2.receivers == []
    requires d' == d2.(prompt := d2.prompt[|ops| := Done])
    ensures SendsKnown(Then(p, Close), d', a) && RecvsKnown(Then(p, Close), d', r)
  {
    var n, c, g := |ops|, p.chan, |p.books.receipts|;
    CloseBooks(p);
    WhoWaits(p, d, a, r, ops);
    InRange(a, ops, true);
    InRange(r, ops, false);
    hide Then, Balanced, InOrder, Refused, AllSends, AllRecvs, Told;
    CloseSends(d, d2, d', n, d.senders + d.receivers, a, Taken(p), Taken(p) + |c.senders|);
    CloseRecvs(d, d2, d', n, d.senders + d.receivers, r, p.books.accepted, g, g + |c.receivers|);
  }

  lemma Closes(p: Play, d: Desk, a: seq<nat>, r: seq<nat>, ops: seq<Op>, v: Value)
    requires DeskInv(p, d, a, r, ops) && Balanced(p)
    ensures DeskInv(Then(p, Close), DeskThen(d, p.chan, |ops|, Close, v), a, r, ops + [Close])
  {
    var n := |ops|;
    Lengths(p);
    assert |d.senders| == |p.chan.senders| && |d.receivers| == |p.chan.receivers|;
    var d2 := CloseDesk(d, p.chan, n, v);
    var d' := d2.(prompt := d2.prompt[n := Done]);
    assert d'.prompt == d.prompt[n := Done] && d'.locals.Keys == d.locals.Keys;
    ClosesKnown(p, d, d2, d', a, r, ops);
    hide DeskThen, Then, Balanced, InOrder, Refused, SendsKnown, RecvsKnown, Valid, Told;
    OrderGrows(a, ops, Close, true, false);
    OrderGrows(r, ops, Close, false, false);
    RefusedGrows(d, d', a, r, a, r, ops, Close);
  }

  // ----- Every sequence of operations

  function JoinSends(c: Chan, a: seq<nat>, n: nat, op: Op): seq<nat> {
    if op.Send? && !Perform(c, op).outcome.Throws? then a + [n] else a
  }

  function JoinRecvs(c: Chan, r: seq<nat>, n: nat, op: Op): seq<nat> {
    if op.Recv? && !Perform(c, op).outcome.Throws? then r + [n] else r
  }

  lemma DeskStep(p: Play, d: Desk, a: seq<nat>, r: seq<nat>, ops: seq<Op>, op: Op, v: Value)
    requires DeskInv(p, d, a, r, ops) && Balanced(p)
    ensures var n := |ops|;
            DeskInv(Then(p, op), DeskThen(d, p.chan, n, op, v), JoinSends(p.chan, a, n, op),
                    JoinRecvs(p.chan, r, n, op), ops + [op])
  {
    Lengths(p);
    hide DeskInv, Balanced, DeskThen, Then;
    match op
    case Send(t, x) =>
      if p.chan.closed || p.chan.receivers == [] {
        SendQuiet(p, d, a, r, ops, t, x, v);
      } else {
        HandOff(p, d, a, r, ops, t, x, v);
      }
    case Recv(t) =>
      if p.chan.senders == [] {
        RecvQuiet(p, d, a, r, ops, t, v);
      } else {
        Takes(p, d, a, r, ops, t, v);
      }
    case Close => Closes(p, d, a, r, ops, v);
  }

  lemma Unfolded(capacity: nat, ops: seq<Op>, op: Op, vars: nat -> Value)
    ensures var n, p, all := |ops|, After(capacity, ops), ops + [op];
            && After(capacity, all) == Then(p, op)
            && DeskAfter(capacity, all, vars) == DeskThen(DeskAfter(capacity, ops, vars), p.chan, n, op, vars(n))
            && SendCalls(capacity, all) == JoinSends(p.chan, SendCalls(capacity, ops), n, op)
            && RecvCalls(capacity, all) == JoinRecvs(p.chan, RecvCalls(capacity, ops), n, op)
  {
    AfterSnoc(capacity, ops, op);
    assert (ops + [op])[..|ops|] == ops;
    hide Perform, DeskThen, Then;
  }

  ghost predicate DeskRight(capacity: nat, ops: seq<Op>, vars: nat -> Value) {
    DeskInv(After(capacity, ops), DeskAfter(capacity, ops, vars), SendCalls(capacity, ops), RecvCalls(capacity, ops),
            ops)
  }

  lemma DeskStarts(capacity: nat, vars: nat -> Value)
    ensures DeskRight(capacity, [], vars)
  {
  }

  lemma DeskGoesOn(capacity: nat, ops: seq<Op>, op: Op, vars: nat -> Value)
    requires DeskRight(capacity, ops, vars) && Balanced(After(capacity, ops))
    ensures DeskRight(capacity, ops + [op], vars)
  {
    hide DeskInv, Balanced, DeskThen, Then, After, DeskAfter, SendCalls, RecvCalls, JoinSends, JoinRecvs;
    DeskStep(After(capacity, ops), DeskAfter(capacity, ops, vars), SendCalls(capacity, ops),
             RecvCalls(capacity, ops), ops, op, vars(|ops|));
    Unfolded(capacity, ops, op, vars);
  }

  lemma {:induction false} DeskAlways(capacity: nat, ops: seq<Op>, vars: nat -> Value)
    ensures DeskRight(capacity, ops, vars)
  {
    hide DeskRight, Balanced, After;
    if ops == [] {
      DeskStarts(capacity, vars);
    } else {
      var n := |ops| - 1;
      DeskAlways(capacity, ops[..n], vars);
      AlwaysBalanced(capacity, ops[..n]);
      DeskGoesOn(capacity, ops[..n], ops[n], vars);
      assert ops == ops[..n] + [ops[n]];
    }
  }

  // ----- The theorems

  lemma SendAnswers(throws: bool, p: Play, ops: seq<Op>, d: Desk, a: seq<nat>, k: nat)
    requires k < |a| && a[k] < |ops| && ops[a[k]].Send?
    requires SendKnown(d, a, k, Taken(p), Taken(p) + |p.chan.senders|)
    requires a[k] in d.senders + d.receivers <==> Taken(p) <= k < Taken(p) + |p.chan.senders|
    ensures AnswerOf(throws, ops, d, a[k]) == SendShould(p, k) <==> throws || k < Taken(p) + |p.chan.senders|
  {
  }

  lemma RecvAnswers(throws: bool, p: Play, ops: seq<Op>, d: Desk, r: seq<nat>, k: nat)
    requires k < |r| && r[k] < |ops| && ops[r[k]].Recv?
    requires RecvKnown(d, r, k, p.books.accepted, |p.books.receipts|, |p.books.receipts| + |p.chan.receivers|)
    requires r[k] in d.senders + d.receivers <==> |p.books.receipts| <= k < |p.books.receipts| + |p.chan.receivers|
    ensures AnswerOf(throws, ops, d, r[k]) == RecvShould(p, k) <==>
            throws || k < |p.books.receipts| + |p.chan.receivers|
  {
  }

  lemma SendsAnswer(throws: bool, p: Play, d: Desk, a: seq<nat>, r: seq<nat>, ops: seq<Op>)
    requires DeskInv(p, d, a, r, ops) && Balanced(p)
    ensures SendsIntended(throws, ops, p, d, a) <==> throws || p.books.lostSends == []
  {
    Lengths(p);
    WhoWaits(p, d, a, r, ops);
    hide Balanced, SendKnown, SendShould, AnswerOf, Refused, RecvsKnown;
    var parked := Taken(p) + |p.chan.senders|;
    forall k | 0 <= k < |a|
      ensures a[k] < |ops|
      ensures AnswerOf(throws, ops, d, a[k]) == SendShould(p, k) <==> throws || k < parked
    {
      assert SendKnown(d, a, k, Taken(p), parked);
      SendAnswers(throws, p, ops, d, a, k);
    }
    hide AllSends, InOrder;
    if p.books.lostSends != [] { assert a[parked] < |ops|; }
  }

  lemma RecvsAnswer(throws: bool, p: Play, d: Desk, a: seq<nat>, r: seq<nat>, ops: seq<Op>)
    requires DeskInv(p, d, a, r, ops) && Balanced(p)
    ensures RecvsIntended(throws, ops, p, d, r) <==> throws || p.books.lostRecvs == []
  {
    Lengths(p);
    WhoWaits(p, d, a, r, ops);
    hide Balanced, RecvKnown, RecvShould, AnswerOf, Refused, SendsKnown;
    var parked := |p.books.receipts| + |p.chan.receivers|;
    forall k | 0 <= k < |r|
      ensures r[k] < |ops|
      ensures AnswerOf(throws, ops, d, r[k]) == RecvShould(p, k) <==> throws || k < parked
    {
      assert RecvKnown(d, r, k, p.books.accepted, |p.books.receipts|, parked);
      RecvAnswers(throws, p, ops, d, r, k);
    }
    hide AllRecvs, InOrder;
    if p.books.lostRecvs != [] { assert r[parked] < |ops|; }
  }

  lemma OthersAnswer(throws: bool, d: Desk, a: seq<nat>, r: seq<nat>, ops: seq<Op>)
    requires Refused(d, a, r, ops)
    ensures OthersIntended(throws, ops, d, a, r)
  {
  }

  /** No Close has found a call parked. */
  ghost predicate NobodyCancelled(capacity: nat, ops: seq<Op>) {
    forall j | 0 <= j < |ops| && ops[j].Close? ::
      After(capacity, ops[..j]).chan.senders == [] && After(capacity, ops[..j]).chan.receivers == []
  }

  lemma {:induction false} CancelledAreLost(capacity: nat, ops: seq<Op>)
    ensures NobodyCancelled(capacity, ops) <==>
            After(capacity, ops).books.lostSends == [] && After(capacity, ops).books.lostRecvs == []
  {
    if ops != [] {
      var n := |ops| - 1;
      var less, op, p := ops[..n], ops[n], After(capacity, ops[..n]);
      assert ops == less + [op];
      CancelledAreLost(capacity, less);
      AlwaysBalanced(capacity, less);
      AfterSnoc(capacity, less, op);
      if op.Close? { CloseCancelsTheParked(capacity, less); } else { OthersLoseNothing(p, op); }
      hide After, Balanced;
      Split(capacity, less, op);
      assert ValuesOf(p.chan.senders) == [] <==> p.chan.senders == [];
    }
  }

  lemma Split(capacity: nat, less: seq<Op>, op: Op)
    ensures NobodyCancelled(capacity, less + [op]) <==>
            && NobodyCancelled(capacity, less)
            && (op.Close? ==> After(capacity, less).chan.senders == [] && After(capacity, less).chan.receivers == [])
  {
    hide After;
    var ops := less + [op];
    assert ops[..|less|] == less;
    forall j | 0 <= j < |less|
      ensures ops[..j] == less[..j] && ops[j] == less[j]
    {
    }
  }

  lemma OthersLoseNothing(p: Play, op: Op)
    requires !op.Close?
    ensures Then(p, op).books.lostSends == p.books.lostSends && Then(p, op).books.lostRecvs == p.books.lostRecvs
  {
    var e := Perform(p.chan, op);
    if e.wakes != [] { OneWake(Call(p.books, op, e.outcome), e.wakes[0]); }
  }

  /** Every call on every channel answers as it should, after every sequence of operations: if the exceptions of lines
      92 and 133 are thrown; and as written, exactly after those sequences in which no Close has found a call parked. */
  lemma AnswersAreIntended(throws: bool, capacity: nat, ops: seq<Op>, vars: nat -> Value)
    ensures AsIntended(throws, capacity, ops, vars) <==> throws || NobodyCancelled(capacity, ops)
  {
    CancelledAreLost(capacity, ops);
    AlwaysBalanced(capacity, ops);
    DeskAlways(capacity, ops, vars);
    var p, d := After(capacity, ops), DeskAfter(capacity, ops, vars);
    var a, r := SendCalls(capacity, ops), RecvCalls(capacity, ops);
    OthersAnswer(throws, d, a, r, ops);
    SendsAnswer(throws, p, d, a, r, ops);
    RecvsAnswer(throws, p, d, a, r, ops);
    hide DeskInv, Balanced, After, DeskAfter, SendCalls, RecvCalls, NobodyCancelled;
    hide SendsIntended, RecvsIntended, OthersIntended;
  }

  lemma OneCancelled()
    ensures !NobodyCancelled(0, [Recv(7), Close])
  {
    var ops := [Recv(7), Close];
    assert ops[..1] == [Recv(7)] && [Recv(7)][..0] == [];
    assert ops[1].Close? && After(0, ops[..1]).chan.receivers == [7];
  }

  /** So all calls on all channels answer as they should if and only if the exceptions are thrown. */
  lemma ClosingMustThrow(throws: bool)
    ensures throws <==> forall capacity, ops, vars :: AsIntended(throws, capacity, ops, vars)
  {
    hide AsIntended, NobodyCancelled;
    forall capacity, ops, vars | throws
      ensures AsIntended(throws, capacity, ops, vars)
    {
      AnswersAreIntended(throws, capacity, ops, vars);
    }
    OneCancelled();
    AnswersAreIntended(throws, 0, [Recv(7), Close], i => 0);
  }
}
