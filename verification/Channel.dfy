/**
The channel of sync/co_chan.hpp: a bounded or rendezvous FIFO with direct hand-off and close, under a mutex.
First the channel as a value, with what each operation does to it; then what holds of every sequence of operations;
then the class, whose methods are proved to do what the value does and to write through the references that parked
coroutines left behind.
*/
module Channel {
  import opened Processers

  type Value = int

  datatype Sender = Sender(task: Task, value: Value)

  datatype Chan = Chan(capacity: nat, closed: bool, buffer: seq<Value>, senders: seq<Sender>, receivers: seq<Task>)

  /** What a call does for its caller: it completes, perhaps with a value; it parks the caller; or it throws. */
  datatype Outcome = Done | Got(value: Value) | Parks | Throws

  /** A parked task that an operation wakes, and with what. */
  datatype Wake =
    | Sent(task: Task)                       // its value has been taken over
    | Received(task: Task, value: Value)     // it has been given a value
    | SendFailed(task: Task, value: Value)   // the channel was closed
    | RecvFailed(task: Task)

  datatype Effect = Effect(chan: Chan, outcome: Outcome, wakes: seq<Wake>)

  datatype Op = Send(task: Task, value: Value) | Recv(task: Task) | Close

  // ----- The operations

  /** Lines 66-95. */
  function Sending(c: Chan, t: Task, v: Value): Effect {
    if c.closed then Effect(c, Throws, [])
    else if c.receivers != [] then
      Effect(c.(receivers := c.receivers[1..]), Done, [Received(c.receivers[0], v)])
    else if |c.buffer| < c.capacity then Effect(c.(buffer := c.buffer + [v]), Done, [])
    else Effect(c.(senders := c.senders + [Sender(t, v)]), Parks, [])
  }

  /** Lines 98-136. */
  function Receiving(c: Chan, t: Task): Effect {
    if c.closed && c.buffer == [] then Effect(c, Throws, [])
    else if c.buffer != [] then
      if c.senders != [] then
        Effect(c.(buffer := c.buffer[1..] + [c.senders[0].value], senders := c.senders[1..]), Got(c.buffer[0]),
               [Sent(c.senders[0].task)])
      else Effect(c.(buffer := c.buffer[1..]), Got(c.buffer[0]), [])
    else if c.capacity == 0 && c.senders != [] then
      Effect(c.(senders := c.senders[1..]), Got(c.senders[0].value), [Sent(c.senders[0].task)])
    else Effect(c.(receivers := c.receivers + [t]), Parks, [])
  }

  function FailSenders(senders: seq<Sender>): seq<Wake> {
    seq(|senders|, i requires 0 <= i < |senders| => SendFailed(senders[i].task, senders[i].value))
  }

  function FailReceivers(receivers: seq<Task>): seq<Wake> {
    seq(|receivers|, i requires 0 <= i < |receivers| => RecvFailed(receivers[i]))
  }

  /** Lines 44-63. */
  function Closing(c: Chan): Effect {
    if c.closed then Effect(c, Done, [])
    else
      Effect(c.(closed := true, senders := [], receivers := []), Done,
             FailSenders(c.senders) + FailReceivers(c.receivers))
  }

  function Perform(c: Chan, op: Op): Effect {
    match op
    case Send(t, v) => Sending(c, t, v)
    case Recv(t) => Receiving(c, t)
    case Close => Closing(c)
  }

  // ----- The state invariant

  predicate Valid(c: Chan) {
    && |c.buffer| <= c.capacity
    && (c.receivers != [] ==> c.buffer == [] && c.senders == [])
    && (c.senders != [] ==> |c.buffer| == c.capacity)
    && (c.closed ==> c.senders == [] && c.receivers == [])
  }

  function Empty(capacity: nat): Chan {
    Chan(capacity, false, [], [], [])
  }

  /** Every operation keeps the invariant. */
  lemma PerformIsValid(c: Chan, op: Op)
    requires Valid(c)
    ensures Valid(Perform(c, op).chan) && Perform(c, op).chan.capacity == c.capacity
  {
  }

  /** The invariant makes the test of line 120 redundant but for the wait queue: a sender is parked behind an empty
      buffer only when there is no buffer.  So no receiver ever parks while a sender is parked. */
  lemma RendezvousTestSuffices(c: Chan, t: Task)
    requires Valid(c)
    ensures c.buffer == [] && c.senders != [] ==> c.capacity == 0
    ensures Receiving(c, t).outcome.Parks? <==> !c.closed && c.buffer == [] && c.senders == []
    ensures Sending(c, t, 0).outcome.Parks? <==> !c.closed && c.receivers == [] && |c.buffer| == c.capacity
  {
  }

  // ----- Every sequence of operations

  datatype Receipt = Receipt(task: Task, value: Value)

  /** The books of one channel.  Nothing in them is derived from the channel's state, only from the calls made, what
      they answered, and which tasks were woken with what. */
  datatype Books = Books(
    accepted: seq<Value>,         // the values of the sends that did not throw at once, in order of arrival
    arrivals: seq<Task>,          // the receivers that did not throw at once, in order of arrival
    receipts: seq<Receipt>,       // who got which value, in order
    lostSends: seq<Value>,        // the values of the parked senders that Close cancelled
    lostRecvs: seq<Task>,
    parkedSenders: seq<Task>, wokenSenders: seq<Task>,
    parkedRecvs: seq<Task>, wokenRecvs: seq<Task>)

  function Call(b: Books, op: Op, outcome: Outcome): Books {
    match op
    case Send(t, v) =>
      if outcome.Throws? then b
      else b.(accepted := b.accepted + [v],
              parkedSenders := if outcome.Parks? then b.parkedSenders + [t] else b.parkedSenders)
    case Recv(t) =>
      if outcome.Throws? then b
      else b.(arrivals := b.arrivals + [t],
              receipts := if outcome.Got? then b.receipts + [Receipt(t, outcome.value)] else b.receipts,
              parkedRecvs := if outcome.Parks? then b.parkedRecvs + [t] else b.parkedRecvs)
    case Close => b
  }

  function Wakes(b: Books, w: Wake): Books {
    match w
    case Sent(t) => b.(wokenSenders := b.wokenSenders + [t])
    case Received(t, v) => b.(receipts := b.receipts + [Receipt(t, v)], wokenRecvs := b.wokenRecvs + [t])
    case SendFailed(t, v) => b.(lostSends := b.lostSends + [v], wokenSenders := b.wokenSenders + [t])
    case RecvFailed(t) => b.(lostRecvs := b.lostRecvs + [t], wokenRecvs := b.wokenRecvs + [t])
  }

  function AllWakes(b: Books, ws: seq<Wake>): Books
    decreases |ws|
  {
    if ws == [] then b else AllWakes(Wakes(b, ws[0]), ws[1..])
  }

  function Record(b: Books, op: Op, e: Effect): Books {
    AllWakes(Call(b, op, e.outcome), e.wakes)
  }

  datatype Play = Play(chan: Chan, books: Books)

  function Fresh(capacity: nat): Play {
    Play(Empty(capacity), Books([], [], [], [], [], [], [], [], []))
  }

  /** A channel of the given capacity after the operations, in the order in which they got the mutex. */
  function After(capacity: nat, ops: seq<Op>): Play {
    if ops == [] then Fresh(capacity)
    else
      var p := After(capacity, ops[..|ops| - 1]);
      var e := Perform(p.chan, ops[|ops| - 1]);
      Play(e.chan, Record(p.books, ops[|ops| - 1], e))
  }

  function ValuesOf(senders: seq<Sender>): seq<Value> {
    seq(|senders|, i requires 0 <= i < |senders| => senders[i].value)
  }

  function TasksOf(senders: seq<Sender>): seq<Task> {
    seq(|senders|, i requires 0 <= i < |senders| => senders[i].task)
  }

  function Delivered(receipts: seq<Receipt>): seq<Value> {
    seq(|receipts|, i requires 0 <= i < |receipts| => receipts[i].value)
  }

  function Served(receipts: seq<Receipt>): seq<Task> {
    seq(|receipts|, i requires 0 <= i < |receipts| => receipts[i].task)
  }

  predicate Balanced(p: Play) {
    && Valid(p.chan)
    && (p.chan.closed || (p.books.lostSends == [] && p.books.lostRecvs == []))
    && (p.books.lostRecvs != [] ==> p.chan.buffer == [])
    && p.books.accepted ==
       Delivered(p.books.receipts) + p.chan.buffer + ValuesOf(p.chan.senders) + p.books.lostSends
    && p.books.arrivals == Served(p.books.receipts) + p.chan.receivers + p.books.lostRecvs
    && p.books.parkedSenders == p.books.wokenSenders + TasksOf(p.chan.senders)
    && p.books.parkedRecvs == p.books.wokenRecvs + p.chan.receivers
  }

  lemma OneWake(b: Books, w: Wake)
    ensures AllWakes(b, [w]) == Wakes(b, w)
  {
    assert [w][1..] == [];
  }

  lemma {:induction false} WakesAppend(b: Books, xs: seq<Wake>, ys: seq<Wake>)
    ensures AllWakes(b, xs + ys) == AllWakes(AllWakes(b, xs), ys)
    decreases |xs|
  {
    if xs == [] {
      assert xs + ys == ys;
    } else {
      WakesAppend(Wakes(b, xs[0]), xs[1..], ys);
      assert (xs + ys)[1..] == xs[1..] + ys;
    }
  }

  lemma {:induction false} SendersFail(b: Books, senders: seq<Sender>)
    ensures AllWakes(b, FailSenders(senders)) ==
            b.(lostSends := b.lostSends + ValuesOf(senders), wokenSenders := b.wokenSenders + TasksOf(senders))
    decreases |senders|
  {
    if senders != [] {
      var rest := senders[1..];
      assert FailSenders(senders)[1..] == FailSenders(rest);
      SendersFail(Wakes(b, FailSenders(senders)[0]), rest);
      assert ValuesOf(senders) == [senders[0].value] + ValuesOf(rest);
      assert TasksOf(senders) == [senders[0].task] + TasksOf(rest);
      assert b.lostSends + ValuesOf(senders) == (b.lostSends + [senders[0].value]) + ValuesOf(rest);
      assert b.wokenSenders + TasksOf(senders) == (b.wokenSenders + [senders[0].task]) + TasksOf(rest);
    }
  }

  lemma {:induction false} ReceiversFail(b: Books, receivers: seq<Task>)
    ensures AllWakes(b, FailReceivers(receivers)) ==
            b.(lostRecvs := b.lostRecvs + receivers, wokenRecvs := b.wokenRecvs + receivers)
    decreases |receivers|
  {
    if receivers != [] {
      var rest := receivers[1..];
      assert FailReceivers(receivers)[1..] == FailReceivers(rest);
      ReceiversFail(Wakes(b, RecvFailed(receivers[0])), rest);
      assert b.lostRecvs + receivers == (b.lostRecvs + [receivers[0]]) + rest;
      assert b.wokenRecvs + receivers == (b.wokenRecvs + [receivers[0]]) + rest;
    }
  }

  function Then(p: Play, op: Op): Play {
    var e := Perform(p.chan, op);
    Play(e.chan, Record(p.books, op, e))
  }

  lemma ReceiptAdded(rs: seq<Receipt>, r: Receipt)
    ensures Delivered(rs + [r]) == Delivered(rs) + [r.value] && Served(rs + [r]) == Served(rs) + [r.task]
  {
  }

  lemma SenderAdded(senders: seq<Sender>, x: Sender)
    ensures ValuesOf(senders + [x]) == ValuesOf(senders) + [x.value]
    ensures TasksOf(senders + [x]) == TasksOf(senders) + [x.task]
  {
  }

  lemma SenderGone(senders: seq<Sender>)
    requires senders != []
    ensures ValuesOf(senders) == [senders[0].value] + ValuesOf(senders[1..])
    ensures TasksOf(senders) == [senders[0].task] + TasksOf(senders[1..])
  {
  }

  lemma SendBalances(p: Play, t: Task, v: Value)
    requires Balanced(p)
    ensures Balanced(Then(p, Send(t, v)))
  {
    var c, b := p.chan, p.books;
    hide Delivered, Served, ValuesOf, TasksOf;
    if c.closed {
    } else if c.receivers != [] {
      OneWake(Call(b, Send(t, v), Done), Received(c.receivers[0], v));
      ReceiptAdded(b.receipts, Receipt(c.receivers[0], v));
      NoSenders(c);
      assert b.accepted == Delivered(b.receipts);
      assert b.arrivals == Served(b.receipts) + c.receivers;
      assert Served(b.receipts) + c.receivers == (Served(b.receipts) + [c.receivers[0]]) + c.receivers[1..];
      assert b.wokenRecvs + c.receivers == (b.wokenRecvs + [c.receivers[0]]) + c.receivers[1..];
    } else {
      NoSenders(c);
      SenderAdded(c.senders, Sender(t, v));
    }
  }

  lemma NoSenders(c: Chan)
    ensures c.senders == [] ==> ValuesOf(c.senders) == [] && TasksOf(c.senders) == []
  {
  }

  /** A receive that takes a value out of the buffer, with no sender to refill it. */
  lemma DrainBalances(p: Play, t: Task)
    requires Balanced(p) && p.chan.senders == [] && p.chan.buffer != []
    ensures Balanced(Then(p, Recv(t)))
  {
    var c, b := p.chan, p.books;
    hide Delivered, Served, ValuesOf, TasksOf;
    NoSenders(c);
    ReceiptAdded(b.receipts, Receipt(t, c.buffer[0]));
    assert c.buffer == [c.buffer[0]] + c.buffer[1..];
    assert b.arrivals == Served(b.receipts);
  }

  /** A receive that wakes the first parked sender. */
  lemma TakeBalances(p: Play, t: Task)
    requires Balanced(p) && p.chan.senders != []
    ensures Balanced(Then(p, Recv(t)))
  {
    var c, b := p.chan, p.books;
    hide Delivered, Served, ValuesOf, TasksOf;
    SenderGone(c.senders);
    assert b.lostSends == [] && b.lostRecvs == [] && c.receivers == [];
    var all := c.buffer + [c.senders[0].value];
    OneWake(Call(b, Recv(t), Got(all[0])), Sent(c.senders[0].task));
    ReceiptAdded(b.receipts, Receipt(t, all[0]));
    assert all == [all[0]] + all[1..];
    assert c.buffer != [] ==> all[1..] == c.buffer[1..] + [c.senders[0].value];
    assert b.accepted == Delivered(b.receipts) + [all[0]] + all[1..] + ValuesOf(c.senders[1..]);
    assert b.wokenSenders + TasksOf(c.senders) == (b.wokenSenders + [c.senders[0].task]) + TasksOf(c.senders[1..]);
  }

  lemma RecvBalances(p: Play, t: Task)
    requires Balanced(p)
    ensures Balanced(Then(p, Recv(t)))
  {
    if p.chan.senders != [] {
      TakeBalances(p, t);
    } else if p.chan.buffer != [] {
      DrainBalances(p, t);
    }
  }

  lemma CloseBalances(p: Play)
    requires Balanced(p)
    ensures Balanced(Then(p, Close))
  {
    var c, b := p.chan, p.books;
    if !c.closed {
      WakesAppend(b, FailSenders(c.senders), FailReceivers(c.receivers));
      SendersFail(b, c.senders);
      ReceiversFail(AllWakes(b, FailSenders(c.senders)), c.receivers);
    }
  }

  lemma {:induction false} AlwaysBalanced(capacity: nat, ops: seq<Op>)
    ensures Balanced(After(capacity, ops)) && After(capacity, ops).chan.capacity == capacity
  {
    if ops != [] {
      AlwaysBalanced(capacity, ops[..|ops| - 1]);
      var p, op := After(capacity, ops[..|ops| - 1]), ops[|ops| - 1];
      assert After(capacity, ops) == Then(p, op);
      PerformIsValid(p.chan, op);
      match op
      case Send(t, v) => SendBalances(p, t, v);
      case Recv(t) => RecvBalances(p, t);
      case Close => CloseBalances(p);
    }
  }

  // ----- What holds of every sequence of operations

  /** FIFO over whole runs: the values of the accepted sends, in order of arrival, are the values delivered, then the
      buffer, then the values of the parked senders; Close cancels a suffix of them and nothing else. */
  lemma AcceptedIsAccountedFor(capacity: nat, ops: seq<Op>)
    ensures var p := After(capacity, ops);
            && p.books.accepted ==
               Delivered(p.books.receipts) + p.chan.buffer + ValuesOf(p.chan.senders) + p.books.lostSends
            && (!p.chan.closed ==> p.books.lostSends == [])
            && (p.chan.closed ==> p.chan.senders == [] && p.chan.receivers == [])
  {
    AlwaysBalanced(capacity, ops);
  }

  /** The k-th receiver to arrive, among those served so far, got the k-th value accepted. */
  lemma KthReceiverGetsKthValue(capacity: nat, ops: seq<Op>, k: nat)
    requires k < |After(capacity, ops).books.receipts|
    ensures var b := After(capacity, ops).books;
            k < |b.arrivals| && k < |b.accepted| && b.receipts[k] == Receipt(b.arrivals[k], b.accepted[k])
  {
    AlwaysBalanced(capacity, ops);
    var b := After(capacity, ops).books;
    assert b.accepted[k] == Delivered(b.receipts)[k];
    assert b.arrivals[k] == Served(b.receipts)[k];
  }

  /** Each parked task is woken exactly once, in the order in which they parked: those woken so far, followed by those
      in the wait queue, are those that parked. */
  lemma ParkedAreWokenOnceInOrder(capacity: nat, ops: seq<Op>)
    ensures var p := After(capacity, ops);
            && p.books.parkedSenders == p.books.wokenSenders + TasksOf(p.chan.senders)
            && p.books.parkedRecvs == p.books.wokenRecvs + p.chan.receivers
            && (p.chan.closed ==>
                  p.books.parkedSenders == p.books.wokenSenders && p.books.parkedRecvs == p.books.wokenRecvs)
  {
    AlwaysBalanced(capacity, ops);
    NoSenders(After(capacity, ops).chan);
  }

  lemma AfterSnoc(capacity: nat, ops: seq<Op>, op: Op)
    ensures After(capacity, ops + [op]) == Then(After(capacity, ops), op)
  {
    assert (ops + [op])[..|ops|] == ops;
  }

  /** Close cancels exactly the parked: their values and no others are lost, and nothing is delivered by it. */
  lemma CloseCancelsTheParked(capacity: nat, ops: seq<Op>)
    ensures var p, p' := After(capacity, ops), After(capacity, ops + [Close]);
            && p'.chan.closed && p'.chan.buffer == p.chan.buffer
            && p'.books.receipts == p.books.receipts
            && p'.books.lostSends == p.books.lostSends + ValuesOf(p.chan.senders)
            && p'.books.lostRecvs == p.books.lostRecvs + p.chan.receivers
  {
    AfterSnoc(capacity, ops, Close);
    var p := After(capacity, ops);
    AlwaysBalanced(capacity, ops);
    if p.chan.closed {
      NoSenders(p.chan);
    } else {
      WakesAppend(p.books, FailSenders(p.chan.senders), FailReceivers(p.chan.receivers));
      SendersFail(p.books, p.chan.senders);
      ReceiversFail(AllWakes(p.books, FailSenders(p.chan.senders)), p.chan.receivers);
    }
  }

  /** After a close nothing is accepted, parked or lost any more, and receives drain what was in the buffer, in
      order. */
  lemma {:induction false} ReceivesDrainAfterClose(capacity: nat, ops: seq<Op>, more: seq<Op>)
    requires After(capacity, ops).chan.closed
    ensures var p, p' := After(capacity, ops), After(capacity, ops + more);
            && p'.chan.closed
            && p'.books.accepted == p.books.accepted && p'.books.lostSends == p.books.lostSends
            && p'.books.parkedSenders == p.books.parkedSenders && p'.books.parkedRecvs == p.books.parkedRecvs
            && Delivered(p'.books.receipts) + p'.chan.buffer == Delivered(p.books.receipts) + p.chan.buffer
    decreases |more|
  {
    if more == [] {
      assert ops + more == ops;
    } else {
      var less, op := more[..|more| - 1], more[|more| - 1];
      ReceivesDrainAfterClose(capacity, ops, less);
      assert ops + more == (ops + less) + [op];
      AfterSnoc(capacity, ops + less, op);
      ClosedStep(After(capacity, ops + less), op) by { AlwaysBalanced(capacity, ops + less); }
    }
  }

  lemma ClosedStep(p: Play, op: Op)
    requires Balanced(p) && p.chan.closed
    ensures Then(p, op).chan.closed
    ensures Then(p, op).books.accepted == p.books.accepted && Then(p, op).books.lostSends == p.books.lostSends
    ensures Then(p, op).books.parkedSenders == p.books.parkedSenders
    ensures Then(p, op).books.parkedRecvs == p.books.parkedRecvs
    ensures Delivered(Then(p, op).books.receipts) + Then(p, op).chan.buffer ==
            Delivered(p.books.receipts) + p.chan.buffer
  {
    if op.Recv? && p.chan.buffer != [] {
      ReceiptAdded(p.books.receipts, Receipt(op.task, p.chan.buffer[0]));
      assert p.chan.buffer == [p.chan.buffer[0]] + p.chan.buffer[1..];
    }
  }

  // ----- What parked calls leave behind, and what they answer

  /** The variables of a parked call to which its queue item refers. */
  datatype Local = Local(isError: bool, data: Value)

  /** The variables after the operation that wakes the call has written through the references. */
  function Written(l: Local, w: Wake): Local {
    match w
    case Sent(_) => l
    case Received(_, v) => l.(data := v)
    case SendFailed(_, _) => l.(isError := true)
    case RecvFailed(_) => l.(isError := true)
  }

  /** Lines 91-94 and 132-135: what the call answers once it goes on.  `throws`: lines 92 and 133 throw the exception;
      as written they construct it and go on. */
  function Resumed(throws: bool, sends: bool, l: Local): Outcome {
    if l.isError && throws then Throws else if sends then Done else Got(l.data)
  }

  predicate Fails(w: Wake) {
    w.SendFailed? || w.RecvFailed?
  }

  // ----- The class

  /** The variables on a parked coroutine's stack to which its queue item refers. */
  class Slot {
    var isError: bool
    var data: Value

    constructor ()
    {
      isError, data := false, 0;
    }

    function Locals(): Local
      reads this
    {
      Local(isError, data)
    }

    /** The variables say how the call was woken. */
    predicate Tells(w: Wake)
      reads this
    {
      (isError <==> Fails(w)) && (w.Received? ==> data == w.value)
    }
  }

  datatype SendItem = SendItem(slot: Slot, task: Task, data: Value)
  datatype RecvItem = RecvItem(slot: Slot, task: Task)

  function Woken(ws: seq<Wake>): seq<Task> {
    seq(|ws|, i requires 0 <= i < |ws| => ws[i].task)
  }

  function SendersOf(q: seq<SendItem>): seq<Sender> {
    seq(|q|, i requires 0 <= i < |q| => Sender(q[i].task, q[i].data))
  }

  function SendTasks(q: seq<SendItem>): seq<Task> {
    seq(|q|, i requires 0 <= i < |q| => q[i].task)
  }

  function RecvTasks(q: seq<RecvItem>): seq<Task> {
    seq(|q|, i requires 0 <= i < |q| => q[i].task)
  }

  lemma QueueShapes(senders: seq<SendItem>, receivers: seq<RecvItem>, x: SendItem, y: RecvItem)
    ensures |SendersOf(senders)| == |senders| && |RecvTasks(receivers)| == |receivers|
    ensures senders != [] ==>
              && SendersOf(senders[1..]) == SendersOf(senders)[1..]
              && SendersOf(senders)[0] == Sender(senders[0].task, senders[0].data)
    ensures receivers != [] ==>
              RecvTasks(receivers[1..]) == RecvTasks(receivers)[1..] && RecvTasks(receivers)[0] == receivers[0].task
    ensures SendersOf(senders + [x]) == SendersOf(senders) + [Sender(x.task, x.data)]
    ensures RecvTasks(receivers + [y]) == RecvTasks(receivers) + [y.task]
  {
  }

  lemma OneWoken(w: Wake)
    ensures Woken([w]) == [w.task] && Woken([]) == []
  {
  }

  class CoChannel {
    const capacity: nat
    var closed: bool
    var buffer: seq<Value>
    var sendQueue: seq<SendItem>
    var recvQueue: seq<RecvItem>

    ghost function Contents(): Chan
      reads this
    {
      Chan(capacity, closed, buffer, SendersOf(sendQueue), RecvTasks(recvQueue))
    }

    /** The slots of the parked coroutines are all different. */
    ghost predicate Apart()
      reads this
    {
      && (forall i, j | 0 <= i < j < |sendQueue| :: sendQueue[i].slot != sendQueue[j].slot)
      && (forall i, j | 0 <= i < j < |recvQueue| :: recvQueue[i].slot != recvQueue[j].slot)
      && (forall i, j | 0 <= i < |sendQueue| && 0 <= j < |recvQueue| :: sendQueue[i].slot != recvQueue[j].slot)
    }

    /** No parked coroutine has been told of an error. */
    ghost predicate Ok()
      reads this, Slots()
    {
      Valid(Contents()) && Apart() && forall x | x in Slots() :: !x.isError
    }

    ghost function Slots(): set<Slot>
      reads this
    {
      (set i | 0 <= i < |sendQueue| :: sendQueue[i].slot) + (set i | 0 <= i < |recvQueue| :: recvQueue[i].slot)
    }

    constructor (capacity: nat)
      ensures Ok() && Contents() == Empty(capacity)
    {
      this.capacity, closed, buffer, sendQueue, recvQueue := capacity, false, [], [], [];
    }

    /** Lines 66-90: up to completion, failure, or the point where the caller is suspended and the mutex released. */
    method Push(me: Task, data: Value, slot: Slot, proc: Processer) returns (r: Outcome)
      requires Ok() && slot !in Slots()
      modifies this`recvQueue, this`buffer, this`sendQueue, proc, slot
      modifies set i | 0 <= i < |recvQueue| :: recvQueue[i].slot
      ensures Ok()
      ensures var e := Sending(old(Contents()), me, data);
              && Contents() == e.chan && r == e.outcome
              && proc.runnable == old(proc.runnable) + Woken(e.wakes)
      ensures if r.Parks? then
                && sendQueue == old(sendQueue) + [SendItem(slot, me, data)]
                && slot.Locals() == Local(false, old(slot.data))
              else sendQueue == old(sendQueue)
      ensures r.Done? && old(recvQueue) != [] ==>
                && recvQueue == old(recvQueue)[1..]
                && old(recvQueue)[0].slot.data == data
                && old(recvQueue)[0].slot.isError == old(recvQueue[0].slot.isError)
                && old(recvQueue)[0].slot.Tells(Sending(old(Contents()), me, data).wakes[0])
      ensures forall x | x in old(Slots()) && x in Slots() :: unchanged(x)
    {
      PerformIsValid(Contents(), Send(me, data));
      QueueShapes(sendQueue, recvQueue, SendItem(slot, me, data), RecvItem(slot, me));
      OneWoken(Received(if recvQueue == [] then me else recvQueue[0].task, data));
      hide Valid, SendersOf, RecvTasks, Woken;
      if closed {
        return Throws;
      }
      if recvQueue != [] {
        var front := recvQueue[0];
        recvQueue := recvQueue[1..];
        front.slot.data := data;
        proc.AddTask([front.task]);
        return Done;
      }
      if |buffer| < capacity {
        buffer := buffer + [data];
        return Done;
      }
      slot.isError := false;
      sendQueue := sendQueue + [SendItem(slot, me, data)];
      return Parks;
    }

    /** Lines 98-131, likewise.  `slot.data` is the variable that the caller passed by reference. */
    method Pull(me: Task, slot: Slot, proc: Processer) returns (r: Outcome)
      requires Ok() && slot !in Slots()
      modifies this`recvQueue, this`buffer, this`sendQueue, proc, slot
      ensures Ok()
      ensures var e := Receiving(old(Contents()), me);
              && Contents() == e.chan && r == e.outcome
              && proc.runnable == old(proc.runnable) + Woken(e.wakes)
      ensures if r.Parks? then
                recvQueue == old(recvQueue) + [RecvItem(slot, me)] && slot.Locals() == Local(false, old(slot.data))
              else recvQueue == old(recvQueue)
      ensures r.Got? ==> slot.data == r.value
      ensures r.Got? && old(sendQueue) != [] ==>
                && sendQueue == old(sendQueue)[1..]
                && old(sendQueue)[0].slot.Tells(Receiving(old(Contents()), me).wakes[0])
      ensures forall x | x in old(Slots()) && x in Slots() :: unchanged(x)
    {
      PerformIsValid(Contents(), Recv(me));
      QueueShapes(sendQueue, recvQueue, SendItem(slot, me, 0), RecvItem(slot, me));
      OneWoken(Sent(if sendQueue == [] then me else sendQueue[0].task));
      hide Valid, SendersOf, RecvTasks, Woken;
      if closed && buffer == [] {
        return Throws;
      }
      if |buffer| > 0 {
        slot.data := buffer[0];
        buffer := buffer[1..];
        if sendQueue != [] {
          var front := sendQueue[0];
          sendQueue := sendQueue[1..];
          buffer := buffer + [front.data];
          proc.AddTask([front.task]);
        }
        return Got(slot.data);
      }
      if capacity == 0 && sendQueue != [] {
        var front := sendQueue[0];
        sendQueue := sendQueue[1..];
        slot.data := front.data;
        proc.AddTask([front.task]);
        return Got(slot.data);
      }
      slot.isError := false;
      recvQueue := recvQueue + [RecvItem(slot, me)];
      return Parks;
    }

    /** Lines 91-94, once the sender that left `slot` behind has been woken by w. */
    method ResumePush(slot: Slot, throws: bool, ghost w: Wake) returns (r: Outcome)
      requires slot.Tells(w) && (w.Sent? || w.SendFailed?)
      ensures r.Throws? <==> throws && Fails(w)
      ensures r == Resumed(throws, true, slot.Locals())
    {
      if slot.isError {
        if throws {
          return Throws;
        }
      }
      return Done;
    }

    /** Lines 132-135, once the receiver that left `slot` behind has been woken by w. */
    method ResumePull(slot: Slot, throws: bool, ghost w: Wake) returns (r: Outcome)
      requires slot.Tells(w) && (w.Received? || w.RecvFailed?)
      ensures r.Throws? <==> throws && Fails(w)
      ensures w.Received? ==> r == Got(w.value)
      ensures r == Resumed(throws, false, slot.Locals())
    {
      if slot.isError {
        if throws {
          return Throws;
        }
      }
      return Got(slot.data);
    }

    /** Lines 50-53. */
    method WakeSenders(proc: Processer)
      modifies proc, set i | 0 <= i < |sendQueue| :: sendQueue[i].slot
      ensures proc.runnable == old(proc.runnable) + SendTasks(sendQueue)
      ensures forall i | 0 <= i < |sendQueue| ::
                sendQueue[i].slot.isError && sendQueue[i].slot.data == old(sendQueue[i].slot.data)
    {
      for i := 0 to |sendQueue|
        invariant proc.runnable == old(proc.runnable) + SendTasks(sendQueue[..i])
        invariant forall j | 0 <= j < i :: sendQueue[j].slot.isError
        invariant forall j | 0 <= j < |sendQueue| :: sendQueue[j].slot.data == old(sendQueue[j].slot.data)
      {
        sendQueue[i].slot.isError := true;
        proc.AddTask([sendQueue[i].task]);
        assert SendTasks(sendQueue[..i + 1]) == SendTasks(sendQueue[..i]) + [sendQueue[i].task];
      }
      assert sendQueue[..|sendQueue|] == sendQueue;
    }

    /** Lines 57-60. */
    method WakeReceivers(proc: Processer)
      modifies proc, set i | 0 <= i < |recvQueue| :: recvQueue[i].slot
      ensures proc.runnable == old(proc.runnable) + RecvTasks(recvQueue)
      ensures forall i | 0 <= i < |recvQueue| ::
                recvQueue[i].slot.isError && recvQueue[i].slot.data == old(recvQueue[i].slot.data)
    {
      for i := 0 to |recvQueue|
        invariant proc.runnable == old(proc.runnable) + RecvTasks(recvQueue[..i])
        invariant forall j | 0 <= j < i :: recvQueue[j].slot.isError
        invariant forall j | 0 <= j < |recvQueue| :: recvQueue[j].slot.data == old(recvQueue[j].slot.data)
      {
        recvQueue[i].slot.isError := true;
        proc.AddTask([recvQueue[i].task]);
        assert RecvTasks(recvQueue[..i + 1]) == RecvTasks(recvQueue[..i]) + [recvQueue[i].task];
      }
      assert recvQueue[..|recvQueue|] == recvQueue;
    }

    lemma ClosingWakes()
      ensures Woken(Closing(Contents()).wakes) ==
              if closed then [] else SendTasks(sendQueue) + RecvTasks(recvQueue)
    {
    }

    /** Lines 44-63: every parked coroutine is told that the channel is closed, and made runnable, senders first. */
    method Shut(proc: Processer)
      requires Ok()
      modifies this`closed, this`sendQueue, this`recvQueue, proc, Slots()
      ensures Ok()
      ensures var e := Closing(old(Contents()));
              Contents() == e.chan && proc.runnable == old(proc.runnable) + Woken(e.wakes)
      ensures forall x | x in old(Slots()) :: x.isError && x.data == old(x.data)
      ensures forall i | 0 <= i < |old(sendQueue)| ::
                old(sendQueue)[i].slot.Tells(SendFailed(old(sendQueue)[i].task, old(sendQueue)[i].data))
      ensures forall i | 0 <= i < |old(recvQueue)| ::
                old(recvQueue)[i].slot.Tells(RecvFailed(old(recvQueue)[i].task))
    {
      ClosingWakes();
      if !closed {
        closed := true;
        WakeSenders(proc);
        WakeReceivers(proc);
        sendQueue := [];
        recvQueue := [];
      }
    }
  }
}
