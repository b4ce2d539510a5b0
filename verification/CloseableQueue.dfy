/**
 The closeable queue between the page and an SSH channel (lib/tangle/support/closeable_queue.rb), on top of
 EventMachine's queue, which is a FIFO of items and a FIFO of waiting consumers. Everything a consumer does is
 recorded in a log, in order.
 */
module CloseableQueues {

  datatype Item = Data(text: string) | Eof

  /** What consumers do: send data to their channel, or call the close callback. */
  datatype Effect = Sent(consumer: nat, text: string) | CloseCalled

  datatype Queue = Queue(items: seq<Item>, popq: seq<nat>, hasClose: bool, log: seq<Effect>)

  const EMPTY := Queue([], [], false, [])

  /** A log only grows. */
  predicate Extends(log: seq<Effect>, more: seq<Effect>) {
    |log| <= |more| && more[..|log|] == log
  }

  /** Whether data was sent in what a log has grown by. */
  predicate SendsMore(log: seq<Effect>, more: seq<Effect>) {
    exists i | |log| <= i < |more| :: more[i].Sent?
  }

  lemma SendsInSteps(a: seq<Effect>, b: seq<Effect>, c: seq<Effect>)
    requires Extends(a, b) && Extends(b, c)
    ensures Extends(a, c) && (SendsMore(a, c) <==> SendsMore(a, b) || SendsMore(b, c))
  {
    assert c[..|a|] == b[..|a|];
    assert forall i | |a| <= i < |b| :: c[i] == b[i] by {
      assert forall i | 0 <= i < |b| :: c[i] == c[..|b|][i];
    }
  }

  /** A consumer asks for the next item, or waits for it. */
  function Pop(q: Queue, c: nat): (r: Queue)
    ensures |r.items| <= |q.items| && r.hasClose == q.hasClose && Extends(q.log, r.log)
    decreases |q.items|, 1
  {
    if q.items == [] then q.(popq := q.popq + [c])
    else Receive(q.(items := q.items[1..]), c, q.items[0])
  }

  /** The proxy of `on_data`: data goes to the callback and the consumer asks again; the end of file stops it. */
  function Receive(q: Queue, c: nat, item: Item): (r: Queue)
    ensures |r.items| <= |q.items| && r.hasClose == q.hasClose && Extends(q.log, r.log)
    decreases |q.items|, 2
  {
    match item
    case Eof => if q.hasClose then q.(log := q.log + [CloseCalled]) else q
    case Data(text) => Pop(q.(log := q.log + [Sent(c, text)]), c)
  }

  /** Waiting consumers are called in turn while there are items. */
  function Drain(q: Queue): (r: Queue)
    ensures r.hasClose == q.hasClose && Extends(q.log, r.log)
    decreases |q.items|
  {
    if q.items == [] || q.popq == [] then q
    else Drain(Receive(q.(items := q.items[1..], popq := q.popq[1..]), q.popq[0], q.items[0]))
  }

  function Push(q: Queue, item: Item): Queue {
    Drain(q.(items := q.items + [item]))
  }

  class CloseableQueue {
    var items: seq<Item>
    var popq: seq<nat>
    var hasClose: bool
    ghost var log: seq<Effect>

    ghost function Abs(): Queue
      reads this
    {
      Queue(items, popq, hasClose, log)
    }

    constructor ()
      ensures Abs() == EMPTY
    {
      items, popq, hasClose, log := [], [], false, [];
    }

    method OnClose()
      modifies this
      ensures Abs() == old(Abs()).(hasClose := true)
    {
      hasClose := true;
    }

    /** The result says whether data was passed on meanwhile. */
    method OnData(c: nat) returns (passed: bool)
      modifies this
      ensures Abs() == Pop(old(Abs()), c)
      ensures passed == SendsMore(old(log), log)
    {
      passed := PopFor(c);
    }

    method PopFor(c: nat) returns (passed: bool)
      modifies this
      ensures Abs() == Pop(old(Abs()), c)
      ensures passed == SendsMore(old(log), log)
      decreases |items|, 1
    {
      passed := false;
      if items == [] {
        popq := popq + [c];
      } else {
        var item := items[0];
        items := items[1..];
        passed := Proxy(c, item);
      }
    }

    method Proxy(c: nat, item: Item) returns (passed: bool)
      modifies this
      ensures Abs() == Receive(old(Abs()), c, item)
      ensures passed == SendsMore(old(log), log)
      decreases |items|, 2
    {
      passed := false;
      if item == Eof {
        if hasClose {
          log := log + [CloseCalled];
        }
      } else {
        ghost var sent := log + [Sent(c, item.text)];
        log := log + [Sent(c, item.text)];
        var _ := PopFor(c);
        passed := true;
        assert log[|sent| - 1] == log[..|sent|][|sent| - 1];
      }
    }

    method PushItem(item: Item) returns (passed: bool)
      modifies this
      ensures Abs() == Push(old(Abs()), item)
      ensures passed == SendsMore(old(log), log)
    {
      passed := false;
      items := items + [item];
      while items != [] && popq != []
        invariant Drain(Abs()) == Push(old(Abs()), item)
        invariant Extends(old(log), log) && passed == SendsMore(old(log), log)
        decreases |items|
      {
        ghost var before := log;
        var c, next := popq[0], items[0];
        popq, items := popq[1..], items[1..];
        var more := Proxy(c, next);
        SendsInSteps(old(log), before, log);
        passed := passed || more;
      }
    }

    method Close()
      modifies this
      ensures Abs() == Push(old(Abs()), Eof)
    {
      var _ := PushItem(Eof);
    }
  }

  // ---------------------------------------------------------------- one consumer

  /** What arrived before the first end of file. */
  function Before(arrived: seq<Item>): seq<string> {
    if arrived == [] || arrived[0].Eof? then [] else [arrived[0].text] + Before(arrived[1..])
  }

  function After(arrived: seq<Item>): seq<Item> {
    if arrived == [] then [] else if arrived[0].Eof? then arrived[1..] else After(arrived[1..])
  }

  function SentTo(c: nat, texts: seq<string>): (r: seq<Effect>)
    ensures |r| == |texts| && forall i | 0 <= i < |r| :: r[i] == Sent(c, texts[i])
  {
    seq(|texts|, i requires 0 <= i < |texts| => Sent(c, texts[i]))
  }

  /** The only queue there can be once consumer c is attached and these items have arrived. */
  function Attached(c: nat, arrived: seq<Item>): Queue {
    if Eof in arrived then Queue(After(arrived), [], true, SentTo(c, Before(arrived)) + [CloseCalled])
    else Queue([], [c], true, SentTo(c, Before(arrived)))
  }

  /** The queue while no consumer is attached. */
  function Detached(arrived: seq<Item>): Queue {
    Queue(arrived, [], false, [])
  }

  lemma {:induction false} BeforeAppend(arrived: seq<Item>, item: Item)
    ensures Eof in arrived ==>
              Before(arrived + [item]) == Before(arrived) && After(arrived + [item]) == After(arrived) + [item]
    ensures Eof !in arrived ==>
              Before(arrived + [item]) == Before(arrived) + (match item case Data(text) => [text] case Eof => [])
              && After(arrived + [item]) == []
  {
    if arrived == [] {
      assert arrived + [item] == [item];
    } else {
      assert (arrived + [item])[1..] == arrived[1..] + [item];
      if !arrived[0].Eof? {
        BeforeAppend(arrived[1..], item);
        assert arrived == [arrived[0]] + arrived[1..];
      }
    }
  }

  lemma AttachedFirst(c: nat, text: string, rest: seq<Item>)
    ensures var all := Attached(c, [Data(text)] + rest);
            all == Attached(c, rest).(log := [Sent(c, text)] + Attached(c, rest).log)
  {
    var items := [Data(text)] + rest;
    assert items[1..] == rest;
    assert SentTo(c, Before(items)) == [Sent(c, text)] + SentTo(c, Before(rest));
  }

  /** A consumer that starts late gets everything that is waiting, in order, up to the end of file. */
  lemma {:induction false} PopAll(items: seq<Item>, c: nat, log: seq<Effect>)
    ensures Pop(Queue(items, [], true, log), c)
         == Attached(c, items).(log := log + Attached(c, items).log)
    decreases |items|
  {
    hide SentTo, Extends;
    if items == [] {
      assert log + [] == log && SentTo(c, []) == [];
    } else {
      var rest := items[1..];
      assert items == [items[0]] + rest;
      match items[0] {
        case Eof =>
          assert SentTo(c, Before(items)) + [CloseCalled] == [CloseCalled];
        case Data(text) =>
          PopAll(rest, c, log + [Sent(c, text)]);
          AttachedFirst(c, text, rest);
          assert log + [Sent(c, text)] + Attached(c, rest).log == log + Attached(c, items).log;
      }
    }
  }

  lemma AttachLate(arrived: seq<Item>, c: nat)
    ensures Pop(Detached(arrived).(hasClose := true), c) == Attached(c, arrived)
  {
    PopAll(arrived, c, []);
    assert [] + Attached(c, arrived).log == Attached(c, arrived).log;
  }

  /** An item that finds consumers waiting goes to the first of them. */
  lemma PushWaiting(c: nat, rest: seq<nat>, hasClose: bool, log: seq<Effect>, item: Item)
    ensures Push(Queue([], [c] + rest, hasClose, log), item) == Drain(Receive(Queue([], rest, hasClose, log), c, item))
  {
    var q := Queue([] + [item], [c] + rest, hasClose, log);
    assert q.items[1..] == [] && q.popq[1..] == rest && q.items[0] == item && q.popq[0] == c;
    assert q.(items := q.items[1..], popq := q.popq[1..]) == Queue([], rest, hasClose, log);
  }

  lemma PushAttached(c: nat, arrived: seq<Item>, item: Item)
    ensures Push(Attached(c, arrived), item) == Attached(c, arrived + [item])
    ensures Push(Detached(arrived), item) == Detached(arrived + [item])
  {
    BeforeAppend(arrived, item);
    var q := Attached(c, arrived);
    if Eof !in arrived {
      var next := Queue([], [], true, q.log);
      assert [c] + [] == [c];
      PushWaiting(c, [], true, q.log, item);
      if item.Data? {
        assert Receive(next, c, item) == Queue([], [c], true, q.log + [Sent(c, item.text)]);
        assert SentTo(c, Before(arrived + [item])) == SentTo(c, Before(arrived)) + [Sent(c, item.text)];
      }
    }
  }

  // ---------------------------------------------------------------- every interleaving

  /** The operations that reach the reactor: input and kills, and the shell that opens. */
  datatype Op = Arrive(item: Item) | Attach(consumer: nat)

  /**
   On the reactor's own thread an operation runs at once; from other threads it is scheduled, and a tick runs the
   oldest.
   */
  datatype Event = Perform(op: Op) | Schedule(op: Op) | Tick

  datatype Reactor = Reactor(queue: Queue, scheduled: seq<Op>, done: seq<Op>)

  function Apply(q: Queue, op: Op): Queue {
    match op
    case Arrive(item) => Push(q, item)
    case Attach(c) => Pop(q.(hasClose := true), c)
  }

  function React(r: Reactor, e: Event): Reactor {
    match e
    case Perform(op) => Reactor(Apply(r.queue, op), r.scheduled, r.done + [op])
    case Schedule(op) => r.(scheduled := r.scheduled + [op])
    case Tick =>
      if r.scheduled == [] then r
      else Reactor(Apply(r.queue, r.scheduled[0]), r.scheduled[1..], r.done + [r.scheduled[0]])
  }

  function Interleave(r: Reactor, events: seq<Event>): Reactor
    decreases |events|
  {
    if events == [] then r else Interleave(React(r, events[0]), events[1..])
  }

  const IDLE := Reactor(EMPTY, [], [])

  function Arrived(ops: seq<Op>): seq<Item> {
    if ops == [] then []
    else Arrived(ops[..|ops| - 1]) + match ops[|ops| - 1] case Arrive(item) => [item] case Attach(_) => []
  }

  function Attachments(ops: seq<Op>): seq<nat> {
    if ops == [] then []
    else Attachments(ops[..|ops| - 1]) + match ops[|ops| - 1] case Arrive(_) => [] case Attach(c) => [c]
  }

  /** The queue is a function of what has arrived and of whether the shell has opened. */
  predicate Settled(r: Reactor) {
    match |Attachments(r.done)|
    case 0 => r.queue == Detached(Arrived(r.done))
    case 1 => r.queue == Attached(Attachments(r.done)[0], Arrived(r.done))
    case _ => true
  }

  lemma ApplySettles(r: Reactor, op: Op, scheduled: seq<Op>)
    requires Settled(r)
    ensures Settled(Reactor(Apply(r.queue, op), scheduled, r.done + [op]))
  {
    var done := r.done + [op];
    assert done[..|done| - 1] == r.done;
    match op {
      case Arrive(item) =>
        if |Attachments(r.done)| <= 1 {
          PushAttached(if Attachments(r.done) == [] then 0 else Attachments(r.done)[0], Arrived(r.done), item);
        }
      case Attach(c) =>
        assert Arrived(done) == Arrived(r.done) && Attachments(done) == Attachments(r.done) + [c];
        if Attachments(r.done) == [] {
          AttachLate(Arrived(r.done), c);
        }
    }
  }

  lemma {:induction false} InterleavingSettles(r: Reactor, events: seq<Event>)
    requires Settled(r)
    ensures Settled(Interleave(r, events))
    decreases |events|
  {
    if events != [] {
      match events[0] {
        case Perform(op) => ApplySettles(r, op, r.scheduled);
        case Schedule(op) =>
        case Tick =>
          if r.scheduled != [] {
            ApplySettles(r, r.scheduled[0], r.scheduled[1..]);
          }
      }
      InterleavingSettles(React(r, events[0]), events[1..]);
    }
  }

  /**
   Over every interleaving of input, kills and the one opening of the shell, on any threads: before the shell opens
   nothing is sent. From then on exactly what arrived before the first close has been sent, in order; the close
   callback has run once if a close has arrived and not at all otherwise, after all data, and nothing follows it.
   */
  lemma QueueSafety(events: seq<Event>)
    ensures var r := Interleave(IDLE, events);
            && (Attachments(r.done) == [] ==> r.queue.log == [])
            && (|Attachments(r.done)| == 1 ==>
                  r.queue.log == SentTo(Attachments(r.done)[0], Before(Arrived(r.done)))
                                 + (if Eof in Arrived(r.done) then [CloseCalled] else []))
  {
    InterleavingSettles(IDLE, events);
  }

  function CallOf(e: Event): seq<Op> {
    match e
    case Perform(op) => [op]
    case Schedule(op) => [op]
    case Tick => []
  }

  /** All operations of a run, in the order of the calls. */
  function Called(events: seq<Event>): seq<Op> {
    if events == [] then [] else CallOf(events[0]) + Called(events[1..])
  }

  /** All calls come from the reactor's own thread, or all from other threads. */
  predicate OneSided(events: seq<Event>) {
    (forall i | 0 <= i < |events| :: !events[i].Perform?) || (forall i | 0 <= i < |events| :: !events[i].Schedule?)
  }

  lemma ReactInOrder(r: Reactor, e: Event)
    requires e.Perform? ==> r.scheduled == []
    ensures var t := React(r, e);
            && t.done + t.scheduled == r.done + r.scheduled + CallOf(e)
            && (!e.Schedule? && r.scheduled == [] ==> t.scheduled == [])
  {
    hide Apply;
    if e.Tick? && r.scheduled != [] {
      assert r.scheduled == [r.scheduled[0]] + r.scheduled[1..];
    }
  }

  lemma {:induction false} CallsInOrder(r: Reactor, events: seq<Event>)
    requires OneSided(events) && (r.scheduled == [] || forall i | 0 <= i < |events| :: !events[i].Perform?)
    ensures var t := Interleave(r, events); t.done + t.scheduled == r.done + r.scheduled + Called(events)
    decreases |events|
  {
    hide React, CallOf;
    if events != [] {
      ReactInOrder(r, events[0]);
      CallsInOrder(React(r, events[0]), events[1..]);
    }
  }

  /**
   Then the operations performed so far are the first ones called, so that `QueueSafety` speaks of the order of the
   calls.
   */
  lemma PerformedInOrder(events: seq<Event>)
    requires OneSided(events)
    ensures var r := Interleave(IDLE, events); |r.done| <= |Called(events)| && r.done == Called(events)[..|r.done|]
  {
    CallsInOrder(IDLE, events);
    var r := Interleave(IDLE, events);
    assert r.done + r.scheduled == Called(events);
  }

  /** Registering two consumers, which the documentation leaves undefined, breaks all of this. */
  lemma TwoConsumersInterfere()
    ensures var q := Apply(Apply(EMPTY, Attach(1)), Attach(2));
            var r := Apply(Apply(Apply(q, Arrive(Data("a"))), Arrive(Data("b"))), Arrive(Eof));
            Apply(r, Arrive(Data("c"))).log == [Sent(1, "a"), Sent(2, "b"), CloseCalled, Sent(2, "c")]
  {
    var q := Apply(Apply(EMPTY, Attach(1)), Attach(2));
    assert q == Queue([], [1, 2], true, []);
    var a := Apply(q, Arrive(Data("a")));
    assert a == Queue([], [2, 1], true, [Sent(1, "a")]) by { TwoWaiting([], 1, 2, Data("a")); }
    var b := Apply(a, Arrive(Data("b")));
    assert b == Queue([], [1, 2], true, [Sent(1, "a"), Sent(2, "b")]) by {
      TwoWaiting([Sent(1, "a")], 2, 1, Data("b"));
    }
    var e := Apply(b, Arrive(Eof));
    assert e == Queue([], [2], true, [Sent(1, "a"), Sent(2, "b"), CloseCalled]) by {
      TwoWaiting([Sent(1, "a"), Sent(2, "b")], 1, 2, Eof);
    }
    LoneConsumer(e.log, 2, "c");
  }

  lemma TwoWaiting(log: seq<Effect>, c: nat, d: nat, item: Item)
    ensures Push(Queue([], [c, d], true, log), item)
         == match item
            case Data(text) => Queue([], [d, c], true, log + [Sent(c, text)])
            case Eof => Queue([], [d], true, log + [CloseCalled])
  {
    assert [c] + [d] == [c, d];
    PushWaiting(c, [d], true, log, item);
    if item.Data? {
      assert Receive(Queue([], [d], true, log), c, item) == Queue([], [d, c], true, log + [Sent(c, item.text)]);
    }
  }

  lemma LoneConsumer(log: seq<Effect>, c: nat, text: string)
    ensures Push(Queue([], [c], true, log), Data(text)) == Queue([], [c], true, log + [Sent(c, text)])
  {
    assert [c] + [] == [c];
    PushWaiting(c, [], true, log, Data(text));
    assert Receive(Queue([], [], true, log), c, Data(text)) == Queue([], [c], true, log + [Sent(c, text)]);
  }
}
