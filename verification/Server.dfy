/**
 The server side as a whole: terminals are created, listened to, fed, killed, opened, closed and swept in any order.
 The handlers are those of lib/tangle/tty_extension.rb.
 */
module Servers {
  import opened Options
  import opened CloseableQueues
  import opened Registries

  /** The terminal that a message for this user and id reaches, if any, and its queue. */
  function Reached(registry: Registry, user: string, id: nat): set<Tty>
    reads registry
  {
    var found := Lookup(registry.terms, user, id);
    if found.Some? then {found.value} else {}
  }

  function ReachedQueue(registry: Registry, user: string, id: nat): set<CloseableQueue>
    reads registry
  {
    var found := Lookup(registry.terms, user, id);
    if found.Some? then {found.value.write} else {}
  }

  /** `handle_input`: the message is answered with an error if and only if there is no such terminal. */
  method HandleInput(registry: Registry, user: string, id: nat, text: string, now: int) returns (error: Option<string>)
    modifies Reached(registry, user, id), ReachedQueue(registry, user, id)
    ensures error.Some? <==> Reached(registry, user, id) == {}
    ensures forall t | t in Reached(registry, user, id) ::
              && t.write.Abs() == Push(old(t.write.Abs()), Data(text)) && t.listeners == old(t.listeners)
              && t.last == if SendsMore(old(t.write.log), t.write.log) then now else old(t.last)
  {
    var tty := registry.Get(user, id);
    if tty.Some? {
      tty.value.Feed(text, now);
      error := None;
    } else {
      error := Some("Terminal does not exist.");
    }
  }

  /** `handle_kill` does nothing if there is no such terminal. */
  method HandleKill(registry: Registry, user: string, id: nat)
    modifies ReachedQueue(registry, user, id)
    ensures forall t | t in Reached(registry, user, id) :: t.write.Abs() == Push(old(t.write.Abs()), Eof)
  {
    var tty := registry.Get(user, id);
    if tty.Some? {
      tty.value.write.Close();
    }
  }

  // ---------------------------------------------------------------- steps

  /** A terminal with what has arrived for it; `gone` says that a close has run its listener. */
  datatype Terminal = Terminal(
    owner: string,
    last: int,
    listening: bool,
    gone: bool,
    attached: bool,
    arrived: seq<Item>,
    queue: Queue)

  /** The registry holds object ids; `ttys` is every terminal ever made. */
  datatype Server = Server(terms: Terms<nat>, ttys: map<nat, Terminal>)

  datatype Step =
    | Create(owner: string, id: nat, now: int)
    | Listen(id: nat)
    | CloseTty(id: nat)
    | Sweep(now: int)
    | Input(user: string, id: nat, text: string, now: int)
    | Kill(user: string, id: nat)
    | OpenShell(id: nat, now: int)

  /** Object ids are unique, and the write callbacks of a terminal are set once. */
  predicate Enabled(s: Server, step: Step) {
    match step
    case Create(_, id, _) => id !in s.ttys
    case Listen(id) => id in s.ttys
    case CloseTty(id) => id in s.ttys
    case OpenShell(id, _) => id in s.ttys && !s.ttys[id].attached
    case _ => true
  }

  /** Passing data on is what keeps a terminal from expiring. */
  function Passing(t: Terminal, q: Queue, now: int): Terminal {
    t.(queue := q, last := if SendsMore(t.queue.log, q.log) then now else t.last)
  }

  function Feed(t: Terminal, item: Item, now: int): Terminal {
    Passing(t, Push(t.queue, item), now).(arrived := t.arrived + [item])
  }

  predicate Expiring(t: Terminal, now: int) {
    t.listening && now - t.last > EXPIRY_SECONDS
  }

  predicate Expires(s: Server, id: nat, now: int) {
    id in s.ttys && Expiring(s.ttys[id], now)
  }

  function SweptIds(s: Server, ids: map<nat, nat>, now: int): map<nat, nat> {
    map i | i in ids && !Expires(s, ids[i], now) :: ids[i]
  }

  function SweptTerms(s: Server, now: int): Terms<nat> {
    map o | o in s.terms && SweptIds(s, s.terms[o], now) != map[] :: SweptIds(s, s.terms[o], now)
  }

  function Next(s: Server, step: Step): Server
    requires Enabled(s, step)
  {
    match step
    case Create(owner, id, now) =>
      Server(Register(s.terms, owner, id, id),
             s.ttys[id := Terminal(owner, now, false, false, false, [], EMPTY)])
    case Listen(id) => s.(ttys := s.ttys[id := s.ttys[id].(listening := true)])
    case CloseTty(id) =>
      var t := s.ttys[id];
      if t.listening then Server(Unregister(s.terms, t.owner, id), s.ttys[id := t.(gone := true)]) else s
    case Sweep(now) =>
      Server(SweptTerms(s, now),
             map i | i in s.ttys :: if Lookup(s.terms, s.ttys[i].owner, i) == Some(i) && Expiring(s.ttys[i], now)
                                    then s.ttys[i].(gone := true) else s.ttys[i])
    case Input(user, id, text, now) =>
      var found := Lookup(s.terms, user, id);
      if found.Some? && found.value in s.ttys
      then s.(ttys := s.ttys[found.value := Feed(s.ttys[found.value], Data(text), now)]) else s
    case Kill(user, id) =>
      var found := Lookup(s.terms, user, id);
      if found.Some? && found.value in s.ttys
      then s.(ttys := s.ttys[found.value := Feed(s.ttys[found.value], Eof, 0)]) else s
    case OpenShell(id, now) =>
      var t := s.ttys[id];
      s.(ttys := s.ttys[id := Passing(t, Pop(t.queue.(hasClose := true), id), now).(attached := true)])
  }

  // ---------------------------------------------------------------- the invariant

  /** A terminal's queue is a function of what has arrived for it and of whether its shell has opened. */
  predicate QueueOk(id: nat, t: Terminal) {
    t.queue == if t.attached then Attached(id, t.arrived) else Detached(t.arrived)
  }

  /**
   No owner without terminals; the registry holds exactly the terminals that no close has taken off, each under its
   owner and id; and every queue is as it should be.
   */
  ghost predicate ServerOk(s: Server) {
    && NoEmptyOwner(s.terms)
    && (forall o, i | Lookup(s.terms, o, i).Some? ::
          Lookup(s.terms, o, i) == Some(i) && i in s.ttys && s.ttys[i].owner == o)
    && (forall i | i in s.ttys :: Lookup(s.terms, s.ttys[i].owner, i).Some? <==> !s.ttys[i].gone)
    && (forall i | i in s.ttys :: QueueOk(i, s.ttys[i]))
  }

  lemma FeedKeepsQueue(id: nat, t: Terminal, item: Item, now: int)
    requires QueueOk(id, t)
    ensures QueueOk(id, Feed(t, item, now))
  {
    PushAttached(id, t.arrived, item);
  }

  lemma OpenKeepsQueue(id: nat, t: Terminal, now: int)
    requires QueueOk(id, t) && !t.attached
    ensures QueueOk(id, Passing(t, Pop(t.queue.(hasClose := true), id), now).(attached := true))
  {
    AttachLate(t.arrived, id);
  }

  /** The swept registry is the registry without what expires. */
  lemma SweepIsFilter(s: Server, now: int)
    requires ServerOk(s)
    ensures var r := SweptTerms(s, now);
            && NoEmptyOwner(r)
            && forall o, i ::
                 Lookup(r, o, i)
                 == if Lookup(s.terms, o, i).Some? && Expires(s, i, now) then None else Lookup(s.terms, o, i)
  {
    hide Expires, QueueOk;
    var r := SweptTerms(s, now);
    forall o, i: nat
      ensures Lookup(r, o, i)
           == if Lookup(s.terms, o, i).Some? && Expires(s, i, now) then None else Lookup(s.terms, o, i)
    {
      if Lookup(s.terms, o, i).Some? {
        assert s.terms[o][i] == i;
        assert i in SweptIds(s, s.terms[o], now) <==> !Expires(s, i, now);
      }
    }
  }

  lemma StepIsOk(s: Server, step: Step)
    requires ServerOk(s) && Enabled(s, step)
    ensures ServerOk(Next(s, step))
  {
    hide Register, Unregister, SweptTerms, QueueOk, Feed, Passing, NoEmptyOwner, Lookup, Attached, Pop;
    match step {
      case Create(owner, id, now) =>
        RegisterIsFlat(s.terms, owner, id, id);
        FreshQueue(id, owner, now);
      case Listen(id) => SameQueue(id, s.ttys[id], s.ttys[id].(listening := true));
      case CloseTty(id) =>
        UnregisterIsFlat(s.terms, s.ttys[id].owner, id);
        SameQueue(id, s.ttys[id], s.ttys[id].(gone := true));
      case Sweep(now) =>
        SweepIsFilter(s, now);
        forall i | i in s.ttys
          ensures QueueOk(i, Next(s, step).ttys[i])
        {
          SameQueue(i, s.ttys[i], s.ttys[i].(gone := true));
        }
      case Input(user, id, text, now) =>
        if Lookup(s.terms, user, id).Some? {
          FeedKeepsQueue(id, s.ttys[id], Data(text), now);
          FeedKeeps(s.ttys[id], Data(text), now);
        }
      case Kill(user, id) =>
        if Lookup(s.terms, user, id).Some? {
          FeedKeepsQueue(id, s.ttys[id], Eof, 0);
          FeedKeeps(s.ttys[id], Eof, 0);
        }
      case OpenShell(id, now) =>
        OpenKeepsQueue(id, s.ttys[id], now);
        PassingKeeps(s.ttys[id], Pop(s.ttys[id].queue.(hasClose := true), id), now);
    }
  }

  lemma FreshQueue(id: nat, owner: string, now: int)
    ensures QueueOk(id, Terminal(owner, now, false, false, false, [], EMPTY))
  {
  }

  lemma SameQueue(id: nat, t: Terminal, u: Terminal)
    requires u == t.(listening := u.listening, gone := u.gone)
    ensures QueueOk(id, u) == QueueOk(id, t)
  {
  }

  lemma FeedKeeps(t: Terminal, item: Item, now: int)
    ensures var u := Feed(t, item, now); u == t.(last := u.last, queue := u.queue, arrived := u.arrived)
  {
  }

  lemma PassingKeeps(t: Terminal, q: Queue, now: int)
    ensures var u := Passing(t, q, now); u == t.(last := u.last, queue := u.queue)
  {
  }

  // ---------------------------------------------------------------- every run

  function Serve(s: Server, steps: seq<Step>): Server
    requires AllEnabled(s, steps)
    decreases |steps|
  {
    if steps == [] then s else Serve(Next(s, steps[0]), steps[1..])
  }

  predicate AllEnabled(s: Server, steps: seq<Step>)
    decreases |steps|
  {
    steps != [] ==> Enabled(s, steps[0]) && AllEnabled(Next(s, steps[0]), steps[1..])
  }

  lemma {:induction false} RunIsOk(s: Server, steps: seq<Step>)
    requires ServerOk(s) && AllEnabled(s, steps)
    ensures ServerOk(Serve(s, steps))
    decreases |steps|
  {
    hide ServerOk, Next, Enabled;
    if steps != [] {
      StepIsOk(s, steps[0]);
      RunIsOk(Next(s, steps[0]), steps[1..]);
    }
  }

  const NOBODY := Server(map[], map[])

  /**
   Over every run of the server: a terminal can be looked up if and only if it was made and no close has taken it off,
   no owner without terminals is kept, and each channel has been sent exactly what was accepted for its terminal
   before the first kill, in order, followed by one close if there was a kill.
   */
  lemma EveryRun(steps: seq<Step>)
    requires AllEnabled(NOBODY, steps)
    ensures var s := Serve(NOBODY, steps);
            && NoEmptyOwner(s.terms)
            && (forall o, i :: Lookup(s.terms, o, i).Some? <==> i in s.ttys && s.ttys[i].owner == o && !s.ttys[i].gone)
            && (forall i | i in s.ttys && s.ttys[i].attached ::
                  s.ttys[i].queue.log == SentTo(i, Before(s.ttys[i].arrived))
                                         + (if Eof in s.ttys[i].arrived then [CloseCalled] else []))
            && (forall i | i in s.ttys && !s.ttys[i].attached :: s.ttys[i].queue.log == [])
  {
    hide Lookup, NoEmptyOwner;
    assert ServerOk(NOBODY) by { NobodyIsOk(); }
    RunIsOk(NOBODY, steps);
    var s := Serve(NOBODY, steps);
    forall i | i in s.ttys && s.ttys[i].attached
      ensures s.ttys[i].queue.log == SentTo(i, Before(s.ttys[i].arrived))
                                     + (if Eof in s.ttys[i].arrived then [CloseCalled] else [])
    {
      assert QueueOk(i, s.ttys[i]);
    }
  }

  lemma NobodyIsOk()
    ensures ServerOk(NOBODY)
  {
  }

  /** Once a close has taken a terminal off, nothing arrives for it any more. */
  lemma {:induction false} GoneIsSilent(s: Server, steps: seq<Step>, id: nat)
    requires ServerOk(s) && AllEnabled(s, steps) && id in s.ttys && s.ttys[id].gone
    ensures var t := Serve(s, steps); id in t.ttys && t.ttys[id].gone && t.ttys[id].arrived == s.ttys[id].arrived
    decreases |steps|
  {
    hide ServerOk, Next, Enabled;
    if steps != [] {
      StepIsOk(s, steps[0]);
      GoneStep(s, steps[0], id);
      GoneIsSilent(Next(s, steps[0]), steps[1..], id);
    }
  }

  lemma GoneStep(s: Server, step: Step, id: nat)
    requires ServerOk(s) && Enabled(s, step) && id in s.ttys && s.ttys[id].gone
    ensures var t := Next(s, step); id in t.ttys && t.ttys[id].gone && t.ttys[id].arrived == s.ttys[id].arrived
  {
    hide Register, Unregister, SweptTerms, QueueOk, NoEmptyOwner, Lookup, Attached, Pop, Push;
    assert Lookup(s.terms, s.ttys[id].owner, id).None?;
  }

  // ---------------------------------------------------------------- closing and looking up

  /** Whether a step closes a terminal: its own close, or a sweep that finds it registered and expired. */
  predicate Closes(s: Server, step: Step, id: nat) {
    && id in s.ttys
    && match step
       case CloseTty(i) => i == id
       case Sweep(now) => Lookup(s.terms, s.ttys[id].owner, id).Some? && now - s.ttys[id].last > EXPIRY_SECONDS
       case _ => false
  }

  /** Whether some step of a run closes a terminal, at all or after its listener has been added. */
  predicate ClosedInRun(s: Server, steps: seq<Step>, id: nat, listening: bool)
    requires AllEnabled(s, steps)
    decreases |steps|
  {
    && steps != []
    && ((Closes(s, steps[0], id) && (listening ==> s.ttys[id].listening))
        || ClosedInRun(Next(s, steps[0]), steps[1..], id, listening))
  }

  lemma GoneByClosing(s: Server, step: Step, id: nat)
    requires ServerOk(s) && Enabled(s, step)
    ensures var t := Next(s, step);
            && (id in s.ttys ==> id in t.ttys)
            && (id in t.ttys ==>
                  (t.ttys[id].gone
                   <==> (id in s.ttys && s.ttys[id].gone) || (Closes(s, step, id) && s.ttys[id].listening)))
  {
    hide Register, Unregister, SweptTerms, QueueOk, NoEmptyOwner, Lookup, Attached, Pop, Push;
  }

  lemma {:induction false} GoneByRun(s: Server, steps: seq<Step>, id: nat)
    requires ServerOk(s) && AllEnabled(s, steps)
    ensures var t := Serve(s, steps);
            id in t.ttys ==> (t.ttys[id].gone <==> (id in s.ttys && s.ttys[id].gone) || ClosedInRun(s, steps, id, true))
    decreases |steps|
  {
    hide ServerOk, Next, Enabled, Closes;
    if steps != [] {
      StepIsOk(s, steps[0]);
      GoneByClosing(s, steps[0], id);
      GoneByRun(Next(s, steps[0]), steps[1..], id);
      if id in s.ttys {
        StaysMade(Next(s, steps[0]), steps[1..], id);
      } else {
        NotClosedYet(s, steps[0], id);
      }
    }
  }

  lemma NotClosedYet(s: Server, step: Step, id: nat)
    requires id !in s.ttys
    ensures !Closes(s, step, id)
  {
  }

  lemma {:induction false} StaysMade(s: Server, steps: seq<Step>, id: nat)
    requires ServerOk(s) && AllEnabled(s, steps) && id in s.ttys
    ensures id in Serve(s, steps).ttys
    decreases |steps|
  {
    hide ServerOk, Next, Enabled;
    if steps != [] {
      StepIsOk(s, steps[0]);
      GoneByClosing(s, steps[0], id);
      StaysMade(Next(s, steps[0]), steps[1..], id);
    }
  }

  /** A terminal is still found after a run if and only if every close of it came before its listener was added. */
  lemma FoundUnlessClosedListening(steps: seq<Step>, id: nat)
    requires AllEnabled(NOBODY, steps) && id in Serve(NOBODY, steps).ttys
    ensures var s := Serve(NOBODY, steps);
            Lookup(s.terms, s.ttys[id].owner, id).Some? <==> !ClosedInRun(NOBODY, steps, id, true)
  {
    hide Lookup;
    NobodyIsOk();
    RunIsOk(NOBODY, steps);
    GoneByRun(NOBODY, steps, id);
  }

  /** `TTY.create` adds the listener right after the registration. */
  predicate Created(steps: seq<Step>)
    decreases |steps|
  {
    steps != [] ==>
      if steps[0].Create? then |steps| >= 2 && steps[1] == Listen(steps[0].id) && Created(steps[2..])
      else Created(steps[1..])
  }

  predicate AllListening(s: Server) {
    forall i | i in s.ttys :: s.ttys[i].listening
  }

  lemma ListeningStays(s: Server, step: Step)
    requires Enabled(s, step) && !step.Create? && AllListening(s)
    ensures AllListening(Next(s, step))
  {
    hide Lookup, Register, Unregister, SweptTerms, Attached, Pop, Push;
  }

  lemma CreateListens(s: Server, owner: string, id: nat, now: int)
    requires AllListening(s) && id !in s.ttys
    ensures var t := Next(s, Create(owner, id, now)); Enabled(t, Listen(id)) && AllListening(Next(t, Listen(id)))
    ensures forall i :: !Closes(s, Create(owner, id, now), i) && !Closes(Next(s, Create(owner, id, now)), Listen(id), i)
  {
    hide Lookup, Register;
  }

  lemma {:induction false} ClosedMeansListening(s: Server, steps: seq<Step>, id: nat)
    requires AllEnabled(s, steps) && Created(steps) && AllListening(s)
    ensures ClosedInRun(s, steps, id, false) <==> ClosedInRun(s, steps, id, true)
    decreases |steps|
  {
    hide Next, Enabled, Closes;
    if steps != [] {
      var t, rest := Next(s, steps[0]), steps[1..];
      if steps[0].Create? {
        assert Enabled(s, steps[0]) && rest[0] == steps[1] && rest[1..] == steps[2..];
        EnabledCreate(s, steps[0]);
        CreateListens(s, steps[0].owner, steps[0].id, steps[0].now);
        ClosedMeansListening(Next(t, rest[0]), rest[1..], id);
        assert ClosedInRun(t, rest, id, false) <==> ClosedInRun(t, rest, id, true);
      } else {
        ListeningStays(s, steps[0]);
        ClosedMeansListening(t, rest, id);
        ClosesListening(s, steps[0], id);
      }
    }
  }

  lemma EnabledCreate(s: Server, step: Step)
    requires step.Create? && Enabled(s, step)
    ensures step.id !in s.ttys && step == Create(step.owner, step.id, step.now)
  {
  }

  lemma ClosesListening(s: Server, step: Step, id: nat)
    requires AllListening(s)
    ensures Closes(s, step, id) ==> s.ttys[id].listening
  {
  }

  /** So with terminals made by `TTY.create` a terminal is found if and only if it has never been closed. */
  lemma FoundUnlessClosed(steps: seq<Step>, id: nat)
    requires AllEnabled(NOBODY, steps) && Created(steps) && id in Serve(NOBODY, steps).ttys
    ensures var s := Serve(NOBODY, steps);
            Lookup(s.terms, s.ttys[id].owner, id).Some? <==> !ClosedInRun(NOBODY, steps, id, false)
  {
    hide Lookup, ClosedInRun, Created;
    FoundUnlessClosedListening(steps, id);
    ClosedMeansListening(NOBODY, steps, id);
  }

  // ---------------------------------------------------------------- what is accepted

  /**
   The input and the kills that a run accepts for a terminal: those that name it and its owner while it is registered.
   */
  function Accepted(s: Server, steps: seq<Step>, owner: string, id: nat): seq<Item>
    requires AllEnabled(s, steps)
    decreases |steps|
  {
    if steps == [] then []
    else
      var found := owner in s.terms && id in s.terms[owner];
      (match steps[0]
       case Input(user, i, text, _) => if found && user == owner && i == id then [Data(text)] else []
       case Kill(user, i) => if found && user == owner && i == id then [Eof] else []
       case _ => [])
      + Accepted(Next(s, steps[0]), steps[1..], owner, id)
  }

  /** What has arrived for a terminal is what was accepted for it, in order. */
  lemma {:induction false} ArrivedIsAccepted(s: Server, steps: seq<Step>, id: nat)
    requires ServerOk(s) && AllEnabled(s, steps) && id in s.ttys
    ensures id in Serve(s, steps).ttys
    ensures Serve(s, steps).ttys[id].arrived == s.ttys[id].arrived + Accepted(s, steps, s.ttys[id].owner, id)
    ensures Serve(s, steps).ttys[id].owner == s.ttys[id].owner
    decreases |steps|
  {
    hide ServerOk, Enabled, Next;
    if steps == [] {
      assert s.ttys[id].arrived + [] == s.ttys[id].arrived;
    } else {
      StepIsOk(s, steps[0]);
      AcceptsStep(s, steps[0], id);
      ArrivedIsAccepted(Next(s, steps[0]), steps[1..], id);
    }
  }

  lemma AcceptsStep(s: Server, step: Step, id: nat)
    requires ServerOk(s) && Enabled(s, step) && id in s.ttys
    ensures var t, owner := Next(s, step), s.ttys[id].owner;
            var found := owner in s.terms && id in s.terms[owner];
            && id in t.ttys && t.ttys[id].owner == owner
            && t.ttys[id].arrived
               == s.ttys[id].arrived
                  + (match step
                     case Input(user, i, text, _) => if found && user == owner && i == id then [Data(text)] else []
                     case Kill(user, i) => if found && user == owner && i == id then [Eof] else []
                     case _ => [])
  {
    hide Register, Unregister, SweptTerms, QueueOk, NoEmptyOwner, Attached, Pop, Push;
  }

  /**
   So a new terminal's channel is sent exactly the input accepted before the first kill, once its shell has opened.
   */
  lemma SentIsAccepted(s: Server, owner: string, id: nat, now: int, steps: seq<Step>)
    requires ServerOk(s) && id !in s.ttys && AllEnabled(Next(s, Create(owner, id, now)), steps)
    ensures var made := Next(s, Create(owner, id, now));
            var t, items := Serve(made, steps), Accepted(made, steps, owner, id);
            && id in t.ttys
            && t.ttys[id].queue.log
               == if !t.ttys[id].attached then []
                  else SentTo(id, Before(items)) + (if Eof in items then [CloseCalled] else [])
  {
    hide ServerOk, Next, Enabled;
    MadeIs(s, owner, id, now);
    var made := Next(s, Create(owner, id, now));
    StepIsOk(s, Create(owner, id, now));
    ArrivedIsAccepted(made, steps, id);
    RunIsOk(made, steps);
    assert [] + Accepted(made, steps, owner, id) == Accepted(made, steps, owner, id);
    QueueIs(Serve(made, steps), id);
  }

  lemma MadeIs(s: Server, owner: string, id: nat, now: int)
    requires id !in s.ttys
    ensures Enabled(s, Create(owner, id, now))
    ensures var t := Next(s, Create(owner, id, now));
            id in t.ttys && t.ttys[id].arrived == [] && t.ttys[id].owner == owner
  {
    hide Register;
  }

  lemma QueueIs(s: Server, id: nat)
    requires ServerOk(s) && id in s.ttys
    ensures QueueOk(id, s.ttys[id])
  {
  }

  // ---------------------------------------------------------------- the time of last use

  /** Input that a terminal accepts renews its time of last use, if its channel is open and no kill came before. */
  lemma InputRenews(s: Server, id: nat, text: string, now: int)
    requires ServerOk(s) && id in s.ttys && !s.ttys[id].gone
    ensures var u, t := s.ttys[id], Next(s, Input(s.ttys[id].owner, id, text, now));
            && id in t.ttys
            && t.ttys[id].last == if u.attached && Eof !in u.arrived then now else u.last
  {
    hide Attached, Detached, Push, SendsMore, NoEmptyOwner;
    var u := s.ttys[id];
    assert Lookup(s.terms, u.owner, id) == Some(id) && QueueOk(id, u);
    PushAttached(id, u.arrived, Data(text));
    SendsOneMore(id, u.arrived, text);
  }

  lemma SendsOneMore(c: nat, arrived: seq<Item>, text: string)
    ensures SendsMore(Attached(c, arrived).log, Attached(c, arrived + [Data(text)]).log) <==> Eof !in arrived
    ensures !SendsMore(Detached(arrived).log, Detached(arrived + [Data(text)]).log)
  {
    BeforeAppend(arrived, Data(text));
    var log, more := Attached(c, arrived).log, Attached(c, arrived + [Data(text)]).log;
    if Eof !in arrived {
      assert more[|log|] == Sent(c, text);
    }
  }

  /** Opening the shell renews it if input was waiting that no kill precedes. */
  lemma OpeningRenews(s: Server, id: nat, now: int)
    requires ServerOk(s) && id in s.ttys && !s.ttys[id].attached
    ensures var u, t := s.ttys[id], Next(s, OpenShell(id, now));
            && id in t.ttys
            && t.ttys[id].last == if u.arrived != [] && u.arrived[0].Data? then now else u.last
  {
    hide Pop, SendsMore, NoEmptyOwner;
    var u := s.ttys[id];
    assert QueueOk(id, u);
    AttachLate(u.arrived, id);
    SendsWaiting(id, u.arrived);
  }

  lemma SendsWaiting(c: nat, arrived: seq<Item>)
    ensures SendsMore([], Attached(c, arrived).log) <==> arrived != [] && arrived[0].Data?
  {
    if arrived != [] && arrived[0].Data? {
      assert Attached(c, arrived).log[0] == Sent(c, arrived[0].text);
    }
  }

  /** A sweep takes off the terminals with a listener that were last used more than half an hour ago, and no others. */
  lemma SweepTakes(s: Server, owner: string, id: nat, now: int)
    requires ServerOk(s)
    ensures var t := Next(s, Sweep(now));
            Lookup(t.terms, owner, id).Some?
            <==> Lookup(s.terms, owner, id).Some?
                 && id in s.ttys && !(s.ttys[id].listening && now - s.ttys[id].last > 1800)
  {
    hide QueueOk, NoEmptyOwner, Lookup, SweptTerms;
    SweepIsFilter(s, now);
  }
}
