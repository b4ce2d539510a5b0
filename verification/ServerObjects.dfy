/** The objects of the server under the steps of `Servers`: what each method does to them is what `Next` says. */
module ServerObjects {
  import opened Options
  import opened CloseableQueues
  import opened Registries
  import opened Servers

  /** One terminal object and its value. */
  ghost predicate Shows(t: Tty, id: nat, v: Terminal)
    reads t, t.write
  {
    && t.id == id && t.owner == v.owner && t.last == v.last
    && (t.listeners > 0 <==> v.listening)
    && t.write.Abs() == v.queue
  }

  function Queues(objects: map<nat, Tty>): set<CloseableQueue> {
    set i | i in objects :: objects[i].write
  }

  /** The registry and all terminal objects ever made, by their ids, stand for a server; no two share a queue. */
  ghost predicate Represents(registry: Registry, objects: map<nat, Tty>, s: Server)
    reads registry, objects.Values, Queues(objects)
  {
    && registry.Ok()
    && objects.Keys == s.ttys.Keys
    && (forall i | i in objects :: Shows(objects[i], i, s.ttys[i]))
    && (forall i, j | i in objects && j in objects && i != j :: objects[i].write != objects[j].write)
    && (forall o, i :: Lookup(registry.terms, o, i) == Held(objects, Lookup(s.terms, o, i)))
  }

  /** The object with the registered id. */
  ghost function Held(objects: map<nat, Tty>, id: Option<nat>): Option<Tty> {
    if id.Some? && id.value in objects then Some(objects[id.value]) else None
  }

  lemma HeldIs(registry: Registry, objects: map<nat, Tty>, s: Server, owner: string, id: nat)
    requires Represents(registry, objects, s) && ServerOk(s)
    ensures Lookup(s.terms, owner, id).Some? ==>
              && Lookup(s.terms, owner, id) == Some(id) && id in objects
              && Lookup(registry.terms, owner, id) == Some(objects[id])
    ensures Lookup(s.terms, owner, id).None? ==> Lookup(registry.terms, owner, id).None?
  {
  }

  lemma EmptyRepresents(registry: Registry)
    requires registry.Ok() && forall o, i :: Lookup(registry.terms, o, i) == None
    ensures Represents(registry, map[], NOBODY)
  {
  }

  /** Two steps in a row, as `TTY.create` makes them. */
  function CreatedAndListening(s: Server, owner: string, id: nat, now: int): Server
    requires id !in s.ttys
  {
    Next(Next(s, Step.Create(owner, id, now)), Step.Listen(id))
  }

  method Create(registry: Registry, ghost objects: map<nat, Tty>, ghost s: Server, owner: string, id: nat, now: int)
    returns (tty: Tty)
    requires Represents(registry, objects, s) && ServerOk(s) && id !in s.ttys
    modifies registry
    ensures fresh(tty) && fresh(tty.write)
    ensures Represents(registry, objects[id := tty], CreatedAndListening(s, owner, id, now))
  {
    hide NoEmptyOwner, Lookup, Register, CreatedAndListening, QueueOk;
    RegisterIsFlat(s.terms, owner, id, id);
    CreatedIs(s, owner, id, now);
    tty := registry.Create(owner, id, now);
    assert forall i | i in objects :: objects[i] != tty && objects[i].write != tty.write;
  }

  lemma CreatedIs(s: Server, owner: string, id: nat, now: int)
    requires id !in s.ttys
    ensures CreatedAndListening(s, owner, id, now)
         == Server(Register(s.terms, owner, id, id),
                   s.ttys[id := Terminal(owner, now, true, false, false, [], EMPTY)])
  {
    hide Register;
  }

  method CloseTty(registry: Registry, ghost objects: map<nat, Tty>, ghost s: Server, tty: Tty)
    requires Represents(registry, objects, s) && ServerOk(s) && tty.id in objects && objects[tty.id] == tty
    modifies registry
    ensures Represents(registry, objects, Next(s, Step.CloseTty(tty.id)))
  {
    hide NoEmptyOwner, Lookup, Unregister, Shows;
    UnregisterIsFlat(s.terms, tty.owner, tty.id);
    ShowsOwner(tty, tty.id, s.ttys[tty.id]);
    registry.Close(tty);
    ShowsGone(tty, tty.id, s.ttys[tty.id], Next(s, Step.CloseTty(tty.id)).ttys[tty.id]);
  }

  lemma ShowsOwner(t: Tty, id: nat, v: Terminal)
    requires Shows(t, id, v)
    ensures t.id == id && t.owner == v.owner && (t.listeners > 0 <==> v.listening)
  {
  }

  method Sweep(registry: Registry, ghost objects: map<nat, Tty>, ghost s: Server, now: int)
    requires Represents(registry, objects, s) && ServerOk(s)
    modifies registry
    ensures Represents(registry, objects, Next(s, Step.Sweep(now)))
  {
    hide NoEmptyOwner, Lookup, SweptTerms, Shows, Next;
    SweepIs(s, now);
    SweptEntries(registry, objects, s, now);
    registry.Sweep(now);
    ghost var t := Next(s, Step.Sweep(now));
    forall i | i in objects
      ensures Shows(objects[i], i, t.ttys[i])
    {
      ShowsGone(objects[i], i, s.ttys[i], t.ttys[i]);
    }
  }

  lemma ShowsGone(t: Tty, id: nat, v: Terminal, w: Terminal)
    requires w == v.(gone := w.gone)
    ensures Shows(t, id, v) == Shows(t, id, w)
  {
  }

  lemma SweepIs(s: Server, now: int)
    ensures var t := Next(s, Step.Sweep(now));
            && t.terms == SweptTerms(s, now) && t.ttys.Keys == s.ttys.Keys
            && forall i | i in s.ttys :: t.ttys[i] == s.ttys[i].(gone := t.ttys[i].gone)
  {
    hide Lookup, SweptTerms;
  }

  /** An object is dropped by a sweep if and only if its value expires. */
  lemma SweptEntries(registry: Registry, objects: map<nat, Tty>, s: Server, now: int)
    requires Represents(registry, objects, s) && ServerOk(s)
    ensures forall o, i :: Swept(Lookup(registry.terms, o, i), now) == Held(objects, Lookup(SweptTerms(s, now), o, i))
  {
    hide NoEmptyOwner, SweptTerms, Lookup;
    SweepIsFilter(s, now);
    forall o, i
      ensures Swept(Lookup(registry.terms, o, i), now) == Held(objects, Lookup(SweptTerms(s, now), o, i))
    {
      HeldIs(registry, objects, s, o, i);
    }
  }

  method Input(
    registry: Registry, ghost objects: map<nat, Tty>, ghost s: Server, user: string, id: nat, text: string, now: int)
    returns (error: Option<string>)
    requires Represents(registry, objects, s) && ServerOk(s)
    modifies Reached(registry, user, id), ReachedQueue(registry, user, id)
    ensures Represents(registry, objects, Next(s, Step.Input(user, id, text, now)))
    ensures error.Some? <==> Lookup(s.terms, user, id).None?
  {
    hide Lookup, Push, NoEmptyOwner, QueueOk;
    HeldIs(registry, objects, s, user, id);
    error := HandleInput(registry, user, id, text, now);
  }

  /** A close sends nothing, so it does not keep a terminal from expiring. */
  lemma KillIs(s: Server, user: string, id: nat)
    requires ServerOk(s)
    ensures var t, found := Next(s, Step.Kill(user, id)), Lookup(s.terms, user, id);
            && (found.None? ==> t == s)
            && (found.Some? ==>
                  && found.value == id && id in s.ttys && t.terms == s.terms
                  && t.ttys == s.ttys[id := s.ttys[id].(queue := Push(s.ttys[id].queue, Eof),
                                                        arrived := s.ttys[id].arrived + [Eof])])
  {
    hide Lookup, Push;
    if Lookup(s.terms, user, id).Some? {
      EofSendsNothing(id, s.ttys[id]);
    }
  }

  lemma EofSendsNothing(id: nat, t: Terminal)
    requires QueueOk(id, t)
    ensures !SendsMore(t.queue.log, Push(t.queue, Eof).log)
  {
    hide Push;
    PushAttached(id, t.arrived, Eof);
    BeforeAppend(t.arrived, Eof);
  }

  method Kill(registry: Registry, ghost objects: map<nat, Tty>, ghost s: Server, user: string, id: nat)
    requires Represents(registry, objects, s) && ServerOk(s)
    modifies ReachedQueue(registry, user, id)
    ensures Represents(registry, objects, Next(s, Step.Kill(user, id)))
  {
    hide Lookup, Push, Next, NoEmptyOwner, QueueOk;
    HeldIs(registry, objects, s, user, id);
    KillIs(s, user, id);
    HandleKill(registry, user, id);
  }

  method OpenShell(registry: Registry, ghost objects: map<nat, Tty>, ghost s: Server, tty: Tty, now: int)
    requires Represents(registry, objects, s) && ServerOk(s)
    requires tty.id in objects && objects[tty.id] == tty && !s.ttys[tty.id].attached
    modifies tty`last, tty.write
    ensures Represents(registry, objects, Next(s, Step.OpenShell(tty.id, now)))
  {
    hide Lookup, Pop, NoEmptyOwner, QueueOk;
    tty.SetWriteCallbacks(now);
  }
}
