/**
 The registry of terminals (lib/tangle/tty.rb): a hash of hashes, owner and then id, that behaves as one flat map.
 Terminals come from lib/tangle/ssh/base.rb.
 */
module Registries {
  import opened Options
  import opened CloseableQueues

  type Terms<V> = map<string, map<nat, V>>

  const EXPIRY_SECONDS := 30 * 60

  // ---------------------------------------------------------------- hash of hashes

  function Lookup<V>(terms: Terms<V>, owner: string, id: nat): Option<V> {
    if owner in terms && id in terms[owner] then Some(terms[owner][id]) else None
  }

  function Register<V>(terms: Terms<V>, owner: string, id: nat, v: V): Terms<V> {
    terms[owner := (if owner in terms then terms[owner] else map[])[id := v]]
  }

  function Unregister<V>(terms: Terms<V>, owner: string, id: nat): Terms<V> {
    if owner !in terms then terms
    else
      var left := terms[owner] - {id};
      if left == map[] then terms - {owner} else terms[owner := left]
  }

  ghost predicate NoEmptyOwner<V>(terms: Terms<V>) {
    forall o | o in terms :: terms[o] != map[]
  }

  /** Registering adds one terminal to the flat map, and no owner is left without terminals. */
  lemma RegisterIsFlat<V>(terms: Terms<V>, owner: string, id: nat, v: V)
    requires NoEmptyOwner(terms)
    ensures var r := Register(terms, owner, id, v);
            && NoEmptyOwner(r)
            && forall o, i :: Lookup(r, o, i) == if o == owner && i == id then Some(v) else Lookup(terms, o, i)
  {
    assert id in Register(terms, owner, id, v)[owner];
  }

  /** So does unregistering take one away. */
  lemma UnregisterIsFlat<V>(terms: Terms<V>, owner: string, id: nat)
    requires NoEmptyOwner(terms)
    ensures var r := Unregister(terms, owner, id);
            && NoEmptyOwner(r)
            && forall o, i :: Lookup(r, o, i) == if o == owner && i == id then None else Lookup(terms, o, i)
  {
    if owner in terms {
      var left := terms[owner] - {id};
      assert forall i | i in terms[owner] && i != id :: i in left;
    }
  }

  // ---------------------------------------------------------------- counting

  type Key = (string, nat)

  /** The keys of the flat map. */
  ghost function Keys<V>(terms: Terms<V>): (ks: set<Key>)
    ensures forall k: Key :: k in ks <==> k.0 in terms && k.1 in terms[k.0]
  {
    set o, i | o in terms && i in terms[o] :: (o, i)
  }

  ghost function Pairs(owner: string, ids: set<nat>): set<Key> {
    set i | i in ids :: (owner, i)
  }

  lemma {:induction false} PairsCount(owner: string, ids: set<nat>)
    ensures |Pairs(owner, ids)| == |ids|
    decreases |ids|
  {
    if ids == {} {
      assert Pairs(owner, ids) == {};
    } else {
      var i :| i in ids;
      PairsCount(owner, ids - {i});
      assert Pairs(owner, ids) == Pairs(owner, ids - {i}) + {(owner, i)};
    }
  }

  lemma KeysWithout<V>(terms: Terms<V>, owner: string)
    requires owner in terms
    ensures |Keys(terms)| == |Keys(terms - {owner})| + |terms[owner]|
  {
    hide Keys;
    var rest, all, mine := Keys(terms - {owner}), Keys(terms), terms[owner].Keys;
    PairsCount(owner, mine);
    SplitKeys(all, rest, owner, mine);
  }

  lemma SplitKeys(all: set<Key>, rest: set<Key>, owner: string, mine: set<nat>)
    requires forall k: Key :: k in rest <==> k in all && k.0 != owner
    requires forall k: Key | k.0 == owner :: k in all <==> k.1 in mine
    ensures |all| == |rest| + |Pairs(owner, mine)|
  {
    forall k: Key
      ensures k in all <==> k in rest || k in Pairs(owner, mine)
      ensures !(k in rest && k in Pairs(owner, mine))
    {
      assert k == (k.0, k.1);
    }
    assert all == rest + Pairs(owner, mine);
  }

  predicate AtMostOneEach<V>(terms: Terms<V>) {
    forall o | o in terms :: |terms[o]| == 1
  }

  /** `TTY.count` counts owners, which is the number of terminals if and only if nobody has two. */
  lemma {:induction false} CountsOwners<V>(terms: Terms<V>)
    requires NoEmptyOwner(terms)
    ensures |terms| <= |Keys(terms)|
    ensures |terms| == |Keys(terms)| <==> AtMostOneEach(terms)
    decreases |terms|
  {
    if terms == map[] {
      assert Keys(terms) == {};
    } else {
      var owner :| owner in terms;
      var rest := terms - {owner};
      KeysWithout(terms, owner);
      assert rest.Keys == terms.Keys - {owner};
      assert |terms| == |rest| + 1;
      CountsOwners(rest);
      assert AtMostOneEach(terms) <==> |terms[owner]| == 1 && AtMostOneEach(rest) by {
        assert forall o | o in terms :: o == owner || (o in rest && rest[o] == terms[o]);
      }
    }
  }

  // ---------------------------------------------------------------- the registry object

  /** A terminal: who owns it, when it last passed on input, and how many listeners take it off the registry. */
  class Tty {
    const owner: string
    const id: nat
    const write: CloseableQueue
    var last: int
    var listeners: nat

    constructor (owner: string, id: nat, now: int)
      ensures this.owner == owner && this.id == id && last == now && listeners == 0
      ensures fresh(write) && write.Abs() == EMPTY
    {
      this.owner, this.id, last, listeners := owner, id, now, 0;
      write := new CloseableQueue();
    }

    predicate Expired(now: int)
      reads this
    {
      now - last > EXPIRY_SECONDS
    }

    /** Input for the terminal. The callback that passes it on also keeps the terminal from expiring. */
    method Feed(text: string, now: int)
      modifies this`last, write
      ensures write.Abs() == Push(old(write.Abs()), Data(text))
      ensures last == if SendsMore(old(write.log), write.log) then now else old(last)
    {
      var passed := write.PushItem(Data(text));
      if passed {
        last := now;
      }
    }

    /** set_write_callbacks, when the shell has opened. */
    method SetWriteCallbacks(now: int)
      modifies this`last, write
      ensures write.Abs() == Pop(old(write.Abs()).(hasClose := true), id)
      ensures last == if SendsMore(old(write.log), write.log) then now else old(last)
    {
      write.OnClose();
      var passed := write.OnData(id);
      if passed {
        last := now;
      }
    }

    /** on_close, with the block that deletes the terminal. */
    method OnClose()
      modifies this`listeners
      ensures listeners == old(listeners) + 1
    {
      listeners := listeners + 1;
    }
  }

  /** Closing takes a terminal off the registry if its listener has been added. */
  predicate Dropped(tty: Tty, now: int)
    reads tty
  {
    tty.Expired(now) && tty.listeners > 0
  }

  /** What a sweep makes of one entry. */
  function Swept(entry: Option<Tty>, now: int): Option<Tty>
    reads if entry.Some? then {entry.value} else {}
  {
    if entry.Some? && Dropped(entry.value, now) then None else entry
  }

  /** How many kills a sweep publishes for one entry. */
  function SweepKills(entry: Option<Tty>, now: int): nat
    reads if entry.Some? then {entry.value} else {}
  {
    if entry.Some? && entry.value.Expired(now) then 1 else 0
  }

  class Registry {
    var terms: Terms<Tty>

    var timerAdded: bool

    /** The kill messages published so far, by owner and id. */
    var kills: multiset<Key>

    ghost predicate Ok()
      reads this
    {
      && NoEmptyOwner(terms)
      && forall o, i | Lookup(terms, o, i).Some? ::
           Lookup(terms, o, i).value.owner == o && Lookup(terms, o, i).value.id == i
    }

    constructor ()
      ensures Ok() && !timerAdded && kills == multiset{} && forall o, i :: Lookup(terms, o, i) == None
    {
      terms, timerAdded, kills := map[], false, multiset{};
    }

    /** TTY.create up to the opening of the connection. */
    method Create(owner: string, id: nat, now: int) returns (tty: Tty)
      requires Ok()
      modifies this
      ensures Ok() && timerAdded && kills == old(kills)
      ensures fresh(tty) && tty.owner == owner && tty.id == id && tty.last == now && tty.listeners == 1
      ensures fresh(tty.write) && tty.write.Abs() == EMPTY
      ensures forall o, i ::
                Lookup(terms, o, i)
                == if o == owner && i == id then Some(tty) else Lookup(old(terms), o, i)
    {
      if !timerAdded {
        timerAdded := true;
      }
      tty := new Tty(owner, id, now);
      Add(tty);
      tty.OnClose();
    }

    /** TTY[owner, id] */
    method Get(owner: string, id: nat) returns (tty: Option<Tty>)
      ensures tty == Lookup(terms, owner, id)
    {
      if owner in terms && id in terms[owner] {
        tty := Some(terms[owner][id]);
      } else {
        tty := None;
      }
    }

    /** TTY << tty */
    method Add(tty: Tty)
      requires Ok()
      modifies this
      ensures Ok() && kills == old(kills) && timerAdded == old(timerAdded)
      ensures forall o, i ::
                Lookup(terms, o, i)
                == if o == tty.owner && i == tty.id then Some(tty) else Lookup(old(terms), o, i)
    {
      RegisterIsFlat(terms, tty.owner, tty.id, tty);
      ghost var was := terms;
      if tty.owner !in terms {
        terms := terms[tty.owner := map[]];
      }
      var ttys: map<nat, Tty> := terms[tty.owner];
      ttys := ttys[tty.id := tty];
      terms := terms[tty.owner := ttys];
      assert terms == Register(was, tty.owner, tty.id, tty);
    }

    /** TTY.delete(tty) */
    method Delete(tty: Tty)
      requires Ok()
      modifies this
      ensures Ok() && kills == old(kills) && timerAdded == old(timerAdded)
      ensures forall o, i ::
                Lookup(terms, o, i)
                == if o == tty.owner && i == tty.id then None else Lookup(old(terms), o, i)
    {
      UnregisterIsFlat(terms, tty.owner, tty.id);
      ghost var was := terms;
      if tty.owner in terms {
        var ttys: map<nat, Tty> := terms[tty.owner];
        ttys := ttys - {tty.id};
        terms := terms[tty.owner := ttys];
        if terms[tty.owner] == map[] {
          terms := terms - {tty.owner};
        }
      }
      assert terms == Unregister(was, tty.owner, tty.id);
    }

    /** TTY.count */
    method Count() returns (n: nat)
      requires Ok()
      ensures n <= |Keys(terms)| && (n == |Keys(terms)| <==> AtMostOneEach(terms))
    {
      CountsOwners(terms);
      n := |terms|;
    }

    /** `close` of a terminal: its listeners delete it, and a kill is published. */
    method Close(tty: Tty)
      requires Ok()
      modifies this
      ensures Ok() && kills == old(kills) + multiset{(tty.owner, tty.id)}
      ensures forall o, i ::
                Lookup(terms, o, i)
                == if tty.listeners > 0 && o == tty.owner && i == tty.id then None else Lookup(old(terms), o, i)
    {
      hide Lookup;
      var n := 0;
      while n < tty.listeners
        invariant 0 <= n <= tty.listeners
        invariant Ok() && kills == old(kills)
        invariant forall o, i :: Lookup(terms, o, i)
                    == if n > 0 && o == tty.owner && i == tty.id then None else Lookup(old(terms), o, i)
      {
        Delete(tty);
        n := n + 1;
      }
      kills := kills + multiset{(tty.owner, tty.id)};
    }

    /** The terminals of one owner, which are deleted while they are iterated over. */
    method SweepOwner(owner: string, now: int)
      requires Ok() && owner in terms
      modifies this
      ensures Ok()
      ensures forall o, i ::
                Lookup(terms, o, i)
                == if o == owner then Swept(Lookup(old(terms), o, i), now) else Lookup(old(terms), o, i)
      ensures forall o, i :: kills[(o, i)]
                == old(kills)[(o, i)] + (if o == owner then SweepKills(Lookup(old(terms), o, i), now) else 0)
    {
      hide NoEmptyOwner;
      var ids := terms[owner].Keys;
      while ids != {}
        invariant Ok() && ids <= old(terms)[owner].Keys
        invariant forall o, i :: Lookup(terms, o, i)
                    == if o == owner && i !in ids then Swept(Lookup(old(terms), o, i), now)
                       else Lookup(old(terms), o, i)
        invariant forall o, i :: kills[(o, i)]
                    == old(kills)[(o, i)]
                       + (if o == owner && i !in ids then SweepKills(Lookup(old(terms), o, i), now) else 0)
      {
        var id :| id in ids;
        ids := ids - {id};
        assert Lookup(terms, owner, id) == Lookup(old(terms), owner, id);
        var tty := terms[owner][id];
        if tty.Expired(now) {
          Close(tty);
        }
      }
    }

    /**
     The expiry timer: every terminal is visited once, expired ones are closed and thereby deleted from the very maps
     being iterated over. Exactly the expired terminals get a kill, each one once, and exactly they are gone.
     */
    method Sweep(now: int)
      requires Ok()
      modifies this
      ensures Ok()
      ensures forall o, i :: Lookup(terms, o, i) == Swept(Lookup(old(terms), o, i), now)
      ensures forall o, i :: kills[(o, i)] == old(kills)[(o, i)] + SweepKills(Lookup(old(terms), o, i), now)
    {
      hide NoEmptyOwner;
      var owners := terms.Keys;
      while owners != {}
        invariant Ok() && owners <= old(terms).Keys
        invariant forall o, i :: Lookup(terms, o, i)
                    == if o !in owners then Swept(Lookup(old(terms), o, i), now) else Lookup(old(terms), o, i)
        invariant forall o, i :: kills[(o, i)]
                    == old(kills)[(o, i)] + (if o !in owners then SweepKills(Lookup(old(terms), o, i), now) else 0)
      {
        var owner :| owner in owners;
        owners := owners - {owner};
        if owner in terms {
          SweepOwner(owner, now);
        }
      }
    }
  }
}
