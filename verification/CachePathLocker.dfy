/** The locker and its entries as the objects the program mutates, one method per
    atomic step of acquire and of the release it returns. */
module CachePathLocker {
  import opened KeyedLock

  /** A lock entry.  The channel has one slot, so it is a flag: does it hold the token? */
  class Gate {
    var token: bool
    var refs: int
    ghost const id: nat

    constructor (ghost id: nat)
      ensures this.id == id && token && refs == 0
    {
      this.id, token, refs := id, true, 0;
    }
  }

  /** The release closure and its once. */
  class Closure {
    var ran: bool

    constructor ()
      ensures !ran
    {
      ran := false;
    }
  }

  class CachePathLocker {
    var entries: map<string, Gate>
    ghost var made: map<nat, Gate>
    ghost var tickets: map<nat, Ticket>

    ghost predicate Valid()
      reads this, made.Values
    {
      && (forall e :: e in made ==> made[e].id == e)
      && (forall key :: key in entries ==> entries[key].id in made && made[entries[key].id] == entries[key])
    }

    ghost function State(): Locker
      reads this, made.Values
    {
      Locker(Ids(), Heap(), tickets)
    }

    ghost function Ids(): map<string, nat>
      reads this
    {
      map key | key in entries :: entries[key].id
    }

    ghost function Heap(): map<nat, Entry>
      reads this, made.Values
    {
      map e | e in made :: Entry(made[e].token, made[e].refs)
    }

    /** The gate a ticket was given. */
    ghost predicate Given(gate: Gate, t: nat, key: string)
      reads this
    {
      t in tickets && tickets[t].key == key && tickets[t].entry == gate.id && gate.id in made && made[gate.id] == gate
    }

    constructor ()
      ensures Valid() && State() == EMPTY
    {
      entries, made, tickets := map[], map[], map[];
    }

    /** The key's entry, created with its token when the map has none. */
    method FindOrCreate(key: string, ghost number: nat) returns (gate: Gate)
      requires Valid() && number !in made
      modifies this`entries, this`made
      ensures Valid() && key in entries && entries[key] == gate && (gate in old(made.Values) || fresh(gate))
      ensures var s := old(State());
              State() == if key in s.entries then s
                else s.(entries := s.entries[key := number], heap := s.heap[number := Entry(true, 0)])
    {
      if key in entries {
        gate := entries[key];
      } else {
        gate := Create(key, number);
      }
    }

    method Make(ghost number: nat) returns (gate: Gate)
      requires Valid() && number !in made
      modifies this`made
      ensures Valid() && fresh(gate) && made == old(made)[number := gate] && gate.id == number
      ensures Heap() == old(Heap())[number := Entry(true, 0)]
    {
      gate := new Gate(number);
      made := made[number := gate];
    }

    method Create(key: string, ghost number: nat) returns (gate: Gate)
      requires Valid() && number !in made && key !in entries
      modifies this`entries, this`made
      ensures Valid() && key in entries && entries[key] == gate && fresh(gate)
      ensures Ids() == old(Ids())[key := number] && Heap() == old(Heap())[number := Entry(true, 0)]
    {
      gate := Make(number);
      entries := entries[key := gate];
    }

    /** Under the mutex: look the key's entry up, or create it with its token, and count this ticket. */
    method Enter(key: string, ghost t: nat, ghost number: nat) returns (gate: Gate)
      requires Valid() && t !in tickets && number !in made
      modifies this, made.Values
      ensures Valid() && Given(gate, t, key)
      ensures Next(old(State()), KeyedLock.Step.Enter(t, key), State())
    {
      ghost var was := State();
      gate := FindOrCreate(key, number);
      ghost var found := State();
      Count(gate, key, t);
      EnterIsTwoParts(was, found, State(), t, key, number);
    }

    static lemma EnterIsTwoParts(was: Locker, found: Locker, now: Locker, t: nat, key: string, number: nat)
      requires number !in was.heap && t !in was.tickets && (key in was.entries ==> was.entries[key] in was.heap)
      requires found == if key in was.entries then was
        else was.(entries := was.entries[key := number], heap := was.heap[number := Entry(true, 0)])
      requires var e := found.entries[key];
               now == found.(heap := found.heap[e := Entry(found.heap[e].token, found.heap[e].refs + 1)],
                 tickets := found.tickets[t := Ticket(key, e, Waiting, false)])
      ensures Next(was, KeyedLock.Step.Enter(t, key), now)
    {
      assert now == Entering(was, t, key, number);
    }

    /** refs counts one more ticket. */
    method Count(gate: Gate, key: string, ghost t: nat)
      requires Valid() && gate.id in made && made[gate.id] == gate
      modifies this`tickets, gate`refs
      ensures Valid() && Given(gate, t, key)
      ensures var s, e := old(State()), gate.id;
              State() == s.(heap := s.heap[e := Entry(s.heap[e].token, s.heap[e].refs + 1)],
                tickets := s.tickets[t := Ticket(key, e, Waiting, false)])
    {
      gate.refs := gate.refs + 1;
      tickets := tickets[t := Ticket(key, gate.id, Waiting, false)];
    }

    /** The select receives the token, and acquire makes the release closure; it waits while
        the channel is empty. */
    method Take(gate: Gate, key: string, ghost t: nat) returns (release: Closure)
      requires Valid() && Given(gate, t, key) && tickets[t].phase == Waiting && !tickets[t].released && gate.token
      modifies this`tickets, gate`token
      ensures Valid() && Given(gate, t, key) && Next(old(State()), KeyedLock.Step.Take(t), State())
      ensures fresh(release) && release.ran == tickets[t].released
    {
      gate.token := false;
      tickets := tickets[t := tickets[t].(phase := Holding)];
      release := new Closure();
    }

    /** The send inside the once. */
    method Send(gate: Gate, key: string, ghost t: nat)
      requires Valid() && Given(gate, t, key)
      modifies this`tickets, gate`token
      ensures Valid() && Given(gate, t, key) && State() == Returned(old(State()), t) && tickets[t].released
    {
      gate.token := true;
      tickets := tickets[t := tickets[t].(phase := Returning, released := true)];
    }

    static lemma ReleaseSteps(s: Locker, t: nat)
      requires Sound(s) && HasRelease(s, t)
      ensures Next(s, Release(t), if s.tickets[t].released then s else Returned(s, t))
    {
      if !s.tickets[t].released {
        HolderHasToken(s, t);
      }
    }

    /** A call of the release closure: the once lets the first one send the token back, and
        there is room for it. */
    method PutBack(release: Closure, gate: Gate, key: string, ghost t: nat) returns (sent: bool)
      requires Valid() && Sound(State()) && Given(gate, t, key) && HasRelease(State(), t)
        && release.ran == tickets[t].released
      modifies this`tickets, gate`token, release
      ensures Valid() && Given(gate, t, key) && Next(old(State()), Release(t), State())
      ensures release.ran && tickets[t].released && sent == !old(release.ran)
      ensures !sent ==> State() == old(State())
    {
      hide Sound, Next, HasRelease;
      ReleaseSteps(State(), t);
      if release.ran {
        return false;
      }
      release.ran := true;
      Send(gate, key, t);
      return true;
    }

    /** Under the mutex: uncount this ticket and delete the key's entry at zero. */
    method Leave(gate: Gate, key: string, ghost t: nat)
      requires Valid() && Given(gate, t, key) && tickets[t].phase in {Cancelled, Returning}
      modifies this, gate`refs
      ensures Valid() && Next(old(State()), KeyedLock.Step.Leave(t), State())
    {
      assert gate.id in Heap();
      hide Next, Heap, Ids;
      ghost var was := State();
      Uncount(gate, key, t);
      if gate.refs == 0 {
        Forget(key);
      }
      tickets := tickets[t := tickets[t].(phase := Gone)];
      LeaveIsTwoParts(was, State(), t);
    }

    method Forget(key: string)
      requires Valid()
      modifies this`entries
      ensures Valid() && Ids() == old(Ids()) - {key}
    {
      entries := entries - {key};
    }

    /** refs counts one ticket less. */
    method Uncount(gate: Gate, key: string, ghost t: nat)
      requires Valid() && Given(gate, t, key)
      modifies gate`refs
      ensures Valid() && gate.refs == old(gate.refs) - 1
      ensures var h, e := old(Heap()), gate.id; Heap() == h[e := Entry(h[e].token, h[e].refs - 1)]
    {
      gate.refs := gate.refs - 1;
    }

    static lemma LeaveIsTwoParts(was: Locker, now: Locker, t: nat)
      requires InPhase(was, t, Cancelled) || InPhase(was, t, Returning)
      requires var e := was.tickets[t].entry;
               var refs := was.heap[e].refs - 1;
               now == Locker(if refs == 0 then was.entries - {was.tickets[t].key} else was.entries,
                             was.heap[e := Entry(was.heap[e].token, refs)],
                             was.tickets[t := was.tickets[t].(phase := Gone)])
      ensures Next(was, KeyedLock.Step.Leave(t), now)
    {
    }
  }
}
