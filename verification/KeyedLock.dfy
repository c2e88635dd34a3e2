/** The keyed lock with reference counts, as the interleaving of its atomic steps.

    Each call of acquire is a ticket.  A mutex makes entering (look up or create the
    entry, count the ticket) one step and leaving (uncount it, delete the entry at
    zero) another; the one-slot channel makes taking the token and putting it back one
    step each.  Tickets of any number of goroutines interleave freely. */
module KeyedLock {
  /** Where one call of acquire stands. */
  datatype Phase =
    | Waiting     // counted, at the select
    | Cancelled   // its context ended first; still counted
    | Holding     // it took the token and its caller holds the lock
    | Returning   // release put the token back; still counted
    | Gone        // no longer counted

  /** released: the once of the release closure the ticket was given. */
  datatype Ticket = Ticket(key: string, entry: nat, phase: Phase, released: bool)

  /** One lock entry: whether its channel holds the token, and how many tickets count on it. */
  datatype Entry = Entry(token: bool, refs: int)

  /** entries is the program's map; heap holds every entry ever made, reachable or not. */
  datatype Locker = Locker(entries: map<string, nat>, heap: map<nat, Entry>, tickets: map<nat, Ticket>)

  datatype Step = Enter(t: nat, key: string) | Take(t: nat) | Cancel(t: nat) | Release(t: nat) | Leave(t: nat)

  const EMPTY := Locker(map[], map[], map[])

  // ----- the steps -----

  function MoveTo(s: Locker, t: nat, phase: Phase): Locker
    requires t in s.tickets
  {
    s.(tickets := s.tickets[t := s.tickets[t].(phase := phase)])
  }

  /** A ticket has a release closure from when it took the token. */
  predicate HasRelease(s: Locker, t: nat) {
    t in s.tickets && (s.tickets[t].phase == Holding || s.tickets[t].released) && s.tickets[t].entry in s.heap
  }

  /** What the once lets through: the token goes back. */
  function Returned(s: Locker, t: nat): Locker
    requires t in s.tickets && s.tickets[t].entry in s.heap
  {
    SetToken(s.(tickets := s.tickets[t := s.tickets[t].(phase := Returning, released := true)]), s.tickets[t].entry,
      true)
  }

  predicate InPhase(s: Locker, t: nat, phase: Phase) {
    t in s.tickets && s.tickets[t].phase == phase && s.tickets[t].entry in s.heap
  }

  /** The first critical section of acquire. */
  function Entering(s: Locker, t: nat, key: string, made: nat): Locker {
    if key in s.entries && s.entries[key] in s.heap then
      var e := s.entries[key];
      s.(heap := s.heap[e := s.heap[e].(refs := s.heap[e].refs + 1)],
        tickets := s.tickets[t := Ticket(key, e, Waiting, false)])
    else
      Locker(s.entries[key := made], s.heap[made := Entry(true, 1)], s.tickets[t := Ticket(key, made, Waiting, false)])
  }

  /** The last critical section, of a release as of a cancellation: it deletes by key. */
  function Leaving(s: Locker, t: nat): Locker
    requires t in s.tickets && s.tickets[t].entry in s.heap
  {
    var e := s.tickets[t].entry;
    var refs := s.heap[e].refs - 1;
    MoveTo(s, t, Gone).(
      heap := s.heap[e := s.heap[e].(refs := refs)],
      entries := if refs == 0 then s.entries - {s.tickets[t].key} else s.entries)
  }

  /** Which steps may happen.  A holder may call its release any number of times, also long
      after it left; the once lets the first call through. */
  ghost predicate Next(s: Locker, step: Step, s': Locker) {
    match step
    case Enter(t, key) => t !in s.tickets && exists made :: made !in s.heap && s' == Entering(s, t, key, made)
    case Take(t) =>
      && InPhase(s, t, Waiting) && s.heap[s.tickets[t].entry].token
      && s' == SetToken(MoveTo(s, t, Holding), s.tickets[t].entry, false)
    case Cancel(t) => InPhase(s, t, Waiting) && s' == MoveTo(s, t, Cancelled)
    case Release(t) =>
      && HasRelease(s, t)
      && if s.tickets[t].released then s' == s
         // a send on a full channel would block
         else !s.heap[s.tickets[t].entry].token && s' == Returned(s, t)
    case Leave(t) => (InPhase(s, t, Cancelled) || InPhase(s, t, Returning)) && s' == Leaving(s, t)
  }

  function SetToken(s: Locker, e: nat, token: bool): Locker
    requires e in s.heap
  {
    s.(heap := s.heap[e := s.heap[e].(token := token)])
  }

  // ----- the invariant -----

  type Tickets = map<nat, Ticket>

  ghost function Counted(ts: Tickets, e: nat): set<nat> {
    set t | t in ts && ts[t].entry == e && ts[t].phase != Gone
  }

  ghost function Holders(ts: Tickets, e: nat): set<nat> {
    set t | t in ts && ts[t].entry == e && ts[t].phase == Holding
  }

  /** refs counts waiters, holders and leavers; the token is in the channel or with one holder. */
  ghost predicate EntrySound(entry: Entry, ts: Tickets, e: nat) {
    entry.refs == |Counted(ts, e)| && |Holders(ts, e)| == (if entry.token then 0 else 1)
  }

  ghost predicate CountsSound(heap: map<nat, Entry>, ts: Tickets) {
    && (forall e :: e in heap ==> EntrySound(heap[e], ts, e))
    && (forall t :: t in ts ==> ts[t].entry in heap)
  }

  /** A counted ticket's entry is the one in the map under its key, and the map holds only counted entries. */
  ghost predicate MapSound(s: Locker) {
    && (forall t :: t in s.tickets && s.tickets[t].phase != Gone ==>
         s.tickets[t].key in s.entries && s.entries[s.tickets[t].key] == s.tickets[t].entry)
    && (forall key :: key in s.entries ==> s.entries[key] in s.heap && s.heap[s.entries[key]].refs > 0)
    && (forall k1, k2 :: k1 in s.entries && k2 in s.entries && s.entries[k1] == s.entries[k2] ==> k1 == k2)
  }

  /** The once has run exactly for tickets that put their token back. */
  ghost predicate OnceSound(ts: Tickets) {
    forall t :: t in ts ==>
      && (ts[t].phase in {Waiting, Cancelled, Holding} ==> !ts[t].released)
      && (ts[t].phase == Returning ==> ts[t].released)
  }

  ghost predicate Sound(s: Locker) {
    CountsSound(s.heap, s.tickets) && MapSound(s) && OnceSound(s.tickets)
  }

  // ----- each step keeps it -----

  lemma TicketAdded(ts: Tickets, t: nat, ticket: Ticket, e: nat)
    requires t !in ts && ticket.phase == Waiting
    ensures Holders(ts[t := ticket], e) == Holders(ts, e)
    ensures Counted(ts[t := ticket], e) == Counted(ts, e) + if ticket.entry == e then {t} else {}
    ensures t !in Counted(ts, e)
  {
  }

  lemma PhaseChanged(ts: Tickets, t: nat, after: Ticket, e: nat)
    requires t in ts && ts[t].phase != Gone && after.entry == ts[t].entry
    ensures var ts' := ts[t := after];
            var here := if ts[t].entry == e then {t} else {};
            && Counted(ts', e) == (if after.phase == Gone then Counted(ts, e) - here else Counted(ts, e))
            && Holders(ts', e) == (if after.phase == Holding then Holders(ts, e) + here else Holders(ts, e) - here)
            && here <= Counted(ts, e) && (ts[t].phase == Holding ==> here <= Holders(ts, e))
            && (ts[t].phase != Holding ==> here !! Holders(ts, e))
  {
  }

  lemma NobodyYet(heap: map<nat, Entry>, ts: Tickets, e: nat)
    requires CountsSound(heap, ts) && e !in heap
    ensures Counted(ts, e) == {} && Holders(ts, e) == {}
  {
  }

  lemma EntersCounts(s: Locker, t: nat, key: string, made: nat)
    requires CountsSound(s.heap, s.tickets) && t !in s.tickets && made !in s.heap
    ensures var s' := Entering(s, t, key, made); CountsSound(s'.heap, s'.tickets)
  {
    var s' := Entering(s, t, key, made);
    forall e | e in s'.heap
      ensures EntrySound(s'.heap[e], s'.tickets, e)
    {
      EntersAt(s, t, key, made, e);
    }
  }

  lemma EntersAt(s: Locker, t: nat, key: string, made: nat, e: nat)
    requires CountsSound(s.heap, s.tickets) && t !in s.tickets && made !in s.heap && e in Entering(s, t, key, made).heap
    ensures var s' := Entering(s, t, key, made); EntrySound(s'.heap[e], s'.tickets, e)
  {
    var s' := Entering(s, t, key, made);
    TicketAdded(s.tickets, t, s'.tickets[t], e);
    if e in s.heap {
      assert EntrySound(s.heap[e], s.tickets, e);
    } else {
      NobodyYet(s.heap, s.tickets, e);
    }
  }

  /** A step that changes one ticket's phase, and its entry's token, keeps the counts
      when the token moves with the holding. */
  lemma PhaseCounts(heap: map<nat, Entry>, ts: Tickets, t: nat, after: Ticket, heap': map<nat, Entry>)
    requires CountsSound(heap, ts) && t in ts && ts[t].phase != Gone && after.entry == ts[t].entry
    requires var e := ts[t].entry;
             var refs := if after.phase == Gone then heap[e].refs - 1 else heap[e].refs;
             && e in heap' && heap' == heap[e := Entry(heap'[e].token, refs)]
             && (if after.phase == Holding then ts[t].phase != Holding && heap[e].token && !heap'[e].token
                 else heap'[e].token == (heap[e].token || ts[t].phase == Holding))
    ensures CountsSound(heap', ts[t := after])
  {
    forall e | e in heap'
      ensures EntrySound(heap'[e], ts[t := after], e)
    {
      assert EntrySound(heap[e], ts, e);
      PhaseChanged(ts, t, after, e);
    }
  }

  /** The ticket whose leaving brings refs to zero was the last one counted on its entry. */
  lemma LastLeaves(s: Locker, t: nat)
    requires CountsSound(s.heap, s.tickets) && t in s.tickets && s.tickets[t].phase != Gone
    requires s.heap[s.tickets[t].entry].refs == 1
    ensures forall u :: u in s.tickets && u != t && s.tickets[u].phase != Gone ==>
      s.tickets[u].entry != s.tickets[t].entry
  {
    var mine := s.tickets[t].entry;
    var counted := Counted(s.tickets, mine);
    assert EntrySound(s.heap[mine], s.tickets, mine);
    assert t in counted && |counted - {t}| == |counted| - 1;
    assert counted - {t} == {};
    forall u | u in s.tickets && u != t && s.tickets[u].phase != Gone
      ensures s.tickets[u].entry != mine
    {
      assert u !in counted - {t};
    }
  }

  /** One fewer of several counted tickets. */
  lemma OneLeavesMap(s: Locker, t: nat)
    requires MapSound(s) && t in s.tickets && s.tickets[t].phase != Gone && s.tickets[t].entry in s.heap
      && s.heap[s.tickets[t].entry].refs != 1
    ensures MapSound(Leaving(s, t))
  {
  }

  lemma LastLeavesMap(s: Locker, t: nat)
    requires MapSound(s) && t in s.tickets && s.tickets[t].phase != Gone && s.tickets[t].entry in s.heap
      && s.heap[s.tickets[t].entry].refs == 1
    requires forall u :: u in s.tickets && u != t && s.tickets[u].phase != Gone ==>
      s.tickets[u].entry != s.tickets[t].entry
    ensures MapSound(Leaving(s, t))
  {
  }

  lemma LeavesMap(s: Locker, t: nat)
    requires MapSound(s) && CountsSound(s.heap, s.tickets) && (InPhase(s, t, Cancelled) || InPhase(s, t, Returning))
    ensures MapSound(Leaving(s, t))
  {
    hide MapSound, Leaving;
    if s.heap[s.tickets[t].entry].refs == 1 {
      LastLeaves(s, t);
      LastLeavesMap(s, t);
    } else {
      OneLeavesMap(s, t);
    }
  }

  lemma StepCounts(s: Locker, step: Step, s': Locker)
    requires Sound(s) && Next(s, step, s')
    ensures CountsSound(s'.heap, s'.tickets)
  {
    hide MapSound, OnceSound, EntrySound;
    match step {
      case Enter(t, key) =>
        var made :| made !in s.heap && s' == Entering(s, t, key, made);
        EntersCounts(s, t, key, made);
      case Take(t) => PhaseCounts(s.heap, s.tickets, t, s'.tickets[t], s'.heap);
      case Cancel(t) =>
        assert s.heap == s.heap[s.tickets[t].entry := s.heap[s.tickets[t].entry]];
        PhaseCounts(s.heap, s.tickets, t, s'.tickets[t], s'.heap);
      case Release(t) => if !s.tickets[t].released { PhaseCounts(s.heap, s.tickets, t, s'.tickets[t], s'.heap); }
      case Leave(t) => PhaseCounts(s.heap, s.tickets, t, s'.tickets[t], s'.heap);
    }
  }

  lemma StepSound(s: Locker, step: Step, s': Locker)
    requires Sound(s) && Next(s, step, s')
    ensures Sound(s')
  {
    StepCounts(s, step, s');
    StepMap(s, step, s');
    StepOnce(s, step, s');
  }

  /** A ticket keeps its key, and one past waiting neither waits nor takes a token again. */
  lemma TicketsProgress(s: Locker, step: Step, s': Locker, t: nat)
    requires Next(s, step, s') && t in s.tickets
    ensures t in s'.tickets && s'.tickets[t].key == s.tickets[t].key
    ensures s.tickets[t].phase !in {Waiting, Cancelled} ==>
              s'.tickets[t].phase !in {Waiting, Cancelled}
                && (s'.tickets[t].phase == Holding ==> s.tickets[t].phase == Holding)
  {
  }

  lemma StepOnce(s: Locker, step: Step, s': Locker)
    requires OnceSound(s.tickets) && Next(s, step, s')
    ensures OnceSound(s'.tickets)
  {
  }

  lemma StepMap(s: Locker, step: Step, s': Locker)
    requires Sound(s) && Next(s, step, s')
    ensures MapSound(s')
  {
    hide MapSound, CountsSound;
    match step {
      case Enter(t, key) =>
        var made :| made !in s.heap && s' == Entering(s, t, key, made);
        EntersMap(s, t, key, made);
      case Leave(t) => LeavesMap(s, t);
      case Take(t) => TokenMoveMap(s, t, Holding, false);
      case Cancel(t) => CancelMap(s, t);
      case Release(t) => if !s.tickets[t].released { SamePlaceMap(s, s'); }
    }
  }

  lemma TokenMoveMap(s: Locker, t: nat, phase: Phase, token: bool)
    requires Sound(s) && t in s.tickets && s.tickets[t].phase != Gone
    ensures MapSound(SetToken(MoveTo(s, t, phase), s.tickets[t].entry, token))
  {
    assert s.tickets[t].entry in s.heap;
    hide CountsSound, OnceSound, MapSound;
    SamePlaceMap(s, SetToken(MoveTo(s, t, phase), s.tickets[t].entry, token));
  }

  lemma CancelMap(s: Locker, t: nat)
    requires Sound(s) && t in s.tickets && s.tickets[t].phase != Gone
    ensures MapSound(MoveTo(s, t, Cancelled))
  {
    SamePlaceMap(s, MoveTo(s, t, Cancelled));
  }

  lemma EntersMap(s: Locker, t: nat, key: string, made: nat)
    requires MapSound(s) && t !in s.tickets && made !in s.heap
    ensures MapSound(Entering(s, t, key, made))
  {
  }

  /** Steps that move no ticket and no reference count leave the map as sound as it was. */
  lemma SamePlaceMap(s: Locker, s': Locker)
    requires MapSound(s) && s'.entries == s.entries && s'.heap.Keys == s.heap.Keys && s'.tickets.Keys == s.tickets.Keys
    requires forall e :: e in s.heap ==> s'.heap[e].refs == s.heap[e].refs
    requires forall t :: t in s.tickets && s'.tickets[t].phase != Gone ==>
               s.tickets[t].phase != Gone && s'.tickets[t].key == s.tickets[t].key
                 && s'.tickets[t].entry == s.tickets[t].entry
    ensures MapSound(s')
  {
  }

  // ----- what every interleaving guarantees -----

  ghost predicate Run(ss: seq<Locker>, steps: seq<Step>) {
    && |ss| == |steps| + 1 && ss[0] == EMPTY
    && forall i :: 0 <= i < |steps| ==> Next(ss[i], steps[i], ss[i + 1])
  }

  lemma {:induction false} RunSound(ss: seq<Locker>, steps: seq<Step>, k: nat)
    requires Run(ss, steps) && k <= |steps|
    ensures Sound(ss[k])
  {
    if k > 0 {
      RunSound(ss, steps, k - 1);
      StepSound(ss[k - 1], steps[k - 1], ss[k]);
    }
  }

  lemma TwoElements(s: set<nat>, a: nat, b: nat)
    requires a in s && b in s && a != b
    ensures |s| >= 2
  {
    assert |s - {a}| == |s| - 1;
    assert b in s - {a};
  }

  lemma OneHolder(s: Locker, a: nat, b: nat)
    requires Sound(s) && a in s.tickets && b in s.tickets && s.tickets[a].key == s.tickets[b].key
    requires s.tickets[a].phase == Holding == s.tickets[b].phase
    ensures a == b
  {
    var e := s.tickets[a].entry;
    assert EntrySound(s.heap[e], s.tickets, e);
    if a != b {
      TwoElements(Holders(s.tickets, e), a, b);
    }
  }

  /** In every interleaving at most one ticket holds a key. */
  lemma MutualExclusion(ss: seq<Locker>, steps: seq<Step>, k: nat, a: nat, b: nat)
    requires Run(ss, steps) && k <= |steps|
    requires a in ss[k].tickets && b in ss[k].tickets && ss[k].tickets[a].key == ss[k].tickets[b].key
    requires ss[k].tickets[a].phase == Holding == ss[k].tickets[b].phase
    ensures a == b
  {
    RunSound(ss, steps, k);
    OneHolder(ss[k], a, b);
  }

  /** A ticket that is still counted counts on the entry in the map, so deleting by key
      when the last one leaves never removes an entry of another generation. */
  lemma DeletesItsOwnEntry(ss: seq<Locker>, steps: seq<Step>, k: nat, t: nat)
    requires Run(ss, steps) && k < |steps| && steps[k] == Leave(t)
    ensures var s, s' := ss[k], ss[k + 1];
            && s.tickets[t].key in s.entries && s.entries[s.tickets[t].key] == s.tickets[t].entry
            && (forall key :: key in s.entries && key != s.tickets[t].key ==>
                 key in s'.entries && s'.entries[key] == s.entries[key])
            && (s.tickets[t].key !in s'.entries <==> Counted(s.tickets, s.tickets[t].entry) == {t})
  {
    RunSound(ss, steps, k);
    assert Next(ss[k], steps[k], ss[k + 1]);
    var s, e := ss[k], ss[k].tickets[t].entry;
    assert EntrySound(s.heap[e], s.tickets, e);
    assert t in Counted(s.tickets, e);
    assert |Counted(s.tickets, e) - {t}| == |Counted(s.tickets, e)| - 1;
    if s.heap[e].refs == 1 {
      assert Counted(s.tickets, e) == (Counted(s.tickets, e) - {t}) + {t};
    }
  }

  /** The channel of a held lock is empty. */
  lemma HolderHasToken(s: Locker, t: nat)
    requires Sound(s) && t in s.tickets && s.tickets[t].phase == Holding
    ensures s.tickets[t].entry in s.heap && !s.heap[s.tickets[t].entry].token
  {
    var e := s.tickets[t].entry;
    assert EntrySound(s.heap[e], s.tickets, e);
    assert t in Holders(s.tickets, e);
  }

  /** Putting the token back never blocks: a holder's channel is empty. */
  lemma ReleaseNeverBlocks(ss: seq<Locker>, steps: seq<Step>, k: nat, t: nat)
    requires Run(ss, steps) && k <= |steps| && t in ss[k].tickets && ss[k].tickets[t].phase == Holding
    ensures exists s' :: Next(ss[k], Release(t), s') && InPhase(s', t, Returning)
  {
    RunSound(ss, steps, k);
    HolderHasToken(ss[k], t);
    assert Next(ss[k], Release(t), Returned(ss[k], t));
  }

  /** No token is lost: a waiting ticket can take it unless another ticket of its key holds the lock. */
  lemma WaiterCanTake(ss: seq<Locker>, steps: seq<Step>, k: nat, t: nat)
    requires Run(ss, steps) && k <= |steps| && t in ss[k].tickets && ss[k].tickets[t].phase == Waiting
    ensures (exists s' :: Next(ss[k], Take(t), s'))
        <==> forall u :: u in ss[k].tickets && ss[k].tickets[u].key == ss[k].tickets[t].key ==>
          ss[k].tickets[u].phase != Holding
  {
    RunSound(ss, steps, k);
    var s, e := ss[k], ss[k].tickets[t].entry;
    assert EntrySound(s.heap[e], s.tickets, e);
    if s.heap[e].token {
      assert Next(s, Take(t), SetToken(MoveTo(s, t, Holding), e, false));
      forall u | u in s.tickets && s.tickets[u].key == s.tickets[t].key
        ensures s.tickets[u].phase != Holding
      {
        assert u !in Holders(s.tickets, e);
      }
    } else {
      var u :| u in Holders(s.tickets, e);
      assert s.entries[s.tickets[u].key] == s.entries[s.tickets[t].key];
    }
  }

  /** refs is exactly the waiters, holders and leavers; once all of them are gone the map is empty. */
  lemma NoEntryLeaks(ss: seq<Locker>, steps: seq<Step>, k: nat)
    requires Run(ss, steps) && k <= |steps|
    ensures forall key :: key in ss[k].entries <==> exists t ::
      t in ss[k].tickets && ss[k].tickets[t].key == key && ss[k].tickets[t].phase != Gone
  {
    RunSound(ss, steps, k);
    var s := ss[k];
    forall key | key in s.entries
      ensures exists t :: t in s.tickets && s.tickets[t].key == key && s.tickets[t].phase != Gone
    {
      var e := s.entries[key];
      assert EntrySound(s.heap[e], s.tickets, e);
      var t :| t in Counted(s.tickets, e);
      assert s.entries[s.tickets[t].key] == s.entries[key];
    }
  }

  // ----- release once -----

  /** How often a ticket took a token, sent one back and was uncounted. */
  datatype Tally = Tally(takes: nat, sends: nat, leaves: nat)

  ghost function TallyOf(ss: seq<Locker>, steps: seq<Step>, k: nat, t: nat): Tally
    requires k <= |steps| && |ss| == |steps| + 1
  {
    if k == 0 then Tally(0, 0, 0)
    else
      var before := TallyOf(ss, steps, k - 1, t);
      if steps[k - 1] == Take(t) then before.(takes := before.takes + 1)
      else if steps[k - 1] == Release(t) && ss[k].heap != ss[k - 1].heap then before.(sends := before.sends + 1)
      else if steps[k - 1] == Leave(t) then before.(leaves := before.leaves + 1)
      else before
  }

  ghost predicate Balanced(s: Locker, t: nat, tally: Tally) {
    if t !in s.tickets then tally == Tally(0, 0, 0)
    else
      match s.tickets[t].phase
      case Waiting => tally == Tally(0, 0, 0)
      case Cancelled => tally == Tally(0, 0, 0)
      case Holding => tally == Tally(1, 0, 0)
      case Returning => tally == Tally(1, 1, 0)
      case Gone => tally == if s.tickets[t].released then Tally(1, 1, 1) else Tally(0, 0, 1)
  }

  /** However often release is called, and whatever the other tickets do in between: a token
      that was taken goes back exactly once, and every ticket is uncounted exactly once. */
  lemma {:induction false} ReleaseOnce(ss: seq<Locker>, steps: seq<Step>, k: nat, t: nat)
    requires Run(ss, steps) && k <= |steps|
    ensures Balanced(ss[k], t, TallyOf(ss, steps, k, t))
  {
    if k > 0 {
      ReleaseOnce(ss, steps, k - 1, t);
      RunSound(ss, steps, k - 1);
      assert Next(ss[k - 1], steps[k - 1], ss[k]);
      hide Run, Next, CountsSound, MapSound, OnceSound;
      StepBalances(ss[k - 1], steps[k - 1], ss[k], t);
    }
  }

  lemma StepBalances(s: Locker, step: Step, s': Locker, t: nat)
    requires OnceSound(s.tickets) && Next(s, step, s')
    ensures step == Take(t) ==>
      t in s.tickets && s.tickets[t].phase == Waiting && t in s'.tickets && s'.tickets[t].phase == Holding
    ensures step == Leave(t) ==>
      t in s.tickets && s.tickets[t].phase in {Cancelled, Returning} && t in s'.tickets
      && s'.tickets[t] == s.tickets[t].(phase := Gone)
    ensures step == Release(t) ==>
              if s'.heap != s.heap then
                t in s.tickets && s.tickets[t].phase == Holding && t in s'.tickets && s'.tickets[t].phase == Returning
              else s' == s
    ensures step != Take(t) && step != Leave(t) && step != Release(t) ==>
              if t in s.tickets then
                && t in s'.tickets
                && (|| s'.tickets[t] == s.tickets[t]
                    || (s.tickets[t].phase == Waiting && s'.tickets[t].phase == Cancelled))
              else t in s'.tickets ==> s'.tickets[t].phase == Waiting
  {
  }

  /** Without the once a second send would hand the token of a held lock to a waiter. */
  lemma SecondSendBreaks(s: Locker, t: nat, holder: nat, waiter: nat)
    requires Sound(s) && HasRelease(s, t) && s.tickets[t].released
    requires InPhase(s, holder, Holding) && InPhase(s, waiter, Waiting)
    requires s.tickets[holder].key == s.tickets[waiter].key && s.tickets[holder].entry == s.tickets[t].entry
    ensures exists s' ::
      Next(Returned(s, t), Take(waiter), s') && InPhase(s', holder, Holding) && InPhase(s', waiter, Holding)
  {
    hide CountsSound, Returned, MoveTo, SetToken;
    assert holder != t && waiter != t && s.tickets[waiter].entry == s.tickets[t].entry;
    hide MapSound, OnceSound;
    TakesAgain(s, t, holder, waiter);
  }

  lemma TakesAgain(s: Locker, t: nat, holder: nat, waiter: nat)
    requires HasRelease(s, t) && holder != t && waiter != t && InPhase(s, holder, Holding)
      && InPhase(s, waiter, Waiting)
    requires s.tickets[waiter].entry == s.tickets[t].entry
    ensures exists s' ::
      Next(Returned(s, t), Take(waiter), s') && InPhase(s', holder, Holding) && InPhase(s', waiter, Holding)
  {
    var again := Returned(s, t);
    var s' := SetToken(MoveTo(again, waiter, Holding), again.tickets[waiter].entry, false);
    assert Next(again, Take(waiter), s');
  }
}
