/** What every run of the limiter keeps: charges are conserved, the table stays
    bounded, attempts in flight stay within the budget, and a lock is never shortened. */
module ThrottleSafety {
  import opened ThrottleModel

  // ----- runs -----

  datatype Event = Began(keys: seq<Key>, now: int, answer: Answer) | Ended(id: nat, outcome: Outcome, now: int)

  ghost predicate Step(t: Table, e: Event, t': Table) {
    match e
    case Began(keys, now, answer) => BeginStep(t, keys, now, t', answer)
    case Ended(id, outcome, now) => t' == FinishStep(t, id, outcome, now)
  }

  /** A run from ts[0]: one table per event boundary, under a clock that never goes back. */
  ghost predicate Run(ts: seq<Table>, es: seq<Event>) {
    && |ts| == |es| + 1
    && (forall i :: 0 <= i < |es| ==> Step(ts[i], es[i], ts[i + 1]))
    && (forall i, j :: 0 <= i < j < |es| ==> es[i].now <= es[j].now)
    && (forall i :: 0 <= i < |es| ==> es[i].now >= 0)
  }

  /** No Begin of the run names n twice, as the login handler's three keys never do. */
  ghost predicate NamedOnce(es: seq<Event>, n: string) {
    forall i :: 0 <= i < |es| && es[i].Began? ==> Count(es[i].keys, n) <= 1
  }

  // ----- conservation of charges -----

  function Pending(entries: map<string, Entry>, n: string): int {
    if n in entries then entries[n].pending else 0
  }

  function Count(keys: seq<Key>, n: string): nat {
    if keys == [] then 0
    else Count(keys[..|keys| - 1], n) + if keys[|keys| - 1].name == n then 1 else 0
  }

  ghost function Charged(live: map<nat, seq<Key>>, n: string): set<(nat, int)> {
    set id, i | id in live && 0 <= i < |live[id]| && live[id][i].name == n :: (id, i)
  }

  /** How many times live attempts name n. */
  ghost function Charges(live: map<nat, seq<Key>>, n: string): nat {
    |Charged(live, n)|
  }

  ghost predicate Conserved(t: Table) {
    && (forall n :: Pending(t.entries, n) == Charges(t.live, n))
    && (forall id :: id in t.live ==> id < t.nextId)
  }

  lemma {:induction false} PositionsCounted(id: nat, keys: seq<Key>, n: string)
    ensures |set i | 0 <= i < |keys| && keys[i].name == n :: (id, i)| == Count(keys, n)
  {
    var all := set i | 0 <= i < |keys| && keys[i].name == n :: (id, i);
    if keys != [] {
      var last := |keys| - 1;
      var front := keys[..last];
      PositionsCounted(id, front, n);
      var before := set i | 0 <= i < |front| && front[i].name == n :: (id, i);
      PositionsSplit(id, keys, n);
      OneMore(before, (id, last));
    }
  }

  lemma OneMore<T>(s: set<T>, x: T)
    requires x !in s
    ensures |s + {x}| == |s| + 1 && s + {} == s
  {
  }

  lemma PositionsSplit(id: nat, keys: seq<Key>, n: string)
    requires keys != []
    ensures var last := |keys| - 1;
            var before := set i | 0 <= i < |keys[..last]| && keys[..last][i].name == n :: (id, i);
            (set i | 0 <= i < |keys| && keys[i].name == n :: (id, i))
            == before + if keys[last].name == n then {(id, last)} else {}
  {
    var last := |keys| - 1;
    assert forall i :: 0 <= i < last ==> keys[..last][i] == keys[i];
  }

  lemma ChargesSplit(live: map<nat, seq<Key>>, id: nat, n: string)
    requires id in live
    ensures Charges(live, n) == Charges(live - {id}, n) + Count(live[id], n)
  {
    PositionsCounted(id, live[id], n);
    var own := set i | 0 <= i < |live[id]| && live[id][i].name == n :: (id, i);
    assert Charged(live, n) == Charged(live - {id}, n) + own;
    assert Charged(live - {id}, n) !! own;
  }

  lemma CountsNamed(keys: seq<Key>, n: string)
    ensures Count(keys, n) > 0 <==> n in Names(keys)
  {
    if keys != [] {
      var front := keys[..|keys| - 1];
      CountsNamed(front, n);
      assert Names(keys) == Names(front) + {keys[|keys| - 1].name};
    }
  }

  /** Entries removed by sweeping, expiry or eviction: idle and unlocked. */
  ghost predicate Thinned(entries: map<string, Entry>, now: int, entries': map<string, Entry>) {
    && entries'.Keys <= entries.Keys
    && (forall n :: n in entries' ==> entries'[n] == entries[n])
    && (forall n :: n in entries && n !in entries' ==> entries[n].pending <= 0 && !Locked(entries[n], now))
  }

  lemma LookedThins(t: Table, keys: seq<Key>, now: int)
    ensures Thinned(t.entries, now, Looked(t, keys, now).entries)
  {
  }

  lemma RoomThins(looked: Table, keys: seq<Key>, now: int, roomy: Table, ok: bool)
    requires RoomFor(looked, keys, now, roomy, ok)
    ensures Thinned(looked.entries, now, roomy.entries)
    ensures roomy.(entries := looked.entries, lastSweep := looked.lastSweep) == looked
    ensures forall n :: n in Names(keys) && n in looked.entries && !Expired(looked.entries[n], now) ==>
      n in roomy.entries
  {
  }

  lemma ThinningKeepsPending(entries: map<string, Entry>, now: int, entries': map<string, Entry>, n: string)
    requires Thinned(entries, now, entries') && Pending(entries, n) >= 0
    ensures Pending(entries', n) == Pending(entries, n)
  {
  }

  lemma {:induction false} ChargingAdds(entries: map<string, Entry>, keys: seq<Key>, n: string)
    ensures Pending(ChargeAll(entries, keys), n) == Pending(entries, n) + Count(keys, n)
  {
    if keys != [] {
      ChargingAdds(entries, keys[..|keys| - 1], n);
    }
  }

  lemma {:induction false} SettlingRefunds(entries: map<string, Entry>, keys: seq<Key>, o: Outcome, now: int, n: string)
    requires forall m :: Pending(entries, m) >= Count(keys, m)
    ensures Pending(SettleAll(entries, keys, o, now), n) == Pending(entries, n) - Count(keys, n)
  {
    if keys != [] {
      var front, last := keys[..|keys| - 1], keys[|keys| - 1].name;
      assert forall m :: Count(keys, m) >= Count(front, m);
      SettlingRefunds(entries, front, o, now, n);
      SettlingRefunds(entries, front, o, now, last);
    }
  }

  lemma AdmitConserves(roomy: Table, keys: seq<Key>, n: string)
    requires Pending(roomy.entries, n) == Charges(roomy.live, n) && roomy.nextId !in roomy.live
    ensures var t' := Admit(roomy, keys); Pending(t'.entries, n) == Charges(t'.live, n)
  {
    var live' := roomy.live[roomy.nextId := keys];
    ChargingAdds(roomy.entries, keys, n);
    ChargesSplit(live', roomy.nextId, n);
    assert live' - {roomy.nextId} == roomy.live;
  }

  lemma BeginConserves(t: Table, keys: seq<Key>, now: int, answer: Answer, t': Table, n: string)
    requires Pending(t.entries, n) == Charges(t.live, n) && t.nextId !in t.live
    requires BeginStep(t, keys, now, t', answer)
    ensures Pending(t'.entries, n) == Charges(t'.live, n)
  {
    var looked := Looked(t, keys, now);
    LookedThins(t, keys, now);
    ThinningKeepsPending(t.entries, now, looked.entries, n);
    match answer {
      case Refused(_) =>
      case Saturated =>
        RoomThins(looked, keys, now, t', false);
        ThinningKeepsPending(looked.entries, now, t'.entries, n);
      case Admitted(id) =>
        var roomy :| RoomFor(looked, keys, now, roomy, true) && t' == Admit(roomy, keys);
        RoomThins(looked, keys, now, roomy, true);
        ThinningKeepsPending(looked.entries, now, roomy.entries, n);
        AdmitConserves(roomy, keys, n);
    }
  }

  lemma FinishConserves(t: Table, id: nat, o: Outcome, now: int, n: string)
    requires Conserved(t) && id in t.live
    ensures var t' := FinishStep(t, id, o, now); Pending(t'.entries, n) == Charges(t'.live, n)
  {
    forall m
      ensures Pending(t.entries, m) >= Count(t.live[id], m)
    {
      ChargesSplit(t.live, id, m);
    }
    SettlingRefunds(t.entries, t.live[id], o, now, n);
    ChargesSplit(t.live, id, n);
  }

  /** In every reachable table each entry's pending is the number of live attempts
      naming it, counted with multiplicity: whatever keys a Begin repeats. */
  lemma StepConserves(t: Table, e: Event, t': Table)
    requires Conserved(t) && Step(t, e, t')
    ensures Conserved(t')
  {
    forall n
      ensures Pending(t'.entries, n) == Charges(t'.live, n)
    {
      match e {
        case Began(keys, now, answer) => BeginConserves(t, keys, now, answer, t', n);
        case Ended(id, o, now) => if id in t.live { FinishConserves(t, id, o, now, n); }
      }
    }
    BeginKeepsLive(t, e, t');
  }

  lemma BeginKeepsLive(t: Table, e: Event, t': Table)
    requires Step(t, e, t')
    ensures t'.live == match e
      case Began(keys, _, answer) => if answer.Admitted? then t.live[t.nextId := keys] else t.live
      case Ended(id, _, _) => t.live - {id}
    ensures t'.nextId == if e.Began? && e.answer.Admitted? then t.nextId + 1 else t.nextId
  {
    if e.Began? && e.answer.Admitted? {
      var looked := Looked(t, e.keys, e.now);
      var roomy :| RoomFor(looked, e.keys, e.now, roomy, true) && t' == Admit(roomy, e.keys);
      RoomThins(looked, e.keys, e.now, roomy, true);
    }
  }

  /** No key of a live attempt is ever dropped from the table. */
  lemma LiveKeysKept(t: Table, id: nat, n: string)
    requires Conserved(t) && id in t.live && n in Names(t.live[id])
    ensures n in t.entries && t.entries[n].pending >= 1
  {
    ChargesSplit(t.live, id, n);
    CountsNamed(t.live[id], n);
    assert Pending(t.entries, n) == Charges(t.live, n);
  }

  /** A refused or saturated Begin charges nothing. */
  lemma RefusalChargesNothing(t: Table, keys: seq<Key>, now: int, t': Table, answer: Answer)
    requires Conserved(t) && BeginStep(t, keys, now, t', answer) && !answer.Admitted?
    ensures t'.live == t.live && t'.nextId == t.nextId
    ensures forall n :: Pending(t'.entries, n) == Pending(t.entries, n)
  {
    StepConserves(t, Began(keys, now, answer), t');
    LookedThins(t, keys, now);
    if answer.Saturated? {
      RoomThins(Looked(t, keys, now), keys, now, t', false);
    }
    assert t'.live == t.live;
    forall n
      ensures Pending(t'.entries, n) == Pending(t.entries, n)
    {
      assert Pending(t'.entries, n) == Charges(t'.live, n);
      assert Pending(t.entries, n) == Charges(t.live, n);
    }
  }

  // ----- the bound on the table -----

  lemma {:induction false} ChargingGrows(entries: map<string, Entry>, keys: seq<Key>)
    ensures entries.Keys <= ChargeAll(entries, keys).Keys
    ensures |ChargeAll(entries, keys)| <= |entries| + Missing(entries, keys)
  {
    if keys != [] {
      var front, key := keys[..|keys| - 1], keys[|keys| - 1];
      ChargingGrows(entries, front);
      var charged := ChargeAll(entries, front);
      assert ChargeOne(charged, key).Keys == charged.Keys + {key.name};
      assert ChargeAll(entries, keys) == ChargeOne(charged, key);
      assert |ChargeAll(entries, keys).Keys| == |ChargeAll(entries, keys)|;
      assert |charged.Keys| == |charged|;
    }
  }

  lemma ThinningShrinks(entries: map<string, Entry>, now: int, entries': map<string, Entry>)
    requires Thinned(entries, now, entries')
    ensures |entries'| <= |entries|
  {
    SubsetSize(entries'.Keys, entries.Keys);
    assert |entries'.Keys| == |entries'| && |entries.Keys| == |entries|;
  }

  lemma SubsetSize<T>(a: set<T>, b: set<T>)
    requires a <= b
    ensures |a| <= |b|
  {
    assert b == a + (b - a);
  }

  lemma {:induction false} MissingElsewhere(a: map<string, Entry>, b: map<string, Entry>, keys: seq<Key>)
    requires forall n :: n in Names(keys) ==> (n in a <==> n in b)
    ensures Missing(a, keys) == Missing(b, keys)
  {
    if keys != [] {
      var front := keys[..|keys| - 1];
      assert Names(keys) == Names(front) + {keys[|keys| - 1].name};
      MissingElsewhere(a, b, front);
    }
  }

  lemma {:induction false} SettlingKeepsKeys(entries: map<string, Entry>, keys: seq<Key>, o: Outcome, now: int)
    ensures SettleAll(entries, keys, o, now).Keys <= entries.Keys
  {
    if keys != [] {
      SettlingKeepsKeys(entries, keys[..|keys| - 1], o, now);
    }
  }

  /** The table never outgrows its bound. */
  lemma StepBounded(t: Table, e: Event, t': Table)
    requires Step(t, e, t') && |t.entries| <= t.maxEntries
    ensures |t'.entries| <= t'.maxEntries == t.maxEntries
  {
    match e {
      case Began(keys, now, answer) =>
        var looked := Looked(t, keys, now);
        LookedThins(t, keys, now);
        ThinningShrinks(t.entries, now, looked.entries);
        if answer.Saturated? {
          RoomThins(looked, keys, now, t', false);
          ThinningShrinks(looked.entries, now, t'.entries);
        } else if answer.Admitted? {
          var roomy :| RoomFor(looked, keys, now, roomy, true) && t' == Admit(roomy, keys);
          RoomThins(looked, keys, now, roomy, true);
          LookedUnexpired(t, keys, now);
          MissingElsewhere(looked.entries, roomy.entries, keys);
          ChargingGrows(roomy.entries, keys);
        }
      case Ended(id, o, now) =>
        if id in t.live {
          SettlingKeepsKeys(t.entries, t.live[id], o, now);
          SubsetSize(t'.entries.Keys, t.entries.Keys);
          assert |t'.entries.Keys| == |t'.entries| && |t.entries.Keys| == |t.entries|;
        }
    }
  }

  lemma LookedUnexpired(t: Table, keys: seq<Key>, now: int)
    ensures forall n :: n in Names(keys) && n in Looked(t, keys, now).entries ==>
      !Expired(Looked(t, keys, now).entries[n], now)
  {
  }

  /** Saturation is reported only when every unrequested entry is locked or in flight. */
  lemma SaturationMeansFull(t: Table, keys: seq<Key>, now: int, t': Table)
    requires Conserved(t) && BeginStep(t, keys, now, t', Saturated)
    ensures forall n :: n in t'.entries && n !in Names(keys) ==> Locked(t'.entries[n], now) || t'.entries[n].pending > 0
    ensures |t'.entries| + Missing(t'.entries, keys) > t.maxEntries
  {
    StepConserves(t, Began(keys, now, Saturated), t');
    var looked := Looked(t, keys, now);
    RoomThins(looked, keys, now, t', false);
    LookedUnexpired(t, keys, now);
    MissingElsewhere(looked.entries, t'.entries, keys);
    forall n | n in t'.entries && n !in Names(keys)
      ensures Locked(t'.entries[n], now) || t'.entries[n].pending > 0
    {
      assert !Evictable(SweepAll(looked.entries, now), keys, now, n);
      assert Pending(t'.entries, n) == Charges(t'.live, n);
    }
  }

  /** A refusal's wait is the longest any requested entry asks for, and one of them asks for it. */
  lemma {:induction false} WaitIsLongest(entries: map<string, Entry>, keys: seq<Key>, now: int)
    ensures forall n :: n in Names(keys) && n in entries ==>
      BlockedFor(entries[n], now) <= LongestWait(entries, keys, now)
    ensures LongestWait(entries, keys, now) > 0 ==>
              exists n :: n in Names(keys) && n in entries
                && BlockedFor(entries[n], now) == LongestWait(entries, keys, now)
  {
    if keys != [] {
      var front := keys[..|keys| - 1];
      WaitIsLongest(entries, front, now);
      assert Names(keys) == Names(front) + {keys[|keys| - 1].name};
    }
  }

  // ----- budget and locks -----

  ghost predicate Sound(e: Entry, clock: int) {
    && e.failures >= 0
    && (e.pending <= 1 || e.failures + e.pending <= e.policy.maxFailures)
    && (Locked(e, clock) ==> e.pending == 0)
  }

  /** The joint invariant for a key: charges conserved, its attempts in flight within the
      budget, each naming it once, and nothing in flight behind a lock. */
  ghost predicate Safe(t: Table, clock: int, n: string) {
    && Conserved(t)
    && (forall id :: id in t.live ==> Count(t.live[id], n) <= 1)
    && (n in t.entries ==> Sound(t.entries[n], clock))
  }

  /** An attempt that names a key once settles its entry once. */
  lemma {:induction false} SettledOnce(entries: map<string, Entry>, keys: seq<Key>, o: Outcome, now: int, n: string)
    requires Count(keys, n) <= 1
    ensures var after := SettleAll(entries, keys, o, now);
            var one := if Count(keys, n) == 1 then SettleOne(entries, n, o, now) else entries;
            (n in after <==> n in one) && (n in after ==> after[n] == one[n])
  {
    if keys != [] {
      SettledOnce(entries, keys[..|keys| - 1], o, now, n);
    }
  }

  lemma {:induction false} ChargedOnce(entries: map<string, Entry>, keys: seq<Key>, n: string)
    requires Count(keys, n) <= 1
    ensures n in ChargeAll(entries, keys) <==> n in entries || Count(keys, n) == 1
    ensures n in entries && Count(keys, n) == 0 ==> ChargeAll(entries, keys)[n] == entries[n]
    ensures n in entries && Count(keys, n) == 1 ==>
      ChargeAll(entries, keys)[n] == entries[n].(pending := entries[n].pending + 1)
    ensures n !in entries && Count(keys, n) == 1 ==>
      ChargeAll(entries, keys)[n].failures == 0 == ChargeAll(entries, keys)[n].lockedUntil
      && ChargeAll(entries, keys)[n].pending == 1
  {
    if keys != [] {
      ChargedOnce(entries, keys[..|keys| - 1], n);
    }
  }

  /** A key that locks had exactly one attempt in flight, the one that failed: so a
      lock never has anything behind it that could succeed and clear it. */
  lemma SettlingStaysSound(e: Entry, o: Outcome, now: int, clock: int)
    requires Sound(e, clock) && clock <= now && 0 <= now && e.pending >= 1
    ensures Sound(ApplyOutcome(e.(pending := e.pending - 1), o, now), now)
  {
  }

  lemma BeginSafe(t: Table, keys: seq<Key>, now: int, answer: Answer, t': Table, clock: int, n: string)
    requires Safe(t, clock, n) && BeginStep(t, keys, now, t', answer) && clock <= now && 0 <= now && Count(keys, n) <= 1
    requires n in t'.entries
    ensures Sound(t'.entries[n], now)
  {
    hide RoomFor, ChargeAll, Conserved, LongestWait, Charges;
    var looked := Looked(t, keys, now);
    LookedThins(t, keys, now);
    if answer.Saturated? {
      RoomThins(looked, keys, now, t', false);
    } else if answer.Admitted? {
      var roomy :| RoomFor(looked, keys, now, roomy, true) && t' == Admit(roomy, keys);
      RoomThins(looked, keys, now, roomy, true);
      CountsNamed(keys, n);
      ChargedOnce(roomy.entries, keys, n);
      WaitIsLongest(looked.entries, keys, now);
    }
  }

  lemma FinishSafe(t: Table, id: nat, o: Outcome, now: int, clock: int, n: string)
    requires Safe(t, clock, n) && id in t.live && clock <= now && 0 <= now
    requires n in FinishStep(t, id, o, now).entries
    ensures Sound(FinishStep(t, id, o, now).entries[n], now)
  {
    SettledOnce(t.entries, t.live[id], o, now, n);
    CountsNamed(t.live[id], n);
    if n in Names(t.live[id]) {
      LiveKeysKept(t, id, n);
      SettlingStaysSound(t.entries[n], o, now, clock);
    }
  }

  lemma StepSafe(t: Table, e: Event, t': Table, clock: int, n: string)
    requires Safe(t, clock, n) && Step(t, e, t') && clock <= e.now && 0 <= e.now
    requires e.Began? ==> Count(e.keys, n) <= 1
    ensures Safe(t', e.now, n)
  {
    StepConserves(t, e, t');
    BeginKeepsLive(t, e, t');
    if n in t'.entries {
      match e {
        case Began(keys, now, answer) => BeginSafe(t, keys, now, answer, t', clock, n);
        case Ended(id, o, now) => if id in t.live { FinishSafe(t, id, o, now, clock, n); }
      }
    }
  }

  lemma {:induction false} RunSafe(ts: seq<Table>, es: seq<Event>, clock: int, n: string, k: nat)
    requires Run(ts, es) && NamedOnce(es, n) && Safe(ts[0], clock, n) && k <= |es|
    requires es != [] ==> clock <= es[0].now
    ensures Safe(ts[k], if k == 0 then clock else es[k - 1].now, n)
  {
    if k > 0 {
      RunSafe(ts, es, clock, n, k - 1);
      assert Step(ts[k - 1], es[k - 1], ts[k]);
      StepSafe(ts[k - 1], es[k - 1], ts[k], if k == 1 then clock else es[k - 2].now, n);
    }
  }

  /** Every table reachable from an empty limiter is conserved and bounded, and safe for
      every key that no Begin names twice. */
  lemma ReachableSafe(maxEntries: nat, ts: seq<Table>, es: seq<Event>, k: nat)
    requires Run(ts, es) && ts[0] == Table(maxEntries, map[], 0, map[], 0) && k <= |es|
    ensures Conserved(ts[k]) && |ts[k].entries| <= maxEntries
    ensures forall n :: NamedOnce(es, n) ==> Safe(ts[k], if k == 0 then 0 else es[k - 1].now, n)
  {
    assert forall n :: Charged(map[], n) == {};
    forall n | NamedOnce(es, n)
      ensures Safe(ts[k], if k == 0 then 0 else es[k - 1].now, n)
    {
      RunSafe(ts, es, 0, n, k);
    }
    RunBounded(ts, es, k);
    RunConserves(ts, es, k);
  }

  lemma {:induction false} RunConserves(ts: seq<Table>, es: seq<Event>, k: nat)
    requires Run(ts, es) && Conserved(ts[0]) && k <= |es|
    ensures Conserved(ts[k])
  {
    if k > 0 {
      RunConserves(ts, es, k - 1);
      assert Step(ts[k - 1], es[k - 1], ts[k]);
      StepConserves(ts[k - 1], es[k - 1], ts[k]);
    }
  }

  lemma {:induction false} RunBounded(ts: seq<Table>, es: seq<Event>, k: nat)
    requires Run(ts, es) && |ts[0].entries| <= ts[0].maxEntries && k <= |es|
    ensures |ts[k].entries| <= ts[k].maxEntries == ts[0].maxEntries
  {
    if k > 0 {
      RunBounded(ts, es, k - 1);
      assert Step(ts[k - 1], es[k - 1], ts[k]);
      StepBounded(ts[k - 1], es[k - 1], ts[k]);
    }
  }

  /** Whatever a Begin names and however often, it leaves a locked entry alone, and if it
      names the key it is refused until the deadline. */
  lemma BeginKeepsLock(t: Table, keys: seq<Key>, now: int, t': Table, answer: Answer, n: string)
    requires BeginStep(t, keys, now, t', answer) && n in t.entries && Locked(t.entries[n], now)
    ensures n in t'.entries && t'.entries[n] == t.entries[n]
    ensures n in Names(keys) ==> answer.Refused? && answer.retryAfter >= t.entries[n].lockedUntil - now
  {
    var looked := Looked(t, keys, now);
    LookedThins(t, keys, now);
    assert n in looked.entries;
    WaitIsLongest(looked.entries, keys, now);
    CountsNamed(keys, n);
    if answer.Saturated? {
      RoomThins(looked, keys, now, t', false);
    } else if answer.Admitted? {
      var roomy :| RoomFor(looked, keys, now, roomy, true) && t' == Admit(roomy, keys);
      RoomThins(looked, keys, now, roomy, true);
      ChargedOnce(roomy.entries, keys, n);
    }
  }

  /** One step before a lock's deadline: the entry stays as it is, a Begin naming it
      waits at least until the deadline, and no attempt that ends names it. */
  lemma LockSurvivesStep(t: Table, e: Event, t': Table, clock: int, n: string)
    requires Safe(t, clock, n) && Step(t, e, t') && clock <= e.now
    requires n in t.entries && Locked(t.entries[n], e.now)
    ensures n in t'.entries && t'.entries[n] == t.entries[n]
    ensures e.Began? && n in Names(e.keys) ==>
      e.answer.Refused? && e.answer.retryAfter >= t.entries[n].lockedUntil - e.now
    ensures e.Ended? && e.id in t.live ==> n !in Names(t.live[e.id])
  {
    match e {
      case Began(keys, now, answer) => BeginKeepsLock(t, keys, now, t', answer, n);
      case Ended(id, o, now) => if id in t.live { IdleSurvivesEnd(t, id, o, now, n); }
    }
  }

  /** The end of an attempt leaves an entry nobody is charged to alone. */
  lemma IdleSurvivesEnd(t: Table, id: nat, o: Outcome, now: int, n: string)
    requires Conserved(t) && id in t.live && n in t.entries && t.entries[n].pending == 0
    ensures n !in Names(t.live[id])
    ensures n in FinishStep(t, id, o, now).entries && FinishStep(t, id, o, now).entries[n] == t.entries[n]
  {
    if n in Names(t.live[id]) {
      LiveKeysKept(t, id, n);
      assert false;
    }
    CountsNamed(t.live[id], n);
    SettledOnce(t.entries, t.live[id], o, now, n);
  }

  /** A lock is never shortened: over any run, a key locked until u keeps exactly that
      entry through every event before u, and every Begin naming it before u is refused. */
  lemma {:induction false} LockNeverShortened(ts: seq<Table>, es: seq<Event>, clock: int, n: string, k: nat)
    requires Run(ts, es) && NamedOnce(es, n) && Safe(ts[0], clock, n) && k < |es| && clock <= es[0].now
    requires n in ts[0].entries && es[k].now < ts[0].entries[n].lockedUntil
    ensures n in ts[k].entries && n in ts[k + 1].entries
    ensures ts[k].entries[n] == ts[0].entries[n] == ts[k + 1].entries[n]
    ensures es[k].Began? && n in Names(es[k].keys) ==>
              es[k].answer.Refused? && es[k].answer.retryAfter >= ts[0].entries[n].lockedUntil - es[k].now
    ensures es[k].Ended? && es[k].id in ts[k].live ==> n !in Names(ts[k].live[es[k].id])
  {
    if k > 0 {
      assert es[k - 1].now <= es[k].now;
      LockNeverShortened(ts, es, clock, n, k - 1);
    }
    RunSafe(ts, es, clock, n, k);
    assert Step(ts[k], es[k], ts[k + 1]);
    LockSurvivesStep(ts[k], es[k], ts[k + 1], if k == 0 then clock else es[k - 1].now, n);
  }

  // ----- the spacing of failures -----

  /** Event i is a Fail that counts against n. */
  ghost predicate FailsAt(ts: seq<Table>, es: seq<Event>, i: nat, n: string)
    requires |ts| == |es| + 1
  {
    i < |es| && es[i].Ended? && es[i].outcome == Failed && es[i].id in ts[i].live && n in Names(ts[i].live[es[i].id])
  }

  /** The failures past the limit that the i-th event left on n. */
  ghost predicate LeavesOver(ts: seq<Table>, es: seq<Event>, i: nat, n: string, p: Policy, over: nat)
    requires |ts| == |es| + 1
  {
    && FailsAt(ts, es, i, n)
    && n in ts[i + 1].entries && ts[i + 1].entries[n].policy == p
    && ts[i + 1].entries[n].failures == p.maxFailures + over
  }

  lemma FailureLocks(ts: seq<Table>, es: seq<Event>, clock: int, i: nat, n: string, p: Policy, over: nat)
    requires Run(ts, es) && NamedOnce(es, n) && Safe(ts[0], clock, n) && i < |es| && clock <= es[0].now
    requires LeavesOver(ts, es, i, n, p, over)
    ensures ts[i + 1].entries[n].lockedUntil == es[i].now + Lockout(p, over)
  {
    RunSafe(ts, es, clock, n, i);
    assert Step(ts[i], es[i], ts[i + 1]);
    CountsNamed(ts[i].live[es[i].id], n);
    SettledOnce(ts[i].entries, ts[i].live[es[i].id], Failed, es[i].now, n);
  }

  /** Two failures of one key past its limit are at least the first one's lockout apart. */
  lemma FailuresSpaced(ts: seq<Table>, es: seq<Event>, clock: int, i: nat, j: nat, n: string, p: Policy, over: nat)
    requires Run(ts, es) && NamedOnce(es, n) && Safe(ts[0], clock, n) && i < j < |es| && clock <= es[0].now
    requires LeavesOver(ts, es, i, n, p, over) && FailsAt(ts, es, j, n)
    ensures es[j].now >= es[i].now + Lockout(p, over)
  {
    FailureLocks(ts, es, clock, i, n, p, over);
    if es[j].now < es[i].now + Lockout(p, over) {
      RunSafe(ts, es, clock, n, i + 1);
      var ts', es' := ts[i + 1..], es[i + 1..];
      assert Run(ts', es') by {
        forall k | 0 <= k < |es'| ensures Step(ts'[k], es'[k], ts'[k + 1]) {
          assert Step(ts[i + 1 + k], es[i + 1 + k], ts[i + 1 + k + 1]);
        }
      }
      assert es'[j - i - 1] == es[j] && ts'[j - i - 1] == ts[j];
      LockNeverShortened(ts', es', es[i].now, n, j - i - 1);
      assert false;
    }
  }

  lemma LeavesFails(ts: seq<Table>, es: seq<Event>, i: nat, n: string, p: Policy, over: nat)
    requires |ts| == |es| + 1 && LeavesOver(ts, es, i, n, p, over)
    ensures FailsAt(ts, es, i, n)
  {
  }

  function LockoutSum(p: Policy, over: nat, m: nat): int {
    if m == 0 then 0 else LockoutSum(p, over, m - 1) + Lockout(p, over + m - 1)
  }

  /** Within one entry lifetime, failures that climb past the limit one by one take at
      least the sum of the lockouts between them. */
  lemma {:induction false} FailuresTakeTheirLockouts(
    ts: seq<Table>, es: seq<Event>, clock: int, n: string, p: Policy, over: nat, at: seq<nat>)
    requires Run(ts, es) && NamedOnce(es, n) && Safe(ts[0], clock, n) && es != [] && clock <= es[0].now
    requires at != [] && forall x, y :: 0 <= x < y < |at| ==> at[x] < at[y]
    requires forall x :: 0 <= x < |at| ==> at[x] < |es| && LeavesOver(ts, es, at[x], n, p, over + x)
    ensures es[at[|at| - 1]].now >= es[at[0]].now + LockoutSum(p, over, |at| - 1)
  {
    assert |ts| == |es| + 1;
    hide Safe, LeavesOver, FailsAt, Run, NamedOnce, Lockout;
    var m := |at| - 1;
    if m > 0 {
      LeavesFails(ts, es, at[m], n, p, over + m);
      FailuresTakeTheirLockouts(ts, es, clock, n, p, over, at[..m]);
      FailuresSpaced(ts, es, clock, at[m - 1], at[m], n, p, over + m - 1);
    }
  }

  // ----- the doubled lockout -----

  ghost predicate DoublesExactly(p: Policy) {
    forall over: nat :: Lockout(p, over) == Min(p.baseLockout * Pow2(over), p.maxLockout)
  }

  /** Some doubling the loop would still make overflows 64 bits. */
  ghost predicate Overflows(lockout: int, maxLockout: int) {
    exists k: nat :: TWO_62 <= lockout * Pow2(k) < maxLockout
  }

  lemma {:induction false} PowExceeds(n: nat)
    ensures Pow2(n) > n
  {
    if n > 0 {
      PowExceeds(n - 1);
    }
  }

  lemma MulGrows(a: nat, b: nat)
    requires b >= 1
    ensures a * b >= a
  {
  }

  lemma PowStep(a: int, k: nat)
    ensures a * 2 * Pow2(k) == a * Pow2(k + 1)
  {
  }

  lemma NoOverflowAfter(lockout: int, maxLockout: int)
    requires !Overflows(lockout, maxLockout)
    ensures !Overflows(lockout * 2, maxLockout)
    ensures lockout < maxLockout ==> lockout < TWO_62
  {
    forall k: nat
      ensures !(TWO_62 <= lockout * 2 * Pow2(k) < maxLockout)
    {
      PowStep(lockout, k);
    }
    assert lockout * Pow2(0) == lockout;
  }

  lemma {:induction false} DoublingFrom(lockout: int, maxLockout: int, over: nat)
    requires 0 <= lockout && maxLockout < TWO_63 && !Overflows(lockout, maxLockout)
    ensures LockoutFrom(lockout, maxLockout, over) == Min(lockout * Pow2(over), maxLockout)
    decreases over
  {
    if over > 0 {
      if lockout < maxLockout {
        hide Pow2, LockoutFrom;
        NoOverflowAfter(lockout, maxLockout);
        OneDoubling(lockout, maxLockout, over);
        DoublingFrom(lockout * 2, maxLockout, over - 1);
        PowStep(lockout, over - 1);
      } else {
        PowExceeds(over);
        MulGrows(lockout, Pow2(over));
      }
    }
  }

  lemma {:induction false} DoubledBefore(lockout: int, maxLockout: int, k: nat, rest: nat)
    requires 0 <= lockout && lockout * Pow2(k) < maxLockout < TWO_63
    ensures LockoutFrom(lockout, maxLockout, k + rest) == LockoutFrom(lockout * Pow2(k), maxLockout, rest)
    decreases k
  {
    if k == 0 {
      assert lockout * Pow2(0) == lockout;
    } else {
      hide Pow2, LockoutFrom;
      PowExceeds(k - 1);
      PowStep(lockout, k - 1);
      MulGrows(lockout * 2, Pow2(k - 1));
      OneDoubling(lockout, maxLockout, k + rest);
      DoubledBefore(lockout * 2, maxLockout, k - 1, rest);
    }
  }

  lemma OneDoubling(lockout: int, maxLockout: int, over: nat)
    requires over > 0 && 0 <= lockout < maxLockout && lockout * 2 < TWO_63
    ensures LockoutFrom(lockout, maxLockout, over) == LockoutFrom(lockout * 2, maxLockout, over - 1)
  {
    assert Wrap64(lockout * 2) == lockout * 2;
  }

  lemma {:induction false} LockoutFits(lockout: int, maxLockout: int, over: nat)
    requires -TWO_63 <= lockout < TWO_63 && -TWO_63 <= maxLockout < TWO_63
    ensures -TWO_63 <= LockoutFrom(lockout, maxLockout, over) < TWO_63
    decreases over
  {
    if over > 0 && lockout < maxLockout {
      LockoutFits(Wrap64(lockout * 2), maxLockout, over - 1);
    }
  }

  lemma OverflowShows(p: Policy, k: nat)
    requires 0 <= p.baseLockout && TWO_62 <= p.baseLockout * Pow2(k) < p.maxLockout < TWO_63
    ensures Lockout(p, k + 1) < 0 <= Min(p.baseLockout * Pow2(k + 1), p.maxLockout)
  {
    hide Pow2, LockoutFrom;
    DoubledBefore(p.baseLockout, p.maxLockout, k, 1);
    LastDoublingWraps(p.baseLockout * Pow2(k), p.maxLockout);
    PowStep(p.baseLockout, k);
    TwiceTimes(p.baseLockout, Pow2(k));
  }

  lemma TwiceTimes(a: int, b: int)
    ensures a * 2 * b == 2 * (a * b)
  {
  }

  lemma LastDoublingWraps(reached: int, maxLockout: int)
    requires TWO_62 <= reached < maxLockout < TWO_63
    ensures LockoutFrom(reached, maxLockout, 1) < 0
  {
    assert Wrap64(reached * 2) == reached * 2 - TWO_64;
    assert LockoutFrom(reached, maxLockout, 1) == LockoutFrom(Wrap64(reached * 2), maxLockout, 0);
  }

  /** lockout(n) is min(Base * 2^n, Max) for every n if and only if Base is not
      negative and no power-of-two multiple of it lies between 2^62 and Max. */
  lemma LockoutDoublesIff(p: Policy)
    requires -TWO_63 <= p.baseLockout < TWO_63 && -TWO_63 <= p.maxLockout < TWO_63
    ensures DoublesExactly(p) <==> 0 <= p.baseLockout && !Overflows(p.baseLockout, p.maxLockout)
  {
    if p.baseLockout < 0 {
      PowExceeds(TWO_63);
      MulGrows(-p.baseLockout, Pow2(TWO_63));
      NegativeScales(p.baseLockout, Pow2(TWO_63));
      LockoutFits(p.baseLockout, p.maxLockout, TWO_63);
      assert Lockout(p, TWO_63) != Min(p.baseLockout * Pow2(TWO_63), p.maxLockout);
    } else if Overflows(p.baseLockout, p.maxLockout) {
      var k: nat :| TWO_62 <= p.baseLockout * Pow2(k) < p.maxLockout;
      OverflowShows(p, k);
    } else {
      forall over: nat
        ensures Lockout(p, over) == Min(p.baseLockout * Pow2(over), p.maxLockout)
      {
        DoublingFrom(p.baseLockout, p.maxLockout, over);
      }
    }
  }

  lemma NegativeScales(a: int, b: int)
    requires a < 0 <= b
    ensures a * b <= -b
  {
  }

  /** So it doubles whenever Max is at most 2^62, as every login policy's is. */
  lemma LockoutDoubles(p: Policy, over: nat)
    requires 0 <= p.baseLockout && p.maxLockout <= TWO_62
    ensures Lockout(p, over) == Min(p.baseLockout * Pow2(over), p.maxLockout)
  {
    DoublingFrom(p.baseLockout, p.maxLockout, over);
  }
}
