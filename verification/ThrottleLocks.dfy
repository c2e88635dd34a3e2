/** Which policies keep their locks whatever a Begin repeats, and which need distinct names. */
module ThrottleLocks {
  import opened ThrottleModel
  import opened ThrottleSafety

  // ----- the condition -----

  /** A lock after so many failures too many survives an attempt that was in flight behind it:
      a success does not reset it, and another failure does not set an earlier deadline. */
  predicate Outlasts(p: Policy, over: nat) {
    Lockout(p, over) > 0 ==> !p.resetOnSuccess && Lockout(p, over + 1) >= Lockout(p, over)
  }

  /** With one failure allowed nothing is ever in flight behind a lock. */
  ghost predicate LocksOutlast(p: Policy) {
    p.maxFailures <= 1 || forall over: nat :: Outlasts(p, over)
  }

  /** For a policy whose lockouts double, as every login policy's do, that is a look at two fields. */
  lemma DoublingOutlasts(p: Policy)
    requires 0 < p.baseLockout && 0 < p.maxLockout <= TWO_62
    ensures LocksOutlast(p) <==> p.maxFailures <= 1 || !p.resetOnSuccess
  {
    hide Lockout, Pow2;
    forall over: nat
      ensures Lockout(p, over) > 0 && Lockout(p, over + 1) >= Lockout(p, over)
    {
      LockoutDoubles(p, over);
      LockoutDoubles(p, over + 1);
      PowExceeds(over);
      MulGrows(p.baseLockout, Pow2(over));
      PowStep(p.baseLockout, over);
      TwiceTimes(p.baseLockout, Pow2(over));
    }
    assert Outlasts(p, 0) ==> !p.resetOnSuccess;
  }

  // ----- what holds of a key however often a Begin names it -----

  /** A lock's deadline is its last failure's lockout. */
  predicate Stamped(e: Entry, clock: int) {
    && e.failures >= 0 && e.lastFailure <= clock
    && (|| e.lockedUntil == 0
        || (e.failures >= e.policy.maxFailures
            && e.lockedUntil == e.lastFailure + Lockout(e.policy, e.failures - e.policy.maxFailures)))
  }

  ghost predicate OneAttempt(live: map<nat, seq<Key>>, n: string) {
    forall a, b :: a in live && b in live && Count(live[a], n) > 0 && Count(live[b], n) > 0 ==> a == b
  }

  ghost predicate Alone(t: Table, clock: int, n: string)
    requires n in t.entries
  {
    OneAttempt(t.live, n) && (Locked(t.entries[n], clock) ==> t.entries[n].pending == 0)
  }

  ghost predicate KeySound(t: Table, clock: int, n: string) {
    && Conserved(t)
    && (n in t.entries ==>
         Stamped(t.entries[n], clock) && (t.entries[n].policy.maxFailures <= 1 ==> Alone(t, clock, n)))
  }

  lemma {:induction false} ChargingKeepsStamp(entries: map<string, Entry>, keys: seq<Key>, n: string)
    ensures var after := ChargeAll(entries, keys);
            && (n in entries ==> n in after && after[n] == entries[n].(pending := after[n].pending))
            && (n in after && n !in entries ==>
                 Count(keys, n) > 0 && after[n].failures == 0 == after[n].lockedUntil == after[n].lastFailure)
            && (n in entries && Count(keys, n) == 0 ==> after[n] == entries[n])
  {
    if keys != [] {
      ChargingKeepsStamp(entries, keys[..|keys| - 1], n);
    }
  }

  lemma NobodyNames(t: Table, n: string)
    requires Conserved(t) && Pending(t.entries, n) == 0
    ensures forall id :: id in t.live ==> Count(t.live[id], n) == 0
  {
    forall id | id in t.live
      ensures Count(t.live[id], n) == 0
    {
      ChargesSplit(t.live, id, n);
    }
  }

  lemma StampStays(e: Entry, clock: int, e': Entry, now: int)
    requires Stamped(e, clock) && clock <= now && e' == e.(pending := e'.pending)
    ensures Stamped(e', now)
  {
  }

  /** An entry the step did not touch, with at most an attempt more that does not name it. */
  lemma UntouchedSound(t: Table, t': Table, clock: int, now: int, n: string)
    requires KeySound(t, clock, n) && clock <= now && n in t.entries && n in t'.entries && t'.entries[n] == t.entries[n]
    requires forall id :: id in t'.live ==> Count(t'.live[id], n) == 0 || (id in t.live && t'.live[id] == t.live[id])
    ensures Stamped(t'.entries[n], now) && (t'.entries[n].policy.maxFailures <= 1 ==> Alone(t', now, n))
  {
    StampStays(t.entries[n], clock, t'.entries[n], now);
  }

  lemma BeginKeepsSound(t: Table, keys: seq<Key>, now: int, answer: Answer, t': Table, clock: int, n: string)
    requires KeySound(t, clock, n) && BeginStep(t, keys, now, t', answer) && 0 <= clock <= now
    requires n in t'.entries
    ensures Stamped(t'.entries[n], now) && (t'.entries[n].policy.maxFailures <= 1 ==> Alone(t', now, n))
  {
    BeginKeepsLive(t, Began(keys, now, answer), t');
    CountsNamed(keys, n);
    if answer.Admitted? && n in Names(keys) {
      ChargedSound(t, keys, now, answer, t', clock, n);
    } else {
      BeginLeaves(t, keys, now, answer, t', n);
      hide BeginStep, KeySound, Stamped, Alone;
      UntouchedSound(t, t', clock, now, n);
    }
  }

  lemma BeginLeaves(t: Table, keys: seq<Key>, now: int, answer: Answer, t': Table, n: string)
    requires BeginStep(t, keys, now, t', answer) && n in t'.entries && !(answer.Admitted? && n in Names(keys))
    ensures n in t.entries && t'.entries[n] == t.entries[n]
  {
    var looked := Looked(t, keys, now);
    LookedThins(t, keys, now);
    CountsNamed(keys, n);
    if answer.Saturated? {
      RoomThins(looked, keys, now, t', false);
    } else if answer.Admitted? {
      var roomy :| RoomFor(looked, keys, now, roomy, true) && t' == Admit(roomy, keys);
      RoomThins(looked, keys, now, roomy, true);
      ChargingKeepsStamp(roomy.entries, keys, n);
    }
  }

  /** An entry an admitted attempt is charged to was not blocked: with one failure allowed,
      nobody else is charged to it. */
  lemma ChargedSound(t: Table, keys: seq<Key>, now: int, answer: Answer, t': Table, clock: int, n: string)
    requires KeySound(t, clock, n) && BeginStep(t, keys, now, t', answer) && answer.Admitted? && 0 <= clock <= now
    requires n in t'.entries && n in Names(keys) && t'.live == t.live[t.nextId := keys]
    ensures Stamped(t'.entries[n], now) && (t'.entries[n].policy.maxFailures <= 1 ==> Alone(t', now, n))
  {
    hide Lockout, ChargeAll, LongestWait, Missing, MadeRoom, SweepAll, Count, Charges;
    var looked := Looked(t, keys, now);
    LookedThins(t, keys, now);
    var roomy :| RoomFor(looked, keys, now, roomy, true) && t' == Admit(roomy, keys);
    RoomThins(looked, keys, now, roomy, true);
    ChargingKeepsStamp(roomy.entries, keys, n);
    WaitIsLongest(looked.entries, keys, now);
    assert Pending(t.entries, n) == Charges(t.live, n);
    ThinningKeepsPending(t.entries, now, looked.entries, n);
    ThinningKeepsPending(looked.entries, now, roomy.entries, n);
    assert n in roomy.entries ==>
      t'.entries[n] == t.entries[n].(pending := t'.entries[n].pending) && BlockedFor(t.entries[n], now) <= 0;
    hide BeginStep, RoomFor, Admit, Looked, LongestWait, Conserved, Thinned, Expired;
    if t'.entries[n].policy.maxFailures <= 1 {
      NobodyNames(t, n);
    }
  }

  lemma {:induction false} SettlingKeepsStamp(entries: map<string, Entry>, keys: seq<Key>, o: Outcome, now: int,
      n: string)
    requires n in entries ==> Stamped(entries[n], now)
    requires 0 <= now
    ensures var after := SettleAll(entries, keys, o, now);
            n in after ==> n in entries && Stamped(after[n], now) && after[n].policy == entries[n].policy
  {
    if keys != [] {
      SettlingKeepsStamp(entries, keys[..|keys| - 1], o, now, n);
    }
  }

  lemma EndKeepsSound(t: Table, id: nat, o: Outcome, now: int, clock: int, n: string)
    requires KeySound(t, clock, n) && id in t.live && 0 <= clock <= now && n in FinishStep(t, id, o, now).entries
    ensures var t' := FinishStep(t, id, o, now);
            Stamped(t'.entries[n], now) && (t'.entries[n].policy.maxFailures <= 1 ==> Alone(t', now, n))
  {
    var t' := FinishStep(t, id, o, now);
    SettlingKeepsStamp(t.entries, t.live[id], o, now, n);
    if t'.entries[n].policy.maxFailures <= 1 {
      if Count(t.live[id], n) == 0 {
        SettledOnce(t.entries, t.live[id], o, now, n);
      } else {
        FinishConserves(t, id, o, now, n);
        NobodyElse(t.live, id, n);
      }
    }
  }

  lemma NobodyElse(live: map<nat, seq<Key>>, id: nat, n: string)
    requires OneAttempt(live, n) && id in live && Count(live[id], n) > 0
    ensures Charges(live - {id}, n) == 0
  {
    assert forall a, i :: a in live && 0 <= i < |live[a]| && live[a][i].name == n ==> n in Names(live[a]);
    forall a, i | (a, i) in Charged(live - {id}, n)
      ensures false
    {
      CountsNamed(live[a], n);
    }
    assert Charged(live - {id}, n) == {};
  }

  lemma StepKeySound(t: Table, e: Event, t': Table, clock: int, n: string)
    requires KeySound(t, clock, n) && Step(t, e, t') && 0 <= clock <= e.now
    ensures KeySound(t', e.now, n)
  {
    StepConserves(t, e, t');
    if n in t'.entries {
      match e {
        case Began(keys, now, answer) => BeginKeepsSound(t, keys, now, answer, t', clock, n);
        case Ended(id, o, now) => if id in t.live { EndKeepsSound(t, id, o, now, clock, n); }
      }
    }
  }

  // ----- runs -----

  ghost predicate FromEmpty(ts: seq<Table>, es: seq<Event>) {
    Run(ts, es) && ts[0].entries == map[] && ts[0].live == map[]
  }

  function Clock(es: seq<Event>, k: nat): int
    requires k <= |es|
  {
    if k == 0 then 0 else es[k - 1].now
  }

  lemma EmptySound(t: Table, n: string)
    requires t.entries == map[] && t.live == map[]
    ensures KeySound(t, 0, n) && Safe(t, 0, n)
  {
    assert forall m :: Charged(map[], m) == {};
  }

  lemma {:induction false} RunKeySound(ts: seq<Table>, es: seq<Event>, n: string, k: nat)
    requires FromEmpty(ts, es) && k <= |es|
    ensures 0 <= Clock(es, k) && KeySound(ts[k], Clock(es, k), n)
  {
    hide KeySound, Safe, Step;
    if k == 0 {
      EmptySound(ts[0], n);
    } else {
      RunKeySound(ts, es, n, k - 1);
      assert Step(ts[k - 1], es[k - 1], ts[k]);
      StepKeySound(ts[k - 1], es[k - 1], ts[k], Clock(es, k - 1), n);
    }
  }

  /** The entry still carries a lock at least until u. */
  ghost predicate LockedTill(t: Table, n: string, p: Policy, u: int) {
    n in t.entries && t.entries[n].policy == p && u <= t.entries[n].lockedUntil
  }

  lemma {:induction false} SettlingOutlasted(entries: map<string, Entry>, keys: seq<Key>, o: Outcome, now: int,
      n: string, u: int)
    requires n in entries && Stamped(entries[n], now) && 0 <= now < u <= entries[n].lockedUntil
    requires forall over: nat :: Outlasts(entries[n].policy, over)
    ensures var after := SettleAll(entries, keys, o, now);
            n in after && Stamped(after[n], now) && after[n].policy == entries[n].policy && u <= after[n].lockedUntil
  {
    if keys != [] {
      SettlingOutlasted(entries, keys[..|keys| - 1], o, now, n, u);
      var e := SettleAll(entries, keys[..|keys| - 1], o, now)[n];
      assert Outlasts(e.policy, e.failures - e.policy.maxFailures);
    }
  }

  lemma LockOutlastsStep(t: Table, e: Event, t': Table, clock: int, n: string, p: Policy, u: int)
    requires KeySound(t, clock, n) && Step(t, e, t') && 0 <= clock <= e.now < u
    requires LockedTill(t, n, p, u) && LocksOutlast(p)
    ensures LockedTill(t', n, p, u)
  {
    match e {
      case Began(keys, now, answer) => BeginKeepsLock(t, keys, now, t', answer, n);
      case Ended(id, o, now) =>
        if id in t.live {
          if p.maxFailures <= 1 {
            IdleSurvivesEnd(t, id, o, now, n);
          } else {
            SettlingOutlasted(t.entries, t.live[id], o, now, n, u);
          }
        }
    }
  }

  lemma OnceOutlastsStep(t: Table, e: Event, t': Table, clock: int, n: string, p: Policy, u: int)
    requires Safe(t, clock, n) && Step(t, e, t') && clock <= e.now < u && LockedTill(t, n, p, u)
    ensures LockedTill(t', n, p, u)
  {
    hide Safe, Step;
    LockSurvivesStep(t, e, t', clock, n);
  }

  lemma {:induction false} LockKept(ts: seq<Table>, es: seq<Event>, n: string, i: nat, k: nat, p: Policy, u: int)
    requires FromEmpty(ts, es) && i <= k < |es| && LockedTill(ts[i], n, p, u) && es[k].now < u
    requires LocksOutlast(p) || NamedOnce(es, n)
    ensures LockedTill(ts[k], n, p, u)
    decreases k
  {
    hide LockedTill, LocksOutlast, NamedOnce, KeySound, Safe, Step;
    if i < k {
      var h := k - 1;
      assert es[h].now <= es[k].now;
      LockKept(ts, es, n, i, h, p, u);
      RunKeySound(ts, es, n, h);
      assert Step(ts[h], es[h], ts[h + 1]);
      if LocksOutlast(p) {
        LockOutlastsStep(ts[h], es[h], ts[h + 1], Clock(es, h), n, p, u);
      } else {
        EmptySound(ts[0], n);
        RunSafe(ts, es, 0, n, h);
        OnceOutlastsStep(ts[h], es[h], ts[h + 1], Clock(es, h), n, p, u);
      }
    }
  }

  /** A key locked until u is refused by every Begin before u, if its policy's locks outlast
      what is in flight or if no Begin names it twice. */
  lemma LockHolds(ts: seq<Table>, es: seq<Event>, n: string, i: nat, k: nat)
    requires FromEmpty(ts, es) && i <= k < |es| && n in ts[i].entries && es[k].now < ts[i].entries[n].lockedUntil
    requires LocksOutlast(ts[i].entries[n].policy) || NamedOnce(es, n)
    ensures es[k].Began? && n in Names(es[k].keys) ==>
      es[k].answer.Refused? && es[k].answer.retryAfter >= ts[i].entries[n].lockedUntil - es[k].now
  {
    LockKept(ts, es, n, i, k, ts[i].entries[n].policy, ts[i].entries[n].lockedUntil);
    assert Step(ts[k], es[k], ts[k + 1]);
    if es[k].Began? {
      BeginKeepsLock(ts[k], es[k].keys, es[k].now, ts[k + 1], es[k].answer, n);
    }
  }

  // ----- and it fails for every other policy -----

  /** A Begin naming n is let in before a lock on n that policy p set is over. */
  ghost predicate Breaks(ts: seq<Table>, es: seq<Event>, p: Policy, n: string, i: nat, k: nat) {
    && |ts| == |es| + 1 && i <= k < |es|
    && n in ts[i].entries && ts[i].entries[n].policy == p && es[k].now < ts[i].entries[n].lockedUntil
    && es[k].Began? && n in Names(es[k].keys) && !es[k].answer.Refused?
  }

  function Copies(n: string, p: Policy, j: nat): seq<Key> {
    if j == 0 then [] else Copies(n, p, j - 1) + [Key(n, p)]
  }

  function One(n: string, p: Policy, failures: int, pending: int, lockedUntil: int): map<string, Entry> {
    map[n := Entry(p, failures, pending, 0, lockedUntil)]
  }

  lemma {:induction false} CopiesCharge(n: string, p: Policy, j: nat, pending: int)
    ensures ChargeAll(One(n, p, 0, pending, 0), Copies(n, p, j)) == One(n, p, 0, pending + j, 0)
    ensures Missing(One(n, p, 0, pending, 0), Copies(n, p, j)) == 0
  {
    if j > 0 {
      CopiesCharge(n, p, j - 1, pending);
      assert Copies(n, p, j)[..|Copies(n, p, j)| - 1] == Copies(n, p, j - 1);
    }
  }

  lemma OneFails(n: string, p: Policy, failures: nat, pending: int, lockedUntil: int)
    requires pending > 1
    ensures SettleOne(One(n, p, failures, pending, lockedUntil), n, Failed, 0)
         == One(n, p, failures + 1, pending - 1,
           if failures + 1 >= p.maxFailures then Lockout(p, failures + 1 - p.maxFailures) else lockedUntil)
  {
  }

  /** What j failures at time 0 leave of an entry with more than j charges. */
  lemma {:induction false} CopiesFail(n: string, p: Policy, j: nat, pending: int)
    requires pending > j
    ensures SettleAll(One(n, p, 0, pending, 0), Copies(n, p, j), Failed, 0)
         == One(n, p, j, pending - j, if j > 0 && j >= p.maxFailures then Lockout(p, j - p.maxFailures) else 0)
  {
    if j > 0 {
      hide SettleOne, Lockout, One;
      CopiesFail(n, p, j - 1, pending);
      assert Copies(n, p, j)[..|Copies(n, p, j)| - 1] == Copies(n, p, j - 1);
      OneFails(n, p, j - 1, pending - (j - 1),
        if j - 1 > 0 && j - 1 >= p.maxFailures then Lockout(p, j - 1 - p.maxFailures) else 0);
    }
  }

  lemma {:induction false} CopiesWait(entries: map<string, Entry>, n: string, p: Policy, j: nat, now: int)
    requires n in entries ==> BlockedFor(entries[n], now) <= 0
    ensures LongestWait(entries, Copies(n, p, j), now) == 0
  {
    if j > 0 {
      CopiesWait(entries, n, p, j - 1, now);
      assert Copies(n, p, j)[..|Copies(n, p, j)| - 1] == Copies(n, p, j - 1);
    }
  }

  // ----- the run that breaks a lock -----

  /** A table that holds at most n's entry. */
  function Only(entries: map<string, Entry>, live: map<nat, seq<Key>>, nextId: nat): Table {
    Table(1, entries, 0, live, nextId)
  }

  lemma Lets(t: Table, n: string, p: Policy, j: nat, now: int)
    requires t.entries.Keys <= {n} && t.maxEntries >= 1 && (n in t.entries ==> BlockedFor(t.entries[n], now) <= 0)
    requires n in Looked(t, Copies(n, p, j), now).entries || j == 1
    ensures BeginStep(t, Copies(n, p, j), now, Admit(Looked(t, Copies(n, p, j), now), Copies(n, p, j)),
      Admitted(t.nextId))
  {
    var keys := Copies(n, p, j);
    var looked := Looked(t, keys, now);
    CopiesWait(looked.entries, n, p, j, now);
    if n in looked.entries {
      PresentMisses(looked.entries, n, p, j);
    } else {
      assert looked.entries == map[];
      OneCopy(n, p);
      assert Missing(looked.entries, keys) == 1;
    }
    assert RoomFor(looked, keys, now, looked, true);
  }

  lemma {:induction false} PresentMisses(entries: map<string, Entry>, n: string, p: Policy, j: nat)
    requires n in entries
    ensures Missing(entries, Copies(n, p, j)) == 0
  {
    if j > 0 {
      PresentMisses(entries, n, p, j - 1);
      assert Copies(n, p, j)[..|Copies(n, p, j)| - 1] == Copies(n, p, j - 1);
    }
  }

  lemma OneCopy(n: string, p: Policy)
    ensures Copies(n, p, 1) == [Key(n, p)] && Copies(n, p, 1)[..0] == []
  {
    assert Copies(n, p, 0) == [];
  }

  function Begun(n: string, p: Policy): Table {
    Only(One(n, p, 0, 1, 0), map[0 := Copies(n, p, 1)], 1)
  }

  function Repeated(n: string, p: Policy, j: nat): Table {
    Only(One(n, p, 0, 1 + j, 0), map[0 := Copies(n, p, 1), 1 := Copies(n, p, j)], 2)
  }

  function Barred(n: string, p: Policy, j: nat, lockedUntil: int): Table {
    Only(One(n, p, j, 1, lockedUntil), map[0 := Copies(n, p, 1)], 2)
  }

  lemma FirstBegin(n: string, p: Policy)
    ensures Step(Table(1, map[], 0, map[], 0), Began(Copies(n, p, 1), 0, Admitted(0)), Begun(n, p))
  {
    var t, once := Table(1, map[], 0, map[], 0), Copies(n, p, 1);
    OneCharged(n, p);
    assert Looked(t, once, 0) == t;
    hide Copies, BeginStep, ChargeAll, Looked;
    Lets(t, n, p, 1, 0);
    assert map[][0 := once] == map[0 := once];
  }

  lemma OneCharged(n: string, p: Policy)
    ensures ChargeAll(map[], Copies(n, p, 1)) == One(n, p, 0, 1, 0)
  {
    var once := Copies(n, p, 1);
    OneCopy(n, p);
    assert ChargeAll(map[], once) == ChargeOne(ChargeAll(map[], []), once[0]);
  }

  lemma RepeatedBegin(n: string, p: Policy, j: nat)
    requires p.maxFailures >= 2
    ensures Step(Begun(n, p), Began(Copies(n, p, j), 0, Admitted(1)), Repeated(n, p, j))
  {
    hide Copies;
    var once, many := Copies(n, p, 1), Copies(n, p, j);
    assert Looked(Begun(n, p), many, 0) == Begun(n, p);
    Lets(Begun(n, p), n, p, j, 0);
    CopiesCharge(n, p, j, 1);
    assert map[0 := once][1 := many] == map[0 := once, 1 := many];
  }

  lemma RepeatedFails(n: string, p: Policy, over: nat)
    requires p.maxFailures >= 2
    ensures var j := p.maxFailures + over;
            Step(Repeated(n, p, j), Ended(1, Failed, 0), Barred(n, p, j, Lockout(p, over)))
  {
    hide SettleAll, Copies, Lockout;
    var once, many := Copies(n, p, 1), Copies(n, p, p.maxFailures + over);
    CopiesFail(n, p, p.maxFailures + over, 1 + (p.maxFailures + over));
    assert map[0 := once, 1 := many] - {1} == map[0 := once];
  }

  lemma OneSettles(entries: map<string, Entry>, n: string, p: Policy, o: Outcome)
    ensures SettleAll(entries, Copies(n, p, 1), o, 0) == SettleOne(entries, n, o, 0)
  {
    OneCopy(n, p);
    hide SettleOne;
    assert SettleAll(entries, [], o, 0) == entries;
  }

  /** The attempt in flight behind the lock ends. */
  lemma BarredEnds(n: string, p: Policy, j: nat, u: int, o: Outcome) returns (ended: Table)
    ensures Step(Barred(n, p, j, u), Ended(0, o, 0), ended)
    ensures ended.entries == SettleOne(One(n, p, j, 1, u), n, o, 0) && ended.maxEntries == 1 && ended.nextId == 2
  {
    hide SettleAll, SettleOne, Copies;
    OneSettles(One(n, p, j, 1, u), n, p, o);
    ended := FinishStep(Barred(n, p, j, u), 0, o, 0);
  }

  /** The entry it leaves, if any, does not block from then on. */
  lemma SettledUnblocked(n: string, p: Policy, over: nat, o: Outcome, at: int)
    requires p.maxFailures >= 2
    requires if o == Failed then Lockout(p, over + 1) <= at else o == Succeeded && p.resetOnSuccess && at == 0
    ensures var entries := SettleOne(One(n, p, p.maxFailures + over, 1, Lockout(p, over)), n, o, 0);
            entries.Keys <= {n} && (n in entries ==> BlockedFor(entries[n], at) <= 0)
  {
    hide Lockout;
  }

  /** The attempt behind the lock ends, and a new one is let in before the deadline. */
  lemma LockGivesWay(n: string, p: Policy, over: nat) returns (outcome: Outcome, at: int, ended: Table, last: Table)
    requires p.maxFailures >= 2 && !Outlasts(p, over)
    ensures 0 <= at < Lockout(p, over)
    ensures Step(Barred(n, p, p.maxFailures + over, Lockout(p, over)), Ended(0, outcome, 0), ended)
    ensures Step(ended, Began(Copies(n, p, 1), at, Admitted(2)), last)
  {
    hide Lockout, Copies, SettleOne, BlockedFor, BeginStep, FinishStep, Looked, Admit, Barred, One;
    outcome := if p.resetOnSuccess then Succeeded else Failed;
    at := if p.resetOnSuccess || Lockout(p, over + 1) <= 0 then 0 else Lockout(p, over + 1);
    ended := BarredEnds(n, p, p.maxFailures + over, Lockout(p, over), outcome);
    SettledUnblocked(n, p, over, outcome, at);
    Lets(ended, n, p, 1, at);
    last := Admit(Looked(ended, Copies(n, p, 1), at), Copies(n, p, 1));
  }

  lemma BarredLocks(n: string, p: Policy, j: nat, u: int, at: int)
    requires at < u
    ensures var t := Barred(n, p, j, u); n in t.entries && t.entries[n].policy == p && at < t.entries[n].lockedUntil
    ensures n in Names(Copies(n, p, 1))
  {
    OneCopy(n, p);
    assert Copies(n, p, 1)[0].name == n;
  }

  /** Every policy whose locks do not outlast what is in flight has a run that breaks one:
      a Begin that repeats a key locks it while another attempt is under way. */
  lemma RepeatedNameShortensLock(p: Policy, n: string) returns (ts: seq<Table>, es: seq<Event>)
    requires !LocksOutlast(p)
    ensures FromEmpty(ts, es) && Breaks(ts, es, p, n, 3, 4)
  {
    hide Step, Lockout, Copies, Outlasts, Begun, Repeated, Barred, Names, Only;
    var over: nat :| !Outlasts(p, over);
    var j := p.maxFailures + over;
    FirstBegin(n, p);
    RepeatedBegin(n, p, j);
    RepeatedFails(n, p, over);
    var outcome, at, ended, last := LockGivesWay(n, p, over);
    BarredLocks(n, p, j, Lockout(p, over), at);
    var start := Table(1, map[], 0, map[], 0);
    ts, es := FiveEvents(start, Began(Copies(n, p, 1), 0, Admitted(0)),
                         Begun(n, p), Began(Copies(n, p, j), 0, Admitted(1)),
                         Repeated(n, p, j), Ended(1, Failed, 0),
                         Barred(n, p, j, Lockout(p, over)), Ended(0, outcome, 0),
                         ended, Began(Copies(n, p, 1), at, Admitted(2)), last);
  }

  lemma FiveEvents(a: Table, ab: Event, b: Table, bc: Event, c: Table, cd: Event, d: Table, de: Event, e: Table,
      ef: Event, f: Table)
    returns (ts: seq<Table>, es: seq<Event>)
    requires a.entries == map[] && a.live == map[] && Step(a, ab, b) && Step(b, bc, c) && Step(c, cd, d)
      && Step(d, de, e) && Step(e, ef, f)
    requires 0 <= ab.now <= bc.now <= cd.now <= de.now <= ef.now
    ensures FromEmpty(ts, es) && |es| == 5 && ts[3] == d && es[4] == ef
  {
    hide Step;
    ts, es := [a, b, c, d, e, f], [ab, bc, cd, de, ef];
  }

  ghost predicate SomeRunBreaks(p: Policy) {
    exists ts, es, n, i, k :: FromEmpty(ts, es) && Breaks(ts, es, p, n, i, k)
  }

  /** Whatever the Begins of a run repeat, no lock of the policy is ever broken, if and only
      if its locks outlast what is in flight behind them. */
  lemma LocksHoldIff(p: Policy)
    ensures !SomeRunBreaks(p) <==> LocksOutlast(p)
  {
    if LocksOutlast(p) {
      forall ts, es, n, i, k | FromEmpty(ts, es) && Breaks(ts, es, p, n, i, k)
        ensures false
      {
        LockHolds(ts, es, n, i, k);
      }
    } else {
      var ts, es := RepeatedNameShortensLock(p, "k");
      assert FromEmpty(ts, es) && Breaks(ts, es, p, "k", 3, 4);
    }
  }
}
