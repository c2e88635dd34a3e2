/** What the failures of a key add up to over a run: when they lock it, what forgets them, and
    that nothing else does either. */
module ThrottleHistory {
  import opened ThrottleModel
  import opened ThrottleSafety
  import opened ThrottleLocks

  // ----- one event -----

  /** The event ends an attempt that names n, as o. */
  predicate EndsAs(t: Table, e: Event, n: string, o: Outcome) {
    e.Ended? && e.outcome == o && e.id in t.live && n in Names(t.live[e.id])
  }

  /** A success that clears n. */
  predicate Clears(t: Table, e: Event, n: string) {
    EndsAs(t, e, n, Succeeded) && n in t.entries && t.entries[n].policy.resetOnSuccess
  }

  /** The event has no need to make room at n's cost. */
  predicate SparesRoom(t: Table, e: Event, n: string) {
    e.Began? ==> n in Names(e.keys) || |t.entries| + |e.keys| <= t.maxEntries
  }

  predicate AdmitsNaming(e: Event, n: string) {
    e.Began? && e.answer.Admitted? && n in Names(e.keys)
  }

  /** The key keeps a Begin out: locked, or with so many attempts in flight that they may lock it. */
  predicate Blocks(e: Entry, now: int) {
    now < e.lockedUntil || (e.pending > 0 && e.failures + e.pending >= e.policy.maxFailures)
  }

  predicate KeepsOut(t: Table, keys: seq<Key>, now: int, n: string) {
    n in Names(keys) && n in t.entries && Blocks(t.entries[n], now)
  }

  /** What n's lock, or the attempts in flight, ask a refused Begin to wait. */
  function Wait(e: Entry, now: int): int {
    if now < e.lockedUntil then e.lockedUntil - now else 1_000_000_000
  }

  /** A Begin is refused if and only if a key it names keeps it out, and for as long as the
      longest of these asks. */
  lemma RefusedIff(t: Table, keys: seq<Key>, now: int, t': Table, answer: Answer)
    requires BeginStep(t, keys, now, t', answer)
    ensures answer.Refused? <==> exists n :: KeepsOut(t, keys, now, n)
    ensures answer.Refused? ==> forall n :: KeepsOut(t, keys, now, n) ==> Wait(t.entries[n], now) <= answer.retryAfter
    ensures answer.Refused? ==> exists n :: KeepsOut(t, keys, now, n) && Wait(t.entries[n], now) == answer.retryAfter
  {
    var looked := Looked(t, keys, now);
    WaitIsLongest(looked.entries, keys, now);
    assert forall n :: KeepsOut(t, keys, now, n) ==>
      n in looked.entries && BlockedFor(looked.entries[n], now) == Wait(t.entries[n], now) > 0;
    assert forall n :: n in looked.entries && n in Names(keys) && BlockedFor(looked.entries[n], now) > 0 ==>
      KeepsOut(t, keys, now, n);
  }

  lemma {:induction false} MissingAtMost(entries: map<string, Entry>, keys: seq<Key>)
    ensures Missing(entries, keys) <= |keys|
  {
    if keys != [] {
      MissingAtMost(entries, keys[..|keys| - 1]);
    }
  }

  /** A failure that is not old yet. */
  predicate Fresh(e: Entry, now: int) {
    e.failures > 0 && now - e.lastFailure < e.policy.resetAfter
  }

  lemma RoomSpares(t: Table, keys: seq<Key>, now: int, roomy: Table, ok: bool, n: string)
    requires n in t.entries && Fresh(t.entries[n], now)
    requires n in Names(keys) || |t.entries| + |keys| <= t.maxEntries
    requires RoomFor(Looked(t, keys, now), keys, now, roomy, ok)
    ensures n in roomy.entries && roomy.entries[n] == t.entries[n]
  {
    var looked := Looked(t, keys, now);
    LookedThins(t, keys, now);
    RoomThins(looked, keys, now, roomy, ok);
    if n !in Names(keys) {
      ThinningShrinks(t.entries, now, looked.entries);
      MissingAtMost(looked.entries, keys);
    }
  }

  lemma BeginRemembers(t: Table, keys: seq<Key>, now: int, t': Table, answer: Answer, n: string)
    requires BeginStep(t, keys, now, t', answer) && Count(keys, n) <= 1 && n in t.entries && Fresh(t.entries[n], now)
    requires n in Names(keys) || |t.entries| + |keys| <= t.maxEntries
    ensures n in t'.entries && t'.entries[n] == t.entries[n].(pending := t'.entries[n].pending)
  {
    hide MadeRoom, Missing, LongestWait, ChargeAll, Names;
    var looked := Looked(t, keys, now);
    if answer.Saturated? {
      RoomSpares(t, keys, now, t', false, n);
    } else if answer.Admitted? {
      var roomy :| RoomFor(looked, keys, now, roomy, true) && t' == Admit(roomy, keys);
      RoomSpares(t, keys, now, roomy, true, n);
      ChargedOnce(roomy.entries, keys, n);
    }
  }

  /** Entry e' is what the end of one attempt makes of entry e. */
  predicate SettledAs(e: Entry, o: Outcome, now: int, e': Entry) {
    && e'.policy == e.policy && e'.pending == e.pending - 1
    && e'.lastFailure == (if o == Failed then now else e.lastFailure)
    && e'.failures == (match o
                       case Failed => e.failures + 1
                       case Succeeded => if e.policy.resetOnSuccess then 0 else e.failures
                       case Cancelled => e.failures)
    && e'.lockedUntil == (match o
                          case Failed => if e.failures + 1 < e.policy.maxFailures then e.lockedUntil
                            else now + Lockout(e.policy, e.failures + 1 - e.policy.maxFailures)
                          case Succeeded => if e.policy.resetOnSuccess then 0 else e.lockedUntil
                          case Cancelled => e.lockedUntil)
  }

  /** An end that names n settles n's entry, which stays while it says anything: an attempt in
      flight, a lock, or a failure that is not old yet. */
  lemma EndSettles(t: Table, e: Event, clock: int, n: string, o: Outcome) returns (e': Entry)
    requires Safe(t, clock, n) && EndsAs(t, e, n, o)
    ensures n in t.entries && SettledAs(t.entries[n], o, e.now, e')
    ensures var t' := FinishStep(t, e.id, o, e.now);
            && (n in t'.entries <==> e'.pending > 0 || e.now < e'.lockedUntil || Fresh(e', e.now))
            && (n in t'.entries ==> t'.entries[n] == e')
  {
    LiveKeysKept(t, e.id, n);
    CountsNamed(t.live[e.id], n);
    SettledOnce(t.entries, t.live[e.id], o, e.now, n);
    var was := t.entries[n];
    e' := ApplyOutcome(was.(pending := was.pending - 1), o, e.now);
  }

  /** What an event leaves of a fresh failure: only a success clears it, only a failure adds to it. */
  lemma StepRemembers(t: Table, e: Event, t': Table, clock: int, n: string)
    requires Safe(t, clock, n) && Step(t, e, t') && (e.Began? ==> Count(e.keys, n) <= 1)
    requires n in t.entries && t.entries[n].policy.resetAfter > 0 && Fresh(t.entries[n], e.now)
    requires SparesRoom(t, e, n) && !Clears(t, e, n)
    ensures n in t'.entries && t'.entries[n].policy == t.entries[n].policy
    ensures t'.entries[n].failures == t.entries[n].failures + if EndsAs(t, e, n, Failed) then 1 else 0
    ensures t'.entries[n].lastFailure == if EndsAs(t, e, n, Failed) then e.now else t.entries[n].lastFailure
  {
    hide BeginStep;
    match e {
      case Began(keys, now, answer) => BeginRemembers(t, keys, now, t', answer, n);
      case Ended(id, o, now) =>
        if EndsAs(t, e, n, o) {
          var e' := EndSettles(t, e, clock, n, o);
        } else if id in t.live {
          CountsNamed(t.live[id], n);
          SettledOnce(t.entries, t.live[id], o, now, n);
        }
    }
  }

  // ----- failures add up -----

  ghost predicate FailedAt(ts: seq<Table>, es: seq<Event>, f: nat, n: string)
    requires |ts| == |es| + 1
  {
    f < |es| && EndsAs(ts[f], es[f], n, Failed)
  }

  /** How many attempts on n failed from event i on, before event k. */
  ghost function FailCount(ts: seq<Table>, es: seq<Event>, i: nat, k: nat, n: string): nat
    requires |ts| == |es| + 1 && i <= k
    decreases k - i
  {
    if k == i then 0 else FailCount(ts, es, i, k - 1, n) + if FailedAt(ts, es, k - 1, n) then 1 else 0
  }

  /** Event k comes less than so long after a failure of n at event i or later. */
  ghost predicate Recent(ts: seq<Table>, es: seq<Event>, i: nat, k: nat, n: string, within: int)
    requires |ts| == |es| + 1 && k < |es|
  {
    exists f: nat :: i <= f < k && FailedAt(ts, es, f, n) && es[k].now - es[f].now < within
  }

  /** Nothing between events i and k makes the limiter forget n: each comes soon after a failure,
      none clears n, and none has to make room for other keys. */
  ghost predicate Recalls(ts: seq<Table>, es: seq<Event>, i: nat, k: nat, n: string, within: int)
    requires |ts| == |es| + 1 && k <= |es|
  {
    forall j: nat :: i < j < k ==>
      Recent(ts, es, i, j, n, within) && !Clears(ts[j], es[j], n) && SparesRoom(ts[j], es[j], n)
  }

  ghost predicate HasPolicy(t: Table, n: string, p: Policy) {
    n in t.entries && t.entries[n].policy == p
  }

  /** What n's entry says after event i, a failure, until event k. */
  ghost predicate Remembered(ts: seq<Table>, es: seq<Event>, i: nat, k: nat, n: string, p: Policy)
    requires |ts| == |es| + 1 && i < k <= |es| && n in ts[i].entries
  {
    && HasPolicy(ts[k], n, p)
    && ts[k].entries[n].failures == ts[i].entries[n].failures + FailCount(ts, es, i, k, n) > 0
    && forall f: nat :: i <= f < k && FailedAt(ts, es, f, n) ==> es[f].now <= ts[k].entries[n].lastFailure
  }

  lemma SafeAt(ts: seq<Table>, es: seq<Event>, k: nat, n: string)
    requires FromEmpty(ts, es) && NamedOnce(es, n) && k < |es|
    ensures Safe(ts[k], Clock(es, k), n) && Step(ts[k], es[k], ts[k + 1])
    ensures es[k].Began? ==> Count(es[k].keys, n) <= 1
  {
    EmptySound(ts[0], n);
    RunSafe(ts, es, 0, n, k);
  }

  lemma FailureCounts(t: Table, e: Event, t': Table, clock: int, n: string, p: Policy)
    requires Safe(t, clock, n) && Step(t, e, t') && EndsAs(t, e, n, Failed) && HasPolicy(t, n, p) && p.resetAfter > 0
    ensures HasPolicy(t', n, p) && t'.entries[n].failures == t.entries[n].failures + 1 > 0
    ensures t'.entries[n].lastFailure == e.now
  {
    var e' := EndSettles(t, e, clock, n, Failed);
  }

  lemma FirstFailure(ts: seq<Table>, es: seq<Event>, i: nat, n: string, p: Policy)
    requires |ts| == |es| + 1 && FailedAt(ts, es, i, n) && HasPolicy(ts[i], n, p) && p.resetAfter > 0
    requires Safe(ts[i], Clock(es, i), n) && Step(ts[i], es[i], ts[i + 1])
    ensures Remembered(ts, es, i, i + 1, n, p)
  {
    hide Safe, Step, EndsAs;
    FailureCounts(ts[i], es[i], ts[i + 1], Clock(es, i), n, p);
    assert FailCount(ts, es, i, i, n) == 0;
  }

  /** Failures add up: as long as nothing makes the limiter forget, n's entry counts every one. */
  lemma {:induction false} FailuresAddUp(ts: seq<Table>, es: seq<Event>, i: nat, k: nat, n: string, p: Policy)
    requires FromEmpty(ts, es) && NamedOnce(es, n) && FailedAt(ts, es, i, n) && i < k <= |es|
    requires HasPolicy(ts[i], n, p) && p.resetAfter > 0 && Recalls(ts, es, i, k, n, p.resetAfter)
    ensures Remembered(ts, es, i, k, n, p)
    decreases k
  {
    hide Remembered, Recent, Clears, SparesRoom, Safe, Step, NamedOnce, FailedAt;
    SafeAt(ts, es, k - 1, n);
    if k == i + 1 {
      FirstFailure(ts, es, i, n, p);
    } else {
      FailuresAddUp(ts, es, i, k - 1, n, p);
      assert Recent(ts, es, i, k - 1, n, p.resetAfter);
      RemembersOne(ts, es, i, k - 1, n, p);
    }
  }

  lemma RemembersOne(ts: seq<Table>, es: seq<Event>, i: nat, h: nat, n: string, p: Policy)
    requires |ts| == |es| + 1 && i < h < |es| && n in ts[i].entries && p.resetAfter > 0
    requires Safe(ts[h], Clock(es, h), n) && Step(ts[h], es[h], ts[h + 1])
    requires es[h].Began? ==> Count(es[h].keys, n) <= 1
    requires forall f :: 0 <= f < h ==> es[f].now <= es[h].now
    requires Remembered(ts, es, i, h, n, p) && Recent(ts, es, i, h, n, p.resetAfter)
    requires !Clears(ts[h], es[h], n) && SparesRoom(ts[h], es[h], n)
    ensures Remembered(ts, es, i, h + 1, n, p)
  {
    hide Step, Safe, EndsAs, Clears, SparesRoom;
    var f: nat :| i <= f < h && FailedAt(ts, es, f, n) && es[h].now - es[f].now < p.resetAfter;
    StepRemembers(ts[h], es[h], ts[h + 1], Clock(es, h), n);
  }

  lemma FailureSetsLock(ts: seq<Table>, es: seq<Event>, j: nat, n: string, p: Policy, over: nat)
    requires FromEmpty(ts, es) && NamedOnce(es, n) && FailedAt(ts, es, j, n)
    requires HasPolicy(ts[j + 1], n, p) && ts[j + 1].entries[n].failures == p.maxFailures + over
    ensures ts[j + 1].entries[n].lockedUntil == es[j].now + Lockout(p, over)
  {
    SafeAt(ts, es, j, n);
    hide Lockout;
    var e' := EndSettles(ts[j], es[j], Clock(es, j), n, Failed);
  }

  /** So enough failures lock the key: after failure j, with so many more than its limit, every
      Begin that names n is refused until that failure's lockout is over. */
  lemma FailuresLock(ts: seq<Table>, es: seq<Event>, i: nat, j: nat, k: nat, n: string, p: Policy, over: nat)
    requires FromEmpty(ts, es) && NamedOnce(es, n) && FailedAt(ts, es, i, n) && FailedAt(ts, es, j, n)
    requires i <= j < k < |es| && HasPolicy(ts[i], n, p) && p.resetAfter > 0
    requires Recalls(ts, es, i, j + 1, n, p.resetAfter)
    requires ts[i].entries[n].failures + FailCount(ts, es, i, j + 1, n) == p.maxFailures + over
    requires es[k].now < es[j].now + Lockout(p, over) && es[k].Began? && n in Names(es[k].keys)
    ensures es[k].answer.Refused? && es[k].answer.retryAfter >= es[j].now + Lockout(p, over) - es[k].now
  {
    hide Lockout, Recalls, Names, FailedAt, NamedOnce, LocksOutlast;
    FailuresAddUp(ts, es, i, j + 1, n, p);
    FailureSetsLock(ts, es, j, n, p, over);
    hide Remembered, FromEmpty, FailCount;
    LockHolds(ts, es, n, j + 1, k);
  }

  // ----- where counting starts -----

  /** The limiter holds nothing against n. */
  predicate Clean(t: Table, n: string) {
    n in t.entries ==> t.entries[n].failures == 0 == t.entries[n].lockedUntil
  }

  /** A success of a policy that resets leaves nothing held against the key. */
  lemma SuccessClears(ts: seq<Table>, es: seq<Event>, k: nat, n: string)
    requires FromEmpty(ts, es) && NamedOnce(es, n) && k < |es| && EndsAs(ts[k], es[k], n, Succeeded)
    requires n in ts[k].entries && ts[k].entries[n].policy.resetOnSuccess
    ensures Clean(ts[k + 1], n)
  {
    SafeAt(ts, es, k, n);
    var e' := EndSettles(ts[k], es[k], Clock(es, k), n, Succeeded);
  }

  predicate NewFor(keys: seq<Key>, n: string, e: Entry) {
    && e == Entry(e.policy, 0, 1, 0, 0)
    && exists i :: 0 <= i < |keys| && keys[i] == Key(n, e.policy)
  }

  lemma {:induction false} ChargesNew(entries: map<string, Entry>, keys: seq<Key>, n: string)
    requires Count(keys, n) <= 1 && n !in entries && n in ChargeAll(entries, keys)
    ensures NewFor(keys, n, ChargeAll(entries, keys)[n])
  {
    var front, last := keys[..|keys| - 1], |keys| - 1;
    ChargedOnce(entries, front, n);
    if keys[last].name == n {
      assert keys[last] == Key(n, keys[last].policy);
    } else {
      ChargesNew(entries, front, n);
      var i :| 0 <= i < |front| && front[i] == Key(n, ChargeAll(entries, front)[n].policy);
      assert keys[i] == front[i];
    }
  }

  /** Where an entry comes from: an attempt on it ended, or it was there but for an attempt more
      in flight, or a Begin that found none made it. */
  lemma BeginFrom(t: Table, keys: seq<Key>, now: int, t': Table, answer: Answer, n: string)
    requires BeginStep(t, keys, now, t', answer) && Count(keys, n) <= 1 && n in t'.entries
    ensures (n in t.entries && t'.entries[n] == t.entries[n].(pending := t'.entries[n].pending))
      || (answer.Admitted? && NewFor(keys, n, t'.entries[n]))
  {
    hide MadeRoom, Missing, LongestWait, ChargeAll, Names, NewFor, Expired;
    var looked := Looked(t, keys, now);
    LookedThins(t, keys, now);
    if answer.Saturated? {
      RoomThins(looked, keys, now, t', false);
    } else if answer.Admitted? {
      var roomy :| RoomFor(looked, keys, now, roomy, true) && t' == Admit(roomy, keys);
      RoomThins(looked, keys, now, roomy, true);
      ChargedOnce(roomy.entries, keys, n);
      if n !in roomy.entries {
        ChargesNew(roomy.entries, keys, n);
      }
    }
  }

  lemma StepFrom(t: Table, e: Event, t': Table, clock: int, n: string)
    requires Safe(t, clock, n) && Step(t, e, t') && (e.Began? ==> Count(e.keys, n) <= 1) && n in t'.entries
    ensures (e.Began? && NewFor(e.keys, n, t'.entries[n]))
      || (n in t.entries
          && if e.Ended? && EndsAs(t, e, n, e.outcome) then SettledAs(t.entries[n], e.outcome, e.now, t'.entries[n])
             else t'.entries[n] == t.entries[n].(pending := t'.entries[n].pending))
  {
    hide BeginStep, NewFor, SettledAs;
    match e {
      case Began(keys, now, answer) => BeginFrom(t, keys, now, t', answer, n);
      case Ended(id, o, now) =>
        if EndsAs(t, e, n, o) {
          var e' := EndSettles(t, e, clock, n, o);
        } else if id in t.live {
          CountsNamed(t.live[id], n);
          SettledOnce(t.entries, t.live[id], o, now, n);
        }
    }
  }

  lemma StepStaysClean(t: Table, e: Event, t': Table, clock: int, n: string)
    requires Safe(t, clock, n) && Step(t, e, t') && (e.Began? ==> Count(e.keys, n) <= 1)
    requires Clean(t, n) && !EndsAs(t, e, n, Failed)
    ensures Clean(t', n)
  {
    hide Safe, Step, EndsAs, Lockout;
    if n in t'.entries {
      StepFrom(t, e, t', clock, n);
    }
  }

  /** While no attempt on n fails, nothing is held against it. */
  lemma {:induction false} CleanStays(ts: seq<Table>, es: seq<Event>, b: nat, k: nat, n: string)
    requires FromEmpty(ts, es) && NamedOnce(es, n) && b <= k <= |es| && Clean(ts[b], n)
    requires FailCount(ts, es, b, k, n) == 0
    ensures Clean(ts[k], n)
    decreases k
  {
    hide Safe, Step, NamedOnce, Clean, EndsAs;
    if b < k {
      CleanStays(ts, es, b, k - 1, n);
      SafeAt(ts, es, k - 1, n);
      StepStaysClean(ts[k - 1], es[k - 1], ts[k], Clock(es, k - 1), n);
    }
  }

  /** An entry holds no more failures against n than there were, and no lock before there were
      as many as its policy allows. */
  ghost predicate HeldFor(t: Table, n: string, failures: nat) {
    n in t.entries ==>
      && t.entries[n].failures <= failures
      && (t.entries[n].lockedUntil != 0 ==> t.entries[n].policy.maxFailures <= failures)
  }

  lemma StepHolds(t: Table, e: Event, t': Table, clock: int, n: string, failures: nat)
    requires Safe(t, clock, n) && Step(t, e, t') && (e.Began? ==> Count(e.keys, n) <= 1) && HeldFor(t, n, failures)
    ensures HeldFor(t', n, failures + if EndsAs(t, e, n, Failed) then 1 else 0)
  {
    hide Safe, Step, EndsAs, Lockout;
    if n in t'.entries {
      StepFrom(t, e, t', clock, n);
    }
  }

  lemma CleanHolds(t: Table, n: string)
    requires Clean(t, n)
    ensures HeldFor(t, n, 0)
  {
  }

  lemma {:induction false} NothingElseCounts(ts: seq<Table>, es: seq<Event>, b: nat, k: nat, n: string)
    requires FromEmpty(ts, es) && NamedOnce(es, n) && b <= k <= |es| && Clean(ts[b], n)
    ensures HeldFor(ts[k], n, FailCount(ts, es, b, k, n))
    decreases k
  {
    hide Safe, Step, NamedOnce, Clean, EndsAs, HeldFor;
    if b == k {
      CleanHolds(ts[b], n);
    } else {
      NothingElseCounts(ts, es, b, k - 1, n);
      SafeAt(ts, es, k - 1, n);
      StepHolds(ts[k - 1], es[k - 1], ts[k], Clock(es, k - 1), n, FailCount(ts, es, b, k - 1, n));
    }
  }

  /** A key keeps a Begin out only when its failures since it was last clean and its attempts in
      flight together reach its limit. */
  lemma KeptOutForFailures(ts: seq<Table>, es: seq<Event>, b: nat, k: nat, n: string)
    requires FromEmpty(ts, es) && NamedOnce(es, n) && b <= k < |es| && Clean(ts[b], n) && es[k].Began?
    requires KeepsOut(ts[k], es[k].keys, es[k].now, n)
    ensures FailCount(ts, es, b, k, n) + Charges(ts[k].live, n) >= ts[k].entries[n].policy.maxFailures
  {
    NothingElseCounts(ts, es, b, k, n);
    SafeAt(ts, es, k, n);
    RunKeySound(ts, es, n, k);
    hide Lockout, Step, Run, NamedOnce, Names;
    assert Pending(ts[k].entries, n) == Charges(ts[k].live, n);
  }

  /** From a clean start, as many failures as the limit allows and so many more, each less than
      ResetAfter after the one before, keep every Begin that names n out for that lockout. */
  lemma LimitLocks(ts: seq<Table>, es: seq<Event>, b: nat, i: nat, j: nat, k: nat, n: string, p: Policy, over: nat)
    requires FromEmpty(ts, es) && NamedOnce(es, n) && b <= i <= j < k < |es| && Clean(ts[b], n)
    requires FailCount(ts, es, b, i, n) == 0 && FailedAt(ts, es, i, n) && FailedAt(ts, es, j, n)
    requires HasPolicy(ts[i], n, p) && p.resetAfter > 0 && Recalls(ts, es, i, j + 1, n, p.resetAfter)
    requires FailCount(ts, es, i, j + 1, n) == p.maxFailures + over
    requires es[k].now < es[j].now + Lockout(p, over) && es[k].Began? && n in Names(es[k].keys)
    ensures es[k].answer.Refused? && es[k].answer.retryAfter >= es[j].now + Lockout(p, over) - es[k].now
  {
    hide FromEmpty, NamedOnce, FailedAt, Recalls, Lockout, Names, FailCount;
    CleanStays(ts, es, b, i, n);
    FailuresLock(ts, es, i, j, k, n, p, over);
  }

  // ----- forgetting -----

  lemma StepKeepsTime(t: Table, e: Event, t': Table, clock: int, n: string)
    requires Safe(t, clock, n) && Step(t, e, t') && (e.Began? ==> Count(e.keys, n) <= 1)
    requires n in t'.entries && t'.entries[n].failures > 0
    ensures if EndsAs(t, e, n, Failed) then t'.entries[n].lastFailure == e.now
            else n in t.entries && t.entries[n].failures > 0 && t'.entries[n].lastFailure == t.entries[n].lastFailure
  {
    hide Step, Lockout;
    StepFrom(t, e, t', clock, n);
  }

  /** The time an entry keeps is that of a failure of the run. */
  lemma {:induction false} LastFailureHappened(ts: seq<Table>, es: seq<Event>, k: nat, n: string)
    requires FromEmpty(ts, es) && NamedOnce(es, n) && k <= |es| && n in ts[k].entries && ts[k].entries[n].failures > 0
    ensures exists f: nat :: f < k && FailedAt(ts, es, f, n) && es[f].now == ts[k].entries[n].lastFailure
    decreases k
  {
    hide Safe, Step, NamedOnce, EndsAs;
    if k > 0 {
      SafeAt(ts, es, k - 1, n);
      StepKeepsTime(ts[k - 1], es[k - 1], ts[k], Clock(es, k - 1), n);
      if !FailedAt(ts, es, k - 1, n) {
        LastFailureHappened(ts, es, k - 1, n);
      }
    }
  }

  lemma NobodyCharged(t: Table, n: string)
    requires Conserved(t) && forall id :: id in t.live ==> n !in Names(t.live[id])
    ensures Pending(t.entries, n) == 0
  {
    assert forall id, i :: id in t.live && 0 <= i < |t.live[id]| && t.live[id][i].name == n ==> n in Names(t.live[id]);
    assert Charged(t.live, n) == {};
  }

  lemma StartsOver(t: Table, keys: seq<Key>, now: int, t': Table, answer: Answer, n: string)
    requires BeginStep(t, keys, now, t', answer) && answer.Admitted? && n in Names(keys) && Count(keys, n) <= 1
    requires n in t.entries ==> t.entries[n].pending == 0 && !Fresh(t.entries[n], now) && t.entries[n].failures >= 0
    ensures n in t'.entries && NewFor(keys, n, t'.entries[n])
  {
    hide MadeRoom, Missing, LongestWait, ChargeAll, NewFor;
    var looked := Looked(t, keys, now);
    WaitIsLongest(looked.entries, keys, now);
    assert n !in looked.entries;
    var roomy :| RoomFor(looked, keys, now, roomy, true) && t' == Admit(roomy, keys);
    RoomThins(looked, keys, now, roomy, true);
    CountsNamed(keys, n);
    ChargedOnce(roomy.entries, keys, n);
    ChargesNew(roomy.entries, keys, n);
  }

  /** Once no attempt on n is in flight and its failures are all ResetAfter old, the next
      attempt that is let in starts from zero. */
  lemma OldFailuresForgotten(ts: seq<Table>, es: seq<Event>, b: nat, n: string)
    requires FromEmpty(ts, es) && NamedOnce(es, n) && b < |es| && AdmitsNaming(es[b], n)
    requires forall id :: id in ts[b].live ==> n !in Names(ts[b].live[id])
    requires n in ts[b].entries ==>
               forall f: nat :: f < b && FailedAt(ts, es, f, n) ==>
                 es[b].now - es[f].now >= ts[b].entries[n].policy.resetAfter
    ensures n in ts[b + 1].entries && NewFor(es[b].keys, n, ts[b + 1].entries[n]) && Clean(ts[b + 1], n)
  {
    SafeAt(ts, es, b, n);
    hide Names, FromEmpty, NamedOnce, BeginStep;
    NobodyCharged(ts[b], n);
    if n in ts[b].entries && ts[b].entries[n].failures > 0 {
      LastFailureHappened(ts, es, b, n);
    }
    StartsOver(ts[b], es[b].keys, es[b].now, ts[b + 1], es[b].answer, n);
  }

  /** The entry says something: an attempt in flight, a lock, or failures that are not old yet. */
  predicate Says(e: Entry, now: int) {
    e.pending > 0 || now < e.lockedUntil || (e.failures != 0 && now - e.lastFailure < e.policy.resetAfter)
  }

  lemma {:induction false} ChargingSays(entries: map<string, Entry>, keys: seq<Key>, now: int)
    requires forall n :: n in entries ==> entries[n].pending >= 0 && Says(entries[n], now)
    ensures forall n :: n in ChargeAll(entries, keys) ==>
      ChargeAll(entries, keys)[n].pending >= 0 && Says(ChargeAll(entries, keys)[n], now)
  {
    if keys != [] {
      ChargingSays(entries, keys[..|keys| - 1], now);
    }
  }

  /** Once a minute a Begin drops every entry that says nothing any more. */
  lemma DueBeginSweeps(t: Table, keys: seq<Key>, now: int, t': Table, answer: Answer)
    requires Conserved(t) && BeginStep(t, keys, now, t', answer) && now - t.lastSweep >= 60_000_000_000
    ensures t'.lastSweep == now && forall n :: n in t'.entries ==> Says(t'.entries[n], now)
  {
    hide Missing, LongestWait, ChargeAll, Charges;
    var looked := Looked(t, keys, now);
    assert forall n :: n in t.entries ==> Pending(t.entries, n) == t.entries[n].pending >= 0;
    if answer.Admitted? {
      var roomy :| RoomFor(looked, keys, now, roomy, true) && t' == Admit(roomy, keys);
      ChargingSays(roomy.entries, keys, now);
    }
  }

  // ----- eviction -----

  predicate Distinct(keys: seq<Key>) {
    forall i, j :: 0 <= i < j < |keys| ==> keys[i].name != keys[j].name
  }

  lemma LastName(keys: seq<Key>)
    requires keys != []
    ensures var front, name := keys[..|keys| - 1], keys[|keys| - 1].name;
            && Names(keys) == Names(front) + {name}
            && (Distinct(keys) ==> Distinct(front) && name !in Names(front))
  {
  }

  lemma {:induction false} ChargedKeys(entries: map<string, Entry>, keys: seq<Key>)
    ensures ChargeAll(entries, keys).Keys == entries.Keys + Names(keys)
  {
    if keys != [] {
      ChargedKeys(entries, keys[..|keys| - 1]);
      LastName(keys);
    }
  }

  lemma OneMissing(front: set<string>, name: string, present: set<string>)
    requires name !in front
    ensures |front + {name} - present| == |front - present| + if name in present then 0 else 1
  {
    assert front + {name} - present == if name in present then front - present else (front - present) + {name};
  }

  lemma {:induction false} MissingDistinct(entries: map<string, Entry>, keys: seq<Key>)
    requires Distinct(keys)
    ensures Missing(entries, keys) == |Names(keys) - entries.Keys|
  {
    if keys == [] {
      assert Names(keys) == {};
    } else {
      hide Names, Distinct;
      var front, name := keys[..|keys| - 1], keys[|keys| - 1].name;
      LastName(keys);
      MissingDistinct(entries, front);
      OneMissing(Names(front), name, entries.Keys);
    }
  }

  lemma UnionSize<K>(a: set<K>, b: set<K>)
    ensures |a + b| == |a| + |b - a|
  {
    assert a + b == a + (b - a);
  }

  lemma EvictionMakesJustEnough(looked: Table, keys: seq<Key>, now: int, roomy: Table, n: string)
    requires RoomFor(looked, keys, now, roomy, true)
    requires n in looked.entries && !Expired(looked.entries[n], now) && n !in roomy.entries
    ensures |roomy.entries| + Missing(looked.entries, keys) == looked.maxEntries == roomy.maxEntries
  {
    assert n in SweepAll(looked.entries, now);
  }

  /** An entry that still says something makes room for others only while there is none: a Begin
      that evicts one leaves the table exactly full. */
  lemma EvictionFills(t: Table, keys: seq<Key>, now: int, t': Table, id: nat, n: string)
    requires BeginStep(t, keys, now, t', Admitted(id)) && Distinct(keys)
    requires n in t.entries && Says(t.entries[n], now) && n !in t'.entries
    ensures |t'.entries| == t.maxEntries
  {
    hide LongestWait, ChargeAll, Missing, RoomFor, Names, Distinct;
    var looked := Looked(t, keys, now);
    var roomy :| RoomFor(looked, keys, now, roomy, true) && t' == Admit(roomy, keys);
    ChargedKeys(roomy.entries, keys);
    LookedUnexpired(t, keys, now);
    RoomThins(looked, keys, now, roomy, true);
    MissingElsewhere(looked.entries, roomy.entries, keys);
    MissingDistinct(roomy.entries, keys);
    EvictionMakesJustEnough(looked, keys, now, roomy, n);
    UnionSize(roomy.entries.Keys, Names(keys));
    assert |t'.entries| == |t'.entries.Keys| && |roomy.entries| == |roomy.entries.Keys|;
  }
}
