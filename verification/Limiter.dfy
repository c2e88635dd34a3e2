/** The limiter and its attempts as the objects the program mutates.  The mutex
    is held for the whole of every method, so each call is one transition. */
module Limiter {
  import opened ThrottleModel

  /** Policy.lockout as the loop the program runs. */
  method ComputeLockout(p: Policy, over: int) returns (r: int)
    ensures r == Lockout(p, over)
  {
    var lockout, left := p.baseLockout, over;
    while left > 0 && lockout < p.maxLockout
      invariant LockoutFrom(lockout, p.maxLockout, left) == Lockout(p, over)
      decreases left
    {
      lockout, left := Wrap64(lockout * 2), left - 1;
    }
    r := Min(lockout, p.maxLockout);
  }

  /** The function the attempt's end applies to one entry. */
  method Decide(entry: Entry, o: Outcome, now: int) returns (current: Entry)
    ensures current == ApplyOutcome(entry, o, now)
  {
    current := entry;
    match o {
      case Failed =>
        current := current.(failures := current.failures + 1, lastFailure := now);
        var over := current.failures - current.policy.maxFailures;
        if over >= 0 {
          var lockout := ComputeLockout(current.policy, over);
          current := current.(lockedUntil := now + lockout);
        }
      case Succeeded =>
        if current.policy.resetOnSuccess {
          current := current.(failures := 0, lockedUntil := 0);
        }
      case Cancelled =>
    }
  }

  class Limiter {
    const maxEntries: int
    var entries: map<string, Entry>
    var lastSweep: int
    ghost var live: map<nat, seq<Key>>
    ghost var nextId: nat

    ghost predicate Valid()
      reads this
    {
      forall id :: id in live ==> id < nextId
    }

    ghost function State(): Table
      reads this
    {
      Table(maxEntries, entries, lastSweep, live, nextId)
    }

    constructor (maxEntries: int)
      ensures Valid() && State() == Table(maxEntries, map[], 0, map[], 0)
    {
      this.maxEntries := maxEntries;
      entries, lastSweep, live, nextId := map[], 0, map[], 0;
    }

    method SweepLocked(now: int, force: bool)
      requires Valid()
      modifies this
      ensures Valid() && State() == Sweep(old(State()), now, force)
    {
      if !force && now - lastSweep < SWEEP_INTERVAL {
        return;
      }
      lastSweep := now;
      ghost var was := entries;
      var todo := entries.Keys;
      while todo != {}
        invariant todo <= entries.Keys <= was.Keys
        invariant forall n :: n in entries ==> entries[n] == was[n]
        invariant forall n :: n in was && n !in todo ==> (n in entries <==> !Expired(was[n], now))
        invariant lastSweep == now && live == old(live) && nextId == old(nextId)
        decreases |todo|
      {
        var name :| name in todo;
        todo := todo - {name};
        if Expired(entries[name], now) {
          entries := Drop(entries, name);
        }
      }
      assert entries == SweepAll(was, now);
    }

    method MakeRoomLocked(now: int, keys: seq<Key>, needed: nat) returns (ok: bool)
      requires Valid()
      modifies this
      ensures Valid() && MadeRoom(old(State()), keys, needed, now, State(), ok)
    {
      if |entries| + needed <= maxEntries {
        return true;
      }
      SweepLocked(now, true);
      EvictLocked(now, keys, needed);
      ok := |entries| + needed <= maxEntries;
    }

    /** makeRoomLocked's loop: it stops as soon as there is room. */
    method EvictLocked(now: int, keys: seq<Key>, needed: nat)
      modifies this`entries
      ensures entries.Keys <= old(entries).Keys && forall n :: n in entries ==> entries[n] == old(entries)[n]
      ensures forall n :: n in old(entries) && n !in entries ==> Evictable(old(entries), keys, now, n)
      ensures entries != old(entries) ==> |entries| + 1 + needed > maxEntries
      ensures |entries| + needed > maxEntries ==> forall n :: n in entries ==> !Evictable(old(entries), keys, now, n)
    {
      ghost var swept := entries;
      var requested := set i | 0 <= i < |keys| :: keys[i].name;
      var todo := entries.Keys;
      while todo != {} && |entries| + needed > maxEntries
        invariant todo <= entries.Keys <= swept.Keys
        invariant forall n :: n in entries ==> entries[n] == swept[n]
        invariant forall n :: n in swept && n !in todo ==> (n in entries <==> !Evictable(swept, keys, now, n))
        invariant entries != swept ==> |entries| + 1 + needed > maxEntries
        decreases |todo|
      {
        var name :| name in todo;
        todo := todo - {name};
        var current := entries[name];
        if name !in requested && current.pending == 0 && !(now < current.lockedUntil) {
          DropsOne(entries, name);
          entries := Drop(entries, name);
        }
      }
    }

    static lemma DropsOne(entries: map<string, Entry>, name: string)
      requires name in entries
      ensures var left := Drop(entries, name);
              && name !in left && |left| == |entries| - 1 && left.Keys <= entries.Keys
              && forall n :: n in entries && n != name ==> n in left && left[n] == entries[n]
    {
      assert Drop(entries, name).Keys == entries.Keys - {name};
    }

    static lemma NoneDropped(entries: map<string, Entry>, keys: seq<Key>, now: int)
      ensures DropExpired(entries, keys[..0], now) == entries
    {
    }

    static lemma DropsNext(entries: map<string, Entry>, keys: seq<Key>, i: nat, now: int)
      requires i < |keys|
      ensures var before, n := DropExpired(entries, keys[..i], now), keys[i].name;
              && DropExpired(entries, keys[..i + 1], now) ==
                   (if n in before && Expired(before[n], now) then Drop(before, n) else before)
              && var looked := DropExpired(entries, keys, now);
                 (n in looked <==> n in before && !Expired(before[n], now)) && (n in looked ==> looked[n] == before[n])
    {
      hide Expired;
      assert Names(keys[..i + 1]) == Names(keys[..i]) + {keys[i].name};
      assert keys[i].name in Names(keys);
      assert DropExpired(entries, keys[..i], now).Keys >= DropExpired(entries, keys, now).Keys;
    }

    /** Begin's first pass over the requested keys. */
    method LookUp(now: int, keys: seq<Key>) returns (missing: nat, retryAfter: int)
      requires Valid()
      modifies this`entries
      ensures Valid() && entries == DropExpired(old(entries), keys, now)
      ensures missing == Missing(entries, keys) && retryAfter == LongestWait(entries, keys, now)
    {
      hide Expired, BlockedFor, DropExpired, Names;
      missing, retryAfter := 0, 0;
      ghost var looked := DropExpired(entries, keys, now);
      NoneDropped(entries, keys, now);
      var i := 0;
      while i < |keys|
        invariant 0 <= i <= |keys|
        invariant entries == DropExpired(old(entries), keys[..i], now)
        invariant missing == Missing(looked, keys[..i]) && retryAfter == LongestWait(looked, keys[..i], now)
      {
        var key := keys[i];
        assert keys[..i + 1][..i] == keys[..i];
        DropsNext(old(entries), keys, i, now);
        if key.name in entries && Expired(entries[key.name], now) {
          entries := Drop(entries, key.name);
        }
        if key.name !in entries {
          missing := missing + 1;
        } else {
          var wait := BlockedFor(entries[key.name], now);
          if wait > retryAfter {
            retryAfter := wait;
          }
        }
        i := i + 1;
      }
      assert keys[..|keys|] == keys;
    }

    /** Begin's last pass: one charge for every requested key. */
    method Charge(keys: seq<Key>)
      requires Valid()
      modifies this`entries
      ensures Valid() && entries == ChargeAll(old(entries), keys)
    {
      var i := 0;
      while i < |keys|
        invariant 0 <= i <= |keys|
        invariant entries == ChargeAll(old(entries), keys[..i])
      {
        assert keys[..i + 1][..i] == keys[..i];
        var key := keys[i];
        ghost var uncharged := entries;
        if key.name !in entries {
          entries := entries[key.name := Entry(key.policy, 0, 0, 0, 0)];
        }
        var current := entries[key.name];
        entries := entries[key.name := current.(pending := current.pending + 1)];
        assert entries == ChargeOne(uncharged, key);
        i := i + 1;
      }
      assert keys[..|keys|] == keys;
    }

    /** Charges an attempt against every key.  When any key is blocked, or the table
        is full, it charges none and says how long to wait. */
    method Begin(now: int, keys: seq<Key>) returns (attempt: Attempt?, retryAfter: int, ok: bool, ghost answer: Answer)
      requires Valid()
      modifies this
      ensures Valid() && BeginStep(old(State()), keys, now, State(), answer)
      ensures ok <==> answer.Admitted?
      ensures ok <==> attempt != null
      ensures ok ==>
        fresh(attempt) && attempt.limiter == this && attempt.keys == keys && attempt.Registered() && !attempt.done
        && answer == Admitted(attempt.id)
      ensures retryAfter ==
        match answer case Admitted(_) => 0 case Refused(wait) => wait case Saturated => SATURATED_RETRY_AFTER
    {
      SweepLocked(now, false);
      var missing;
      missing, retryAfter := LookUp(now, keys);
      ghost var looked := State();
      if retryAfter > 0 {
        return null, retryAfter, false, Refused(retryAfter);
      }
      var roomy := true;
      if missing > 0 {
        roomy := MakeRoomLocked(now, keys, missing);
      }
      ghost var room := State();
      assert RoomFor(looked, keys, now, room, roomy);
      if !roomy {
        return null, SATURATED_RETRY_AFTER, false, Saturated;
      }
      Charge(keys);
      attempt := new Attempt(this, keys, nextId);
      live := live[nextId := keys];
      nextId := nextId + 1;
      assert State() == Admit(room, keys);
      return attempt, 0, true, Admitted(attempt.id);
    }
  }

  /** A charged attempt.  The first of Fail, Succeed and Cancel decides it; later calls do nothing. */
  class Attempt {
    const limiter: Limiter
    const keys: seq<Key>
    ghost const id: nat
    var done: bool

    ghost predicate Registered()
      reads this, limiter
    {
      && id < limiter.nextId
      && (done <==> id !in limiter.live)
      && (!done ==> limiter.live[id] == keys)
    }

    constructor (limiter: Limiter, keys: seq<Key>, ghost id: nat)
      ensures this.limiter == limiter && this.keys == keys && this.id == id && !done
    {
      this.limiter, this.keys, this.id, this.done := limiter, keys, id, false;
    }

    method Finish(o: Outcome, now: int)
      requires limiter.Valid() && Registered()
      modifies this, limiter
      ensures limiter.Valid() && Registered() && done
      ensures limiter.State() == FinishStep(old(limiter.State()), id, o, now)
    {
      hide ApplyOutcome, Expired;
      if done {
        return;
      }
      done := true;
      ghost var was := limiter.entries;
      var i := 0;
      while i < |keys|
        invariant 0 <= i <= |keys|
        invariant done
        invariant limiter.State() == old(limiter.State()).(entries := SettleAll(was, keys[..i], o, now))
      {
        assert keys[..i + 1][..i] == keys[..i];
        var name := keys[i].name;
        if name in limiter.entries {
          var current := limiter.entries[name];
          current := Decide(current.(pending := current.pending - 1), o, now);
          limiter.entries := limiter.entries[name := current];
          if Expired(current, now) {
            limiter.entries := Drop(limiter.entries, name);
          }
        }
        i := i + 1;
      }
      assert keys[..|keys|] == keys;
      limiter.live := limiter.live - {id};
    }

    method Fail(now: int)
      requires limiter.Valid() && Registered()
      modifies this, limiter
      ensures limiter.Valid() && Registered() && done
      ensures limiter.State() == FinishStep(old(limiter.State()), id, Failed, now)
    {
      Finish(Failed, now);
    }

    method Succeed(now: int)
      requires limiter.Valid() && Registered()
      modifies this, limiter
      ensures limiter.Valid() && Registered() && done
      ensures limiter.State() == FinishStep(old(limiter.State()), id, Succeeded, now)
    {
      Finish(Succeeded, now);
    }

    method Cancel(now: int)
      requires limiter.Valid() && Registered()
      modifies this, limiter
      ensures limiter.Valid() && Registered() && done
      ensures limiter.State() == FinishStep(old(limiter.State()), id, Cancelled, now)
    {
      Finish(Cancelled, now);
    }
  }
}
