/** Login throttling: the bounded table of throttled keys and its transitions.

    Time is an unbounded count of nanoseconds; 0 stands for Go's zero time, so
    every clock reading is at or after 0.  Durations are 64-bit in the program;
    the one place where that width can be felt, the doubling of a lockout, is
    written with its wrap-around. */
module ThrottleModel {
  const SWEEP_INTERVAL := 60_000_000_000
  const PENDING_RETRY_AFTER := 1_000_000_000
  const SATURATED_RETRY_AFTER := 60_000_000_000
  const TWO_62 := 0x4000_0000_0000_0000
  const TWO_63 := 0x8000_0000_0000_0000
  const TWO_64 := 0x1_0000_0000_0000_0000

  datatype Policy = Policy(maxFailures: int, baseLockout: int, maxLockout: int, resetAfter: int, resetOnSuccess: bool)

  datatype Key = Key(name: string, policy: Policy)

  datatype Entry = Entry(policy: Policy, failures: int, pending: int, lastFailure: int, lockedUntil: int)

  /** How a credential attempt ended. */
  datatype Outcome = Failed | Succeeded | Cancelled

  /** What Begin answers: an admitted attempt, a wait, or a full table. */
  datatype Answer = Admitted(id: nat) | Refused(retryAfter: int) | Saturated

  /** The limiter's table, and the attempts charged to it that have not ended. */
  datatype Table = Table(maxEntries: int, entries: map<string, Entry>, lastSweep: int, live: map<nat, seq<Key>>,
    nextId: nat)

  // ----- entries -----

  function Wrap64(x: int): int {
    (x + TWO_63) % TWO_64 - TWO_63
  }

  function Min(a: int, b: int): int {
    if a < b then a else b
  }

  function Pow2(n: nat): nat {
    if n == 0 then 1 else 2 * Pow2(n - 1)
  }

  /** The loop of Policy.lockout, from a lockout already reached. */
  function LockoutFrom(lockout: int, maxLockout: int, over: int): int
    decreases if over > 0 then over else 0
  {
    if over > 0 && lockout < maxLockout then
      LockoutFrom(Wrap64(lockout * 2), maxLockout, over - 1)
    else
      Min(lockout, maxLockout)
  }

  function Lockout(p: Policy, over: int): int {
    LockoutFrom(p.baseLockout, p.maxLockout, over)
  }

  predicate Locked(e: Entry, now: int) {
    now < e.lockedUntil
  }

  function BlockedFor(e: Entry, now: int): int {
    if now < e.lockedUntil then e.lockedUntil - now
    else if e.pending > 0 && e.failures + e.pending >= e.policy.maxFailures then PENDING_RETRY_AFTER
    else 0
  }

  predicate Expired(e: Entry, now: int) {
    && !(e.pending > 0 || now < e.lockedUntil)
    && (e.failures == 0 || now - e.lastFailure >= e.policy.resetAfter)
  }

  function ApplyOutcome(e: Entry, o: Outcome, now: int): Entry {
    match o
    case Failed =>
      var failures := e.failures + 1;
      var over := failures - e.policy.maxFailures;
      e.(failures := failures, lastFailure := now,
         lockedUntil := if over >= 0 then now + Lockout(e.policy, over) else e.lockedUntil)
    case Succeeded =>
      if e.policy.resetOnSuccess then e.(failures := 0, lockedUntil := 0) else e
    case Cancelled => e
  }

  // ----- the table -----

  function Names(keys: seq<Key>): set<string> {
    set i | 0 <= i < |keys| :: keys[i].name
  }

  function Drop(entries: map<string, Entry>, name: string): map<string, Entry> {
    map n | n in entries && n != name :: entries[n]
  }

  function SweepAll(entries: map<string, Entry>, now: int): map<string, Entry> {
    map n | n in entries && !Expired(entries[n], now) :: entries[n]
  }

  function Sweep(t: Table, now: int, force: bool): Table {
    if !force && now - t.lastSweep < SWEEP_INTERVAL then t
    else t.(entries := SweepAll(t.entries, now), lastSweep := now)
  }

  /** The table after Begin's first pass: expired requested entries are gone. */
  function DropExpired(entries: map<string, Entry>, keys: seq<Key>, now: int): map<string, Entry> {
    map n | n in entries && !(n in Names(keys) && Expired(entries[n], now)) :: entries[n]
  }

  /** How many requested positions the table holds no entry for. */
  function Missing(entries: map<string, Entry>, keys: seq<Key>): nat {
    if keys == [] then 0
    else Missing(entries, keys[..|keys| - 1]) + if keys[|keys| - 1].name in entries then 0 else 1
  }

  /** The longest wait any requested entry asks for. */
  function LongestWait(entries: map<string, Entry>, keys: seq<Key>, now: int): nat {
    if keys == [] then 0
    else
      var before := LongestWait(entries, keys[..|keys| - 1], now);
      var name := keys[|keys| - 1].name;
      if name in entries && BlockedFor(entries[name], now) > before then BlockedFor(entries[name], now) else before
  }

  predicate Evictable(entries: map<string, Entry>, keys: seq<Key>, now: int, n: string) {
    n in entries && n !in Names(keys) && entries[n].pending == 0 && !Locked(entries[n], now)
  }

  /** makeRoomLocked: which tables it may leave.  Map iteration order is the only choice. */
  ghost predicate MadeRoom(t: Table, keys: seq<Key>, needed: nat, now: int, t': Table, ok: bool) {
    if |t.entries| + needed <= t.maxEntries then ok && t' == t
    else
      var swept := SweepAll(t.entries, now);
      && t' == t.(entries := t'.entries, lastSweep := now)
      && t'.entries.Keys <= swept.Keys
      && (forall n :: n in t'.entries ==> t'.entries[n] == swept[n])
      && (forall n :: n in swept && n !in t'.entries ==> Evictable(swept, keys, now, n))
      && ok == (|t'.entries| + needed <= t.maxEntries)
      // it stops as soon as there is room, and gives up only when nothing is left to evict
      && (t'.entries != swept ==> |t'.entries| + 1 + needed > t.maxEntries)
      && (!ok ==> forall n :: n in t'.entries ==> !Evictable(swept, keys, now, n))
  }

  /** Begin's last pass: one charge per requested position. */
  function ChargeOne(entries: map<string, Entry>, key: Key): map<string, Entry> {
    var e := if key.name in entries then entries[key.name] else Entry(key.policy, 0, 0, 0, 0);
    entries[key.name := e.(pending := e.pending + 1)]
  }

  function ChargeAll(entries: map<string, Entry>, keys: seq<Key>): map<string, Entry> {
    if keys == [] then entries else ChargeOne(ChargeAll(entries, keys[..|keys| - 1]), keys[|keys| - 1])
  }

  /** The table once Begin has swept and looked every requested key up. */
  function Looked(t: Table, keys: seq<Key>, now: int): Table {
    var swept := Sweep(t, now, false);
    swept.(entries := DropExpired(swept.entries, keys, now))
  }

  ghost predicate RoomFor(looked: Table, keys: seq<Key>, now: int, roomy: Table, ok: bool) {
    var missing := Missing(looked.entries, keys);
    if missing > 0 then MadeRoom(looked, keys, missing, now, roomy, ok) else roomy == looked && ok
  }

  function Admit(roomy: Table, keys: seq<Key>): Table {
    roomy.(entries := ChargeAll(roomy.entries, keys), live := roomy.live[roomy.nextId := keys],
      nextId := roomy.nextId + 1)
  }

  /** One call of Begin, from table t to table t'. */
  ghost predicate BeginStep(t: Table, keys: seq<Key>, now: int, t': Table, answer: Answer) {
    var looked := Looked(t, keys, now);
    var wait := LongestWait(looked.entries, keys, now);
    match answer
    case Refused(retryAfter) => wait > 0 && retryAfter == wait && t' == looked
    case Saturated => wait == 0 && RoomFor(looked, keys, now, t', false)
    case Admitted(id) =>
      && wait == 0 && id == t.nextId
      && exists roomy: Table :: RoomFor(looked, keys, now, roomy, true) && t' == Admit(roomy, keys)
  }

  /** finish for one requested position. */
  function SettleOne(entries: map<string, Entry>, name: string, o: Outcome, now: int): map<string, Entry> {
    if name !in entries then entries
    else
      var e := entries[name];
      var settled := ApplyOutcome(e.(pending := e.pending - 1), o, now);
      if Expired(settled, now) then Drop(entries, name) else entries[name := settled]
  }

  function SettleAll(entries: map<string, Entry>, keys: seq<Key>, o: Outcome, now: int): map<string, Entry> {
    if keys == [] then entries
    else SettleOne(SettleAll(entries, keys[..|keys| - 1], o, now), keys[|keys| - 1].name, o, now)
  }

  /** One call of Fail, Succeed or Cancel on an attempt; a second call finds no live attempt. */
  function FinishStep(t: Table, id: nat, o: Outcome, now: int): Table {
    if id in t.live then
      t.(entries := SettleAll(t.entries, t.live[id], o, now), live := t.live - {id})
    else t
  }
}
