/** Merges and their Undo over whole runs. */
module CircleUndo {
  import opened CircleTables
  import opened CircleCompare
  import opened CircleRestore
  import opened CircleStatements
  import opened CircleMerge
  import opened CircleSeries
  import opened CircleSubscriptions
  import opened CircleIdentity

  // ----- one merge with its review, and one Undo -----

  /** A merge as its review records it: circles, review number, snapshots. */
  datatype Step = Step(target: nat, source: nat, id: nat, name: nat, before: Snapshot, after: Snapshot)

  function ReviewRow(step: Step, merged: bool, stamp: nat): Row {
    Row(Seen(step.target, step.id, 0, Review(merged, stamp)), "")
  }

  /** The tables of the merge itself, before its review was inserted. */
  function Mid(r: Db, step: Step): Db { r - {ReviewKey(step.id)} }

  ghost predicate Merges(db: Db, r: Db, step: Step) {
    && Merged(db, Mid(r, step), step.target, step.source, step.name)
    && step.before == Capture(db, step.target, step.source)
    && step.after == Capture(Mid(r, step), step.target, step.source)
    && ReviewKey(step.id) in r && (exists stamp :: r[ReviewKey(step.id)] == ReviewRow(step, true, stamp))
    && (forall n: nat :: ReviewKey(n) in db ==> n < step.id)
  }

  predicate IsMergedReview(db: Db, n: nat, target: nat) {
    ReviewKey(n) in db && db[ReviewKey(n)].seen.owner == target && db[ReviewKey(n)].seen.cells.Review?
      && db[ReviewKey(n)].seen.cells.merged
  }

  function Undone(db: Db, step: Step, stamp: nat): Db {
    RestoredDb(db, step.before, step.after)[ReviewKey(step.id) := ReviewRow(step, false, stamp)]
  }

  /** What Undo asks for: the target's latest review, unchanged rows, and no constraint broken. */
  ghost predicate MayUndo(cols: Columns, now: Db, step: Step, stamp: nat) {
    && IsMergedReview(now, step.id, step.target)
    && (forall n: nat :: IsMergedReview(now, n, step.target) ==> n <= step.id)
    && Allows(cols, step.before, step.after, Capture(now, step.target, step.source))
    && Schema(Undone(now, step, stamp))
  }

  // ----- merges undo in stack order -----

  ghost predicate MergeRun(states: seq<Db>, steps: seq<Step>) {
    |states| == |steps| + 1 && forall i :: 0 <= i < |steps| ==> Merges(states[i], states[i + 1], steps[i])
  }

  /** Undo the last merge, then the one before it, and so on. */
  function Unwound(now: Db, steps: seq<Step>, stamp: nat): Db
    decreases |steps|
  {
    if steps == [] then now
    else Unwound(Undone(now, steps[|steps| - 1], stamp), steps[..|steps| - 1], stamp)
  }

  ghost predicate MayUnwind(cols: Columns, now: Db, steps: seq<Step>, stamp: nat)
    decreases |steps|
  {
    steps == [] || (MayUndo(cols, now, steps[|steps| - 1], stamp)
      && MayUnwind(cols, Undone(now, steps[|steps| - 1], stamp), steps[..|steps| - 1], stamp))
  }

  /** None of the merges wrote a number of a million or more. */
  ghost predicate NoneWriteLarge(cols: Columns, states: seq<Db>, steps: seq<Step>)
    requires |states| == |steps| + 1
  {
    forall i :: 0 <= i < |steps| ==> StepFits(cols, states[i], states[i + 1], steps[i])
  }

  ghost predicate StepFits(cols: Columns, db: Db, r: Db, step: Step) {
    !WritesLarge(cols, db, Mid(r, step))
  }

  function Reviews(steps: seq<Step>): set<Key> {
    set i | 0 <= i < |steps| :: ReviewKey(steps[i].id)
  }

  /** now shows db in every captured column, but for reviews that came later and were undone. */
  ghost predicate Alike(now: Db, db: Db, later: set<Key>) {
    && (forall k :: k !in later ==> SeenAt(now, k) == SeenAt(db, k))
    && (forall k :: k in later ==> LaterReview(now, db, k))
  }

  ghost predicate LaterReview(now: Db, db: Db, k: Key) {
    && k.table == MergeReview && k.id.Number? && (forall n: nat :: ReviewKey(n) in db ==> n < k.id.n)
    && k in now && now[k].seen.cells.Review? && !now[k].seen.cells.merged && PartyKey(now[k].seen.owner) in db
  }

  /** What a merge changed is no review of its own or of a later merge. */
  lemma ChangedBefore(db: Db, r: Db, now: Db, step: Step, later: set<Key>, k: Key)
    requires Merges(db, r, step) && Alike(now, r, later) && SeenAt(db, k) != SeenAt(Mid(r, step), k)
    ensures k !in later && k != ReviewKey(step.id)
  {
    hide Merged;
    assert k in later ==> LaterReview(now, r, k) && k == ReviewKey(k.id.n);
  }

  /** The source of a merge changes back: the rows of the merge are as it left them. */
  lemma AlikePermits(db: Db, r: Db, now: Db, step: Step, later: set<Key>)
    requires Merges(db, r, step) && Alike(now, r, later)
    ensures Permits(step.before, step.after, Capture(now, step.target, step.source))
  {
    var mid, t, s := Mid(r, step), step.target, step.source;
    MergeIsLocal(db, mid, t, s, step.name);
    hide Merged;
    forall k | SeenAt(db, k) != SeenAt(mid, k)
      ensures if k in mid then SeenAt(now, k) == SeenAt(mid, k) && InScope(now, k, t, s)
        else k in now ==> !InScope(now, k, t, s)
    {
      ChangedBefore(db, r, now, step, later, k);
      assert SeenAt(now, k) == SeenAt(r, k) == SeenAt(mid, k);
      if k in mid && k.table == SeriesWork {
        var series := SeriesKey(mid[k].seen.owner);
        assert Get(db, k) != Get(mid, k);
        assert InScope(mid, k, t, s) && series !in later;
        assert SeenAt(now, series) == SeenAt(r, series) == SeenAt(mid, series);
      }
    }
    PermitsIff(db, mid, now, t, s);
  }

  lemma AlikeAfter(db: Db, r: Db, now: Db, step: Step, later: set<Key>, stamp: nat)
    requires Merges(db, r, step) && Alike(now, r, later)
    ensures Alike(Undone(now, step, stamp), db, later + {ReviewKey(step.id)})
  {
    hide Permits, LaterReview, Merged;
    var mid, t, s := Mid(r, step), step.target, step.source;
    MergeIsLocal(db, mid, t, s, step.name);
    var back := Undone(now, step, stamp);
    forall k | k !in later + {ReviewKey(step.id)}
      ensures SeenAt(back, k) == SeenAt(db, k)
    {
      RestoreExact(db, mid, now, t, s, k);
      assert SeenAt(now, k) == SeenAt(r, k) == SeenAt(mid, k);
    }
    forall k | k in later + {ReviewKey(step.id)}
      ensures LaterReview(back, db, k)
    {
      if k == ReviewKey(step.id) {
        OwnReview(db, r, now, step, stamp);
      } else {
        LaterStays(db, r, now, step, later, stamp, k);
      }
    }
  }

  /** The review of the merge undone is itself one that came later, and undone. */
  lemma OwnReview(db: Db, r: Db, now: Db, step: Step, stamp: nat)
    requires Merges(db, r, step)
    ensures LaterReview(Undone(now, step, stamp), db, ReviewKey(step.id))
  {
    MergeKeepsConstraints(db, Mid(r, step), step.target, step.source, step.name);
    hide Merged, Schema, RestoredDb;
  }

  lemma LaterStays(db: Db, r: Db, now: Db, step: Step, later: set<Key>, stamp: nat, k: Key)
    requires Merges(db, r, step) && Alike(now, r, later) && k in later && k != ReviewKey(step.id)
    ensures LaterReview(Undone(now, step, stamp), db, k)
  {
    LaterIsNew(db, r, now, step, later, k);
    hide Merged, Permits, Alike;
    var mid, t, s := Mid(r, step), step.target, step.source;
    SchemaOfMerge(db, r, step);
    RestoreExact(db, mid, now, t, s, k);
  }

  lemma SchemaOfMerge(db: Db, r: Db, step: Step)
    requires Merges(db, r, step)
    ensures Local(db, Mid(r, step), step.target, step.source) && SeriesExist(db) && SeriesExist(Mid(r, step))
    ensures step.before == Capture(db, step.target, step.source)
      && step.after == Capture(Mid(r, step), step.target, step.source)
  {
    hide Merged, Local, Capture;
    MergeIsLocal(db, Mid(r, step), step.target, step.source, step.name);
  }

  /** A later review is in neither state around an earlier merge, and its circle is in both. */
  lemma LaterIsNew(db: Db, r: Db, now: Db, step: Step, later: set<Key>, k: Key)
    requires Merges(db, r, step) && Alike(now, r, later) && k in later && k != ReviewKey(step.id)
    ensures LaterReview(now, db, k) && SeenAt(db, k) == SeenAt(Mid(r, step), k) == None
  {
    hide Merged, Local, Capture, Schema;
    var mid, s := Mid(r, step), step.source;
    MergeEmptiesSource(db, mid, step.target, s, step.name);
    assert LaterReview(now, r, k);
    assert k == ReviewKey(k.id.n);
    assert ReviewKey(step.id) in r && step.id < k.id.n;
    assert k !in db && k !in r;
    var party := now[k].seen.owner;
    assert Get(mid, PartyKey(party)) == Get(r, PartyKey(party));
    assert party != s ==> Get(mid, PartyKey(party)) == Get(db, PartyKey(party));
  }

  lemma AlikeSchema(now: Db, db: Db, later: set<Key>)
    requires Schema(db) && Alike(now, db, later)
    ensures Schema(now)
  {
    hide Alike;
    AlikeKeys(now, db, later);
    AlikeReferences(now, db, later);
    AlikeNames(now, db, later);
  }

  lemma AlikeKeys(now: Db, db: Db, later: set<Key>)
    requires KeysMatch(db) && Alike(now, db, later)
    ensures KeysMatch(now)
  {
    assert forall k :: k in now && k !in later ==> SeenAt(now, k) == SeenAt(db, k);
  }

  lemma AlikeReferences(now: Db, db: Db, later: set<Key>)
    requires SeriesExist(db) && PartiesExist(db) && Alike(now, db, later)
    ensures SeriesExist(now) && PartiesExist(now)
  {
    forall k: Key | k.table in {Series, Party}
      ensures k in now <==> k in db
    {
      assert k !in later && SeenAt(now, k) == SeenAt(db, k);
    }
    assert forall k :: k in now && k !in later ==> SeenAt(now, k) == SeenAt(db, k);
  }

  lemma AlikeNames(now: Db, db: Db, later: set<Key>)
    requires NamesUnique(db) && Alike(now, db, later)
    ensures NamesUnique(now)
  {
    forall j, k | j in now && k in now && j.table == k.table && HasUniqueIndex(k.table)
      && SameName(now[j].seen, now[k].seen)
      ensures j == k
    {
      assert j !in later && k !in later;
      assert SeenAt(now, j) == SeenAt(db, j) && SeenAt(now, k) == SeenAt(db, k);
    }
  }

  /** Every step of the way back is allowed if and only if its merge wrote no large number. */
  lemma OneUndo(cols: Columns, db: Db, r: Db, now: Db, step: Step, later: set<Key>, stamp: nat)
    requires Merges(db, r, step) && Alike(now, r, later)
    ensures MayUndo(cols, now, step, stamp) <==> StepFits(cols, db, r, step)
    ensures Alike(Undone(now, step, stamp), db, later + {ReviewKey(step.id)})
  {
    hide Merged, Schema, Alike, Permits, Undone, IsMergedReview, NoLargeNumber, WritesLarge;
    SchemaOfMerge(db, r, step);
    WritesLargeIff(cols, db, Mid(r, step), step.target, step.source);
    hide Local, SeriesExist, Capture;
    MergeKeepsConstraints(db, Mid(r, step), step.target, step.source, step.name);
    AlikePermits(db, r, now, step, later);
    AlikeAfter(db, r, now, step, later, stamp);
    AlikeSchema(Undone(now, step, stamp), db, later + {ReviewKey(step.id)});
    LatestIs(db, r, now, step, later);
  }

  lemma LatestIs(db: Db, r: Db, now: Db, step: Step, later: set<Key>)
    requires Merges(db, r, step) && Alike(now, r, later)
    ensures IsMergedReview(now, step.id, step.target)
    ensures forall n: nat :: IsMergedReview(now, n, step.target) ==> n <= step.id
  {
    hide Merged, Permits;
    assert ReviewKey(step.id) !in later;
    assert SeenAt(now, ReviewKey(step.id)) == SeenAt(r, ReviewKey(step.id));
    forall n: nat | IsMergedReview(now, n, step.target)
      ensures n <= step.id
    {
      assert ReviewKey(n) !in later;
      assert SeenAt(now, ReviewKey(n)) == SeenAt(r, ReviewKey(n));
      if n != step.id {
        ReviewsKept(db, r, step, n);
      }
    }
  }

  /** A merge adds no review but its own. */
  lemma ReviewsKept(db: Db, r: Db, step: Step, n: nat)
    requires Merges(db, r, step) && n != step.id
    ensures ReviewKey(n) in r <==> ReviewKey(n) in db
  {
    hide Merged, AliasesCarried, StatesMerged, SubscriptionsCarried, CirclesStay, FollowersCombined, OnePrimary,
      Capture;
    MergeFactsHold(db, Mid(r, step), step.target, step.source, step.name);
    assert Get(Mid(r, step), ReviewKey(n)) == Get(Repoint(db, MergeReview, step.target, step.source), ReviewKey(n));
  }

  lemma RunPrefix(states: seq<Db>, steps: seq<Step>)
    requires MergeRun(states, steps) && steps != []
    ensures var n := |steps| - 1; Merges(states[n], states[n + 1], steps[n]) && MergeRun(states[..n + 1], steps[..n])
  {
    hide Merges;
  }

  lemma ReviewsSplit(steps: seq<Step>, later: set<Key>)
    requires steps != []
    ensures var n := |steps| - 1; later + Reviews(steps) == later + {ReviewKey(steps[n].id)} + Reviews(steps[..n])
  {
  }

  lemma FitsSplit(cols: Columns, states: seq<Db>, steps: seq<Step>)
    requires |states| == |steps| + 1 && steps != []
    ensures var n := |steps| - 1;
      NoneWriteLarge(cols, states, steps)
      <==> StepFits(cols, states[n], states[n + 1], steps[n]) && NoneWriteLarge(cols, states[..n + 1], steps[..n])
  {
    hide StepFits;
    var n := |steps| - 1;
    forall i | 0 <= i < n
      ensures StepFits(cols, states[..n + 1][i], states[..n + 1][i + 1], steps[..n][i]) ==
        StepFits(cols, states[i], states[i + 1], steps[i])
    {
    }
  }

  /** After any run of merges, nested or not, undoing them from the last to the first gives
      back every captured column of the first state; only the undone reviews are left.  It
      is allowed at every step if and only if no merge wrote a number of a million or more. */
  lemma {:induction false} MergesUnwind(cols: Columns, states: seq<Db>, steps: seq<Step>, now: Db, later: set<Key>,
      stamp: nat)
    requires MergeRun(states, steps) && Alike(now, states[|steps|], later)
    ensures MayUnwind(cols, now, steps, stamp) <==> NoneWriteLarge(cols, states, steps)
    ensures Alike(Unwound(now, steps, stamp), states[0], later + Reviews(steps))
    decreases |steps|
  {
    if steps == [] {
      assert later + Reviews(steps) == later;
    } else {
      hide MayUndo, Alike, Merges, MergeRun, Reviews, Undone, NoneWriteLarge, StepFits;
      RunPrefix(states, steps);
      ReviewsSplit(steps, later);
      FitsSplit(cols, states, steps);
      var n := |steps| - 1;
      OneUndo(cols, states[n], states[n + 1], now, steps[n], later, stamp);
      MergesUnwind(cols, states[..n + 1], steps[..n], Undone(now, steps[n], stamp), later + {ReviewKey(steps[n].id)},
        stamp);
    }
  }

  /** In particular right after the run, with nothing in between. */
  lemma MergesUndoInReverse(cols: Columns, states: seq<Db>, steps: seq<Step>, stamp: nat)
    requires MergeRun(states, steps)
    ensures MayUnwind(cols, states[|steps|], steps, stamp) <==> NoneWriteLarge(cols, states, steps)
    ensures forall k :: k !in Reviews(steps) ==>
      SeenAt(Unwound(states[|steps|], steps, stamp), k) == SeenAt(states[0], k)
  {
    MergesUnwind(cols, states, steps, states[|steps|], {}, stamp);
  }

  /** A merge whose target was merged on cannot be undone first: its review is no longer the
      old target's, and not the new target's latest. */
  lemma NestedWaits(cols: Columns, db: Db, first: Db, second: Db, inner: Step, outer: Step, stamp: nat)
    requires Merges(db, first, inner) && Merges(first, second, outer) && outer.source == inner.target
    ensures !MayUndo(cols, second, inner, stamp) && !MayUndo(cols, second, inner.(target := outer.target), stamp)
  {
    hide Allows, Schema, Merged, Undone, AliasesCarried, StatesMerged, SubscriptionsCarried, CirclesStay,
      FollowersCombined, OnePrimary, Capture;
    var k := ReviewKey(inner.id);
    MergeFactsHold(first, Mid(second, outer), outer.target, outer.source, outer.name);
    MergeKeepsConstraints(first, Mid(second, outer), outer.target, outer.source, outer.name);
    assert inner.id < outer.id && k in first;
    assert Get(second, k) == Get(Mid(second, outer), k) ==
      Get(Repoint(first, MergeReview, outer.target, outer.source), k);
    assert second[k].seen.owner == outer.target != inner.target;
    assert IsMergedReview(second, outer.id, outer.target);
  }

  // ----- the cover code, which no snapshot captures -----

  /** Whether every user's cover code of every circle is as it was. */
  ghost predicate CoversKept(db: Db, r: Db) {
    forall party, user: nat :: StateKey(party, user) in db ==>
      StateKey(party, user) in r && r[StateKey(party, user)].hidden == db[StateKey(party, user)].hidden
  }

  /** Undoing a merge at once restores the cover codes exactly when no user had one for the
      source: the target keeps what it took over, and the source's own codes are gone. */
  lemma CoversKeptIff(db: Db, mid: Db, t: nat, s: nat, name: nat)
    requires Merged(db, mid, t, s, name)
    ensures CoversKept(db, RestoredDb(mid, Capture(db, t, s), Capture(mid, t, s)))
            <==> forall user: nat :: StateKey(s, user) in db ==> db[StateKey(s, user)].hidden == ""
  {
    hide Merged;
    var back := RestoredDb(mid, Capture(db, t, s), Capture(mid, t, s));
    forall user: nat | StateKey(s, user) in db
      ensures StateKey(s, user) in back && back[StateKey(s, user)].hidden == ""
    {
      SourceCover(db, mid, t, s, name, user);
    }
    forall party: nat, user: nat | party != s && StateKey(party, user) in db
      ensures (StateKey(s, user) in db ==> db[StateKey(s, user)].hidden == "") ==>
                StateKey(party, user) in back && back[StateKey(party, user)].hidden == db[StateKey(party, user)].hidden
    {
      if StateKey(s, user) in db ==> db[StateKey(s, user)].hidden == "" {
        TargetCover(db, mid, t, s, name, party, user);
      }
    }
  }

  lemma SourceCover(db: Db, mid: Db, t: nat, s: nat, name: nat, user: nat)
    requires Merged(db, mid, t, s, name) && StateKey(s, user) in db
    ensures var k, back := StateKey(s, user), RestoredDb(mid, Capture(db, t, s), Capture(mid, t, s));
            k in back && back[k].hidden == ""
  {
    MergeIsLocal(db, mid, t, s, name);
    MergeEmptiesSource(db, mid, t, s, name);
    MergeKeepsConstraints(db, mid, t, s, name);
    hide Merged, SeriesExist, PartiesExist, NamesUnique;
    var k := StateKey(s, user);
    assert k !in mid;
    RestoreExact(db, mid, mid, t, s, k);
    CaptureSeesChanges(db, mid, t, s, k);
  }

  lemma TargetCover(db: Db, mid: Db, t: nat, s: nat, name: nat, party: nat, user: nat)
    requires Merged(db, mid, t, s, name) && party != s && StateKey(party, user) in db
    requires StateKey(s, user) in db ==> db[StateKey(s, user)].hidden == ""
    ensures var k, back := StateKey(party, user), RestoredDb(mid, Capture(db, t, s), Capture(mid, t, s));
            k in back && back[k].hidden == db[k].hidden
  {
    MergeIsLocal(db, mid, t, s, name);
    MergeFactsHold(db, mid, t, s, name);
    MergeKeepsConstraints(db, mid, t, s, name);
    hide Merged, AliasesCarried, SubscriptionsCarried, CirclesStay, FollowersCombined, OnePrimary, ReviewsMoved,
      SeriesExist, PartiesExist, NamesUnique;
    var k := StateKey(party, user);
    StateKept(db, mid, t, s, party, user);
    hide StatesMerged, Local;
    RestoreExact(db, mid, mid, t, s, k);
    CaptureSeesChanges(db, mid, t, s, k);
  }

  /** The merge itself keeps the cover code of a user's state of another circle than the source. */
  lemma StateKept(db: Db, mid: Db, t: nat, s: nat, party: nat, user: nat)
    requires Local(db, mid, t, s) && StatesMerged(db, mid, t, s) && KeysMatch(db)
    requires party != s && StateKey(party, user) in db
    requires StateKey(s, user) in db ==> db[StateKey(s, user)].hidden == ""
    ensures StateKey(party, user) in mid && mid[StateKey(party, user)].hidden == db[StateKey(party, user)].hidden
  {
    var k := StateKey(party, user);
    if party == t {
      assert Get(mid, StateKey(t, user)) ==
        Some(if StateKey(s, user) in db then Combine(db[k], db[StateKey(s, user)]) else db[k]);
    } else {
      assert Get(db, k) == Get(mid, k);
    }
  }

  // ----- subscriptions under Undo -----

  /** Undo keeps the invariant: no account ends with a circle subscription and one to a
      series of that circle, whatever was subscribed between the merge and its Undo. */
  lemma UndoKeepsCovered(db: Db, mid: Db, now: Db, t: nat, s: nat, name: nat, at: nat)
    requires Merged(db, mid, t, s, name) && Covered(db)
    requires Schema(now) && Covered(now) && Permits(Capture(db, t, s), Capture(mid, t, s), Capture(now, at, s))
    ensures Covered(RestoredDb(now, Capture(db, t, s), Capture(mid, t, s)))
  {
    var back := RestoredDb(now, Capture(db, t, s), Capture(mid, t, s));
    forall party: nat, user: nat, series: nat | party > 0 && series > 0 && Subscribed(back, party, user, 0)
      ensures !Subscribed(back, party, user, series)
    {
      if Subscribed(back, party, user, series) {
        var c :| Named(back, c, Subscription, party, user, 0);
        var e :| Named(back, e, Subscription, party, user, series);
        NotBoth(db, mid, now, t, s, name, at, party, user, series, c, e);
      }
    }
  }

  /** A subscription after the Undo was there before the merge, in one of its circles, or is there now. */
  lemma FromBeforeOrNow(db: Db, mid: Db, now: Db, t: nat, s: nat, name: nat, at: nat, party: nat, user: nat,
      series: nat, k: Key)
    requires Merged(db, mid, t, s, name) && Permits(Capture(db, t, s), Capture(mid, t, s), Capture(now, at, s))
    requires Named(RestoredDb(now, Capture(db, t, s), Capture(mid, t, s)), k, Subscription, party, user, series)
    ensures if SeenAt(db, k) != SeenAt(mid, k)
            then Named(db, k, Subscription, party, user, series) && (party == t || party == s)
            else Named(now, k, Subscription, party, user, series)
  {
    MergeIsLocal(db, mid, t, s, name);
    hide Merged, Permits;
    RestoreExact(db, mid, now, t, s, k);
    assert SeenAt(db, k) != SeenAt(mid, k) ==> Get(db, k) != Get(mid, k);
  }

  /** What the merge left of a row it changed is still there. */
  lemma StillThere(db: Db, mid: Db, now: Db, t: nat, s: nat, name: nat, at: nat, k: Key)
    requires Merged(db, mid, t, s, name) && Permits(Capture(db, t, s), Capture(mid, t, s), Capture(now, at, s))
    requires k in mid && SeenAt(db, k) != SeenAt(mid, k)
    ensures SeenAt(now, k) == SeenAt(mid, k)
  {
    MergeIsLocal(db, mid, t, s, name);
    hide Merged;
    CaptureSeesChanges(db, mid, t, s, k);
    assert Look(Capture(now, at, s), k) == Look(Capture(mid, t, s), k);
  }

  /** The source circle has not come back. */
  lemma SourceStaysAway(db: Db, mid: Db, now: Db, t: nat, s: nat, name: nat, at: nat)
    requires Merged(db, mid, t, s, name) && Permits(Capture(db, t, s), Capture(mid, t, s), Capture(now, at, s))
    requires KeysMatch(now)
    ensures PartyKey(s) !in now
  {
    MergeIsLocal(db, mid, t, s, name);
    MergeEmptiesSource(db, mid, t, s, name);
    MergeKeepsConstraints(db, mid, t, s, name);
    hide Merged, SeriesExist, PartiesExist, NamesUnique;
    var k := PartyKey(s);
    assert k in db && db[k].seen.owner == s;
    assert k !in mid;
    CaptureSeesChanges(db, mid, t, s, k);
    assert k !in Capture(now, at, s);
  }

  lemma CircleWasThere(db: Db, mid: Db, now: Db, t: nat, s: nat, name: nat, at: nat, user: nat, c: Key)
    requires Merged(db, mid, t, s, name) && Permits(Capture(db, t, s), Capture(mid, t, s), Capture(now, at, s))
    requires Named(db, c, Subscription, t, user, 0) && SeenAt(db, c) != SeenAt(mid, c)
    ensures Subscribed(now, t, user, 0)
  {
    MergeFactsHold(db, mid, t, s, name);
    hide Merged, Permits;
    StillThere(db, mid, now, t, s, name, at, c);
    assert Named(now, c, Subscription, t, user, 0);
  }

  /** A subscription to the circle that covered a series is still what the merge made it. */
  lemma CoveringCircle(db: Db, mid: Db, now: Db, t: nat, s: nat, name: nat, at: nat, user: nat, series: nat, e: Key)
    returns (c: Key)
    requires Merged(db, mid, t, s, name) && Permits(Capture(db, t, s), Capture(mid, t, s), Capture(now, at, s))
    requires Covered(db) && series > 0 && t > 0
    requires Named(db, e, Subscription, t, user, series) && e !in mid
    ensures Named(now, c, Subscription, t, user, 0) && SeenAt(db, c) != SeenAt(mid, c)
  {
    MergeFactsHold(db, mid, t, s, name);
    hide Permits, Merged;
    c :| Named(mid, c, Subscription, t, user, 0);
    assert Subscribed(db, t, user, series);
    assert SeenAt(db, c) == SeenAt(mid, c) ==> Named(db, c, Subscription, t, user, 0);
    StillThere(db, mid, now, t, s, name, at, c);
  }

  lemma SeriesWasThere(db: Db, mid: Db, now: Db, t: nat, s: nat, name: nat, at: nat, user: nat, series: nat, c: Key,
      e: Key)
    requires Merged(db, mid, t, s, name) && Permits(Capture(db, t, s), Capture(mid, t, s), Capture(now, at, s))
    requires Covered(db) && Schema(now) && series > 0 && t > 0
    requires Named(now, c, Subscription, t, user, 0)
    requires Named(db, e, Subscription, t, user, series) && SeenAt(db, e) != SeenAt(mid, e)
    ensures Subscribed(now, t, user, series) || SeenAt(db, c) != SeenAt(mid, c)
  {
    hide Permits, Merged, Schema, CirclesStay, SeenAt, Capture;
    if e in mid {
      SeriesStill(db, mid, now, t, s, name, at, user, series, e);
    } else {
      var c' := CoveringCircle(db, mid, now, t, s, name, at, user, series, e);
      OneCircle(now, t, user, c, c');
    }
  }

  lemma SeriesStill(db: Db, mid: Db, now: Db, t: nat, s: nat, name: nat, at: nat, user: nat, series: nat, e: Key)
    requires Merged(db, mid, t, s, name) && Permits(Capture(db, t, s), Capture(mid, t, s), Capture(now, at, s))
    requires Named(db, e, Subscription, t, user, series) && SeenAt(db, e) != SeenAt(mid, e) && e in mid
    ensures Subscribed(now, t, user, series)
  {
    MergeFactsHold(db, mid, t, s, name);
    hide Permits, Merged;
    StillThere(db, mid, now, t, s, name, at, e);
    assert Named(now, e, Subscription, t, user, series);
  }

  lemma OneCircle(now: Db, t: nat, user: nat, c: Key, c': Key)
    requires Schema(now) && t > 0 && Named(now, c, Subscription, t, user, 0) && Named(now, c', Subscription, t, user, 0)
    ensures c == c'
  {
    assert SameName(now[c].seen, now[c'].seen);
  }

  lemma NotBoth(db: Db, mid: Db, now: Db, t: nat, s: nat, name: nat, at: nat, party: nat, user: nat, series: nat,
      c: Key, e: Key)
    requires Merged(db, mid, t, s, name) && Covered(db) && party > 0 && series > 0
    requires Schema(now) && Covered(now) && Permits(Capture(db, t, s), Capture(mid, t, s), Capture(now, at, s))
    requires Named(RestoredDb(now, Capture(db, t, s), Capture(mid, t, s)), c, Subscription, party, user, 0)
    ensures !Named(RestoredDb(now, Capture(db, t, s), Capture(mid, t, s)), e, Subscription, party, user, series)
  {
    hide Permits, Merged;
    var circleChanged, seriesChanged := SeenAt(db, c) != SeenAt(mid, c), SeenAt(db, e) != SeenAt(mid, e);
    FromBeforeOrNow(db, mid, now, t, s, name, at, party, user, 0, c);
    SourceStaysAway(db, mid, now, t, s, name, at);
    assert if circleChanged then Subscribed(db, party, user, 0) else Subscribed(now, party, user, 0);
    if Named(RestoredDb(now, Capture(db, t, s), Capture(mid, t, s)), e, Subscription, party, user, series) {
      FromBeforeOrNow(db, mid, now, t, s, name, at, party, user, series, e);
      assert if seriesChanged then Subscribed(db, party, user, series) else Subscribed(now, party, user, series);
      if circleChanged && !seriesChanged {
        CircleWasThere(db, mid, now, t, s, name, at, user, c);
      } else if !circleChanged && seriesChanged {
        SeriesWasThere(db, mid, now, t, s, name, at, user, series, c, e);
      }
    }
  }
}
