/** The store of circles: Merge, Undo and subscriptions as its operations. */
module CircleStore {
  import opened CircleTables
  import opened CircleCompare
  import opened CircleRestore
  import opened CircleStatements
  import opened CircleMerge
  import opened CircleSeries
  import opened CircleSubscriptions
  import opened CircleIdentity
  import opened CircleUndo

  /** The columns of a review that nothing rewrites. */
  datatype Record = Record(target: nat, source: nat, before: Snapshot, after: Snapshot)

  /** The tables around the merge a review records. */
  datatype Origin = Origin(db: Db, merged: Db, name: nat)

  datatype MergeOutcome = MergedAs(id: nat) | Invalid

  datatype UndoOutcome = UndoDone | NotFound | Conflict | ConstraintFails

  ghost predicate Recorded(record: Record, origin: Origin) {
    && Merged(origin.db, origin.merged, record.target, record.source, origin.name) && Covered(origin.db)
    && record.before == Capture(origin.db, record.target, record.source)
    && record.after == Capture(origin.merged, record.target, record.source)
  }

  ghost predicate AllRecorded(db: Db, records: map<nat, Record>, origins: map<nat, Origin>) {
    && records.Keys == origins.Keys
    && (forall n :: n in records ==> Recorded(records[n], origins[n]))
    && (forall n: nat :: n in records <==> ReviewKey(n) in db)
  }

  lemma CoveredFrame(db: Db, r: Db)
    requires Covered(db) && SameTable(db, r, Subscription)
    ensures Covered(r)
  {
    forall party: nat, user: nat, series: nat
      ensures Subscribed(r, party, user, series) <==> Subscribed(db, party, user, series)
    {
      NamesFrame(db, r, Subscription, party, user, series);
    }
  }

  lemma MergedStaysCovered(db: Db, mid: Db, t: nat, s: nat, name: nat)
    requires Merged(db, mid, t, s, name) && Covered(db)
    ensures Covered(mid)
  {
    MergeIsLocal(db, mid, t, s, name);
    MergeFactsHold(db, mid, t, s, name);
    SourceUnsubscribed(db, mid, t, s, name);
    hide Merged, StatesMerged, AliasesCarried, OnePrimary, ReviewsMoved, CirclesStay, FollowersCombined,
      SubscriptionsCarried, Circles, SeriesExist;
    forall party: nat, user: nat, series: nat | party != t && party != s
      ensures Subscribed(mid, party, user, series) <==> Subscribed(db, party, user, series)
    {
      OthersSubscribed(db, mid, t, s, party, user, series);
    }
    MergeKeepsCovered(db, mid, t, s);
  }

  lemma SourceUnsubscribed(db: Db, mid: Db, t: nat, s: nat, name: nat)
    requires Merged(db, mid, t, s, name)
    ensures NoRows(mid, Subscription, s) && t != s
  {
    hide Schema;
    MergeEmptiesSource(db, mid, t, s, name);
    MergeKeepsConstraints(db, mid, t, s, name);
  }

  lemma OthersSubscribed(db: Db, mid: Db, t: nat, s: nat, party: nat, user: nat, series: nat)
    requires Local(db, mid, t, s) && party != t && party != s
    ensures Subscribed(mid, party, user, series) <==> Subscribed(db, party, user, series)
  {
    if k :| Named(mid, k, Subscription, party, user, series) {
      assert Get(db, k) == Get(mid, k);
      assert Named(db, k, Subscription, party, user, series);
    }
    if k :| Named(db, k, Subscription, party, user, series) {
      assert Get(db, k) == Get(mid, k);
      assert Named(mid, k, Subscription, party, user, series);
    }
  }

  lemma ReviewLeavesSubscriptions(mid: Db, step: Step, r: Db, stamp: nat)
    requires r == mid[ReviewKey(step.id) := ReviewRow(step, true, stamp)]
    ensures SameTable(mid, r, Subscription)
  {
  }

  lemma ReviewFits(mid: Db, step: Step, r: Db, stamp: nat)
    requires Schema(mid) && ReviewKey(step.id) !in mid && PartyKey(step.target) in mid
    requires r == mid[ReviewKey(step.id) := ReviewRow(step, true, stamp)]
    ensures Schema(r)
  {
  }

  lemma RecordedMerge(db: Db, mid: Db, r: Db, step: Step, stamp: nat)
    requires Merged(db, mid, step.target, step.source, step.name)
    requires step.before == Capture(db, step.target, step.source)
      && step.after == Capture(mid, step.target, step.source)
    requires forall n: nat :: ReviewKey(n) in mid ==> n < step.id
    requires r == mid[ReviewKey(step.id) := ReviewRow(step, true, stamp)]
    ensures Merges(db, r, step)
    ensures forall n: nat :: ReviewKey(n) in r <==> ReviewKey(n) in db || n == step.id
  {
    hide Merged;
    assert Mid(r, step) == mid;
    SameReviews(db, mid, step.target, step.source, step.name);
  }

  lemma SameReviews(db: Db, mid: Db, t: nat, s: nat, name: nat)
    requires Merged(db, mid, t, s, name)
    ensures forall n: nat :: ReviewKey(n) in mid <==> ReviewKey(n) in db
  {
    MergeFactsHold(db, mid, t, s, name);
    hide Merged, StatesMerged, AliasesCarried, OnePrimary, CirclesStay, FollowersCombined, SubscriptionsCarried;
    forall n: nat
      ensures ReviewKey(n) in mid <==> ReviewKey(n) in db
    {
      assert Get(mid, ReviewKey(n)) == Get(Repoint(db, MergeReview, t, s), ReviewKey(n));
    }
  }

  method IsLatest(db: Db, target: nat, id: nat) returns (latest: bool)
    ensures latest <==> forall n: nat :: IsMergedReview(db, n, target) ==> n <= id
  {
    var left := db.Keys;
    while left != {}
      invariant left <= db.Keys
      invariant forall n: nat :: ReviewKey(n) in db && ReviewKey(n) !in left && IsMergedReview(db, n, target) ==>
        n <= id
    {
      var k :| k in left;
      left := left - {k};
      if k.table == MergeReview && k.id.Number? && IsMergedReview(db, k.id.n, target) && k.id.n > id {
        assert IsMergedReview(db, k.id.n, target);
        return false;
      }
    }
    return true;
  }

  /** Undo keeps the invariant and the reviews. */
  lemma UndoKeeps(now: Db, record: Record, origin: Origin, step: Step, stamp: nat)
    requires Recorded(record, origin) && Schema(now) && Covered(now) && ReviewKey(step.id) in now
    requires step.before == record.before && step.after == record.after
    requires Permits(record.before, record.after, Capture(now, step.target, record.source))
    ensures Covered(Undone(now, step, stamp))
    ensures forall n: nat :: ReviewKey(n) in Undone(now, step, stamp) <==> ReviewKey(n) in now
  {
    hide Merged, Schema, Permits;
    UndoKeepsCovered(origin.db, origin.merged, now, record.target, record.source, origin.name, step.target);
    CoveredFrame(RestoredDb(now, step.before, step.after), Undone(now, step, stamp));
    forall n: nat
      ensures ReviewKey(n) in RestoredDb(now, step.before, step.after) <==> ReviewKey(n) in now
    {
      ReviewStays(now, record, origin, step.target, n);
    }
  }

  lemma ReviewStays(now: Db, record: Record, origin: Origin, at: nat, n: nat)
    requires Recorded(record, origin) && Permits(record.before, record.after, Capture(now, at, record.source))
    ensures ReviewKey(n) in RestoredDb(now, record.before, record.after) <==> ReviewKey(n) in now
  {
    hide Permits, Merged;
    var k, t, s := ReviewKey(n), record.target, record.source;
    MergeIsLocal(origin.db, origin.merged, t, s, origin.name);
    SameReviews(origin.db, origin.merged, t, s, origin.name);
    RestoreExact(origin.db, origin.merged, now, t, s, k);
    if SeenAt(origin.db, k) != SeenAt(origin.merged, k) {
      StillThere(origin.db, origin.merged, now, t, s, origin.name, at, k);
    }
  }

  lemma RecordsGrow(db: Db, r: Db, records: map<nat, Record>, origins: map<nat, Origin>, id: nat, record: Record,
      origin: Origin)
    requires AllRecorded(db, records, origins) && Recorded(record, origin) && ReviewKey(id) !in db
    requires forall n: nat :: ReviewKey(n) in r <==> ReviewKey(n) in db || n == id
    ensures id !in records && AllRecorded(r, records[id := record], origins[id := origin])
  {
    hide Recorded;
  }

  lemma RecordsStay(db: Db, r: Db, records: map<nat, Record>, origins: map<nat, Origin>)
    requires AllRecorded(db, records, origins)
    requires forall n: nat :: ReviewKey(n) in r <==> ReviewKey(n) in db
    ensures AllRecorded(r, records, origins)
  {
    hide Recorded;
  }

  /** Merge, on the tables. */
  method MergeCircles(db: Db, t: nat, s: nat, stamp: nat) returns (step: Step, r: Db, ghost mid: Db)
    requires Schema(db) && Covered(db) && Circles(db, t, s)
    ensures step.target == t && step.source == s && step.name == db[PartyKey(s)].seen.a
    ensures Merges(db, r, step) && Schema(r) && Covered(r)
    ensures ReviewKey(step.id) !in db && forall n: nat :: ReviewKey(n) in r <==> ReviewKey(n) in db || n == step.id
    ensures Recorded(Record(t, s, step.before, step.after), Origin(db, mid, step.name))
  {
    hide Merged, Schema, Covered, Capture, Merges, SameTable;
    var name := db[PartyKey(s)].seen.a;
    var merged := MergeRelations(db, t, s, name, stamp);
    mid := merged;
    var id := NextNumber(merged, MergeReview);
    step := Step(t, s, id, name, Capture(db, t, s), Capture(merged, t, s));
    r := merged[ReviewKey(id) := ReviewRow(step, true, stamp)];
    MergedStaysCovered(db, mid, t, s, name);
    TargetThere(db, mid, t, s, name);
    SameReviews(db, mid, t, s, name);
    ReviewFits(mid, step, r, stamp);
    ReviewLeavesSubscriptions(mid, step, r, stamp);
    CoveredFrame(mid, r);
    RecordedMerge(db, mid, r, step, stamp);
  }

  /** Undo of a merged review, on the tables. */
  method UndoMerge(cols: Columns, db: Db, step: Step, stamp: nat) returns (outcome: UndoOutcome, r: Db)
    requires Faithful(cols) && IsMergedReview(db, step.id, step.target)
    ensures outcome == UndoDone <==> MayUndo(cols, db, step, stamp)
    ensures outcome != NotFound && r == if outcome == UndoDone then Undone(db, step, stamp) else db
  {
    hide Schema, Allows, IsMergedReview, Faithful;
    r := db;
    var latest := IsLatest(db, step.target, step.id);
    if !latest {
      return Conflict, db;
    }
    var current := Capture(db, step.target, step.source);
    var ok, restored := Restore(cols, db, step.before, step.after, current);
    if !ok {
      return Conflict, db;
    }
    var undone := restored[ReviewKey(step.id) := ReviewRow(step, false, stamp)];
    if !Schema(undone) {
      return ConstraintFails, db;
    }
    return UndoDone, undone;
  }

  /** The tables and the records after a merge. */
  ghost predicate MergeRecorded(db: Db, records: map<nat, Record>, r: Db, records': map<nat, Record>, t: nat, s: nat,
      id: nat)
  {
    && id !in records && id in records' && records' == records[id := records'[id]]
    && PartyKey(s) in db && Merges(db, r,
         Step(t, s, id, db[PartyKey(s)].seen.a, records'[id].before, records'[id].after))
  }

  function StepOf(record: Record, target: nat, id: nat): Step {
    Step(target, record.source, id, 0, record.before, record.after)
  }

  /** Undo does the restore exactly when it may, and otherwise nothing. */
  ghost predicate UndoAnswers(cols: Columns, db: Db, step: Step, stamp: nat, outcome: UndoOutcome, r: Db) {
    && (outcome == UndoDone <==> MayUndo(cols, db, step, stamp))
    && r == if outcome == UndoDone then Undone(db, step, stamp) else db
  }

  class CircleStore {
    const cols: Columns
    var db: Db
    var records: map<nat, Record>
    ghost var origins: map<nat, Origin>

    ghost predicate Valid()
      reads this
    {
      Faithful(cols) && Schema(db) && Covered(db) && AllRecorded(db, records, origins)
    }

    constructor (cols: Columns)
      requires Faithful(cols)
      ensures Valid() && this.cols == cols && db == map[]
    {
      this.cols := cols;
      db, records, origins := map[], map[], map[];
    }

    method Merge(t: nat, s: nat, stamp: nat) returns (outcome: MergeOutcome)
      requires Valid()
      modifies this
      ensures Valid()
      ensures outcome == Invalid <==> !Circles(old(db), t, s)
      ensures outcome == Invalid ==> db == old(db) && records == old(records)
      ensures outcome.MergedAs? ==> MergeRecorded(old(db), old(records), db, records, t, s, outcome.id)
    {
      hide Merged, Merges, Schema, Covered, AllRecorded, Recorded, Capture, Faithful;
      if !(t > 0 && s > 0 && t != s && PartyKey(t) in db && PartyKey(s) in db) {
        return Invalid;
      }
      var step, r, mid := MergeCircles(db, t, s, stamp);
      var record := Record(t, s, step.before, step.after);
      RecordsGrow(db, r, records, origins, step.id, record, Origin(db, mid, step.name));
      records := records[step.id := record];
      origins := origins[step.id := Origin(db, mid, step.name)];
      db := r;
      return MergedAs(step.id);
    }

    method Undo(target: nat, id: nat, stamp: nat) returns (outcome: UndoOutcome)
      requires Valid()
      modifies this`db
      ensures Valid()
      ensures outcome == NotFound <==> !IsMergedReview(old(db), id, target)
      ensures outcome != NotFound ==>
        id in records && UndoAnswers(cols, old(db), StepOf(records[id], target, id), stamp, outcome, db)
      ensures outcome == NotFound ==> db == old(db)
    {
      hide Schema, Covered, AllRecorded, Recorded, MayUndo, Undone, IsMergedReview, Permits, Faithful;
      if !IsMergedReview(db, id, target) {
        return NotFound;
      }
      IsRecorded(db, records, origins, target, id);
      var step := StepOf(records[id], target, id);
      var r;
      outcome, r := UndoMerge(cols, db, step, stamp);
      if outcome == UndoDone {
        UndoneSchema(cols, db, step, stamp);
        UndoKeeps(db, records[id], origins[id], step, stamp);
        RecordsStay(db, r, records, origins);
        db := r;
      }
    }

    method Subscribe(party: nat, user: nat, series: nat, watch: bool, replaceSeries: bool, activated: Option<nat>,
        stamp: nat) returns (outcome: Outcome)
      requires Valid() && party > 0 && PartyKey(party) in db
      modifies this`db
      ensures Valid()
      ensures outcome != Created ==> db == old(db)
      ensures outcome == Created ==> forall b :: Subscribed(db, party, user, b) <==>
        b == series || (series > 0 && Subscribed(old(db), party, user, b))
      ensures outcome == Created ==>
        SubscribedAs(old(db), db, party, user, series, Follow(watch, activated, stamp))
    {
      hide Schema, Covered, AllRecorded, Faithful, SubscribedAs;
      var r;
      outcome, r := SubscribeCreator(db, party, user, series, watch, replaceSeries, activated, stamp);
      forall n: nat
        ensures ReviewKey(n) in r <==> ReviewKey(n) in db
      {
        assert Get(r, ReviewKey(n)) == Get(db, ReviewKey(n));
      }
      RecordsStay(db, r, records, origins);
      db := r;
    }
  }

  lemma IsRecorded(db: Db, records: map<nat, Record>, origins: map<nat, Origin>, target: nat, id: nat)
    requires AllRecorded(db, records, origins) && IsMergedReview(db, id, target)
    ensures id in records && id in origins && Recorded(records[id], origins[id])
  {
    hide Recorded;
  }

  lemma UndoneSchema(cols: Columns, db: Db, step: Step, stamp: nat)
    requires MayUndo(cols, db, step, stamp)
    ensures Schema(Undone(db, step, stamp)) && Permits(step.before, step.after, Capture(db, step.target, step.source))
      && ReviewKey(step.id) in db
  {
    hide Schema, Permits, NoLargeNumber;
  }

  lemma TargetThere(db: Db, mid: Db, t: nat, s: nat, name: nat)
    requires Merged(db, mid, t, s, name)
    ensures PartyKey(t) in mid && Schema(mid)
  {
    hide Schema;
    MergeEmptiesSource(db, mid, t, s, name);
    MergeKeepsConstraints(db, mid, t, s, name);
    assert Get(mid, PartyKey(t)) == Get(db, PartyKey(t));
  }
}
