/** restore: a three-way comparison of snapshots before, after and now, then the inverse change. */
module CircleRestore {
  import opened CircleTables
  import opened CircleCompare

  /** No row the merge left behind has changed since, and no row it removed is back. */
  ghost predicate Permits(before: Snapshot, after: Snapshot, now: Snapshot) {
    && (forall k :: k in after && Look(before, k) != Look(after, k) ==> Look(now, k) == Look(after, k))
    && (forall k :: k in before && k !in after ==> k !in now)
  }

  /** No row the merge wrote holds a number of a million or more, which never compares equal. */
  ghost predicate NoLargeNumber(cols: Columns, before: Snapshot, after: Snapshot) {
    forall k :: k in after && Look(before, k) != Look(after, k) ==> !HoldsLarge(Values(cols, k, Look(after, k)))
  }

  /** What restore's comparison of texts comes to. */
  ghost predicate Allows(cols: Columns, before: Snapshot, after: Snapshot, now: Snapshot) {
    Permits(before, after, now) && NoLargeNumber(cols, before, after)
  }

  /** What a restore leaves under one key. */
  function Restored(db: Db, before: Snapshot, after: Snapshot, k: Key): Option<Row> {
    if Look(before, k) == Look(after, k) then Get(db, k)
    else if k in before then Some(Row(before[k], if k in db then db[k].hidden else ""))
    else None
  }

  function RestoredDb(db: Db, before: Snapshot, after: Snapshot): Db {
    map k | k in db.Keys + before.Keys && Restored(db, before, after, k).Some? :: Restored(db, before, after, k).value
  }

  /** Whether the merge left a row of its snapshots as it was. */
  method SameInSnapshots(cols: Columns, k: Key, before: Snapshot, after: Snapshot) returns (same: bool)
    requires Faithful(cols)
    ensures same <==> Look(before, k) == Look(after, k)
  {
    SnapshotRowsAlike(cols, k, Look(before, k), Look(after, k));
    same := EqualRows(ReadBackAll(Values(cols, k, Look(before, k))), ReadBackAll(Values(cols, k, Look(after, k))));
  }

  method Validate(cols: Columns, before: Snapshot, after: Snapshot, now: Snapshot) returns (ok: bool)
    requires Faithful(cols)
    ensures ok <==> Allows(cols, before, after, now)
  {
    hide Faithful, HoldsLarge, Values, Texts, ReadBackAll;
    var left := after.Keys;
    while left != {}
      invariant left <= after.Keys
      invariant forall k :: k in after && k !in left && Look(before, k) != Look(after, k) ==>
        Look(now, k) == Look(after, k) && !HoldsLarge(Values(cols, k, Look(after, k)))
    {
      var k :| k in left;
      left := left - {k};
      var untouched := SameInSnapshots(cols, k, before, after);
      if !untouched {
        StoredRowsAlike(cols, k, Look(after, k), Look(now, k));
        var alike := EqualRows(Values(cols, k, Look(now, k)), ReadBackAll(Values(cols, k, Look(after, k))));
        if !alike {
          return false;
        }
      }
    }
    left := before.Keys;
    while left != {}
      invariant left <= before.Keys
      invariant forall k :: k in before && k !in left && k !in after ==> k !in now
    {
      var k :| k in left;
      left := left - {k};
      if k !in after && k in now {
        return false;
      }
    }
    return true;
  }

  /** Additions are removed first, then original rows come back. */
  method Apply(cols: Columns, db: Db, before: Snapshot, after: Snapshot) returns (r: Db)
    requires Faithful(cols)
    ensures r == RestoredDb(db, before, after)
  {
    hide Faithful;
    r := db;
    var left := after.Keys;
    while left != {}
      invariant left <= after.Keys
      invariant forall k :: Get(r, k) == if k in after && k !in left && k !in before then None else Get(db, k)
    {
      var k :| k in left;
      left := left - {k};
      if k !in before {
        r := r - {k};
      }
    }
    left := before.Keys;
    while left != {}
      invariant left <= before.Keys
      invariant forall k :: Get(r, k) == if k in left then Get(db, k) else Restored(db, before, after, k)
    {
      var k :| k in left;
      left := left - {k};
      var untouched := SameInSnapshots(cols, k, before, after);
      if !untouched {
        r := r[k := Row(before[k], if k in r then r[k].hidden else "")];
      }
    }
    SameRows(r, RestoredDb(db, before, after));
  }

  lemma SameRows(x: Db, y: Db)
    requires forall k :: Get(x, k) == Get(y, k)
    ensures x == y
  {
    forall k
      ensures k in x <==> k in y
      ensures k in x ==> x[k] == y[k]
    {
      assert Get(x, k) == Get(y, k);
    }
  }

  method Restore(cols: Columns, db: Db, before: Snapshot, after: Snapshot, now: Snapshot) returns (ok: bool, r: Db)
    requires Faithful(cols)
    ensures ok <==> Allows(cols, before, after, now)
    ensures r == if ok then RestoredDb(db, before, after) else db
  {
    hide Faithful, Allows, RestoredDb;
    ok := Validate(cols, before, after, now);
    r := db;
    if ok {
      r := Apply(cols, db, before, after);
    }
  }

  // ----- undoing a merge -----

  lemma PermitsIff(db: Db, merged: Db, now: Db, t: nat, s: nat)
    requires Local(db, merged, t, s) && SeriesExist(db) && SeriesExist(merged)
    ensures Permits(Capture(db, t, s), Capture(merged, t, s), Capture(now, t, s)) <==>
              forall k :: SeenAt(db, k) != SeenAt(merged, k) ==>
                (if k in merged then SeenAt(now, k) == SeenAt(merged, k) && InScope(now, k, t, s)
                  else k in now ==> !InScope(now, k, t, s))
  {
    hide Local, SeriesExist;
    forall k
      ensures Look(Capture(db, t, s), k) != Look(Capture(merged, t, s), k) <==> SeenAt(db, k) != SeenAt(merged, k)
      ensures SeenAt(db, k) != SeenAt(merged, k) ==>
        Look(Capture(db, t, s), k) == SeenAt(db, k) && Look(Capture(merged, t, s), k) == SeenAt(merged, k)
    {
      CaptureSeesChanges(db, merged, t, s, k);
    }
  }

  /** A merge that gives a row a number of a million or more: a large one of its own, or of
      the circle it moves to. */
  ghost predicate WritesLarge(cols: Columns, db: Db, merged: Db) {
    exists k :: k in merged && SeenAt(db, k) != SeenAt(merged, k) && HoldsLarge(cols(k, merged[k].seen))
  }

  lemma WritesLargeIff(cols: Columns, db: Db, merged: Db, t: nat, s: nat)
    requires Local(db, merged, t, s) && SeriesExist(db) && SeriesExist(merged)
    ensures NoLargeNumber(cols, Capture(db, t, s), Capture(merged, t, s)) <==> !WritesLarge(cols, db, merged)
  {
    hide Local, SeriesExist, HoldsLarge;
    forall k
      ensures Look(Capture(db, t, s), k) != Look(Capture(merged, t, s), k) <==> SeenAt(db, k) != SeenAt(merged, k)
      ensures SeenAt(db, k) != SeenAt(merged, k) ==> Look(Capture(merged, t, s), k) == SeenAt(merged, k)
    {
      CaptureSeesChanges(db, merged, t, s, k);
    }
    if WritesLarge(cols, db, merged) {
      var k :| k in merged && SeenAt(db, k) != SeenAt(merged, k) && HoldsLarge(cols(k, merged[k].seen));
      assert Look(Capture(merged, t, s), k) == SeenAt(merged, k);
      assert k in Capture(merged, t, s);
    }
  }

  /** Undo is refused exactly when a row the merge changed has changed since or one it
      removed is back in either circle, or when the merge wrote a number of a million or more. */
  lemma RefusedIffChanged(cols: Columns, db: Db, merged: Db, now: Db, t: nat, s: nat)
    requires Local(db, merged, t, s) && SeriesExist(db) && SeriesExist(merged)
    ensures Allows(cols, Capture(db, t, s), Capture(merged, t, s), Capture(now, t, s)) <==>
      && !WritesLarge(cols, db, merged)
      && forall k :: SeenAt(db, k) != SeenAt(merged, k) ==>
           if k in merged then SeenAt(now, k) == SeenAt(merged, k) && InScope(now, k, t, s)
             else k in now ==> !InScope(now, k, t, s)
  {
    hide Local, SeriesExist, Permits, NoLargeNumber, WritesLarge;
    PermitsIff(db, merged, now, t, s);
    WritesLargeIff(cols, db, merged, t, s);
  }

  /** A restore gives every captured column the merge changed its value from before, or the
      row's absence, and leaves every other row as it is now, hidden columns included. */
  lemma RestoreExact(db: Db, merged: Db, now: Db, t: nat, s: nat, k: Key)
    requires Local(db, merged, t, s) && SeriesExist(db) && SeriesExist(merged)
    ensures var r := RestoredDb(now, Capture(db, t, s), Capture(merged, t, s));
            if SeenAt(db, k) != SeenAt(merged, k) then SeenAt(r, k) == SeenAt(db, k) else Get(r, k) == Get(now, k)
  {
    CaptureSeesChanges(db, merged, t, s, k);
  }

  /** So undoing at once gives back every captured column, and is allowed if and only if the
      merge wrote no number of a million or more. */
  lemma UndoInvertsMerge(cols: Columns, db: Db, merged: Db, t: nat, s: nat)
    requires Local(db, merged, t, s) && SeriesExist(db) && SeriesExist(merged)
    ensures Allows(cols, Capture(db, t, s), Capture(merged, t, s), Capture(merged, t, s)) <==>
      !WritesLarge(cols, db, merged)
    ensures forall k :: SeenAt(RestoredDb(merged, Capture(db, t, s), Capture(merged, t, s)), k) == SeenAt(db, k)
  {
    hide HoldsLarge, NoLargeNumber, WritesLarge, Local, SeriesExist;
    WritesLargeIff(cols, db, merged, t, s);
    forall k
      ensures SeenAt(RestoredDb(merged, Capture(db, t, s), Capture(merged, t, s)), k) == SeenAt(db, k)
    {
      RestoreExact(db, merged, merged, t, s, k);
    }
  }

  /** Works of a series go only when the series does. */
  ghost predicate WorksGoWithSeries(db: Db, merged: Db) {
    forall series, a, b :: WorkKey(series, a, b) in db && WorkKey(series, a, b) !in merged ==>
      SeriesKey(series) !in merged
  }

  /** A permitted restore leaves the rows of all other circles alone exactly when no number
      of a row the merge removed has been given out again. */
  lemma OthersKeptIff(db: Db, merged: Db, now: Db, t: nat, s: nat)
    requires Local(db, merged, t, s) && SeriesExist(db) && SeriesExist(merged) && SeriesExist(now)
    requires KeysMatch(db) && KeysMatch(now) && WorksGoWithSeries(db, merged)
    requires Permits(Capture(db, t, s), Capture(merged, t, s), Capture(now, t, s))
    ensures (forall k :: k in now && !InScope(now, k, t, s) ==>
      Get(RestoredDb(now, Capture(db, t, s), Capture(merged, t, s)), k) == Get(now, k))
            <==> (forall k :: k in db && k !in merged ==> k !in now)
  {
    var r := RestoredDb(now, Capture(db, t, s), Capture(merged, t, s));
    PermitsIff(db, merged, now, t, s);
    forall k | k in now && !InScope(now, k, t, s) && !(k in db && k !in merged)
      ensures Get(r, k) == Get(now, k)
    {
      RestoreExact(db, merged, now, t, s, k);
    }
    forall k | k in db && k !in merged && k in now
      ensures exists j :: j in now && !InScope(now, j, t, s) && Get(r, j) != Get(now, j)
    {
      var j := if k.table == SeriesWork then SeriesKey(db[k].seen.owner) else k;
      GoneAndBack(db, merged, now, t, s, k, j);
    }
  }

  lemma GoneAndBack(db: Db, merged: Db, now: Db, t: nat, s: nat, k: Key, j: Key)
    requires Local(db, merged, t, s) && SeriesExist(db) && SeriesExist(merged) && SeriesExist(now)
    requires KeysMatch(db) && KeysMatch(now) && WorksGoWithSeries(db, merged)
    requires Permits(Capture(db, t, s), Capture(merged, t, s), Capture(now, t, s))
    requires k in db && k !in merged && k in now
    requires j == if k.table == SeriesWork then SeriesKey(db[k].seen.owner) else k
    ensures j in now && !InScope(now, j, t, s)
      && Get(RestoredDb(now, Capture(db, t, s), Capture(merged, t, s)), j) != Get(now, j)
  {
    PermitsIff(db, merged, now, t, s);
    assert k.table == SeriesWork ==> k == WorkKey(db[k].seen.owner, db[k].seen.a, db[k].seen.b);
    assert j in db && j !in merged && j in now;
    assert SeenAt(db, j) != SeenAt(merged, j);
    RestoreExact(db, merged, now, t, s, j);
    assert Get(db, j) != Get(merged, j);
  }
}
