/** Numbers a merge frees: given out again, they make a permitted Undo overwrite the new row. */
module CircleNumbers {
  import opened CircleTables
  import opened CircleCompare
  import opened CircleStatements
  import opened CircleMerge
  import opened CircleSubscriptions
  import opened CircleRestore
  import opened CircleIdentity

  /** After any merge that freed a subscription's number, and once another circle's follower
      was given it, Undo is permitted exactly when it was at once, and overwrites that
      follower's row. */
  lemma FreedNumberIsOverwritten(cols: Columns, db: Db, merged: Db, t: nat, s: nat, name: nat, k: Key, row: Row)
    requires Merged(db, merged, t, s, name) && k in db && k !in merged && k.table == Subscription
    requires row.seen.owner > 0 && row.seen.owner != t && row.seen.owner != s && PartyKey(row.seen.owner) in merged
    requires !Subscribed(merged, row.seen.owner, row.seen.a, row.seen.b)
    ensures var now := merged[k := row];
            && Schema(now)
            && (Allows(cols, Capture(db, t, s), Capture(merged, t, s), Capture(now, t, s)) <==>
                 !WritesLarge(cols, db, merged))
            && Get(RestoredDb(now, Capture(db, t, s), Capture(merged, t, s)), k) != Get(now, k)
  {
    hide Merged, Local, Permits, Capture, RestoredDb, Subscribed, Schema, WritesLarge, NoLargeNumber, SeriesExist;
    MergeIsLocal(db, merged, t, s, name);
    MergeKeepsConstraints(db, merged, t, s, name);
    Numbered(db, k);
    FollowerFits(merged, k, row);
    SchemaSeries(db);
    SchemaSeries(merged);
    WritesLargeIff(cols, db, merged, t, s);
    FreedIsRestored(db, merged, t, s, k, row);
  }

  lemma FreedIsRestored(db: Db, merged: Db, t: nat, s: nat, k: Key, row: Row)
    requires Local(db, merged, t, s) && SeriesExist(db) && SeriesExist(merged) && k in db && k !in merged
      && k.table == Subscription
    requires row.seen.owner != t && row.seen.owner != s
    ensures var now := merged[k := row];
            && Permits(Capture(db, t, s), Capture(merged, t, s), Capture(now, t, s))
            && Get(RestoredDb(now, Capture(db, t, s), Capture(merged, t, s)), k) != Get(now, k)
  {
    hide SeriesExist, Permits, Capture, RestoredDb;
    LocalRow(db, merged, t, s, k);
    hide Local;
    var now := merged[k := row];
    OneMoreRow(merged, now, t, s, k);
    hide InScope;
    PermitsIff(db, merged, now, t, s);
    RestoreExact(db, merged, now, t, s, k);
  }

  lemma Numbered(db: Db, k: Key)
    requires Schema(db) && k in db && k.table == Subscription
    ensures k.id.Number?
  {
  }

  lemma LocalRow(db: Db, merged: Db, t: nat, s: nat, k: Key)
    requires Local(db, merged, t, s) && k in db && k !in merged && k.table == Subscription
    ensures db[k].seen.owner == t || db[k].seen.owner == s
  {
    assert Get(db, k) != Get(merged, k);
  }

  lemma FollowerFits(db: Db, k: Key, row: Row)
    requires Schema(db) && k !in db && k.table == Subscription && row.seen.owner > 0 && PartyKey(row.seen.owner) in db
      && k.id.Number?
    requires !Subscribed(db, row.seen.owner, row.seen.a, row.seen.b)
    ensures Schema(db[k := row])
  {
    assert forall j :: !Named(db, j, Subscription, row.seen.owner, row.seen.a, row.seen.b);
    SchemaKept(db, k, row, row.seen.owner);
  }

  lemma OneMoreRow(merged: Db, now: Db, t: nat, s: nat, k: Key)
    requires k !in merged && k.table == Subscription && k in now && now == merged[k := now[k]] && now[k].seen.owner != t
      && now[k].seen.owner != s
    ensures !InScope(now, k, t, s)
    ensures forall j :: j in merged ==>
      InScope(now, j, t, s) == InScope(merged, j, t, s) && SeenAt(now, j) == SeenAt(merged, j)
  {
  }

  /** A merge frees the number of every subscription of the source. */
  lemma SourceNumbersFreed(db: Db, merged: Db, t: nat, s: nat, name: nat, j: Key)
    requires Merged(db, merged, t, s, name) && OwnedBy(db, j, Subscription, s)
    ensures j !in merged
  {
    MergeIsLocal(db, merged, t, s, name);
    MergeKeepsConstraints(db, merged, t, s, name);
    MergeEmptiesSource(db, merged, t, s, name);
    MergeFactsHold(db, merged, t, s, name);
    hide Merged, Schema, AliasesCarried, StatesMerged, ReviewsMoved, SubscriptionsCarried, CirclesStay, OnePrimary,
      Combine;
    if j in merged {
      assert Get(db, j) != Get(merged, j);
      assert OwnedBy(merged, j, Subscription, t);
      var j' :| Named(db, j', Subscription, s, merged[j].seen.a, merged[j].seen.b);
      assert Absorbed(db, merged, Subscription, t, 0, j', j);
      CombineKeepsName(db[j], db[j']);
      assert false;
    }
  }

  // ----- a merge and a subscription after it -----

  function Circle(party: nat): Row { Row(Seen(party, 0, 0, Plain(0)), "") }

  function Follower(party: nat, user: nat): Row { Row(Seen(party, user, 0, Follow(false, None, 0)), "") }

  const KEPT := Key(Subscription, Number(4))
  const FREED := Key(Subscription, Number(5))
  const CIRCLES: Db := map[PartyKey(1) := Circle(1), PartyKey(2) := Circle(2), PartyKey(3) := Circle(3)]
  const FOLLOWERS: Db := CIRCLES[KEPT := Follower(1, 7)][FREED := Follower(2, 7)]

  lemma FollowersFit()
    ensures Schema(FOLLOWERS) && Circles(FOLLOWERS, 1, 2)
  {
    CirclesFit();
    hide Schema;
    FollowerFits(CIRCLES, KEPT, Follower(1, 7));
    FollowerFits(CIRCLES[KEPT := Follower(1, 7)], FREED, Follower(2, 7));
  }

  lemma CircleFits(db: Db, party: nat)
    requires Schema(db) && PartyKey(party) !in db
    ensures Schema(db[PartyKey(party) := Circle(party)])
  {
  }

  lemma CirclesFit()
    ensures Schema(CIRCLES)
  {
    assert Schema(map[]);
    hide Schema;
    CircleFits(map[], 1);
    CircleFits(map[][PartyKey(1) := Circle(1)], 2);
    CircleFits(map[][PartyKey(1) := Circle(1)][PartyKey(2) := Circle(2)], 3);
    assert CIRCLES == map[][PartyKey(1) := Circle(1)][PartyKey(2) := Circle(2)][PartyKey(3) := Circle(3)];
  }

  /** What a merge leaves under a subscription's key: the target's, or what was there of another circle. */
  lemma FollowerOf(db: Db, merged: Db, t: nat, s: nat, name: nat, k: Key)
    requires Merged(db, merged, t, s, name) && k in merged && k.table == Subscription
    ensures if merged[k].seen.owner == t then EitherSubscribed(db, t, s, merged[k].seen.a, merged[k].seen.b)
            else merged[k].seen.owner != s && Get(db, k) == Get(merged, k)
  {
    MergeIsLocal(db, merged, t, s, name);
    MergeEmptiesSource(db, merged, t, s, name);
    MergeFactsHold(db, merged, t, s, name);
    hide Merged, Schema, AliasesCarried, StatesMerged, ReviewsMoved, FollowersCombined, CirclesStay, OnePrimary;
    if merged[k].seen.owner == t {
      assert Named(merged, k, Subscription, t, merged[k].seen.a, merged[k].seen.b);
      assert Subscribed(merged, t, merged[k].seen.a, merged[k].seen.b);
    }
  }

  lemma OnlyFollower(db: Db, user: nat, series: nat)
    requires db == FOLLOWERS && EitherSubscribed(db, 1, 2, user, series)
    ensures user == 7 && series == 0
  {
  }

  /** Circle 1 keeps its follower as number 4, and no other subscription is left. */
  lemma OneFollowerLeft(merged: Db, name: nat, k: Key)
    requires Merged(FOLLOWERS, merged, 1, 2, name) && k.table == Subscription
    ensures k in merged <==> k == KEPT
  {
    hide Merged, AliasesCarried, StatesMerged, ReviewsMoved, FollowersCombined, SubscriptionsCarried, EitherSubscribed,
      OnePrimary;
    var db := FOLLOWERS;
    MergeKeepsConstraints(db, merged, 1, 2, name);
    MergeFactsHold(db, merged, 1, 2, name);
    SourceNumbersFreed(db, merged, 1, 2, name, FREED);
    assert OwnedBy(db, KEPT, Subscription, 1) && Named(merged, KEPT, Subscription, 1, 7, 0);
    if k in merged && k != KEPT {
      FollowerOf(db, merged, 1, 2, name, k);
      if merged[k].seen.owner == 1 {
        OnlyFollower(db, merged[k].seen.a, merged[k].seen.b);
      }
      assert false;
    }
  }

  lemma ThirdCircleFree(merged: Db, name: nat)
    requires Merged(FOLLOWERS, merged, 1, 2, name)
    ensures PartyKey(3) in merged && !Subscribed(merged, 3, 8, 0)
  {
    MergeEmptiesSource(FOLLOWERS, merged, 1, 2, name);
    hide Merged;
    assert Get(merged, PartyKey(3)) == Get(FOLLOWERS, PartyKey(3));
    if j :| Named(merged, j, Subscription, 3, 8, 0) {
      FollowerOf(FOLLOWERS, merged, 1, 2, name, j);
      assert false;
    }
  }

  /** Neither circle has a series, so every row the merge wrote is owned by circle 1. */
  lemma FollowersSmall(merged: Db, name: nat)
    requires Merged(FOLLOWERS, merged, 1, 2, name)
    ensures !WritesLarge(Reading, FOLLOWERS, merged)
  {
    MergeIsLocal(FOLLOWERS, merged, 1, 2, name);
    MergeEmptiesSource(FOLLOWERS, merged, 1, 2, name);
    hide Merged, SeriesExist, Reading;
    forall k | k in merged && SeenAt(FOLLOWERS, k) != SeenAt(merged, k)
      ensures !HoldsLarge(Reading(k, merged[k].seen))
    {
      assert Get(FOLLOWERS, k) != Get(merged, k);
      if k.table == SeriesWork {
        var series := SeriesKey(merged[k].seen.owner);
        assert OwnedBy(merged, series, Series, 1);
        assert Named(merged, series, Series, 1, merged[series].seen.a, merged[series].seen.b);
        NoSeries(merged, name, merged[series].seen.a, merged[series].seen.b);
      }
      ReadingLarge(k, merged[k].seen);
    }
  }

  lemma NoSeries(merged: Db, name: nat, a: nat, b: nat)
    requires Merged(FOLLOWERS, merged, 1, 2, name)
    ensures !HasName(merged, Series, 1, a, b)
  {
    MergeLosesNoName(FOLLOWERS, merged, 1, 2, name, Series, a, b);
    hide Merged;
  }

  /** It happens: the merge drops the source's subscription 5, already held for the target as
      4; the next subscription, of circle 3, is given 5; Undo is permitted and overwrites it. */
  method ReusedNumberIsOverwritten(name: nat, stamp: nat) returns (merged: Db, now: Db)
    ensures Merged(FOLLOWERS, merged, 1, 2, name)
    ensures FREED !in merged && now == merged[FREED := Follower(3, 8)] && Schema(now)
    ensures Allows(Reading, Capture(FOLLOWERS, 1, 2), Capture(merged, 1, 2), Capture(now, 1, 2))
    ensures Get(RestoredDb(now, Capture(FOLLOWERS, 1, 2), Capture(merged, 1, 2)), FREED) != Some(Follower(3, 8))
  {
    hide Schema, Merged, Permits, Capture, RestoredDb, Subscribed, WritesLarge;
    FollowersFit();
    merged := MergeRelations(FOLLOWERS, 1, 2, name, stamp);
    OneFollowerLeft(merged, name, KEPT);
    OneFollowerLeft(merged, name, FREED);
    ThirdCircleFree(merged, name);
    var n := NextNumber(merged, Subscription);
    OneFollowerLeft(merged, name, Key(Subscription, Number(n - 1)));
    var k := Key(Subscription, Number(n));
    now := merged[k := Follower(3, 8)];
    FollowersSmall(merged, name);
    FreedNumberIsOverwritten(Reading, FOLLOWERS, merged, 1, 2, name, k, Follower(3, 8));
  }

  // ----- a number of a million -----

  const FOLLOWED: Db := map[PartyKey(MILLION) := Circle(MILLION), PartyKey(2) := Circle(2), FREED := Follower(2, 7)]

  lemma FollowedFits()
    ensures Schema(FOLLOWED) && Circles(FOLLOWED, MILLION, 2)
  {
    assert Schema(map[]);
    hide Schema;
    CircleFits(map[], MILLION);
    CircleFits(map[][PartyKey(MILLION) := Circle(MILLION)], 2);
    var db := map[][PartyKey(MILLION) := Circle(MILLION)][PartyKey(2) := Circle(2)];
    FollowerFits(db, FREED, Follower(2, 7));
    assert FOLLOWED == db[FREED := Follower(2, 7)];
  }

  /** A follower moved to circle 1000000: nothing changes after the merge, and Undo is refused. */
  method LargeNumberIsRefused(name: nat, stamp: nat) returns (merged: Db)
    ensures Merged(FOLLOWED, merged, MILLION, 2, name)
    ensures Permits(Capture(FOLLOWED, MILLION, 2), Capture(merged, MILLION, 2), Capture(merged, MILLION, 2))
    ensures !Allows(Reading, Capture(FOLLOWED, MILLION, 2), Capture(merged, MILLION, 2), Capture(merged, MILLION, 2))
  {
    hide Schema, Merged, Permits, Capture;
    FollowedFits();
    merged := MergeRelations(FOLLOWED, MILLION, 2, name, stamp);
    FollowerMoved(merged, name);
    MergeIsLocal(FOLLOWED, merged, MILLION, 2, name);
    hide Local, SeriesExist, WritesLarge;
    PermitsIff(FOLLOWED, merged, merged, MILLION, 2);
    UndoInvertsMerge(Reading, FOLLOWED, merged, MILLION, 2);
  }

  lemma FollowerMoved(merged: Db, name: nat)
    requires Merged(FOLLOWED, merged, MILLION, 2, name)
    ensures WritesLarge(Reading, FOLLOWED, merged)
  {
    MergeFactsHold(FOLLOWED, merged, MILLION, 2, name);
    hide Merged, AliasesCarried, StatesMerged, ReviewsMoved, CirclesStay, FollowersCombined, OnePrimary;
    assert Named(FOLLOWED, FREED, Subscription, 2, 7, 0);
    assert EitherSubscribed(FOLLOWED, MILLION, 2, 7, 0);
    assert Subscribed(merged, MILLION, 7, 0);
    var k :| Named(merged, k, Subscription, MILLION, 7, 0);
    assert SeenAt(FOLLOWED, k) != SeenAt(merged, k);
    ReadingLarge(k, merged[k].seen);
  }
}
