/** Creator subscriptions of a circle: one to the whole circle covers those to its series. */
module CircleSubscriptions {
  import opened CircleTables
  import opened CircleStatements
  import opened CircleMerge

  /** A subscription of an account to a circle (series 0) or to one of its series. */
  ghost predicate Subscribed(db: Db, party: nat, user: nat, series: nat) {
    HasName(db, Subscription, party, user, series)
  }

  /** No account holds both a circle subscription and a series subscription of one circle. */
  ghost predicate Covered(db: Db) {
    forall party: nat, user, series :: party > 0 && series > 0 && Subscribed(db, party, user, 0) ==>
      !Subscribed(db, party, user, series)
  }

  ghost predicate EitherSubscribed(db: Db, t: nat, s: nat, user: nat, series: nat) {
    Subscribed(db, t, user, series) || Subscribed(db, s, user, series)
  }

  /** The target has the subscriptions of both circles, less those to series that one to
      the circle now covers. */
  ghost predicate SubscriptionsCarried(db: Db, r: Db, t: nat, s: nat) {
    forall user, series :: Subscribed(r, t, user, series) <==>
      EitherSubscribed(db, t, s, user, series) && (series == 0 || !EitherSubscribed(db, t, s, user, 0))
  }

  /** Rows of the target that stay keep their names; those that go are series now covered. */
  ghost predicate CirclesStay(db: Db, r: Db, t: nat) {
    forall k :: OwnedBy(db, k, Subscription, t) ==>
      if k in r then Named(r, k, Subscription, t, db[k].seen.a, db[k].seen.b)
      else db[k].seen.b > 0 && Subscribed(r, t, db[k].seen.a, 0)
  }

  /** A subscription both circles had is one with what either asked for; one that only one
      of them had is as it was. */
  ghost predicate FollowersCombined(db: Db, r: Db, t: nat, s: nat) {
    && (forall j, k :: OwnedBy(db, j, Subscription, s) && Named(r, k, Subscription, t, db[j].seen.a, db[j].seen.b) ==>
         Absorbed(db, r, Subscription, t, 0, j, k))
    && (forall k :: OwnedBy(r, k, Subscription, t) && !HasName(db, Subscription, s, r[k].seen.a, r[k].seen.b) ==>
         Get(db, k) == Get(r, k))
  }

  predicate IsCovered(db: Db, k: Key, t: nat) {
    OwnedBy(db, k, Subscription, t) && db[k].seen.b > 0
      && exists j :: j in db && Named(db, j, Subscription, t, db[k].seen.a, 0)
  }

  /** DELETE ... subject_kind='series' AND user_id IN (SELECT ... subject_kind='circle') */
  function WithoutCovered(db: Db, t: nat): Db {
    db - set k | k in db && IsCovered(db, k, t)
  }

  method MergeSubscriptions(db: Db, t: nat, s: nat, stamp: nat) returns (r: Db)
    requires Schema(db) && Circles(db, t, s)
    ensures Schema(r) && Owned(db, r, Subscription, t, s) && NoRows(r, Subscription, s)
    ensures SubscriptionsCarried(db, r, t, s) && CirclesStay(db, r, t) && FollowersCombined(db, r, t, s)
  {
    var copied := CopyRows(db, Subscription, t, s, stamp);
    CopyOwned(db, copied, Subscription, t, s, stamp);
    CopyCarries(db, copied, Subscription, t, s, stamp);
    var moved := copied - RowsOf(copied, Subscription, s);
    SchemaWithout(copied, RowsOf(copied, Subscription, s));
    r := WithoutCovered(moved, t);
    SchemaWithout(moved, set k | k in moved && IsCovered(moved, k, t));
    ThreeSteps(db, copied, moved, r, t, s);
    NamesAfter(db, copied, moved, r, t, s);
    CirclesKept(db, copied, moved, r, t, s, stamp);
    FollowersCopied(db, copied, r, t, s, stamp);
  }

  lemma FollowersCopied(db: Db, copied: Db, r: Db, t: nat, s: nat, stamp: nat)
    requires CopiedSoFar(db, copied, Subscription, t, s, stamp, RowsOf(db, Subscription, s)) && Schema(copied) && t > 0
    requires forall k :: k in r ==> k in copied && r[k] == copied[k]
    ensures FollowersCombined(db, r, t, s)
  {
    forall j, k | OwnedBy(db, j, Subscription, s) && Named(r, k, Subscription, t, db[j].seen.a, db[j].seen.b)
      ensures Absorbed(db, r, Subscription, t, 0, j, k)
    {
      assert j in RowsOf(db, Subscription, s);
      var k' :| Absorbed(db, copied, Subscription, t, stamp, j, k');
      SourceNamesDiffer(copied, Subscription, t, k, k');
    }
    forall k | OwnedBy(r, k, Subscription, t) && !HasName(db, Subscription, s, r[k].seen.a, r[k].seen.b)
      ensures Get(db, k) == Get(r, k)
    {
      if Get(db, k) != Get(copied, k) {
        CopiedFrom(db, copied, Subscription, t, s, stamp, k);
      }
    }
  }

  lemma ThreeSteps(db: Db, copied: Db, moved: Db, r: Db, t: nat, s: nat)
    requires Owned(db, copied, Subscription, t, s) && t != s
    requires moved == copied - RowsOf(copied, Subscription, s) && r == WithoutCovered(moved, t)
    ensures Owned(db, r, Subscription, t, s) && NoRows(r, Subscription, s)
  {
    forall k: Key | Get(db, k) != Get(r, k)
      ensures k.table == Subscription && (k in db ==> db[k].seen.owner == t || db[k].seen.owner == s)
        && (k in r ==> r[k].seen.owner == t || r[k].seen.owner == s)
    {
      assert Get(db, k) != Get(copied, k) || Get(copied, k) != Get(r, k);
    }
    forall k: Key
      ensures !OwnedBy(r, k, Subscription, s)
    {
      assert OwnedBy(copied, k, Subscription, s) ==> k in RowsOf(copied, Subscription, s);
    }
  }

  lemma NamesAfter(db: Db, copied: Db, moved: Db, r: Db, t: nat, s: nat)
    requires Carried(db, copied, Subscription, t, s) && t != s
    requires moved == copied - RowsOf(copied, Subscription, s) && r == WithoutCovered(moved, t)
    ensures SubscriptionsCarried(db, r, t, s)
  {
    assert forall k, a: nat, b: nat :: Named(moved, k, Subscription, t, a, b) <==>
      Named(copied, k, Subscription, t, a, b);
    forall user: nat, series: nat
      ensures Subscribed(moved, t, user, series) <==> EitherSubscribed(db, t, s, user, series)
    {
      assert HasName(moved, Subscription, t, user, series) <==> HasName(copied, Subscription, t, user, series);
    }
    forall user: nat, series: nat
      ensures Subscribed(r, t, user, series) <==>
        Subscribed(moved, t, user, series) && (series == 0 || !Subscribed(moved, t, user, 0))
    {
      if k :| Named(moved, k, Subscription, t, user, series) {
        assert IsCovered(moved, k, t) <==> series > 0 && Subscribed(moved, t, user, 0);
        assert !IsCovered(moved, k, t) ==> Named(r, k, Subscription, t, user, series);
      }
      if k :| Named(r, k, Subscription, t, user, series) {
        assert Named(moved, k, Subscription, t, user, series);
        assert IsCovered(moved, k, t) <==> series > 0 && Subscribed(moved, t, user, 0);
      }
    }
  }

  lemma CirclesKept(db: Db, copied: Db, moved: Db, r: Db, t: nat, s: nat, stamp: nat)
    requires CopiedSoFar(db, copied, Subscription, t, s, stamp, RowsOf(db, Subscription, s)) && t != s
    requires moved == copied - RowsOf(copied, Subscription, s) && r == WithoutCovered(moved, t)
    ensures CirclesStay(db, r, t)
  {
    forall k | OwnedBy(db, k, Subscription, t)
      ensures if k in r then Named(r, k, Subscription, t, db[k].seen.a, db[k].seen.b)
        else db[k].seen.b > 0 && Subscribed(r, t, db[k].seen.a, 0)
    {
      TargetKept(db, copied, Subscription, t, s, stamp, k);
      assert k in moved;
      if k !in r {
        assert IsCovered(moved, k, t);
        var j :| j in moved && Named(moved, j, Subscription, t, db[k].seen.a, 0);
        assert Named(r, j, Subscription, t, db[k].seen.a, 0);
      }
    }
  }

  // ----- the invariant -----

  /** Subscriptions of circles outside a merge stay as they are. */
  ghost predicate OthersStay(db: Db, r: Db, t: nat, s: nat) {
    forall party: nat, user, series :: party != t && party != s ==>
      (Subscribed(r, party, user, series) <==> Subscribed(db, party, user, series))
  }

  /** A merge keeps the invariant, whatever the two circles' subscriptions were. */
  lemma MergeKeepsCovered(db: Db, r: Db, t: nat, s: nat)
    requires Covered(db) && SubscriptionsCarried(db, r, t, s) && OthersStay(db, r, t, s)
    requires NoRows(r, Subscription, s) && t != s
    ensures Covered(r)
  {
    assert forall user, series :: !Subscribed(r, s, user, series);
  }

  /** subscribeCreator, for a circle (series 0) or a series: what the checks let through. */
  datatype Outcome = Existing | CoveredByCircle | NeedsConfirmation | Created

  predicate IsSeriesOf(db: Db, k: Key, party: nat, user: nat) {
    OwnedBy(db, k, Subscription, party) && db[k].seen.a == user && db[k].seen.b > 0
  }

  /** One new row with what was asked for; a circle's takes the place of the account's series of
      it, and every other row stays. */
  ghost predicate SubscribedAs(db: Db, r: Db, party: nat, user: nat, series: nat, follow: Cells) {
    exists k :: AddedAs(db, r, k, party, user, series, follow)
  }

  predicate AddedAs(db: Db, r: Db, k: Key, party: nat, user: nat, series: nat, follow: Cells) {
    && k !in db && Named(r, k, Subscription, party, user, series) && r[k].seen.cells == follow
    && (forall j :: j in r && j != k ==> j in db && r[j] == db[j])
    && (forall j :: j in db ==>
          (j in r <==>
            !(series == 0 && OwnedBy(db, j, Subscription, party) && db[j].seen.a == user && db[j].seen.b > 0)))
  }

  method SubscribeCreator(db: Db, party: nat, user: nat, series: nat, watch: bool, replaceSeries: bool,
      activated: Option<nat>, stamp: nat)
    returns (outcome: Outcome, r: Db)
    requires Schema(db) && Covered(db) && party > 0 && PartyKey(party) in db
    ensures Schema(r) && Covered(r)
    ensures outcome != Created ==> r == db
    ensures forall k: Key :: k.table != Subscription ==> Get(r, k) == Get(db, k)
    ensures outcome == Existing <==> Subscribed(db, party, user, series)
    ensures outcome == CoveredByCircle <==>
      series > 0 && Subscribed(db, party, user, 0) && !Subscribed(db, party, user, series)
    ensures outcome == NeedsConfirmation <==>
      series == 0 && !Subscribed(db, party, user, 0) && !replaceSeries
      && exists b :: b > 0 && Subscribed(db, party, user, b)
    ensures outcome == Created ==> forall b :: Subscribed(r, party, user, b) <==>
      b == series || (series > 0 && Subscribed(db, party, user, b))
    ensures outcome == Created ==> SubscribedAs(db, r, party, user, series, Follow(watch, activated, stamp))
    ensures forall p, u, b :: p != party || u != user ==> (Subscribed(r, p, u, b) <==> Subscribed(db, p, u, b))
  {
    hide Schema, Covered, SubscribedAs;
    r := db;
    var existing := FindName(db, Subscription, party, user, series);
    if existing.Some? {
      return Existing, db;
    }
    var held := set k | k in db && IsSeriesOf(db, k, party, user);
    HeldSeries(db, party, user, held);
    if series > 0 {
      var circle := FindName(db, Subscription, party, user, 0);
      if circle.Some? {
        return CoveredByCircle, db;
      }
      held := {};
    } else if held != {} && !replaceSeries {
      return NeedsConfirmation, db;
    }
    var n := NextNumber(db, Subscription);
    var k := Key(Subscription, Number(n));
    var row := Row(Seen(party, user, series, Follow(watch, activated, stamp)), "");
    r := (db - held)[k := row];
    SchemaAdded(db, held, k, row, party, user, series, r);
    forall p: nat, u: nat, b: nat
      ensures Subscribed(r, p, u, b) <==>
                (p == party && u == user && b == series)
                  || (Subscribed(db, p, u, b) && !(series == 0 && p == party && u == user && b > 0))
    {
      SubscriptionAdded(db, held, k, row, party, user, series, r, p, u, b);
    }
    CoveredAfter(db, r, party, user, series);
    RowAdded(db, held, k, row, party, user, series, r);
    outcome := Created;
  }

  lemma RowAdded(db: Db, held: set<Key>, k: Key, row: Row, party: nat, user: nat, series: nat, r: Db)
    requires k !in db && k.table == Subscription
    requires row.seen.owner == party && row.seen.a == user && row.seen.b == series
    requires held == if series > 0 then {} else set j | j in db && IsSeriesOf(db, j, party, user)
    requires r == (db - held)[k := row]
    ensures SubscribedAs(db, r, party, user, series, row.seen.cells)
  {
    assert AddedAs(db, r, k, party, user, series, row.seen.cells);
  }

  lemma HeldSeries(db: Db, party: nat, user: nat, held: set<Key>)
    requires held == set k | k in db && IsSeriesOf(db, k, party, user)
    ensures held != {} <==> exists b :: b > 0 && Subscribed(db, party, user, b)
  {
    if held != {} {
      var k :| k in held;
      assert Named(db, k, Subscription, party, user, db[k].seen.b);
      assert Subscribed(db, party, user, db[k].seen.b);
    }
    if b :| b > 0 && Subscribed(db, party, user, b) {
      var k :| Named(db, k, Subscription, party, user, b);
      assert k in held;
    }
  }

  lemma SchemaAdded(db: Db, held: set<Key>, k: Key, row: Row, party: nat, user: nat, series: nat, r: Db)
    requires Schema(db) && party > 0 && PartyKey(party) in db && k !in db && k.table == Subscription && k.id.Number?
    requires row.seen.owner == party && row.seen.a == user && row.seen.b == series
    requires held == if series > 0 then {} else set j | j in db && IsSeriesOf(db, j, party, user)
    requires !Subscribed(db, party, user, series) && r == (db - held)[k := row]
    ensures Schema(r)
  {
    SchemaWithout(db, held);
    var mid := db - held;
    forall j
      ensures !Named(mid, j, Subscription, party, user, series)
    {
      assert !Named(db, j, Subscription, party, user, series);
    }
    SchemaKept(mid, k, row, party);
  }

  lemma OtherNamed(db: Db, held: set<Key>, k: Key, row: Row, party: nat, user: nat, series: nat, r: Db, p: nat,
      u: nat, b: nat, j: Key)
    requires held == if series > 0 then {} else set j | j in db && IsSeriesOf(db, j, party, user)
    requires r == (db - held)[k := row] && j != k
    ensures Named(r, j, Subscription, p, u, b) <==>
      Named(db, j, Subscription, p, u, b) && !(series == 0 && p == party && u == user && b > 0)
  {
  }

  lemma SubscriptionAdded(db: Db, held: set<Key>, k: Key, row: Row, party: nat, user: nat, series: nat, r: Db, p: nat,
      u: nat, b: nat)
    requires Schema(db) && party > 0 && PartyKey(party) in db && k !in db && k.table == Subscription && k.id.Number?
    requires row.seen.owner == party && row.seen.a == user && row.seen.b == series
    requires held == if series > 0 then {} else set j | j in db && IsSeriesOf(db, j, party, user)
    requires !Subscribed(db, party, user, series) && r == (db - held)[k := row]
    ensures Subscribed(r, p, u, b) <==>
              (p == party && u == user && b == series)
                || (Subscribed(db, p, u, b) && !(series == 0 && p == party && u == user && b > 0))
  {
    hide Schema;
    forall j | j != k
      ensures Named(r, j, Subscription, p, u, b) <==>
        Named(db, j, Subscription, p, u, b) && !(series == 0 && p == party && u == user && b > 0)
    {
      OtherNamed(db, held, k, row, party, user, series, r, p, u, b, j);
    }
    assert Named(r, k, Subscription, p, u, b) <==> p == party && u == user && b == series;
  }

  lemma CoveredAfter(db: Db, r: Db, party: nat, user: nat, series: nat)
    requires Covered(db) && (series > 0 ==> !Subscribed(db, party, user, 0))
    requires forall p, u, b :: Subscribed(r, p, u, b) <==>
               (p == party && u == user && b == series)
                 || (Subscribed(db, p, u, b) && !(series == 0 && p == party && u == user && b > 0))
    ensures Covered(r)
  {
  }
}
