/** mergeSeries: each series of the source moves, or joins the target's series of the same title. */
module CircleSeries {
  import opened CircleTables
  import opened CircleStatements
  import opened CircleMerge

  /** Series m holds the works that m and n held; nothing else changed. */
  ghost predicate WorksJoined(db: Db, r: Db, m: nat, n: nat) {
    && (forall a, b :: WorkKey(m, a, b) in r <==> WorkKey(m, a, b) in db || WorkKey(n, a, b) in db)
    && (forall k: Key :: Get(db, k) != Get(r, k) ==> k !in db && OwnedBy(r, k, SeriesWork, m))
  }

  /** INSERT INTO party_series_work ... SELECT ... ON CONFLICT DO NOTHING */
  method CopyWorks(db: Db, m: nat, n: nat) returns (r: Db)
    requires Schema(db) && SeriesKey(m) in db
    ensures Schema(r) && WorksJoined(db, r, m, n)
  {
    hide Schema;
    r := db;
    var left := RowsOf(db, SeriesWork, n);
    while left != {}
      invariant left <= RowsOf(db, SeriesWork, n) && Schema(r) && WorksSoFar(db, r, m, n, left)
    {
      var k :| k in left;
      left := left - {k};
      WorkNamed(db, k, n);
      var copy := WorkKey(m, db[k].seen.a, db[k].seen.b);
      if copy !in r {
        assert Get(db, SeriesKey(m)) == Get(r, SeriesKey(m));
        WorkAdded(r, copy, Row(db[k].seen.(owner := m), db[k].hidden), m);
        r := r[copy := Row(db[k].seen.(owner := m), db[k].hidden)];
      }
    }
    assert forall a, b :: WorkKey(n, a, b) in db ==> WorkKey(n, a, b) in RowsOf(db, SeriesWork, n) by {
      WorksOwned(db, n);
    }
  }

  /** The state while the works in left are still to be copied. */
  ghost predicate WorksSoFar(db: Db, r: Db, m: nat, n: nat, left: set<Key>) {
    && (forall a, b :: WorkKey(m, a, b) in r <==>
         || WorkKey(m, a, b) in db
         || (WorkKey(n, a, b) in db && WorkKey(n, a, b) in RowsOf(db, SeriesWork, n) && WorkKey(n, a, b) !in left))
    && (forall k: Key :: Get(db, k) != Get(r, k) ==> k !in db && OwnedBy(r, k, SeriesWork, m))
  }

  lemma WorkNamed(db: Db, k: Key, n: nat)
    requires Schema(db) && OwnedBy(db, k, SeriesWork, n)
    ensures k == WorkKey(n, db[k].seen.a, db[k].seen.b)
  {
  }

  lemma WorksOwned(db: Db, n: nat)
    requires Schema(db)
    ensures forall a, b :: WorkKey(n, a, b) in db ==> WorkKey(n, a, b) in RowsOf(db, SeriesWork, n)
  {
  }

  lemma WorkAdded(db: Db, k: Key, row: Row, m: nat)
    requires Schema(db) && SeriesKey(m) in db && k !in db && k == WorkKey(m, row.seen.a, row.seen.b)
      && row.seen.owner == m
    ensures Schema(db[k := row])
  {
  }

  /** DELETE FROM party_series, with its works. */
  function WithoutSeries(db: Db, n: nat): Db {
    db - ({SeriesKey(n)} + RowsOf(db, SeriesWork, n))
  }

  lemma SchemaWithoutSeries(db: Db, n: nat)
    requires Schema(db)
    ensures Schema(WithoutSeries(db, n))
  {
    hide WithoutSeries, Schema;
    SchemaSeries(db);
    SeriesStillExist(db, n);
    OtherRowsStay(db, n);
    FewerRows(db, WithoutSeries(db, n));
  }

  lemma OtherRowsStay(db: Db, n: nat)
    ensures forall k: Key :: k in WithoutSeries(db, n) ==> Get(db, k) == Get(WithoutSeries(db, n), k)
    ensures forall k: Key :: k in db && k.table == Party ==> k in WithoutSeries(db, n)
  {
  }

  /** Rows may go, as long as no party does and no work loses its series. */
  lemma FewerRows(db: Db, r: Db)
    requires Schema(db) && SeriesExist(r)
    requires forall k: Key :: k in r ==> Get(db, k) == Get(r, k)
    requires forall k: Key :: k in db && k.table == Party ==> k in r
    ensures Schema(r)
  {
    FewerNames(db, r);
    hide NamesUnique;
  }

  lemma FewerNames(db: Db, r: Db)
    requires NamesUnique(db) && forall k: Key :: k in r ==> Get(db, k) == Get(r, k)
    ensures NamesUnique(r)
  {
    forall j, k | j in r && k in r && j.table == k.table && HasUniqueIndex(k.table) && SameName(r[j].seen, r[k].seen)
      ensures j == k
    {
      assert Get(db, j) == Get(r, j) && Get(db, k) == Get(r, k);
    }
  }

  lemma SeriesStillExist(db: Db, n: nat)
    requires SeriesExist(db)
    ensures SeriesExist(WithoutSeries(db, n))
  {
    var r := WithoutSeries(db, n);
    forall k | k in r && k.table == SeriesWork
      ensures SeriesKey(r[k].seen.owner) in r
    {
      assert k !in RowsOf(db, SeriesWork, n);
    }
  }

  /** Where a series' works are after its merge: under itself, or under the target's series of that name. */
  ghost predicate WorksFollow(db: Db, r: Db, t: nat, n: nat) {
    exists m: nat :: OwnedBy(r, SeriesKey(m), Series, t) && SeriesKey(n) in db
      && r[SeriesKey(m)].seen.a == db[SeriesKey(n)].seen.a && r[SeriesKey(m)].seen.b == db[SeriesKey(n)].seen.b
      && forall a, b :: WorkKey(n, a, b) in db ==> WorkKey(m, a, b) in r
  }

  /** Only series and their works changed; series n left the source, and no other did. */
  ghost predicate SeriesLeft(db: Db, r: Db, t: nat, s: nat, n: nat) {
    && (forall k: Key :: k.table != Series && k.table != SeriesWork ==> Get(db, k) == Get(r, k))
    && (forall k: Key :: k.table == Series && k != SeriesKey(n) ==> Get(db, k) == Get(r, k))
    && (forall k: Key :: OwnedBy(r, k, Series, s) <==> OwnedBy(db, k, Series, s) && k != SeriesKey(n))
    && (SeriesKey(n) in db && SeriesKey(n) in r ==>
         r[SeriesKey(n)] == db[SeriesKey(n)].(seen := db[SeriesKey(n)].seen.(owner := t)))
  }

  /** Series works never lose a row other than with their series. */
  ghost predicate WorksStay(db: Db, r: Db) {
    forall series, a, b :: WorkKey(series, a, b) in db && WorkKey(series, a, b) !in r ==> SeriesKey(series) !in r
  }

  method MergeOneSeries(db: Db, t: nat, s: nat, n: nat) returns (r: Db)
    requires Schema(db) && Circles(db, t, s) && OwnedBy(db, SeriesKey(n), Series, s)
    ensures Schema(r) && Local(db, r, t, s)
    ensures SeriesLeft(db, r, t, s, n) && WorksStay(db, r)
    ensures WorksFollow(db, r, t, n)
  {
    var k := SeriesKey(n);
    var found := FindName(db, Series, t, db[k].seen.a, db[k].seen.b);
    match found
    case None =>
      r := db[k := db[k].(seen := db[k].seen.(owner := t))];
      MovedSeriesFits(db, r, t, s, n);
      MovedSeriesLeaves(db, r, t, s, n);
      assert OwnedBy(r, SeriesKey(n), Series, t);
    case Some(at) =>
      var m := at.id.n;
      var mid := CopyWorks(db, m, n);
      assert Get(db, k) == Get(mid, k) && Get(db, SeriesKey(m)) == Get(mid, SeriesKey(m));
      r := WithoutSeries(mid, n);
      SchemaWithoutSeries(mid, n);
      SeriesJoins(db, mid, r, t, s, m, n);
      WorksJoin(db, mid, r, t, m, n);
      JoinIsLocal(db, mid, r, t, s, m, n);
  }

  lemma MovedSeriesLeaves(db: Db, r: Db, t: nat, s: nat, n: nat)
    requires t != s && OwnedBy(db, SeriesKey(n), Series, s)
    requires r == db[SeriesKey(n) := db[SeriesKey(n)].(seen := db[SeriesKey(n)].seen.(owner := t))]
    ensures Local(db, r, t, s) && SeriesLeft(db, r, t, s, n)
  {
  }

  lemma MovedSeriesFits(db: Db, r: Db, t: nat, s: nat, n: nat)
    requires Schema(db) && Circles(db, t, s) && OwnedBy(db, SeriesKey(n), Series, s)
    requires !HasName(db, Series, t, db[SeriesKey(n)].seen.a, db[SeriesKey(n)].seen.b)
    requires r == db[SeriesKey(n) := db[SeriesKey(n)].(seen := db[SeriesKey(n)].seen.(owner := t))]
    ensures Schema(r)
  {
    var k := SeriesKey(n);
    assert forall j :: j in db && j.table == Series ==> !Named(db, j, Series, t, db[k].seen.a, db[k].seen.b);
  }

  /** Apart from works and series n, joining leaves every row. */
  lemma JoinKeeps(db: Db, mid: Db, r: Db, m: nat, n: nat, k: Key)
    requires WorksJoined(db, mid, m, n) && r == WithoutSeries(mid, n)
    requires k.table != SeriesWork && k != SeriesKey(n)
    ensures Get(db, k) == Get(r, k)
  {
    assert Get(db, k) == Get(mid, k);
    assert k !in RowsOf(mid, SeriesWork, n);
  }

  lemma SeriesJoins(db: Db, mid: Db, r: Db, t: nat, s: nat, m: nat, n: nat)
    requires OwnedBy(db, SeriesKey(n), Series, s)
    requires WorksJoined(db, mid, m, n) && r == WithoutSeries(mid, n)
    ensures SeriesLeft(db, r, t, s, n)
  {
    forall k: Key | k.table != SeriesWork && k != SeriesKey(n)
      ensures Get(db, k) == Get(r, k)
    {
      JoinKeeps(db, mid, r, m, n, k);
    }
    assert SeriesKey(n) !in r;
    forall k: Key
      ensures OwnedBy(r, k, Series, s) <==> OwnedBy(db, k, Series, s) && k != SeriesKey(n)
    {
      if k.table == Series && k != SeriesKey(n) {
        assert Get(db, k) == Get(r, k);
      }
    }
  }

  lemma WorksJoin(db: Db, mid: Db, r: Db, t: nat, m: nat, n: nat)
    requires m != n && OwnedBy(db, SeriesKey(m), Series, t) && SeriesKey(n) in db
    requires db[SeriesKey(m)].seen.a == db[SeriesKey(n)].seen.a && db[SeriesKey(m)].seen.b == db[SeriesKey(n)].seen.b
    requires WorksJoined(db, mid, m, n) && r == WithoutSeries(mid, n) && KeysMatch(mid)
    ensures WorksStay(db, r) && WorksFollow(db, r, t, n)
  {
    JoinKeeps(db, mid, r, m, n, SeriesKey(m));
    forall a, b | WorkKey(n, a, b) in db
      ensures WorkKey(m, a, b) in r
    {
      assert WorkKey(m, a, b) in mid;
    }
    assert OwnedBy(r, SeriesKey(m), Series, t);
    forall series, a, b | WorkKey(series, a, b) in db && WorkKey(series, a, b) !in r
      ensures SeriesKey(series) !in r
    {
      assert Get(db, WorkKey(series, a, b)) == Get(mid, WorkKey(series, a, b));
      assert WorkKey(series, a, b) in RowsOf(mid, SeriesWork, n);
    }
  }

  lemma JoinIsLocal(db: Db, mid: Db, r: Db, t: nat, s: nat, m: nat, n: nat)
    requires Schema(db) && t != s && OwnedBy(db, SeriesKey(n), Series, s) && OwnedBy(db, SeriesKey(m), Series, t)
    requires WorksJoined(db, mid, m, n) && r == WithoutSeries(mid, n) && Schema(mid)
    ensures Local(db, r, t, s)
  {
    JoinKeeps(db, mid, r, m, n, SeriesKey(m));
    assert Get(db, SeriesKey(n)) == Get(mid, SeriesKey(n));
    hide Schema;
    forall k: Key | Get(db, k) != Get(r, k)
      ensures (k in db ==> InScope(db, k, t, s)) && (k in r ==> InScope(r, k, t, s))
    {
      JoinTouches(db, mid, r, m, n, k);
    }
  }

  /** What a join touches is series n, a work of n, or a new work of m. */
  lemma JoinTouches(db: Db, mid: Db, r: Db, m: nat, n: nat, k: Key)
    requires WorksJoined(db, mid, m, n) && r == WithoutSeries(mid, n) && Get(db, k) != Get(r, k)
    ensures k in db ==> k !in r && (k == SeriesKey(n) || OwnedBy(db, k, SeriesWork, n))
    ensures k in r ==> OwnedBy(r, k, SeriesWork, m)
  {
    if Get(db, k) == Get(mid, k) {
      assert k == SeriesKey(n) || k in RowsOf(mid, SeriesWork, n);
    } else {
      assert OwnedBy(mid, k, SeriesWork, m);
    }
  }

  /** The state after the series in done were merged. */
  ghost predicate SeriesSoFar(db: Db, r: Db, t: nat, s: nat, done: set<Key>) {
    && Schema(r) && Local(db, r, t, s) && WorksStay(db, r)
    && (forall k: Key :: k.table != Series && k.table != SeriesWork ==> Get(db, k) == Get(r, k))
    && (forall k: Key :: k.table == Series && k !in done ==> Get(db, k) == Get(r, k))
    && (forall k: Key :: OwnedBy(r, k, Series, s) <==> OwnedBy(db, k, Series, s) && k !in done)
    && (forall k :: k in done ==> k.table == Series)
    && (forall k :: k in done && k in db && k in r ==> r[k] == db[k].(seen := db[k].seen.(owner := t)))
    && (forall k: Key :: k in r && k.table == Series ==> k in db)
  }

  lemma SeriesStep(db: Db, mid: Db, r: Db, t: nat, s: nat, done: set<Key>, n: nat)
    requires Schema(db) && SeriesSoFar(db, mid, t, s, done)
    requires Schema(r) && Local(mid, r, t, s) && SeriesLeft(mid, r, t, s, n) && WorksStay(mid, r)
    requires OwnedBy(mid, SeriesKey(n), Series, s)
    ensures SeriesSoFar(db, r, t, s, done + {SeriesKey(n)})
  {
    hide Schema, Local, WorksStay;
    SchemaSeries(db);
    SchemaSeries(mid);
    SchemaSeries(r);
    forall k: Key | k.table == Series && k in r
      ensures k in mid
    {
      assert k != SeriesKey(n) ==> Get(mid, k) == Get(r, k);
    }
    LocalChain(db, mid, r, t, s);
    WorksStayChain(db, mid, r);
    var now := SeriesKey(n);
    assert now !in done && Get(db, now) == Get(mid, now);
    forall k | k in done + {now} && k in db && k in r
      ensures r[k] == db[k].(seen := db[k].seen.(owner := t))
    {
      if k != now && k.table == Series {
        assert Get(mid, k) == Get(r, k);
      }
    }
  }

  lemma WorksStayChain(db: Db, mid: Db, r: Db)
    requires WorksStay(db, mid) && WorksStay(mid, r)
    requires forall k: Key :: k.table == Series && k in r ==> k in mid
    ensures WorksStay(db, r)
  {
    forall series, a, b | WorkKey(series, a, b) in db && WorkKey(series, a, b) !in r
      ensures SeriesKey(series) !in r
    {
      assert WorkKey(series, a, b) in mid || SeriesKey(series) !in mid;
    }
  }

  ghost predicate AllFollow(db: Db, r: Db, t: nat, done: set<Key>) {
    forall n: nat :: SeriesKey(n) in done ==> WorksFollow(db, r, t, n)
  }

  lemma FollowsOn(db: Db, mid: Db, r: Db, t: nat, s: nat, done: set<Key>, i: nat, n: nat)
    requires SeriesSoFar(db, mid, t, s, done) && t != s && WorksFollow(db, mid, t, i)
    requires SeriesLeft(mid, r, t, s, n) && WorksStay(mid, r) && OwnedBy(mid, SeriesKey(n), Series, s)
    ensures WorksFollow(db, r, t, i)
  {
    var m: nat :| OwnedBy(mid, SeriesKey(m), Series, t) && SeriesKey(i) in db
      && mid[SeriesKey(m)].seen.a == db[SeriesKey(i)].seen.a && mid[SeriesKey(m)].seen.b == db[SeriesKey(i)].seen.b
      && forall a, b :: WorkKey(i, a, b) in db ==> WorkKey(m, a, b) in mid;
    assert Get(mid, SeriesKey(m)) == Get(r, SeriesKey(m));
    assert OwnedBy(r, SeriesKey(m), Series, t);
  }

  lemma FollowsNow(db: Db, mid: Db, r: Db, t: nat, s: nat, done: set<Key>, n: nat)
    requires SeriesSoFar(db, mid, t, s, done) && SeriesKey(n) !in done
    requires OwnedBy(mid, SeriesKey(n), Series, s) && WorksFollow(mid, r, t, n)
    ensures WorksFollow(db, r, t, n)
  {
    assert Get(db, SeriesKey(n)) == Get(mid, SeriesKey(n));
    var m: nat :| OwnedBy(r, SeriesKey(m), Series, t)
      && r[SeriesKey(m)].seen.a == mid[SeriesKey(n)].seen.a && r[SeriesKey(m)].seen.b == mid[SeriesKey(n)].seen.b
      && forall a, b :: WorkKey(n, a, b) in mid ==> WorkKey(m, a, b) in r;
    assert forall a, b :: WorkKey(n, a, b) in db ==> WorkKey(n, a, b) in mid;
  }

  method MergeSeries(db: Db, t: nat, s: nat) returns (r: Db)
    requires Schema(db) && Circles(db, t, s)
    ensures SeriesSoFar(db, r, t, s, RowsOf(db, Series, s)) && AllFollow(db, r, t, RowsOf(db, Series, s))
  {
    hide Schema, SeriesSoFar, WorksFollow;
    NothingMerged(db, t, s);
    r := db;
    ghost var done: set<Key> := {};
    var items := RowsOf(db, Series, s);
    while items != {}
      invariant items + done == RowsOf(db, Series, s) && items * done == {}
      invariant SeriesSoFar(db, r, t, s, done) && AllFollow(db, r, t, done)
    {
      var k :| k in items;
      items := items - {k};
      r := MergeNext(db, r, t, s, done, k);
      done := done + {k};
    }
    assert done == RowsOf(db, Series, s);
  }

  lemma NothingMerged(db: Db, t: nat, s: nat)
    requires Schema(db)
    ensures SeriesSoFar(db, db, t, s, {}) && AllFollow(db, db, t, {})
  {
  }

  method MergeNext(db: Db, mid: Db, t: nat, s: nat, ghost done: set<Key>, k: Key) returns (r: Db)
    requires Schema(db) && Circles(db, t, s) && SeriesSoFar(db, mid, t, s, done) && OwnedBy(db, k, Series, s)
      && k !in done
    requires AllFollow(db, mid, t, done)
    ensures SeriesSoFar(db, r, t, s, done + {k}) && AllFollow(db, r, t, done + {k})
  {
    SeriesWaits(db, mid, t, s, done, k);
    r := MergeOneSeries(mid, t, s, k.id.n);
    SeriesStep(db, mid, r, t, s, done, k.id.n);
    FollowsNow(db, mid, r, t, s, done, k.id.n);
    forall n: nat | SeriesKey(n) in done
      ensures WorksFollow(db, r, t, n)
    {
      FollowsOn(db, mid, r, t, s, done, n, k.id.n);
    }
  }

  /** The target has the titles of both circles' series. */
  lemma TitlesCarried(db: Db, r: Db, t: nat, s: nat)
    requires Schema(db) && t != s
    requires SeriesSoFar(db, r, t, s, RowsOf(db, Series, s)) && AllFollow(db, r, t, RowsOf(db, Series, s))
    ensures Carried(db, r, Series, t, s)
  {
    forall a: nat, b: nat
      ensures HasName(r, Series, t, a, b) <==> HasName(db, Series, t, a, b) || HasName(db, Series, s, a, b)
    {
      if k :| Named(r, k, Series, t, a, b) {
        if k in RowsOf(db, Series, s) {
          assert Named(db, k, Series, s, a, b);
        } else {
          assert Get(db, k) == Get(r, k);
          assert Named(db, k, Series, t, a, b);
        }
      }
      if k :| Named(db, k, Series, t, a, b) {
        assert Get(db, k) == Get(r, k);
        assert Named(r, k, Series, t, a, b);
      }
      if k :| Named(db, k, Series, s, a, b) {
        TitleFollows(db, r, t, s, k);
      }
    }
  }

  lemma TitleFollows(db: Db, r: Db, t: nat, s: nat, k: Key)
    requires Schema(db) && AllFollow(db, r, t, RowsOf(db, Series, s)) && OwnedBy(db, k, Series, s)
    ensures HasName(r, Series, t, db[k].seen.a, db[k].seen.b)
  {
    assert k == SeriesKey(k.id.n);
    assert WorksFollow(db, r, t, k.id.n);
    var m: nat :| OwnedBy(r, SeriesKey(m), Series, t)
      && r[SeriesKey(m)].seen.a == db[k].seen.a && r[SeriesKey(m)].seen.b == db[k].seen.b;
    assert Named(r, SeriesKey(m), Series, t, db[k].seen.a, db[k].seen.b);
  }

  lemma NoneLeft(db: Db, r: Db, t: nat, s: nat)
    requires SeriesSoFar(db, r, t, s, RowsOf(db, Series, s))
    ensures NoRows(r, Series, s)
  {
    forall k: Key
      ensures !OwnedBy(r, k, Series, s)
    {
      assert OwnedBy(db, k, Series, s) ==> k in RowsOf(db, Series, s);
    }
  }

  lemma SeriesWaits(db: Db, r: Db, t: nat, s: nat, done: set<Key>, k: Key)
    requires Schema(db) && Circles(db, t, s) && SeriesSoFar(db, r, t, s, done) && OwnedBy(db, k, Series, s)
      && k !in done
    ensures Circles(r, t, s) && k.id.Number? && OwnedBy(r, SeriesKey(k.id.n), Series, s)
  {
    assert Get(db, PartyKey(t)) == Get(r, PartyKey(t)) && Get(db, PartyKey(s)) == Get(r, PartyKey(s));
  }
}
