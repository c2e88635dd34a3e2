/** The statements of a merge, each a step from one state of the tables to the next. */
module CircleStatements {
  import opened CircleTables

  predicate IsCopied(table: Table) {
    table in {Alias, WorkParty, UserState, TagAssignment, CatalogItem, Subscription, ReleaseSeen}
  }

  predicate IsRepointed(table: Table) {
    table in {MetadataSnapshot, MergeReview, FeedItem}
  }

  predicate OwnedBy(db: Db, k: Key, table: Table, owner: nat) {
    k in db && k.table == table && db[k].seen.owner == owner
  }

  function RowsOf(db: Db, table: Table, owner: nat): set<Key> {
    set k | k in db && OwnedBy(db, k, table, owner)
  }

  predicate Named(db: Db, k: Key, table: Table, owner: nat, a: nat, b: nat) {
    OwnedBy(db, k, table, owner) && db[k].seen.a == a && db[k].seen.b == b
  }

  ghost predicate HasName(db: Db, table: Table, owner: nat, a: nat, b: nat) {
    exists k :: Named(db, k, table, owner, a, b)
  }

  /** The target has exactly the names that target and source had. */
  ghost predicate Carried(db: Db, r: Db, table: Table, t: nat, s: nat) {
    forall a, b :: HasName(r, table, t, a, b) <==> HasName(db, table, t, a, b) || HasName(db, table, s, a, b)
  }

  ghost predicate NoRows(db: Db, table: Table, owner: nat) {
    forall k: Key :: !OwnedBy(db, k, table, owner)
  }

  /** Only rows of one table changed, and only rows of the two circles. */
  ghost predicate Owned(db: Db, r: Db, table: Table, t: nat, s: nat) {
    forall k: Key :: Get(db, k) != Get(r, k) ==>
      && k.table == table
      && (k in db ==> db[k].seen.owner == t || db[k].seen.owner == s)
      && (k in r ==> r[k].seen.owner == t || r[k].seen.owner == s)
  }

  ghost predicate SameTable(db: Db, r: Db, table: Table) {
    forall k: Key :: k.table == table ==> Get(db, k) == Get(r, k)
  }

  // ----- what copying does to a row -----

  function Coalesce(x: Option<nat>, y: Option<nat>): Option<nat> {
    if x.Some? then x else y
  }

  function FirstText(x: string, y: string): string {
    if x == "" then y else x
  }

  /** The DO UPDATE and DO NOTHING branches: the kept row takes what it lacks. */
  function Combine(kept: Row, other: Row): Row {
    match (kept.seen.cells, other.seen.cells)
    case (Personal(rating, note, favorite, lastViewed, stamps), Personal(rating', note', favorite', lastViewed', _)) =>
      var cells := Personal(Coalesce(rating, rating'), FirstText(note, note'), favorite || favorite',
                            Coalesce(lastViewed, lastViewed'), stamps);
      Row(kept.seen.(cells := cells), FirstText(kept.hidden, other.hidden))
    case (Catalog(lastSeen, _), Catalog(lastSeen', value')) =>
      if lastSeen' > lastSeen then kept.(seen := kept.seen.(cells := other.seen.cells)) else kept
    case (Follow(watch, activated, stamps), Follow(watch', activated', _)) =>
      kept.(seen := kept.seen.(cells := Follow(watch || watch', Coalesce(activated, activated'), stamps)))
    case _ => kept
  }

  lemma CombineKeepsName(kept: Row, other: Row)
    ensures Combine(kept, other).seen == kept.seen.(cells := Combine(kept, other).seen.cells)
  {
  }

  /** Nothing personal is lost: what either user state, catalog item or subscription says and
      the other does not contradict is kept, and the newer catalog item wins. */
  lemma CombineLosesNothing(kept: Row, other: Row)
    ensures var r := Combine(kept, other);
            match (kept.seen.cells, other.seen.cells, r.seen.cells)
            case (Personal(rating, note, favorite, viewed, _), Personal(rating', note', favorite', viewed', _),
              Personal(rating'', note'', favorite'', viewed'', _)) =>
              && (rating''.None? <==> rating.None? && rating'.None?) && (rating.Some? ==> rating'' == rating)
              && (note'' == "" <==> note == "" && note' == "") && (note != "" ==> note'' == note)
              && note'' in {note, note'}
              && (favorite'' <==> favorite || favorite')
              && (viewed''.None? <==> viewed.None? && viewed'.None?) && (viewed.Some? ==> viewed'' == viewed)
              && (r.hidden == "" <==> kept.hidden == "" && other.hidden == "")
              && (kept.hidden != "" ==> r.hidden == kept.hidden)
            case (Catalog(seen, _), Catalog(seen', _), Catalog(seen'', _)) =>
              seen'' >= seen && seen'' >= seen' && r.seen.cells in {kept.seen.cells, other.seen.cells}
                && (seen == seen' ==> r == kept)
            case (Follow(watch, activated, _), Follow(watch', activated', _), Follow(watch'', activated'', _)) =>
              && (watch'' <==> watch || watch') && (activated''.None? <==> activated.None? && activated'.None?)
              && (activated.Some? ==> activated'' == activated)
            case _ => r == kept
  {
  }

  predicate SameKind(x: Cells, y: Cells) {
    (x.Personal? <==> y.Personal?) && (x.Catalog? <==> y.Catalog?) && (x.Follow? <==> y.Follow?)
  }

  /** When three circles are merged one after the other, it does not matter which two go first. */
  lemma CombineAssociates(x: Row, y: Row, z: Row)
    requires SameKind(x.seen.cells, y.seen.cells) && SameKind(y.seen.cells, z.seen.cells)
    ensures Combine(Combine(x, y), z) == Combine(x, Combine(y, z))
  {
  }

  /** The row a copy inserts; a copied alias is stamped as such. */
  function Copy(table: Table, row: Row, t: nat, stamp: nat): Row {
    Row(row.seen.(owner := t, cells := if table == Alias then Plain(stamp) else row.seen.cells), row.hidden)
  }

  /** Source row j is now part of target row k. */
  predicate Absorbed(db: Db, r: Db, table: Table, t: nat, stamp: nat, j: Key, k: Key)
    requires j in db
  {
    && Named(r, k, table, t, db[j].seen.a, db[j].seen.b)
    && r[k] == if k in db then Combine(db[k], db[j]) else Copy(table, db[j], t, stamp)
  }

  // ----- numbering -----

  method NextNumber(db: Db, table: Table) returns (n: nat)
    ensures n > 0 && forall m: nat :: Key(table, Number(m)) in db ==> m < n
    ensures n == 1 || Key(table, Number(n - 1)) in db
  {
    n := 1;
    var left := db.Keys;
    while left != {}
      invariant left <= db.Keys && n > 0 && (n == 1 || Key(table, Number(n - 1)) in db)
      invariant forall m: nat :: Key(table, Number(m)) in db.Keys - left ==> m < n
    {
      var k :| k in left;
      left := left - {k};
      if k.table == table && k.id.Number? && n <= k.id.n {
        n := k.id.n + 1;
      }
    }
  }

  method FindName(db: Db, table: Table, owner: nat, a: nat, b: nat) returns (found: Option<Key>)
    ensures found.Some? ==> Named(db, found.value, table, owner, a, b)
    ensures found.None? ==> !HasName(db, table, owner, a, b)
  {
    var left := db.Keys;
    while left != {}
      invariant left <= db.Keys
      invariant forall k :: k in db && k !in left ==> !Named(db, k, table, owner, a, b)
    {
      var k :| k in left;
      left := left - {k};
      if Named(db, k, table, owner, a, b) {
        return Some(k);
      }
    }
    return None;
  }

  // ----- INSERT ... SELECT ... ON CONFLICT -----

  /** The state after the rows in done were copied. */
  ghost predicate CopiedSoFar(db: Db, r: Db, table: Table, t: nat, s: nat, stamp: nat, done: set<Key>) {
    && (forall j :: j in done ==> OwnedBy(db, j, table, s) && exists k :: Absorbed(db, r, table, t, stamp, j, k))
    && (forall k: Key :: Get(db, k) != Get(r, k) ==>
         k.table == table && k in r && r[k].seen.owner == t && (k in db ==> db[k].seen.owner == t)
         && exists j :: j in done && Absorbed(db, r, table, t, stamp, j, k))
    && db.Keys <= r.Keys
  }

  /** Adding or changing one row of the target keeps the schema. */
  lemma SchemaKept(db: Db, k: Key, row: Row, t: nat)
    requires Schema(db) && PartyKey(t) in db && t > 0 && row.seen.owner == t
    requires IsCopied(k.table)
    requires IsNatural(k.table) ==> k.id == Natural(t, row.seen.a, row.seen.b)
    requires !IsNatural(k.table) ==> k.id.Number?
    requires forall j :: Named(db, j, k.table, t, row.seen.a, row.seen.b) ==> j == k
    ensures Schema(db[k := row])
  {
    NamesKept(db, k, row, t);
    hide NamesUnique;
  }

  lemma NamesKept(db: Db, k: Key, row: Row, t: nat)
    requires NamesUnique(db) && row.seen.owner == t
    requires forall j :: Named(db, j, k.table, t, row.seen.a, row.seen.b) ==> j == k
    ensures NamesUnique(db[k := row])
  {
    var r := db[k := row];
    forall i, j | i in r && j in r && i.table == j.table && HasUniqueIndex(j.table) && SameName(r[i].seen, r[j].seen)
      ensures i == j
    {
      if i == k {
        assert j == k || Named(db, j, k.table, t, row.seen.a, row.seen.b);
      } else if j == k {
        assert Named(db, i, k.table, t, row.seen.a, row.seen.b);
      }
    }
  }

  /** What an earlier source row became stays when a later one is copied. */
  lemma AbsorbedStays(db: Db, r: Db, r': Db, table: Table, t: nat, s: nat, stamp: nat, i: Key, j: Key, k: Key, k': Key)
    requires Schema(db) && IsCopied(table) && s > 0 && OwnedBy(db, i, table, s) && OwnedBy(db, j, table, s) && i != j
    requires Absorbed(db, r', table, t, stamp, j, k) && r' == r[k := r'[k]] && (k in r ==> k in db && db[k] == r[k])
    requires Absorbed(db, r, table, t, stamp, i, k')
    ensures k' != k && Absorbed(db, r', table, t, stamp, i, k')
  {
    if k' == k {
      CombineKeepsName(db[k], db[j]);
      SourceNamesDiffer(db, table, s, i, j);
      assert false;
    }
  }

  /** The first half of the next lemma: earlier source rows stay absorbed. */
  lemma EarlierStay(db: Db, r: Db, table: Table, t: nat, s: nat, stamp: nat, done: set<Key>, j: Key, k: Key, r': Db,
      i: Key)
    requires CopiedSoFar(db, r, table, t, s, stamp, done) && Schema(db) && IsCopied(table) && s > 0
    requires OwnedBy(db, j, table, s) && j !in done && Absorbed(db, r', table, t, stamp, j, k) && i in done
    requires r' == r[k := r'[k]] && (k in r ==> k in db && db[k] == r[k])
    ensures exists k' :: Absorbed(db, r', table, t, stamp, i, k')
  {
    hide Schema;
    var k' :| Absorbed(db, r, table, t, stamp, i, k');
    AbsorbedStays(db, r, r', table, t, s, stamp, i, j, k, k');
  }

  lemma CopyExtends(db: Db, r: Db, table: Table, t: nat, s: nat, stamp: nat, done: set<Key>, j: Key, k: Key, r': Db)
    requires CopiedSoFar(db, r, table, t, s, stamp, done) && Schema(db) && IsCopied(table) && s > 0
    requires OwnedBy(db, j, table, s) && j !in done && Absorbed(db, r', table, t, stamp, j, k)
    requires r' == r[k := r'[k]] && (k in r ==> k in db && db[k] == r[k]) && (k in db ==> db[k].seen.owner == t)
    ensures CopiedSoFar(db, r', table, t, s, stamp, done + {j})
  {
    hide Schema, Combine;
    forall i | i in done
      ensures exists k' :: Absorbed(db, r', table, t, stamp, i, k')
    {
      EarlierStay(db, r, table, t, s, stamp, done, j, k, r', i);
    }
    forall k' | Get(db, k') != Get(r', k')
      ensures k'.table == table && k' in r' && r'[k'].seen.owner == t && (k' in db ==> db[k'].seen.owner == t)
      ensures exists i :: i in done + {j} && Absorbed(db, r', table, t, stamp, i, k')
    {
      if k' == k {
        assert j in done + {j};
      } else {
        assert Get(r, k') == Get(r', k');
        var i :| i in done && Absorbed(db, r, table, t, stamp, i, k');
        AbsorbedStays(db, r, r', table, t, s, stamp, i, j, k, k');
        assert i in done + {j};
      }
    }
  }

  lemma SourceNamesDiffer(db: Db, table: Table, s: nat, i: Key, j: Key)
    requires Schema(db) && IsCopied(table) && s > 0
    requires OwnedBy(db, i, table, s) && OwnedBy(db, j, table, s) && db[i].seen.a == db[j].seen.a
      && db[i].seen.b == db[j].seen.b
    ensures i == j
  {
  }

  method CopyRows(db: Db, table: Table, t: nat, s: nat, stamp: nat) returns (r: Db)
    requires Schema(db) && IsCopied(table) && t > 0 && s > 0 && t != s && PartyKey(t) in db
    ensures Schema(r) && CopiedSoFar(db, r, table, t, s, stamp, RowsOf(db, table, s))
  {
    hide Schema, Absorbed, IsCopied;
    r := db;
    ghost var done: set<Key> := {};
    ghost var all := RowsOf(db, table, s);
    var left := RowsOf(db, table, s);
    while left != {}
      invariant left + done == all && left * done == {}
      invariant Schema(r) && CopiedSoFar(db, r, table, t, s, stamp, done)
    {
      var j :| j in left;
      left := left - {j};
      r := CopyRow(db, r, table, t, s, stamp, done, j);
      done := done + {j};
    }
    assert done == all;
  }

  method CopyRow(db: Db, r: Db, table: Table, t: nat, s: nat, stamp: nat, ghost done: set<Key>, j: Key) returns (r': Db)
    requires Schema(db) && Schema(r) && IsCopied(table) && t > 0 && s > 0 && t != s && PartyKey(t) in db
    requires CopiedSoFar(db, r, table, t, s, stamp, done) && OwnedBy(db, j, table, s) && j !in done
    ensures Schema(r') && CopiedSoFar(db, r', table, t, s, stamp, done + {j})
  {
    hide Schema, CopiedSoFar, Combine;
    CopiedOn(db, r, table, t, s, stamp, done);
    var row := db[j];
    var found := FindName(r, table, t, row.seen.a, row.seen.b);
    match found
    case Some(k) =>
      NotYetTouched(db, r, table, t, s, stamp, done, j, k);
      CombineKeepsName(db[k], row);
      SchemaKept(r, k, Combine(r[k], row), t);
      r' := r[k := Combine(r[k], row)];
      CopyExtends(db, r, table, t, s, stamp, done, j, k, r');
    case None =>
      var k: Key;
      if IsNatural(table) {
        k := Key(table, Natural(t, row.seen.a, row.seen.b));
      } else {
        var n := NextNumber(r, table);
        k := Key(table, Number(n));
      }
      NotThere(r, table, t, row.seen.a, row.seen.b, k);
      SchemaKept(r, k, Copy(table, row, t, stamp), t);
      r' := r[k := Copy(table, row, t, stamp)];
      CopyExtends(db, r, table, t, s, stamp, done, j, k, r');
  }

  lemma CopiedOn(db: Db, r: Db, table: Table, t: nat, s: nat, stamp: nat, done: set<Key>)
    requires Schema(r) && PartyKey(t) in db && CopiedSoFar(db, r, table, t, s, stamp, done)
    ensures PartyKey(t) in r && KeysMatch(r) && db.Keys <= r.Keys
  {
  }

  lemma NotThere(r: Db, table: Table, t: nat, a: nat, b: nat, k: Key)
    requires KeysMatch(r) && !HasName(r, table, t, a, b) && k.table == table
    requires if IsNatural(table) then k.id == Natural(t, a, b)
             else k.id.Number? && forall m: nat :: Key(table, Number(m)) in r ==> m < k.id.n
    ensures k !in r
  {
    assert !Named(r, k, table, t, a, b);
  }

  /** The target row a source row meets is as it was before the statement. */
  lemma NotYetTouched(db: Db, r: Db, table: Table, t: nat, s: nat, stamp: nat, done: set<Key>, j: Key, k: Key)
    requires Schema(db) && Schema(r) && IsCopied(table) && t > 0 && s > 0
    requires CopiedSoFar(db, r, table, t, s, stamp, done) && OwnedBy(db, j, table, s) && j !in done
    requires Named(r, k, table, t, db[j].seen.a, db[j].seen.b)
    ensures Get(db, k) == Get(r, k)
    ensures forall i :: Named(r, i, table, t, db[j].seen.a, db[j].seen.b) ==> i == k
  {
    if Get(db, k) != Get(r, k) {
      var i :| i in done && Absorbed(db, r, table, t, stamp, i, k);
      SourceNamesDiffer(db, table, s, i, j);
      assert false;
    }
    forall i | Named(r, i, table, t, db[j].seen.a, db[j].seen.b)
      ensures i == k
    {
      SourceNamesDiffer(r, table, t, i, k);
    }
  }

  lemma CopyOwned(db: Db, r: Db, table: Table, t: nat, s: nat, stamp: nat)
    requires CopiedSoFar(db, r, table, t, s, stamp, RowsOf(db, table, s))
    ensures Owned(db, r, table, t, s)
  {
  }

  lemma NameCopied(db: Db, r: Db, table: Table, t: nat, s: nat, stamp: nat, a: nat, b: nat)
    requires CopiedSoFar(db, r, table, t, s, stamp, RowsOf(db, table, s))
    ensures HasName(r, table, t, a, b) <==> HasName(db, table, t, a, b) || HasName(db, table, s, a, b)
  {
    hide Combine;
    if k :| Named(r, k, table, t, a, b) {
      CopiedFrom(db, r, table, t, s, stamp, k);
    }
    if k :| Named(db, k, table, t, a, b) {
      TargetKept(db, r, table, t, s, stamp, k);
      assert Named(r, k, table, t, a, b);
    }
    if j :| Named(db, j, table, s, a, b) {
      var k :| Absorbed(db, r, table, t, stamp, j, k);
      assert Named(r, k, table, t, a, b);
    }
  }

  lemma CopyCarries(db: Db, r: Db, table: Table, t: nat, s: nat, stamp: nat)
    requires CopiedSoFar(db, r, table, t, s, stamp, RowsOf(db, table, s))
    ensures Carried(db, r, table, t, s)
  {
    hide CopiedSoFar, HasName;
    forall a, b
      ensures HasName(r, table, t, a, b) <==> HasName(db, table, t, a, b) || HasName(db, table, s, a, b)
    {
      NameCopied(db, r, table, t, s, stamp, a, b);
    }
  }

  /** A target row that the copy changed has a source row's name; any other had its name before. */
  lemma CopiedFrom(db: Db, r: Db, table: Table, t: nat, s: nat, stamp: nat, k: Key)
    requires CopiedSoFar(db, r, table, t, s, stamp, RowsOf(db, table, s)) && OwnedBy(r, k, table, t)
    ensures HasName(db, table, if Get(db, k) == Get(r, k) then t else s, r[k].seen.a, r[k].seen.b)
  {
    if Get(db, k) == Get(r, k) {
      assert Named(db, k, table, t, r[k].seen.a, r[k].seen.b);
    } else {
      var j :| j in RowsOf(db, table, s) && Absorbed(db, r, table, t, stamp, j, k);
      assert Named(db, j, table, s, r[k].seen.a, r[k].seen.b);
    }
  }

  lemma TargetKept(db: Db, r: Db, table: Table, t: nat, s: nat, stamp: nat, k: Key)
    requires CopiedSoFar(db, r, table, t, s, stamp, RowsOf(db, table, s)) && OwnedBy(db, k, table, t)
    ensures Named(r, k, table, t, db[k].seen.a, db[k].seen.b)
  {
    if Get(db, k) != Get(r, k) {
      var j :| j in RowsOf(db, table, s) && Absorbed(db, r, table, t, stamp, j, k);
      CombineKeepsName(db[k], db[j]);
    }
  }
}
