/** mergeRelations and mergeSeries: the source's rows move to the target, then the source goes. */
module CircleMerge {
  import opened CircleTables
  import opened CircleStatements

  /** The two circles of a merge. */
  ghost predicate Circles(db: Db, t: nat, s: nat) {
    t > 0 && s > 0 && t != s && PartyKey(t) in db && PartyKey(s) in db
  }

  // ----- UPDATE ... SET party_id -----

  /** Only the owner changed, and an external number may have stopped being primary. */
  predicate MovedRow(x: Row, y: Row, t: nat) {
    y == x.(seen := x.seen.(owner := t)) || y == MoveExternal(x, t, true)
  }

  /** The source's rows of a table are the target's now, with their names and values. */
  ghost predicate Moved(db: Db, r: Db, table: Table, t: nat, s: nat) {
    forall k: Key ::
      if OwnedBy(db, k, table, s) then k in r && MovedRow(db[k], r[k], t)
      else Get(r, k) == Get(db, k)
  }

  lemma NameMoves(db: Db, r: Db, table: Table, t: nat, s: nat, a: nat, b: nat)
    requires Moved(db, r, table, t, s) && t != s
    ensures HasName(r, table, t, a, b) <==> HasName(db, table, t, a, b) || HasName(db, table, s, a, b)
  {
    if k :| Named(r, k, table, t, a, b) {
      assert Named(db, k, table, t, a, b) || Named(db, k, table, s, a, b);
    }
    if k :| Named(db, k, table, t, a, b) {
      assert Named(r, k, table, t, a, b);
    }
    if k :| Named(db, k, table, s, a, b) {
      assert Named(r, k, table, t, a, b);
    }
  }

  lemma MovedOwned(db: Db, r: Db, table: Table, t: nat, s: nat)
    requires Moved(db, r, table, t, s) && t != s
    ensures Owned(db, r, table, t, s) && NoRows(r, table, s)
  {
  }

  lemma MovedCarries(db: Db, r: Db, table: Table, t: nat, s: nat)
    requires Moved(db, r, table, t, s) && t != s
    ensures Owned(db, r, table, t, s) && Carried(db, r, table, t, s) && NoRows(r, table, s)
  {
    hide Moved, Owned, NoRows, HasName;
    MovedOwned(db, r, table, t, s);
    forall a, b
      ensures HasName(r, table, t, a, b) <==> HasName(db, table, t, a, b) || HasName(db, table, s, a, b)
    {
      NameMoves(db, r, table, t, s, a, b);
    }
  }

  /** A repointed table, row by row. */
  lemma MovedRows(db: Db, r: Db, table: Table, t: nat, s: nat)
    requires Moved(db, r, table, t, s)
    ensures r.Keys == db.Keys
    ensures forall k :: k in db ==> if OwnedBy(db, k, table, s) then r[k].seen.owner == t else r[k] == db[k]
  {
    forall k: Key
      ensures k in r <==> k in db
    {
      assert OwnedBy(db, k, table, s) || Get(r, k) == Get(db, k);
    }
  }

  lemma MovedKeepsSchema(db: Db, r: Db, table: Table, t: nat, s: nat)
    requires Moved(db, r, table, t, s) && Schema(db) && Circles(db, t, s)
    requires !IsNatural(table) && !HasUniqueIndex(table) && table != Party
    ensures Schema(r)
  {
    hide Moved, KeysMatch, SeriesExist, PartiesExist, NamesUnique;
    MovedRows(db, r, table, t, s);
    MovedNames(db, r, table, t, s);
    MovedKeys(db, r, table, t, s);
  }

  lemma MovedKeys(db: Db, r: Db, table: Table, t: nat, s: nat)
    requires KeysMatch(db) && SeriesExist(db) && PartiesExist(db) && PartyKey(t) in db && !IsNatural(table)
      && table != Party && r.Keys == db.Keys
    requires forall k :: k in db ==> if OwnedBy(db, k, table, s) then r[k].seen.owner == t else r[k] == db[k]
    ensures KeysMatch(r) && SeriesExist(r) && PartiesExist(r)
  {
  }

  lemma MovedNames(db: Db, r: Db, table: Table, t: nat, s: nat)
    requires NamesUnique(db) && !HasUniqueIndex(table) && r.Keys == db.Keys
    requires forall k :: k in db ==> if OwnedBy(db, k, table, s) then r[k].seen.owner == t else r[k] == db[k]
    ensures NamesUnique(r)
  {
  }

  function Repoint(db: Db, table: Table, t: nat, s: nat): (r: Db)
    ensures Moved(db, r, table, t, s)
  {
    map k | k in db :: if OwnedBy(db, k, table, s) then db[k].(seen := db[k].seen.(owner := t)) else db[k]
  }

  predicate IsPrimary(db: Db, k: Key, owner: nat, a: nat) {
    OwnedBy(db, k, ExternalId, owner) && db[k].seen.a == a && db[k].seen.cells.External? && db[k].seen.cells.primary
  }

  /** A circle has at most one primary number per provider and kind of number. */
  ghost predicate OnePrimary(db: Db, owner: nat) {
    forall a, j, k :: IsPrimary(db, j, owner, a) && IsPrimary(db, k, owner, a) ==> j == k
  }

  /** Where either circle had a primary number, the target has one. */
  ghost predicate PrimariesCarried(db: Db, r: Db, t: nat, s: nat) {
    forall a :: AnyPrimary(r, t, a) <==> AnyPrimary(db, t, a) || AnyPrimary(db, s, a)
  }

  ghost predicate AnyPrimary(db: Db, owner: nat, a: nat) {
    exists k :: IsPrimary(db, k, owner, a)
  }

  method HasPrimary(db: Db, owner: nat, a: nat) returns (found: bool)
    ensures found <==> exists k :: IsPrimary(db, k, owner, a)
  {
    var left := db.Keys;
    while left != {}
      invariant left <= db.Keys
      invariant forall k :: k in db && k !in left ==> !IsPrimary(db, k, owner, a)
    {
      var k :| k in left;
      left := left - {k};
      if IsPrimary(db, k, owner, a) {
        return true;
      }
    }
    return false;
  }

  function MoveExternal(row: Row, t: nat, hasPrimary: bool): Row {
    row.(seen := row.seen.(owner := t,
      cells := if row.seen.cells.External? && hasPrimary then row.seen.cells.(primary := false) else row.seen.cells))
  }

  ghost predicate MovedSoFar(db: Db, r: Db, t: nat, s: nat, left: set<Key>) {
    forall k: Key ::
      if OwnedBy(db, k, ExternalId, s) && k !in left then k in r && MovedRow(db[k], r[k], t)
      else Get(r, k) == Get(db, k)
  }

  /** Row by row: a moved number stays primary only where the target has no primary yet. */
  method RepointExternal(db: Db, t: nat, s: nat) returns (r: Db)
    requires t != s
    ensures Moved(db, r, ExternalId, t, s)
    ensures OnePrimary(db, t) ==> OnePrimary(r, t)
    ensures PrimariesCarried(db, r, t, s)
  {
    hide OnePrimary, AnyPrimary;
    r := db;
    var left := RowsOf(db, ExternalId, s);
    while left != {}
      invariant left <= RowsOf(db, ExternalId, s) && MovedSoFar(db, r, t, s, left)
      invariant OnePrimary(db, t) ==> OnePrimary(r, t)
      invariant forall a ::
        AnyPrimary(r, t, a) || AnyPrimary(r, s, a) <==> AnyPrimary(db, t, a) || AnyPrimary(db, s, a)
    {
      var k :| k in left;
      left := left - {k};
      var found := HasPrimary(r, t, r[k].seen.a);
      PrimaryKept(r, k, t, found);
      PrimaryMoves(r, k, t, s, found);
      r := r[k := MoveExternal(r[k], t, found)];
    }
    NoPrimaryLeft(db, r, t, s);
  }

  lemma PrimaryMoves(r: Db, k: Key, t: nat, s: nat, found: bool)
    requires OwnedBy(r, k, ExternalId, s) && t != s && (found <==> exists j :: IsPrimary(r, j, t, r[k].seen.a))
    ensures var r' := r[k := MoveExternal(r[k], t, found)];
            forall a :: AnyPrimary(r', t, a) || AnyPrimary(r', s, a) <==> AnyPrimary(r, t, a) || AnyPrimary(r, s, a)
  {
    var r' := r[k := MoveExternal(r[k], t, found)];
    assert forall a, j, o :: j != k ==> (IsPrimary(r', j, o, a) <==> IsPrimary(r, j, o, a));
    forall a: nat
      ensures AnyPrimary(r', t, a) || AnyPrimary(r', s, a) <==> AnyPrimary(r, t, a) || AnyPrimary(r, s, a)
    {
      if IsPrimary(r, k, s, a) && !found {
        assert IsPrimary(r', k, t, a);
      }
      if j :| IsPrimary(r, j, t, a) {
        assert IsPrimary(r', j, t, a);
      }
    }
  }

  lemma NoPrimaryLeft(db: Db, r: Db, t: nat, s: nat)
    requires MovedSoFar(db, r, t, s, {}) && t != s
    ensures forall a :: !AnyPrimary(r, s, a)
  {
    forall a: nat, k: Key
      ensures !IsPrimary(r, k, s, a)
    {
      assert !OwnedBy(db, k, ExternalId, s) ==> Get(r, k) == Get(db, k);
    }
  }

  lemma PrimaryKept(r: Db, k: Key, t: nat, found: bool)
    requires k in r && k.table == ExternalId && r[k].seen.owner != t
    requires found <==> exists j :: IsPrimary(r, j, t, r[k].seen.a)
    ensures OnePrimary(r, t) ==> OnePrimary(r[k := MoveExternal(r[k], t, found)], t)
  {
    var r' := r[k := MoveExternal(r[k], t, found)];
    assert forall a, j :: j != k ==> (IsPrimary(r', j, t, a) <==> IsPrimary(r, j, t, a));
  }

  // ----- DELETE -----

  lemma SchemaWithout(db: Db, gone: set<Key>)
    requires Schema(db) && forall k :: k in gone ==> k.table != Party && k.table != Series
    ensures Schema(db - gone)
  {
  }

  /** Deleting rows of one table, of the two circles. */
  lemma OwnedWithout(db: Db, gone: set<Key>, table: Table, t: nat, s: nat)
    requires forall k :: k in gone ==> OwnedBy(db, k, table, t) || OwnedBy(db, k, table, s)
    ensures Owned(db, db - gone, table, t, s)
  {
  }

  // ----- the aliases -----

  ghost predicate AliasesCarried(db: Db, r: Db, t: nat, s: nat, name: nat) {
    forall a, b :: HasName(r, Alias, t, a, b) <==>
      HasName(db, Alias, t, a, b) || HasName(db, Alias, s, a, b) || (a == name && b == 0)
  }

  method MergeAliases(db: Db, t: nat, s: nat, name: nat, stamp: nat) returns (r: Db)
    requires Schema(db) && Circles(db, t, s)
    ensures Schema(r) && Owned(db, r, Alias, t, s) && AliasesCarried(db, r, t, s, name)
  {
    var mid := db;
    var found := FindName(db, Alias, t, name, 0);
    if found.None? {
      var n := NextNumber(db, Alias);
      var k, row := Key(Alias, Number(n)), Row(Seen(t, name, 0, Plain(stamp)), "");
      NotThere(db, Alias, t, name, 0, k);
      assert forall j :: !Named(db, j, Alias, t, name, 0);
      SchemaKept(db, k, row, t);
      mid := db[k := row];
      assert Named(mid, k, Alias, t, name, 0);
    } else {
      assert Named(mid, found.value, Alias, t, name, 0);
    }
    AliasAdded(db, mid, t, s, name);
    r := CopyRows(mid, Alias, t, s, stamp);
    CopyOwned(mid, r, Alias, t, s, stamp);
    CopyCarries(mid, r, Alias, t, s, stamp);
    AliasesThrough(db, mid, r, t, s, name);
  }

  lemma AliasAdded(db: Db, mid: Db, t: nat, s: nat, name: nat)
    requires t != s && HasName(mid, Alias, t, name, 0)
    requires mid == db || exists k, stamp ::
      k !in db && k.table == Alias && mid == db[k := Row(Seen(t, name, 0, Plain(stamp)), "")]
    ensures Owned(db, mid, Alias, t, s)
    ensures forall a, b :: HasName(mid, Alias, t, a, b) <==> HasName(db, Alias, t, a, b) || (a == name && b == 0)
    ensures forall a, b :: HasName(mid, Alias, s, a, b) <==> HasName(db, Alias, s, a, b)
  {
    if mid != db {
      var k, stamp :| k !in db && k.table == Alias && mid == db[k := Row(Seen(t, name, 0, Plain(stamp)), "")];
      assert forall j, o, a, b :: j != k ==> (Named(mid, j, Alias, o, a, b) <==> Named(db, j, Alias, o, a, b));
    }
  }

  lemma AliasesThrough(db: Db, mid: Db, r: Db, t: nat, s: nat, name: nat)
    requires Owned(db, mid, Alias, t, s) && Owned(mid, r, Alias, t, s) && Carried(mid, r, Alias, t, s)
    requires forall a, b :: HasName(mid, Alias, t, a, b) <==> HasName(db, Alias, t, a, b) || (a == name && b == 0)
    requires forall a, b :: HasName(mid, Alias, s, a, b) <==> HasName(db, Alias, s, a, b)
    ensures Owned(db, r, Alias, t, s) && AliasesCarried(db, r, t, s, name)
  {
    forall k: Key | Get(db, k) != Get(r, k)
      ensures k.table == Alias && (k in db ==> db[k].seen.owner == t || db[k].seen.owner == s)
        && (k in r ==> r[k].seen.owner == t || r[k].seen.owner == s)
    {
      assert Get(db, k) != Get(mid, k) || Get(mid, k) != Get(r, k);
    }
  }
}
