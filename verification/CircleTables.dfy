/** Rows of circles ("parties"): the tables a merge rewrites, as one map from key to row.

    A row holds the columns a snapshot captures (seen) and those it does not (hidden, the
    cover code of a user's circle state).  Column values that no statement of a merge reads
    are opaque numbers. */
module CircleTables {
  datatype Option<T> = None | Some(value: T)

  datatype Table =
    | Party | Alias | ExternalId | Series | SeriesWork | WorkParty | CatalogItem | MetadataSnapshot
    | UserState | TagAssignment | MergeReview | RefreshState | Subscription | ReleaseSeen | FeedItem

  /** A row is identified by its number, or by its owner and two further columns. */
  datatype Id = Number(n: nat) | Natural(owner: nat, a: nat, b: nat)

  datatype Key = Key(table: Table, id: Id)

  datatype Cells =
    | Plain(value: nat)
    | External(primary: bool, value: nat)
    | Catalog(lastSeen: nat, value: nat)
    | Personal(rating: Option<nat>, note: string, favorite: bool, lastViewed: Option<nat>, stamps: nat)
    | Follow(watch: bool, activated: Option<nat>, stamps: nat)
    | Review(merged: bool, value: nat)

  /** owner is the party, 0 for none; the owner of a series' work is the series.  a and b are
      the columns that name the row among its owner's: an alias, a provider and a title, a
      user and a series (0 for the whole circle), a work and a role... */
  datatype Seen = Seen(owner: nat, a: nat, b: nat, cells: Cells)

  datatype Row = Row(seen: Seen, hidden: string)

  type Db = map<Key, Row>

  type Snapshot = map<Key, Seen>

  predicate IsNatural(table: Table) {
    table in {SeriesWork, WorkParty, UserState, TagAssignment, RefreshState, ReleaseSeen}
  }

  /** Tables with a number of their own and a unique index over owner, a and b. */
  predicate HasUniqueIndex(table: Table) {
    table in {Alias, Series, CatalogItem, Subscription}
  }

  function PartyKey(party: nat): Key { Key(Party, Number(party)) }

  function SeriesKey(series: nat): Key { Key(Series, Number(series)) }

  function ReviewKey(review: nat): Key { Key(MergeReview, Number(review)) }

  function WorkKey(series: nat, a: nat, b: nat): Key { Key(SeriesWork, Natural(series, a, b)) }

  function Get(db: Db, k: Key): Option<Row> {
    if k in db then Some(db[k]) else None
  }

  function SeenAt(db: Db, k: Key): Option<Seen> {
    if k in db then Some(db[k].seen) else None
  }

  function Look(m: Snapshot, k: Key): Option<Seen> {
    if k in m then Some(m[k]) else None
  }

  // ----- the schema's constraints -----

  predicate KeysMatch(db: Db) {
    forall k :: k in db ==>
      && (IsNatural(k.table) <==> k.id.Natural?)
      && (k.id.Natural? ==> k.id == Natural(db[k].seen.owner, db[k].seen.a, db[k].seen.b))
      && (k.table == Party ==> k == PartyKey(db[k].seen.owner))
  }

  predicate SeriesExist(db: Db) {
    forall k :: k in db && k.table == SeriesWork ==> SeriesKey(db[k].seen.owner) in db
  }

  predicate PartiesExist(db: Db) {
    forall k :: k in db && k.table != SeriesWork && db[k].seen.owner > 0 ==> PartyKey(db[k].seen.owner) in db
  }

  predicate NamesUnique(db: Db) {
    forall j, k ::
      j in db && k in db && j.table == k.table && HasUniqueIndex(k.table) && SameName(db[j].seen, db[k].seen) ==> j == k
  }

  /** Two rows of one party with one name: what a unique index over the three columns refuses. */
  predicate SameName(x: Seen, y: Seen) {
    x.owner == y.owner > 0 && x.a == y.a && x.b == y.b
  }

  predicate Schema(db: Db) {
    KeysMatch(db) && SeriesExist(db) && PartiesExist(db) && NamesUnique(db)
  }

  lemma SchemaSeries(db: Db)
    requires Schema(db)
    ensures SeriesExist(db)
  {
  }

  // ----- capture -----

  /** Whether capture(target, source) reads the row. */
  predicate InScope(db: Db, k: Key, t: nat, s: nat)
    requires k in db
  {
    var owner := db[k].seen.owner;
    if k.table == SeriesWork then
      SeriesKey(owner) in db && (db[SeriesKey(owner)].seen.owner == t || db[SeriesKey(owner)].seen.owner == s)
    else
      owner == t || owner == s
  }

  function Capture(db: Db, t: nat, s: nat): Snapshot {
    map k | k in db && InScope(db, k, t, s) :: db[k].seen
  }

  // ----- a change that two captures see -----

  /** Every row that changed lies in scope, before if it was there, after if it is. */
  ghost predicate Local(db: Db, r: Db, t: nat, s: nat) {
    forall k :: Get(db, k) != Get(r, k) ==> (k in db ==> InScope(db, k, t, s)) && (k in r ==> InScope(r, k, t, s))
  }

  /** A row that stays as it is stays in or out of scope. */
  lemma ScopeStays(db: Db, r: Db, t: nat, s: nat, k: Key)
    requires Local(db, r, t, s) && SeriesExist(db) && SeriesExist(r)
    requires k in db && k in r && db[k] == r[k]
    ensures InScope(db, k, t, s) <==> InScope(r, k, t, s)
  {
    if k.table == SeriesWork {
      var series := SeriesKey(db[k].seen.owner);
      assert Get(db, series) == Get(r, series) || (InScope(db, series, t, s) && InScope(r, series, t, s));
    }
  }

  lemma LocalChain(db: Db, mid: Db, r: Db, t: nat, s: nat)
    requires Local(db, mid, t, s) && Local(mid, r, t, s)
    requires SeriesExist(db) && SeriesExist(mid) && SeriesExist(r)
    ensures Local(db, r, t, s)
  {
    forall k | Get(db, k) != Get(r, k)
      ensures (k in db ==> InScope(db, k, t, s)) && (k in r ==> InScope(r, k, t, s))
    {
      if Get(db, k) == Get(mid, k) {
        if k in db {
          ScopeStays(db, mid, t, s, k);
        }
      } else if Get(mid, k) == Get(r, k) {
        if k in r {
          ScopeStays(mid, r, t, s, k);
        }
      }
    }
  }

  /** Two captures around a local change differ exactly where captured columns changed, and
      show both values there. */
  lemma CaptureSeesChanges(db: Db, r: Db, t: nat, s: nat, k: Key)
    requires Local(db, r, t, s) && SeriesExist(db) && SeriesExist(r)
    ensures Look(Capture(db, t, s), k) != Look(Capture(r, t, s), k) <==> SeenAt(db, k) != SeenAt(r, k)
    ensures SeenAt(db, k) != SeenAt(r, k) ==>
      Look(Capture(db, t, s), k) == SeenAt(db, k) && Look(Capture(r, t, s), k) == SeenAt(r, k)
  {
    if Get(db, k) == Get(r, k) {
      if k in db {
        ScopeStays(db, r, t, s, k);
      }
    }
  }
}
