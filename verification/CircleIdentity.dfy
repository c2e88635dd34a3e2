/** Merge as a whole: what it carries over, what it leaves, and that captures see all of it. */
module CircleIdentity {
  import opened CircleTables
  import opened CircleStatements
  import opened CircleMerge
  import opened CircleSeries
  import opened CircleSubscriptions

  // ----- the user's state of a circle, with its uncaptured cover -----

  function StateKey(party: nat, user: nat): Key { Key(UserState, Natural(party, user, 0)) }

  /** A user's state of the target after the merge: its own, with what it lacked from the
      source's; or the source's, if it had none. */
  ghost predicate StatesMerged(db: Db, r: Db, t: nat, s: nat) {
    forall user: nat :: Get(r, StateKey(t, user)) ==
      if StateKey(s, user) !in db then Get(db, StateKey(t, user))
      else if StateKey(t, user) in db then Some(Combine(db[StateKey(t, user)], db[StateKey(s, user)]))
      else Some(Copy(UserState, db[StateKey(s, user)], t, 0))
  }

  lemma StatesCopied(db: Db, r: Db, t: nat, s: nat, stamp: nat)
    requires CopiedSoFar(db, r, UserState, t, s, stamp, RowsOf(db, UserState, s)) && Schema(db) && Schema(r) && t != s
    ensures StatesMerged(db, r, t, s)
  {
    forall user: nat
      ensures Get(r, StateKey(t, user)) ==
        if StateKey(s, user) !in db then Get(db, StateKey(t, user))
        else if StateKey(t, user) in db then Some(Combine(db[StateKey(t, user)], db[StateKey(s, user)]))
        else Some(Copy(UserState, db[StateKey(s, user)], t, 0))
    {
      var j, k := StateKey(s, user), StateKey(t, user);
      if j in db {
        assert j in RowsOf(db, UserState, s);
        var k' :| Absorbed(db, r, UserState, t, stamp, j, k');
        assert k' == k;
      }
    }
  }

  // ----- rows taken over with their values -----

  /** Each source row is part of a target row; target rows no source row meets are untouched. */
  ghost predicate CopiedContent(db: Db, r: Db, table: Table, t: nat, s: nat) {
    && (forall j :: OwnedBy(db, j, table, s) ==> exists k :: Absorbed(db, r, table, t, 0, j, k))
    && (forall k :: OwnedBy(db, k, table, t) && !HasName(db, table, s, db[k].seen.a, db[k].seen.b) ==>
         Get(r, k) == Get(db, k))
  }

  ghost predicate MovedContent(db: Db, r: Db, table: Table, t: nat, s: nat) {
    && (forall k: Key :: k.table == table && k in db ==>
          && (db[k].seen.owner == t ==> Get(r, k) == Get(db, k))
          && (db[k].seen.owner == s ==> k in r && MovedRow(db[k], r[k], t)))
    && (forall k :: OwnedBy(r, k, table, t) ==> OwnedBy(db, k, table, t) || OwnedBy(db, k, table, s))
  }

  /** The target took over a table: all names, and each row with its values.  What becomes of
      series is told by their works. */
  ghost predicate Taken(db: Db, r: Db, table: Table, t: nat, s: nat) {
    && Carried(db, r, table, t, s)
    && (if IsCopied(table) then CopiedContent(db, r, table, t, s)
         else table == Series || MovedContent(db, r, table, t, s))
  }

  lemma CopyTakes(db: Db, r: Db, table: Table, t: nat, s: nat, stamp: nat)
    requires CopiedSoFar(db, r, table, t, s, stamp, RowsOf(db, table, s)) && IsCopied(table) && table != Alias
    ensures Taken(db, r, table, t, s)
  {
    CopyCarries(db, r, table, t, s, stamp);
    hide Carried;
    forall j | OwnedBy(db, j, table, s)
      ensures exists k :: Absorbed(db, r, table, t, 0, j, k)
    {
      assert j in RowsOf(db, table, s);
      var k :| Absorbed(db, r, table, t, stamp, j, k);
      assert Absorbed(db, r, table, t, 0, j, k);
    }
    forall k | OwnedBy(db, k, table, t) && !HasName(db, table, s, db[k].seen.a, db[k].seen.b)
      ensures Get(r, k) == Get(db, k)
    {
      if Get(r, k) != Get(db, k) {
        TargetKept(db, r, table, t, s, stamp, k);
        CopiedFrom(db, r, table, t, s, stamp, k);
      }
    }
  }

  lemma MoveTakes(db: Db, r: Db, table: Table, t: nat, s: nat)
    requires Moved(db, r, table, t, s) && t != s && !IsCopied(table)
    ensures Taken(db, r, table, t, s)
  {
    MovedCarries(db, r, table, t, s);
    hide Carried;
    forall k: Key | k.table == table && k in db
      ensures db[k].seen.owner == t ==> Get(r, k) == Get(db, k)
      ensures db[k].seen.owner == s ==> k in r && MovedRow(db[k], r[k], t)
    {
      assert OwnedBy(db, k, table, s) <==> db[k].seen.owner == s;
    }
    forall k | OwnedBy(r, k, table, t)
      ensures OwnedBy(db, k, table, t) || OwnedBy(db, k, table, s)
    {
      assert !OwnedBy(db, k, table, s) ==> Get(r, k) == Get(db, k);
    }
  }

  // ----- progress through the statements -----

  /** touched: tables already rewritten; emptied: those with no row of the source left;
      carried: those whose names the target now has. */
  ghost predicate Progress(db: Db, r: Db, t: nat, s: nat, touched: set<Table>, emptied: set<Table>, carried: set<Table>)
  {
    && Schema(r) && Local(db, r, t, s)
    && (forall table {:trigger SameTable(db, r, table)} :: table !in touched ==> SameTable(db, r, table))
    && (forall table {:trigger NoRows(r, table, s)} :: table in emptied ==> NoRows(r, table, s))
    && (forall table {:trigger Taken(db, r, table, t, s)} :: table in carried ==> Taken(db, r, table, t, s))
    && emptied <= touched && carried <= touched
  }

  const FACT_TABLES: set<Table> := {Alias, UserState, Subscription, ExternalId, MergeReview, RefreshState}

  /** Reviews of the source are reviews of the target now, and otherwise as they were. */
  ghost predicate ReviewsMoved(db: Db, r: Db, t: nat, s: nat) {
    forall k: Key :: k.table == MergeReview ==> Get(r, k) == Get(Repoint(db, MergeReview, t, s), k)
  }

  lemma ReviewsFrame(db: Db, mid: Db, r: Db, t: nat, s: nat)
    requires SameTable(db, mid, MergeReview) && ReviewsMoved(mid, r, t, s)
    ensures ReviewsMoved(db, r, t, s)
  {
    forall k: Key | k.table == MergeReview
      ensures Get(Repoint(db, MergeReview, t, s), k) == Get(Repoint(mid, MergeReview, t, s), k)
    {
      assert Get(db, k) == Get(mid, k);
    }
  }

  /** What the statements on six tables achieve beyond that. */
  ghost predicate FactOf(table: Table, db: Db, r: Db, t: nat, s: nat, name: nat) {
    match table
    case Alias => AliasesCarried(db, r, t, s, name)
    case UserState => StatesMerged(db, r, t, s)
    case Subscription => SubscriptionsCarried(db, r, t, s) && CirclesStay(db, r, t) && FollowersCombined(db, r, t, s)
    case ExternalId => (OnePrimary(db, t) ==> OnePrimary(r, t)) && PrimariesCarried(db, r, t, s)
    case MergeReview => ReviewsMoved(db, r, t, s)
    case RefreshState => NoRows(r, RefreshState, t)
    case _ => true
  }

  ghost predicate Facts(db: Db, r: Db, t: nat, s: nat, name: nat, touched: set<Table>) {
    forall table {:trigger FactOf(table, db, r, t, s, name)} :: table in touched ==> FactOf(table, db, r, t, s, name)
  }

  lemma PrimariesFrame(db: Db, r: Db, owner: nat)
    requires SameTable(db, r, ExternalId)
    ensures OnePrimary(db, owner) <==> OnePrimary(r, owner)
    ensures forall a :: AnyPrimary(db, owner, a) <==> AnyPrimary(r, owner, a)
  {
    assert forall k: Key :: k.table == ExternalId ==> Get(db, k) == Get(r, k);
    forall a: nat, k
      ensures IsPrimary(r, k, owner, a) <==> IsPrimary(db, k, owner, a)
    {
    }
  }

  lemma FollowersBefore(db: Db, mid: Db, r: Db, t: nat, s: nat)
    requires SameTable(db, mid, Subscription) && FollowersCombined(mid, r, t, s)
    ensures FollowersCombined(db, r, t, s)
  {
    hide Combine;
    assert forall k: Key :: k.table == Subscription ==> Get(db, k) == Get(mid, k);
    forall j, k | OwnedBy(db, j, Subscription, s) && Named(r, k, Subscription, t, db[j].seen.a, db[j].seen.b)
      ensures Absorbed(db, r, Subscription, t, 0, j, k)
    {
      assert Get(db, j) == Get(mid, j) && Get(db, k) == Get(mid, k);
      assert Absorbed(mid, r, Subscription, t, 0, j, k);
    }
    forall k | OwnedBy(r, k, Subscription, t) && !HasName(db, Subscription, s, r[k].seen.a, r[k].seen.b)
      ensures Get(db, k) == Get(r, k)
    {
      NamesFrame(db, mid, Subscription, s, r[k].seen.a, r[k].seen.b);
    }
  }

  lemma FollowersAfter(db: Db, mid: Db, r: Db, t: nat, s: nat)
    requires FollowersCombined(db, mid, t, s)
    requires forall k: Key ::
      k.table == Subscription && ((k in mid && mid[k].seen.owner == t) || (k in r && r[k].seen.owner == t)) ==>
      Get(mid, k) == Get(r, k)
    ensures FollowersCombined(db, r, t, s)
  {
    hide Combine;
    forall j, k | OwnedBy(db, j, Subscription, s) && Named(r, k, Subscription, t, db[j].seen.a, db[j].seen.b)
      ensures Absorbed(db, r, Subscription, t, 0, j, k)
    {
      assert Absorbed(db, mid, Subscription, t, 0, j, k);
    }
  }

  /** The facts of tables not touched by a change before or after it. */
  lemma FactsBefore(db: Db, mid: Db, r: Db, t: nat, s: nat, name: nat, table: Table)
    requires SameTable(db, mid, table) && FactOf(table, mid, r, t, s, name)
    ensures FactOf(table, db, r, t, s, name)
  {
    forall owner: nat, a: nat, b: nat
      ensures HasName(mid, table, owner, a, b) <==> HasName(db, table, owner, a, b)
    {
      NamesFrame(db, mid, table, owner, a, b);
    }
    if table == UserState {
      assert forall k: Key :: k.table == UserState ==> Get(db, k) == Get(mid, k);
      assert forall user: nat ::
        Get(db, StateKey(t, user)) == Get(mid, StateKey(t, user))
        && Get(db, StateKey(s, user)) == Get(mid, StateKey(s, user));
    }
    if table == Subscription {
      assert forall k: Key :: k.table == Subscription ==> Get(db, k) == Get(mid, k);
      assert forall k :: OwnedBy(db, k, Subscription, t) <==> OwnedBy(mid, k, Subscription, t);
      FollowersBefore(db, mid, r, t, s);
    }
    if table == ExternalId {
      PrimariesFrame(db, mid, t);
      PrimariesFrame(db, mid, s);
    }
    if table == MergeReview {
      ReviewsFrame(db, mid, r, t, s);
    }
  }

  lemma FactsAfter(db: Db, mid: Db, r: Db, t: nat, s: nat, name: nat, table: Table)
    requires FactOf(table, db, mid, t, s, name) && SameTable(mid, r, table)
    ensures FactOf(table, db, r, t, s, name)
  {
    forall owner: nat, a: nat, b: nat
      ensures HasName(mid, table, owner, a, b) <==> HasName(r, table, owner, a, b)
    {
      NamesFrame(mid, r, table, owner, a, b);
    }
    assert forall k: Key :: k.table == table ==> Get(mid, k) == Get(r, k);
    if table == UserState {
      assert forall user: nat :: Get(mid, StateKey(t, user)) == Get(r, StateKey(t, user));
    }
    if table == Subscription {
      assert forall k :: OwnedBy(db, k, Subscription, t) ==> Get(mid, k) == Get(r, k);
      TargetSame(mid, r, Subscription, t);
      FollowersAfter(db, mid, r, t, s);
    }
    if table == ExternalId {
      PrimariesFrame(mid, r, t);
    }
    if table == RefreshState {
      EmptyAfter(mid, r, RefreshState, t);
    }
  }

  lemma FactsOn(db: Db, mid: Db, r: Db, t: nat, s: nat, name: nat, touched: set<Table>, table: Table)
    requires Facts(db, mid, t, s, name, touched) && FactOf(table, mid, r, t, s, name)
    requires table !in touched && SameTable(db, mid, table)
    requires forall other :: other != table ==> SameTable(mid, r, other)
    ensures Facts(db, r, t, s, name, touched + {table})
  {
    hide FactOf, SameTable;
    FactsBefore(db, mid, r, t, s, name, table);
    forall other | other in touched
      ensures FactOf(other, db, r, t, s, name)
    {
      FactsAfter(db, mid, r, t, s, name, other);
    }
  }

  lemma NamesFrame(db: Db, r: Db, table: Table, owner: nat, a: nat, b: nat)
    requires SameTable(db, r, table)
    ensures HasName(r, table, owner, a, b) <==> HasName(db, table, owner, a, b)
  {
    assert forall k: Key :: k.table == table ==> Get(db, k) == Get(r, k);
    if k :| Named(r, k, table, owner, a, b) {
      assert Named(db, k, table, owner, a, b);
    }
    if k :| Named(db, k, table, owner, a, b) {
      assert Named(r, k, table, owner, a, b);
    }
  }

  lemma CarriedBefore(db: Db, mid: Db, r: Db, table: Table, t: nat, s: nat)
    requires SameTable(db, mid, table) && Carried(mid, r, table, t, s)
    ensures Carried(db, r, table, t, s)
  {
    forall a: nat, b: nat
      ensures HasName(r, table, t, a, b) <==> HasName(db, table, t, a, b) || HasName(db, table, s, a, b)
    {
      NamesFrame(db, mid, table, t, a, b);
      NamesFrame(db, mid, table, s, a, b);
    }
  }

  lemma CopiedBefore(db: Db, mid: Db, r: Db, table: Table, t: nat, s: nat)
    requires SameTable(db, mid, table) && CopiedContent(mid, r, table, t, s)
    ensures CopiedContent(db, r, table, t, s)
  {
    hide HasName, Combine;
    assert forall k: Key :: k.table == table ==> Get(db, k) == Get(mid, k);
    forall j | OwnedBy(db, j, table, s)
      ensures exists k :: Absorbed(db, r, table, t, 0, j, k)
    {
      assert Get(db, j) == Get(mid, j) && OwnedBy(mid, j, table, s);
      var k :| Absorbed(mid, r, table, t, 0, j, k);
      assert Get(db, k) == Get(mid, k);
      assert Absorbed(db, r, table, t, 0, j, k);
    }
    forall k | OwnedBy(db, k, table, t) && !HasName(db, table, s, db[k].seen.a, db[k].seen.b)
      ensures Get(r, k) == Get(db, k)
    {
      NamesFrame(db, mid, table, s, db[k].seen.a, db[k].seen.b);
    }
  }

  lemma MovedBefore(db: Db, mid: Db, r: Db, table: Table, t: nat, s: nat)
    requires SameTable(db, mid, table) && MovedContent(mid, r, table, t, s)
    ensures MovedContent(db, r, table, t, s)
  {
    hide MovedRow;
    assert forall k: Key :: k.table == table ==> Get(db, k) == Get(mid, k);
  }

  lemma TakenBefore(db: Db, mid: Db, r: Db, table: Table, t: nat, s: nat)
    requires SameTable(db, mid, table) && Taken(mid, r, table, t, s)
    ensures Taken(db, r, table, t, s)
  {
    hide Carried, CopiedContent, MovedContent, SameTable;
    CarriedBefore(db, mid, r, table, t, s);
    if IsCopied(table) {
      CopiedBefore(db, mid, r, table, t, s);
    } else if table != Series {
      MovedBefore(db, mid, r, table, t, s);
    }
  }

  /** The target's rows of the table are the same in both. */
  ghost predicate SameTarget(mid: Db, r: Db, table: Table, t: nat) {
    forall k: Key :: k.table == table && ((k in mid && mid[k].seen.owner == t) || (k in r && r[k].seen.owner == t)) ==>
      Get(mid, k) == Get(r, k)
  }

  lemma CarriedAfter(db: Db, mid: Db, r: Db, table: Table, t: nat, s: nat)
    requires Carried(db, mid, table, t, s) && SameTarget(mid, r, table, t)
    ensures Carried(db, r, table, t, s)
  {
    hide HasName;
    forall a: nat, b: nat
      ensures HasName(r, table, t, a, b) <==> HasName(mid, table, t, a, b)
    {
      TargetNames(mid, r, table, t, a, b);
    }
  }

  lemma CopiedAfter(db: Db, mid: Db, r: Db, table: Table, t: nat, s: nat)
    requires CopiedContent(db, mid, table, t, s) && SameTarget(mid, r, table, t)
    ensures CopiedContent(db, r, table, t, s)
  {
    hide HasName, Combine;
    forall j | OwnedBy(db, j, table, s)
      ensures exists k :: Absorbed(db, r, table, t, 0, j, k)
    {
      var k :| Absorbed(db, mid, table, t, 0, j, k);
      assert Absorbed(db, r, table, t, 0, j, k);
    }
  }

  lemma MovedAfter(db: Db, mid: Db, r: Db, table: Table, t: nat, s: nat)
    requires MovedContent(db, mid, table, t, s) && SameTarget(mid, r, table, t)
    ensures MovedContent(db, r, table, t, s)
  {
  }

  lemma TakenAfter(db: Db, mid: Db, r: Db, table: Table, t: nat, s: nat)
    requires Taken(db, mid, table, t, s) && t != s
    requires SameTarget(mid, r, table, t)
    ensures Taken(db, r, table, t, s)
  {
    hide Carried, CopiedContent, MovedContent, SameTarget;
    CarriedAfter(db, mid, r, table, t, s);
    if IsCopied(table) {
      CopiedAfter(db, mid, r, table, t, s);
    } else if table != Series {
      MovedAfter(db, mid, r, table, t, s);
    }
  }

  lemma TargetNames(mid: Db, r: Db, table: Table, t: nat, a: nat, b: nat)
    requires forall k: Key ::
      k.table == table && ((k in mid && mid[k].seen.owner == t) || (k in r && r[k].seen.owner == t)) ==>
      Get(mid, k) == Get(r, k)
    ensures HasName(r, table, t, a, b) <==> HasName(mid, table, t, a, b)
  {
    if k :| Named(r, k, table, t, a, b) {
      assert Named(mid, k, table, t, a, b);
    }
    if k :| Named(mid, k, table, t, a, b) {
      assert Named(r, k, table, t, a, b);
    }
  }

  lemma EmptyAfter(mid: Db, r: Db, table: Table, s: nat)
    requires NoRows(mid, table, s) && SameTable(mid, r, table)
    ensures NoRows(r, table, s)
  {
    forall k: Key
      ensures !OwnedBy(r, k, table, s)
    {
      assert !OwnedBy(mid, k, table, s);
      assert k.table == table ==> Get(mid, k) == Get(r, k);
    }
  }

  lemma OwnedIsLocal(db: Db, r: Db, table: Table, t: nat, s: nat)
    requires Owned(db, r, table, t, s) && table != SeriesWork
    ensures Local(db, r, t, s)
    ensures forall other :: other != table ==> SameTable(db, r, other)
  {
  }

  /** One more statement, on a table of its own. */
  lemma OneMore(db: Db, mid: Db, r: Db, t: nat, s: nat, touched: set<Table>, emptied: set<Table>, carried: set<Table>,
      table: Table)
    requires Schema(db) && Progress(db, mid, t, s, touched, emptied, carried)
    requires Schema(r) && Owned(mid, r, table, t, s) && t != s && table !in touched
      && table !in {SeriesWork, Series, Party}
    ensures Progress(db, r, t, s, touched + {table}, emptied, carried)
    ensures NoRows(r, table, s) ==> Progress(db, r, t, s, touched + {table}, emptied + {table}, carried)
    ensures Taken(mid, r, table, t, s) ==> Progress(db, r, t, s, touched + {table}, emptied, carried + {table})
    ensures NoRows(r, table, s) && Taken(mid, r, table, t, s) ==>
      Progress(db, r, t, s, touched + {table}, emptied + {table}, carried + {table})
  {
    hide Taken, Owned, Local, Carried, SameTable, NoRows;
    SchemaSeries(db);
    SchemaSeries(mid);
    SchemaSeries(r);
    hide Schema;
    OwnedIsLocal(mid, r, table, t, s);
    LocalChain(db, mid, r, t, s);
    forall other | other !in touched && other != table
      ensures SameTable(db, r, other)
    {
      SameChain(db, mid, r, other);
    }
    forall other | other in carried
      ensures Taken(db, r, other, t, s)
    {
      TargetSame(mid, r, other, t);
      TakenAfter(db, mid, r, other, t, s);
    }
    forall other | other in emptied
      ensures NoRows(r, other, s)
    {
      EmptyAfter(mid, r, other, s);
    }
    if Taken(mid, r, table, t, s) {
      TakenBefore(db, mid, r, table, t, s);
    }
  }

  // ----- DELETE FROM party, with what refers to it -----

  /** Snapshots and feed items would lose their party instead; a merge leaves none. */
  function WithoutParty(db: Db, s: nat): Db {
    db - set k | k in db && k.table != SeriesWork && db[k].seen.owner == s
  }

  // ----- retention -----

  /** When a snapshot was fetched. */
  function Fetched(x: Seen): nat {
    if x.cells.Plain? then x.cells.value else 0
  }

  predicate IsNewer(db: Db, j: Key, k: Key, t: nat) {
    && OwnedBy(db, j, MetadataSnapshot, t) && OwnedBy(db, k, MetadataSnapshot, t) && db[j].seen.a == db[k].seen.a
    && j.id.Number? && k.id.Number?
    && (Fetched(db[j].seen) > Fetched(db[k].seen) || (Fetched(db[j].seen) == Fetched(db[k].seen) && j.id.n > k.id.n))
  }

  /** All but the two newest snapshots of each provider. */
  function Outdated(db: Db, t: nat): set<Key> {
    set k | k in db && OwnedBy(db, k, MetadataSnapshot, t) && |set j | j in db && IsNewer(db, j, k, t)| >= 2
  }

  /** The snapshots of either circle that one provider gave later than snapshot k: fetched
      later, or at the same time under a higher number. */
  function LaterSnapshots(db: Db, k: Key, t: nat, s: nat): set<Key>
    requires k in db
  {
    set j | j in db && j.table == MetadataSnapshot && db[j].seen.owner in {t, s} && db[j].seen.a == db[k].seen.a
      && j.id.Number? && k.id.Number?
      && var (x, y) := (Fetched(db[j].seen), Fetched(db[k].seen)); x >= y && (x == y ==> j.id.n > k.id.n)
  }

  predicate IsSnapshot(db: Db, k: Key, t: nat, s: nat) {
    k in db && k.table == MetadataSnapshot && db[k].seen.owner in {t, s}
  }

  /** The target has the two newest snapshots of each provider that either circle had, and no other. */
  ghost predicate SnapshotsRetained(db: Db, r: Db, t: nat, s: nat) {
    && (forall k :: IsSnapshot(db, k, t, s) ==>
          && (k in r <==> |LaterSnapshots(db, k, t, s)| < 2)
          && (k in r ==> MovedRow(db[k], r[k], t)))
    && (forall k :: OwnedBy(r, k, MetadataSnapshot, t) ==> IsSnapshot(db, k, t, s))
  }

  lemma LaterIsNewer(db: Db, mid: Db, k: Key, t: nat, s: nat)
    requires MovedContent(db, mid, MetadataSnapshot, t, s) && t != s && IsSnapshot(db, k, t, s)
    ensures var left := WithoutParty(mid, s);
            LaterSnapshots(db, k, t, s) == set j | j in left && IsNewer(left, j, k, t)
  {
    var left := WithoutParty(mid, s);
    SnapshotMoved(db, mid, k, t, s);
    forall j: Key
      ensures j in LaterSnapshots(db, k, t, s) <==> IsNewer(left, j, k, t)
    {
      SnapshotMoved(db, mid, j, t, s);
    }
  }

  /** A snapshot of either circle is the target's, with its provider and time, and there is no other. */
  lemma SnapshotMoved(db: Db, mid: Db, j: Key, t: nat, s: nat)
    requires MovedContent(db, mid, MetadataSnapshot, t, s) && t != s
    ensures var left := WithoutParty(mid, s);
            && (IsSnapshot(db, j, t, s) <==> OwnedBy(left, j, MetadataSnapshot, t))
            && (IsSnapshot(db, j, t, s) ==>
                  && left[j].seen.a == db[j].seen.a && Fetched(left[j].seen) == Fetched(db[j].seen)
                  && MovedRow(db[j], left[j], t))
  {
    assert OwnedBy(mid, j, MetadataSnapshot, t) ==> IsSnapshot(db, j, t, s);
    assert IsSnapshot(db, j, t, s) && db[j].seen.owner == t ==> Get(mid, j) == Get(db, j);
  }

  lemma RetainedSnapshots(db: Db, mid: Db, r: Db, t: nat, s: nat)
    requires Taken(db, mid, MetadataSnapshot, t, s) && t != s
    requires r == WithoutParty(mid, s) - Outdated(WithoutParty(mid, s), t)
    ensures SnapshotsRetained(db, r, t, s)
  {
    hide IsNewer, LaterSnapshots;
    forall k | IsSnapshot(db, k, t, s)
      ensures k in r <==> |LaterSnapshots(db, k, t, s)| < 2
      ensures k in r ==> MovedRow(db[k], r[k], t)
    {
      LaterIsNewer(db, mid, k, t, s);
      SnapshotMoved(db, mid, k, t, s);
    }
    forall k | OwnedBy(r, k, MetadataSnapshot, t)
      ensures IsSnapshot(db, k, t, s)
    {
      SnapshotMoved(db, mid, k, t, s);
    }
  }

  // ----- the merge -----

  lemma Untouched(db: Db, r: Db, t: nat, s: nat, touched: set<Table>, emptied: set<Table>, carried: set<Table>,
      table: Table)
    requires Progress(db, r, t, s, touched, emptied, carried) && table !in touched
    ensures SameTable(db, r, table) && Schema(r)
  {
  }

  lemma CirclesStill(db: Db, r: Db, t: nat, s: nat)
    requires Circles(db, t, s) && SameTable(db, r, Party)
    ensures Circles(r, t, s)
  {
    assert Get(db, PartyKey(t)) == Get(r, PartyKey(t)) && Get(db, PartyKey(s)) == Get(r, PartyKey(s));
  }

  method CopyStep(ghost db: Db, mid: Db, t: nat, s: nat, name: nat, stamp: nat, table: Table, ghost touched: set<Table>,
      ghost emptied: set<Table>, ghost carried: set<Table>)
    returns (r: Db)
    requires Schema(db) && Circles(db, t, s) && Progress(db, mid, t, s, touched, emptied, carried)
      && Facts(db, mid, t, s, name, touched)
    requires IsCopied(table) && table !in {Alias, Subscription} && table !in touched && Party !in touched
    ensures Progress(db, r, t, s, touched + {table}, emptied, carried + {table})
      && Facts(db, r, t, s, name, touched + {table})
  {
    hide Progress;
    hide Schema, Local, SameTable, NoRows, Carried, Taken, Owned, CopiedSoFar, StatesMerged, AliasesCarried,
      SubscriptionsCarried, CirclesStay, FollowersCombined, Moved, OnePrimary, ReviewsMoved;
    Untouched(db, mid, t, s, touched, emptied, carried, Party);
    Untouched(db, mid, t, s, touched, emptied, carried, table);
    CirclesStill(db, mid, t, s);
    r := CopyRows(mid, table, t, s, stamp);
    CopyOwned(mid, r, table, t, s, stamp);
    CopyTakes(mid, r, table, t, s, stamp);
    if table == UserState {
      StatesCopied(mid, r, t, s, stamp);
    }
    OwnedIsLocal(mid, r, table, t, s);
    FactsOn(db, mid, r, t, s, name, touched, table);
    OneMore(db, mid, r, t, s, touched, emptied, carried, table);
  }

  lemma MovedStep(db: Db, mid: Db, r: Db, t: nat, s: nat, name: nat, table: Table, touched: set<Table>,
      emptied: set<Table>, carried: set<Table>)
    requires Schema(db) && Circles(db, t, s) && Progress(db, mid, t, s, touched, emptied, carried)
      && Facts(db, mid, t, s, name, touched)
    requires (IsRepointed(table) || table == ExternalId) && table !in touched && Party !in touched
      && Moved(mid, r, table, t, s)
    requires table == ExternalId ==> (OnePrimary(mid, t) ==> OnePrimary(r, t)) && PrimariesCarried(mid, r, t, s)
    requires table == MergeReview ==> ReviewsMoved(mid, r, t, s)
    ensures Progress(db, r, t, s, touched + {table}, emptied + {table}, carried + {table})
      && Facts(db, r, t, s, name, touched + {table})
  {
    hide Progress;
    hide Schema, Local, SameTable, NoRows, Carried, Taken, Owned, CopiedSoFar, StatesMerged, AliasesCarried,
      SubscriptionsCarried, CirclesStay, FollowersCombined, Moved, OnePrimary, ReviewsMoved;
    Untouched(db, mid, t, s, touched, emptied, carried, Party);
    Untouched(db, mid, t, s, touched, emptied, carried, table);
    CirclesStill(db, mid, t, s);
    MovedCarries(mid, r, table, t, s);
    MoveTakes(mid, r, table, t, s);
    MovedKeepsSchema(mid, r, table, t, s);
    OwnedIsLocal(mid, r, table, t, s);
    FactsOn(db, mid, r, t, s, name, touched, table);
    OneMore(db, mid, r, t, s, touched, emptied, carried, table);
  }

  lemma RowsGone(mid: Db, gone: set<Key>, table: Table, s: nat)
    requires RowsOf(mid, table, s) <= gone
    ensures NoRows(mid - gone, table, s)
  {
    forall k: Key
      ensures !OwnedBy(mid - gone, k, table, s)
    {
      assert OwnedBy(mid, k, table, s) ==> k in RowsOf(mid, table, s);
    }
  }

  /** DELETE of rows of the two circles, in a table no fact is about. */
  method DeleteStep(ghost db: Db, mid: Db, t: nat, s: nat, ghost name: nat, table: Table, gone: set<Key>,
      ghost touched: set<Table>, ghost emptied: set<Table>, ghost carried: set<Table>)
    returns (r: Db)
    requires Schema(db) && Circles(db, t, s) && Progress(db, mid, t, s, touched, emptied, carried)
      && Facts(db, mid, t, s, name, touched)
    requires table == RefreshState && table !in touched
    requires gone == RowsOf(mid, table, t) + RowsOf(mid, table, s)
    ensures Progress(db, r, t, s, touched + {table}, emptied + {table}, carried)
      && Facts(db, r, t, s, name, touched + {table})
  {
    hide Progress;
    hide Schema, Local, SameTable, NoRows, Carried, Taken, Owned, CopiedSoFar, StatesMerged, AliasesCarried,
      SubscriptionsCarried, CirclesStay, FollowersCombined, Moved, OnePrimary, ReviewsMoved;
    Untouched(db, mid, t, s, touched, emptied, carried, table);
    r := mid - gone;
    SchemaWithout(mid, gone);
    OwnedWithout(mid, gone, table, t, s);
    RowsGone(mid, gone, table, s);
    RowsGone(mid, gone, table, t);
    OwnedIsLocal(mid, r, table, t, s);
    FactsOn(db, mid, r, t, s, name, touched, table);
    OneMore(db, mid, r, t, s, touched, emptied, carried, table);
  }

  /** INSERT OR IGNORE of the source's rows, then their deletion. */
  method MergeSeen(db: Db, t: nat, s: nat, stamp: nat) returns (r: Db)
    requires Schema(db) && Circles(db, t, s)
    ensures Schema(r) && Owned(db, r, ReleaseSeen, t, s) && Taken(db, r, ReleaseSeen, t, s) && NoRows(r, ReleaseSeen, s)
  {
    hide Schema, Owned, Taken, NoRows, CopiedSoFar;
    var copied := CopyRows(db, ReleaseSeen, t, s, stamp);
    CopyOwned(db, copied, ReleaseSeen, t, s, stamp);
    CopyTakes(db, copied, ReleaseSeen, t, s, stamp);
    r := copied - RowsOf(copied, ReleaseSeen, s);
    SchemaWithout(copied, RowsOf(copied, ReleaseSeen, s));
    SourceRowsGo(db, copied, r, ReleaseSeen, t, s);
    TakenAfter(db, copied, r, ReleaseSeen, t, s);
  }

  lemma SourceRowsGo(db: Db, copied: Db, r: Db, table: Table, t: nat, s: nat)
    requires Owned(db, copied, table, t, s) && r == copied - RowsOf(copied, table, s) && t != s
    ensures Owned(db, r, table, t, s) && NoRows(r, table, s) && SameTarget(copied, r, table, t)
  {
    forall k: Key | Get(db, k) != Get(r, k)
      ensures k.table == table && (k in db ==> db[k].seen.owner == t || db[k].seen.owner == s)
        && (k in r ==> r[k].seen.owner == t || r[k].seen.owner == s)
    {
      assert Get(db, k) != Get(copied, k) || Get(copied, k) != Get(r, k);
    }
    forall k: Key
      ensures !OwnedBy(r, k, table, s)
    {
      assert OwnedBy(copied, k, table, s) ==> k in RowsOf(copied, table, s);
    }
  }

  method SeenStep(ghost db: Db, mid: Db, t: nat, s: nat, ghost name: nat, stamp: nat, ghost touched: set<Table>,
      ghost emptied: set<Table>, ghost carried: set<Table>)
    returns (r: Db)
    requires Schema(db) && Circles(db, t, s) && Progress(db, mid, t, s, touched, emptied, carried)
      && Facts(db, mid, t, s, name, touched)
    requires ReleaseSeen !in touched && Party !in touched
    ensures Progress(db, r, t, s, touched + {ReleaseSeen}, emptied + {ReleaseSeen}, carried + {ReleaseSeen})
      && Facts(db, r, t, s, name, touched + {ReleaseSeen})
  {
    hide Progress;
    hide Schema, Local, SameTable, NoRows, Carried, Taken, Owned, CopiedSoFar, StatesMerged, AliasesCarried,
      SubscriptionsCarried, CirclesStay, FollowersCombined, Moved, OnePrimary, ReviewsMoved;
    Untouched(db, mid, t, s, touched, emptied, carried, Party);
    Untouched(db, mid, t, s, touched, emptied, carried, ReleaseSeen);
    CirclesStill(db, mid, t, s);
    r := MergeSeen(mid, t, s, stamp);
    OwnedIsLocal(mid, r, ReleaseSeen, t, s);
    FactsOn(db, mid, r, t, s, name, touched, ReleaseSeen);
    OneMore(db, mid, r, t, s, touched, emptied, carried, ReleaseSeen);
  }

  method SubscriptionStep(ghost db: Db, mid: Db, t: nat, s: nat, ghost name: nat, stamp: nat, ghost touched: set<Table>,
      ghost emptied: set<Table>, ghost carried: set<Table>)
    returns (r: Db)
    requires Schema(db) && Circles(db, t, s) && Progress(db, mid, t, s, touched, emptied, carried)
      && Facts(db, mid, t, s, name, touched)
    requires Subscription !in touched && Party !in touched
    ensures Progress(db, r, t, s, touched + {Subscription}, emptied + {Subscription}, carried)
      && Facts(db, r, t, s, name, touched + {Subscription})
  {
    hide Progress;
    hide Schema, Local, SameTable, NoRows, Carried, Taken, Owned, CopiedSoFar, StatesMerged, AliasesCarried,
      SubscriptionsCarried, CirclesStay, FollowersCombined, Moved, OnePrimary, ReviewsMoved;
    Untouched(db, mid, t, s, touched, emptied, carried, Party);
    Untouched(db, mid, t, s, touched, emptied, carried, Subscription);
    CirclesStill(db, mid, t, s);
    r := MergeSubscriptions(mid, t, s, stamp);
    OwnedIsLocal(mid, r, Subscription, t, s);
    FactsOn(db, mid, r, t, s, name, touched, Subscription);
    OneMore(db, mid, r, t, s, touched, emptied, carried, Subscription);
  }

  method RepointStep(ghost db: Db, mid: Db, t: nat, s: nat, ghost name: nat, table: Table, ghost touched: set<Table>,
      ghost emptied: set<Table>, ghost carried: set<Table>)
    returns (r: Db)
    requires Schema(db) && Circles(db, t, s) && Progress(db, mid, t, s, touched, emptied, carried)
      && Facts(db, mid, t, s, name, touched)
    requires (IsRepointed(table) || table == ExternalId) && table !in touched && Party !in touched
    ensures Progress(db, r, t, s, touched + {table}, emptied + {table}, carried + {table})
      && Facts(db, r, t, s, name, touched + {table})
  {
    if table == ExternalId {
      r := RepointExternal(mid, t, s);
    } else {
      r := Repoint(mid, table, t, s);
    }
    MovedStep(db, mid, r, t, s, name, table, touched, emptied, carried);
  }

  lemma NoProgress(db: Db, t: nat, s: nat, name: nat)
    requires Schema(db)
    ensures Progress(db, db, t, s, {}, {}, {}) && Facts(db, db, t, s, name, {})
    ensures forall table :: SameTable(db, db, table)
  {
  }

  /** The first four statements, then the rest up to the reviews. */
  method MergeNames(db: Db, t: nat, s: nat, name: nat, stamp: nat) returns (r: Db)
    requires Schema(db) && Circles(db, t, s)
    ensures var touched := {Alias, ExternalId, WorkParty};
            Progress(db, r, t, s, touched, {ExternalId}, {ExternalId, WorkParty}) && Facts(db, r, t, s, name, touched)
  {
    hide Facts;
    hide Schema, Local, SameTable, NoRows, Carried, Taken, Owned, CopiedSoFar, StatesMerged, AliasesCarried,
      SubscriptionsCarried, CirclesStay, FollowersCombined, Moved, OnePrimary, ReviewsMoved;
    r := MergeAliases(db, t, s, name, stamp);
    OwnedIsLocal(db, r, Alias, t, s);
    NoProgress(db, t, s, name);
    OneMore(db, db, r, t, s, {}, {}, {}, Alias);
    assert FactOf(Alias, db, r, t, s, name);
    FactsOn(db, db, r, t, s, name, {}, Alias);
    assert {} + {Alias} == {Alias};
    r := RepointStep(db, r, t, s, name, ExternalId, {Alias}, {}, {});
    assert {Alias} + {ExternalId} == {Alias, ExternalId} && {} + {ExternalId} == {ExternalId};
    r := CopyStep(db, r, t, s, name, stamp, WorkParty, {Alias, ExternalId}, {ExternalId}, {ExternalId});
    assert {Alias, ExternalId} + {WorkParty} == {Alias, ExternalId, WorkParty}
      && {ExternalId} + {WorkParty} == {ExternalId, WorkParty};
  }

  method MergeFacts(db: Db, t: nat, s: nat, name: nat, stamp: nat) returns (r: Db)
    requires Schema(db) && Circles(db, t, s)
    ensures var touched := {Alias, ExternalId, WorkParty, UserState, TagAssignment, CatalogItem, MetadataSnapshot,
                            RefreshState, MergeReview};
            && Progress(db, r, t, s, touched, {ExternalId, MetadataSnapshot, RefreshState, MergeReview},
                        touched - {Alias, RefreshState})
            && Facts(db, r, t, s, name, touched)
  {
    hide Progress, Facts, Schema, Circles;
    ghost var touched, emptied, carried := {Alias, ExternalId, WorkParty}, {ExternalId}, {ExternalId, WorkParty};
    r := MergeNames(db, t, s, name, stamp);
    r := CopyStep(db, r, t, s, name, stamp, UserState, touched, emptied, carried);
    touched, carried := touched + {UserState}, carried + {UserState};
    r := CopyStep(db, r, t, s, name, stamp, TagAssignment, touched, emptied, carried);
    touched, carried := touched + {TagAssignment}, carried + {TagAssignment};
    r := CopyStep(db, r, t, s, name, stamp, CatalogItem, touched, emptied, carried);
    touched, carried := touched + {CatalogItem}, carried + {CatalogItem};
    r := RepointStep(db, r, t, s, name, MetadataSnapshot, touched, emptied, carried);
    touched, emptied, carried := touched + {MetadataSnapshot}, emptied + {MetadataSnapshot},
      carried + {MetadataSnapshot};
    r := DeleteStep(db, r, t, s, name, RefreshState, RowsOf(r, RefreshState, t) + RowsOf(r, RefreshState, s), touched,
      emptied, carried);
    touched, emptied := touched + {RefreshState}, emptied + {RefreshState};
    r := RepointStep(db, r, t, s, name, MergeReview, touched, emptied, carried);
    touched, emptied, carried := touched + {MergeReview}, emptied + {MergeReview}, carried + {MergeReview};
    assert touched == {Alias, ExternalId, WorkParty, UserState, TagAssignment, CatalogItem, MetadataSnapshot,
      RefreshState, MergeReview};
    assert emptied == {ExternalId, MetadataSnapshot, RefreshState, MergeReview};
    assert carried == touched - {Alias, RefreshState};
  }

  /** Subscriptions, seen releases and feed items follow. */
  method MergeFollowers(db: Db, t: nat, s: nat, name: nat, stamp: nat) returns (r: Db)
    requires Schema(db) && Circles(db, t, s)
    ensures Progress(db, r, t, s, TOUCHED, EMPTIED, CARRIED) && Facts(db, r, t, s, name, TOUCHED)
  {
    hide Progress, Facts, Schema, Circles;
    ghost var touched: set<Table> := {Alias, ExternalId, WorkParty, UserState, TagAssignment, CatalogItem,
                                      MetadataSnapshot, RefreshState, MergeReview};
    ghost var emptied: set<Table> := {ExternalId, MetadataSnapshot, RefreshState, MergeReview};
    ghost var carried: set<Table> := touched - {Alias, RefreshState};
    r := MergeFacts(db, t, s, name, stamp);
    r := SubscriptionStep(db, r, t, s, name, stamp, touched, emptied, carried);
    touched, emptied := touched + {Subscription}, emptied + {Subscription};
    r := SeenStep(db, r, t, s, name, stamp, touched, emptied, carried);
    touched, emptied, carried := touched + {ReleaseSeen}, emptied + {ReleaseSeen}, carried + {ReleaseSeen};
    r := RepointStep(db, r, t, s, name, FeedItem, touched, emptied, carried);
    assert touched + {FeedItem} == TOUCHED && emptied + {FeedItem} == EMPTIED && carried + {FeedItem} == CARRIED;
  }

  const TOUCHED: set<Table> := {Alias, ExternalId, WorkParty, UserState, TagAssignment, CatalogItem, MetadataSnapshot,
      RefreshState, MergeReview, Subscription, ReleaseSeen, FeedItem}
  const EMPTIED: set<Table> := {ExternalId, MetadataSnapshot, RefreshState, MergeReview, Subscription, ReleaseSeen,
      FeedItem}
  const CARRIED: set<Table> := {ExternalId, WorkParty, UserState, TagAssignment, CatalogItem, MetadataSnapshot,
      MergeReview, ReleaseSeen, FeedItem}

  lemma SameChain(db: Db, mid: Db, r: Db, table: Table)
    requires SameTable(db, mid, table) && SameTable(mid, r, table)
    ensures SameTable(db, r, table)
  {
    assert forall k: Key :: k.table == table ==> Get(db, k) == Get(mid, k) == Get(r, k);
  }

  lemma SeriesLocal(mid: Db, r: Db, t: nat, s: nat)
    requires SeriesSoFar(mid, r, t, s, RowsOf(mid, Series, s))
    ensures Local(mid, r, t, s) && Schema(r) && WorksStay(mid, r)
    ensures forall other :: other != Series && other != SeriesWork ==> SameTable(mid, r, other)
  {
  }

  lemma TargetSame(mid: Db, r: Db, table: Table, t: nat)
    requires SameTable(mid, r, table)
    ensures forall k: Key ::
      k.table == table && ((k in mid && mid[k].seen.owner == t) || (k in r && r[k].seen.owner == t)) ==>
      Get(mid, k) == Get(r, k)
  {
  }

  lemma TitlesTaken(db: Db, mid: Db, r: Db, t: nat, s: nat)
    requires SameTable(db, mid, Series) && Carried(mid, r, Series, t, s)
    ensures Taken(db, r, Series, t, s)
  {
    CarriedBefore(db, mid, r, Series, t, s);
  }

  /** After the series: both series tables are rewritten, too. */
  lemma SeriesProgress(db: Db, mid: Db, r: Db, t: nat, s: nat, name: nat)
    requires Schema(db) && t != s && Progress(db, mid, t, s, TOUCHED, EMPTIED, CARRIED)
      && Facts(db, mid, t, s, name, TOUCHED)
    requires SeriesSoFar(mid, r, t, s, RowsOf(mid, Series, s)) && AllFollow(mid, r, t, RowsOf(mid, Series, s))
    ensures Progress(db, r, t, s, TOUCHED + {Series, SeriesWork}, EMPTIED + {Series}, CARRIED + {Series})
  {
    hide Facts, Schema, AllFollow, SeriesSoFar, Local, SameTable, Carried, NoRows, Taken;
    SeriesLocal(mid, r, t, s);
    SchemaSeries(db);
    SchemaSeries(mid);
    SchemaSeries(r);
    LocalChain(db, mid, r, t, s);
    forall table | table !in TOUCHED + {Series, SeriesWork}
      ensures SameTable(db, r, table)
    {
      SameChain(db, mid, r, table);
    }
    forall table | table in CARRIED
      ensures Taken(db, r, table, t, s)
    {
      TargetSame(mid, r, table, t);
      TakenAfter(db, mid, r, table, t, s);
    }
    forall table | table in EMPTIED
      ensures NoRows(r, table, s)
    {
      EmptyAfter(mid, r, table, s);
    }
    TitlesCarried(mid, r, t, s);
    TitlesTaken(db, mid, r, t, s);
    NoneLeft(mid, r, t, s);
  }

  lemma SeriesFacts(db: Db, mid: Db, r: Db, t: nat, s: nat, name: nat)
    requires Schema(db) && Progress(db, mid, t, s, TOUCHED, EMPTIED, CARRIED) && Facts(db, mid, t, s, name, TOUCHED)
    requires SeriesSoFar(mid, r, t, s, RowsOf(mid, Series, s)) && AllFollow(mid, r, t, RowsOf(mid, Series, s))
    ensures Facts(db, r, t, s, name, FACT_TABLES)
    ensures WorksStay(db, r) && AllFollow(db, r, t, RowsOf(db, Series, s))
  {
    hide Progress, Schema, AllFollow, SeriesSoFar, Local, SameTable, Carried, NoRows, WorksStay, AliasesCarried,
      StatesMerged, SubscriptionsCarried, CirclesStay, FollowersCombined, OnePrimary, ReviewsMoved;
    SeriesLocal(mid, r, t, s);
    Untouched(db, mid, t, s, TOUCHED, EMPTIED, CARRIED, Series);
    Untouched(db, mid, t, s, TOUCHED, EMPTIED, CARRIED, SeriesWork);
    forall table | table in FACT_TABLES
      ensures FactOf(table, db, r, t, s, name)
    {
      FactsAfter(db, mid, r, t, s, name, table);
    }
    SeriesFrame(db, mid, r, t, s);
  }

  lemma SeriesFrame(db: Db, mid: Db, r: Db, t: nat, s: nat)
    requires SameTable(db, mid, Series) && SameTable(db, mid, SeriesWork)
    requires WorksStay(mid, r) && AllFollow(mid, r, t, RowsOf(mid, Series, s))
    ensures WorksStay(db, r) && AllFollow(db, r, t, RowsOf(db, Series, s))
  {
    assert forall k: Key :: k.table == Series || k.table == SeriesWork ==> Get(db, k) == Get(mid, k);
    forall n: nat | SeriesKey(n) in RowsOf(db, Series, s)
      ensures WorksFollow(db, r, t, n)
    {
      assert SeriesKey(n) in RowsOf(mid, Series, s) && Get(db, SeriesKey(n)) == Get(mid, SeriesKey(n));
      assert WorksFollow(mid, r, t, n);
    }
  }

  // ----- the source goes -----

  /** The last two statements: rows go, of the source or among the target's snapshots. */
  ghost predicate Shrunk(mid: Db, r: Db, t: nat, s: nat) {
    && (forall k: Key :: k in r ==> Get(mid, k) == Get(r, k))
    && (forall k: Key :: k in mid && k !in r ==>
         k.table !in {Series, SeriesWork}
         && (mid[k].seen.owner == s || (k.table == MetadataSnapshot && mid[k].seen.owner == t)))
    && (forall k :: k in r && k.table != SeriesWork ==> r[k].seen.owner != s)
  }

  lemma ShrinkKeepsSchema(mid: Db, r: Db, t: nat, s: nat)
    requires Schema(mid) && Shrunk(mid, r, t, s) && t != s
    ensures Schema(r) && Local(mid, r, t, s) && WorksStay(mid, r)
  {
    forall k | k in r && k.table == SeriesWork
      ensures SeriesKey(r[k].seen.owner) in r
    {
      assert SeriesKey(mid[k].seen.owner) in mid;
    }
  }

  lemma ShrinkKeepsFacts(db: Db, mid: Db, r: Db, t: nat, s: nat, name: nat)
    requires Shrunk(mid, r, t, s) && t != s && Facts(db, mid, t, s, name, FACT_TABLES) && Schema(mid) && Schema(r)
    ensures Facts(db, r, t, s, name, FACT_TABLES)
  {
    hide AliasesCarried, StatesMerged, SubscriptionsCarried, CirclesStay, FollowersCombined, OnePrimary, ReviewsMoved,
      Shrunk, Schema;
    forall table | table in FACT_TABLES
      ensures FactOf(table, db, r, t, s, name)
    {
      assert FactOf(table, db, mid, t, s, name);
      match table
      case Alias => ShrinkKeepsAliases(db, mid, r, t, s, name);
      case UserState => ShrinkKeepsStates(db, mid, r, t, s);
      case Subscription => ShrinkKeepsSubscriptions(db, mid, r, t, s);
      case ExternalId => ShrinkKeepsPrimaries(mid, r, t, s);
      case MergeReview => ShrinkKeepsReviews(db, mid, r, t, s);
      case RefreshState => ShrinkKeepsEmpty(mid, r, t, s);
    }
  }

  lemma ShrinkKeepsAliases(db: Db, mid: Db, r: Db, t: nat, s: nat, name: nat)
    requires Shrunk(mid, r, t, s) && t != s && AliasesCarried(db, mid, t, s, name)
    ensures AliasesCarried(db, r, t, s, name)
  {
    forall a: nat, b: nat
      ensures HasName(r, Alias, t, a, b) <==> HasName(mid, Alias, t, a, b)
    {
      ShrinkKeepsName(mid, r, Alias, t, s, a, b);
    }
  }

  lemma ShrinkKeepsStates(db: Db, mid: Db, r: Db, t: nat, s: nat)
    requires Shrunk(mid, r, t, s) && t != s && StatesMerged(db, mid, t, s) && Schema(mid)
    ensures StatesMerged(db, r, t, s)
  {
    forall user: nat
      ensures Get(r, StateKey(t, user)) == Get(mid, StateKey(t, user))
    {
    }
  }

  lemma ShrinkKeepsSubscriptions(db: Db, mid: Db, r: Db, t: nat, s: nat)
    requires Shrunk(mid, r, t, s) && t != s && SubscriptionsCarried(db, mid, t, s) && CirclesStay(db, mid, t)
      && FollowersCombined(db, mid, t, s)
    ensures SubscriptionsCarried(db, r, t, s) && CirclesStay(db, r, t) && FollowersCombined(db, r, t, s)
  {
    FollowersAfter(db, mid, r, t, s);
    hide FollowersCombined;
    forall a: nat, b: nat
      ensures Subscribed(r, t, a, b) <==> Subscribed(mid, t, a, b)
    {
      ShrinkKeepsName(mid, r, Subscription, t, s, a, b);
    }
    forall k | OwnedBy(db, k, Subscription, t)
      ensures k in mid <==> k in r
    {
      assert k in mid ==> OwnedBy(mid, k, Subscription, t);
    }
  }

  lemma ShrinkKeepsPrimaries(mid: Db, r: Db, t: nat, s: nat)
    requires Shrunk(mid, r, t, s) && t != s
    ensures OnePrimary(mid, t) ==> OnePrimary(r, t)
    ensures forall a :: AnyPrimary(mid, t, a) <==> AnyPrimary(r, t, a)
  {
    forall k, a: nat
      ensures IsPrimary(r, k, t, a) <==> IsPrimary(mid, k, t, a)
    {
      assert k in r ==> Get(mid, k) == Get(r, k);
    }
  }

  lemma ShrinkKeepsEmpty(mid: Db, r: Db, t: nat, s: nat)
    requires Shrunk(mid, r, t, s) && NoRows(mid, RefreshState, t)
    ensures NoRows(r, RefreshState, t)
  {
    forall k: Key
      ensures !OwnedBy(r, k, RefreshState, t)
    {
      assert !OwnedBy(mid, k, RefreshState, t) && (k in r ==> Get(mid, k) == Get(r, k));
    }
  }

  lemma ShrinkKeepsReviews(db: Db, mid: Db, r: Db, t: nat, s: nat)
    requires Shrunk(mid, r, t, s) && t != s && ReviewsMoved(db, mid, t, s)
    ensures ReviewsMoved(db, r, t, s)
  {
    forall k: Key | k.table == MergeReview
      ensures Get(r, k) == Get(mid, k)
    {
      assert Get(mid, k) == Get(Repoint(db, MergeReview, t, s), k);
    }
  }

  lemma ShrinkKeepsName(mid: Db, r: Db, table: Table, t: nat, s: nat, a: nat, b: nat)
    requires Shrunk(mid, r, t, s) && t != s && table != MetadataSnapshot
    ensures HasName(r, table, t, a, b) <==> HasName(mid, table, t, a, b)
  {
    if k :| Named(r, k, table, t, a, b) {
      assert Named(mid, k, table, t, a, b);
    }
    if k :| Named(mid, k, table, t, a, b) {
      assert Named(r, k, table, t, a, b);
    }
  }

  lemma ShrinkKeepsWorks(db: Db, mid: Db, r: Db, t: nat, s: nat)
    requires Shrunk(mid, r, t, s) && t != s && WorksStay(db, mid) && AllFollow(db, mid, t, RowsOf(db, Series, s))
    ensures WorksStay(db, r) && AllFollow(db, r, t, RowsOf(db, Series, s))
  {
    forall k: Key | k.table in {Series, SeriesWork}
      ensures Get(mid, k) == Get(r, k)
    {
    }
    forall n: nat | SeriesKey(n) in RowsOf(db, Series, s)
      ensures WorksFollow(db, r, t, n)
    {
      assert WorksFollow(db, mid, t, n);
    }
    forall series, a, b | WorkKey(series, a, b) in db && WorkKey(series, a, b) !in r
      ensures SeriesKey(series) !in r
    {
      assert Get(mid, WorkKey(series, a, b)) == Get(r, WorkKey(series, a, b));
      assert Get(mid, SeriesKey(series)) == Get(r, SeriesKey(series));
    }
  }

  const KEPT_NAMES: set<Table> := {ExternalId, WorkParty, UserState, TagAssignment, CatalogItem, MergeReview,
      ReleaseSeen, FeedItem, Series}

  /** What a merge of circle s into circle t did, part by part: constraints are kept; every
      change is in scope; the source is gone and no other party; no name is lost; the six
      tables with facts of their own; the series' works; and the snapshots retained. */
  datatype Part = Constraints | Scope | Emptied | Parties | Kept | OwnFacts | Works | Retained

  ghost predicate Holds(part: Part, db: Db, r: Db, t: nat, s: nat, name: nat) {
    match part
    case Constraints => Schema(db) && Circles(db, t, s) && Schema(r)
    case Scope => Local(db, r, t, s)
    case Emptied => forall k :: k in r && k.table != SeriesWork ==> r[k].seen.owner != s
    case Parties => forall party: nat :: party != s ==> Get(r, PartyKey(party)) == Get(db, PartyKey(party))
    case Kept => forall table :: table in KEPT_NAMES ==> Taken(db, r, table, t, s)
    case OwnFacts => Facts(db, r, t, s, name, FACT_TABLES)
    case Works => WorksStay(db, r) && AllFollow(db, r, t, RowsOf(db, Series, s))
    case Retained => SnapshotsRetained(db, r, t, s)
  }

  ghost predicate Merged(db: Db, r: Db, t: nat, s: nat, name: nat) {
    forall part: Part :: Holds(part, db, r, t, s, name)
  }

  lemma MergeIsLocal(db: Db, r: Db, t: nat, s: nat, name: nat)
    requires Merged(db, r, t, s, name)
    ensures Local(db, r, t, s) && SeriesExist(db) && SeriesExist(r)
  {
    assert Holds(Constraints, db, r, t, s, name) && Holds(Scope, db, r, t, s, name);
  }

  lemma MergeKeepsConstraints(db: Db, r: Db, t: nat, s: nat, name: nat)
    requires Merged(db, r, t, s, name)
    ensures Schema(db) && Circles(db, t, s) && Schema(r)
  {
    assert Holds(Constraints, db, r, t, s, name);
  }

  lemma MergeEmptiesSource(db: Db, r: Db, t: nat, s: nat, name: nat)
    requires Merged(db, r, t, s, name)
    ensures forall k :: k in r && k.table != SeriesWork ==> r[k].seen.owner != s
    ensures PartyKey(s) in db && PartyKey(s) !in r
    ensures forall party: nat :: party != s ==> Get(r, PartyKey(party)) == Get(db, PartyKey(party))
  {
    assert Holds(Constraints, db, r, t, s, name) && Holds(Emptied, db, r, t, s, name)
      && Holds(Parties, db, r, t, s, name);
  }

  /** No name of either circle is lost: the target has exactly those of both. */
  lemma MergeLosesNoName(db: Db, r: Db, t: nat, s: nat, name: nat, table: Table, a: nat, b: nat)
    requires Merged(db, r, t, s, name) && table in KEPT_NAMES
    ensures HasName(r, table, t, a, b) <==> HasName(db, table, t, a, b) || HasName(db, table, s, a, b)
  {
    MergeTakesTable(db, r, t, s, name, table);
    assert Carried(db, r, table, t, s);
  }

  /** And every row comes with its values, combined where both circles had one. */
  lemma MergeTakesTable(db: Db, r: Db, t: nat, s: nat, name: nat, table: Table)
    requires Merged(db, r, t, s, name) && table in KEPT_NAMES
    ensures Taken(db, r, table, t, s)
  {
    hide Taken;
    assert Holds(Kept, db, r, t, s, name);
  }

  lemma MergeFactsHold(db: Db, r: Db, t: nat, s: nat, name: nat)
    requires Merged(db, r, t, s, name)
    ensures AliasesCarried(db, r, t, s, name) && StatesMerged(db, r, t, s) && ReviewsMoved(db, r, t, s)
    ensures SubscriptionsCarried(db, r, t, s) && CirclesStay(db, r, t) && FollowersCombined(db, r, t, s)
    ensures (OnePrimary(db, t) ==> OnePrimary(r, t)) && PrimariesCarried(db, r, t, s) && NoRows(r, RefreshState, t)
  {
    hide AliasesCarried, StatesMerged, ReviewsMoved, SubscriptionsCarried, CirclesStay, FollowersCombined, OnePrimary;
    assert Holds(OwnFacts, db, r, t, s, name);
    assert FactOf(Alias, db, r, t, s, name) && FactOf(UserState, db, r, t, s, name)
      && FactOf(Subscription, db, r, t, s, name);
    assert FactOf(ExternalId, db, r, t, s, name) && FactOf(MergeReview, db, r, t, s, name);
    assert FactOf(RefreshState, db, r, t, s, name);
  }

  /** Of each provider, a snapshot that either circle had is the target's after the merge if
      and only if fewer than two of theirs are newer. */
  lemma MergeRetains(db: Db, r: Db, t: nat, s: nat, name: nat)
    requires Merged(db, r, t, s, name)
    ensures SnapshotsRetained(db, r, t, s)
  {
    assert Holds(Retained, db, r, t, s, name);
  }

  /** Every work of a series is under the target's series of that title. */
  lemma MergeLosesNoWork(db: Db, r: Db, t: nat, s: nat, name: nat, n: nat)
    requires Merged(db, r, t, s, name) && OwnedBy(db, SeriesKey(n), Series, s)
    ensures WorksFollow(db, r, t, n) && WorksStay(db, r)
  {
    assert Holds(Works, db, r, t, s, name);
  }

  method MergeRelations(db: Db, t: nat, s: nat, name: nat, stamp: nat) returns (r: Db)
    requires Schema(db) && Circles(db, t, s)
    ensures Merged(db, r, t, s, name)
  {
    hide Progress, Facts, Schema, Local, SeriesSoFar, AllFollow, Carried, Taken, Shrunk, WorksStay;
    var followed := MergeFollowers(db, t, s, name, stamp);
    Untouched(db, followed, t, s, TOUCHED, EMPTIED, CARRIED, Party);
    CirclesStill(db, followed, t, s);
    var joined := MergeSeries(followed, t, s);
    SeriesProgress(db, followed, joined, t, s, name);
    SeriesFacts(db, followed, joined, t, s, name);
    r := WithoutParty(joined, s);
    r := r - Outdated(r, t);
    NoneLeft(followed, joined, t, s);
    SourceGone(joined, r, t, s);
    RetainedAtEnd(db, joined, r, t, s);
    MergeEnds(db, joined, r, t, s, name);
  }

  lemma RetainedAtEnd(db: Db, joined: Db, r: Db, t: nat, s: nat)
    requires Progress(db, joined, t, s, TOUCHED + {Series, SeriesWork}, EMPTIED + {Series}, CARRIED + {Series})
      && t != s
    requires r == WithoutParty(joined, s) - Outdated(WithoutParty(joined, s), t)
    ensures SnapshotsRetained(db, r, t, s)
  {
    hide Taken, SameTable, NoRows, Local, Schema;
    assert Taken(db, joined, MetadataSnapshot, t, s);
    RetainedSnapshots(db, joined, r, t, s);
  }

  lemma SourceGone(joined: Db, r: Db, t: nat, s: nat)
    requires NoRows(joined, Series, s) && t != s
    requires r == WithoutParty(joined, s) - Outdated(WithoutParty(joined, s), t)
    ensures Shrunk(joined, r, t, s)
  {
    assert forall k: Key :: k in Outdated(WithoutParty(joined, s), t) ==> OwnedBy(joined, k, MetadataSnapshot, t);
    forall k: Key | k in joined && k !in r
      ensures k.table !in {Series, SeriesWork}
        && (joined[k].seen.owner == s || (k.table == MetadataSnapshot && joined[k].seen.owner == t))
    {
      assert !OwnedBy(joined, k, Series, s);
    }
  }

  lemma MergeEnds(db: Db, mid: Db, r: Db, t: nat, s: nat, name: nat)
    requires Schema(db) && Circles(db, t, s) && Shrunk(mid, r, t, s)
    requires Progress(db, mid, t, s, TOUCHED + {Series, SeriesWork}, EMPTIED + {Series}, CARRIED + {Series})
    requires Facts(db, mid, t, s, name, FACT_TABLES)
    requires WorksStay(db, mid) && AllFollow(db, mid, t, RowsOf(db, Series, s)) && SnapshotsRetained(db, r, t, s)
    ensures Merged(db, r, t, s, name)
  {
    hide Facts, Schema, AllFollow, Taken, WorksStay, NoRows, Local, SnapshotsRetained, Merged;
    ShrinkKeepsSchema(mid, r, t, s);
    ShrinkKeepsFacts(db, mid, r, t, s, name);
    ShrinkKeepsWorks(db, mid, r, t, s);
    SchemaSeries(db);
    SchemaSeries(mid);
    SchemaSeries(r);
    LocalChain(db, mid, r, t, s);
    forall table | table in KEPT_NAMES
      ensures Taken(db, r, table, t, s)
    {
      TakenAfter(db, mid, r, table, t, s);
    }
    PartiesLeft(db, mid, r, t, s);
    AllParts(db, r, t, s, name);
  }

  lemma AllParts(db: Db, r: Db, t: nat, s: nat, name: nat)
    requires Schema(db) && Circles(db, t, s) && Schema(r) && Local(db, r, t, s)
    requires forall k :: k in r && k.table != SeriesWork ==> r[k].seen.owner != s
    requires forall party: nat :: party != s ==> Get(r, PartyKey(party)) == Get(db, PartyKey(party))
    requires forall table :: table in KEPT_NAMES ==> Taken(db, r, table, t, s)
    requires Facts(db, r, t, s, name, FACT_TABLES) && SnapshotsRetained(db, r, t, s)
    requires WorksStay(db, r) && AllFollow(db, r, t, RowsOf(db, Series, s))
    ensures Merged(db, r, t, s, name)
  {
    hide Facts, Schema, AllFollow, Taken, WorksStay, Local, SnapshotsRetained, Circles;
    forall part: Part
      ensures Holds(part, db, r, t, s, name)
    {
    }
  }

  lemma PartiesLeft(db: Db, mid: Db, r: Db, t: nat, s: nat)
    requires SameTable(db, mid, Party) && Shrunk(mid, r, t, s) && Schema(mid) && t != s
    ensures forall party: nat :: party != s ==> Get(r, PartyKey(party)) == Get(db, PartyKey(party))
  {
    forall party: nat | party != s
      ensures Get(r, PartyKey(party)) == Get(db, PartyKey(party))
    {
      assert Get(db, PartyKey(party)) == Get(mid, PartyKey(party));
    }
  }
}
