/** Releases over whole histories: pulls, subscriptions, activations, runs that may stop
    anywhere, and unsubscriptions, in any order. */
module ReleaseHistory {
  import opened ReleaseFeed

  datatype Op =
    | Pulling(e: Entry, day: Option<int>, found: bool)
    | Subscribing(id: nat, subscription: Subscription, ready: bool, now: int)
    | Activating(id: nat, now: int)
    | Unsubscribing(id: nat)
    | Running(invalid: Code -> bool, sync: Code -> Sync, now: int, stopAt: Option<Code>, stop: Stop)

  /** The store at one moment. */
  datatype Moment = Moment(
    catalog: set<Entry>, seen: set<Entry>, marks: map<Entry, Mark>,
    subscriptions: map<nat, Subscription>, feed: seq<FeedRow>)

  ghost function Now(store: ReleaseStore): Moment
    reads store
  {
    Moment(store.catalog.Keys, store.seen, store.marks, store.subscriptions, store.feed)
  }

  /** The subscription was active, and none of the operations ends it. */
  ghost predicate Stays(before: Moment, ops: seq<Op>, id: nat) {
    id in before.subscriptions && before.subscriptions[id].activated.Some? && Unsubscribing(id) !in ops
  }

  /** Nothing recorded is lost, and no entry already settled brought a row. */
  ghost predicate Grows(before: Moment, after: Moment) {
    && before.catalog <= after.catalog && before.seen <= after.seen && before.feed <= after.feed
    && Kept(before.marks, after.marks)
    && forall i :: |before.feed| <= i < |after.feed| ==> Entry(after.feed[i].source, after.feed[i].code) !in before.seen
  }

  /** A code was settled by a run, which looked at the subscription if it rests on subscribers. */
  predicate Considers(reason: Reason, s: Subscription) {
    match reason
    case Baseline => false
    case Old(_, subscribers) => s.enabled && s.series.None? ==> s in subscribers
    case Fed(_, _, subscribers) => s.enabled && s.series.None? ==> s in subscribers
    case _ => true
  }

  /** An active subscription stays, and what was settled meanwhile for its source was
      settled by a run that considered it, not as a baseline. */
  ghost predicate Serves(before: Moment, after: Moment, id: nat)
    requires id in before.subscriptions
  {
    && id in after.subscriptions && after.subscriptions[id] == before.subscriptions[id]
    && forall e :: e in after.seen && e !in before.seen && e.source == before.subscriptions[id].source ==>
         e in after.marks && Considers(after.marks[e].reason, before.subscriptions[id])
  }

  ghost predicate Advances(before: Moment, after: Moment, ops: seq<Op>) {
    Grows(before, after) && forall id :: Stays(before, ops, id) ==> Serves(before, after, id)
  }

  lemma GrowsChain(a: Moment, b: Moment, c: Moment)
    requires Grows(a, b) && Grows(b, c)
    ensures Grows(a, c)
  {
    KeptChain(a.marks, b.marks, c.marks);
    hide Kept;
    forall i | |a.feed| <= i < |c.feed|
      ensures Entry(c.feed[i].source, c.feed[i].code) !in a.seen
    {
      if i < |b.feed| {
        assert c.feed[i] == b.feed[i];
      }
    }
  }

  lemma ServesChain(a: Moment, b: Moment, c: Moment, id: nat)
    requires id in a.subscriptions && Serves(a, b, id) && Serves(b, c, id) && Kept(b.marks, c.marks)
    ensures Serves(a, c, id)
  {
  }

  /** Histories compose. */
  lemma AdvancesChain(a: Moment, b: Moment, c: Moment, ops: seq<Op>, op: Op)
    requires Advances(a, b, ops) && Advances(b, c, [op])
    ensures Advances(a, c, ops + [op])
  {
    GrowsChain(a, b, c);
    forall id | Stays(a, ops + [op], id)
      ensures Serves(a, c, id)
    {
      assert Stays(a, ops, id) && Serves(a, b, id) && Stays(b, [op], id);
      ServesChain(a, b, c, id);
    }
  }

  lemma RunConsiders(store: ReleaseStore, before: set<Entry>, candidates: set<Entry>, world: World)
    requires exists fed :: store.RunMarks(before, fed, candidates, world)
    ensures forall e, id ::
      (&& e in store.seen && e !in before && id in store.subscriptions
       && store.subscriptions[id].activated.Some? && store.subscriptions[id].source == e.source) ==>
        e in store.marks && Considers(store.marks[e].reason, store.subscriptions[id])
  {
    forall e, id | e in store.seen && e !in before && id in store.subscriptions
      && store.subscriptions[id].activated.Some? && store.subscriptions[id].source == e.source
      ensures e in store.marks && Considers(store.marks[e].reason, store.subscriptions[id])
    {
      var fed :| store.RunMarks(before, fed, candidates, world);
      assert e.source in SourcesOf(candidates, e.code);
      assert store.MarkedIn(e, candidates, world);
      if store.subscriptions[id].enabled && store.subscriptions[id].series.None? {
        assert store.Follows(id, Entry(store.subscriptions[id].source, e.code));
        assert id in store.Subscribers(e.code, SourcesOf(candidates, e.code));
      }
    }
  }

  /** A run that considered a subscription when it fed a code told its user, or its grace had ended;
      when it settled the code as old, the grace had ended. */
  lemma ConsideredIsTold(store: ReleaseStore, e: Entry, s: Subscription)
    requires store.Valid() && e in store.marks && Considers(store.marks[e].reason, s)
    requires s.enabled && s.series.None? && s.activated.Some?
    ensures match store.marks[e].reason
      case Old(day, _) => !InWindow(day, s.activated.value)
      case Fed(event, day, _) => InWindow(day, s.activated.value) ==> HasRow(store.feed, s.user, e.code, event)
      case _ => true
  {
    match store.marks[e].reason
    case Old(day, _) => RecentIff(day, s.activated.value);
    case Fed(_, day, _) => RecentIff(day, s.activated.value);
    case _ =>
  }

  /** One operation; one that does not apply leaves the store as it is. */
  method PerformOne(store: ReleaseStore, op: Op)
    requires store.Valid()
    modifies store
    ensures store.Valid() && Advances(old(Now(store)), Now(store), [op])
  {
    match op
    case Pulling(e, day, found) =>
      store.Pull(e, day, found);
    case Subscribing(id, subscription, ready, now) =>
      if id !in store.subscriptions && subscription.activated.None? {
        store.Subscribe(id, subscription, ready, now);
      }
    case Activating(id, now) =>
      if id in store.subscriptions && store.subscriptions[id].activated.None? {
        store.Activate(id, now);
      }
    case Unsubscribing(id) =>
      store.Unsubscribe(id);
    case Running(invalid, sync, now, stopAt, stop) =>
      ghost var candidates, before := store.Candidates(), store.seen;
      var _, _, _, _ := store.Run(invalid, sync, now, stopAt, stop);
      RunConsiders(store, before, candidates, World(invalid, sync, now));
  }

  /** Any history keeps the store's invariant, so no entry is given twice and every mark
      rests on its reason; and it loses no candidate of a subscription that stays: the code
      is settled by a run, is still a candidate, or is a voice actor's that the provider no
      longer finds. */
  method Perform(store: ReleaseStore, ops: seq<Op>)
    requires store.Valid()
    modifies store
    ensures store.Valid() && Advances(old(Now(store)), Now(store), ops)
    ensures forall id, e ::
      Stays(old(Now(store)), ops, id) && old(store.IsCandidate(e))
      && e.source == old(store.subscriptions)[id].source ==>
      || store.IsCandidate(e)
      || (e in store.seen && Considers(store.marks[e].reason, old(store.subscriptions)[id]))
      || (e.source.Voice? && e in store.notFound)
  {
    for i := 0 to |ops|
      invariant store.Valid() && Advances(old(Now(store)), Now(store), ops[..i])
    {
      ghost var last := Now(store);
      PerformOne(store, ops[i]);
      AdvancesChain(old(Now(store)), last, Now(store), ops[..i], ops[i]);
      assert ops[..i] + [ops[i]] == ops[..i + 1];
    }
    assert ops[..|ops|] == ops;
  }

  /** A code in the catalog at a first activation brings no entry, whatever follows. */
  method BaselineNeverFed(store: ReleaseStore, id: nat, now: int, ops: seq<Op>)
    requires store.Valid() && id in store.subscriptions && store.subscriptions[id].activated.None?
    requires !store.IsActive(store.subscriptions[id].source)
    modifies store
    ensures store.Valid() && old(store.feed) <= store.feed
    ensures forall e :: e in old(store.catalog) && e.source == old(store.subscriptions)[id].source ==>
      e in store.seen && forall i :: |old(store.feed)| <= i < |store.feed| ==> !ForEntry(store.feed[i], e)
  {
    store.Activate(id, now);
    Perform(store, ops);
  }
}
