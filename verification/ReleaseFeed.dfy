/** New releases of subscribed creators: candidates, feed entries and the seen marks. */
module ReleaseFeed {
  datatype Option<T> = None | Some(value: T)

  const DAY := 24 * 60 * 60
  const GRACE := 30 * DAY
  const MAX_NEW_WORKS := 60

  datatype Source = Circle(id: nat) | Voice(id: nat)

  /** Codes are numbered in the order a run takes them, from the highest down. */
  type Code = nat

  datatype Entry = Entry(source: Source, code: Code)

  /** series: only works of that series of the circle.  activated: in seconds, once active. */
  datatype Subscription = Subscription(user: nat, source: Source, series: Option<nat>, activated: Option<int>,
    enabled: bool)

  datatype EventType = Released | Edition

  /** on account of which source the row was added is the row's party or person column. */
  datatype FeedRow = FeedRow(user: nat, code: Code, event: EventType, source: Source)

  /** What metadata knows of a work; days count from a fixed one. */
  datatype Work = Work(day: Option<int>, canonical: bool, canonicalDay: Option<int>)

  datatype Sync = SyncFailed | Unavailable | Synced(work: Work)

  /** What a run meets: whether a code is no work code, what its synchronization gives, and the time. */
  datatype World = World(invalid: Code -> bool, sync: Code -> Sync, now: int)

  // ----- dates -----

  /** creatorReleaseIsRecent: a work without a date counts as new. */
  predicate IsRecent(day: Option<int>, activated: int) {
    day.None? || day.value * DAY >= (activated - GRACE) / DAY * DAY
  }

  /** Whether the day of release, if it is known, ended within the grace before activation. */
  predicate InWindow(day: Option<int>, activated: int) {
    day.None? || (day.value + 1) * DAY > activated - GRACE
  }

  /** So the day of release is recent exactly when it was not over a grace before activation. */
  lemma RecentIff(day: Option<int>, activated: int)
    ensures IsRecent(day, activated) <==> InWindow(day, activated)
  {
    var start := activated - GRACE;
    assert start == start / DAY * DAY + start % DAY && 0 <= start % DAY < DAY;
  }

  /** A later activation never makes a release recent that was not. */
  lemma RecentMonotone(day: Option<int>, earlier: int, later: int)
    requires earlier <= later && IsRecent(day, later)
    ensures IsRecent(day, earlier)
  {
    assert (earlier - GRACE) / DAY <= (later - GRACE) / DAY;
  }

  function EventOf(work: Work, now: int): EventType {
    if work.canonical || work.canonicalDay.None? then Released
    else if work.canonicalDay.value * DAY < now - GRACE then Edition
    else Released
  }

  /** A new edition of a family whose canonical work came out over a grace ago is announced as
      an edition, anything else as a release. */
  predicate IsEdition(work: Work, now: int) {
    !work.canonical && work.canonicalDay.Some? && work.canonicalDay.value * DAY + GRACE < now
  }

  lemma EditionIff(work: Work, now: int)
    ensures EventOf(work, now) == if IsEdition(work, now) then Edition else Released
  {
  }

  /** The date a feed entry goes by: the work's own, or else the catalog's. */
  function ReleaseDay(work: Work, catalogDay: Option<int>): Option<int> {
    if work.day.Some? then work.day else catalogDay
  }

  // ----- what a seen mark rests on -----

  /** Why a code was settled for a source; subscribers are those the run had loaded. */
  datatype Reason =
    | Baseline
    | InvalidCode
    | Old(day: Option<int>, subscribers: set<Subscription>)
    | NotAvailable
    | Fed(event: EventType, day: Option<int>, subscribers: set<Subscription>)

  ghost predicate HasRow(feed: seq<FeedRow>, user: nat, code: Code, event: EventType) {
    exists i :: 0 <= i < |feed| && IsRow(feed[i], user, code, event)
  }

  predicate IsRow(row: FeedRow, user: nat, code: Code, event: EventType) {
    row.user == user && row.code == code && row.event == event
  }

  /** A code is settled as old only if it is for every subscriber; as fed, only once every
      subscriber in whose window it falls has an entry. */
  ghost predicate Rests(code: Code, reason: Reason, feed: seq<FeedRow>) {
    match reason
    case Old(day, subscribers) => forall s :: s in subscribers && s.activated.Some? ==>
      !IsRecent(day, s.activated.value)
    case Fed(event, day, subscribers) => forall s ::
      s in subscribers && s.activated.Some? && IsRecent(day, s.activated.value) ==> HasRow(feed, s.user, code, event)
    case _ => true
  }

  lemma HasRowStays(feed: seq<FeedRow>, more: seq<FeedRow>)
    requires feed <= more
    ensures forall user, code, event :: HasRow(feed, user, code, event) ==> HasRow(more, user, code, event)
  {
    forall user, code, event | HasRow(feed, user, code, event)
      ensures HasRow(more, user, code, event)
    {
      var i :| 0 <= i < |feed| && IsRow(feed[i], user, code, event);
      assert IsRow(more[i], user, code, event);
    }
  }

  lemma RestsOn(code: Code, reason: Reason, feed: seq<FeedRow>, more: seq<FeedRow>)
    requires Rests(code, reason, feed) && feed <= more
    ensures Rests(code, reason, more)
  {
    HasRowStays(feed, more);
  }

  ghost predicate NoRepeats(feed: seq<FeedRow>) {
    forall i, j :: 0 <= i < j < |feed| ==> !IsRow(feed[i], feed[j].user, feed[j].code, feed[j].event)
  }

  /** Marks set earlier stay, with their reasons. */
  ghost predicate Kept(before: map<Entry, Mark>, after: map<Entry, Mark>) {
    forall e :: e in before ==> e in after && after[e] == before[e]
  }

  lemma KeptChain(a: map<Entry, Mark>, b: map<Entry, Mark>, c: map<Entry, Mark>)
    ensures Kept(a, a)
    ensures Kept(a, b) && Kept(b, c) ==> Kept(a, c)
  {
  }

  predicate ForEntry(row: FeedRow, e: Entry) {
    row.source == e.source && row.code == e.code
  }

  /** The mark of an entry: the reason, and how long the feed was then. */
  datatype Mark = Mark(reason: Reason, feedLength: nat)

  /** Every mark rests on its reason, and the entry has brought no row since. */
  ghost predicate MarksRest(seen: set<Entry>, marks: map<Entry, Mark>, feed: seq<FeedRow>) {
    && seen == marks.Keys
    && (forall e :: e in marks ==> marks[e].feedLength <= |feed| && Rests(e.code, marks[e].reason, feed))
    && (forall e, i :: e in marks && marks[e].feedLength <= i < |feed| ==> !ForEntry(feed[i], e))
  }

  /** Where the process ends within one candidate; count is the sources marked before. */
  datatype Stop = Never | AtStart | AfterFeed | Marking(count: nat)

  datatype Outcome = Settled | Synchronized | Deferred | Failed | Stopped

  function CodesOf(candidates: set<Entry>): set<Code> {
    set e | e in candidates :: e.code
  }

  function SourcesOf(candidates: set<Entry>, code: Code): set<Source> {
    set e | e in candidates && e.code == code :: e.source
  }

  method Highest(codes: set<Code>) returns (highest: Code)
    requires codes != {}
    ensures highest in codes && forall c :: c in codes ==> c <= highest
  {
    highest :| highest in codes;
    var left := codes - {highest};
    while left != {}
      invariant left <= codes && highest in codes
      invariant forall c :: c in codes && c !in left ==> c <= highest
    {
      var c :| c in left;
      left := left - {c};
      if c > highest {
        highest := c;
      }
    }
  }

  // ----- the store -----

  class ReleaseStore {
    var catalog: map<Entry, Option<int>>
    /** Catalog rows that the provider no longer finds; only those of voice actors count. */
    var notFound: set<Entry>
    var seriesWorks: set<(nat, nat, Code)>
    var seen: set<Entry>
    var subscriptions: map<nat, Subscription>
    var feed: seq<FeedRow>
    ghost var marks: map<Entry, Mark>

    ghost predicate Valid()
      reads this
    {
      NoRepeats(feed) && MarksRest(seen, marks, feed)
    }

    constructor ()
      ensures Valid() && feed == [] && seen == {} && subscriptions == map[]
    {
      catalog, notFound, seriesWorks, seen, subscriptions, feed, marks := map[], {}, {}, {}, map[], [], map[];
    }

    predicate IsActive(source: Source)
      reads this`subscriptions
    {
      exists id :: id in subscriptions && subscriptions[id].source == source && subscriptions[id].activated.Some?
    }

    /** A code that appeared in an actively subscribed catalog and is not settled there. */
    predicate IsCandidate(e: Entry)
      reads this`subscriptions, this`catalog, this`notFound, this`seen
    {
      e in catalog && !(e.source.Voice? && e in notFound) && IsActive(e.source) && e !in seen
    }

    predicate Follows(id: nat, e: Entry)
      reads this`subscriptions, this`seriesWorks
    {
      && id in subscriptions && subscriptions[id].activated.Some? && subscriptions[id].enabled
      && subscriptions[id].source == e.source
      && (subscriptions[id].series.None?
           || (e.source.Circle? && (e.source.id, subscriptions[id].series.value, e.code) in seriesWorks))
    }

    /** creatorReleaseSubscribers */
    function Subscribers(code: Code, sources: set<Source>): set<nat>
      reads this`subscriptions, this`seriesWorks
    {
      set id | id in subscriptions && subscriptions[id].source in sources
        && Follows(id, Entry(subscriptions[id].source, code))
    }

    function Loaded(code: Code, sources: set<Source>): set<Subscription>
      reads this`subscriptions, this`seriesWorks
    {
      set id | id in Subscribers(code, sources) :: subscriptions[id]
    }

    // ----- marks -----

    /** One INSERT OR IGNORE into the seen set. */
    method Mark1(e: Entry, ghost reason: Reason)
      requires Valid() && Rests(e.code, reason, feed)
      modifies this`seen, this`marks
      ensures Valid() && seen == old(seen) + {e}
      ensures e !in old(seen) ==> marks == old(marks)[e := Mark(reason, |feed|)]
      ensures e in old(seen) ==> marks == old(marks)
    {
      if e !in seen {
        seen := seen + {e};
        marks := marks[e := Mark(reason, |feed|)];
      }
    }

    /** seedCreatorReleaseBaseline: one transaction. */
    method SeedBaseline(source: Source)
      requires Valid()
      modifies this`seen, this`marks
      ensures Valid() && old(seen) <= seen
      ensures forall e :: e in old(marks) ==> e in marks && marks[e] == old(marks)[e]
      ensures !IsActive(source) ==> forall e :: e in catalog && e.source == source ==> e in seen
      ensures forall e :: e in seen && e !in old(seen) ==>
        e in catalog && e.source == source && !IsActive(source) && marks[e].reason == Baseline
    {
      if IsActive(source) {
        return;
      }
      var left := set e | e in catalog && e.source == source;
      ghost var all := left;
      while left != {}
        invariant left <= all && Valid() && old(seen) <= seen
        invariant forall e :: e in old(marks) ==> e in marks && marks[e] == old(marks)[e]
        invariant forall e :: e in all && e !in left ==> e in seen
        invariant forall e :: e in seen && e !in old(seen) ==> e in all && marks[e].reason == Baseline
      {
        var e :| e in left;
        left := left - {e};
        Mark1(e, Baseline);
      }
    }

    // ----- changes between runs -----

    method Pull(e: Entry, day: Option<int>, found: bool)
      requires Valid()
      modifies this`catalog, this`notFound
      ensures Valid() && catalog == old(catalog)[e := day] && notFound == if found then old(notFound) - {e}
        else old(notFound) + {e}
    {
      catalog := catalog[e := day];
      notFound := if found then notFound - {e} else notFound + {e};
    }

    /** A subscription starts active when its catalog is fresh, and then with a baseline. */
    method Subscribe(id: nat, subscription: Subscription, ready: bool, now: int)
      requires Valid() && id !in subscriptions && subscription.activated.None?
      modifies this`seen, this`marks, this`subscriptions
      ensures Valid() && subscriptions ==
        old(subscriptions)[id := subscription.(activated := if ready then Some(now) else None)]
      ensures ready && !old(IsActive(subscription.source)) ==> forall e ::
        e in catalog && e.source == subscription.source ==> e in seen
      ensures old(seen) <= seen && (!ready ==> seen == old(seen))
      ensures forall e :: e in seen && e !in old(seen) ==>
        e.source == subscription.source && !old(IsActive(subscription.source))
      ensures forall e :: e in old(marks) ==> e in marks && marks[e] == old(marks)[e]
    {
      if ready {
        SeedBaseline(subscription.source);
      }
      subscriptions := subscriptions[id := subscription.(activated := if ready then Some(now) else None)];
    }

    /** One step of activateCreatorSubscriptions: the catalog at that moment is the baseline. */
    method Activate(id: nat, now: int)
      requires Valid() && id in subscriptions && subscriptions[id].activated.None?
      modifies this`seen, this`marks, this`subscriptions
      ensures Valid() && subscriptions == old(subscriptions)[id := old(subscriptions)[id].(activated := Some(now))]
      ensures !old(IsActive(subscriptions[id].source)) ==> forall e ::
        e in catalog && e.source == old(subscriptions)[id].source ==> e in seen
      ensures old(seen) <= seen
      ensures forall e :: e in seen && e !in old(seen) ==>
        e.source == old(subscriptions)[id].source && !old(IsActive(subscriptions[id].source))
      ensures forall e :: e in old(marks) ==> e in marks && marks[e] == old(marks)[e]
    {
      SeedBaseline(subscriptions[id].source);
      subscriptions := subscriptions[id := subscriptions[id].(activated := Some(now))];
    }

    method Unsubscribe(id: nat)
      requires Valid()
      modifies this`subscriptions
      ensures Valid() && subscriptions == old(subscriptions) - {id}
    {
      subscriptions := subscriptions - {id};
    }

    // ----- one candidate -----

    /** addCreatorReleaseFeedItems: one transaction, and one entry per user, code and event. */
    method AddFeedItems(code: Code, sources: set<Source>, event: EventType, day: Option<int>)
      requires Valid() && forall source :: source in sources ==> Entry(source, code) !in seen
      modifies this`feed
      ensures Valid() && old(feed) <= feed
      ensures Rests(code, Fed(event, day, Loaded(code, sources)), feed)
      ensures forall i :: |old(feed)| <= i < |feed| ==> AddedFor(feed[i], code, sources, event, day)
    {
      var rows := feed;
      var left := Subscribers(code, sources);
      ghost var all := left;
      while left != {}
        invariant feed == old(feed) && left <= all && feed <= rows && NoRepeats(rows) && MarksRest(seen, marks, rows)
        invariant forall id :: id in all && id !in left && IsRecent(day, subscriptions[id].activated.value) ==>
          HasRow(rows, subscriptions[id].user, code, event)
        invariant forall i :: |feed| <= i < |rows| ==> AddedFor(rows[i], code, sources, event, day)
      {
        var id :| id in left;
        left := left - {id};
        var s := subscriptions[id];
        if IsRecent(day, s.activated.value) {
          var row := FeedRow(s.user, code, event, s.source);
          assert AddedFor(row, code, sources, event, day);
          var more := Insert(rows, row, seen, marks);
          HasRowStays(rows, more);
          rows := more;
        }
      }
      feed := rows;
      forall s | s in Loaded(code, sources) && s.activated.Some? && IsRecent(day, s.activated.value)
        ensures HasRow(feed, s.user, code, event)
      {
        var id :| id in all && subscriptions[id] == s;
      }
    }

    /** A row is added for a subscriber in whose window the release falls. */
    ghost predicate AddedFor(row: FeedRow, code: Code, sources: set<Source>, event: EventType, day: Option<int>)
      reads this`subscriptions, this`seriesWorks
    {
      row.code == code && row.event == event && row.source in sources
      && exists id ::
           id in Subscribers(code, sources) && subscriptions[id].user == row.user
           && subscriptions[id].source == row.source && IsRecent(day, subscriptions[id].activated.value)
    }

    /** The date the catalog gives a code, among the rows of some sources. */
    ghost predicate CatalogDay(code: Code, sources: set<Source>, day: Option<int>)
      reads this`catalog
    {
      && (day.Some? ==> exists s :: s in sources && Entry(s, code) in catalog && catalog[Entry(s, code)] == day)
      && (day.None? ==> forall s :: s in sources && Entry(s, code) in catalog ==> catalog[Entry(s, code)].None?)
    }

    ghost predicate Owed(row: FeedRow, code: Code, sources: set<Source>, invalid: bool, sync: Sync, now: int)
      reads this`subscriptions, this`seriesWorks, this`catalog
    {
      && !invalid && sync.Synced? && row.event == EventOf(sync.work, now)
      && exists day ::
           CatalogDay(code, sources, day) && AddedFor(row, code, sources, row.event, ReleaseDay(sync.work, day))
    }

    /** markCreatorReleaseSeen, source by source; count says how many before the process stops. */
    method MarkSeen(code: Code, sources: set<Source>, ghost reason: Reason, count: nat)
      requires Valid() && Rests(code, reason, feed)
        && forall source :: source in sources ==> Entry(source, code) !in seen
      modifies this`seen, this`marks
      ensures Valid() && old(seen) <= seen
      ensures forall e :: e in seen && e !in old(seen) ==>
        e.code == code && e.source in sources && marks[e].reason == reason
      ensures forall e :: e in old(marks) ==> e in marks && marks[e] == old(marks)[e]
      ensures count >= |sources| ==> forall source :: source in sources ==> Entry(source, code) in seen
    {
      var left := sources;
      var n := 0;
      while left != {} && n < count
        invariant left <= sources && |left| + n == |sources| && Valid() && old(seen) <= seen
        invariant forall source :: source in sources && source !in left ==> Entry(source, code) in seen
        invariant forall e :: e in seen && e !in old(seen) ==>
          e.code == code && e.source in sources && marks[e].reason == reason
        invariant forall e :: e in old(marks) ==> e in marks && marks[e] == old(marks)[e]
        decreases left
      {
        var source :| source in left;
        left := left - {source};
        n := n + 1;
        Mark1(Entry(source, code), reason);
      }
    }

    /** What a run may rest a mark on, given what the world answered for the code. */
    ghost predicate Justified(code: Code, sources: set<Source>, reason: Reason, invalid: bool, sync: Sync, now: int)
      reads this`subscriptions, this`seriesWorks, this`catalog
    {
      match reason
      case Baseline => false
      case InvalidCode => invalid
      case Old(day, subscribers) =>
        !invalid && day.Some? && CatalogDay(code, sources, day) && subscribers == Loaded(code, sources)
      case NotAvailable => !invalid && sync.Unavailable?
      case Fed(event, release, subscribers) =>
        && !invalid && sync.Synced? && event == EventOf(sync.work, now) && subscribers == Loaded(code, sources)
        && exists day :: CatalogDay(code, sources, day) && release == ReleaseDay(sync.work, day)
    }

    method AnyRecent(code: Code, sources: set<Source>, day: Option<int>) returns (any: bool)
      ensures any <==> exists id :: id in Subscribers(code, sources) && IsRecent(day, subscriptions[id].activated.value)
    {
      var left := Subscribers(code, sources);
      while left != {}
        invariant left <= Subscribers(code, sources)
        invariant forall id :: id in Subscribers(code, sources) && id !in left ==>
          !IsRecent(day, subscriptions[id].activated.value)
      {
        var id :| id in left;
        left := left - {id};
        if IsRecent(day, subscriptions[id].activated.value) {
          return true;
        }
      }
      return false;
    }

    /** One round of processCreatorReleaseCandidates.  stop says where the process ends, if it does. */
    method ProcessOne(code: Code, sources: set<Source>, day: Option<int>, invalid: bool, sync: Sync, now: int,
        full: bool, stop: Stop) returns (outcome: Outcome)
      requires Valid() && forall source :: source in sources ==> Entry(source, code) !in seen
      requires CatalogDay(code, sources, day)
      modifies this`seen, this`marks, this`feed
      ensures Valid() && old(seen) <= seen && old(feed) <= feed
      ensures forall e :: e in seen && e !in old(seen) ==>
        e.code == code && e.source in sources && Justified(code, sources, marks[e].reason, invalid, sync, now)
      ensures forall e :: e in old(marks) ==> e in marks && marks[e] == old(marks)[e]
      ensures forall i :: |old(feed)| <= i < |feed| ==> Owed(feed[i], code, sources, invalid, sync, now)
      ensures outcome in {Settled, Synchronized} ==> forall source :: source in sources ==> Entry(source, code) in seen
      ensures outcome in {Deferred, Failed} ==> seen == old(seen) && feed == old(feed)
      ensures outcome == Deferred ==> full
      ensures outcome in {Failed, Synchronized} ==> !full
      ensures outcome == Failed ==> !invalid && sync.SyncFailed?
      ensures outcome == Settled ==> Skips(code, sources, invalid)
      ensures outcome in {Deferred, Failed, Synchronized} ==> NeedsSync(code, sources, invalid)
      ensures stop == Never ==> outcome != Stopped
    {
      hide NoRepeats, MarksRest, Rests, CatalogDay, AddedFor, EventOf, Wants, Subscribers, InWindow, IsRecent;
      if stop == AtStart {
        return Stopped;
      }
      var count := if stop.Marking? then stop.count else |sources|;
      if invalid {
        MarkSeen(code, sources, InvalidCode, count);
        return if count >= |sources| then Settled else Stopped;
      }
      if day.Some? {
        var any := AnyRecent(code, sources, day);
        OldIffNoneRecent(code, sources, day);
        if !any {
          OldForAll(code, sources, day);
          MarkSeen(code, sources, Old(day, Loaded(code, sources)), count);
          return if count >= |sources| then Settled else Stopped;
        }
      }
      if full {
        return Deferred;
      }
      match sync
      case SyncFailed =>
        return Failed;
      case Unavailable =>
        MarkSeen(code, sources, NotAvailable, count);
        return if count >= |sources| then Synchronized else Stopped;
      case Synced(work) =>
        var release := ReleaseDay(work, day);
        var event := EventOf(work, now);
        AddFeedItems(code, sources, event, release);
        forall i | |old(feed)| <= i < |feed|
          ensures Owed(feed[i], code, sources, invalid, sync, now)
        {
          AddedIsOwed(feed[i], code, sources, event, day, sync, now);
        }
        if stop == AfterFeed {
          return Stopped;
        }
        MarkSeen(code, sources, Fed(event, release, Loaded(code, sources)), count);
        return if count >= |sources| then Synchronized else Stopped;
    }

    lemma AddedIsOwed(row: FeedRow, code: Code, sources: set<Source>, event: EventType, day: Option<int>, sync: Sync,
        now: int)
      requires sync.Synced? && event == EventOf(sync.work, now) && CatalogDay(code, sources, day)
      requires AddedFor(row, code, sources, event, ReleaseDay(sync.work, day))
      ensures Owed(row, code, sources, false, sync, now)
    {
      hide CatalogDay;
    }

    lemma OldIffNoneRecent(code: Code, sources: set<Source>, day: Option<int>)
      requires day.Some?
      ensures TooOld(code, sources, day)
        <==> !exists id :: id in Subscribers(code, sources) && IsRecent(day, subscriptions[id].activated.value)
    {
      forall id
        ensures id in Subscribers(code, sources) <==> Wants(id, code, sources)
        ensures id in Subscribers(code, sources) ==>
          (IsRecent(day, subscriptions[id].activated.value) <==> InWindow(day, subscriptions[id].activated.value))
      {
        SubscribersWant(id, code, sources);
        if id in Subscribers(code, sources) {
          RecentIff(day, subscriptions[id].activated.value);
        }
      }
    }

    lemma OldForAll(code: Code, sources: set<Source>, day: Option<int>)
      requires forall id :: id in Subscribers(code, sources) ==> !IsRecent(day, subscriptions[id].activated.value)
      ensures Rests(code, Old(day, Loaded(code, sources)), feed)
    {
    }

    // ----- a run -----

    function Candidates(): set<Entry>
      reads this`subscriptions, this`catalog, this`notFound, this`seen
    {
      set e | e in catalog && IsCandidate(e)
    }

    /** A catalog code not settled for a source someone actively follows; a voice actor's only
        while the provider finds it. */
    ghost predicate Waits(e: Entry, settled: set<Entry>)
      reads this`subscriptions, this`catalog, this`notFound
    {
      && e in catalog && e !in settled && (e.source.Circle? || e !in notFound)
      && exists id :: id in subscriptions && subscriptions[id].activated.Some? && subscriptions[id].source == e.source
    }

    lemma CandidatesWait()
      ensures forall e :: e in Candidates() <==> Waits(e, seen)
    {
    }

    /** The date of a candidate: of one of its catalog rows, if any has one. */
    method PickDay(code: Code, sources: set<Source>) returns (day: Option<int>)
      requires forall source :: source in sources ==> Entry(source, code) in catalog
      ensures CatalogDay(code, sources, day)
    {
      day := None;
      var left := sources;
      while left != {}
        invariant left <= sources
        invariant day.Some? ==> exists source :: source in sources && catalog[Entry(source, code)] == day
        invariant day.None? ==> forall source :: source in sources && source !in left ==>
          catalog[Entry(source, code)].None?
      {
        var source :| source in left;
        left := left - {source};
        if day.None? {
          day := catalog[Entry(source, code)];
        }
      }
    }

    /** What a run did so far with the candidates it loaded; left are the codes still to take. */
    ghost predicate RunSoFar(before: set<Entry>, fedBefore: nat, candidates: set<Entry>, left: set<Code>,
        deferred: set<Code>, failed: set<Code>, world: World)
      reads this
    {
      && Valid() && before <= seen && fedBefore <= |feed| && left !! deferred && left !! failed
      && (forall e :: e in candidates && e.code in left ==> e !in seen)
      && (forall e :: e in candidates && e.code !in left ==> (e in seen <==> e.code !in deferred && e.code !in failed))
      && RunMarks(before, fedBefore, candidates, world)
    }

    /** A run marks only its candidates, each for a reason, and adds rows only for them. */
    ghost predicate RunMarks(before: set<Entry>, fedBefore: nat, candidates: set<Entry>, world: World)
      reads this
    {
      && (forall e :: e in seen && e !in before ==> e in candidates && e in marks && MarkedIn(e, candidates, world))
      && (forall i :: fedBefore <= i < |feed| ==>
           Entry(feed[i].source, feed[i].code) in candidates && OwedIn(feed[i], candidates, world))
    }

    ghost predicate MarkedIn(e: Entry, candidates: set<Entry>, world: World)
      requires e in marks
      reads this
    {
      Justified(e.code, SourcesOf(candidates, e.code), marks[e].reason, world.invalid(e.code), world.sync(e.code),
        world.now)
    }

    ghost predicate OwedIn(row: FeedRow, candidates: set<Entry>, world: World)
      reads this`subscriptions, this`seriesWorks, this`catalog
    {
      Owed(row, row.code, SourcesOf(candidates, row.code), world.invalid(row.code), world.sync(row.code), world.now)
    }

    /** Everyone who should be was told of a code settled for some sources: it is no work code
        or not available, or too old for every follower, or everyone in whose window its
        date falls has an entry. */
    ghost predicate Told(code: Code, sources: set<Source>, invalid: bool, sync: Sync, now: int)
      reads this
    {
      || invalid || sync.Unavailable?
      || exists day :: CatalogDay(code, sources, day) && (TooOld(code, sources, day)
           || (sync.Synced? && AllHaveRows(code, sources, ReleaseDay(sync.work, day), IsEdition(sync.work, now))))
    }

    /** An active subscription of an enabled account to one of the sources, or to a series of it that lists the code. */
    ghost predicate Wants(id: nat, code: Code, sources: set<Source>)
      reads this`subscriptions, this`seriesWorks
    {
      && id in subscriptions && subscriptions[id].source in sources
      && subscriptions[id].activated.Some? && subscriptions[id].enabled
      && match subscriptions[id].series
         case None => true
         case Some(series) =>
           subscriptions[id].source.Circle? && (subscriptions[id].source.id, series, code) in seriesWorks
    }

    ghost predicate TooOld(code: Code, sources: set<Source>, day: Option<int>)
      reads this`subscriptions, this`seriesWorks
    {
      day.Some? && forall id :: Wants(id, code, sources) ==> !InWindow(day, subscriptions[id].activated.value)
    }

    /** A code is settled without asking for its metadata: no work code, or too old for everyone. */
    ghost predicate Skips(code: Code, sources: set<Source>, invalid: bool)
      reads this`subscriptions, this`seriesWorks, this`catalog
    {
      invalid || exists day :: CatalogDay(code, sources, day) && TooOld(code, sources, day)
    }

    ghost predicate NeedsSync(code: Code, sources: set<Source>, invalid: bool)
      reads this`subscriptions, this`seriesWorks, this`catalog
    {
      !invalid && exists day :: CatalogDay(code, sources, day) && !TooOld(code, sources, day)
    }

    ghost predicate AllHaveRows(code: Code, sources: set<Source>, day: Option<int>, edition: bool)
      reads this
    {
      forall id :: Wants(id, code, sources) && InWindow(day, subscriptions[id].activated.value) ==>
        HasRow(feed, subscriptions[id].user, code, if edition then Edition else Released)
    }

    /** Why a run adds a row: the code was synchronized, and a follower is in whose window its date falls. */
    ghost predicate Due(row: FeedRow, sources: set<Source>, invalid: bool, sync: Sync, now: int)
      reads this`subscriptions, this`seriesWorks, this`catalog
    {
      && !invalid && sync.Synced? && row.source in sources
      && row.event == (if IsEdition(sync.work, now) then Edition else Released)
      && exists day, id :: CatalogDay(row.code, sources, day) && Wants(id, row.code, sources)
           && subscriptions[id].user == row.user && subscriptions[id].source == row.source
           && InWindow(ReleaseDay(sync.work, day), subscriptions[id].activated.value)
    }

    lemma SubscribersWant(id: nat, code: Code, sources: set<Source>)
      ensures id in Subscribers(code, sources) <==> Wants(id, code, sources)
    {
    }

    /** Entries a run settled were announced to whom they concern. */
    lemma SettledIsTold(e: Entry, candidates: set<Entry>, world: World)
      requires Valid() && e in marks && MarkedIn(e, candidates, world)
      ensures Told(e.code, SourcesOf(candidates, e.code), world.invalid(e.code), world.sync(e.code), world.now)
    {
      hide NoRepeats, CatalogDay, HasRow;
      var code, sources := e.code, SourcesOf(candidates, e.code);
      var sync := world.sync(code);
      assert Rests(code, marks[e].reason, feed);
      match marks[e].reason
      case InvalidCode =>
      case NotAvailable =>
      case Baseline =>
      case Old(day, subscribers) =>
        forall id | Wants(id, code, sources)
          ensures !InWindow(day, subscriptions[id].activated.value)
        {
          SubscribersWant(id, code, sources);
          assert subscriptions[id] in subscribers;
          RecentIff(day, subscriptions[id].activated.value);
        }
        assert TooOld(code, sources, day);
      case Fed(event, release, subscribers) =>
        EditionIff(sync.work, world.now);
        var day :| CatalogDay(code, sources, day) && release == ReleaseDay(sync.work, day);
        forall id | Wants(id, code, sources) && InWindow(release, subscriptions[id].activated.value)
          ensures HasRow(feed, subscriptions[id].user, code, event)
        {
          SubscribersWant(id, code, sources);
          assert subscriptions[id] in subscribers;
          RecentIff(release, subscriptions[id].activated.value);
        }
        assert AllHaveRows(code, sources, release, IsEdition(sync.work, world.now));
    }

    /** And it added rows only for those. */
    lemma OwedIsDue(row: FeedRow, candidates: set<Entry>, world: World)
      requires OwedIn(row, candidates, world)
      ensures Due(row, SourcesOf(candidates, row.code), world.invalid(row.code), world.sync(row.code), world.now)
    {
      hide CatalogDay, SourcesOf;
      var sources, sync := SourcesOf(candidates, row.code), world.sync(row.code);
      EditionIff(sync.work, world.now);
      var day :| CatalogDay(row.code, sources, day)
        && AddedFor(row, row.code, sources, row.event, ReleaseDay(sync.work, day));
      var id :| id in Subscribers(row.code, sources) && subscriptions[id].user == row.user
        && subscriptions[id].source == row.source
        && IsRecent(ReleaseDay(sync.work, day), subscriptions[id].activated.value);
      SubscribersWant(id, row.code, sources);
      RecentIff(ReleaseDay(sync.work, day), subscriptions[id].activated.value);
    }

    /** processCreatorReleaseCandidates.  sync and invalid are what the world answers; at the
        code stopAt the process ends where stop says. */
    method Run(invalid: Code -> bool, sync: Code -> Sync, now: int, stopAt: Option<Code>, stop: Stop)
      returns (finished: bool, synced: set<Code>, deferred: set<Code>, failed: set<Code>)
      requires Valid()
      modifies this`seen, this`marks, this`feed
      ensures Valid() && old(seen) <= seen && old(feed) <= feed && Kept(old(marks), marks)
      ensures RunMarks(old(seen), |old(feed)|, old(Candidates()), World(invalid, sync, now))
      ensures Announces(old(seen), |old(feed)|, old(Candidates()), World(invalid, sync, now))
      ensures finished ==> forall e :: e in old(Candidates()) ==>
        (e in seen <==> e.code !in deferred && e.code !in failed)
      ensures forall c :: c in failed ==> !invalid(c) && sync(c).SyncFailed?
      ensures |synced| <= MAX_NEW_WORKS && (deferred != {} ==> |synced| == MAX_NEW_WORKS)
      ensures forall c, d :: c in synced && d in deferred ==> c > d
      ensures finished ==> Sifted(old(Candidates()), {}, synced, deferred, World(invalid, sync, now))
      ensures failed <= synced
      ensures stopAt.None? ==> finished
    {
      hide NoRepeats, MarksRest, RunMarks, Owed, Justified, IsCandidate, IsActive, Kept, HasRow, RunSoFar, Announces,
        Sifted, Skips, NeedsSync, Counted;
      CountBegins(CodesOf(Candidates()));
      KeptChain(marks, marks, marks);
      ghost var world := World(invalid, sync, now);
      var candidates := Candidates();
      var left := CodesOf(candidates);
      RunBegins(world);
      SiftBegins(world);
      synced, deferred, failed := {}, {}, {};
      while left != {}
        invariant left <= CodesOf(candidates) && old(feed) <= feed && Kept(old(marks), marks)
        invariant Valid() && old(seen) <= seen
        invariant RunSoFar(old(seen), |old(feed)|, candidates, left, deferred, failed, world)
          && candidates !! old(seen)
        invariant Counted(left, synced, deferred, failed)
        invariant forall c :: c in failed ==> !invalid(c) && sync(c).SyncFailed?
        invariant Sifted(candidates, left, synced, deferred, world)
        decreases left
      {
        var code := Highest(left);
        var stops := if stopAt == Some(code) then stop else Never;
        ghost var soFar := marks;
        var outcome := TakeNext(candidates, left, deferred, failed, code, invalid(code), sync(code), now,
          |synced| >= MAX_NEW_WORKS, stops, old(seen), |old(feed)|, world);
        KeptChain(old(marks), soFar, marks);
        if outcome != Stopped {
          SiftsOne(candidates, left, synced, deferred, code, outcome, world);
          CountsOne(left, synced, deferred, failed, code, outcome);
        }
        left := left - {code};
        match outcome
        case Stopped =>
          RunTells(old(seen), |old(feed)|, candidates, world);
          CountEnds(synced, deferred, failed);
          return false, synced, deferred, failed;
        case Settled =>
        case Synchronized =>
          synced := synced + {code};
        case Deferred =>
          deferred := deferred + {code};
        case Failed =>
          synced, failed := synced + {code}, failed + {code};
      }
      finished := true;
      CountEnds(synced, deferred, failed);
      RunEnds(old(seen), |old(feed)|, candidates, deferred, failed, world);
      RunTells(old(seen), |old(feed)|, candidates, world);
    }

    /** A run asks metadata for the newest codes first, up to the bound, and defers the rest. */
    static predicate Counted(left: set<Code>, synced: set<Code>, deferred: set<Code>, failed: set<Code>) {
      && |synced| <= MAX_NEW_WORKS && (deferred != {} ==> |synced| == MAX_NEW_WORKS) && failed <= synced
      && (forall c, d :: c in synced && d in deferred ==> c > d)
      && (forall c, d :: c in synced && d in left ==> c > d)
    }

    static lemma CountBegins(left: set<Code>)
      ensures Counted(left, {}, {}, {})
    {
    }

    static lemma CountsOne(left: set<Code>, synced: set<Code>, deferred: set<Code>, failed: set<Code>, code: Code,
        outcome: Outcome)
      requires Counted(left, synced, deferred, failed) && code in left && (forall d :: d in left ==> d <= code)
      requires outcome == Deferred ==> |synced| >= MAX_NEW_WORKS
      requires outcome in {Failed, Synchronized} ==> |synced| < MAX_NEW_WORKS
      ensures Counted(left - {code}, if outcome in {Failed, Synchronized} then synced + {code} else synced,
                      if outcome == Deferred then deferred + {code} else deferred,
                      if outcome == Failed then failed + {code} else failed)
    {
    }

    static lemma CountEnds(synced: set<Code>, deferred: set<Code>, failed: set<Code>)
      ensures forall left :: Counted(left, synced, deferred, failed) ==>
        |synced| <= MAX_NEW_WORKS && (deferred != {} ==> |synced| == MAX_NEW_WORKS) && failed <= synced
        && forall c, d :: c in synced && d in deferred ==> c > d
    {
    }

    /** The codes a run asked metadata for, and those it deferred, are exactly the codes taken
        so far that need it. */
    ghost predicate Sifted(candidates: set<Entry>, left: set<Code>, synced: set<Code>, deferred: set<Code>,
        world: World)
      reads this`subscriptions, this`seriesWorks, this`catalog
    {
      && (forall c :: c in synced || c in deferred ==> NeedsSync(c, SourcesOf(candidates, c), world.invalid(c)))
      && (forall e :: e in candidates && e.code !in left ==>
           e.code in synced || e.code in deferred
             || Skips(e.code, SourcesOf(candidates, e.code), world.invalid(e.code)))
    }

    lemma SiftBegins(world: World)
      ensures Sifted(Candidates(), CodesOf(Candidates()), {}, {}, world)
    {
      hide NeedsSync, Skips, IsCandidate;
    }

    lemma SiftsOne(candidates: set<Entry>, left: set<Code>, synced: set<Code>, deferred: set<Code>, code: Code,
        outcome: Outcome, world: World)
      requires Sifted(candidates, left, synced, deferred, world) && outcome != Stopped
      requires outcome == Settled ==> Skips(code, SourcesOf(candidates, code), world.invalid(code))
      requires outcome in {Deferred, Failed, Synchronized} ==>
        NeedsSync(code, SourcesOf(candidates, code), world.invalid(code))
      ensures Sifted(candidates, left - {code}, if outcome in {Failed, Synchronized} then synced + {code} else synced,
                     if outcome == Deferred then deferred + {code} else deferred, world)
    {
      hide NeedsSync, Skips;
    }

    method TakeNext(candidates: set<Entry>, ghost left: set<Code>, ghost deferred: set<Code>, ghost failed: set<Code>,
        code: Code, invalid: bool, sync: Sync, now: int, full: bool, stop: Stop,
        ghost before: set<Entry>, ghost fedBefore: nat, ghost world: World)
      returns (outcome: Outcome)
      requires invalid == world.invalid(code) && sync == world.sync(code) && now == world.now
      requires RunSoFar(before, fedBefore, candidates, left, deferred, failed, world) && code in left
        && forall e :: e in candidates ==> e in catalog
      modifies this`seen, this`marks, this`feed
      ensures old(feed) <= feed && Kept(old(marks), marks)
      ensures Valid() && old(seen) <= seen && RunMarks(before, fedBefore, candidates, world)
      ensures outcome != Stopped ==>
        RunSoFar(before, fedBefore, candidates, left - {code},
                 if outcome == Deferred then deferred + {code} else deferred,
                 if outcome == Failed then failed + {code} else failed, world)
      ensures outcome == Deferred ==> full
      ensures outcome in {Failed, Synchronized} ==> !full
      ensures outcome == Failed ==> !invalid && sync.SyncFailed?
      ensures outcome == Settled ==> Skips(code, SourcesOf(candidates, code), invalid)
      ensures outcome in {Deferred, Failed, Synchronized} ==> NeedsSync(code, SourcesOf(candidates, code), invalid)
      ensures stop == Never ==> outcome != Stopped
    {
      hide NoRepeats, MarksRest, Rests, Owed, Justified, AddedFor, Loaded, Skips, NeedsSync;
      var sources := SourcesOf(candidates, code);
      var day := PickDay(code, sources);
      assert forall source :: source in sources ==> Entry(source, code) in candidates;
      outcome := ProcessOne(code, sources, day, invalid, sync, now, full, stop);
      AllMarked();
      forall i | fedBefore <= i < |feed|
        ensures Entry(feed[i].source, feed[i].code) in candidates
          && OwedIn(feed[i], candidates, world)
      {
        if i >= |old(feed)| {
          OwedCode(feed[i], code, sources, world);
        }
      }
      forall e | e in candidates && e.code == code
        ensures e == Entry(e.source, code) && e.source in sources
      {
      }
      forall e | e in seen && e !in before
        ensures e in candidates && MarkedIn(e, candidates, world)
      {
        if e !in old(seen) {
          assert e == Entry(e.source, code);
        }
      }
    }

    /** No entry settled before a run brings a row in it, what it settled was told to whom it
        concerns, and it told no one else. */
    ghost predicate Announces(before: set<Entry>, fedBefore: nat, candidates: set<Entry>, world: World)
      reads this
    {
      && (forall e :: e in seen && e !in before ==>
            && e in candidates
            && Told(e.code, SourcesOf(candidates, e.code), world.invalid(e.code), world.sync(e.code), world.now))
      && (forall i :: fedBefore <= i < |feed| ==>
            && Entry(feed[i].source, feed[i].code) !in before
            && Due(feed[i], SourcesOf(candidates, feed[i].code), world.invalid(feed[i].code),
                   world.sync(feed[i].code), world.now))
    }

    lemma RunTells(before: set<Entry>, fedBefore: nat, candidates: set<Entry>, world: World)
      requires Valid() && RunMarks(before, fedBefore, candidates, world) && candidates !! before
      ensures Announces(before, fedBefore, candidates, world)
    {
      hide MarkedIn, OwedIn, Told, Due, NoRepeats, MarksRest;
      forall e | e in seen && e !in before
        ensures Told(e.code, SourcesOf(candidates, e.code), world.invalid(e.code), world.sync(e.code), world.now)
      {
        SettledIsTold(e, candidates, world);
      }
      forall i | fedBefore <= i < |feed|
        ensures Due(feed[i], SourcesOf(candidates, feed[i].code), world.invalid(feed[i].code), world.sync(feed[i].code),
          world.now)
      {
        OwedIsDue(feed[i], candidates, world);
      }
    }

    lemma RunEnds(before: set<Entry>, fedBefore: nat, candidates: set<Entry>, deferred: set<Code>, failed: set<Code>,
        world: World)
      requires RunSoFar(before, fedBefore, candidates, {}, deferred, failed, world)
      ensures RunMarks(before, fedBefore, candidates, world)
      ensures forall e :: e in candidates ==> (e in seen <==> e.code !in deferred && e.code !in failed)
    {
    }

    lemma AllMarked()
      requires Valid()
      ensures forall e :: e in seen <==> e in marks
    {
    }

    lemma OwedCode(row: FeedRow, code: Code, sources: set<Source>, world: World)
      requires Owed(row, code, sources, world.invalid(code), world.sync(code), world.now)
      ensures row.code == code && row.source in sources
    {
    }

    lemma RunBegins(world: World)
      requires Valid()
      ensures RunSoFar(seen, |feed|, Candidates(), CodesOf(Candidates()), {}, {}, world) && Candidates() !! seen
    {
    }
  }

  /** INSERT ... ON CONFLICT(user_id, primary_code, event_type) DO NOTHING */
  method Insert(feed: seq<FeedRow>, row: FeedRow, seen: set<Entry>, ghost marks: map<Entry, Mark>)
    returns (r: seq<FeedRow>)
    requires NoRepeats(feed) && MarksRest(seen, marks, feed) && Entry(row.source, row.code) !in seen
    ensures NoRepeats(r) && MarksRest(seen, marks, r) && HasRow(r, row.user, row.code, row.event)
    ensures (r == feed && HasRow(feed, row.user, row.code, row.event)) || r == feed + [row]
  {
    for i := 0 to |feed|
      invariant forall k :: 0 <= k < i ==> !IsRow(feed[k], row.user, row.code, row.event)
    {
      if IsRow(feed[i], row.user, row.code, row.event) {
        return feed;
      }
    }
    r := feed + [row];
    assert IsRow(r[|feed|], row.user, row.code, row.event);
    forall e | e in marks
      ensures Rests(e.code, marks[e].reason, r)
    {
      RestsOn(e.code, marks[e].reason, feed, r);
    }
  }
}
