/** orderSeedData: seed tables in foreign-key order. */
module SeedOrder {
  import opened Names

  /** A table with seed rows, and the tables its foreign keys reference. */
  datatype Table = Table(name: Name, references: seq<Name>, rows: seq<string>)

  datatype Result<T> = Ok(value: T) | ForeignKeyCycle

  function NamesOf(data: seq<Table>): (r: seq<Name>)
    ensures |r| == |data| && forall i :: 0 <= i < |data| ==> r[i] == data[i].name
  {
    seq(|data|, i requires 0 <= i < |data| => data[i].name)
  }

  /** The other seed tables a table references; a reference to itself orders nothing. */
  function Dependencies(t: Table, names: set<Name>): set<Name> {
    set r | r in t.references && r != t.name && r in names
  }

  type Graph = map<Name, set<Name>>

  ghost function NameSet(data: seq<Table>): set<Name> {
    set n | n in NamesOf(data)
  }

  ghost predicate References(data: seq<Table>, n: Name, r: Name) {
    exists i :: 0 <= i < |data| && data[i].name == n && r in data[i].references
  }

  /** Each seed table with the other seed tables it references. */
  ghost function DependencyGraph(data: seq<Table>): Graph {
    map n | n in NameSet(data) :: set r | r in NameSet(data) && r != n && References(data, n, r)
  }

  /** Table names are unique in a database. */
  ghost predicate DistinctNames(data: seq<Table>) {
    NoDuplicates(NamesOf(data))
  }

  // ----- the reference definitions -----

  /** Every name appears after all the names it depends on. */
  ghost predicate Topological(g: Graph, order: seq<Name>) {
    && NoDuplicates(order)
    && (forall n :: n in order <==> n in g)
    && (forall i :: 0 <= i < |order| ==> forall d :: d in g[order[i]] ==> d in order[..i])
  }

  ghost predicate LexLeq(a: seq<Name>, b: seq<Name>) {
    a == b || exists k :: 0 <= k < |a| && k < |b| && a[..k] == b[..k] && Less(a[k], b[k])
  }

  /** A closed walk along references. */
  ghost predicate Cycle(g: Graph, p: seq<Name>) {
    && p != []
    && (forall n :: n in p ==> n in g)
    && (forall i :: 0 <= i < |p| - 1 ==> p[i + 1] in g[p[i]])
    && p[0] in g[p[|p| - 1]]
  }

  ghost predicate Closed(g: Graph) {
    forall n :: n in g ==> g[n] <= g.Keys
  }

  // ----- why the greedy order is the least one -----

  ghost predicate Ready(g: Graph, done: set<Name>, n: Name) {
    n in g && n !in done && g[n] <= done
  }

  ghost function Elements(s: seq<Name>): set<Name> {
    set n | n in s
  }

  /** Every step takes the least name that is ready. */
  ghost predicate Greedy(g: Graph, order: seq<Name>) {
    && NoDuplicates(order)
    && (forall i :: 0 <= i < |order| ==> Ready(g, Elements(order[..i]), order[i]))
    && (forall i, n :: 0 <= i < |order| && Ready(g, Elements(order[..i]), n) ==> Leq(order[i], n))
  }

  /** A complete greedy order precedes every other order lexicographically. */
  lemma GreedyIsLeast(g: Graph, order: seq<Name>, other: seq<Name>)
    requires Greedy(g, order) && Topological(g, order) && Topological(g, other)
    ensures LexLeq(order, other)
  {
    if order != other {
      SameLength(g, order, other);
      var k := FirstDifference(order, other, 0);
      var done := Elements(order[..k]);
      assert other[k] !in other[..k];
      assert forall d :: d in g[other[k]] ==> d in other[..k];
      assert Ready(g, done, other[k]);
      assert Leq(order[k], other[k]);
    }
  }

  lemma SameLength(g: Graph, a: seq<Name>, b: seq<Name>)
    requires Topological(g, a) && Topological(g, b)
    ensures |a| == |b|
  {
    DistinctSize(a);
    DistinctSize(b);
    assert Elements(a) == g.Keys == Elements(b);
  }

  lemma {:induction false} DistinctSize(s: seq<Name>)
    requires NoDuplicates(s)
    ensures |Elements(s)| == |s|
  {
    if s != [] {
      var front := s[..|s| - 1];
      DistinctSize(front);
      assert Elements(s) == Elements(front) + {s[|s| - 1]};
    }
  }

  lemma FirstDifference(a: seq<Name>, b: seq<Name>, from: nat) returns (k: nat)
    requires |a| == |b| && a != b && from <= |a| && a[..from] == b[..from]
    ensures k < |a| && a[..k] == b[..k] && a[k] != b[k]
    decreases |a| - from
  {
    assert a[..|a|] == a && b[..|b|] == b;
    if a[from] != b[from] {
      return from;
    }
    assert a[..from + 1] == a[..from] + [a[from]];
    assert b[..from + 1] == b[..from] + [b[from]];
    k := FirstDifference(a, b, from + 1);
  }

  // ----- cycles -----

  /** Along a cycle positions would have to keep falling, so an ordered graph has none. */
  lemma OrderedHasNoCycle(g: Graph, order: seq<Name>, p: seq<Name>)
    requires Topological(g, order)
    ensures !Cycle(g, p)
  {
    if Cycle(g, p) {
      var at := Position(order, p[0]);
      var end := PositionsFall(g, order, p, |p| - 1, at);
      var back := Position(order[..end], p[0]);
    }
  }

  lemma Position(order: seq<Name>, n: Name) returns (i: nat)
    requires n in order
    ensures i < |order| && order[i] == n
  {
    i :| 0 <= i < |order| && order[i] == n;
  }

  lemma {:induction false} PositionsFall(g: Graph, order: seq<Name>, p: seq<Name>, k: nat, at: nat) returns (i: nat)
    requires Topological(g, order) && Cycle(g, p) && k < |p| && at < |order| && order[at] == p[0]
    ensures i <= at && order[i] == p[k]
  {
    if k == 0 {
      i := at;
    } else {
      var before := PositionsFall(g, order, p, k - 1, at);
      assert p[k] in g[p[k - 1]];
      assert p[k] in order[..before];
      i := Position(order[..before], p[k]);
    }
  }

  /** Names left over that each wait for another one left over contain a cycle. */
  lemma StuckHasCycle(g: Graph, stuck: set<Name>) returns (p: seq<Name>)
    requires stuck != {} && stuck <= g.Keys && forall n :: n in stuck ==> g[n] * stuck != {}
    ensures Cycle(g, p)
  {
    var walk := Walk(g, stuck, |stuck| + 1);
    var i, j := Repeats(walk, stuck);
    p := walk[i..j];
    assert p[0] == walk[j] && p[|p| - 1] == walk[j - 1];
    assert walk[j - 1 + 1] in g[walk[j - 1]];
  }

  lemma {:induction false} Walk(g: Graph, stuck: set<Name>, length: nat) returns (w: seq<Name>)
    requires stuck != {} && stuck <= g.Keys && forall n :: n in stuck ==> g[n] * stuck != {}
    requires length >= 1
    ensures |w| == length && (forall n :: n in w ==> n in stuck)
    ensures forall i :: 0 <= i < |w| - 1 ==> w[i + 1] in g[w[i]]
  {
    if length == 1 {
      var n :| n in stuck;
      w := [n];
    } else {
      var front := Walk(g, stuck, length - 1);
      var last := front[|front| - 1];
      assert last in stuck;
      var n :| n in g[last] * stuck;
      w := front + [n];
    }
  }

  /** More steps than names: some name repeats. */
  lemma {:induction false} Repeats(w: seq<Name>, names: set<Name>) returns (i: nat, j: nat)
    requires |w| > |names| && forall n :: n in w ==> n in names
    ensures i < j < |w| && w[i] == w[j]
    decreases |names|
  {
    var last := w[|w| - 1];
    var front := w[..|w| - 1];
    if last in front {
      i := Position(front, last);
      j := |w| - 1;
    } else {
      i, j := Repeats(front, names - {last});
    }
  }

  // ----- the program -----

  /** The reference counts and the reverse edges the program collects from the foreign keys. */
  method CollectDependencies(ghost g: Graph, data: seq<Table>)
    returns (indegree: map<Name, int>, dependents: map<Name, seq<Name>>)
    requires GraphOf(g, data)
    ensures Collected(g, g.Keys, indegree, dependents)
  {
    hide NameSet, Elements, NoDuplicates;
    var names := set t | t in data :: t.name;
    NameSetMatches(data);
    indegree := map n | n in names :: 0;
    dependents := map n | n in names :: [];
    NothingCollected(g, indegree, dependents);
    hide Collected;
    AllElements(NamesOf(data));
    ghost var done: set<Name> := {};
    for i := 0 to |data|
      invariant done == Elements(NamesOf(data)[..i])
      invariant Collected(g, done, indegree, dependents)
    {
      var todo := Dependencies(data[i], names);
      FreshName(data, i);
      indegree, dependents := CollectTable(g, done, indegree, dependents, data[i].name, todo);
      ElementsExtend(NamesOf(data), i);
      done := done + {data[i].name};
    }
    AllElements(NamesOf(data));
    assert done == g.Keys;
  }

  lemma ElementsExtend(s: seq<Name>, i: nat)
    requires i < |s|
    ensures Elements(s[..i + 1]) == Elements(s[..i]) + {s[i]}
  {
    assert s[..i + 1] == s[..i] + [s[i]];
  }

  lemma FreshName(data: seq<Table>, i: nat)
    requires DistinctNames(data) && i < |data|
    ensures data[i].name !in Elements(NamesOf(data)[..i])
  {
    assert NamesOf(data)[i] == data[i].name;
  }

  lemma AllElements(s: seq<Name>)
    ensures Elements(s[..|s|]) == Elements(s) && Elements(s[..0]) == {}
  {
    assert s[..|s|] == s;
  }

  lemma NothingCollected(g: Graph, indegree: map<Name, int>, dependents: map<Name, seq<Name>>)
    requires indegree.Keys == g.Keys == dependents.Keys
      && forall n :: n in g ==> indegree[n] == 0 && dependents[n] == []
    ensures Collected(g, {}, indegree, dependents)
  {
  }

  lemma CollectedKeys(g: Graph, done: set<Name>, counts: map<Name, int>, children: map<Name, seq<Name>>, name: Name)
    requires Collected(g, done, counts, children) && name in g && name !in done
    ensures counts.Keys == g.Keys == children.Keys && counts[name] == 0
  {
  }

  /** The foreign keys of one table: its own count, and itself under each table it references. */
  method CollectTable(ghost g: Graph, ghost done: set<Name>, counts: map<Name, int>, children: map<Name, seq<Name>>,
                      name: Name, dependencies: set<Name>)
    returns (indegree: map<Name, int>, dependents: map<Name, seq<Name>>)
    requires Closed(g) && name in g && name !in done && dependencies == g[name]
    requires Collected(g, done, counts, children)
    ensures Collected(g, done + {name}, indegree, dependents)
  {
    CollectedKeys(g, done, counts, children, name);
    hide Collected;
    indegree, dependents := counts, children;
    var todo := dependencies;
    while todo != {}
      invariant todo <= g[name]
      invariant indegree == counts[name := |g[name]| - |todo|]
      invariant dependents.Keys == g.Keys
      invariant forall n :: n in g ==>
        dependents[n] == if n in g[name] && n !in todo then children[n] + [name] else children[n]
    {
      var dependency :| dependency in todo;
      todo := todo - {dependency};
      indegree := indegree[name := indegree[name] + 1];
      dependents := dependents[dependency := dependents[dependency] + [name]];
    }
    TableCollected(g, done, counts, children, name, indegree, dependents);
  }

  lemma TableCollected(g: Graph, done: set<Name>, counts: map<Name, int>, children: map<Name, seq<Name>>,
                       name: Name, indegree: map<Name, int>, dependents: map<Name, seq<Name>>)
    requires name in g && name !in done && Collected(g, done, counts, children)
    requires indegree == counts[name := |g[name]|] && dependents.Keys == g.Keys
    requires forall n :: n in g ==> dependents[n] == if n in g[name] then children[n] + [name] else children[n]
    ensures Collected(g, done + {name}, indegree, dependents)
  {
    hide NoDuplicates;
    forall n | n in g
      ensures NoDuplicates(dependents[n])
      ensures forall c :: c in dependents[n] <==> c in done + {name} && c in g && n in g[c]
    {
      assert name !in children[n];
      if n in g[name] {
        AppendFresh(children[n], name);
      }
    }
  }

  /** What has been collected from the tables in done. */
  ghost predicate Collected(g: Graph, done: set<Name>, indegree: map<Name, int>, dependents: map<Name, seq<Name>>) {
    && indegree.Keys == dependents.Keys == g.Keys
    && (forall n :: n in g ==> indegree[n] == if n in done then |g[n]| else 0)
    && (forall n :: n in g ==> NoDuplicates(dependents[n]))
    && (forall n, c :: n in g ==> (c in dependents[n] <==> c in done && c in g && n in g[c]))
  }

  lemma NameSetMatches(data: seq<Table>)
    ensures (set t | t in data :: t.name) == NameSet(data) == Elements(NamesOf(data))
  {
    forall t | t in data
      ensures t.name in NamesOf(data)
    {
      var i :| 0 <= i < |data| && data[i] == t;
      assert NamesOf(data)[i] == t.name;
    }
  }

  /** What the program relies on: g holds every table's dependencies under its name. */
  ghost predicate GraphOf(g: Graph, data: seq<Table>) {
    && Closed(g) && g.Keys == NameSet(data)
    && (forall n :: n in g ==> n !in g[n])
    && DistinctNames(data)
    && (forall i :: 0 <= i < |data| ==> data[i].name in g && g[data[i].name] == Dependencies(data[i], g.Keys))
  }

  lemma DependencyGraphOf(data: seq<Table>)
    requires DistinctNames(data)
    ensures GraphOf(DependencyGraph(data), data)
  {
    forall i | 0 <= i < |data|
      ensures data[i].name in DependencyGraph(data)
        && DependencyGraph(data)[data[i].name] == Dependencies(data[i], NameSet(data))
    {
      assert NamesOf(data)[i] == data[i].name;
      var n, direct := data[i].name, Dependencies(data[i], NameSet(data));
      forall r | r in NameSet(data) && r != n
        ensures References(data, n, r) <==> r in direct
      {
        if References(data, n, r) {
          var k :| 0 <= k < |data| && data[k].name == n && r in data[k].references;
          assert NamesOf(data)[k] == NamesOf(data)[i];
        }
      }
    }
  }

  // ----- Kahn's loop -----

  /** The loop's state: the queue is the sorted list of names ready after done, and each
      count is what a name still waits for. */
  ghost function Left(g: Graph, done: set<Name>, n: Name): nat
    requires n in g
  {
    |g[n] - done|
  }

  ghost predicate Waiting(g: Graph, done: set<Name>, indegree: map<Name, int>) {
    indegree.Keys == g.Keys && forall n :: n in g ==> indegree[n] == Left(g, done, n)
  }

  ghost predicate Queued(g: Graph, done: set<Name>, queue: seq<Name>) {
    && Sorted(queue) && NoDuplicates(queue)
    && (forall n :: n in queue <==> Ready(g, done, n))
  }

  ghost predicate ChildrenOf(g: Graph, name: Name, children: seq<Name>) {
    NoDuplicates(children) && forall c :: c in children <==> c in g && name in g[c]
  }

  /** The counts after some of the names that waited for name were released. */
  ghost predicate CountsReleased(g: Graph, done: set<Name>, name: Name, released: set<Name>, indegree: map<Name, int>) {
    indegree.Keys == g.Keys
    && forall n :: n in g ==> indegree[n] == Left(g, if n in released then done + {name} else done, n)
  }

  /** The queue after some of the names that waited for name were released. */
  ghost predicate QueueReleased(g: Graph, done: set<Name>, name: Name, released: set<Name>, queue: seq<Name>) {
    NoDuplicates(queue)
    && forall n :: n in queue <==> (n != name && Ready(g, done, n)) || (n in released && Ready(g, done + {name}, n))
  }

  /** One name leaves the queue; the names it held back are released. */
  method Release(ghost g: Graph, ghost done: set<Name>, name: Name, children: seq<Name>, counts: map<Name, int>,
      rest: seq<Name>)
    returns (indegree: map<Name, int>, queue: seq<Name>)
    requires name in g && name !in done && name !in g[name]
    requires Waiting(g, done, counts) && forall n :: n in done && n in g ==> g[n] <= done
    requires ChildrenOf(g, name, children)
    requires NoDuplicates(rest) && forall n :: n in rest <==> n != name && Ready(g, done, n)
    ensures Waiting(g, done + {name}, indegree)
    ensures Queued(g, done + {name}, queue)
  {
    var sorted := SortStrings(children);
    indegree, queue := ReleaseChildren(g, done, name, sorted, counts, rest);
    AllReleased(g, done, name, Elements(sorted), indegree, queue);
    queue := SortStrings(queue);
  }

  method ReleaseChildren(ghost g: Graph, ghost done: set<Name>, name: Name, sorted: seq<Name>, counts: map<Name, int>,
      rest: seq<Name>)
    returns (indegree: map<Name, int>, queue: seq<Name>)
    requires name in g && name !in done && name !in g[name] && forall n :: n in done && n in g ==> g[n] <= done
    requires ChildrenOf(g, name, sorted)
    requires CountsReleased(g, done, name, {}, counts) && QueueReleased(g, done, name, {}, rest)
    ensures CountsReleased(g, done, name, Elements(sorted), indegree)
    ensures QueueReleased(g, done, name, Elements(sorted), queue)
  {
    indegree, queue := counts, rest;
    ghost var released: set<Name> := {};
    AllElements(sorted);
    for i := 0 to |sorted|
      invariant released == Elements(sorted[..i])
      invariant CountsReleased(g, done, name, released, indegree) && QueueReleased(g, done, name, released, queue)
    {
      var child := sorted[i];
      assert child in sorted;
      ElementsExtend(sorted, i);
      FreshAt(sorted, i);
      ReleaseOne(g, done, name, released, indegree, queue, child);
      var count := indegree[child] - 1;
      indegree := indegree[child := count];
      if count == 0 {
        queue := queue + [child];
      }
      released := released + {child};
    }
    AllElements(sorted);
  }

  lemma FreshAt(s: seq<Name>, i: nat)
    requires NoDuplicates(s) && i < |s|
    ensures s[i] !in Elements(s[..i])
  {
  }

  lemma ReleaseOne(g: Graph, done: set<Name>, name: Name, released: set<Name>, indegree: map<Name, int>,
      queue: seq<Name>, child: Name)
    requires name !in done && name in g && name !in g[name] && forall n :: n in done && n in g ==> g[n] <= done
    requires CountsReleased(g, done, name, released, indegree) && QueueReleased(g, done, name, released, queue)
    requires child in g && name in g[child] && child !in released
    ensures CountsReleased(g, done, name, released + {child}, indegree[child := indegree[child] - 1])
    ensures QueueReleased(g, done, name, released + {child}, if indegree[child] == 1 then queue + [child] else queue)
  {
    assert child !in done + {name} && indegree[child] == Left(g, done, child);
    hide Left, Ready, QueueReleased;
    OneLess(g, child, done, name);
    CountsOne(g, done, name, released, indegree, child);
    hide CountsReleased;
    ReadyWhenZero(g, done + {name}, child);
    QueueOne(g, done, name, released, queue, child, indegree[child] == 1);
  }

  lemma CountsOne(g: Graph, done: set<Name>, name: Name, released: set<Name>, indegree: map<Name, int>, child: Name)
    requires CountsReleased(g, done, name, released, indegree) && child in g
    requires Left(g, done + {name}, child) == indegree[child] - 1
    ensures CountsReleased(g, done, name, released + {child}, indegree[child := indegree[child] - 1])
  {
    hide Left;
  }

  lemma QueueOne(g: Graph, done: set<Name>, name: Name, released: set<Name>, queue: seq<Name>, child: Name, ready: bool)
    requires QueueReleased(g, done, name, released, queue)
    requires child !in released && !Ready(g, done, child) && (ready <==> Ready(g, done + {name}, child))
    ensures QueueReleased(g, done, name, released + {child}, if ready then queue + [child] else queue)
  {
    assert child !in queue;
    if ready {
      AppendFresh(queue, child);
    }
  }

  lemma AllReleased(g: Graph, done: set<Name>, name: Name, released: set<Name>, indegree: map<Name, int>,
      queue: seq<Name>)
    requires CountsReleased(g, done, name, released, indegree) && QueueReleased(g, done, name, released, queue)
    requires forall n :: n in released <==> n in g && name in g[n]
    ensures Waiting(g, done + {name}, indegree)
    ensures NoDuplicates(queue) && forall n :: n in queue <==> Ready(g, done + {name}, n)
  {
    OthersUnchanged(g, done, name, released);
    forall n
      ensures n in queue <==> Ready(g, done + {name}, n)
    {
      if n in released && Ready(g, done, n) {
        assert name in done;
      }
    }
  }

  lemma OthersUnchanged(g: Graph, done: set<Name>, name: Name, released: set<Name>)
    requires forall n :: n in g ==> (n in released <==> name in g[n])
    ensures forall n :: n in g && n !in released ==> Left(g, done + {name}, n) == Left(g, done, n)
    ensures forall n :: n in g && n !in released ==> (Ready(g, done + {name}, n) <==> n != name && Ready(g, done, n))
  {
    forall n | n in g && n !in released
      ensures Left(g, done + {name}, n) == Left(g, done, n)
      ensures Ready(g, done + {name}, n) <==> n != name && Ready(g, done, n)
    {
      assert g[n] - (done + {name}) == g[n] - done;
    }
  }

  lemma ReadyWhenZero(g: Graph, done: set<Name>, n: Name)
    requires n in g && n !in done
    ensures Left(g, done, n) == 0 <==> Ready(g, done, n)
  {
    if g[n] <= done {
      assert g[n] - done == {};
    } else {
      var d :| d in g[n] && d !in done;
      assert d in g[n] - done;
    }
  }

  lemma OneLess(g: Graph, n: Name, done: set<Name>, name: Name)
    requires n in g && name in g[n] && name !in done
    ensures Left(g, done + {name}, n) == Left(g, done, n) - 1 && !Ready(g, done, n)
  {
    assert g[n] - done == (g[n] - (done + {name})) + {name};
  }

  method IndexByName(data: seq<Table>) returns (byName: map<Name, Table>)
    requires DistinctNames(data)
    ensures byName.Keys == NameSet(data) && forall i :: 0 <= i < |data| ==> byName[data[i].name] == data[i]
  {
    byName := map[];
    var i := 0;
    while i < |data|
      invariant 0 <= i <= |data|
      invariant byName.Keys == Elements(NamesOf(data)[..i])
      invariant forall k :: 0 <= k < i ==> data[k].name in byName && byName[data[k].name] == data[k]
    {
      assert NamesOf(data)[..i + 1] == NamesOf(data)[..i] + [data[i].name];
      forall k | 0 <= k < i
        ensures data[k].name != data[i].name
      {
        assert NamesOf(data)[k] != NamesOf(data)[i];
      }
      byName := byName[data[i].name := data[i]];
      i := i + 1;
    }
    assert NamesOf(data)[..|data|] == NamesOf(data);
    assert forall k :: 0 <= k < |data| ==> NamesOf(data)[k] in NameSet(data);
  }

  /** The names nothing holds back, sorted. */
  method InitialQueue(ghost g: Graph, indegree: map<Name, int>) returns (queue: seq<Name>)
    requires Waiting(g, {}, indegree)
    ensures Queued(g, {}, queue)
  {
    var unsorted: seq<Name> := [];
    var todo := indegree.Keys;
    while todo != {}
      invariant todo <= indegree.Keys && NoDuplicates(unsorted)
      invariant forall n :: n in unsorted <==> n in g && n !in todo && indegree[n] == 0
    {
      var name :| name in todo;
      todo := todo - {name};
      if indegree[name] == 0 {
        AppendFresh(unsorted, name);
        unsorted := unsorted + [name];
      }
    }
    forall n | n in g
      ensures indegree[n] == 0 <==> Ready(g, {}, n)
    {
      ReadyWhenZero(g, {}, n);
    }
    queue := SortStrings(unsorted);
  }

  lemma {:induction false} OnceEach<T>(s: seq<T>, x: T)
    requires NoDuplicates(s)
    ensures multiset(s)[x] == if x in s then 1 else 0
  {
    Multiplicity(s, x);
    if x in s {
      assert x in multiset(s);
    }
  }

  lemma SameTables(data: seq<Table>, ordered: seq<Table>)
    requires DistinctNames(data) && DistinctNames(ordered) && NameSet(ordered) == NameSet(data)
    requires forall t :: t in ordered ==> t in data
    ensures multiset(ordered) == multiset(data)
  {
    forall i, j | 0 <= i < j < |data| ensures data[i] != data[j] {
      assert NamesOf(data)[i] != NamesOf(data)[j];
    }
    forall i, j | 0 <= i < j < |ordered| ensures ordered[i] != ordered[j] {
      assert NamesOf(ordered)[i] != NamesOf(ordered)[j];
    }
    forall t | t in data
      ensures t in ordered
    {
      var i :| 0 <= i < |data| && data[i] == t;
      assert NamesOf(data)[i] in NameSet(ordered);
      var k :| 0 <= k < |ordered| && NamesOf(ordered)[k] == t.name;
      assert ordered[k] in data;
      var m :| 0 <= m < |data| && data[m] == ordered[k];
      assert NamesOf(data)[m] == NamesOf(data)[i];
    }
    forall t
      ensures multiset(ordered)[t] == multiset(data)[t]
    {
      OnceEach(data, t);
      OnceEach(ordered, t);
    }
  }

  /** With nothing ready, what is left over waits for itself. */
  lemma LeftoversStuck(g: Graph, done: set<Name>)
    requires Closed(g) && done <= g.Keys && done != g.Keys && forall n :: !Ready(g, done, n)
    ensures exists p :: Cycle(g, p)
  {
    var stuck := g.Keys - done;
    assert done + stuck == g.Keys;
    forall n | n in stuck
      ensures g[n] * stuck != {}
    {
      assert !Ready(g, done, n);
      var d :| d in g[n] && d !in done;
      assert d in g[n] * stuck;
    }
    var p := StuckHasCycle(g, stuck);
  }

  lemma GreedyExtends(g: Graph, order: seq<Name>, queue: seq<Name>)
    requires Greedy(g, order) && queue != [] && Queued(g, Elements(order), queue)
    ensures Greedy(g, order + [queue[0]])
  {
    var order' := order + [queue[0]];
    assert order'[..|order|] == order;
    assert forall i :: 0 <= i < |order| ==> order'[..i] == order[..i];
    assert queue[0] in queue;
    forall n | Ready(g, Elements(order), n)
      ensures Leq(queue[0], n)
    {
      assert n in queue;
    }
  }

  /** Kahn's loop: an order built greedily, complete exactly when nothing is left waiting. */
  method RunKahn(ghost g: Graph, data: seq<Table>) returns (ordered: seq<Table>)
    requires GraphOf(g, data)
    ensures Greedy(g, NamesOf(ordered)) && forall t :: t in ordered ==> t in data
    ensures forall n :: !Ready(g, Elements(NamesOf(ordered)), n)
  {
    var byName := IndexByName(data);
    var indegree, dependents := CollectDependencies(g, data);
    ghost var counted := indegree;
    CountsWait(g, g.Keys, indegree, dependents);
    var queue := InitialQueue(g, indegree);
    ordered := [];
    ghost var order: seq<Name>, done: set<Name> := [], {};
    GreedyFits(g, order, data);
    while queue != []
      invariant order == NamesOf(ordered) && done == Elements(order)
      invariant Greedy(g, order) && |order| <= |data|
      invariant forall t :: t in ordered ==> t in data
      invariant Waiting(g, done, indegree) && Queued(g, done, queue)
      decreases |data| - |ordered|
    {
      var name := queue[0];
      Advance(g, data, order, queue);
      CollectedAt(g, g.Keys, counted, dependents, name);
      indegree, queue := Release(g, done, name, dependents[name], indegree, queue[1..]);
      TableNamed(data, byName, name);
      Appended(ordered, byName[name]);
      ordered := ordered + [byName[name]];
      order, done := order + [name], done + {name};
    }
    assert forall n :: Ready(g, done, n) ==> n in queue;
  }

  /** Tables with seed rows, in foreign-key order: the least order that puts every table
      after the tables it references, or the cycle error exactly when there is a cycle. */
  method OrderSeedData(data: seq<Table>) returns (result: Result<seq<Table>>)
    requires DistinctNames(data)
    ensures result.Ok? ==>
              && multiset(result.value) == multiset(data)
              && Topological(DependencyGraph(data), NamesOf(result.value))
              && forall other :: Topological(DependencyGraph(data), other) ==> LexLeq(NamesOf(result.value), other)
    ensures result.ForeignKeyCycle? <==> exists p :: Cycle(DependencyGraph(data), p)
  {
    DependencyGraphOf(data);
    ghost var g := DependencyGraph(data);
    var ordered := RunKahn(g, data);
    KahnDecides(g, data, ordered);
    result := if |ordered| != |data| then ForeignKeyCycle else Ok(ordered);
  }

  lemma KahnDecides(g: Graph, data: seq<Table>, ordered: seq<Table>)
    requires GraphOf(g, data) && Greedy(g, NamesOf(ordered)) && forall t :: t in ordered ==> t in data
    requires forall n :: !Ready(g, Elements(NamesOf(ordered)), n)
    ensures |ordered| != |data| <==> exists p :: Cycle(g, p)
    ensures |ordered| == |data| ==> multiset(ordered) == multiset(data) && Topological(g, NamesOf(ordered))
    ensures |ordered| == |data| ==> forall other :: Topological(g, other) ==> LexLeq(NamesOf(ordered), other)
  {
    var order := NamesOf(ordered);
    GreedyFits(g, order, data);
    if |ordered| != |data| {
      DistinctSize(order);
      DistinctSize(NamesOf(data));
      assert Elements(NamesOf(data)) == g.Keys;
      LeftoversStuck(g, Elements(order));
    } else {
      Complete(g, data, ordered);
      forall p
        ensures !Cycle(g, p)
      {
        OrderedHasNoCycle(g, order, p);
      }
      forall other | Topological(g, other)
        ensures LexLeq(order, other)
      {
        GreedyIsLeast(g, order, other);
      }
    }
  }

  lemma CountsWait(g: Graph, done: set<Name>, indegree: map<Name, int>, dependents: map<Name, seq<Name>>)
    requires Collected(g, done, indegree, dependents) && done == g.Keys
    ensures Waiting(g, {}, indegree)
  {
    forall n | n in g
      ensures indegree[n] == Left(g, {}, n)
    {
      LeftAtFirst(g, n);
    }
  }

  lemma LeftAtFirst(g: Graph, n: Name)
    requires n in g
    ensures Left(g, {}, n) == |g[n]|
  {
    assert g[n] - {} == g[n];
  }

  lemma CollectedAt(g: Graph, done: set<Name>, indegree: map<Name, int>, dependents: map<Name, seq<Name>>, n: Name)
    requires Collected(g, done, indegree, dependents) && done == g.Keys && n in g
    ensures dependents.Keys == g.Keys && ChildrenOf(g, n, dependents[n])
  {
  }

  lemma Appended(ordered: seq<Table>, t: Table)
    ensures NamesOf(ordered + [t]) == NamesOf(ordered) + [t.name]
  {
  }

  /** Taking the head of the queue keeps the order greedy and within the data. */
  lemma Advance(g: Graph, data: seq<Table>, order: seq<Name>, queue: seq<Name>)
    requires GraphOf(g, data) && Greedy(g, order) && queue != [] && Queued(g, Elements(order), queue)
    ensures Ready(g, Elements(order), queue[0]) && NoDuplicates(queue[1..])
    ensures forall n :: n in queue[1..] <==> n != queue[0] && Ready(g, Elements(order), n)
    ensures forall n :: n in Elements(order) ==> n in g && g[n] <= Elements(order)
    ensures Greedy(g, order + [queue[0]]) && |order| + 1 <= |data|
    ensures Elements(order + [queue[0]]) == Elements(order) + {queue[0]}
  {
    RestOfQueue(g, Elements(order), queue);
    GreedyDone(g, order);
    GreedyExtends(g, order, queue);
    GreedyFits(g, order + [queue[0]], data);
  }

  lemma GreedyDone(g: Graph, order: seq<Name>)
    requires Greedy(g, order)
    ensures forall n :: n in Elements(order) ==> n in g && g[n] <= Elements(order)
  {
    forall n | n in Elements(order)
      ensures n in g && g[n] <= Elements(order)
    {
      var i :| 0 <= i < |order| && order[i] == n;
      assert Ready(g, Elements(order[..i]), order[i]);
    }
  }

  lemma TableNamed(data: seq<Table>, byName: map<Name, Table>, name: Name)
    requires name in NameSet(data)
    requires byName.Keys == NameSet(data)
      && forall i :: 0 <= i < |data| ==> data[i].name in byName && byName[data[i].name] == data[i]
    ensures byName[name].name == name && byName[name] in data
  {
    var i :| 0 <= i < |data| && NamesOf(data)[i] == name;
    assert data[i].name == name;
  }

  lemma RestOfQueue(g: Graph, done: set<Name>, queue: seq<Name>)
    requires Queued(g, done, queue) && queue != []
    ensures Ready(g, done, queue[0]) && NoDuplicates(queue[1..])
      && forall n :: n in queue[1..] <==> n != queue[0] && Ready(g, done, n)
  {
    assert queue == [queue[0]] + queue[1..];
    assert queue[0] !in queue[1..];
  }

  /** A greedy order names each table at most once, so it is no longer than the data. */
  lemma GreedyFits(g: Graph, order: seq<Name>, data: seq<Table>)
    requires Greedy(g, order) && GraphOf(g, data)
    ensures |order| <= |data| && Elements(order) <= g.Keys
    ensures |order| == |data| ==> Elements(order) == g.Keys
  {
    DistinctSize(order);
    DistinctSize(NamesOf(data));
    assert Elements(NamesOf(data)) == g.Keys;
    forall n | n in Elements(order)
      ensures n in g.Keys
    {
      var i :| 0 <= i < |order| && order[i] == n;
      assert Ready(g, Elements(order[..i]), order[i]);
    }
    SubsetSize(Elements(order), g.Keys);
  }

  lemma Complete(g: Graph, data: seq<Table>, ordered: seq<Table>)
    requires GraphOf(g, data) && Greedy(g, NamesOf(ordered)) && |ordered| == |data|
    requires forall t :: t in ordered ==> t in data
    ensures Topological(g, NamesOf(ordered)) && multiset(ordered) == multiset(data)
  {
    var order := NamesOf(ordered);
    GreedyFits(g, order, data);
    assert NameSet(ordered) == Elements(order) == NameSet(data);
    SameTables(data, ordered);
    forall i | 0 <= i < |order|
      ensures forall d :: d in g[order[i]] ==> d in order[..i]
    {
      assert Ready(g, Elements(order[..i]), order[i]);
    }
  }
}
