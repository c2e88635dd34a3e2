/** What one Translate with AI request names and carries. */
module TranslationRequests {
  import opened Decimal

  datatype Category = Title | Description | Tag | FileName | FolderName | Lyrics

  function CategoryName(c: Category): string {
    match c
    case Title => "title"
    case Description => "description"
    case Tag => "tag"
    case FileName => "file_name"
    case FolderName => "folder_name"
    case Lyrics => "lyrics"
  }

  function CategoryOf(name: string): Category {
    if name == "title" then Title
    else if name == "description" then Description
    else if name == "tag" then Tag
    else if name == "file_name" then FileName
    else if name == "folder_name" then FolderName
    else Lyrics
  }

  /** What a key names within a language and category. */
  function ObjectName(category: Category, work: nat, subject: string): string {
    if category == Tag then subject else Digits(work) + "|" + subject
  }

  /** translationDedupKey */
  function DedupKey(language: string, category: Category, work: nat, subject: string): string {
    language + "|" + (CategoryName(category) + "|" + ObjectName(category, work, subject))
  }

  function FirstBar(s: string): nat {
    if s == [] || s[0] == '|' then 0 else 1 + FirstBar(s[1..])
  }

  lemma {:induction false} FirstBarAfter(a: string, x: string)
    requires '|' !in a
    ensures FirstBar(a + "|" + x) == |a|
  {
    if a != [] {
      FirstBarAfter(a[1..], x);
      assert (a + "|" + x)[1..] == a[1..] + "|" + x;
    }
  }

  lemma SplitAtBar(a: string, x: string, b: string, y: string)
    requires '|' !in a && '|' !in b && a + "|" + x == b + "|" + y
    ensures a == b && x == y
  {
    FirstBarAfter(a, x);
    FirstBarAfter(b, y);
    var s, t := a + "|" + x, b + "|" + y;
    assert a == s[..|a|] && b == t[..|b|];
    assert x == s[|a| + 1..] && y == t[|b| + 1..];
  }

  lemma CategoryNamed(c: Category)
    ensures CategoryOf(CategoryName(c)) == c && '|' !in CategoryName(c)
  {
  }

  /** A key names one object: a shared tag name whatever the work, anything else within
      its work.  No target language contains a bar. */
  lemma KeyNamesObject(l1: string, c1: Category, w1: nat, s1: string, l2: string, c2: Category, w2: nat, s2: string)
    requires '|' !in l1 && '|' !in l2
    ensures DedupKey(l1, c1, w1, s1) == DedupKey(l2, c2, w2, s2) <==>
      l1 == l2 && c1 == c2 && s1 == s2 && (c1 == Tag || w1 == w2)
  {
    if DedupKey(l1, c1, w1, s1) == DedupKey(l2, c2, w2, s2) {
      var o1, o2 := ObjectName(c1, w1, s1), ObjectName(c2, w2, s2);
      CategoryNamed(c1);
      CategoryNamed(c2);
      SplitAtBar(l1, CategoryName(c1) + "|" + o1, l2, CategoryName(c2) + "|" + o2);
      SplitAtBar(CategoryName(c1), o1, CategoryName(c2), o2);
      if c1 != Tag {
        SplitAtBar(Digits(w1), s1, Digits(w2), s2);
        DigitsInjective(w1, w2);
      }
    }
  }

  // ----- batches of names -----

  const BATCH_NAMES := 64
  const BATCH_BYTES := 8192

  function Bytes(sizes: seq<nat>, from: nat, end: nat): nat
    requires from <= end <= |sizes|
  {
    if from == end then 0 else Bytes(sizes, from, end - 1) + sizes[end - 1]
  }

  /** A request is never empty and never too large, except that one name may exceed the bytes alone. */
  predicate Fits(sizes: seq<nat>, from: nat, end: nat)
    requires from <= end <= |sizes|
  {
    from < end && end - from <= BATCH_NAMES && (end - from == 1 || Bytes(sizes, from, end) <= BATCH_BYTES)
  }

  /** The batches cover the names in order, each as large as it may be. */
  predicate Tiles(sizes: seq<nat>, batches: seq<(nat, nat)>, end: nat) {
    && (forall b :: 0 <= b < |batches| ==>
         batches[b].0 <= batches[b].1 <= |sizes| && Fits(sizes, batches[b].0, batches[b].1))
    && (forall b :: 0 <= b < |batches| - 1 ==> batches[b].1 == batches[b + 1].0)
    && (if batches == [] then end == 0 else batches[0].0 == 0 && batches[|batches| - 1].1 == end)
  }

  predicate Full(sizes: seq<nat>, from: nat, end: nat)
    requires from <= end < |sizes|
  {
    end - from >= BATCH_NAMES || Bytes(sizes, from, end) + sizes[end] > BATCH_BYTES
  }

  /** No batch but the last could have taken the next name. */
  predicate AllFull(sizes: seq<nat>, batches: seq<(nat, nat)>) {
    forall b :: 0 <= b < |batches| ==> batches[b].0 <= batches[b].1 < |sizes| && Full(sizes, batches[b].0, batches[b].1)
  }

  lemma TilesExtend(sizes: seq<nat>, batches: seq<(nat, nat)>, start: nat, end: nat)
    requires start <= end <= |sizes| && Tiles(sizes, batches, start) && Fits(sizes, start, end)
    ensures Tiles(sizes, batches + [(start, end)], end)
  {
    var more := batches + [(start, end)];
    forall b | 0 <= b < |more| - 1
      ensures more[b].1 == more[b + 1].0
    {
      if b < |batches| - 1 {
        assert batches[b].1 == batches[b + 1].0;
      }
    }
  }

  lemma FullExtend(sizes: seq<nat>, batches: seq<(nat, nat)>, start: nat, end: nat)
    requires start <= end < |sizes| && AllFull(sizes, batches) && Full(sizes, start, end)
    ensures AllFull(sizes, batches + [(start, end)])
  {
  }

  lemma NoBatches(sizes: seq<nat>)
    ensures Tiles(sizes, [], 0) && AllFull(sizes, [])
  {
  }

  /** Batches that were all full leave a name over. */
  lemma NameLeft(sizes: seq<nat>, batches: seq<(nat, nat)>, end: nat)
    requires Tiles(sizes, batches, end) && AllFull(sizes, batches)
    ensures batches == [] || end < |sizes|
  {
  }

  /** nameBatches, over the byte length of each name. */
  method NameBatches(sizes: seq<nat>) returns (batches: seq<(nat, nat)>)
    ensures Tiles(sizes, batches, |sizes|)
    ensures batches != [] ==> AllFull(sizes, batches[..|batches| - 1])
  {
    hide Tiles, AllFull;
    NoBatches(sizes);
    batches := [];
    var start: nat, size: nat := 0, 0;
    for index := 0 to |sizes|
      invariant start <= index && size == Bytes(sizes, start, index)
      invariant if index == 0 then start == 0 else Fits(sizes, start, index)
      invariant Tiles(sizes, batches, start) && AllFull(sizes, batches)
    {
      if index > start && (index - start >= BATCH_NAMES || size + sizes[index] > BATCH_BYTES) {
        TilesExtend(sizes, batches, start, index);
        FullExtend(sizes, batches, start, index);
        batches := batches + [(start, index)];
        start, size := index, 0;
      }
      size := size + sizes[index];
    }
    if start < |sizes| {
      TilesExtend(sizes, batches, start, |sizes|);
      ghost var full := batches;
      batches := batches + [(start, |sizes|)];
      assert batches[..|batches| - 1] == full;
    } else {
      NameLeft(sizes, batches, start);
    }
  }
}
