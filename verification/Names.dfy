/** The byte-wise order of Go strings, and sort.Strings. */
module Names {
  /** A name, compared byte by byte. */
  datatype Name = Name(text: string)

  predicate TextLess(a: string, b: string) {
    if b == [] then false
    else if a == [] then true
    else a[0] < b[0] || (a[0] == b[0] && TextLess(a[1..], b[1..]))
  }

  predicate Less(a: Name, b: Name) {
    TextLess(a.text, b.text)
  }

  predicate Leq(a: Name, b: Name) {
    a == b || Less(a, b)
  }

  lemma {:induction false} TextLessTotal(a: string, b: string)
    ensures TextLess(a, b) || TextLess(b, a) || a == b
  {
    if a != [] && b != [] && a[0] == b[0] {
      TextLessTotal(a[1..], b[1..]);
      assert a == [a[0]] + a[1..] && b == [b[0]] + b[1..];
    }
  }

  lemma {:induction false} TextLessTransitive(a: string, b: string, c: string)
    requires TextLess(a, b) && TextLess(b, c)
    ensures TextLess(a, c)
  {
    if a != [] && a[0] == b[0] == c[0] {
      TextLessTransitive(a[1..], b[1..], c[1..]);
    }
  }

  lemma {:induction false} TextLessIrreflexive(a: string)
    ensures !TextLess(a, a)
  {
    if a != [] {
      TextLessIrreflexive(a[1..]);
    }
  }

  /** Byte order is a strict total order on names. */
  lemma LessIsTotalOrder(a: Name, b: Name, c: Name)
    ensures Less(a, b) || Less(b, a) || a == b
    ensures Less(a, b) && Less(b, c) ==> Less(a, c)
    ensures !Less(a, a)
  {
    TextLessTotal(a.text, b.text);
    TextLessIrreflexive(a.text);
    if Less(a, b) && Less(b, c) {
      TextLessTransitive(a.text, b.text, c.text);
    }
  }

  ghost predicate Sorted(s: seq<Name>) {
    forall i, j :: 0 <= i < j < |s| ==> Leq(s[i], s[j])
  }

  ghost predicate NoDuplicates<T>(s: seq<T>) {
    forall i, j :: 0 <= i < j < |s| ==> s[i] != s[j]
  }

  /** s sorted in place, one element at a time. */
  method SortStrings(s: seq<Name>) returns (r: seq<Name>)
    ensures Sorted(r) && multiset(r) == multiset(s)
    ensures (forall x :: x in r <==> x in s) && (NoDuplicates(s) ==> NoDuplicates(r))
  {
    r := [];
    var i := 0;
    while i < |s|
      invariant 0 <= i <= |s|
      invariant Sorted(r) && multiset(r) == multiset(s[..i])
    {
      assert s[..i + 1] == s[..i] + [s[i]];
      r := Insert(r, s[i]);
      i := i + 1;
    }
    assert s[..|s|] == s;
    SameElements(s, r);
  }

  method Insert(s: seq<Name>, x: Name) returns (r: seq<Name>)
    requires Sorted(s)
    ensures Sorted(r) && multiset(r) == multiset(s + [x])
  {
    var i := 0;
    while i < |s| && Leq(s[i], x)
      invariant 0 <= i <= |s|
      invariant forall j :: 0 <= j < i ==> Leq(s[j], x)
    {
      i := i + 1;
    }
    r := s[..i] + [x] + s[i..];
    assert s == s[..i] + s[i..];
    forall j | i <= j < |s|
      ensures Leq(x, s[j])
    {
      LessIsTotalOrder(x, s[i], s[j]);
    }
  }

  lemma AppendFresh<T>(s: seq<T>, x: T)
    requires NoDuplicates(s) && x !in s
    ensures NoDuplicates(s + [x]) && forall y :: y in s + [x] <==> y in s || y == x
  {
  }

  lemma SubsetSize<T>(a: set<T>, b: set<T>)
    requires a <= b
    ensures |a| <= |b| && (|a| == |b| ==> a == b)
  {
    assert b == a + (b - a);
    if a != b {
      var x :| x in b - a;
      assert |b - a| >= 1;
    }
  }

  lemma SameElements<T>(a: seq<T>, b: seq<T>)
    requires multiset(a) == multiset(b)
    ensures |a| == |b| && (forall x :: x in a <==> x in b)
    ensures NoDuplicates(a) ==> NoDuplicates(b)
  {
    assert |a| == |multiset(a)| == |multiset(b)| == |b|;
    forall x
      ensures x in a <==> x in b
    {
      assert x in a <==> x in multiset(a);
      assert x in b <==> x in multiset(b);
    }
    if NoDuplicates(a) {
      forall i, j | 0 <= i < j < |b|
        ensures b[i] != b[j]
      {
        Multiplicity(a, b[i]);
        if b[i] == b[j] {
          Twice(b, i, j);
        }
      }
    }
  }

  lemma {:induction false} Multiplicity<T>(s: seq<T>, x: T)
    requires NoDuplicates(s)
    ensures multiset(s)[x] <= 1
  {
    if s != [] {
      var front := s[..|s| - 1];
      Multiplicity(front, x);
      assert s == front + [s[|s| - 1]];
      if x == s[|s| - 1] {
        assert x !in front;
        assert multiset(front)[x] == 0;
      }
    }
  }

  lemma Twice<T>(s: seq<T>, i: nat, j: nat)
    requires i < j < |s| && s[i] == s[j]
    ensures multiset(s)[s[i]] >= 2
  {
    assert s == s[..i] + [s[i]] + s[i + 1..j] + [s[j]] + s[j + 1..];
  }
}
