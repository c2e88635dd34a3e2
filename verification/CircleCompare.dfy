/** How a restore compares rows: as text.  A snapshot's numbers come back from JSON as
    floating point, the database's are integers, and large ones print differently. */
module CircleCompare {
  import opened CircleTables
  import opened Decimal

  /** One column's value.  A Float64 stands for an integer decoded from JSON. */
  datatype Value = Nil | Int64(n: int) | Float64(n: int) | Text(s: string)

  /** The columns of a row as a capture reads them from the database. */
  type Columns = (Key, Seen) -> seq<Value>

  /** From a million on, a floating-point number prints with an exponent. */
  const MILLION := 1000000

  // ----- fmt.Sprint -----

  function IntegerText(n: int): string {
    if n < 0 then "-" + Digits(-n) else Digits(n)
  }

  function Trimmed(s: string): string {
    if s != "" && s[|s| - 1] == '0' then Trimmed(s[..|s| - 1]) else s
  }

  function Mantissa(s: string): string
    requires s != ""
  {
    var rest := Trimmed(s[1..]);
    s[..1] + if rest == "" then "" else "." + rest
  }

  /** The shortest form with an exponent, such as 1.25e+06. */
  function Scientific(n: nat): string {
    Mantissa(Digits(n)) + "e" + ("+" + Padded(|Digits(n)| - 1, 2))
  }

  function FloatText(n: int): string {
    if -MILLION < n < MILLION then IntegerText(n)
    else if n < 0 then "-" + Scientific(-n)
    else Scientific(n)
  }

  function Sprint(v: Value): string {
    match v
    case Nil => "<nil>"
    case Int64(n) => IntegerText(n)
    case Float64(n) => FloatText(n)
    case Text(s) => s
  }

  // ----- what the texts tell apart -----

  lemma {:induction false} TrimmedZeros(s: string)
    ensures |Trimmed(s)| <= |s| && s == Trimmed(s) + Zeros(|s| - |Trimmed(s)|)
  {
    if s != "" && s[|s| - 1] == '0' {
      TrimmedZeros(s[..|s| - 1]);
      assert s == s[..|s| - 1] + "0";
    }
  }

  lemma NoExponent(n: nat)
    ensures 'e' !in Digits(n) && 'e' !in Mantissa(Digits(n))
  {
    var d := Digits(n);
    TrimmedZeros(d[1..]);
    assert forall i :: 0 <= i < |Trimmed(d[1..])| ==> Trimmed(d[1..])[i] == d[1..][i];
    assert forall i :: 0 <= i < |d| ==> IsDigit(d[i]);
  }

  lemma FirstExponent(a: string, x: string)
    requires 'e' !in a
    ensures (a + "e" + x)[|a|] == 'e' && forall i :: 0 <= i < |a| ==> (a + "e" + x)[i] != 'e'
  {
    assert forall i :: 0 <= i < |a| ==> (a + "e" + x)[i] == a[i];
  }

  lemma SplitAtExponent(a: string, x: string, b: string, y: string)
    requires 'e' !in a && 'e' !in b && a + "e" + x == b + "e" + y
    ensures a == b && x == y
  {
    var s, t := a + "e" + x, b + "e" + y;
    FirstExponent(a, x);
    FirstExponent(b, y);
    assert a == s[..|a|] && b == t[..|b|];
    assert x == s[|a| + 1..] && y == t[|b| + 1..];
  }

  /** A mantissa and a length give the digits back. */
  lemma MantissaInjective(s: string, t: string)
    requires |s| == |t| > 0 && Mantissa(s) == Mantissa(t)
    ensures s == t
  {
    var a, b := Trimmed(s[1..]), Trimmed(t[1..]);
    TrimmedZeros(s[1..]);
    TrimmedZeros(t[1..]);
    assert Mantissa(s)[0] == s[0] && Mantissa(t)[0] == t[0];
    assert a != "" ==> a == Mantissa(s)[2..];
    assert b != "" ==> b == Mantissa(t)[2..];
    assert a == b;
    assert s == s[..1] + s[1..] && t == t[..1] + t[1..];
  }

  lemma ScientificInjective(a: nat, b: nat)
    requires Scientific(a) == Scientific(b)
    ensures a == b
  {
    var x, y := Padded(|Digits(a)| - 1, 2), Padded(|Digits(b)| - 1, 2);
    NoExponent(a);
    NoExponent(b);
    SplitAtExponent(Mantissa(Digits(a)), "+" + x, Mantissa(Digits(b)), "+" + y);
    assert x == ("+" + x)[1..] && y == ("+" + y)[1..];
    ValueOfPadded(|Digits(a)| - 1, 2);
    ValueOfPadded(|Digits(b)| - 1, 2);
    MantissaInjective(Digits(a), Digits(b));
    DigitsInjective(a, b);
  }

  lemma IntegerTextInjective(a: int, b: int)
    requires IntegerText(a) == IntegerText(b)
    ensures a == b
  {
    assert IsDigit(Digits(if a < 0 then -a else a)[0]) && IsDigit(Digits(if b < 0 then -b else b)[0]);
    if a < 0 && b < 0 {
      assert Digits(-a) == IntegerText(a)[1..] == Digits(-b);
      DigitsInjective(-a, -b);
    } else if a >= 0 && b >= 0 {
      DigitsInjective(a, b);
    }
  }

  lemma NumberText(n: int)
    ensures 'e' !in IntegerText(n) && IntegerText(n) != "" && (IntegerText(n)[0] == '-' <==> n < 0)
    ensures IntegerText(n)[0] == '-' || IsDigit(IntegerText(n)[0])
  {
    NoExponent(if n < 0 then -n else n);
    assert IsDigit(Digits(if n < 0 then -n else n)[0]);
  }

  lemma ExponentText(n: int)
    requires !(-MILLION < n < MILLION)
    ensures 'e' in FloatText(n) && (FloatText(n)[0] == '-' <==> n < 0)
    ensures FloatText(n)[0] == '-' || IsDigit(FloatText(n)[0])
  {
    var m: nat := if n < 0 then -n else n;
    assert IsDigit(Digits(m)[0]) && Scientific(m)[0] == Digits(m)[0];
    assert Scientific(m)[|Mantissa(Digits(m))|] == 'e';
  }

  lemma FloatTextInjective(a: int, b: int)
    requires FloatText(a) == FloatText(b)
    ensures a == b
  {
    hide Scientific, IntegerText;
    NumberText(a);
    NumberText(b);
    if -MILLION < a < MILLION && -MILLION < b < MILLION {
      IntegerTextInjective(a, b);
    } else if -MILLION < a < MILLION {
      ExponentText(b);
    } else if -MILLION < b < MILLION {
      ExponentText(a);
    } else {
      ExponentText(a);
      ExponentText(b);
      SignedInjective(a, b);
    }
  }

  lemma SignedInjective(a: int, b: int)
    requires !(-MILLION < a < MILLION) && !(-MILLION < b < MILLION)
    requires FloatText(a) == FloatText(b) && (a < 0 <==> b < 0)
    ensures a == b
  {
    hide Scientific;
    if a < 0 {
      assert Scientific(-a) == FloatText(a)[1..] == FloatText(b)[1..] == Scientific(-b);
      ScientificInjective(-a, -b);
    } else {
      ScientificInjective(a, b);
    }
  }

  predicate Large(v: Value) {
    (v.Int64? || v.Float64?) && !(-MILLION < v.n < MILLION)
  }

  /** What a value becomes in a snapshot: written as JSON and read back. */
  function ReadBack(v: Value): Value {
    if v.Int64? then Float64(v.n) else v
  }

  /** Two values of one column: numbers or texts, or absent, and no text spelt as an absence prints. */
  predicate SameColumn(v: Value, w: Value) {
    && !v.Float64? && !w.Float64?
    && !(v.Int64? && w.Text?) && !(v.Text? && w.Int64?)
    && !(v.Nil? && w == Text("<nil>")) && !(w.Nil? && v == Text("<nil>"))
  }

  /** Two values read back print alike exactly when they are the same. */
  lemma ReadBackAlike(v: Value, w: Value)
    requires SameColumn(v, w)
    ensures Sprint(ReadBack(v)) == Sprint(ReadBack(w)) <==> v == w
  {
    if v.Int64? && w.Int64? {
      if FloatText(v.n) == FloatText(w.n) {
        FloatTextInjective(v.n, w.n);
      }
    } else if v.Int64? {
      FloatIsNoNil(v.n);
    } else if w.Int64? {
      FloatIsNoNil(w.n);
    }
  }

  lemma FloatIsNoNil(n: int)
    ensures FloatText(n) != "<nil>" && IntegerText(n) != "<nil>"
  {
    NumberText(n);
    if !(-MILLION < n < MILLION) {
      ExponentText(n);
    }
  }

  /** One read back and one from the database print alike exactly when they are the same and
      no number of a million or more. */
  lemma StoredAlike(v: Value, w: Value)
    requires SameColumn(v, w)
    ensures Sprint(ReadBack(v)) == Sprint(w) <==> v == w && !Large(v)
  {
    if v.Int64? && w.Int64? {
      NumberText(w.n);
      if Large(v) {
        ExponentText(v.n);
      } else if IntegerText(v.n) == IntegerText(w.n) {
        IntegerTextInjective(v.n, w.n);
      }
    } else if v.Int64? {
      FloatIsNoNil(v.n);
    } else if w.Int64? {
      FloatIsNoNil(w.n);
    }
  }

  // ----- rows -----

  /** The captured columns tell rows apart, and each column is of one kind. */
  ghost predicate Faithful(cols: Columns) {
    forall k: Key, x: Seen, y: Seen ::
      SameColumns(cols(k, x), cols(k, y)) && (cols(k, x) == cols(k, y) ==> x == y)
  }

  predicate SameColumns(a: seq<Value>, b: seq<Value>) {
    |a| == |b| > 0 && forall i :: 0 <= i < |a| ==> SameColumn(a[i], b[i])
  }

  // ----- one such reading of the columns: the owner as a number, the rest as text -----

  function OptionText(o: Option<nat>): string {
    if o.Some? then Digits(o.value) else ""
  }

  function FlagText(flag: bool): string {
    if flag then "true" else "false"
  }

  function CellTexts(c: Cells): (texts: seq<string>)
    ensures |texts| == 6
  {
    match c
    case Plain(value) => ["plain", "", "", "", Digits(value), ""]
    case External(primary, value) => ["external", FlagText(primary), "", "", Digits(value), ""]
    case Catalog(lastSeen, value) => ["catalog", "", Digits(lastSeen), "", Digits(value), ""]
    case Personal(rating, note, favorite, lastViewed, stamps) =>
      ["personal", FlagText(favorite), OptionText(rating), OptionText(lastViewed), Digits(stamps), note]
    case Follow(watch, activated, stamps) => ["follow", FlagText(watch), OptionText(activated), "", Digits(stamps), ""]
    case Review(merged, value) => ["review", FlagText(merged), "", "", Digits(value), ""]
  }

  function Reading(k: Key, x: Seen): seq<Value> {
    var texts := [Digits(x.a), Digits(x.b)] + CellTexts(x.cells);
    [Int64(x.owner)] + seq(8, i requires 0 <= i < 8 => Text(texts[i]))
  }

  lemma OptionTextInjective(o: Option<nat>, p: Option<nat>)
    requires OptionText(o) == OptionText(p)
    ensures o == p
  {
    if o.Some? && p.Some? {
      DigitsInjective(o.value, p.value);
    }
  }

  function Numbers(c: Cells): (nat, nat) {
    match c
    case Plain(value) => (0, value)
    case External(_, value) => (0, value)
    case Catalog(lastSeen, value) => (lastSeen, value)
    case Personal(_, _, _, _, stamps) => (0, stamps)
    case Follow(_, _, stamps) => (0, stamps)
    case Review(_, value) => (0, value)
  }

  lemma CellTextsInjective(c: Cells, d: Cells)
    requires CellTexts(c) == CellTexts(d)
    ensures c == d
  {
    assert CellTexts(c)[0] == CellTexts(d)[0] && CellTexts(c)[1] == CellTexts(d)[1]
      && CellTexts(c)[2] == CellTexts(d)[2];
    assert CellTexts(c)[3] == CellTexts(d)[3] && CellTexts(c)[4] == CellTexts(d)[4]
      && CellTexts(c)[5] == CellTexts(d)[5];
    hide Digits;
    ValueOfDigits(Numbers(c).0);
    ValueOfDigits(Numbers(d).0);
    ValueOfDigits(Numbers(c).1);
    ValueOfDigits(Numbers(d).1);
    if c.Personal? && d.Personal? {
      OptionTextInjective(c.rating, d.rating);
      OptionTextInjective(c.lastViewed, d.lastViewed);
    } else if c.Follow? && d.Follow? {
      OptionTextInjective(c.activated, d.activated);
    }
  }

  lemma ReadingFaithful()
    ensures Faithful(Reading)
  {
    forall k: Key, x: Seen, y: Seen
      ensures SameColumns(Reading(k, x), Reading(k, y)) && (Reading(k, x) == Reading(k, y) ==> x == y)
    {
      if Reading(k, x) == Reading(k, y) {
        ReadingInjective(k, x, y);
      }
    }
  }

  lemma ReadingInjective(k: Key, x: Seen, y: Seen)
    requires Reading(k, x) == Reading(k, y)
    ensures x == y
  {
    hide Digits, CellTexts;
    var a, b := [Digits(x.a), Digits(x.b)] + CellTexts(x.cells), [Digits(y.a), Digits(y.b)] + CellTexts(y.cells);
    assert Reading(k, x)[0] == Int64(x.owner) && Reading(k, y)[0] == Int64(y.owner);
    forall i | 0 <= i < 8
      ensures a[i] == b[i]
    {
      assert Reading(k, x)[i + 1] == Text(a[i]) && Reading(k, y)[i + 1] == Text(b[i]);
    }
    assert a == b;
    assert CellTexts(x.cells) == a[2..] == b[2..] == CellTexts(y.cells);
    DigitsInjective(x.a, y.a);
    DigitsInjective(x.b, y.b);
    CellTextsInjective(x.cells, y.cells);
  }

  lemma ReadingLarge(k: Key, x: Seen)
    ensures HoldsLarge(Reading(k, x)) <==> x.owner >= MILLION
  {
    assert Reading(k, x)[0] == Int64(x.owner);
    assert forall i :: 0 < i < |Reading(k, x)| ==> Reading(k, x)[i].Text?;
  }

  // ----- whole rows compared -----

  /** A row's columns; a key that has no row has none. */
  function Values(cols: Columns, k: Key, o: Option<Seen>): seq<Value> {
    if o.Some? then cols(k, o.value) else []
  }

  function ReadBackAll(values: seq<Value>): seq<Value> {
    seq(|values|, i requires 0 <= i < |values| => ReadBack(values[i]))
  }

  function Texts(values: seq<Value>): seq<string> {
    seq(|values|, i requires 0 <= i < |values| => Sprint(values[i]))
  }

  /** Whether a row holds a number of a million or more. */
  predicate HoldsLarge(values: seq<Value>) {
    exists i :: 0 <= i < |values| && Large(values[i])
  }

  method Normalize(values: seq<Value>) returns (texts: seq<string>)
    ensures texts == Texts(values)
  {
    texts := [];
    for i := 0 to |values|
      invariant texts == Texts(values)[..i]
    {
      texts := texts + [Sprint(values[i])];
    }
  }

  method EqualRows(a: seq<Value>, b: seq<Value>) returns (equal: bool)
    ensures equal <==> Texts(a) == Texts(b)
  {
    var x := Normalize(a);
    var y := Normalize(b);
    return x == y;
  }

  lemma TextsAgree(a: seq<Value>, b: seq<Value>)
    requires |a| == |b|
    ensures Texts(a) == Texts(b) <==> forall i :: 0 <= i < |a| ==> Sprint(a[i]) == Sprint(b[i])
  {
    hide Sprint;
    if Texts(a) == Texts(b) {
      forall i | 0 <= i < |a|
        ensures Sprint(a[i]) == Sprint(b[i])
      {
        assert Texts(a)[i] == Texts(b)[i];
      }
    }
  }

  /** Two rows of a snapshot read alike exactly when they are the same row, or both are missing. */
  lemma SnapshotRowsAlike(cols: Columns, k: Key, o: Option<Seen>, p: Option<Seen>)
    requires Faithful(cols)
    ensures Texts(ReadBackAll(Values(cols, k, o))) == Texts(ReadBackAll(Values(cols, k, p))) <==> o == p
  {
    hide Sprint, ReadBack, SameColumn;
    RowFacts(cols, k, o, p);
    if o.Some? && p.Some? {
      var a, b := cols(k, o.value), cols(k, p.value);
      TextsAgree(ReadBackAll(a), ReadBackAll(b));
      forall i | 0 <= i < |a|
        ensures Sprint(ReadBackAll(a)[i]) == Sprint(ReadBackAll(b)[i]) <==> a[i] == b[i]
      {
        ReadBackAlike(a[i], b[i]);
      }
    } else if o.Some? || p.Some? {
      DifferentLengths(cols, k, o, p);
    }
  }

  lemma RowFacts(cols: Columns, k: Key, o: Option<Seen>, p: Option<Seen>)
    requires Faithful(cols)
    ensures o.Some? ==> cols(k, o.value) != []
    ensures p.Some? ==> cols(k, p.value) != []
    ensures o.Some? && p.Some? ==> SameColumns(cols(k, o.value), cols(k, p.value))
    ensures o.Some? && p.Some? ==> (cols(k, o.value) == cols(k, p.value) <==> o == p)
  {
    hide SameColumn;
    assert o.Some? ==> SameColumns(cols(k, o.value), cols(k, o.value));
    assert p.Some? ==> SameColumns(cols(k, p.value), cols(k, p.value));
  }

  lemma DifferentLengths(cols: Columns, k: Key, o: Option<Seen>, p: Option<Seen>)
    requires |Values(cols, k, o)| != |Values(cols, k, p)|
    ensures Texts(ReadBackAll(Values(cols, k, o))) != Texts(ReadBackAll(Values(cols, k, p)))
    ensures Texts(ReadBackAll(Values(cols, k, o))) != Texts(Values(cols, k, p))
  {
    assert |Texts(ReadBackAll(Values(cols, k, o)))| == |Values(cols, k, o)|;
    assert |Texts(ReadBackAll(Values(cols, k, p)))| == |Texts(Values(cols, k, p))| == |Values(cols, k, p)|;
  }

  /** A row of a snapshot and one in the database read alike exactly when they are the same
      row and hold no number of a million or more. */
  lemma StoredRowsAlike(cols: Columns, k: Key, o: Option<Seen>, p: Option<Seen>)
    requires Faithful(cols)
    ensures Texts(Values(cols, k, p)) == Texts(ReadBackAll(Values(cols, k, o))) <==>
      o == p && !HoldsLarge(Values(cols, k, o))
  {
    hide Sprint, ReadBack, SameColumn, Large;
    RowFacts(cols, k, o, p);
    if o.Some? && p.Some? {
      var a, b := cols(k, o.value), cols(k, p.value);
      TextsAgree(ReadBackAll(a), b);
      forall i | 0 <= i < |a|
        ensures Sprint(ReadBackAll(a)[i]) == Sprint(b[i]) <==> a[i] == b[i] && !Large(a[i])
      {
        StoredAlike(a[i], b[i]);
      }
    } else if o.Some? || p.Some? {
      DifferentLengths(cols, k, o, p);
    }
  }
}
