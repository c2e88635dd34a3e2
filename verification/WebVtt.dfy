/** Cue text and WebVTT documents, with the reader their form is meant for.

    The reader follows the syntax of a WebVTT file body and of timestamps, section 4.1
    of W3C WebVTT: The Web Video Text Tracks Format. */
module WebVtt {
  import opened Decimal

  datatype Option<T> = None | Some(value: T)

  datatype Cue = Cue(start: nat, end: nat, text: string)

  // ----- the program: timestamps and documents -----

  /** vttTime: hours may take more than two digits. */
  function VttTime(ms: nat): string {
    Padded(ms / 3_600_000, 2) + ":"
      + (Padded(ms / 60_000 % 60, 2) + ":" + (Padded(ms / 1000 % 60, 2) + "." + Padded(ms % 1000, 3)))
  }

  function Timing(c: Cue): string {
    VttTime(c.start) + " --> " + VttTime(c.end)
  }

  function Blocks(cues: seq<Cue>): string {
    if cues == [] then ""
    else "\n" + (Timing(cues[0]) + "\n" + (cues[0].text + "\n" + Blocks(cues[1..])))
  }

  /** The document RenderVTT builds. */
  function Rendered(cues: seq<Cue>): string {
    "WEBVTT" + "\n" + Blocks(cues)
  }

  method RenderVtt(cues: seq<Cue>) returns (document: string)
    ensures document == Rendered(cues)
  {
    hide Blocks, Timing;
    document := "WEBVTT\n";
    assert cues[0..] == cues;
    var i := 0;
    while i < |cues|
      invariant 0 <= i <= |cues|
      invariant document + Blocks(cues[i..]) == Rendered(cues)
    {
      var cue := cues[i];
      BlocksFrom(cues, i);
      BlockAppended(document, Timing(cue), cue.text, Blocks(cues[i + 1..]));
      document := document + ("\n" + Timing(cue) + "\n" + cue.text + "\n");
      i := i + 1;
    }
    NoBlocks(cues);
    assert document + "" == document;
  }

  lemma NoBlocks(cues: seq<Cue>)
    ensures Blocks(cues[|cues|..]) == ""
  {
  }

  lemma BlocksFrom(cues: seq<Cue>, i: nat)
    requires i < |cues|
    ensures Blocks(cues[i..]) == "\n" + (Timing(cues[i]) + "\n" + (cues[i].text + "\n" + Blocks(cues[i + 1..])))
  {
    hide Timing;
    assert cues[i..][1..] == cues[i + 1..];
  }

  lemma BlockAppended(document: string, timing: string, text: string, rest: string)
    ensures document + ("\n" + (timing + "\n" + (text + "\n" + rest)))
            == document + ("\n" + timing + "\n" + text + "\n") + rest
  {
    assert "\n" + (timing + "\n" + (text + "\n" + rest)) == ("\n" + timing + "\n" + text + "\n") + rest;
  }

  // ----- the reader -----

  function ReadFields(h: string, m: string, s: string, f: string): Option<nat> {
    if AllDigits(h) && AllDigits(m) && AllDigits(s) && AllDigits(f) && Value(m) < 60 && Value(s) < 60
    then Some(((Value(h) * 60 + Value(m)) * 60 + Value(s)) * 1000 + Value(f))
    else None
  }

  /** hours ":" minutes ":" seconds "." thousandths, with two or more digits of hours. */
  function ReadTime(t: string): Option<nat> {
    var n := |t|;
    if n >= 12 && t[n - 4] == '.' && t[n - 7] == ':' && t[n - 10] == ':' then
      ReadFields(t[..n - 10], t[n - 9..n - 7], t[n - 6..n - 4], t[n - 3..])
    else None
  }

  predicate StartsWith(s: string, prefix: string) {
    prefix <= s
  }

  predicate HasArrow(s: string) {
    StartsWith(s, "-->") || (s != [] && HasArrow(s[1..]))
  }

  predicate OneLine(s: string) {
    '\n' !in s && '\r' !in s
  }

  /** The lines of s: a line feed, a carriage return or both together end one. */
  function Lines(s: string): (r: seq<string>)
    ensures r != []
  {
    if s == [] then [[]]
    else if StartsWith(s, "\r\n") then [[]] + Lines(s[2..])
    else if s[0] == '\n' || s[0] == '\r' then [[]] + Lines(s[1..])
    else var rest := Lines(s[1..]); [[s[0]] + rest[0]] + rest[1..]
  }

  /** The two timestamps of a cue's timing line. */
  function ReadTiming(line: string, at: nat): Option<(nat, nat)>
    decreases |line| - at
  {
    if at >= |line| then None
    else if StartsWith(line[at..], " --> ") then
      match (ReadTime(line[..at]), ReadTime(line[at + 5..]))
      case (Some(start), Some(end)) => Some((start, end))
      case _ => None
    else ReadTiming(line, at + 1)
  }

  /** A cue's payload runs to the next blank line, or to a line holding an arrow. */
  function PayloadEnd(lines: seq<string>): (n: nat)
    ensures n <= |lines|
  {
    if lines == [] || lines[0] == "" || HasArrow(lines[0]) then 0 else 1 + PayloadEnd(lines[1..])
  }

  function Join(lines: seq<string>): string {
    if lines == [] then "" else if |lines| == 1 then lines[0] else lines[0] + "\n" + Join(lines[1..])
  }

  function ReadBlocks(lines: seq<string>): Option<seq<Cue>>
    decreases |lines|
  {
    if lines == [] then Some([])
    else if lines[0] == "" then ReadBlocks(lines[1..])
    else
      match ReadTiming(lines[0], 0)
      case None => None
      case Some((start, end)) =>
        var n := PayloadEnd(lines[1..]);
        match ReadBlocks(lines[1 + n..])
        case None => None
        case Some(rest) => Some([Cue(start, end, Join(lines[1..1 + n]))] + rest)
  }

  function Read(document: string): Option<seq<Cue>> {
    var lines := Lines(document);
    if lines[0] == "WEBVTT" then ReadBlocks(lines[1..]) else None
  }

  // ----- printing is invertible -----

  /** ReadTime recovers ms from vttTime(ms), for every ms. */
  lemma TimeRoundTrip(ms: nat)
    ensures ReadTime(VttTime(ms)) == Some(ms)
  {
    var h, m, s, f := Padded(ms / 3_600_000, 2), Padded(ms / 60_000 % 60, 2), Padded(ms / 1000 % 60, 2),
      Padded(ms % 1000, 3);
    ValueOfPadded(ms / 3_600_000, 2);
    ValueOfPadded(ms / 60_000 % 60, 2);
    ValueOfPadded(ms / 1000 % 60, 2);
    ValueOfPadded(ms % 1000, 3);
    PaddedLength(ms / 60_000 % 60);
    PaddedLength(ms / 1000 % 60);
    PaddedLength(ms % 1000);
    ReadsFields(h, m, s, f);
    FieldsAddUp(ms);
  }

  lemma ReadsFields(h: string, m: string, s: string, f: string)
    requires |h| >= 2 && |m| == 2 == |s| && |f| == 3
    ensures ReadTime(h + ":" + (m + ":" + (s + "." + f))) == ReadFields(h, m, s, f)
  {
    var u := m + ":" + (s + "." + f);
    MinuteFields(m, s, f);
    FieldsAfter(h, u);
  }

  lemma MinuteFields(m: string, s: string, f: string)
    requires |m| == 2 == |s| && |f| == 3
    ensures var u := m + ":" + (s + "." + f);
            |u| == 9 && u[0..2] == m && u[2] == ':' && u[3..5] == s && u[5] == '.' && u[6..9] == f
  {
  }

  lemma FieldsAfter(h: string, u: string)
    requires |u| == 9
    ensures var t := h + ":" + u; var n := |t|;
            && n == |h| + 10 && t[..n - 10] == h && t[n - 10] == ':'
            && t[n - 9..n - 7] == u[0..2] && t[n - 7] == u[2] && t[n - 6..n - 4] == u[3..5] && t[n - 4] == u[5]
            && t[n - 3..] == u[6..9]
  {
    AfterColon(h, u, 0, 2);
    AfterColon(h, u, 3, 5);
    AfterColon(h, u, 6, 9);
    var t := h + ":" + u;
    assert t[|t| - 3..] == t[|t| - 3..|t|];
  }

  lemma AfterColon(h: string, u: string, i: nat, j: nat)
    requires i <= j <= |u|
    ensures (h + ":" + u)[|h| + 1 + i..|h| + 1 + j] == u[i..j]
  {
  }

  lemma FieldsAddUp(ms: nat)
    ensures ((ms / 3_600_000 * 60 + ms / 60_000 % 60) * 60 + ms / 1000 % 60) * 1000 + ms % 1000 == ms
  {
    var s, m, h := ms / 1000, ms / 60_000, ms / 3_600_000;
    assert m == s / 60 && h == m / 60;
    assert s == m * 60 + s % 60 && m == h * 60 + m % 60;
  }

  lemma TimeCharacters(ms: nat)
    ensures OneLine(VttTime(ms)) && ' ' !in VttTime(ms) && VttTime(ms) != []
  {
    var h, m, s, f := Padded(ms / 3_600_000, 2), Padded(ms / 60_000 % 60, 2), Padded(ms / 1000 % 60, 2),
      Padded(ms % 1000, 3);
    forall c | c in VttTime(ms)
      ensures IsDigit(c) || c == ':' || c == '.'
    {
      assert c in h || c in m || c in s || c in f || c == ':' || c == '.';
    }
  }

  lemma {:induction false} FindsArrow(a: string, b: string, at: nat)
    requires at <= |a| && ' ' !in a && ReadTime(a).Some? && ReadTime(b).Some?
    ensures ReadTiming(a + " --> " + b, at) == Some((ReadTime(a).value, ReadTime(b).value))
    decreases |a| - at
  {
    hide ReadTime;
    var line := a + " --> " + b;
    if at == |a| {
      assert line[at..] == " --> " + b;
      assert line[..at] == a && line[at + 5..] == b;
    } else {
      assert line[at..][0] == a[at];
      assert a[at] in a;
      assert !StartsWith(line[at..], " --> ");
      FindsArrow(a, b, at + 1);
    }
  }

  lemma TimingRoundTrip(c: Cue)
    ensures ReadTiming(Timing(c), 0) == Some((c.start, c.end)) && OneLine(Timing(c)) && Timing(c) != ""
  {
    hide VttTime, ReadTime;
    TimeRoundTrip(c.start);
    TimeRoundTrip(c.end);
    TimeCharacters(c.start);
    TimeCharacters(c.end);
    FindsArrow(VttTime(c.start), VttTime(c.end), 0);
  }

  lemma {:induction false} FirstLine(line: string, rest: string)
    requires OneLine(line)
    ensures Lines(line + "\n" + rest) == [line] + Lines(rest)
  {
    var s := line + "\n" + rest;
    if line == [] {
      assert s[0] == '\n' && s[1..] == rest;
    } else {
      assert s[1..] == line[1..] + "\n" + rest;
      FirstLine(line[1..], rest);
      var after := [line[1..]] + Lines(rest);
      assert s[0] == line[0] && line[0] in line;
      assert Lines(s) == [[s[0]] + after[0]] + after[1..];
      assert [s[0]] + after[0] == line && after[1..] == Lines(rest);
    }
  }

  /** A cue a text line can hold: not blank, one line, no arrow. */
  predicate Printable(c: Cue) {
    c.text != "" && OneLine(c.text) && !HasArrow(c.text)
  }

  lemma {:induction false} BlocksRoundTrip(cues: seq<Cue>)
    requires forall i :: 0 <= i < |cues| ==> Printable(cues[i])
    ensures ReadBlocks(Lines(Blocks(cues))) == Some(cues)
    ensures Lines(Blocks(cues))[0] == ""
  {
    if cues == [] {
      hide ReadTiming;
      var lines := [""];
      assert Lines("") == lines && lines[1..] == [];
      assert ReadBlocks(lines) == ReadBlocks([]);
    } else {
      hide Lines, Blocks, Printable, Timing, ReadTiming;
      var c := cues[0];
      assert Printable(c);
      BlocksRoundTrip(cues[1..]);
      BlockLines(cues);
      ReadsOne(c, Lines(Blocks(cues[1..])), cues[1..]);
      var lines := Lines(Blocks(cues));
      assert lines[1..] == [Timing(c)] + ([c.text] + Lines(Blocks(cues[1..])));
      assert ReadBlocks(lines) == ReadBlocks(lines[1..]);
      assert cues == [c] + cues[1..];
    }
  }

  /** The lines of a document's first cue. */
  lemma BlockLines(cues: seq<Cue>)
    requires cues != [] && Printable(cues[0])
    ensures Lines(Blocks(cues)) == [""] + ([Timing(cues[0])] + ([cues[0].text] + Lines(Blocks(cues[1..]))))
  {
    hide Lines, Timing, HasArrow, ReadTiming;
    var c, rest := cues[0], Blocks(cues[1..]);
    var payload := c.text + "\n" + rest;
    var block := Timing(c) + "\n" + payload;
    TimingRoundTrip(c);
    FirstLine("", block);
    FirstLine(Timing(c), payload);
    FirstLine(c.text, rest);
    assert Blocks(cues) == "" + "\n" + block;
  }

  lemma ReadsOne(c: Cue, after: seq<string>, rest: seq<Cue>)
    requires Printable(c) && after != [] && after[0] == "" && ReadBlocks(after) == Some(rest)
    ensures ReadBlocks([Timing(c)] + ([c.text] + after)) == Some([c] + rest)
  {
    TimingRoundTrip(c);
    OneLinePayload(c, after);
    hide Timing, ReadTiming, PayloadEnd, Printable;
    var lines := [Timing(c)] + ([c.text] + after);
    assert lines[1..] == [c.text] + after;
    assert lines[1..2] == [c.text];
    assert lines[2..] == after;
  }

  lemma OneLinePayload(c: Cue, after: seq<string>)
    requires Printable(c) && after != [] && after[0] == ""
    ensures PayloadEnd([c.text] + after) == 1
  {
    assert ([c.text] + after)[1..] == after;
    assert PayloadEnd(after) == 0;
  }

  /** The reader recovers the cue list from RenderVTT, for all lists of printable cues. */
  lemma DocumentRoundTrip(cues: seq<Cue>)
    requires forall i :: 0 <= i < |cues| ==> Printable(cues[i])
    ensures Read(Rendered(cues)) == Some(cues)
  {
    FirstLine("WEBVTT", Blocks(cues));
    BlocksRoundTrip(cues);
    assert ([("WEBVTT")] + Lines(Blocks(cues)))[1..] == Lines(Blocks(cues));
  }

  // ----- cue text -----

  /** strings.ReplaceAll(text, "-->", "->"): one pass, left to right. */
  function ReplaceArrows(s: string): string {
    if StartsWith(s, "-->") then "->" + ReplaceArrows(s[3..])
    else if s == [] then []
    else [s[0]] + ReplaceArrows(s[1..])
  }

  /** The first arrow loses its first dash, and the search goes on behind it. */
  lemma {:induction false} ReplacesFirst(before: string, after: string)
    requires forall i :: 0 <= i < |before| ==> !StartsWith((before + ("-->" + after))[i..], "-->")
    ensures ReplaceArrows(before + ("-->" + after)) == before + ("->" + ReplaceArrows(after))
  {
    var s := before + ("-->" + after);
    if before == "" {
      assert s[3..] == after;
    } else {
      assert s[0..] == s;
      var t := before[1..] + ("-->" + after);
      assert s[1..] == t;
      forall i | 0 <= i < |before| - 1
        ensures !StartsWith(t[i..], "-->")
      {
        assert t[i..] == s[i + 1..];
      }
      ReplacesFirst(before[1..], after);
    }
  }

  /** A text without an arrow stays as it is. */
  lemma {:induction false} ReplacesNone(s: string)
    requires !HasArrow(s)
    ensures ReplaceArrows(s) == s
  {
    if s != "" {
      ReplacesNone(s[1..]);
    }
  }

  predicate HasLongArrow(s: string) {
    StartsWith(s, "--->") || (s != [] && HasLongArrow(s[1..]))
  }

  lemma TwoChars(s: string, c: char, d: char)
    ensures StartsWith(s, [c, d]) <==> s != [] && s[0] == c && StartsWith(s[1..], [d])
  {
    if s != [] && s[0] == c && StartsWith(s[1..], [d]) {
      assert s[1..][0] == s[1];
    }
  }

  lemma ThreeChars(s: string, c: char, d: char, e: char)
    ensures StartsWith(s, [c, d, e]) <==> s != [] && s[0] == c && StartsWith(s[1..], [d, e])
  {
    if s != [] && s[0] == c && StartsWith(s[1..], [d, e]) {
      assert s[1..][0] == s[1] && s[1..][1] == s[2];
    }
  }

  lemma FourChars(s: string, c: char, d: char, e: char, f: char)
    ensures StartsWith(s, [c, d, e, f]) <==> s != [] && s[0] == c && StartsWith(s[1..], [d, e, f])
  {
    if s != [] && s[0] == c && StartsWith(s[1..], [d, e, f]) {
      assert s[1..][0] == s[1] && s[1..][1] == s[2] && s[1..][2] == s[3];
    }
  }

  lemma ReplacedHead(s: string)
    ensures StartsWith(ReplaceArrows(s), ">") <==> StartsWith(s, ">")
  {
    if !StartsWith(s, "-->") && s != [] {
      assert ReplaceArrows(s)[0] == s[0];
    }
  }

  lemma ReplacedTail(s: string)
    ensures StartsWith(ReplaceArrows(s), "->") <==> StartsWith(s, "-->") || StartsWith(s, "->")
  {
    TwoChars(ReplaceArrows(s), '-', '>');
    TwoChars(s, '-', '>');
    if StartsWith(s, "-->") {
      assert ReplaceArrows(s) == "->" + ReplaceArrows(s[3..]);
    } else if s != [] {
      assert ReplaceArrows(s)[1..] == ReplaceArrows(s[1..]);
      ReplacedHead(s[1..]);
    }
  }

  lemma ReplacedStart(s: string)
    ensures StartsWith(ReplaceArrows(s), "-->") <==> StartsWith(s, "--->")
  {
    ThreeChars(ReplaceArrows(s), '-', '-', '>');
    ThreeChars(s, '-', '-', '>');
    FourChars(s, '-', '-', '-', '>');
    if StartsWith(s, "-->") {
      assert ReplaceArrows(s) == "->" + ReplaceArrows(s[3..]);
      assert ReplaceArrows(s)[1..] == ">" + ReplaceArrows(s[3..]);
    } else if s != [] {
      assert ReplaceArrows(s)[1..] == ReplaceArrows(s[1..]);
      ReplacedTail(s[1..]);
    }
  }

  lemma SkipsArrow(rest: string)
    ensures HasArrow("->" + rest) <==> HasArrow(rest)
  {
    var t := "->" + rest;
    assert t[1..] == ">" + rest && t[1..][1..] == rest;
    assert t[1] == '>' && t[1..][0] == '>';
    assert !StartsWith(t, "-->") && !StartsWith(t[1..], "-->");
  }

  lemma SkipsLongArrow(rest: string)
    ensures HasLongArrow("-->" + rest) <==> HasLongArrow(rest)
  {
    var t := "-->" + rest;
    var u := t[1..];
    assert u == "->" + rest && u[1..] == ">" + rest && u[1..][1..] == rest;
    assert !StartsWith(t, "--->") by { assert t[2] == '>'; }
    assert !StartsWith(u, "--->") by { assert u[1] == '>'; }
    assert !StartsWith(u[1..], "--->") by { assert u[1..][0] == '>'; }
    assert HasLongArrow(t) == HasLongArrow(u) == HasLongArrow(u[1..]) == HasLongArrow(rest);
  }

  /** One pass leaves a timing arrow in a cue exactly when the text held a longer arrow. */
  lemma {:induction false} ArrowRemains(s: string)
    ensures HasArrow(ReplaceArrows(s)) <==> HasLongArrow(s)
  {
    ReplacedStart(s);
    var t := ReplaceArrows(s);
    if StartsWith(s, "-->") {
      var rest := ReplaceArrows(s[3..]);
      ArrowRemains(s[3..]);
      SkipsArrow(rest);
      assert t == "->" + rest && s == "-->" + s[3..];
      SkipsLongArrow(s[3..]);
    } else if s != [] {
      assert t[1..] == ReplaceArrows(s[1..]);
      ArrowRemains(s[1..]);
    }
  }
}
