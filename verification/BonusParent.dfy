/** The parent of a purchase bonus: greedy subsequence matching and the unique best candidate. */
module BonusParent {
  datatype Evidence = NoMatch | NameMatch | KanaMatch

  /** Codes, makers, texts and days as compared: trimmed, folded and normalized. */
  datatype Hint = Hint(code: string, maker: string, titleKana: string, releaseDay: string, parentName: string)

  datatype Candidate = Candidate(code: string, maker: string, title: string, titleKana: string, releaseDay: string,
    otherBonus: bool)

  datatype Selection = Nothing | Parent(code: string, evidence: Evidence) | Ambiguous(evidence: Evidence)

  function Rank(e: Evidence): nat {
    match e
    case NoMatch => 0
    case NameMatch => 1
    case KanaMatch => 2
  }

  // ----- subsequences -----

  /** ps are positions of needle's characters in haystack, in order. */
  ghost predicate Embeds(needle: string, haystack: string, ps: seq<nat>) {
    && |ps| == |needle|
    && (forall i :: 0 <= i < |ps| ==> ps[i] < |haystack| && haystack[ps[i]] == needle[i])
    && (forall i, j :: 0 <= i < j < |ps| ==> ps[i] < ps[j])
  }

  ghost predicate IsEmbedded(needle: string, haystack: string) {
    exists ps :: Embeds(needle, haystack, ps)
  }

  lemma EmbedsEmpty(haystack: string)
    ensures IsEmbedded("", haystack)
  {
    assert Embeds("", haystack, []);
  }

  lemma NothingEmbeds(needle: string)
    requires needle != ""
    ensures !IsEmbedded(needle, "")
  {
    forall ps
      ensures !Embeds(needle, "", ps)
    {
      assert |ps| == |needle| ==> 0 < |ps| && ps[0] >= |""|;
    }
  }

  /** One more character of the haystack either places the needle's last one, or does nothing. */
  lemma EmbedsMore(needle: string, haystack: string, c: char)
    requires needle != ""
    ensures IsEmbedded(needle, haystack + [c]) <==>
              IsEmbedded(needle, haystack)
                || (needle[|needle| - 1] == c && IsEmbedded(needle[..|needle| - 1], haystack))
  {
    var n := |needle| - 1;
    if ps :| Embeds(needle, haystack + [c], ps) {
      if ps[n] == |haystack| {
        assert Embeds(needle[..n], haystack, ps[..n]);
      } else {
        assert Embeds(needle, haystack, ps);
      }
    }
    if ps :| Embeds(needle, haystack, ps) {
      assert Embeds(needle, haystack + [c], ps);
    }
    if needle[n] == c {
      if ps: seq<nat> :| Embeds(needle[..n], haystack, ps) {
        var more: seq<nat> := ps + [|haystack|];
        assert |ps| == n;
        forall i | 0 <= i < |more|
          ensures more[i] < |haystack + [c]| && (haystack + [c])[more[i]] == needle[i]
        {
          assert i < n ==> needle[..n][i] == needle[i];
        }
        assert Embeds(needle, haystack + [c], more);
      }
    }
  }

  /** What embeds, embeds with its end cut off. */
  lemma EmbedsLess(needle: string, haystack: string, k: nat)
    requires IsEmbedded(needle, haystack) && k <= |needle|
    ensures IsEmbedded(needle[..k], haystack)
  {
    var ps :| Embeds(needle, haystack, ps);
    assert Embeds(needle[..k], haystack, ps[..k]);
  }

  /** The scan has matched exactly the longest prefix that embeds in what it has read. */
  ghost predicate Longest(needle: string, read: string, index: nat) {
    index <= |needle| && IsEmbedded(needle[..index], read)
      && (index < |needle| ==> !IsEmbedded(needle[..index + 1], read))
  }

  lemma LongestNext(needle: string, read: string, index: nat, c: char)
    requires Longest(needle, read, index) && index < |needle|
    ensures Longest(needle, read + [c], if c == needle[index] then index + 1 else index)
  {
    assert needle[..index + 1][..index] == needle[..index];
    EmbedsMore(needle[..index + 1], read, c);
    if index > 0 {
      EmbedsMore(needle[..index], read, c);
    } else {
      EmbedsEmpty(read + [c]);
      assert needle[..0] == "";
    }
    if index + 2 <= |needle| {
      assert needle[..index + 2][..index + 1] == needle[..index + 1];
      EmbedsMore(needle[..index + 2], read, c);
      if IsEmbedded(needle[..index + 2], read) {
        EmbedsLess(needle[..index + 2], read, index + 1);
      }
    }
  }

  /** isSubsequence */
  method IsSubsequence(needle: string, haystack: string) returns (found: bool)
    ensures found <==> |needle| >= 3 && IsEmbedded(needle, haystack)
  {
    if |needle| < 3 {
      return false;
    }
    var index := 0;
    EmbedsEmpty("");
    assert haystack[..0] == "" && needle[..0] == "";
    NothingEmbeds(needle[..1]);
    for i := 0 to |haystack|
      invariant index < |needle| && Longest(needle, haystack[..i], index)
    {
      assert haystack[..i + 1] == haystack[..i] + [haystack[i]];
      LongestNext(needle, haystack[..i], index, haystack[i]);
      if haystack[i] == needle[index] {
        index := index + 1;
        if index == |needle| {
          assert needle[..index] == needle;
          EmbedsFurther(needle, haystack[..i + 1], haystack);
          return true;
        }
      }
    }
    assert haystack[..|haystack|] == haystack;
    if IsEmbedded(needle, haystack) {
      EmbedsLess(needle, haystack, index + 1);
    }
    return false;
  }

  lemma EmbedsFurther(needle: string, haystack: string, longer: string)
    requires IsEmbedded(needle, haystack) && haystack <= longer
    ensures IsEmbedded(needle, longer)
  {
    var ps :| Embeds(needle, haystack, ps);
    assert Embeds(needle, longer, ps);
  }

  // ----- evidence -----

  /** What a candidate's evidence is, with the subsequence meant by its definition. */
  ghost function EvidenceOf(hint: Hint, c: Candidate): Evidence {
    if c.code == "" || c.code == hint.code || c.maker != hint.maker || c.otherBonus then NoMatch
    else if hint.titleKana != "" && hint.titleKana == c.titleKana then KanaMatch
    else if hint.parentName != "" && hint.releaseDay != "" && hint.releaseDay == c.releaseDay && |hint.parentName| >= 3
      && IsEmbedded(hint.parentName, c.title) then NameMatch
    else NoMatch
  }

  method Match(hint: Hint, c: Candidate) returns (evidence: Evidence)
    ensures evidence == EvidenceOf(hint, c)
  {
    if c.code == "" || c.code == hint.code || c.maker != hint.maker {
      return NoMatch;
    }
    if c.otherBonus {
      return NoMatch;
    }
    if hint.titleKana != "" && hint.titleKana == c.titleKana {
      return KanaMatch;
    }
    if hint.parentName != "" && hint.releaseDay != "" && hint.releaseDay == c.releaseDay {
      var found := IsSubsequence(hint.parentName, c.title);
      if found {
        return NameMatch;
      }
    }
    return NoMatch;
  }

  // ----- selection -----

  /** A code some candidate brings with this evidence. */
  ghost predicate Brings(hint: Hint, candidates: set<Candidate>, code: string, evidence: Evidence) {
    exists c :: c in candidates && c.code == code && EvidenceOf(hint, c) == evidence
  }

  /** The evidence no candidate beats, and some candidate has. */
  ghost predicate Strongest(hint: Hint, candidates: set<Candidate>, evidence: Evidence) {
    && evidence != NoMatch
    && (exists code :: Brings(hint, candidates, code, evidence))
    && forall c :: c in candidates ==> Rank(EvidenceOf(hint, c)) <= Rank(evidence)
  }

  /** What a selection means: it speaks of the candidates as a set only. */
  ghost predicate Selects(hint: Hint, candidates: set<Candidate>, selection: Selection) {
    match selection
    case Nothing => forall c :: c in candidates ==> EvidenceOf(hint, c) == NoMatch
    case Parent(code, evidence) => Strongest(hint, candidates, evidence)
      && forall other :: Brings(hint, candidates, other, evidence) <==> other == code
    case Ambiguous(evidence) =>
      Strongest(hint, candidates, evidence)
        && exists x, y :: x != y && Brings(hint, candidates, x, evidence) && Brings(hint, candidates, y, evidence)
  }

  /** The scan's running best over the candidates read so far. */
  ghost predicate BestSoFar(hint: Hint, read: set<Candidate>, best: Evidence, codes: set<string>) {
    && (forall c :: c in read ==> Rank(EvidenceOf(hint, c)) <= Rank(best))
    && (best == NoMatch ==> codes == {})
    && (best != NoMatch ==> codes != {} && forall code :: code in codes <==> Brings(hint, read, code, best))
  }

  lemma BestNext(hint: Hint, read: set<Candidate>, c: Candidate, best: Evidence, codes: set<string>)
    requires BestSoFar(hint, read, best, codes)
    ensures var e := EvidenceOf(hint, c);
            if e == NoMatch || Rank(e) < Rank(best) then BestSoFar(hint, read + {c}, best, codes)
            else BestSoFar(hint, read + {c}, e, (if Rank(e) > Rank(best) then {} else codes) + {c.code})
  {
    var e := EvidenceOf(hint, c);
    var all := read + {c};
    forall code, evidence
      ensures Brings(hint, all, code, evidence) <==>
        Brings(hint, read, code, evidence) || (code == c.code && evidence == e)
    {
      if Brings(hint, all, code, evidence) {
        var d :| d in all && d.code == code && EvidenceOf(hint, d) == evidence;
        assert d in read || d == c;
      }
      if code == c.code && evidence == e {
        assert c in all;
      }
    }
  }

  /** Another work of the maker that is no bonus itself. */
  predicate Related(hint: Hint, c: Candidate) {
    c.code != "" && c.code != hint.code && c.maker == hint.maker && !c.otherBonus
  }

  predicate SharesKana(hint: Hint, c: Candidate) {
    hint.titleKana != "" && c.titleKana == hint.titleKana
  }

  /** Released the same day, with the bonus's parent name spread over its title. */
  ghost predicate SharesName(hint: Hint, c: Candidate) {
    hint.releaseDay != "" && c.releaseDay == hint.releaseDay && |hint.parentName| >= 3
      && exists ps :: Embeds(hint.parentName, c.title, ps)
  }

  /** Related works that share the kana, or when there are none, those that share the name. */
  ghost predicate Fitting(hint: Hint, candidates: set<Candidate>, c: Candidate) {
    && c in candidates && Related(hint, c)
    && if SomeKana(hint, candidates) then SharesKana(hint, c) else SharesName(hint, c)
  }

  ghost predicate SomeKana(hint: Hint, candidates: set<Candidate>) {
    exists c :: c in candidates && Related(hint, c) && SharesKana(hint, c)
  }

  /** Nothing when no work fits, the one code of those that do, or ambiguity when they have several. */
  ghost predicate Answers(hint: Hint, candidates: set<Candidate>, selection: Selection) {
    match selection
    case Nothing => forall c :: !Fitting(hint, candidates, c)
    case Parent(code, evidence) =>
      && (exists c :: Fitting(hint, candidates, c)) && (forall c :: Fitting(hint, candidates, c) ==> c.code == code)
      && evidence == if SomeKana(hint, candidates) then KanaMatch else NameMatch
    case Ambiguous(evidence) =>
      && (exists c, d :: Fitting(hint, candidates, c) && Fitting(hint, candidates, d) && c.code != d.code)
      && evidence == if SomeKana(hint, candidates) then KanaMatch else NameMatch
  }

  lemma EvidenceMeans(hint: Hint, c: Candidate)
    ensures EvidenceOf(hint, c) == KanaMatch <==> Related(hint, c) && SharesKana(hint, c)
    ensures EvidenceOf(hint, c) == NameMatch <==> Related(hint, c) && !SharesKana(hint, c) && SharesName(hint, c)
  {
  }

  lemma StrongestFits(hint: Hint, candidates: set<Candidate>, evidence: Evidence)
    requires Strongest(hint, candidates, evidence)
    ensures evidence == if SomeKana(hint, candidates) then KanaMatch else NameMatch
    ensures forall c :: Fitting(hint, candidates, c) <==> c in candidates && EvidenceOf(hint, c) == evidence
  {
    hide SharesKana, SharesName, Related, EvidenceOf;
    forall c
      ensures EvidenceOf(hint, c) == KanaMatch <==> Related(hint, c) && SharesKana(hint, c)
      ensures EvidenceOf(hint, c) == NameMatch <==> Related(hint, c) && !SharesKana(hint, c) && SharesName(hint, c)
    {
      EvidenceMeans(hint, c);
    }
    if c :| c in candidates && Related(hint, c) && SharesKana(hint, c) {
      assert Rank(EvidenceOf(hint, c)) <= Rank(evidence);
    }
    var code :| Brings(hint, candidates, code, evidence);
  }

  lemma SelectionAnswers(hint: Hint, candidates: set<Candidate>, selection: Selection)
    requires Selects(hint, candidates, selection)
    ensures Answers(hint, candidates, selection)
  {
    hide SharesKana, SharesName, Related, EvidenceOf;
    if selection.Nothing? {
      forall c
        ensures !Fitting(hint, candidates, c)
      {
        EvidenceMeans(hint, c);
      }
    } else {
      StrongestFits(hint, candidates, selection.evidence);
      hide Strongest, SomeKana, Fitting;
      match selection
      case Parent(code, evidence) =>
        assert Brings(hint, candidates, code, evidence);
        forall c | Fitting(hint, candidates, c)
          ensures c.code == code
        {
          assert Brings(hint, candidates, c.code, evidence);
        }
      case Ambiguous(evidence) =>
        var x, y :| x != y && Brings(hint, candidates, x, evidence) && Brings(hint, candidates, y, evidence);
        var c :| c in candidates && c.code == x && EvidenceOf(hint, c) == evidence;
        var d :| d in candidates && d.code == y && EvidenceOf(hint, d) == evidence;
        assert Fitting(hint, candidates, c) && Fitting(hint, candidates, d);
    }
  }

  /** SelectParent */
  method SelectParent(hint: Hint, candidates: seq<Candidate>) returns (selection: Selection)
    ensures Selects(hint, (set c | c in candidates), selection)
    ensures Answers(hint, (set c | c in candidates), selection)
  {
    hide Answers;
    var best := NoMatch;
    var codes: set<string> := {};
    ghost var read: set<Candidate> := {};
    for i := 0 to |candidates|
      invariant read == set c | c in candidates[..i]
      invariant BestSoFar(hint, read, best, codes)
    {
      var c := candidates[i];
      var evidence := Match(hint, c);
      BestNext(hint, read, c, best, codes);
      assert candidates[..i + 1] == candidates[..i] + [c];
      read := read + {c};
      if evidence == NoMatch || Rank(evidence) < Rank(best) {
        continue;
      }
      if Rank(evidence) > Rank(best) {
        best := evidence;
        codes := {};
      }
      codes := codes + {c.code};
    }
    assert candidates[..|candidates|] == candidates;
    selection := Conclude(hint, read, best, codes);
    SelectionAnswers(hint, read, selection);
  }

  method Conclude(hint: Hint, ghost read: set<Candidate>, best: Evidence, codes: set<string>)
    returns (selection: Selection)
    requires BestSoFar(hint, read, best, codes)
    ensures Selects(hint, read, selection)
  {
    if best == NoMatch {
      return Nothing;
    }
    var code :| code in codes;
    assert Brings(hint, read, code, best);
    if |codes| != 1 {
      var rest := codes - {code};
      assert codes == rest + {code} && |codes| == |rest| + 1;
      var other :| other in rest;
      assert Brings(hint, read, other, best);
      return Ambiguous(best);
    }
    OnlyOne(codes, code);
    return Parent(code, best);
  }

  lemma OnlyOne(codes: set<string>, code: string)
    requires |codes| == 1 && code in codes
    ensures codes == {code}
  {
    assert |codes - {code}| == 0;
    assert codes == codes - {code} + {code};
  }

  /** The meaning leaves one answer: so permuting or repeating candidates changes nothing. */
  lemma OneSelection(hint: Hint, candidates: set<Candidate>, x: Selection, y: Selection)
    requires Selects(hint, candidates, x) && Selects(hint, candidates, y)
    ensures x == y
  {
    if !x.Nothing? {
      StrongestIsOne(hint, candidates, x.evidence, y);
    } else if !y.Nothing? {
      StrongestIsOne(hint, candidates, y.evidence, x);
    }
  }

  lemma StrongestIsOne(hint: Hint, candidates: set<Candidate>, evidence: Evidence, other: Selection)
    requires Strongest(hint, candidates, evidence) && Selects(hint, candidates, other)
    ensures !other.Nothing? && other.evidence == evidence
  {
    var code :| Brings(hint, candidates, code, evidence);
    if !other.Nothing? {
      var code' :| Brings(hint, candidates, code', other.evidence);
    }
  }

  lemma OrderAndRepetitionIrrelevant(hint: Hint, first: seq<Candidate>, second: seq<Candidate>, x: Selection,
      y: Selection)
    requires forall c :: c in first <==> c in second
    requires Selects(hint, (set c | c in first), x) && Selects(hint, (set c | c in second), y)
    ensures x == y
  {
    assert (set c | c in first) == (set c | c in second);
    OneSelection(hint, (set c | c in first), x, y);
  }
}
