/** The transcription loop: chunks cut from one track, and the cues they leave. */
module Transcription {
  import opened QuietCut
  import opened WebVtt

  const CHUNK_BYTES := 300 * BYTES_PER_SECOND
  const CUT_SEARCH_SECONDS := 60
  const MAX_AUDIO_MS := 12 * 60 * 60 * 1000
  const LEAST_ADVANCE_MS := 240_150
  const BYTES_PER_MS := 32
  const TRANSCRIPT_LIMIT := 2 * 1024 * 1024

  /** A segment as the service reports it, its times rounded to milliseconds; None is not a number. */
  datatype Segment = Segment(start: Option<int>, end: Option<int>, text: string)

  // ----- cues of one chunk -----

  function Clamp(ms: int, duration: nat): nat {
    if ms < 0 then 0 else if ms < duration then ms else duration
  }

  predicate IsSpace(c: char) {
    || c in {' ', '\t', '\n', '\r', '\U{000B}', '\U{000C}', '\U{0085}', '\U{00A0}', '\U{1680}'}
    || '\U{2000}' <= c <= '\U{200A}' || c in {'\U{2028}', '\U{2029}', '\U{202F}', '\U{205F}', '\U{3000}'}
  }

  /** strings.Join(strings.Fields(text), " "), from a position inside or outside a word. */
  function Fields(s: string, pending: bool, started: bool): string {
    if s == [] then []
    else if IsSpace(s[0]) then Fields(s[1..], started, started)
    else (if pending then " " else "") + [s[0]] + Fields(s[1..], false, true)
  }

  function CueText(text: string): string {
    ReplaceArrows(Fields(text, false, false))
  }

  /** The cue a segment becomes, if any, on the track's timeline. */
  function SegmentCue(g: Segment, offset: nat, duration: nat): Option<Cue> {
    if CueText(g.text) == "" || g.start.None? || g.end.None? then None
    else
      var start, end := Clamp(g.start.value, duration), Clamp(g.end.value, duration);
      if start >= duration then None
      else
        var until := if end <= start then Clamp(start + 1000, duration) else end;
        Some(Cue(offset + start, offset + until, CueText(g.text)))
  }

  /** The cues of the segments that have one, in their order. */
  function SegmentCues(segments: seq<Segment>, offset: nat, duration: nat): seq<Cue> {
    if segments == [] then []
    else
      SegmentCues(segments[..|segments| - 1], offset, duration)
      + match SegmentCue(segments[|segments| - 1], offset, duration)
        case None => []
        case Some(cue) => [cue]
  }

  /** ChunkCues */
  method ChunkCues(segments: seq<Segment>, offset: nat, duration: nat) returns (cues: seq<Cue>, ghost at: seq<nat>)
    ensures Shows(cues, at, segments, offset, duration)
    ensures cues == SegmentCues(segments, offset, duration) && AllWithin(cues, offset, offset + duration)
  {
    hide SegmentCue, AllWithin, Shows;
    NoneWithin(offset, offset + duration);
    cues := [];
    for i := 0 to |segments|
      invariant cues == SegmentCues(segments[..i], offset, duration) && AllWithin(cues, offset, offset + duration)
    {
      assert segments[..i + 1][..i] == segments[..i];
      match SegmentCue(segments[i], offset, duration)
      case None =>
      case Some(cue) =>
        CueWellPlaced(segments[i], offset, duration);
        WithinGrows(cues, cue, offset, offset + duration);
        cues := cues + [cue];
    }
    assert segments[..|segments|] == segments;
    at := CuesShown(segments, offset, duration);
  }

  /** Every cue is a stretch of its chunk, and readable as one line of text. */
  predicate AllWithin(cues: seq<Cue>, from: nat, end: nat) {
    forall i :: 0 <= i < |cues| ==>
      from <= cues[i].start < cues[i].end <= end && cues[i].text != "" && OneLine(cues[i].text)
  }

  lemma WithinGrows(cues: seq<Cue>, cue: Cue, from: nat, end: nat)
    requires AllWithin(cues, from, end) && AllWithin([cue], from, end)
    ensures AllWithin(cues + [cue], from, end)
  {
    assert [cue][0] == cue;
  }

  lemma NoneWithin(from: nat, end: nat)
    ensures AllWithin([], from, end)
  {
  }

  lemma {:induction false} FieldsOneLine(s: string, pending: bool, started: bool)
    ensures OneLine(Fields(s, pending, started))
  {
    if s != [] {
      FieldsOneLine(s[1..], if IsSpace(s[0]) then started else false, if IsSpace(s[0]) then started else true);
    }
  }

  lemma {:induction false} ReplacingOneLine(s: string)
    requires OneLine(s)
    ensures OneLine(ReplaceArrows(s))
    decreases |s|
  {
    if StartsWith(s, "-->") {
      ReplacingOneLine(s[3..]);
    } else if s != [] {
      ReplacingOneLine(s[1..]);
      assert s[0] in s;
    }
  }

  lemma CueWellPlaced(g: Segment, offset: nat, duration: nat)
    requires SegmentCue(g, offset, duration).Some?
    ensures AllWithin([SegmentCue(g, offset, duration).value], offset, offset + duration)
  {
    FieldsOneLine(g.text, false, false);
    ReplacingOneLine(Fields(g.text, false, false));
  }

  // ----- chunks -----

  /** What one decode gives: up to five minutes of the track from an offset, none past its end. */
  function Decoded(audio: Pcm, offset: nat): Pcm {
    var from := if offset * BYTES_PER_MS < |audio| then offset * BYTES_PER_MS else |audio|;
    var end := if from + CHUNK_BYTES < |audio| then from + CHUNK_BYTES else |audio|;
    audio[from..end]
  }

  lemma DecodedFrom(audio: Pcm, offset: nat, bytes: nat)
    requires bytes <= |Decoded(audio, offset)| && BYTES_PER_MS * offset + bytes <= |audio|
    ensures Decoded(audio, offset)[..bytes] == audio[BYTES_PER_MS * offset..BYTES_PER_MS * offset + bytes]
  {
  }

  /** A chunk that is not the track's last is cut exactly at a millisecond, at least 240150 ms in. */
  lemma CutExact(pcm: Pcm, bytes: nat)
    requires |pcm| == CHUNK_BYTES
    requires exists frame :: Quietest(pcm, CUT_SEARCH_SECONDS, frame) && bytes == CutAt(frame)
    ensures bytes * 1000 / BYTES_PER_SECOND * BYTES_PER_MS == bytes
    ensures LEAST_ADVANCE_MS <= bytes * 1000 / BYTES_PER_SECOND && bytes <= CHUNK_BYTES
  {
    var frame: nat :| Quietest(pcm, CUT_SEARCH_SECONDS, frame) && bytes == CutAt(frame);
    assert Frames(pcm) == 3000 && frame >= 2400;
    assert bytes == 3200 * frame + 4800;
    assert bytes * 1000 / BYTES_PER_SECOND == 100 * frame + 150;
  }

  // ----- the stored transcription -----

  datatype State = Pending | Requesting | Failed | Ready | OtherState

  datatype Code =
    | ResultUnknown | Cancelled | AudioTooLong | Refused | RequestFailed | LanguageMismatch
    | TranscriptTooLarge | NoSpeech

  /** What the service and the checks answer in one round of the loop. */
  datatype Reply =
    | Transcript(segments: seq<Segment>)
    | TooMany(segments: seq<Segment>)   // the cues would exceed their limit
    | NotSent                           // the check repeated after decoding refuses
    | Error
    | OtherLanguage
    | Stops                             // the process ends while the request is out

  datatype Round = CheckFails | Sends(reply: Reply, yieldsAfter: bool)

  datatype Next = Again | AtEnd | Stop(result: Result)

  datatype Result = Finished | Yielded | FailedWith(code: Code) | Interrupted

  /** One committed chunk: where it began, the segments of its answer, and their cues. */
  datatype Chunk = Chunk(start: nat, segments: seq<Segment>, cues: seq<Cue>)

  /** Where chunk k ends: where the next one begins, or at the stored offset. */
  function EndOf(chunks: seq<Chunk>, offset: nat, k: nat): nat
    requires k < |chunks|
  {
    if k + 1 < |chunks| then chunks[k + 1].start else offset
  }

  function CuesOf(chunks: seq<Chunk>): seq<Cue> {
    if chunks == [] then [] else CuesOf(chunks[..|chunks| - 1]) + chunks[|chunks| - 1].cues
  }

  /** Chunks follow one another from the start of the track, each but the track's last at
      least LEAST_ADVANCE_MS long and all begun below the bound, with their cues inside. */
  ghost predicate Chained(chunks: seq<Chunk>, offset: nat, ended: bool) {
    && (if chunks == [] then offset == 0 && !ended else chunks[0].start == 0)
    && (forall k {:trigger EndOf(chunks, offset, k)} :: 0 <= k < |chunks| ==>
          && chunks[k].start < MAX_AUDIO_MS
          && AllWithin(chunks[k].cues, chunks[k].start, EndOf(chunks, offset, k))
          && chunks[k].start + (if ended && k + 1 == |chunks| then 0 else LEAST_ADVANCE_MS) <= EndOf(chunks, offset, k))
  }

  /** A chunk was cut in the middle of the quietest stretch of its last minute, unless it
      was the track's last; its cues show the segments the service answered for it. */
  ghost predicate CutAndShown(audio: Pcm, c: Chunk, end: nat, last: bool) {
    var pcm := Decoded(audio, c.start);
    && c.start <= end
    && (if last then |pcm| < CHUNK_BYTES && end == c.start + |pcm| * 1000 / BYTES_PER_SECOND
        else |pcm| == CHUNK_BYTES && exists frame ::
          Quietest(pcm, CUT_SEARCH_SECONDS, frame) && CutAt(frame) == (end - c.start) * BYTES_PER_MS)
    && SomeShows(c.cues, c.segments, c.start, end - c.start)
  }

  ghost predicate SomeShows(cues: seq<Cue>, segments: seq<Segment>, offset: nat, duration: nat) {
    exists at :: Shows(cues, at, segments, offset, duration)
  }

  ghost predicate AllCutAndShown(audio: Pcm, chunks: seq<Chunk>, offset: nat, ended: bool) {
    forall k {:trigger EndOf(chunks, offset, k)} :: 0 <= k < |chunks| ==>
      CutAndShown(audio, chunks[k], EndOf(chunks, offset, k), ended && k + 1 == |chunks|)
  }

  lemma CutsGrow(audio: Pcm, chunks: seq<Chunk>, offset: nat, chunk: Chunk, duration: nat, last: bool)
    requires AllCutAndShown(audio, chunks, offset, false) && chunk.start == offset
    requires CutAndShown(audio, chunk, offset + duration, last)
    ensures AllCutAndShown(audio, chunks + [chunk], offset + duration, last)
  {
    hide CutAndShown;
    var grown := chunks + [chunk];
    forall k | 0 <= k < |chunks|
      ensures EndOf(grown, offset + duration, k) == EndOf(chunks, offset, k) && grown[k] == chunks[k]
    {
    }
  }

  lemma ChainGrows(chunks: seq<Chunk>, offset: nat, segments: seq<Segment>, more: seq<Cue>, duration: nat, last: bool)
    requires Chained(chunks, offset, false) && offset < MAX_AUDIO_MS
    requires AllWithin(more, offset, offset + duration) && (last || duration >= LEAST_ADVANCE_MS)
    ensures Chained(chunks + [Chunk(offset, segments, more)], offset + duration, last)
    ensures CuesOf(chunks + [Chunk(offset, segments, more)]) == CuesOf(chunks) + more
  {
    var grown := chunks + [Chunk(offset, segments, more)];
    forall k | 0 <= k < |chunks|
      ensures EndOf(grown, offset + duration, k) == EndOf(chunks, offset, k) && grown[k] == chunks[k]
    {
    }
    assert grown[..|grown| - 1] == chunks;
  }

  /** Chunk k begins at least k times the least advance into the track. */
  lemma {:induction false} ChunksAdvance(chunks: seq<Chunk>, offset: nat, ended: bool, k: nat)
    requires Chained(chunks, offset, ended) && k < |chunks|
    ensures LEAST_ADVANCE_MS * k <= chunks[k].start
  {
    if k > 0 {
      ChunksAdvance(chunks, offset, ended, k - 1);
      assert EndOf(chunks, offset, k - 1) == chunks[k].start;
    }
  }

  /** One track takes at most 180 chunks, over all executions, restarts and retries. */
  lemma AtMost180Chunks(chunks: seq<Chunk>, offset: nat, ended: bool)
    requires Chained(chunks, offset, ended)
    ensures |chunks| <= 180
  {
    if chunks != [] {
      ChunksAdvance(chunks, offset, ended, |chunks| - 1);
      assert EndOf(chunks, offset, |chunks| - 1) == offset;
    }
  }

  lemma {:induction false} ChunksInOrder(chunks: seq<Chunk>, offset: nat, ended: bool, j: nat, k: nat)
    requires Chained(chunks, offset, ended) && j < k < |chunks|
    ensures EndOf(chunks, offset, j) <= chunks[k].start
  {
    if j + 1 < k {
      ChunksInOrder(chunks, offset, ended, j, k - 1);
      assert EndOf(chunks, offset, k - 1) == chunks[k].start;
    }
  }

  /** Cues of different chunks never overlap, and none reaches past the stored offset. */
  lemma CuesNeverOverlap(chunks: seq<Chunk>, offset: nat, ended: bool, j: nat, k: nat, a: nat, b: nat)
    requires Chained(chunks, offset, ended) && j < k < |chunks|
    requires a < |chunks[j].cues| && b < |chunks[k].cues|
    ensures chunks[j].cues[a].end <= chunks[k].cues[b].start
    ensures chunks[k].cues[b].end <= offset
  {
    ChunksInOrder(chunks, offset, ended, j, k);
    assert EndOf(chunks, offset, j) <= chunks[k].start <= EndOf(chunks, offset, k);
    if k + 1 < |chunks| {
      ChunksInOrder(chunks, offset, ended, k, |chunks| - 1);
      assert EndOf(chunks, offset, |chunks| - 1) == offset;
    }
  }

  predicate OneLiners(cues: seq<Cue>) {
    forall i :: 0 <= i < |cues| ==> cues[i].text != "" && OneLine(cues[i].text)
  }

  lemma {:induction false} CuesAreOneLiners(chunks: seq<Chunk>)
    requires forall k :: 0 <= k < |chunks| ==> OneLiners(chunks[k].cues)
    ensures OneLiners(CuesOf(chunks))
  {
    if chunks != [] {
      CuesAreOneLiners(chunks[..|chunks| - 1]);
      assert OneLiners(chunks[|chunks| - 1].cues);
    }
  }

  /** The stored document reads back as the cues of all chunks, when no text kept an arrow. */
  lemma TranscriptReadsBack(chunks: seq<Chunk>, offset: nat, ended: bool)
    requires Chained(chunks, offset, ended)
    requires forall i :: 0 <= i < |CuesOf(chunks)| ==> !HasArrow(CuesOf(chunks)[i].text)
    ensures Read(Rendered(CuesOf(chunks))) == Some(CuesOf(chunks))
  {
    forall k | 0 <= k < |chunks|
      ensures OneLiners(chunks[k].cues)
    {
      assert EndOf(chunks, offset, k) >= 0;
    }
    CuesAreOneLiners(chunks);
    DocumentRoundTrip(CuesOf(chunks));
  }

  /** How many bytes of a decoded chunk are sent. */
  ghost predicate RightlyCut(pcm: Pcm, bytes: nat, last: bool) {
    if last then |pcm| < CHUNK_BYTES && bytes == |pcm|
    else |pcm| == CHUNK_BYTES && exists frame :: Quietest(pcm, CUT_SEARCH_SECONDS, frame) && CutAt(frame) == bytes
  }

  predicate RepliesTooMany(round: Round) {
    round.Sends? && round.reply.TooMany?
  }

  /** How a round ends that finds a chunk of the track, or none. */
  function Verdict(pcm: Pcm, offset: nat, round: Round): Next {
    if round.CheckFails? then Stop(FailedWith(Refused))
    else if offset >= MAX_AUDIO_MS then Stop(FailedWith(AudioTooLong))
    else if |pcm| < BYTES_PER_SECOND / 10 then AtEnd
    else Answered(round, |pcm| < CHUNK_BYTES)
  }

  function Answered(round: Round, last: bool): Next
    requires round.Sends?
  {
    match round.reply
    case NotSent => Stop(FailedWith(Refused))
    case Stops => Stop(Interrupted)
    case Error => Stop(FailedWith(RequestFailed))
    case OtherLanguage => Stop(FailedWith(LanguageMismatch))
    case TooMany(_) => Stop(FailedWith(TranscriptTooLarge))
    case Transcript(_) => if last then AtEnd else if round.yieldsAfter then Stop(Yielded) else Again
  }

  /** The stored row of a transcription, and its history: the bytes sent in committed
      chunks, those chunks, and whether the track's last one is among them. */
  class Task {
    var state: State
    var offset: nat
    var cues: seq<Cue>
    var text: string
    ghost var sent: Pcm
    ghost var chunks: seq<Chunk>
    ghost var ended: bool

    /** Committed chunks tile the track from its start, and leave the stored cues. */
    ghost predicate Tiles(audio: Pcm)
      reads this
    {
      && sent <= audio && |sent| / BYTES_PER_MS == offset
      && (if ended then |sent| == |audio| else |sent| == BYTES_PER_MS * offset)
      && Chained(chunks, offset, ended) && cues == CuesOf(chunks) && AllCutAndShown(audio, chunks, offset, ended)
    }

    constructor ()
      ensures state == Pending && offset == 0 && cues == [] && chunks == []
      ensures forall audio :: Tiles(audio)
    {
      state, offset, cues, text := Pending, 0, [], "";
      sent, chunks, ended := [], [], false;
    }

    method Fail(code: Code) returns (result: Result)
      modifies this`state
      ensures state == if old(state) in {Pending, Requesting, Failed} then Failed else old(state)
      ensures result == FailedWith(code)
    {
      if state in {Pending, Requesting, Failed} {
        state := Failed;
      }
      return FailedWith(code);
    }

    /** One chunk's answer: its cues and the next offset commit together. */
    method Commit(audio: Pcm, bytes: nat, segments: seq<Segment>, last: bool)
      requires Tiles(audio) && !ended && state == Requesting && offset < MAX_AUDIO_MS
      requires bytes <= |Decoded(audio, offset)| && BYTES_PER_MS * offset + bytes <= |audio|
      requires last ==> BYTES_PER_MS * offset + bytes == |audio|
      requires !last ==>
        bytes * 1000 / BYTES_PER_SECOND * BYTES_PER_MS == bytes && bytes * 1000 / BYTES_PER_SECOND >= LEAST_ADVANCE_MS
      requires RightlyCut(Decoded(audio, offset), bytes, last)
      modifies this
      ensures Tiles(audio) && state == Pending && text == old(text) && ended == last
      ensures offset == old(offset) + bytes * 1000 / BYTES_PER_SECOND
      ensures sent == old(sent) + audio[old(|sent|)..old(|sent|) + bytes]
      ensures old(cues) <= cues && chunks == old(chunks) + [Chunk(old(offset), segments, cues[|old(cues)|..])]
    {
      hide SegmentCues, AllWithin, Chained, CuesOf, Shows, AllCutAndShown, Quietest, Decoded;
      var duration := bytes * 1000 / BYTES_PER_SECOND;
      var more, at := ChunkCues(segments, offset, duration);
      DecodedFrom(audio, offset, bytes);
      sent := sent + Decoded(audio, offset)[..bytes];
      ChainGrows(chunks, offset, segments, more, duration, last);
      CutsGrow(audio, chunks, offset, Chunk(offset, segments, more), duration, last);
      chunks, ended := chunks + [Chunk(offset, segments, more)], last;
      cues := cues + more;
      assert cues[|old(cues)|..] == more;
      offset := offset + duration;
      state := Pending;
    }

    /** Whether the track has grown, or stayed, from an earlier point of the history. */
    twostate predicate Grows()
      reads this
    {
      offset >= old(offset) && old(chunks) <= chunks && old(sent) <= sent && old(cues) <= cues
    }

    /** A round stores a chunk when the service answers it, and otherwise nothing. */
    twostate predicate Stores(round: Round, answered: bool)
      reads this
    {
      if answered && round.Sends? && round.reply.Transcript? then
        |chunks| == |old(chunks)| + 1 && chunks[|old(chunks)|].segments == round.reply.segments
      else chunks == old(chunks) && sent == old(sent) && offset == old(offset)
    }

    /** One round of the loop in transcribeTrack. */
    method NextChunk(audio: Pcm, round: Round) returns (next: Next)
      requires Tiles(audio) && state in {Pending, Failed}
      modifies this
      ensures Tiles(audio) && Grows() && text == old(text)
      ensures next == Verdict(Decoded(audio, old(offset)), old(offset), round)
      ensures Stores(round, old(offset) < MAX_AUDIO_MS && |Decoded(audio, old(offset))| >= BYTES_PER_SECOND / 10)
      ensures next.Again? ==> state == Pending
      ensures next.AtEnd? ==> state in {Pending, Failed} && |audio| - |sent| < BYTES_PER_SECOND / 10
      ensures next.Stop? ==>
        state == match next.result case FailedWith(_) => Failed case Interrupted => Requesting case _ => Pending
    {
      hide Chained, AllCutAndShown, CuesOf, Quietest;
      if round.CheckFails? {
        var result := Fail(Refused);
        return Stop(result);
      }
      if offset >= MAX_AUDIO_MS {
        var result := Fail(AudioTooLong);
        return Stop(result);
      }
      var pcm := Decoded(audio, offset);
      if |pcm| < BYTES_PER_SECOND / 10 {
        return AtEnd;
      }
      var last := |pcm| < CHUNK_BYTES;
      var bytes := |pcm|;
      if !last {
        bytes := FindQuietCut(pcm, CUT_SEARCH_SECONDS);
        CutExact(pcm, bytes);
      }
      next := Send(audio, round, bytes, last);
    }

    /** The request for one chunk, and what its answer does. */
    method Send(audio: Pcm, round: Round, bytes: nat, last: bool) returns (next: Next)
      requires Tiles(audio) && !ended && state in {Pending, Failed} && offset < MAX_AUDIO_MS && round.Sends?
      requires bytes <= |Decoded(audio, offset)| && BYTES_PER_MS * offset + bytes <= |audio|
      requires last ==> BYTES_PER_MS * offset + bytes == |audio|
      requires !last ==>
        bytes * 1000 / BYTES_PER_SECOND * BYTES_PER_MS == bytes && bytes * 1000 / BYTES_PER_SECOND >= LEAST_ADVANCE_MS
      requires RightlyCut(Decoded(audio, offset), bytes, last)
      modifies this
      ensures Tiles(audio) && Grows() && text == old(text)
      ensures next == Answered(round, last) && Stores(round, true)
      ensures next.Again? ==> state == Pending
      ensures next.AtEnd? ==> state == Pending && sent == audio
      ensures next.Stop? ==>
        state == match next.result case FailedWith(_) => Failed case Interrupted => Requesting case _ => Pending
    {
      if round.reply.NotSent? {
        var result := Fail(Refused);
        return Stop(result);
      }
      state := Requesting;
      var result := Interrupted;
      match round.reply {
        case Stops =>
        case Error =>
          result := Fail(RequestFailed);
        case OtherLanguage =>
          result := Fail(LanguageMismatch);
        case TooMany(_) =>
          result := Fail(TranscriptTooLarge);
        case Transcript(segments) =>
          Commit(audio, bytes, segments, last);
          return if last then AtEnd else if round.yieldsAfter then Stop(Yielded) else Again;
      }
      return Stop(result);
    }

    /** transcribeTrack.  rounds is what the world answers, one entry a chunk; when it runs
        out, the process stops.  size is how many bytes a document takes. */
    method Transcribe(audio: Pcm, rounds: seq<Round>, size: string -> nat) returns (result: Result)
      requires Tiles(audio)
      modifies this
      ensures Tiles(audio) && Grows()
      ensures old(state) == Requesting ==>
        state == Failed && result == FailedWith(ResultUnknown) && chunks == old(chunks) && sent == old(sent)
        && cues == old(cues)
      ensures old(state) !in {Pending, Failed, Requesting} ==>
        state == old(state) && chunks == old(chunks) && sent == old(sent) && cues == old(cues) && text == old(text)
      ensures result == Finished <==> old(state) in {Pending, Failed} && state == Ready
      ensures result == Finished ==> |audio| - |sent| < BYTES_PER_SECOND / 10
      ensures result == Finished ==> cues != [] && text == Rendered(cues) && size(text) <= TRANSCRIPT_LIMIT
      ensures result == FailedWith(NoSpeech) ==> cues == []
      ensures result == FailedWith(TranscriptTooLarge) ==>
        (cues != [] && size(Rendered(cues)) > TRANSCRIPT_LIMIT)
        || exists i :: 0 <= i < |rounds| && RepliesTooMany(rounds[i])
      ensures |chunks| - |old(chunks)| <= |rounds|
      ensures forall i :: 0 <= i < |chunks| - |old(chunks)| ==>
        rounds[i].Sends? && rounds[i].reply == Transcript(chunks[|old(chunks)| + i].segments)
    {
      hide Chained, AllWithin, SegmentCues, Rendered, CuesOf, AllCutAndShown, Decoded;
      if state == Requesting {
        result := Fail(ResultUnknown);
        return;
      } else if state !in {Pending, Failed} {
        result := Fail(Cancelled);
        return;
      }
      var i := 0;
      var next := Again;
      while next == Again
        invariant 0 <= i <= |rounds| && old(state) in {Pending, Failed}
        invariant Tiles(audio) && Grows()
        invariant !next.Stop? ==> state in {Pending, Failed}
        invariant next.Stop? ==> state != Ready && next.result !in {Finished, FailedWith(NoSpeech)}
        invariant next == Stop(FailedWith(TranscriptTooLarge)) ==> i > 0 && RepliesTooMany(rounds[i - 1])
        invariant next == AtEnd ==> |audio| - |sent| < BYTES_PER_SECOND / 10
        invariant if next == Again then |chunks| == |old(chunks)| + i else |chunks| <= |old(chunks)| + i
        invariant forall m :: 0 <= m < |chunks| - |old(chunks)| ==>
          rounds[m].Sends? && rounds[m].reply == Transcript(chunks[|old(chunks)| + m].segments)
        decreases if next == Again then |rounds| + 1 - i else 0
      {
        if i == |rounds| {
          return Interrupted;
        }
        next := NextChunk(audio, rounds[i]);
        i := i + 1;
      }
      if next.Stop? {
        return next.result;
      }
      if cues == [] {
        result := Fail(NoSpeech);
        return;
      }
      var document := RenderVtt(cues);
      if size(document) > TRANSCRIPT_LIMIT {
        result := Fail(TranscriptTooLarge);
        return;
      }
      text, state := document, Ready;
      return Finished;
    }
  }

  /** A segment is dropped exactly when it has no text, an unusable time or starts after its chunk. */
  lemma DroppedIff(g: Segment, offset: nat, duration: nat)
    ensures SegmentCue(g, offset, duration).None? <==>
              (forall i :: 0 <= i < |g.text| ==> IsSpace(g.text[i])) || g.start.None? || g.end.None?
                || g.start.value >= duration || duration == 0
  {
    FieldsEmptyIff(g.text, false, false);
    ReplacedEmptyIff(Fields(g.text, false, false));
  }

  lemma {:induction false} FieldsEmptyIff(s: string, pending: bool, started: bool)
    ensures Fields(s, pending, started) == [] <==> forall i :: 0 <= i < |s| ==> IsSpace(s[i])
  {
    if s != [] {
      if IsSpace(s[0]) {
        FieldsEmptyIff(s[1..], started, started);
        assert s == [s[0]] + s[1..];
      }
    }
  }

  lemma ReplacedEmptyIff(s: string)
    ensures ReplaceArrows(s) == [] <==> s == []
  {
  }

  // ----- what a cue shows, and when -----

  /** The spaces are Unicode's White_Space, of which there are 25. */
  lemma SpaceCodes(c: char)
    ensures IsSpace(c) <==>
              || (c as int) in {0x20, 0x85, 0xA0, 0x1680, 0x2028, 0x2029, 0x202F, 0x205F, 0x3000}
              || 9 <= c as int <= 13 || 0x2000 <= c as int <= 0x200A
  {
  }

  /** How long the first word is, when the text starts with one. */
  function WordEnd(s: string): (n: nat)
    ensures n <= |s| && (s != "" && !IsSpace(s[0]) ==> n > 0)
  {
    if s == "" || IsSpace(s[0]) then 0 else 1 + WordEnd(s[1..])
  }

  /** strings.Fields */
  function Words(s: string): seq<string>
    decreases |s|
  {
    if s == "" then []
    else if IsSpace(s[0]) then Words(s[1..])
    else [s[..WordEnd(s)]] + Words(s[WordEnd(s)..])
  }

  /** strings.Join(words, " ") */
  function Joined(words: seq<string>): string {
    if words == [] then ""
    else if |words| == 1 then words[0]
    else words[0] + " " + Joined(words[1..])
  }

  /** The words of a text have no space in them, and are all there is but spaces. */
  lemma {:induction false} WordsOf(s: string)
    ensures forall k :: 0 <= k < |Words(s)| ==> Words(s)[k] != "" && forall c :: c in Words(s)[k] ==> !IsSpace(c)
    ensures Flat(Words(s)) == Unspaced(s)
    decreases |s|
  {
    if s != "" {
      if IsSpace(s[0]) {
        WordsOf(s[1..]);
      } else {
        var n := WordEnd(s);
        WordsOf(s[n..]);
        FirstWord(s);
        UnspacedFirst(s);
      }
    }
  }

  function Flat(words: seq<string>): string {
    if words == [] then "" else words[0] + Flat(words[1..])
  }

  function Unspaced(s: string): string {
    if s == "" then "" else (if IsSpace(s[0]) then "" else s[..1]) + Unspaced(s[1..])
  }

  lemma {:induction false} FirstWord(s: string)
    ensures forall k :: 0 <= k < WordEnd(s) ==> !IsSpace(s[k])
    ensures WordEnd(s) < |s| ==> IsSpace(s[WordEnd(s)])
  {
    hide IsSpace;
    if s != "" && !IsSpace(s[0]) {
      FirstWord(s[1..]);
      assert forall k :: 0 < k < WordEnd(s) ==> s[k] == s[1..][k - 1];
    }
  }

  lemma {:induction false} UnspacedFirst(s: string)
    ensures Unspaced(s) == s[..WordEnd(s)] + Unspaced(s[WordEnd(s)..])
  {
    hide Unspaced, WordEnd, IsSpace;
    if s == "" || IsSpace(s[0]) {
      NoFirstWord(s);
      assert s[..0] + Unspaced(s[0..]) == Unspaced(s);
    } else {
      UnspacedFirst(s[1..]);
      UnspacedUnfold(s);
      WordsUnfold(s);
      OneOff(s, WordEnd(s[1..]));
      Regroup([s[0]], s[1..][..WordEnd(s[1..])], Unspaced(s[1..][WordEnd(s[1..])..]));
    }
  }

  lemma NoFirstWord(s: string)
    requires s == "" || IsSpace(s[0])
    ensures WordEnd(s) == 0
  {
  }

  lemma UnspacedUnfold(s: string)
    requires s != "" && !IsSpace(s[0])
    ensures Unspaced(s) == [s[0]] + Unspaced(s[1..])
  {
    assert s[..1] == [s[0]];
  }

  /** What follows a word: another one after a single space, if there is one. */
  function Rest(s: string): string {
    if Words(s) == [] then "" else " " + Joined(Words(s))
  }

  lemma FieldsSpace(s: string)
    requires s != "" && IsSpace(s[0])
    ensures Fields(s, false, false) == Fields(s[1..], false, false)
    ensures Fields(s, true, true) == Fields(s[1..], true, true) == Fields(s, false, true)
  {
  }

  lemma FieldsOnce(s: string, pending: bool, started: bool)
    requires s != "" && !IsSpace(s[0])
    ensures Fields(s, pending, started)
      == (if pending then " " else "") + [s[0]] + Fields(s[1..], false, true)
  {
  }

  lemma FieldsWord(s: string)
    requires s != "" && !IsSpace(s[0])
    ensures Fields(s, false, false) == [s[0]] + Fields(s[1..], false, true) == Fields(s, false, true)
    ensures Fields(s, true, true) == " " + ([s[0]] + Fields(s[1..], false, true))
  {
    hide Fields, IsSpace;
    var rest := Fields(s[1..], false, true);
    FieldsOnce(s, false, false);
    FieldsOnce(s, true, true);
    FieldsOnce(s, false, true);
    Regroup(" ", [s[0]], rest);
    Regroup("", [s[0]], rest);
    assert "" + ([s[0]] + rest) == [s[0]] + rest;
  }

  lemma SpaceFirst(s: string)
    requires s != "" && IsSpace(s[0])
    ensures Words(s) == Words(s[1..]) && Rest(s) == Rest(s[1..]) == s[..WordEnd(s)] + Rest(s[WordEnd(s)..])
  {
    assert s[..0] + Rest(s[0..]) == Rest(s);
  }

  lemma WordsUnfold(s: string)
    requires s != "" && !IsSpace(s[0])
    ensures WordEnd(s) == 1 + WordEnd(s[1..]) && Words(s) == [s[..WordEnd(s)]] + Words(s[WordEnd(s)..])
  {
  }

  lemma OneOff(s: string, n: nat)
    requires n < |s|
    ensures s[..1 + n] == [s[0]] + s[1..][..n] && s[1 + n..] == s[1..][n..]
  {
  }

  lemma RestOf(s: string)
    ensures Rest(s) == if Words(s) == [] then "" else " " + Joined(Words(s))
  {
  }

  lemma WordFirst(s: string, rest: string)
    requires s != "" && !IsSpace(s[0]) && rest == s[1..][..WordEnd(s[1..])] + Rest(s[1..][WordEnd(s[1..])..])
    ensures Joined(Words(s)) == [s[0]] + rest == s[..WordEnd(s)] + Rest(s[WordEnd(s)..])
    ensures Rest(s) == " " + ([s[0]] + rest)
  {
    hide Words, WordEnd, Joined, Rest, IsSpace;
    var n := WordEnd(s[1..]);
    WordsUnfold(s);
    OneOff(s, n);
    JoinedFirst(s[..1 + n], Words(s[1 + n..]));
    RestOf(s[1 + n..]);
    RestOf(s);
    Regroup([s[0]], s[1..][..n], Rest(s[1 + n..]));
  }

  lemma Regroup(a: string, b: string, c: string)
    ensures a + (b + c) == (a + b) + c
  {
  }

  /** One pass over the text gives its words with single spaces between them. */
  lemma {:induction false} FieldsJoined(s: string)
    ensures Fields(s, false, false) == Joined(Words(s))
    ensures Fields(s, true, true) == Rest(s)
    ensures Fields(s, false, true) == s[..WordEnd(s)] + Rest(s[WordEnd(s)..])
    decreases |s|
  {
    hide Fields, Words, Joined, Rest, IsSpace, WordEnd;
    if s == "" {
      NoWords();
    } else {
      FieldsJoined(s[1..]);
      if IsSpace(s[0]) {
        FieldsSpace(s);
        SpaceFirst(s);
      } else {
        FieldsWord(s);
        WordFirst(s, Fields(s[1..], false, true));
      }
    }
  }

  lemma NoWords()
    ensures Fields("", false, false) == Fields("", true, true) == Fields("", false, true) == ""
    ensures Words("") == [] && Joined(Words("")) == "" == Rest("") && WordEnd("") == 0
  {
  }

  lemma JoinedFirst(word: string, words: seq<string>)
    ensures Joined([word] + words) == word + if words == [] then "" else " " + Joined(words)
  {
    assert ([word] + words)[1..] == words;
  }

  /** A segment has a cue when it has a word, its times are numbers and it starts in its chunk. */
  predicate HasCue(g: Segment, duration: nat) {
    Words(g.text) != [] && g.start.Some? && g.end.Some? && g.start.value < duration && duration > 0
  }

  /** The cue of such a segment: from its start, or the chunk's; to its end, or the chunk's,
      or for a second when that is not after its start; and with its words on one line. */
  predicate ShowsSegment(c: Cue, g: Segment, offset: nat, duration: nat)
    requires HasCue(g, duration)
  {
    && c.start == offset + (if g.start.value < 0 then 0 else g.start.value)
    && c.end == (if g.end.value <= 0 || g.end.value <= g.start.value then
                   (if c.start + 1000 < offset + duration then c.start + 1000 else offset + duration)
                 else offset + (if g.end.value < duration then g.end.value else duration))
    && c.text == ReplaceArrows(Joined(Words(g.text)))
  }

  /** The cues are those of the segments that have one, in order: at[k] is cue k's segment. */
  ghost predicate Shows(cues: seq<Cue>, at: seq<nat>, segments: seq<Segment>, offset: nat, duration: nat) {
    && |at| == |cues|
    && (forall j, k :: 0 <= j < k < |at| ==> at[j] < at[k])
    && (forall k :: 0 <= k < |at| ==> at[k] < |segments|)
    && (forall i :: 0 <= i < |segments| ==> (HasCue(segments[i], duration) <==> i in at))
    && (forall k :: 0 <= k < |at| ==>
          HasCue(segments[at[k]], duration) && ShowsSegment(cues[k], segments[at[k]], offset, duration))
  }

  lemma OneShown(g: Segment, offset: nat, duration: nat)
    ensures var c := SegmentCue(g, offset, duration);
            (c.Some? <==> HasCue(g, duration)) && (c.Some? ==> ShowsSegment(c.value, g, offset, duration))
  {
    FieldsJoined(g.text);
    ReplacedEmptyIff(Fields(g.text, false, false));
    JoinedEmptyIff(g.text);
  }

  lemma JoinedEmptyIff(s: string)
    ensures Joined(Words(s)) == "" <==> Words(s) == []
  {
    WordsOf(s);
    if Words(s) != [] {
      assert Words(s)[0] != "";
    }
  }

  lemma ShowsOneMore(cues: seq<Cue>, at: seq<nat>, segments: seq<Segment>, offset: nat, duration: nat, g: Segment,
      c: Cue)
    requires Shows(cues, at, segments, offset, duration) && HasCue(g, duration) && ShowsSegment(c, g, offset, duration)
    ensures Shows(cues + [c], at + [|segments|], segments + [g], offset, duration)
  {
    hide HasCue, ShowsSegment;
    var more := at + [|segments|];
    assert forall i :: i in more <==> i in at || i == |segments|;
  }

  lemma ShowsNoMore(cues: seq<Cue>, at: seq<nat>, segments: seq<Segment>, offset: nat, duration: nat, g: Segment)
    requires Shows(cues, at, segments, offset, duration) && !HasCue(g, duration)
    ensures Shows(cues, at, segments + [g], offset, duration)
  {
    hide HasCue, ShowsSegment;
  }

  lemma {:induction false} CuesShown(segments: seq<Segment>, offset: nat, duration: nat) returns (at: seq<nat>)
    ensures Shows(SegmentCues(segments, offset, duration), at, segments, offset, duration)
  {
    at := [];
    if segments != [] {
      hide HasCue, ShowsSegment, SegmentCue, Shows;
      var last := |segments| - 1;
      at := CuesShown(segments[..last], offset, duration);
      OneShown(segments[last], offset, duration);
      assert segments == segments[..last] + [segments[last]];
      var cues := SegmentCues(segments[..last], offset, duration);
      if HasCue(segments[last], duration) {
        ShowsOneMore(cues, at, segments[..last], offset, duration, segments[last],
                     SegmentCue(segments[last], offset, duration).value);
        at := at + [last];
      } else {
        ShowsNoMore(cues, at, segments[..last], offset, duration, segments[last]);
      }
    }
  }
}
