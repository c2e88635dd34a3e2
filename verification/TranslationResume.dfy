/** Lyrics are translated chunk by chunk; however often the pass is interrupted, a text
    that finishes is the text of one uninterrupted pass. */
module TranslationResume {
  import opened TranslationItems
  import opened TranslationProtocol
  import opened TranslationSafety
  import opened TranslationSteps

  /** The translator returns as many lines as it gets, and a chunk holds some. */
  ghost predicate Faithful(svc: Service) {
    svc.size > 0 && forall c :: |svc.translate(c)| == |c|
  }

  /** One uninterrupted pass: each next chunk of lines, translated, until none is left. */
  function Pass(svc: Service, lines: seq<string>): seq<string>
    requires svc.size > 0
    decreases |lines|
  {
    if lines == [] then []
    else svc.translate(lines[..Min(svc.size, |lines|)]) + Pass(svc, lines[Min(svc.size, |lines|)..])
  }

  /** The chunks from one index up to another, as the executor appends them. */
  function Segment(svc: Service, lines: seq<string>, from: nat, upto: nat): seq<string> {
    if upto <= from then [] else Segment(svc, lines, from, upto - 1) + svc.translate(Chunk(svc, lines, upto - 1))
  }

  // ----- chunk arithmetic -----

  lemma TimesGrows(a: nat, b: nat, k: nat)
    requires a <= b
    ensures a * k <= b * k
  {
    assert b * k == a * k + (b - a) * k;
  }

  lemma {:induction false} SegmentLength(svc: Service, lines: seq<string>, from: nat, upto: nat)
    requires Faithful(svc) && from <= upto
    ensures |Segment(svc, lines, from, upto)| == Min(upto * svc.size, |lines|) - Min(from * svc.size, |lines|)
    decreases upto
  {
    if from < upto {
      TimesGrows(from, upto - 1, svc.size);
      SegmentLength(svc, lines, from, upto - 1);
      assert upto * svc.size == (upto - 1) * svc.size + svc.size;
    }
  }

  lemma ChunkShifts(svc: Service, lines: seq<string>, index: nat)
    requires svc.size <= |lines|
    ensures Chunk(svc, lines, index + 1) == Chunk(svc, lines[svc.size..], index)
  {
    assert (index + 1) * svc.size == index * svc.size + svc.size;
    assert (index + 2) * svc.size == (index + 1) * svc.size + svc.size;
  }

  /** All but the first chunk of a source are the chunks of the rest of it. */
  lemma {:induction false} SegmentShifts(svc: Service, lines: seq<string>, upto: nat)
    requires Faithful(svc) && upto >= 1
    ensures Segment(svc, lines, 0, upto) == svc.translate(Chunk(svc, lines, 0))
      + Segment(svc, lines[Min(svc.size, |lines|)..], 0, upto - 1)
    decreases upto
  {
    if upto > 1 {
      SegmentShifts(svc, lines, upto - 1);
      if svc.size <= |lines| {
        ChunkShifts(svc, lines, upto - 2);
      } else {
        TimesGrows(1, upto - 1, svc.size);
        TimesGrows(1, upto, svc.size);
        assert Chunk(svc, lines, upto - 1) == [] == Chunk(svc, lines[|lines|..], upto - 2);
      }
    } else {
      assert Segment(svc, lines, 0, 1) == Segment(svc, lines, 0, 0) + svc.translate(Chunk(svc, lines, 0));
    }
  }

  lemma FirstChunk(svc: Service, lines: seq<string>)
    ensures Chunk(svc, lines, 0) == lines[..Min(svc.size, |lines|)]
  {
  }

  lemma TimesLess(n: nat, k: nat)
    requires n > 0
    ensures n * k == (n - 1) * k + k
  {
  }

  /** Enough chunks appended one by one are one uninterrupted pass. */
  lemma {:induction false} SegmentIsPass(svc: Service, lines: seq<string>, upto: nat)
    requires Faithful(svc) && upto * svc.size >= |lines|
    ensures Segment(svc, lines, 0, upto) == Pass(svc, lines)
    decreases upto
  {
    hide Segment, Chunk;
    if upto > 0 {
      var k := Min(svc.size, |lines|);
      SegmentShifts(svc, lines, upto);
      FirstChunk(svc, lines);
      TimesLess(upto, svc.size);
      SegmentIsPass(svc, lines[k..], upto - 1);
      if lines == [] {
        assert lines[..k] == [] == lines[k..];
        assert |svc.translate([])| == 0;
      }
    } else {
      NoSegment(svc, lines);
    }
  }

  lemma NoSegment(svc: Service, lines: seq<string>)
    ensures Segment(svc, lines, 0, 0) == []
  {
  }

  lemma {:induction false} SegmentOfPrefix(svc: Service, lines: seq<string>, upto: nat, cut: nat)
    requires Min(upto * svc.size, |lines|) <= cut <= |lines|
    ensures Segment(svc, lines, 0, upto) == Segment(svc, lines[..cut], 0, upto)
    decreases upto
  {
    if upto > 0 {
      TimesGrows(upto - 1, upto, svc.size);
      SegmentOfPrefix(svc, lines, upto - 1, cut);
      assert Chunk(svc, lines, upto - 1) == Chunk(svc, lines[..cut], upto - 1);
    }
  }

  /** The checkpoint after k chunks is the pass over exactly the first k * size lines. */
  lemma PrefixTranslated(svc: Service, lines: seq<string>, k: nat)
    requires Faithful(svc)
    ensures Segment(svc, lines, 0, k) == Pass(svc, lines[..Min(k * svc.size, |lines|)])
  {
    var cut := Min(k * svc.size, |lines|);
    SegmentOfPrefix(svc, lines, k, cut);
    SegmentIsPass(svc, lines[..cut], k);
  }

  // ----- the invariant -----

  predicate RowResumes(svc: Service, i: Item) {
    && i.start <= i.requestIndex
    && i.checkpoint == Segment(svc, i.source, i.start, i.requestIndex)
    && (i.result.None? ==> i.start == 0)
  }

  ghost predicate PassResumes(svc: Service, s: System) {
    s.executor.On? && s.executor.doing.Chunks? ==>
      var d := s.executor.doing;
      && d.id in s.items && s.items[d.id].source == d.lines
      && d.start <= d.index && d.translated == Segment(svc, d.lines, d.start, d.index)
      && (s.items[d.id].result.None? ==> d.start == 0)
  }

  ghost predicate Resumes(svc: Service, s: System) {
    (forall id :: id in s.items ==> RowResumes(svc, s.items[id])) && PassResumes(svc, s)
  }

  /** What a statement other than a chunk's may do to a row: keep its chunks, or drop all of them. */
  predicate KeepsChunks(i: Item, j: Item) {
    && j.source == i.source && (i.result.Some? ==> j.result.Some?)
    && (|| (j.checkpoint == i.checkpoint && j.requestIndex == i.requestIndex && j.start == i.start)
        || (j.checkpoint == [] && j.start == j.requestIndex && (j.result.Some? || j.requestIndex == 0)))
  }

  lemma KeptRowResumes(svc: Service, i: Item, j: Item)
    requires RowResumes(svc, i) && KeepsChunks(i, j)
    ensures RowResumes(svc, j)
  {
  }

  lemma RequeuedRow(i: Item, acknowledge: bool)
    ensures KeepsChunks(i, Requeue(i, acknowledge))
    ensures Requeue(i, acknowledge).source == i.source && Requeue(i, acknowledge).result == i.result
  {
  }

  lemma {:induction false} RequeueKeepsChunks(svc: Service, items: Items, chosen: seq<nat>, acknowledge: bool)
    requires forall id :: id in items ==> RowResumes(svc, items[id])
    ensures var items' := RequeueAll(items, chosen, acknowledge);
            items'.Keys == items.Keys && forall id :: id in items ==>
              RowResumes(svc, items'[id]) && items'[id].source == items[id].source
                && items'[id].result == items[id].result
  {
    hide RowResumes, KeepsChunks, Requeue, RequeueVerdict;
    if chosen != [] {
      var front, id := chosen[..|chosen| - 1], chosen[|chosen| - 1];
      RequeueKeepsChunks(svc, items, front, acknowledge);
      var before := RequeueAll(items, front, acknowledge);
      if Resendable(before, id, acknowledge) {
        RequeuedRow(before[id], acknowledge);
        KeptRowResumes(svc, before[id], Requeue(before[id], acknowledge));
      }
    }
  }

  lemma PlainKeepsChunks(i: Item)
    ensures KeepsChunks(i, i) && KeepsChunks(i, Mark(i)) && KeepsChunks(i, Strand(i)) && KeepsChunks(i, CancelItem(i))
    ensures forall e, stopped :: KeepsChunks(i, FailRequest(i, e, stopped))
    ensures forall code :: KeepsChunks(i, FailOutput(i, code)) && KeepsChunks(i, Stop(i, code))
    ensures forall result :: KeepsChunks(i, Finish(i, result))
  {
  }

  lemma ReviewKeepsChunks(i: Item, j: Item)
    requires ReviewMakes(i, j)
    ensures KeepsChunks(i, j)
  {
  }

  lemma RowKeepsChunks(i: Item, j: Item)
    requires PlainMakes(i, j) || ReviewMakes(i, j) || j == CancelItem(i)
    ensures KeepsChunks(i, j)
  {
    hide ReviewMakes;
    if ReviewMakes(i, j) {
      ReviewKeepsChunks(i, j);
    } else {
      PlainKeepsChunks(i);
      hide KeepsChunks, Mark, Strand, CancelItem, FailRequest, FailOutput, Finish, Stop;
    }
  }

  lemma RowsResume(s: System, s': System, svc: Service)
    requires Resumes(svc, s) && s'.items.Keys == s.items.Keys
      && forall id :: id in s'.items ==> KeepsChunks(s.items[id], s'.items[id])
    requires SamePass(s.executor, s'.executor)
    ensures Resumes(svc, s')
  {
    forall id | id in s'.items
      ensures RowResumes(svc, s'.items[id])
    {
      KeptRowResumes(svc, s.items[id], s'.items[id]);
    }
    hide RowResumes;
  }

  lemma PlainStepResumes(s: System, step: Step, svc: Service)
    requires Resumes(svc, s) && Enabled(s, step, svc) && ExecutorStep(step) && !StoresText(step)
    ensures Resumes(svc, Apply(s, step, svc))
  {
    var s' := Apply(s, step, svc);
    hide Resumes, Enabled, Apply, PlainMakes, ExecutorMakes, KeepsChunks, SamePass;
    ExecutorPass(s, step, svc);
    forall id | id in s'.items
      ensures KeepsChunks(s.items[id], s'.items[id])
    {
      ExecutorRows(s, step, svc, id);
      RowKeepsChunks(s.items[id], s'.items[id]);
    }
    RowsResume(s, s', svc);
  }

  lemma RequeueStepResumes(s: System, step: Step, svc: Service)
    requires Resumes(svc, s) && Requeues(step)
    ensures Resumes(svc, Apply(s, step, svc))
  {
    hide Apply, RowResumes, RequeueAll, RunsToReopen;
    RequeueRows(s, step, svc);
    RequeueRuns(s, step, svc);
    RequeueKeepsChunks(svc, s.items, Chosen(step), Acknowledges(step));
  }

  lemma OneReviewResumes(s: System, step: Step, svc: Service)
    requires Resumes(svc, s) && ReviewStep(step) && !Requeues(step)
    ensures Resumes(svc, Apply(s, step, svc))
  {
    var s' := Apply(s, step, svc);
    hide Apply, ReviewMakes, KeepsChunks, Resumes;
    OneReviewPass(s, step, svc);
    forall id | id in s'.items
      ensures KeepsChunks(s.items[id], s'.items[id])
    {
      ReviewRows(s, step, svc, id);
      RowKeepsChunks(s.items[id], s'.items[id]);
    }
    RowsResume(s, s', svc);
  }

  lemma OneReviewPass(s: System, step: Step, svc: Service)
    requires ReviewStep(step) && !Requeues(step)
    ensures Apply(s, step, svc).executor == s.executor && Apply(s, step, svc).items.Keys == s.items.Keys
  {
    hide Accept, Reject, Invalidate, AutoFail, ApplyRunner, ApplyExecutor;
  }

  lemma RunnerStepResumes(s: System, step: Step, svc: Service)
    requires Resumes(svc, s) && Enabled(s, step, svc) && RunnerStep(step) && !step.Submit?
    ensures Resumes(svc, Apply(s, step, svc))
  {
    var s' := Apply(s, step, svc);
    RunnerRows(s, step, svc);
    OthersHold(s, step, svc);
    hide Resumes, Apply, Enabled, KeepsChunks;
    forall id | id in s'.items
      ensures KeepsChunks(s.items[id], s'.items[id])
    {
      PlainKeepsChunks(s.items[id]);
    }
    RowsResume(s, s', svc);
  }

  lemma StoredChunkResumes(i: Item, d: Doing, svc: Service)
    requires d.Chunks? && i.source == d.lines && RowResumes(svc, i) && d.start <= d.index
      && (i.result.None? ==> d.start == 0)
    requires d.translated == Segment(svc, d.lines, d.start, d.index)
    ensures var more := d.translated + svc.translate(Chunk(svc, d.lines, d.index));
            var j := StoreChunk(i, d.index, more, d.start);
            && more == Segment(svc, d.lines, d.start, d.index + 1)
            && RowResumes(svc, j) && j.source == i.source && j.result == i.result
  {
    hide Chunk;
  }

  lemma AnswerMakes(s: System, svc: Service)
    requires Enabled(s, ChunkAnswers, svc)
    ensures var d := s.executor.doing;
            var more := d.translated + svc.translate(Chunk(svc, d.lines, d.index));
            Apply(s, ChunkAnswers, svc) ==
              s.(items := s.items[d.id := StoreChunk(s.items[d.id], d.index, more, d.start)],
              executor := On(s.executor.run, Chunks(d.id, d.lines, d.index + 1, more, d.start, false)))
  {
    hide Chunk, StoreChunk, ApplyJob, ApplyRunner, ApplyReview;
  }

  lemma AnswerResumes(s: System, svc: Service)
    requires Resumes(svc, s) && Enabled(s, ChunkAnswers, svc)
    ensures Resumes(svc, Apply(s, ChunkAnswers, svc))
  {
    var d := s.executor.doing;
    AnswerMakes(s, svc);
    StoredChunkResumes(s.items[d.id], d, svc);
    hide Apply, Chunk, RowResumes, StoreChunk, Segment;
  }

  lemma OpenResumes(s: System, id: nat, lines: seq<string>, svc: Service)
    requires Resumes(svc, s) && Enabled(s, OpenLyrics(id, lines), svc)
    ensures Resumes(svc, Apply(s, OpenLyrics(id, lines), svc))
  {
    assert RowResumes(svc, s.items[id]);
    assert RowResumes(svc, Apply(s, OpenLyrics(id, lines), svc).items[id]);
  }

  lemma SubmitResumes(s: System, run: nat, planned: seq<Planned>, svc: Service)
    requires Inv(s) && Resumes(svc, s) && Enabled(s, Submit(run, planned), svc)
    ensures Resumes(svc, Apply(s, Submit(run, planned), svc))
  {
    InsertSound(s.items, run, planned);
  }

  lemma StepResumes(s: System, step: Step, svc: Service)
    requires Inv(s) && Resumes(svc, s) && Enabled(s, step, svc)
    ensures Resumes(svc, Apply(s, step, svc))
  {
    hide Inv, Resumes, Enabled, Apply;
    if Requeues(step) {
      RequeueStepResumes(s, step, svc);
    } else if ReviewStep(step) {
      OneReviewResumes(s, step, svc);
    } else if step.Submit? {
      SubmitResumes(s, step.newRun, step.planned, svc);
    } else if step.OpenLyrics? {
      OpenResumes(s, step.id, step.lines, svc);
    } else if step.ChunkAnswers? {
      AnswerResumes(s, svc);
    } else if RunnerStep(step) {
      RunnerStepResumes(s, step, svc);
    } else {
      PlainStepResumes(s, step, svc);
    }
  }

  lemma {:induction false} TraceResumes(ss: seq<System>, steps: seq<Step>, svc: Service, k: nat)
    requires Trace(ss, steps, svc) && k <= |steps|
    ensures Resumes(svc, ss[k])
  {
    if k > 0 {
      TraceResumes(ss, steps, svc, k - 1);
      TraceInv(ss, steps, svc, k - 1);
      assert Next(ss[k - 1], steps[k - 1], ss[k], svc);
      StepResumes(ss[k - 1], steps[k - 1], svc);
    }
  }

  // ----- the theorems -----

  /** An item that has not finished yet has, as its checkpoint, the translation of exactly
      the first request_index * size lines of its fixed source. */
  lemma CheckpointIsPrefix(ss: seq<System>, steps: seq<Step>, svc: Service, k: nat, id: nat)
    requires Trace(ss, steps, svc) && Faithful(svc) && k <= |steps| && id in ss[k].items && ss[k].items[id].result.None?
    ensures var i := ss[k].items[id];
            var done := Min(i.requestIndex * svc.size, |i.source|);
            i.checkpoint == Pass(svc, i.source[..done]) && |i.checkpoint| == done
  {
    TraceResumes(ss, steps, svc, k);
    var i := ss[k].items[id];
    assert RowResumes(svc, i);
    PrefixTranslated(svc, i.source, i.requestIndex);
    SegmentLength(svc, i.source, 0, i.requestIndex);
  }

  /** For any item it holds if and only if the checkpoint is as long as that: a result that
      was stored dropped the checkpoint but kept the index. */
  lemma CheckpointIsPrefixIff(ss: seq<System>, steps: seq<Step>, svc: Service, k: nat, id: nat)
    requires Trace(ss, steps, svc) && Faithful(svc) && k <= |steps| && id in ss[k].items
    ensures var i := ss[k].items[id];
            var done := Min(i.requestIndex * svc.size, |i.source|);
            i.checkpoint == Pass(svc, i.source[..done]) <==> |i.checkpoint| == done
  {
    TraceResumes(ss, steps, svc, k);
    var i := ss[k].items[id];
    assert RowResumes(svc, i);
    PrefixTranslated(svc, i.source, i.requestIndex);
    SegmentLength(svc, i.source, i.start, i.requestIndex);
    SegmentLength(svc, i.source, 0, i.requestIndex);
    TimesGrows(i.start, i.requestIndex, svc.size);
    if i.start > 0 {
      TimesGrows(1, i.start, svc.size);
    }
  }

  // ----- a stored result does drop it -----

  function Lyrics(line: string, state: State, result: Option<seq<string>>, checkpoint: seq<string>, index: nat,
      marks: nat, recorded: nat, start: nat): Items {
    map[0 := Item(0, "lyrics", state, NoCode, [line], result, checkpoint, index, marks > recorded, marks, recorded, 0,
      0, start)]
  }

  function Running(items: Items, doing: Doing): System {
    System(items, map[0 := Run(StRunning, StRunning, false)], On(0, doing))
  }

  function Submitted(line: string): System {
    System(Lyrics(line, Queued, None, [], 0, 0, 0, 0), map[0 := Run(StQueued, StQueued, false)], Off)
  }

  lemma SubmitStep(line: string, svc: Service)
    ensures Next(EMPTY, Submit(0, [Planned(0, "lyrics", [line])]), Submitted(line), svc)
  {
    var plan := [Planned(0, "lyrics", [line])];
    assert plan[..0] == [];
    assert InsertAll(map[], 0, plan) == Lyrics(line, Queued, None, [], 0, 0, 0, 0);
    hide InsertAll, ApplyReview, ApplyExecutor;
  }

  lemma ClaimStep(line: string, svc: Service)
    ensures Next(Submitted(line), Claim(0), Running(Lyrics(line, Queued, None, [], 0, 0, 0, 0), Starting), svc)
  {
    hide ApplyReview, ApplyExecutor, CancelItems, InsertAll;
  }

  lemma RecoverStep(line: string, svc: Service)
    ensures var items := Lyrics(line, Queued, None, [], 0, 0, 0, 0);
            Next(Running(items, Starting), Recover, Running(items, Between), svc)
  {
    hide ApplyReview, ApplyRunner, ApplyChunk;
  }

  lemma OpenStep(line: string, svc: Service)
    ensures Next(Running(Lyrics(line, Queued, None, [], 0, 0, 0, 0), Between), OpenLyrics(0, [line]), Opened(line), svc)
  {
    hide ApplyReview, ApplyRunner, ApplyChunk;
  }

  function Opened(line: string): System {
    Running(Lyrics(line, Queued, None, [], 0, 0, 0, 0), Chunks(0, [line], 0, [], 0, false))
  }

  function Asked(line: string): System {
    Running(Lyrics(line, Requesting, None, [], 0, 1, 0, 0), Chunks(0, [line], 0, [], 0, true))
  }

  function Translated(line: string, text: seq<string>): System {
    Running(Lyrics(line, Queued, None, text, 1, 1, 1, 0), Chunks(0, [line], 1, text, 0, false))
  }

  function Finished(line: string, text: seq<string>): System {
    Running(Lyrics(line, Ready, Some(text), [], 1, 1, 1, 1), Between)
  }

  lemma AskStep(line: string, svc: Service)
    requires Faithful(svc)
    ensures Next(Opened(line), AnnounceChunk, Asked(line), svc)
  {
    hide InsertAll, ApplyReview, ApplyRunner, ApplyJob;
  }

  lemma AnswerStep(line: string, svc: Service)
    requires Faithful(svc)
    ensures Next(Asked(line), ChunkAnswers, Translated(line, svc.translate([line])), svc)
  {
    assert Chunk(svc, [line], 0) == [line];
    assert [] + svc.translate([line]) == svc.translate([line]);
    hide InsertAll, ApplyReview, ApplyRunner, ApplyJob, Chunk;
  }

  lemma FinishStep(line: string, svc: Service)
    requires Faithful(svc)
    ensures Next(Translated(line, svc.translate([line])), FinishLyrics(true), Finished(line, svc.translate([line])),
      svc)
  {
    assert !HasChunk(svc, [line], 1);
    hide InsertAll, ApplyReview, ApplyRunner, ApplyJob, Chunk, HasChunk;
  }

  lemma PassOfLine(line: string, svc: Service)
    requires Faithful(svc)
    ensures Pass(svc, [line][..Min(1 * svc.size, 1)]) != []
  {
    PrefixTranslated(svc, [line], 1);
    SegmentLength(svc, [line], 0, 1);
  }

  /** A trace and one step more. */
  lemma Longer(ss: seq<System>, steps: seq<Step>, svc: Service, step: Step, s: System)
    returns (ss': seq<System>, steps': seq<Step>)
    requires Trace(ss, steps, svc) && Next(ss[|steps|], step, s, svc)
    ensures Trace(ss', steps', svc) && ss'[|steps'|] == s
  {
    ss', steps' := ss + [s], steps + [step];
  }

  lemma LyricsTrace(line: string, svc: Service) returns (ss: seq<System>, steps: seq<Step>)
    requires Faithful(svc)
    ensures Trace(ss, steps, svc) && ss[|steps|] == Finished(line, svc.translate([line]))
  {
    SubmitStep(line, svc);
    ClaimStep(line, svc);
    RecoverStep(line, svc);
    OpenStep(line, svc);
    AskStep(line, svc);
    AnswerStep(line, svc);
    FinishStep(line, svc);
    hide Next, Enabled, Apply, Faithful, Lyrics, Running, Submitted, Opened, Asked, Translated, Finished;
    var text, queued := svc.translate([line]), Lyrics(line, Queued, None, [], 0, 0, 0, 0);
    ss, steps := Longer([EMPTY], [], svc, Submit(0, [Planned(0, "lyrics", [line])]), Submitted(line));
    ss, steps := Longer(ss, steps, svc, Claim(0), Running(queued, Starting));
    ss, steps := Longer(ss, steps, svc, Recover, Running(queued, Between));
    ss, steps := Longer(ss, steps, svc, OpenLyrics(0, [line]), Opened(line));
    ss, steps := Longer(ss, steps, svc, AnnounceChunk, Asked(line));
    ss, steps := Longer(ss, steps, svc, ChunkAnswers, Translated(line, text));
    ss, steps := Longer(ss, steps, svc, FinishLyrics(true), Finished(line, text));
  }

  /** One line, translated and stored: the item waits for review with no checkpoint behind its index. */
  lemma StoredResultDropsCheckpoint(line: string, svc: Service) returns (ss: seq<System>, steps: seq<Step>)
    requires Faithful(svc)
    ensures Trace(ss, steps, svc) && 0 in ss[|steps|].items
    ensures var i := ss[|steps|].items[0];
            && i.state == Ready && i.result == Some(svc.translate([line])) && i.source == [line] && i.requestIndex == 1
            && i.checkpoint != Pass(svc, i.source[..Min(i.requestIndex * svc.size, |i.source|)])
  {
    ss, steps := LyricsTrace(line, svc);
    PassOfLine(line, svc);
    hide Trace, Pass, Faithful;
  }

  /** Whatever yields, crashes, cancellations and resends came before, a lyrics text that
      is stored is the text one uninterrupted pass over the item's source gives. */
  lemma ResumeEqualsUninterrupted(ss: seq<System>, steps: seq<Step>, svc: Service, k: nat, id: nat)
    requires Trace(ss, steps, svc) && Faithful(svc) && k < |steps| && steps[k].FinishLyrics?
    requires id in ss[k].items && id in ss[k + 1].items && ss[k].items[id].state != Ready
      && ss[k + 1].items[id].state == Ready
    ensures ss[k + 1].items[id].result == Some(Pass(svc, ss[k].items[id].source))
  {
    TraceResumes(ss, steps, svc, k);
    assert Next(ss[k], steps[k], ss[k + 1], svc);
    var d := ss[k].executor.doing;
    SegmentLength(svc, d.lines, d.start, d.index);
    TimesGrows(d.start, d.index, svc.size);
    if d.start > 0 {
      TimesGrows(1, d.start, svc.size);
      assert d.lines == [];
      assert |Segment(svc, d.lines, d.start, d.index)| == 0;
    } else {
      SegmentIsPass(svc, d.lines, d.index);
    }
  }
}
