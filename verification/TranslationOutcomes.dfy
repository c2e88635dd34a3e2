/** What every step makes of every row and every run, told by the columns a reader of the
    tables sees; and where the rows and their results come from. */
module TranslationOutcomes {
  import opened TranslationItems
  import opened TranslationProtocol
  import opened TranslationSafety
  import opened TranslationSteps
  import opened TranslationDoubt
  import opened TranslationTheorems

  // ----- rows -----

  predicate SameWork(i: Item, j: Item) {
    && SameObject(i, j) && j.source == i.source
    && j.result == i.result && j.checkpoint == i.checkpoint && j.requestIndex == i.requestIndex
  }

  /** The row goes to a state with a code; its object, texts and progress stay. */
  predicate Becomes(i: Item, j: Item, state: State, code: Code) {
    SameWork(i, j) && j.applied == i.applied && j.state == state && j.code == code
  }

  /** The row holds a text for review. */
  predicate Holds(i: Item, j: Item, text: seq<string>) {
    && SameObject(i, j) && j.source == i.source && j.applied == i.applied
    && j.state == Ready && j.code == NoCode && j.result == Some(text) && j.checkpoint == []
  }

  /** What a request that failed leaves of its row: sent again only if it never left and the job
      was stopped, uncertain if it may have been answered, failed otherwise. */
  predicate FailedAs(i: Item, e: RequestError, stopped: bool, j: Item) {
    if Lost(e) then Becomes(i, j, Uncertain, UpstreamResultUnknown)
    else match e
      case HelperRejection => Becomes(i, j, Failed, HelperRejected)
      case Upstream(_) => Becomes(i, j, Failed, UpstreamRejected)
      case TooLarge => Becomes(i, j, Failed, RequestTooLarge)
      case Unusable => Becomes(i, j, Failed, InvalidOutput)
      case Unsent => if stopped then Becomes(i, j, Queued, i.code) else Becomes(i, j, Failed, EndpointUnavailable)
      case ResultUnknown => false
  }

  predicate StoppedAs(i: Item, code: Code, j: Item) {
    match code
    case ContentBlocked => Becomes(i, j, PolicyBlocked, code)
    case EndpointUnavailable => Becomes(i, j, Failed, code)
    case SourceTemporarilyUnavailable => Becomes(i, j, Failed, code)
    case _ => Becomes(i, j, Invalid, code)
  }

  /** The row that a lyrics pass has in its hands. */
  predicate InPass(s: System, id: nat, sent: bool) {
    Chunking(s.executor, sent) && s.executor.doing.id == id
  }

  predicate OwnRunIs(s: System, status: Status) {
    s.executor.On? && s.executor.run in s.runs && s.runs[s.executor.run].status == status
  }

  /** What a step of the runner or of the executor makes of a row: i before it and j after. */
  predicate ProgressOutcome(s: System, step: Step, id: nat, i: Item, j: Item) {
    match step
    case CancelRun(run) =>
      if i.run == run && i.state == Requesting then Becomes(i, j, Uncertain, CancelledResultUnknown)
      else if i.run == run && i.state == Queued then Becomes(i, j, Cancelled, RunCancelled)
      else j == i
    case Recover =>
      if s.executor.On? && i.run == s.executor.run && i.state == Requesting then
        Becomes(i, j, Uncertain, UpstreamResultUnknown)
      else j == i
    case Settle =>
      if OwnRunIs(s, StRunning) && s.runs[s.executor.run].job == StRunning && i.run == s.executor.run
        && i.state == Requesting then Becomes(i, j, Uncertain, UpstreamResultUnknown)
      else j == i
    case StopItem(id', code) => if id' == id && i.state in {Queued, Requesting} then StoppedAs(i, code, j) else j == i
    case Announce(ids) =>
      if id in ids && i.state == Queued && !OwnRunIs(s, StCancelled) then Becomes(i, j, Requesting, i.code) else j == i
    case Answer(id', text) => if id' == id && i.state in {Queued, Requesting} then Holds(i, j, text) else j == i
    case AnswerUnusable(id', code) =>
      if id' == id && i.state in {Queued, Requesting} then Becomes(i, j, Failed, code) else j == i
    case RequestFails(id', e, stopped) =>
      if id' == id && i.state == Requesting then FailedAs(i, e, stopped, j) else j == i
    case OpenLyrics(id', lines) =>
      if id' == id && i.requestIndex == 0 && i.checkpoint == [] then SameObject(i, j) && j.source == lines
        && j.state == i.state && j.code == i.code && j.result == i.result && j.checkpoint == [] && j.requestIndex == 0
        && j.applied == i.applied
      else j == i
    case AnnounceChunk =>
      if InPass(s, id, false) && i.state == Queued && !OwnRunIs(s, StCancelled) then Becomes(i, j, Requesting, i.code)
      else j == i
    case ChunkAnswers => if InPass(s, id, true) && i.state == Requesting then ChunkStored(s, i, j) else j == i
    case ChunkTooLarge =>
      if InPass(s, id, true) && i.state in {Queued, Requesting} then Becomes(i, j, Failed, TranslationOutputTooLarge)
      else j == i
    case ChunkFails(e, stopped) =>
      if InPass(s, id, true) && i.state == Requesting then FailedAs(i, e, stopped, j) else j == i
    case FinishLyrics(renders) =>
      if !InPass(s, id, false) || i.state !in {Queued, Requesting} then j == i
      else
        var pass := s.executor.doing;
        if renders && |pass.translated| == |pass.lines| then Holds(i, j, pass.translated)
        else Becomes(i, j, Failed, InvalidLyricsOutput)
    case _ => j == i
  }

  /** The row waits for its next chunk, with everything translated so far. */
  predicate ChunkStored(s: System, i: Item, j: Item)
    requires Chunking(s.executor, true)
  {
    && SameObject(i, j) && j.source == i.source && j.result == i.result && j.applied == i.applied
    && j.state == Queued && j.code == i.code && j.requestIndex == s.executor.doing.index + 1
    && s.executor.doing.translated <= j.checkpoint
  }

  /** What the statements of a request's end make of a row, in those words. */
  lemma EndsOutcome(i: Item)
    ensures forall e, stopped ::
              if i.state == Requesting then FailedAs(i, e, stopped, FailRequest(i, e, stopped))
              else FailRequest(i, e, stopped) == i
    ensures forall code ::
              if i.state in {Queued, Requesting} then Becomes(i, FailOutput(i, code), Failed, code)
              else FailOutput(i, code) == i
    ensures forall text ::
              if i.state in {Queued, Requesting} then Holds(i, Finish(i, text), text) else Finish(i, text) == i
  {
  }

  lemma SendsOutcome(i: Item)
    ensures if i.state == Queued then Becomes(i, Mark(i), Requesting, i.code) else Mark(i) == i
    ensures if i.state == Requesting then Becomes(i, Strand(i), Uncertain, UpstreamResultUnknown) else Strand(i) == i
    ensures forall code ::
              if i.state in {Queued, Requesting} then StoppedAs(i, code, Stop(i, code)) else Stop(i, code) == i
  {
  }

  lemma ChunkOutcome(s: System, step: Step, svc: Service, id: nat)
    requires Enabled(s, step, svc) && OfChunk(step) && id in s.items && s.executor.doing.id == id
    ensures id in Apply(s, step, svc).items
    ensures ProgressOutcome(s, step, id, s.items[id], Apply(s, step, svc).items[id])
  {
    hide ApplyRunner, ApplyReview, ApplyJob, Chunk, HasChunk, FailRequest, FailOutput, Finish, Mark, FailedAs, Holds,
      Becomes;
    EndsOutcome(s.items[id]);
    SendsOutcome(s.items[id]);
  }

  lemma ChunkElsewhereOutcome(s: System, step: Step, svc: Service, id: nat)
    requires Enabled(s, step, svc) && OfChunk(step) && id in s.items && s.executor.doing.id != id
    ensures id in Apply(s, step, svc).items
    ensures ProgressOutcome(s, step, id, s.items[id], Apply(s, step, svc).items[id])
  {
    hide Apply;
    ChunkElsewhere(s, step, svc, id);
  }

  lemma SettleStrands(s: System, svc: Service)
    requires Enabled(s, Settle, svc)
    ensures Apply(s, Settle, svc).items
      == if OwnRunIs(s, StRunning) && s.runs[s.executor.run].job == StRunning then StrandRun(s.items, s.executor.run)
         else s.items
  {
    hide ApplyRunner, ApplyReview, ApplyChunk, InStates, Settled, StrandRun;
  }

  lemma ExecutorOutcome(s: System, step: Step, svc: Service, id: nat)
    requires Enabled(s, step, svc) && ExecutorStep(step) && !OfChunk(step) && id in s.items
    ensures id in Apply(s, step, svc).items
    ensures ProgressOutcome(s, step, id, s.items[id], Apply(s, step, svc).items[id])
  {
    hide ApplyRunner, ApplyReview, ApplyChunk, ApplyJob, FailRequest, FailOutput, Finish, Mark, Strand, Stop, FailedAs,
      Holds, Becomes, StoppedAs;
    EndsOutcome(s.items[id]);
    SendsOutcome(s.items[id]);
    if step.Yield? {
      YieldKeepsRows(s, svc);
    } else if step.Settle? {
      SettleStrands(s, svc);
    }
  }

  lemma RunnerOutcome(s: System, step: Step, svc: Service, id: nat)
    requires Inv(s) && Enabled(s, step, svc) && RunnerStep(step) && id in s.items
    ensures id in Apply(s, step, svc).items
    ensures ProgressOutcome(s, step, id, s.items[id], Apply(s, step, svc).items[id])
  {
    InvRows(s);
    RunnerRows(s, step, svc);
    if step.Submit? {
      InsertSound(s.items, step.newRun, step.planned);
    }
    hide Apply, Inv, RowsAccounted, OneActive;
  }

  // ----- review -----

  /** What a reviewer's step on one item makes of a row. */
  predicate ReviewOutcome(step: Step, id: nat, i: Item, j: Item) {
    match step
    case AcceptItem(id') =>
      if id' == id && i.state == Ready then
        SameWork(i, j) && j.state == Accepted && j.code == i.code && j.applied == i.applied + 1
      else j == i
    case InvalidateItem(id', code) => if id' == id && i.state == Ready then Becomes(i, j, Invalid, code) else j == i
    case AutoFailItem(id', code) =>
      if id' == id && i.state in {Ready, Invalid} then Becomes(i, j, Failed, code) else j == i
    case RejectItem(id') =>
      if id' == id && i.state in {Ready, Failed, Uncertain, Invalid, PolicyBlocked} then Becomes(i, j, Rejected, i.code)
      else j == i
    case _ => true
  }

  lemma ReviewsOutcome(s: System, step: Step, svc: Service, id: nat)
    requires ReviewStep(step) && id in s.items && !Requeues(step)
    ensures id in Apply(s, step, svc).items && ReviewOutcome(step, id, s.items[id], Apply(s, step, svc).items[id])
  {
    hide ApplyRunner, ApplyExecutor;
  }

  /** What becomes of each row in each step, but for those that send items again. */
  lemma StepOutcome(s: System, step: Step, svc: Service, id: nat)
    requires Inv(s) && Enabled(s, step, svc) && id in s.items && !Requeues(step)
    ensures id in Apply(s, step, svc).items
    ensures var i, j := s.items[id], Apply(s, step, svc).items[id];
            if ReviewStep(step) then ReviewOutcome(step, id, i, j) else ProgressOutcome(s, step, id, i, j)
  {
    hide Inv, Apply, ProgressOutcome, ReviewOutcome;
    if RunnerStep(step) {
      RunnerOutcome(s, step, svc, id);
    } else if ReviewStep(step) {
      ReviewsOutcome(s, step, svc, id);
    } else if !OfChunk(step) {
      ExecutorOutcome(s, step, svc, id);
    } else if s.executor.doing.id == id {
      ChunkOutcome(s, step, svc, id);
    } else {
      ChunkElsewhereOutcome(s, step, svc, id);
    }
  }

  // ----- sending again -----

  /** The item may be sent again, as far as its own row goes: nothing asks for a new request,
      and a doubt about the last one is confirmed. */
  predicate MaySend(i: Item, acknowledge: bool) {
    && i.state in {Failed, Uncertain}
    && i.code !in {SourceChanged, ProviderChanged, PolicyChanged, ContentBlocked, NameExists, LyricsExist}
    && (acknowledge || (i.state != Uncertain && i.code !in {UpstreamResultUnknown, CancelledResultUnknown}))
  }

  /** The row is back: for review if its text is there and only applying it failed, otherwise in
      the queue, from the first chunk if the text it had was refused. */
  predicate SentAgain(i: Item, j: Item) {
    && SameObject(i, j) && j.source == i.source && j.result == i.result && j.applied == i.applied && j.code == NoCode
    && j.state == (if i.result.Some? && i.code in {PermissionChanged, LyricsFolderBlocked, AcceptFailed} then Ready
                   else Queued)
    && if i.code in {InvalidLyricsOutput, TranslationOutputTooLarge} then j.requestIndex == 0 && j.checkpoint == []
       else j.requestIndex == i.requestIndex && j.checkpoint == i.checkpoint
  }

  /** Another item of the object is queued, requesting, ready or uncertain. */
  predicate ObjectTaken(items: Items, id: nat) {
    && id in items
    && exists other ::
         other in items && other != id && items[other].key == items[id].key
         && items[other].state in {Queued, Requesting, Ready, Uncertain}
  }

  lemma VerdictIff(items: Items, id: nat, acknowledge: bool)
    requires id in items
    ensures Resendable(items, id, acknowledge) <==> MaySend(items[id], acknowledge) && !ObjectTaken(items, id)
    ensures MaySend(items[id], acknowledge) ==> SentAgain(items[id], Requeue(items[id], acknowledge))
    ensures MaySend(items[id], acknowledge) ==>
      (Reaccepts(items[id]) <==> Requeue(items[id], acknowledge).state == Ready)
  {
    assert ObjectTaken(items, id) <==> ActiveElsewhere(items, id);
  }

  /** What requeueing the chosen items makes of one row. */
  ghost predicate ResendOutcome(items: Items, items': Items, chosen: seq<nat>, acknowledge: bool, id: nat)
    requires id in items && id in items'
  {
    && (items'[id] == items[id]
        || (id in chosen && MaySend(items[id], acknowledge) && SentAgain(items[id], items'[id])))
    && (id in chosen && MaySend(items[id], acknowledge) && items'[id] == items[id] ==> ObjectTaken(items', id))
  }

  lemma {:induction false} RequeueOutcome(items: Items, chosen: seq<nat>, acknowledge: bool, id: nat)
    requires RowsAccounted(items) && OneActive(items) && id in items
    ensures id in RequeueAll(items, chosen, acknowledge)
    ensures ResendOutcome(items, RequeueAll(items, chosen, acknowledge), chosen, acknowledge, id)
  {
    if chosen != [] {
      var front, last := chosen[..|chosen| - 1], chosen[|chosen| - 1];
      RequeueOutcome(items, front, acknowledge, id);
      RequeueSound(items, front, acknowledge);
      var before := RequeueAll(items, front, acknowledge);
      assert chosen == front + [last];
      if last in items {
        hide Requeue, RequeueAll, RowsAccounted, OneActive;
        VerdictIff(before, last, acknowledge);
        OneResent(items, before, front, last, acknowledge, id);
      }
    }
  }

  lemma OneResent(items: Items, before: Items, front: seq<nat>, last: nat, acknowledge: bool, id: nat)
    requires id in items && before.Keys == items.Keys && last in items
    requires ResendOutcome(items, before, front, acknowledge, id)
    requires last == id && before[id] != items[id] ==> !MaySend(before[id], acknowledge)
    ensures var after := if Resendable(before, last, acknowledge) then
                           before[last := Requeue(before[last], acknowledge)]
                         else before;
            ResendOutcome(items, after, front + [last], acknowledge, id)
  {
    VerdictIff(before, last, acknowledge);
  }

  /** Some item of the run was stopped and is queued again. */
  predicate QueuedAgain(items: Items, items': Items, run: nat, id: nat) {
    id in items && id in items' && items[id].run == run && items[id].state in {Failed, Uncertain}
      && items'[id].state == Queued
  }

  lemma OneQueues(items: Items, before: Items, front: seq<nat>, last: nat, acknowledge: bool, run: nat)
    requires before.Keys == items.Keys && Resendable(before, last, acknowledge)
    requires ResendOutcome(items, before, front, acknowledge, last)
    ensures var after := before[last := Requeue(before[last], acknowledge)];
            (exists id :: QueuedAgain(items, after, run, id))
            <==>
            || (exists id :: QueuedAgain(items, before, run, id))
            || (before[last].run == run && !Reaccepts(before[last]))
  {
    var after := before[last := Requeue(before[last], acknowledge)];
    assert before[last] == items[last];
    assert !QueuedAgain(items, before, run, last);
    assert QueuedAgain(items, after, run, last) <==> before[last].run == run && !Reaccepts(before[last]);
    assert forall id :: id != last ==> (QueuedAgain(items, after, run, id) <==> QueuedAgain(items, before, run, id));
  }

  /** The runs a resend reopens are exactly those it queues an item of. */
  lemma {:induction false} ReopensQueued(items: Items, chosen: seq<nat>, acknowledge: bool, run: nat)
    requires RowsAccounted(items) && OneActive(items)
    ensures run in RunsToReopen(items, chosen, acknowledge)
      <==> exists id :: QueuedAgain(items, RequeueAll(items, chosen, acknowledge), run, id)
  {
    hide Requeue, RowsAccounted, OneActive, ResendOutcome, QueuedAgain, Reaccepts, Resendable, RequeueAll, RunsToReopen;
    RequeueStepwise(items, chosen, acknowledge);
    if chosen == [] {
      NoneQueued(items, run);
    } else {
      var front, last := chosen[..|chosen| - 1], chosen[|chosen| - 1];
      ReopensQueued(items, front, acknowledge, run);
      RequeueSound(items, front, acknowledge);
      var before := RequeueAll(items, front, acknowledge);
      if Resendable(before, last, acknowledge) {
        ResendableRow(before, last, acknowledge);
        RequeueOutcome(items, front, acknowledge, last);
        OneQueues(items, before, front, last, acknowledge, run);
      }
    }
  }

  lemma ResendableRow(items: Items, id: nat, acknowledge: bool)
    requires Resendable(items, id, acknowledge)
    ensures id in items
  {
  }

  lemma NoneQueued(items: Items, run: nat)
    ensures !exists id :: QueuedAgain(items, items, run, id)
  {
  }

  lemma RequeueStepwise(items: Items, chosen: seq<nat>, acknowledge: bool)
    ensures chosen == [] ==>
      RequeueAll(items, chosen, acknowledge) == items && RunsToReopen(items, chosen, acknowledge) == {}
    ensures chosen != [] ==>
              var front, last := chosen[..|chosen| - 1], chosen[|chosen| - 1];
              var before := RequeueAll(items, front, acknowledge);
              && RequeueAll(items, chosen, acknowledge)
                 == (if Resendable(before, last, acknowledge) then before[last := Requeue(before[last], acknowledge)]
                   else before)
              && RunsToReopen(items, chosen, acknowledge)
                 == RunsToReopen(items, front, acknowledge)
                    + if Resendable(before, last, acknowledge) && !Reaccepts(before[last]) then {before[last].run}
                      else {}
  {
  }

  // ----- runs and their jobs -----

  const WAITING := Run(StQueued, StQueued, false)

  predicate Over(r: Run) {
    r.job in {StSucceeded, StFailed, StCancelled}
  }

  /** What a step makes of a run that was there, but for its settlement. */
  ghost predicate RunOutcome(s: System, step: Step, s': System, run: nat, r: Run, r': Run) {
    match step
    case Claim(claimed) => r' == if claimed == run then Run(StRunning, StRunning, false) else r
    case RunnerRequeues(requeued) => r' == if requeued == run then WAITING else r
    case RunnerFails(failed) => r' == if failed == run then Run(StFailed, StFailed, true) else r
    case CancelRun(cancelled) =>
      if cancelled == run then
        r'.status == StCancelled && r'.abandoned == r.abandoned
        && r'.job == if r.job in {StQueued, StRunning} then StCancelled else r.job
      else r' == r
    case Yield =>
      r' == if s.executor.On? && s.executor.run == run && r.job in {StRunning, StFailed} then WAITING else r
    case Resend(_, _) =>
      r' == if Over(r) && exists id :: QueuedAgain(s.items, s'.items, run, id) then WAITING else r
    case Retry(retried, _) => r' == if Over(r) && retried == run && s'.items != s.items then WAITING else r
    case Settle => (s.executor.On? && s.executor.run == run) || r' == r
    case _ => r' == r
  }

  lemma ReopenOutcome(s: System, step: Step, svc: Service, run: nat)
    requires Inv(s) && Requeues(step) && run in s.runs
    ensures var s' := Apply(s, step, svc); run in s'.runs && RunOutcome(s, step, s', run, s.runs[run], s'.runs[run])
  {
    InvRows(s);
    RequeueRows(s, step, svc);
    RequeueRuns(s, step, svc);
    hide Apply, Inv, RowsAccounted, OneActive, QueuedAgain, RequeueAll, RunsToReopen;
    if step.Resend? {
      ReopensQueued(s.items, step.chosen, step.acknowledge, run);
    }
  }

  lemma OtherRuns(s: System, step: Step, svc: Service, run: nat)
    requires Enabled(s, step, svc) && !Requeues(step) && !OfChunk(step) && run in s.runs
    ensures var s' := Apply(s, step, svc); run in s'.runs && RunOutcome(s, step, s', run, s.runs[run], s'.runs[run])
  {
    hide InsertAll, CancelItems, MarkAll, StrandRun, InStates, Settled, FailRequest, FailOutput, Finish, Stop, Accept,
      Invalidate, AutoFail, Reject, QueuedAgain;
  }

  lemma ChunkRuns(s: System, step: Step, svc: Service)
    requires OfChunk(step)
    ensures Apply(s, step, svc).runs == s.runs
  {
    hide ApplyRunner, ApplyReview, Mark, StoreChunk, FailRequest, FailOutput, Finish, Chunk;
  }

  /** What becomes of each run in each step. */
  lemma StepRuns(s: System, step: Step, svc: Service, run: nat)
    requires Inv(s) && Enabled(s, step, svc) && run in s.runs
    ensures var s' := Apply(s, step, svc); run in s'.runs && RunOutcome(s, step, s', run, s.runs[run], s'.runs[run])
  {
    hide Inv, Enabled, Apply;
    if Requeues(step) {
      ReopenOutcome(s, step, svc, run);
    } else if OfChunk(step) {
      ChunkRuns(s, step, svc);
    } else {
      OtherRuns(s, step, svc, run);
    }
  }

  // ----- the executor -----

  /** It waits for the answers to every other request it sent, or is free for the next thing. */
  ghost predicate AwaitsOthers(e: Executor, id: nat, e': Executor)
    requires e.On? && e.doing.Sending?
  {
    && e'.On? && e'.run == e.run
    && if e.doing.ids <= {id} then e'.doing == Between
       else e'.doing.Sending? && forall other :: other in e'.doing.ids <==> other in e.doing.ids && other != id
  }

  predicate Free(e: Executor, e': Executor) {
    e.On? && e' == On(e.run, Between)
  }

  /** What a step makes of what the executor is doing. */
  ghost predicate DoingOutcome(s: System, step: Step, svc: Service, e: Executor, e': Executor) {
    match step
    case Claim(run) => e' == On(run, Starting)
    case ExecutorEnds => e' == Off
    case Recover => Free(e, e')
    case StopItem(_, _) => Free(e, e')
    case Announce(ids) =>
      if !OwnRunIs(s, StCancelled) && forall id :: id in ids ==> id in s.items && s.items[id].state == Queued then
        e.On? && e' == On(e.run, Sending(ids))
      else e' == Off
    case Answer(id, _) => e.On? && e.doing.Sending? && AwaitsOthers(e, id, e')
    case AnswerUnusable(id, _) => e.On? && e.doing.Sending? && AwaitsOthers(e, id, e')
    case RequestFails(id, _, _) => e.On? && e.doing.Sending? && AwaitsOthers(e, id, e')
    case OpenLyrics(id, lines) =>
      e.On? && id in s.items && e' == On(e.run, Chunks(id, lines, s.items[id].requestIndex, s.items[id].checkpoint,
        if s.items[id].requestIndex == 0 && s.items[id].checkpoint == [] then 0 else s.items[id].start, false))
    case AnnounceChunk =>
      if e.On? && e.doing.Chunks? && !OwnRunIs(s, StCancelled) && e.doing.id in s.items
        && s.items[e.doing.id].state == Queued then e' == On(e.run, e.doing.(sent := true))
      else e' == Off
    case ChunkAnswers =>
      e.On? && e.doing.Chunks? && e'.On? && e'.run == e.run && e'.doing.Chunks? && !e'.doing.sent
      && e'.doing.index == e.doing.index + 1 && e.doing.translated <= e'.doing.translated
      && e'.doing == e.doing.(index := e'.doing.index, translated := e'.doing.translated, sent := false)
    case ChunkTooLarge => Free(e, e')
    case ChunkFails(_, _) => Free(e, e')
    case FinishLyrics(_) => Free(e, e')
    case Yield => e' == Off
    case Settle => e' == Off
    case _ => e' == e
  }

  lemma ChunkDoing(s: System, step: Step, svc: Service)
    requires Enabled(s, step, svc) && OfChunk(step)
    ensures DoingOutcome(s, step, svc, s.executor, Apply(s, step, svc).executor)
  {
    hide ApplyRunner, ApplyReview, ApplyJob, Chunk, HasChunk, FailRequest, FailOutput, Finish, Mark, StoreChunk;
  }

  lemma YieldsOff(s: System, svc: Service)
    requires Enabled(s, Yield, svc)
    ensures Apply(s, Yield, svc).executor == Off
  {
    hide ApplyRunner, ApplyReview;
  }

  lemma ExecutorDoing(s: System, step: Step, svc: Service)
    requires Enabled(s, step, svc) && ExecutorStep(step) && !OfChunk(step)
    ensures DoingOutcome(s, step, svc, s.executor, Apply(s, step, svc).executor)
  {
    hide ApplyRunner, ApplyReview, ApplyChunk, MarkAll, StrandRun, InStates, Settled, FailRequest, FailOutput, Finish,
      Mark, Stop;
    if step.Yield? {
      YieldsOff(s, svc);
    }
  }

  lemma OthersDoing(s: System, step: Step, svc: Service)
    requires Enabled(s, step, svc) && !ExecutorStep(step)
    ensures DoingOutcome(s, step, svc, s.executor, Apply(s, step, svc).executor)
  {
    hide InsertAll, CancelItems, RequeueAll, RunsToReopen, ReopenAll, Accept, Invalidate, AutoFail, Reject;
  }

  /** What the executor is doing after each step. */
  lemma StepDoing(s: System, step: Step, svc: Service)
    requires Enabled(s, step, svc)
    ensures DoingOutcome(s, step, svc, s.executor, Apply(s, step, svc).executor)
  {
    hide Enabled, Apply, DoingOutcome;
    if !ExecutorStep(step) {
      OthersDoing(s, step, svc);
    } else if OfChunk(step) {
      ChunkDoing(s, step, svc);
    } else {
      ExecutorDoing(s, step, svc);
    }
  }

  /** The world may do at least this, in any state: lose an answer, refuse or answer any request
      that is out, stop or interrupt the executor between requests, end it at any point, cancel
      a run that is not over, and review or send again any item. */
  ghost predicate Possible(s: System, step: Step) {
    match step
    case ExecutorEnds => s.executor.On?
    case RunnerRequeues(run) => s.executor.Off? && run in s.runs && s.runs[run].job == StRunning
    case RunnerFails(run) => s.executor.Off? && run in s.runs && s.runs[run].job == StRunning
    case CancelRun(run) => run in s.runs && s.runs[run].status in {StQueued, StRunning}
    case StopItem(id, code) =>
      && code != NoCode && id in s.items
      && s.executor.On? && s.items[id].run == s.executor.run && Interruptible(s.executor)
    case Yield => s.executor.On? && s.executor.run in s.runs && Interruptible(s.executor)
    case Settle => s.executor.On? && s.executor.run in s.runs && s.executor.doing.Between?
    case Answer(id, _) => AwaitsAnswer(s, id)
    case AnswerUnusable(id, code) => AwaitsAnswer(s, id) && code == InvalidOutput
    case RequestFails(id, _, _) => AwaitsAnswer(s, id)
    case ChunkAnswers => ChunkOut(s)
    case ChunkTooLarge => ChunkOut(s)
    case ChunkFails(_, _) => ChunkOut(s)
    case AcceptItem(id) => id in s.items
    case RejectItem(id) => id in s.items
    case Resend(_, _) => true
    case _ => false
  }

  predicate Interruptible(e: Executor)
    requires e.On?
  {
    match e.doing
    case Between => true
    case Chunks(_, _, _, _, _, sent) => !sent
    case _ => false
  }

  predicate AwaitsAnswer(s: System, id: nat) {
    s.executor.On? && s.executor.doing.Sending? && id in s.executor.doing.ids && id in s.items
  }

  predicate ChunkOut(s: System) {
    s.executor.On? && s.executor.doing.Chunks? && s.executor.doing.sent && s.executor.doing.id in s.items
  }

  lemma PossibleIsEnabled(s: System, step: Step, svc: Service)
    requires Possible(s, step)
    ensures Enabled(s, step, svc)
  {
  }

  // ----- where rows, requests and results come from -----

  /** A row that a submission added is the queued, empty row of an object it planned. */
  predicate FreshRow(i: Item, run: nat, p: Planned) {
    && i.run == run && i.key == p.key && i.source == p.source && i.state == Queued && i.code == NoCode
    && i.result == None && i.checkpoint == [] && i.requestIndex == 0 && i.applied == 0
  }

  predicate Busy(items: Items, key: string) {
    exists id :: id in items && items[id].key == key && items[id].state in {Queued, Requesting, Ready, Uncertain}
  }

  lemma BusyGrows(items: Items, items': Items)
    requires forall id :: id in items ==> id in items' && items'[id] == items[id]
    ensures forall key :: Busy(items, key) ==> Busy(items', key)
  {
  }

  /** What one planned object adds: nothing if it has an active item, else its row. */
  lemma OneInserted(before: Items, run: nat, p: Planned)
    requires p.id !in before
    ensures var after := if ActiveKey(before, p.key) then before else before[p.id := NewItem(run, p)];
            && Busy(after, p.key)
            && (forall id :: id in before ==> id in after && after[id] == before[id])
            && (p.id in after ==> FreshRow(after[p.id], run, p) && !Busy(before, p.key))
  {
    if ActiveKey(before, p.key) {
      var id :| id in before && before[id].key == p.key && Active(before[id].state);
    } else {
      var after := before[p.id := NewItem(run, p)];
      assert p.id in after && after[p.id].key == p.key;
    }
  }

  /** After a submission every object it planned has an active item: a new one if and only if
      it had none. */
  lemma {:induction false} PlannedAreBusy(items: Items, run: nat, planned: seq<Planned>)
    requires RowsAccounted(items) && OneActive(items)
    requires forall i :: 0 <= i < |planned| ==> planned[i].id !in items
    requires forall i, j :: 0 <= i < j < |planned| ==> planned[i].id != planned[j].id
    ensures var items' := InsertAll(items, run, planned);
            && (forall i :: 0 <= i < |planned| ==> Busy(items', planned[i].key))
            && (forall i :: 0 <= i < |planned| && planned[i].id in items' ==>
                 FreshRow(items'[planned[i].id], run, planned[i]) && !Busy(items, planned[i].key))
  {
    hide Busy, FreshRow, RowsAccounted, OneActive, ActiveKey, NewItem;
    if planned != [] {
      var front, p := planned[..|planned| - 1], planned[|planned| - 1];
      PlannedAreBusy(items, run, front);
      InsertSound(items, run, front);
      var before, after := InsertAll(items, run, front), InsertAll(items, run, planned);
      OneInserted(before, run, p);
      BusyGrows(items, before);
      BusyGrows(before, after);
      forall i | 0 <= i < |planned|
        ensures Busy(after, planned[i].key)
        ensures planned[i].id in after ==>
          FreshRow(after[planned[i].id], run, planned[i]) && !Busy(items, planned[i].key)
      {
        if i < |front| {
          assert planned[i] == front[i];
        }
      }
    }
  }

  /** A request leaves for an item exactly when the executor announces it with items that are
      all still queued, in a run nobody cancelled. */
  lemma LeavesIff(s: System, ids: set<nat>, svc: Service, id: nat)
    requires Enabled(s, Announce(ids), svc) && id in ids
    ensures Leaves(s, Announce(ids), Apply(s, Announce(ids), svc), id)
      <==> s.runs[s.executor.run].status != StCancelled && forall one :: one in ids ==> s.items[one].state == Queued
  {
    hide ApplyRunner, ApplyReview, ApplyChunk, ApplyJob, MarkAll;
  }

  lemma ChunkLeavesIff(s: System, svc: Service)
    requires Enabled(s, AnnounceChunk, svc)
    ensures var id := s.executor.doing.id;
            Leaves(s, AnnounceChunk, Apply(s, AnnounceChunk, svc), id)
            <==> s.runs[s.executor.run].status != StCancelled && s.items[id].state == Queued
  {
    hide ApplyRunner, ApplyReview, ApplyJob, Mark, HasChunk;
  }

  // ----- results -----

  /** The step hands the item the text: the answer of its request, or the lines of its finished pass. */
  predicate Delivers(s: System, step: Step, id: nat, text: seq<string>) {
    match step
    case Answer(id', answer) => id' == id && answer == text
    case FinishLyrics(renders) =>
      InPass(s, id, false) && renders && |s.executor.doing.lines| == |text| && s.executor.doing.translated == text
    case _ => false
  }

  lemma OutcomeDelivers(s: System, step: Step, id: nat, i: Item, j: Item)
    requires ProgressOutcome(s, step, id, i, j)
    ensures j.result == i.result || (j.result.Some? && Delivers(s, step, id, j.result.value))
  {
  }

  lemma ReviewDelivers(step: Step, id: nat, i: Item, j: Item)
    requires ReviewStep(step) && !Requeues(step) && ReviewOutcome(step, id, i, j)
    ensures j.result == i.result
  {
  }

  lemma ResendDelivers(s: System, step: Step, svc: Service, id: nat)
    requires Inv(s) && Requeues(step) && id in s.items
    ensures id in Apply(s, step, svc).items && Apply(s, step, svc).items[id].result == s.items[id].result
  {
    hide Apply, Inv, RowsAccounted, OneActive, RequeueAll, ObjectTaken;
    InvRows(s);
    RequeueRows(s, step, svc);
    RequeueOutcome(s.items, Chosen(step), Acknowledges(step), id);
  }

  lemma RowDelivers(s: System, step: Step, svc: Service, id: nat)
    requires Inv(s) && Enabled(s, step, svc) && !Requeues(step) && id in s.items
    ensures id in Apply(s, step, svc).items
    ensures var j := Apply(s, step, svc).items[id];
            j.result == s.items[id].result || (j.result.Some? && Delivers(s, step, id, j.result.value))
  {
    hide Apply, Inv, Enabled, Delivers, ProgressOutcome, ReviewOutcome;
    StepOutcome(s, step, svc, id);
    if ReviewStep(step) {
      ReviewDelivers(step, id, s.items[id], Apply(s, step, svc).items[id]);
    } else {
      OutcomeDelivers(s, step, id, s.items[id], Apply(s, step, svc).items[id]);
    }
  }

  lemma StepDelivers(s: System, step: Step, svc: Service, id: nat)
    requires Inv(s) && Enabled(s, step, svc) && id in Apply(s, step, svc).items
    ensures var j := Apply(s, step, svc).items[id];
            j.result == None || Delivers(s, step, id, j.result.value)
              || (id in s.items && s.items[id].result == j.result)
  {
    hide Apply, Inv, Enabled, Delivers;
    if id !in s.items {
      NewRowsOnly(s, step, svc, id);
    } else if Requeues(step) {
      ResendDelivers(s, step, svc, id);
    } else {
      RowDelivers(s, step, svc, id);
    }
  }

  lemma NewRowsOnly(s: System, step: Step, svc: Service, id: nat)
    requires Inv(s) && Enabled(s, step, svc) && id in Apply(s, step, svc).items && id !in s.items
    ensures Apply(s, step, svc).items[id].result == None
  {
    if RunnerStep(step) {
      InvRows(s);
      RunnerRows(s, step, svc);
      if step.Submit? {
        InsertSound(s.items, step.newRun, step.planned);
      }
    } else if Requeues(step) {
      InvRows(s);
      RequeueRows(s, step, svc);
      RequeueSound(s.items, Chosen(step), Acknowledges(step));
    } else {
      StepKeys(s, step, svc);
    }
  }

  lemma StepKeys(s: System, step: Step, svc: Service)
    requires Enabled(s, step, svc) && !RunnerStep(step) && !Requeues(step)
    ensures Apply(s, step, svc).items.Keys == s.items.Keys
  {
    hide ApplyRunner;
  }

  /** A text an item has for review, or was applied with, was delivered to it earlier. */
  lemma {:induction false} ResultWasDelivered(ss: seq<System>, steps: seq<Step>, svc: Service, k: nat, id: nat)
    requires Trace(ss, steps, svc) && k <= |steps| && id in ss[k].items && ss[k].items[id].result.Some?
    ensures exists h: nat :: h < k && Delivers(ss[h], steps[h], id, ss[k].items[id].result.value)
  {
    hide Inv, Apply, Enabled, Delivers;
    if k > 0 {
      TraceInv(ss, steps, svc, k - 1);
      assert Next(ss[k - 1], steps[k - 1], ss[k], svc);
      StepDelivers(ss[k - 1], steps[k - 1], svc, id);
      if id in ss[k - 1].items && ss[k - 1].items[id].result == ss[k].items[id].result {
        ResultWasDelivered(ss, steps, svc, k - 1, id);
      }
    }
  }
}
