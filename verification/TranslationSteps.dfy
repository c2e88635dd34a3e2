/** What each kind of step does to the rows, whatever the step's details are. */
module TranslationSteps {
  import opened TranslationItems
  import opened TranslationProtocol

  /** Row j is what one of the executor's statements makes of row i, other than those that
      store a chunk or fix the source. */
  ghost predicate PlainMakes(i: Item, j: Item) {
    || j == i || j == Mark(i) || j == Strand(i)
    || (exists e, stopped :: j == FailRequest(i, e, stopped))
    || (exists code :: j == FailOutput(i, code))
    || (exists result :: j == Finish(i, result))
    || (exists code :: code != NoCode && j == Stop(i, code))
  }

  ghost predicate ExecutorMakes(i: Item, j: Item) {
    || PlainMakes(i, j)
    || (exists index, translated, start :: j == StoreChunk(i, index, translated, start))
    || (exists lines :: j == i.(source := lines, start := 0))
  }

  predicate StoresText(step: Step) {
    step.ChunkAnswers? || step.OpenLyrics?
  }

  /** Row j is what one of the reviewers' one-row statements makes of row i. */
  ghost predicate ReviewMakes(i: Item, j: Item) {
    || j == i || j == Accept(i) || j == Reject(i)
    || (exists code :: j == Invalidate(i, code))
    || (exists code :: j == AutoFail(i, code))
  }

  predicate Requeues(step: Step) {
    step.Resend? || step.Retry?
  }

  predicate OfChunk(step: Step) {
    step.AnnounceChunk? || step.ChunkAnswers? || step.ChunkTooLarge? || step.ChunkFails? || step.FinishLyrics?
  }

  predicate ExecutorStep(step: Step) {
    !RunnerStep(step) && !ReviewStep(step)
  }

  lemma ChunkRows(s: System, step: Step, svc: Service, id: nat)
    requires OfChunk(step) && id in s.items
    ensures id in Apply(s, step, svc).items && ExecutorMakes(s.items[id], Apply(s, step, svc).items[id])
    ensures !StoresText(step) ==> PlainMakes(s.items[id], Apply(s, step, svc).items[id])
  {
    hide Apply, PlainMakes;
    if step.ChunkAnswers? {
      StoresChunk(s, svc, id);
    } else {
      PlainChunkRows(s, step, svc, id);
    }
  }

  lemma PlainChunkRows(s: System, step: Step, svc: Service, id: nat)
    requires OfChunk(step) && !step.ChunkAnswers? && id in s.items
    ensures id in Apply(s, step, svc).items && PlainMakes(s.items[id], Apply(s, step, svc).items[id])
  {
    hide Mark, Strand, FailRequest, FailOutput, Finish, StoreChunk, Stop, ApplyRunner, ApplyReview, Chunk;
  }

  lemma StoresChunk(s: System, svc: Service, id: nat)
    requires id in s.items
    ensures id in Apply(s, ChunkAnswers, svc).items
    ensures ExecutorMakes(s.items[id], Apply(s, ChunkAnswers, svc).items[id])
  {
    hide Mark, Strand, FailRequest, FailOutput, Finish, StoreChunk, Stop, ApplyRunner, ApplyReview, Chunk;
  }

  lemma ExecutorRows(s: System, step: Step, svc: Service, id: nat)
    requires Enabled(s, step, svc) && ExecutorStep(step) && id in s.items
    ensures id in Apply(s, step, svc).items && ExecutorMakes(s.items[id], Apply(s, step, svc).items[id])
    ensures !StoresText(step) ==> PlainMakes(s.items[id], Apply(s, step, svc).items[id])
  {
    if OfChunk(step) {
      ChunkRows(s, step, svc, id);
    } else {
      if step.StopItem? {
        StopsWithCode(s, step, svc);
      }
      hide Enabled, Mark, Strand, FailRequest, FailOutput, Finish, StoreChunk, Stop;
      hide ApplyRunner, ApplyReview, ApplyChunk, InStates, Settled;
    }
  }

  lemma YieldKeepsRows(s: System, svc: Service)
    ensures Apply(s, Yield, svc).items == s.items
  {
    hide ApplyRunner, ApplyReview;
  }

  lemma StopsWithCode(s: System, step: Step, svc: Service)
    requires Enabled(s, step, svc) && step.StopItem?
    ensures step.code != NoCode
  {
  }

  /** A one-row statement of a reviewer. */
  lemma ReviewRows(s: System, step: Step, svc: Service, id: nat)
    requires ReviewStep(step) && !Requeues(step) && id in s.items
    ensures id in Apply(s, step, svc).items && ReviewMakes(s.items[id], Apply(s, step, svc).items[id])
    ensures Apply(s, step, svc).runs == s.runs
  {
    hide Accept, Reject, Invalidate, AutoFail, ApplyRunner, ApplyExecutor;
  }

  function Chosen(step: Step): seq<nat>
    requires Requeues(step)
  {
    step.chosen
  }

  predicate Acknowledges(step: Step)
  {
    step.Resend? && step.acknowledge
  }

  /** A resend or a retry requeues the items it chose, one by one. */
  lemma RequeueRows(s: System, step: Step, svc: Service)
    requires Requeues(step)
    ensures Apply(s, step, svc).items == RequeueAll(s.items, Chosen(step), Acknowledges(step))
  {
    hide RequeueAll, RunsToReopen, ReopenAll;
  }

  /** The runner inserts the rows of a submission, cancels those of a run, or touches none. */
  lemma RunnerRows(s: System, step: Step, svc: Service)
    requires Enabled(s, step, svc) && RunnerStep(step)
    ensures Apply(s, step, svc).items ==
      match step
      case Submit(run, planned) => InsertAll(s.items, run, planned)
      case CancelRun(run) => CancelItems(s.items, run)
      case _ => s.items
  {
    hide InsertAll, CancelItems;
  }

  /** And it reopens the runs that need it, or the run retried when an item of it was requeued. */
  lemma RequeueRuns(s: System, step: Step, svc: Service)
    requires Requeues(step)
    ensures Apply(s, step, svc).executor == s.executor
    ensures Apply(s, step, svc).runs ==
      match step
      case Resend(chosen, acknowledge) => ReopenAll(s.runs, RunsToReopen(s.items, chosen, acknowledge))
      case Retry(run, chosen) => if RequeueAll(s.items, chosen, false) == s.items then s.runs
        else ReopenAll(s.runs, {run})
      case _ => s.runs
  {
    hide RequeueAll, RunsToReopen, ReopenAll;
  }

  // ----- what the executor has in its hands -----

  ghost function Held(e: Executor): set<nat> {
    if e.Off? then {}
    else match e.doing
      case Sending(ids) => ids
      case Chunks(id, _, _, _, _, _) => {id}
      case _ => {}
  }

  /** The executor stays with its run, and takes up items of that run only. */
  ghost predicate HoldsOn(s: System, e: Executor) {
    e.On? ==>
      && s.executor.On? && e.run == s.executor.run
      && forall id :: id in Held(e) ==> id in Held(s.executor) || (id in s.items && s.items[id].run == e.run)
  }

  lemma ChunkHolds(s: System, step: Step, svc: Service)
    requires Enabled(s, step, svc) && OfChunk(step)
    ensures HoldsOn(s, Apply(s, step, svc).executor)
  {
    hide Mark, FailRequest, FailOutput, Finish, StoreChunk, Chunk, HasChunk, ApplyRunner, ApplyReview, ApplyJob;
  }

  lemma ExecutorHolds(s: System, step: Step, svc: Service)
    requires Enabled(s, step, svc) && ExecutorStep(step)
    ensures HoldsOn(s, Apply(s, step, svc).executor)
  {
    if OfChunk(step) {
      ChunkHolds(s, step, svc);
    } else {
      hide MarkAll, StrandRun, FailRequest, FailOutput, Finish, Stop, ApplyRunner, ApplyReview, ApplyChunk, InStates,
        Settled;
    }
  }

  /** No other step changes what it does, but for the claim that starts it and its end. */
  lemma OthersHold(s: System, step: Step, svc: Service)
    requires !ExecutorStep(step)
    ensures var e := Apply(s, step, svc).executor;
            e == s.executor || e == Off || (step.Claim? && e == On(step.claimed, Starting))
  {
    hide InsertAll, CancelItems, RequeueAll, RunsToReopen, ReopenAll, Accept, Invalidate, AutoFail, Reject;
  }

  /** The lyrics pass goes on as it was, but for whether a chunk is out, or there is none. */
  predicate SamePass(e: Executor, e': Executor) {
    e'.On? && e'.doing.Chunks? ==> e.On? && e.doing.Chunks? && e'.doing == e.doing.(sent := e'.doing.sent)
  }

  lemma ChunkPass(s: System, step: Step, svc: Service)
    requires OfChunk(step) && !StoresText(step)
    ensures SamePass(s.executor, Apply(s, step, svc).executor) && Apply(s, step, svc).items.Keys == s.items.Keys
  {
    hide Mark, FailRequest, FailOutput, Finish, ApplyRunner, ApplyReview;
  }

  lemma ExecutorPass(s: System, step: Step, svc: Service)
    requires Enabled(s, step, svc) && ExecutorStep(step) && !StoresText(step)
    ensures SamePass(s.executor, Apply(s, step, svc).executor) && Apply(s, step, svc).items.Keys == s.items.Keys
  {
    if OfChunk(step) {
      ChunkPass(s, step, svc);
    } else {
      hide Mark, Strand, FailRequest, FailOutput, Finish, Stop, ApplyRunner, ApplyReview, ApplyChunk, InStates, Settled;
    }
  }
}
