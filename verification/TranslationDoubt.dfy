/** When a request for an item may leave again, in terms of what the world reported: no
    history field of the rows is read here. */
module TranslationDoubt {
  import opened TranslationItems
  import opened TranslationProtocol
  import opened TranslationSafety
  import opened TranslationSteps
  import opened TranslationTheorems
  import opened TranslationRuns

  /** A request for the item leaves: alone or in a batch, or with a chunk of its lyrics. */
  predicate Leaves(s: System, step: Step, s': System, id: nat) {
    || (step.Announce? && id in step.ids && s'.executor.On? && s'.executor.doing.Sending?)
    || (step.AnnounceChunk? && Chunking(s.executor, false) && s.executor.doing.id == id && Chunking(s'.executor, true))
  }

  /** The request may have been answered, and charged: its answer was lost, or the service
      answered with a status that does not say it refused. */
  predicate Lost(e: RequestError) {
    e.ResultUnknown? || (e.Upstream? && e.status !in {400, 401, 403, 404, 422, 429})
  }

  predicate ChunkOf(s: System, id: nat) {
    Chunking(s.executor, true) && s.executor.doing.id == id
  }

  /** The world says what became of the request for the item: an answer, usable or not, or a
      failure that is no loss. */
  predicate Reports(s: System, step: Step, id: nat) {
    match step
    case Answer(id', _) => id' == id
    case AnswerUnusable(id', _) => id' == id
    case RequestFails(id', e, _) => id' == id && !Lost(e)
    case ChunkAnswers => ChunkOf(s, id)
    case ChunkTooLarge => ChunkOf(s, id)
    case ChunkFails(e, _) => ChunkOf(s, id) && !Lost(e)
    case _ => false
  }

  predicate ReportsLoss(s: System, step: Step, id: nat) {
    match step
    case RequestFails(id', e, _) => id' == id && Lost(e)
    case ChunkFails(e, _) => ChunkOf(s, id) && Lost(e)
    case _ => false
  }

  /** Someone sends an uncertain item again, confirming that it may be charged twice. */
  predicate Confirms(s: System, step: Step, id: nat) {
    step.Resend? && step.acknowledge && id in step.chosen && id in s.items && s.items[id].state == Uncertain
  }

  /** What ends the wait for a request: a report while the row waits for it, or a confirmation. */
  predicate Ends(s: System, step: Step, id: nat) {
    (id in s.items && s.items[id].state == Requesting && Reports(s, step, id)) || Confirms(s, step, id)
  }

  lemma LeavingMarks(s: System, step: Step, svc: Service, id: nat)
    requires Enabled(s, step, svc) && Leaves(s, step, Apply(s, step, svc), id)
    ensures id in s.items && s.items[id].state == Queued
    ensures id in Apply(s, step, svc).items && Apply(s, step, svc).items[id].state == Requesting
  {
    hide ApplyRunner, ApplyReview, ApplyJob;
  }

  // ----- one step -----

  /** The request for the item left and its outcome is not known, or the item was given up since. */
  predicate Waits(i: Item) {
    i.state in {Requesting, Uncertain, Rejected}
  }

  /** A row that waits goes on waiting, and one whose answer is lost does not become one that is sent. */
  predicate WaitsOn(i: Item, j: Item) {
    Waits(j) && (i.state != Requesting ==> j.state != Requesting)
  }

  /** While no request is out, the executor's run has no row that waits for one. */
  lemma NoneOut(s: System, id: nat)
    requires Inv(s) && s.executor.On? && !s.executor.doing.Starting? && InFlight(s.executor) == {}
    requires id in s.items && s.items[id].run == s.executor.run
    ensures s.items[id].state != Requesting
  {
  }

  lemma ChunkIdle(s: System)
    requires Inv(s) && OwnRun(s) && Chunking(s.executor, false) && s.executor.doing.id in s.items
    ensures s.items[s.executor.doing.id].state != Requesting
  {
    assert s.executor.doing.id in Held(s.executor);
    NoneOut(s, s.executor.doing.id);
  }

  lemma ChunkWaits(s: System, step: Step, svc: Service, id: nat)
    requires Inv(s) && OwnRun(s) && Enabled(s, step, svc) && OfChunk(step) && id in s.items
    requires Waits(s.items[id]) && !Ends(s, step, id)
    ensures id in Apply(s, step, svc).items && WaitsOn(s.items[id], Apply(s, step, svc).items[id])
  {
    hide Inv, OwnRun, HasChunk, Apply, Ends, Waits;
    if s.executor.doing.id != id {
      ChunkElsewhere(s, step, svc, id);
    } else {
      if Chunking(s.executor, false) {
        ChunkIdle(s);
      }
      ChunkHere(s, step, svc, id);
    }
  }

  lemma ChunkElsewhere(s: System, step: Step, svc: Service, id: nat)
    requires Enabled(s, step, svc) && OfChunk(step) && id in s.items && s.executor.doing.id != id
    ensures id in Apply(s, step, svc).items && Apply(s, step, svc).items[id] == s.items[id]
  {
    hide ApplyRunner, ApplyReview, ApplyJob, Chunk, HasChunk, Mark, StoreChunk, FailRequest, FailOutput, Finish;
  }

  lemma ChunkHere(s: System, step: Step, svc: Service, id: nat)
    requires Enabled(s, step, svc) && OfChunk(step) && id in s.items && s.executor.doing.id == id
    requires Waits(s.items[id]) && !Ends(s, step, id)
      && (Chunking(s.executor, false) ==> s.items[id].state != Requesting)
    ensures id in Apply(s, step, svc).items && WaitsOn(s.items[id], Apply(s, step, svc).items[id])
  {
    hide ApplyRunner, ApplyReview, ApplyJob, Chunk, HasChunk, Confirms;
    RowWaits(s.items[id]);
    hide Mark, StoreChunk, FailRequest, FailOutput, Finish, WaitsOn, Waits;
  }

  /** What a waiting row makes of the statements that may meet it. */
  lemma RowWaits(i: Item)
    requires Waits(i)
    ensures WaitsOn(i, i) && WaitsOn(i, Mark(i)) && WaitsOn(i, Strand(i)) && WaitsOn(i, CancelItem(i))
    ensures forall e, stopped :: i.state != Requesting || Lost(e) ==> WaitsOn(i, FailRequest(i, e, stopped))
    ensures forall code :: i.state != Requesting ==> WaitsOn(i, FailOutput(i, code)) && WaitsOn(i, Stop(i, code))
    ensures forall result :: i.state != Requesting ==> WaitsOn(i, Finish(i, result))
    ensures forall index, text, start :: i.state != Requesting ==> WaitsOn(i, StoreChunk(i, index, text, start))
    ensures forall lines :: WaitsOn(i, i.(source := lines, start := 0))
  {
  }

  lemma PlainWaits(s: System, step: Step, svc: Service, id: nat)
    requires Enabled(s, step, svc) && ExecutorStep(step) && !OfChunk(step) && id in s.items
    requires Waits(s.items[id]) && !Ends(s, step, id)
    requires step.StopItem? && step.id == id ==> s.items[id].state != Requesting
    ensures id in Apply(s, step, svc).items && WaitsOn(s.items[id], Apply(s, step, svc).items[id])
  {
    hide ApplyRunner, ApplyReview, ApplyChunk, InStates, Settled, Confirms, Mark, Strand, FailRequest, FailOutput,
      Finish, Stop, WaitsOn, Waits, Lost, HasChunk;
    RowWaits(s.items[id]);
    if step.Yield? {
      YieldKeepsRows(s, svc);
    }
  }

  lemma StopsIdle(s: System, step: Step, svc: Service)
    requires Inv(s) && Enabled(s, step, svc) && step.StopItem?
    ensures step.id in s.items && s.items[step.id].state != Requesting
  {
    NoneOut(s, step.id);
  }

  lemma ExecutorWaits(s: System, step: Step, svc: Service, id: nat)
    requires Inv(s) && OwnRun(s) && Enabled(s, step, svc) && ExecutorStep(step) && id in s.items
    requires Waits(s.items[id]) && !Ends(s, step, id)
    ensures id in Apply(s, step, svc).items && WaitsOn(s.items[id], Apply(s, step, svc).items[id])
  {
    hide Inv, OwnRun, Enabled, Apply, Waits, Ends, WaitsOn;
    if OfChunk(step) {
      ChunkWaits(s, step, svc, id);
    } else {
      if step.StopItem? {
        StopsIdle(s, step, svc);
      }
      PlainWaits(s, step, svc, id);
    }
  }

  lemma ResendWaits(s: System, step: Step, svc: Service, id: nat)
    requires Inv(s) && Requeues(step) && id in s.items && Waits(s.items[id]) && !Confirms(s, step, id)
    ensures id in Apply(s, step, svc).items && Apply(s, step, svc).items[id] == s.items[id]
  {
    InvRows(s);
    assert Accounted(s.items[id]);
    RequeueRows(s, step, svc);
    if s.items[id].state == Uncertain {
      RequeueKeepsUnknown(s.items, Chosen(step), Acknowledges(step), id);
    } else {
      RequeueKeepsTerminal(s.items, Chosen(step), Acknowledges(step), id);
    }
  }

  lemma RunnerWaits(s: System, step: Step, svc: Service, id: nat)
    requires Inv(s) && Enabled(s, step, svc) && RunnerStep(step) && id in s.items && Waits(s.items[id])
    ensures id in Apply(s, step, svc).items && WaitsOn(s.items[id], Apply(s, step, svc).items[id])
  {
    InvRows(s);
    RunnerRows(s, step, svc);
    if step.Submit? {
      InsertSound(s.items, step.newRun, step.planned);
    }
    hide Apply, Inv, RowsAccounted, OneActive;
  }

  lemma ReviewWaits(i: Item, j: Item)
    requires ReviewMakes(i, j) && Waits(i)
    ensures WaitsOn(i, j)
  {
  }

  /** Nothing but a report or a confirmation ends a row's wait. */
  lemma StepWaits(s: System, step: Step, svc: Service, id: nat)
    requires Inv(s) && OwnRun(s) && Enabled(s, step, svc) && id in s.items && Waits(s.items[id]) && !Ends(s, step, id)
    ensures id in Apply(s, step, svc).items && WaitsOn(s.items[id], Apply(s, step, svc).items[id])
  {
    hide Inv, OwnRun, Enabled, Apply, ReviewMakes, Reports;
    if RunnerStep(step) {
      RunnerWaits(s, step, svc, id);
    } else if Requeues(step) {
      ResendWaits(s, step, svc, id);
    } else if ReviewStep(step) {
      ReviewRows(s, step, svc, id);
      ReviewWaits(s.items[id], Apply(s, step, svc).items[id]);
    } else {
      ExecutorWaits(s, step, svc, id);
    }
  }

  // ----- whole traces -----

  lemma {:induction false} TraceWaits(ss: seq<System>, steps: seq<Step>, svc: Service, i: nat, j: nat, id: nat)
    requires Trace(ss, steps, svc) && i <= j <= |steps| && id in ss[i].items && Waits(ss[i].items[id])
    requires forall k :: i <= k < j ==> !Ends(ss[k], steps[k], id)
    ensures id in ss[j].items && WaitsOn(ss[i].items[id], ss[j].items[id])
    decreases j
  {
    if i < j {
      var h := j - 1;
      TraceWaits(ss, steps, svc, i, h, id);
      TraceInv(ss, steps, svc, h);
      TraceOwnRun(ss, steps, svc, h);
      assert Next(ss[h], steps[h], ss[j], svc);
      hide Trace, Inv, OwnRun, Enabled, Apply, Ends;
      StepWaits(ss[h], steps[h], svc, id);
    }
  }

  /** No silent double charge: between two requests for one item, the world reported what
      became of the first while the row waited for it, or someone confirmed sending again. */
  lemma NoSilentDoubleCharge(ss: seq<System>, steps: seq<Step>, svc: Service, i: nat, j: nat, id: nat)
    requires Trace(ss, steps, svc) && i < j < |steps|
    requires Leaves(ss[i], steps[i], ss[i + 1], id) && Leaves(ss[j], steps[j], ss[j + 1], id)
    ensures exists k :: i < k < j && Ends(ss[k], steps[k], id)
  {
    assert Next(ss[i], steps[i], ss[i + 1], svc) && Next(ss[j], steps[j], ss[j + 1], svc);
    hide Ends, Leaves, Enabled, Apply;
    LeavingMarks(ss[i], steps[i], svc, id);
    LeavingMarks(ss[j], steps[j], svc, id);
    if forall k :: i < k < j ==> !Ends(ss[k], steps[k], id) {
      TraceWaits(ss, steps, svc, i + 1, j, id);
    }
  }

  lemma {:induction false} LossLasts(ss: seq<System>, steps: seq<Step>, svc: Service, i: nat, j: nat, id: nat)
    requires Trace(ss, steps, svc) && i <= j <= |steps| && id in ss[i].items && ss[i].items[id].state == Uncertain
    requires forall k :: i <= k < j ==> !Confirms(ss[k], steps[k], id)
    ensures id in ss[j].items && ss[j].items[id].state in {Uncertain, Rejected}
    decreases j
  {
    if i < j {
      var h := j - 1;
      LossLasts(ss, steps, svc, i, h, id);
      TraceInv(ss, steps, svc, h);
      TraceOwnRun(ss, steps, svc, h);
      assert Next(ss[h], steps[h], ss[j], svc);
      assert !Ends(ss[h], steps[h], id);
      hide Trace, Inv, OwnRun, Enabled, Apply, Ends;
      StepWaits(ss[h], steps[h], svc, id);
    }
  }

  /** An item left uncertain, by a loss, a restart or a cancellation, is sent again only once
      someone confirms it. */
  lemma UncertainWaits(ss: seq<System>, steps: seq<Step>, svc: Service, i: nat, j: nat, id: nat)
    requires Trace(ss, steps, svc) && i <= j < |steps| && id in ss[i].items && ss[i].items[id].state == Uncertain
    requires Leaves(ss[j], steps[j], ss[j + 1], id)
    ensures exists k :: i <= k < j && Confirms(ss[k], steps[k], id)
  {
    assert Next(ss[j], steps[j], ss[j + 1], svc);
    hide Confirms, Leaves, Enabled, Apply;
    LeavingMarks(ss[j], steps[j], svc, id);
    if forall k :: i <= k < j ==> !Confirms(ss[k], steps[k], id) {
      LossLasts(ss, steps, svc, i, j, id);
    }
  }

  lemma LossDoubts(s: System, step: Step, svc: Service, id: nat)
    requires Enabled(s, step, svc) && ReportsLoss(s, step, id) && id in s.items && s.items[id].state == Requesting
    ensures id in Apply(s, step, svc).items && Apply(s, step, svc).items[id].state == Uncertain
  {
    hide ApplyRunner, ApplyReview, ApplyJob, Chunk;
  }

  /** So once an answer is lost, no other request for the item leaves before someone confirms it. */
  lemma LostAnswerWaits(ss: seq<System>, steps: seq<Step>, svc: Service, i: nat, j: nat, id: nat)
    requires Trace(ss, steps, svc) && i < j < |steps| && ReportsLoss(ss[i], steps[i], id)
    requires id in ss[i].items && ss[i].items[id].state == Requesting
    requires Leaves(ss[j], steps[j], ss[j + 1], id)
    ensures exists k :: i < k < j && Confirms(ss[k], steps[k], id)
  {
    assert Next(ss[i], steps[i], ss[i + 1], svc);
    hide Confirms, Leaves, Enabled, Apply, ReportsLoss;
    LossDoubts(ss[i], steps[i], svc, id);
    UncertainWaits(ss, steps, svc, i + 1, j, id);
  }

  /** A restarted execution, and a settlement, leave no row of the run waiting for an answer
      that nobody will receive. */
  lemma RestartDoubts(s: System, step: Step, svc: Service, id: nat)
    requires Enabled(s, step, svc) && step.Recover? && id in s.items && s.items[id].run == s.executor.run
    ensures id in Apply(s, step, svc).items
    ensures var i, j := s.items[id], Apply(s, step, svc).items[id];
            j.state == if i.state == Requesting then Uncertain else i.state
  {
  }
}
