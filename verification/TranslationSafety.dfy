/** Safety of Translate with AI over every interleaving. */
module TranslationSafety {
  import opened TranslationItems
  import opened TranslationProtocol

  // ----- rows -----

  ghost predicate RowsAccounted(items: Items) {
    forall id :: id in items ==> Accounted(items[id])
  }

  /** At most one active item per object. */
  ghost predicate OneActive(items: Items) {
    forall a, b :: a in items && b in items && a != b && Active(items[a].state) && Active(items[b].state) ==>
      items[a].key != items[b].key
  }

  /** A statement that brings no row back to an active state. */
  ghost predicate NoneRevived(items: Items, items': Items) {
    items'.Keys == items.Keys && forall id :: id in items ==> NotRevived(items[id], items'[id])
  }

  lemma NoneRevivedKeepsOneActive(items: Items, items': Items)
    requires OneActive(items) && NoneRevived(items, items')
    ensures OneActive(items')
  {
    forall a, b | a in items' && b in items' && a != b && Active(items'[a].state) && Active(items'[b].state)
      ensures items'[a].key != items'[b].key
    {
      assert NotRevived(items[a], items'[a]) && NotRevived(items[b], items'[b]);
    }
  }

  lemma OneRowAccounted(items: Items, id: nat, i: Item)
    requires RowsAccounted(items) && Accounted(i)
    ensures RowsAccounted(items[id := i])
  {
  }

  lemma OneRowNotRevived(items: Items, id: nat, i: Item)
    requires id in items && NotRevived(items[id], i)
    ensures NoneRevived(items, items[id := i])
  {
  }

  lemma {:induction false} InsertSound(items: Items, run: nat, planned: seq<Planned>)
    requires RowsAccounted(items) && OneActive(items)
    requires forall i :: 0 <= i < |planned| ==> planned[i].id !in items
    requires forall i, j :: 0 <= i < j < |planned| ==> planned[i].id != planned[j].id
    ensures var items' := InsertAll(items, run, planned);
            && RowsAccounted(items') && OneActive(items')
            && (forall id :: id in items ==> id in items' && items'[id] == items[id])
            && (forall id :: id in items' && id !in items ==>
                 items'[id].run == run && (exists i :: 0 <= i < |planned| && planned[i].id == id)
                 && items'[id].result == None && items'[id].checkpoint == []
                 && items'[id].requestIndex == 0 == items'[id].start && items'[id].state == Queued)
  {
    if planned != [] {
      var front, p := planned[..|planned| - 1], planned[|planned| - 1];
      InsertSound(items, run, front);
      var before := InsertAll(items, run, front);
      if !ActiveKey(before, p.key) {
        assert p.id !in before;
        OneRowAccounted(before, p.id, NewItem(run, p));
      }
    }
  }

  lemma RequeueOneSound(items: Items, id: nat, acknowledge: bool)
    requires RowsAccounted(items) && OneActive(items) && Resendable(items, id, acknowledge)
    ensures var items' := items[id := Requeue(items[id], acknowledge)]; RowsAccounted(items') && OneActive(items')
  {
    OneRowAccounted(items, id, Requeue(items[id], acknowledge));
  }

  lemma {:induction false} RequeueSound(items: Items, chosen: seq<nat>, acknowledge: bool)
    requires RowsAccounted(items) && OneActive(items)
    ensures var items' := RequeueAll(items, chosen, acknowledge);
            && RowsAccounted(items') && OneActive(items') && items'.Keys == items.Keys
            && (forall id :: id in items ==> SameObject(items[id], items'[id]))
            && (forall id :: id in items && id !in chosen ==> items'[id] == items[id])
  {
    if chosen != [] {
      var front, id := chosen[..|chosen| - 1], chosen[|chosen| - 1];
      RequeueSound(items, front, acknowledge);
      var before := RequeueAll(items, front, acknowledge);
      if Resendable(before, id, acknowledge) {
        RequeueOneSound(before, id, acknowledge);
      }
    }
  }

  // ----- the executor holds every request in flight -----

  ghost function InFlight(e: Executor): set<nat> {
    if e.Off? then {}
    else match e.doing
      case Sending(ids) => ids
      case Chunks(id, _, _, _, _, sent) => if sent then {id} else {}
      case _ => {}
  }

  /** Once an execution has recovered its run, what is requesting in the run is what it is sending. */
  ghost predicate HoldsRequests(items: Items, e: Executor) {
    e.On? && !e.doing.Starting? ==>
      forall id :: id in items && items[id].run == e.run && items[id].state == Requesting ==> id in InFlight(e)
  }

  // ----- jobs -----

  ghost predicate JobSound(r: Run) {
    && (r.job == StQueued <==> r.status == StQueued)
    && (r.job == StRunning <==> r.status == StRunning)
    && (r.status == StCancelled ==> r.job == StCancelled)
    && (r.abandoned ==> r.job == StFailed)
    && r.job != StPartial
  }

  predicate Unsent(i: Item) {
    i.state in {Queued, Requesting}
  }

  predicate JobPending(r: Run) {
    r.job in {StQueued, StRunning} || r.abandoned
  }

  ghost predicate JobsSound(items: Items, runs: Runs) {
    && (forall r :: r in runs ==> JobSound(runs[r]))
    && (forall id :: id in items ==> items[id].run in runs)
    && (forall id :: id in items && Unsent(items[id]) ==> JobPending(runs[items[id].run]))
  }

  ghost predicate Inv(s: System) {
    && RowsAccounted(s.items) && OneActive(s.items)
    && HoldsRequests(s.items, s.executor)
    && JobsSound(s.items, s.runs)
  }

  lemma RowAt(items: Items, id: nat)
    requires RowsAccounted(items) && id in items
    ensures Accounted(items[id])
  {
  }

  lemma InvRows(s: System)
    requires Inv(s)
    ensures RowsAccounted(s.items) && OneActive(s.items)
  {
  }

  // ----- each step keeps the invariant -----

  /** A statement on one row: it sends nothing, revives nothing and accounts for its requests. */
  lemma RowStepInv(s: System, id: nat, i: Item, e: Executor)
    requires Inv(s) && id in s.items && NotRevived(s.items[id], i) && Accounted(i)
    requires Unsent(i) ==> Unsent(s.items[id])
    requires HoldsRequests(s.items[id := i], e)
    ensures Inv(System(s.items[id := i], s.runs, e))
  {
    OneRowAccounted(s.items, id, i);
    OneRowNotRevived(s.items, id, i);
    NoneRevivedKeepsOneActive(s.items, s.items[id := i]);
  }

  lemma StopInv(s: System, id: nat, code: Code)
    requires Inv(s) && id in s.items && IdleIn(s.executor, s.items[id].run) && code != NoCode
    ensures s.items[id].state != Requesting
    ensures Inv(System(s.items[id := Stop(s.items[id], code)], s.runs, On(s.executor.run, Between)))
  {
    RowStepInv(s, id, Stop(s.items[id], code), On(s.executor.run, Between));
  }

  lemma StopStepInv(s: System, id: nat, code: Code, svc: Service)
    requires Inv(s) && Enabled(s, StopItem(id, code), svc)
    ensures Inv(Apply(s, StopItem(id, code), svc))
  {
    StopInv(s, id, code);
  }

  /** Recording an outcome for a row the executor is sending. */
  lemma OutcomeInv(s: System, id: nat, i: Item, e: Executor)
    requires Inv(s) && id in s.items && s.executor.On? && !s.executor.doing.Starting?
    requires e.On? && e.run == s.executor.run && !e.doing.Starting? && InFlight(s.executor) - {id} <= InFlight(e)
    requires NotRevived(s.items[id], i) && Accounted(i) && i.state != Requesting && (Unsent(i) ==> Unsent(s.items[id]))
    ensures Inv(System(s.items[id := i], s.runs, e))
  {
    RowStepInv(s, id, i, e);
  }

  lemma AnswerInv(s: System, id: nat, result: seq<string>, svc: Service)
    requires Inv(s) && Enabled(s, Answer(id, result), svc)
    ensures Inv(Apply(s, Answer(id, result), svc))
  {
    OutcomeInv(s, id, Finish(s.items[id], result), Answered(s.executor, id));
  }

  lemma UnusableInv(s: System, id: nat, code: Code, svc: Service)
    requires Inv(s) && Enabled(s, AnswerUnusable(id, code), svc)
    ensures Inv(Apply(s, AnswerUnusable(id, code), svc))
  {
    OutcomeInv(s, id, FailOutput(s.items[id], code), Answered(s.executor, id));
  }

  lemma RequestFailsInv(s: System, id: nat, e: RequestError, stopped: bool, svc: Service)
    requires Inv(s) && Enabled(s, RequestFails(id, e, stopped), svc)
    ensures Inv(Apply(s, RequestFails(id, e, stopped), svc))
  {
    OutcomeInv(s, id, FailRequest(s.items[id], e, stopped), Answered(s.executor, id));
  }

  lemma ChunkAnswersInv(s: System, svc: Service)
    requires Inv(s) && Enabled(s, ChunkAnswers, svc)
    ensures Inv(Apply(s, ChunkAnswers, svc))
  {
    hide OneActive, JobsSound, Chunk;
    var d := s.executor.doing;
    var more := d.translated + svc.translate(Chunk(svc, d.lines, d.index));
    OutcomeInv(s, d.id, StoreChunk(s.items[d.id], d.index, more, d.start),
               On(s.executor.run, Chunks(d.id, d.lines, d.index + 1, more, d.start, false)));
  }

  lemma ChunkTooLargeInv(s: System, svc: Service)
    requires Inv(s) && Enabled(s, ChunkTooLarge, svc)
    ensures Inv(Apply(s, ChunkTooLarge, svc))
  {
    hide OneActive, JobsSound;
    var id := s.executor.doing.id;
    OutcomeInv(s, id, FailOutput(s.items[id], TranslationOutputTooLarge), On(s.executor.run, Between));
  }

  lemma ChunkFailsInv(s: System, e: RequestError, stopped: bool, svc: Service)
    requires Inv(s) && Enabled(s, ChunkFails(e, stopped), svc)
    ensures Inv(Apply(s, ChunkFails(e, stopped), svc))
  {
    hide OneActive, JobsSound, ApplyRunner, ApplyReview, ApplyJob, RowsAccounted;
    InvRows(s);
    RowAt(s.items, s.executor.doing.id);
    var id := s.executor.doing.id;
    OutcomeInv(s, id, FailRequest(s.items[id], e, stopped), On(s.executor.run, Between));
  }

  lemma FinishLyricsInv(s: System, renders: bool, svc: Service)
    requires Inv(s) && Enabled(s, FinishLyrics(renders), svc)
    ensures Inv(Apply(s, FinishLyrics(renders), svc))
  {
    hide OneActive, JobsSound, HasChunk;
    var d := s.executor.doing;
    var i := s.items[d.id];
    OutcomeInv(s, d.id,
               if renders && |d.translated| == |d.lines| then Finish(i, d.translated)
               else FailOutput(i, InvalidLyricsOutput),
               On(s.executor.run, Between));
  }

  lemma MarkInv(s: System, ids: set<nat>, e: Executor)
    requires Inv(s) && s.executor.On? && !s.executor.doing.Starting?
    requires e.Off? || (e.run == s.executor.run && !e.doing.Starting? && InFlight(s.executor) + ids <= InFlight(e))
    ensures Inv(System(MarkAll(s.items, ids), s.runs, e))
  {
    var items := MarkAll(s.items, ids);
    forall id | id in items
      ensures Accounted(items[id]) && NotRevived(s.items[id], items[id])
    {
    }
    NoneRevivedKeepsOneActive(s.items, items);
  }

  lemma OpenInv(s: System, id: nat, lines: seq<string>, svc: Service)
    requires Inv(s) && Enabled(s, OpenLyrics(id, lines), svc)
    ensures Inv(Apply(s, OpenLyrics(id, lines), svc))
  {
    var s' := Apply(s, OpenLyrics(id, lines), svc);
    if Unread(s.items[id]) {
      RowStepInv(s, id, s.items[id].(source := lines, start := 0), s'.executor);
    }
  }

  lemma StrandInv(s: System, run: nat)
    requires Inv(s)
    ensures var items := StrandRun(s.items, run);
            && RowsAccounted(items) && OneActive(items)
            && (forall id :: id in items && items[id].run == run ==> items[id].state != Requesting)
            && (forall id :: id in items && Unsent(items[id]) ==> Unsent(s.items[id]))
  {
    var items := StrandRun(s.items, run);
    forall id | id in items
      ensures Accounted(items[id]) && NotRevived(s.items[id], items[id])
    {
    }
    NoneRevivedKeepsOneActive(s.items, items);
  }

  lemma RecoverInv(s: System, svc: Service)
    requires Inv(s) && Enabled(s, Recover, svc)
    ensures Inv(Apply(s, Recover, svc))
  {
    StrandInv(s, s.executor.run);
  }

  lemma SettledSound(items: Items, run: nat)
    ensures JobSound(Settled(items, run)) && !Settled(items, run).abandoned
      && Settled(items, run).job in {StSucceeded, StFailed}
  {
  }

  /** The executor leaves its run's job in state r. */
  lemma JobLeftInv(s: System, run: nat, r: Run)
    requires Inv(s) && run in s.runs && JobSound(r)
    requires JobPending(r) || InStates(StrandRun(s.items, run), run, {Queued}) == {}
    ensures Inv(System(StrandRun(s.items, run), s.runs[run := r], Off))
  {
    StrandInv(s, run);
    var items := StrandRun(s.items, run);
    forall id | id in items && Unsent(items[id])
      ensures JobPending(s.runs[run := r][items[id].run])
    {
      if items[id].run == run {
        assert items[id].state == Queued;
        assert id in InStates(items, run, {Queued});
      }
    }
  }

  lemma SettleResult(s: System, svc: Service)
    requires Enabled(s, Settle, svc)
    ensures var run := s.executor.run;
            var items := StrandRun(s.items, run);
            Apply(s, Settle, svc) ==
              if s.runs[run].job == StRunning == s.runs[run].status then
                System(items, s.runs[run := if InStates(items, run, {Queued}) != {} then Run(StQueued, StQueued, false)
                  else Settled(items, run)], Off)
              else s.(executor := Off)
  {
    hide StrandRun, InStates, Settled;
  }

  /** Settlement never settles the job while one of its items is queued or requesting. */
  lemma SettleInv(s: System, svc: Service)
    requires Inv(s) && Enabled(s, Settle, svc)
    ensures Inv(Apply(s, Settle, svc))
  {
    var run := s.executor.run;
    SettleResult(s, svc);
    EndedInv(s);
    hide Inv, Apply, StrandRun, InStates, Settled;
    if s.runs[run].status == StRunning && s.runs[run].job == StRunning {
      var items := StrandRun(s.items, run);
      SettledSound(items, run);
      JobLeftInv(s, run, if InStates(items, run, {Queued}) != {} then Run(StQueued, StQueued, false)
        else Settled(items, run));
    }
  }

  lemma EndedInv(s: System)
    requires Inv(s)
    ensures Inv(s.(executor := Off))
  {
  }

  lemma CancelledItems(s: System, run: nat)
    requires Inv(s)
    ensures var items := CancelItems(s.items, run);
            && RowsAccounted(items) && OneActive(items) && items.Keys == s.items.Keys
            && (forall id :: id in items && items[id].run == run ==> !Unsent(items[id]))
            && (forall id :: id in items && items[id].run != run ==> items[id] == s.items[id])
            && (forall id :: id in items ==> items[id].run == s.items[id].run)
  {
    var items := CancelItems(s.items, run);
    forall id | id in items
      ensures Accounted(items[id]) && NotRevived(s.items[id], items[id])
        && (items[id].run == run ==> !Unsent(items[id]))
    {
    }
    NoneRevivedKeepsOneActive(s.items, items);
  }

  lemma CancelInv(s: System, run: nat, svc: Service)
    requires Inv(s) && Enabled(s, CancelRun(run), svc)
    ensures Inv(Apply(s, CancelRun(run), svc))
  {
    CancelledItems(s, run);
    hide CancelItems, RowsAccounted, OneActive;
  }

  lemma SubmitInv(s: System, run: nat, planned: seq<Planned>, svc: Service)
    requires Inv(s) && Enabled(s, Submit(run, planned), svc)
    ensures Inv(Apply(s, Submit(run, planned), svc))
  {
    hide InsertAll, ActiveKey, Accounted, HoldsRequests, JobsSound;
    InsertSound(s.items, run, planned);
    RowsAddedInv(s, InsertAll(s.items, run, planned), run);
  }

  /** Queued rows of a new run, with the job that will send them. */
  lemma RowsAddedInv(s: System, items: Items, run: nat)
    requires Inv(s) && run !in s.runs && RowsAccounted(items) && OneActive(items)
    requires forall id :: id in s.items ==> id in items && items[id] == s.items[id]
    requires forall id :: id in items && id !in s.items ==> items[id].run == run && items[id].state == Queued
    ensures Inv(System(items, s.runs[run := Run(StQueued, StQueued, false)], s.executor))
  {
    hide RowsAccounted, OneActive;
  }

  lemma {:induction false} RequeueReopens(items: Items, chosen: seq<nat>, acknowledge: bool)
    requires RowsAccounted(items) && OneActive(items)
    ensures var items' := RequeueAll(items, chosen, acknowledge);
            && items'.Keys == items.Keys
            && forall id :: id in items ==>
                 && items'[id].run == items[id].run
                 && (Unsent(items'[id]) && !Unsent(items[id]) ==>
                      items'[id].run in RunsToReopen(items, chosen, acknowledge))
                 && (items'[id].state == Requesting ==> items[id].state == Requesting)
  {
    if chosen != [] {
      RequeueReopens(items, chosen[..|chosen| - 1], acknowledge);
      RequeueSound(items, chosen[..|chosen| - 1], acknowledge);
    }
  }

  /** A resend that queues an item leaves its run with a job that will run, in the same transaction. */
  lemma ResendInv(s: System, chosen: seq<nat>, acknowledge: bool, which: set<nat>)
    requires Inv(s) && which >= RunsToReopen(s.items, chosen, acknowledge)
    ensures Inv(System(RequeueAll(s.items, chosen, acknowledge), ReopenAll(s.runs, which), s.executor))
  {
    RequeueSound(s.items, chosen, acknowledge);
    RequeueReopens(s.items, chosen, acknowledge);
    var items, runs := RequeueAll(s.items, chosen, acknowledge), ReopenAll(s.runs, which);
    forall id | id in items && Unsent(items[id])
      ensures JobPending(runs[items[id].run])
    {
      var r := s.runs[items[id].run];
      assert JobSound(r);
      if !Unsent(s.items[id]) {
        assert items[id].run in which;
        assert JobPending(Reopen(r));
      }
    }
  }

  lemma {:induction false} ReopensChosen(items: Items, run: nat, chosen: seq<nat>, acknowledge: bool)
    requires RowsAccounted(items) && OneActive(items)
    requires forall id :: id in chosen ==> id in items && items[id].run == run
    ensures RunsToReopen(items, chosen, acknowledge) <= {run}
  {
    if chosen != [] {
      var front := chosen[..|chosen| - 1];
      ReopensChosen(items, run, front, acknowledge);
      RequeueSound(items, front, acknowledge);
      assert chosen[|chosen| - 1] in chosen;
    }
  }

  /** Each of these keeps the invariant for whatever the reviewers' one-row statements make of a row. */
  lemma ReviewsRowOf(i: Item)
    requires Accounted(i)
    ensures forall j ::
      j == Accept(i) || j == Reject(i) || (exists code :: j == Invalidate(i, code) || j == AutoFail(i, code)) ==>
      ReviewsRow(i, j)
  {
  }

  predicate ReviewsRow(i: Item, j: Item) {
    NotRevived(i, j) && Accounted(j) && (Unsent(j) ==> Unsent(i)) && (j.state == Requesting ==> i.state == Requesting)
  }

  lemma ReviewRowInv(s: System, id: nat, j: Item)
    requires Inv(s) && id in s.items && ReviewsRow(s.items[id], j)
    ensures Inv(s.(items := s.items[id := j]))
  {
    RowStepInv(s, id, j, s.executor);
  }

  lemma OneReviewInv(s: System, step: Step, svc: Service)
    requires Inv(s) && Enabled(s, step, svc)
      && (step.AcceptItem? || step.InvalidateItem? || step.AutoFailItem? || step.RejectItem?)
    ensures Inv(Apply(s, step, svc))
  {
    assert Accounted(s.items[step.id]);
    ReviewsRowOf(s.items[step.id]);
    hide Inv, ReviewsRow, Accounted, Accept, Invalidate, AutoFail, Reject;
    ReviewRowInv(s, step.id, Apply(s, step, svc).items[step.id]);
  }

  lemma ResendStepInv(s: System, chosen: seq<nat>, acknowledge: bool, svc: Service)
    requires Inv(s)
    ensures Inv(Apply(s, Resend(chosen, acknowledge), svc))
  {
    ResendInv(s, chosen, acknowledge, RunsToReopen(s.items, chosen, acknowledge));
    hide Inv;
  }

  lemma RetryStepInv(s: System, run: nat, chosen: seq<nat>, svc: Service)
    requires Inv(s) && Enabled(s, Retry(run, chosen), svc)
    ensures Inv(Apply(s, Retry(run, chosen), svc))
  {
    ReopensChosen(s.items, run, chosen, false);
    hide Inv;
    ResendInv(s, chosen, false, {run});
  }

  lemma AnnounceInv(s: System, ids: set<nat>, svc: Service)
    requires Inv(s) && Enabled(s, Announce(ids), svc)
    ensures Inv(Apply(s, Announce(ids), svc))
  {
    var s' := Apply(s, Announce(ids), svc);
    if s'.items != s.items || s'.executor.On? {
      MarkInv(s, ids, s'.executor);
    }
  }

  lemma AnnounceChunkInv(s: System, svc: Service)
    requires Inv(s) && Enabled(s, AnnounceChunk, svc)
    ensures Inv(Apply(s, AnnounceChunk, svc))
  {
    var id, s' := s.executor.doing.id, Apply(s, AnnounceChunk, svc);
    if s'.executor.On? {
      RowStepInv(s, id, Mark(s.items[id]), s'.executor);
    }
  }

  lemma StepInv(s: System, step: Step, svc: Service)
    requires Inv(s) && Enabled(s, step, svc)
    ensures Inv(Apply(s, step, svc))
  {
    hide Inv, Apply;
    match step {
      case Submit(run, planned) => SubmitInv(s, run, planned, svc);
      case CancelRun(run) => CancelInv(s, run, svc);
      case Recover => RecoverInv(s, svc);
      case StopItem(id, code) => StopStepInv(s, id, code, svc);
      case Announce(ids) => AnnounceInv(s, ids, svc);
      case AnnounceChunk => AnnounceChunkInv(s, svc);
      case Answer(id, result) => AnswerInv(s, id, result, svc);
      case AnswerUnusable(id, code) => UnusableInv(s, id, code, svc);
      case RequestFails(id, e, stopped) => RequestFailsInv(s, id, e, stopped, svc);
      case OpenLyrics(id, lines) => OpenInv(s, id, lines, svc);
      case ChunkAnswers => ChunkAnswersInv(s, svc);
      case ChunkTooLarge => ChunkTooLargeInv(s, svc);
      case ChunkFails(e, stopped) => ChunkFailsInv(s, e, stopped, svc);
      case FinishLyrics(renders) => FinishLyricsInv(s, renders, svc);
      case Settle => SettleInv(s, svc);
      case AcceptItem(_) => OneReviewInv(s, step, svc);
      case InvalidateItem(_, _) => OneReviewInv(s, step, svc);
      case AutoFailItem(_, _) => OneReviewInv(s, step, svc);
      case RejectItem(_) => OneReviewInv(s, step, svc);
      case Resend(chosen, acknowledge) => ResendStepInv(s, chosen, acknowledge, svc);
      case Retry(run, chosen) => RetryStepInv(s, run, chosen, svc);
      case Claim(_) => JobOnlyInv(s, step, svc);
      case ExecutorEnds => JobOnlyInv(s, step, svc);
      case RunnerRequeues(_) => JobOnlyInv(s, step, svc);
      case RunnerFails(_) => JobOnlyInv(s, step, svc);
      case Yield => YieldInv(s, svc);
    }
  }

  lemma JobOnlyInv(s: System, step: Step, svc: Service)
    requires Inv(s) && Enabled(s, step, svc)
    requires step.Claim? || step.ExecutorEnds? || step.RunnerRequeues? || step.RunnerFails?
    ensures Inv(Apply(s, step, svc))
  {
    hide RowsAccounted, OneActive, ApplyExecutor, ApplyReview, InsertAll, CancelItems;
  }

  lemma YieldInv(s: System, svc: Service)
    requires Inv(s) && Enabled(s, Yield, svc)
    ensures Inv(Apply(s, Yield, svc))
  {
    hide RowsAccounted, OneActive, ApplyRunner, ApplyReview;
  }

  lemma {:induction false} TraceInv(ss: seq<System>, steps: seq<Step>, svc: Service, k: nat)
    requires Trace(ss, steps, svc) && k <= |steps|
    ensures Inv(ss[k])
  {
    if k > 0 {
      TraceInv(ss, steps, svc, k - 1);
      assert Next(ss[k - 1], steps[k - 1], ss[k], svc);
      StepInv(ss[k - 1], steps[k - 1], svc);
    }
  }
}
