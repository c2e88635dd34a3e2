/** Runs of Translate with AI: what a settlement says of a run, and which items a failure of
    the job runner leaves behind. */
module TranslationRuns {
  import opened TranslationItems
  import opened TranslationProtocol
  import opened TranslationSafety
  import opened TranslationSteps
  import opened TranslationTheorems

  // ----- a run that was not cancelled has an item that was not -----

  ghost predicate Alive(items: Items, run: nat) {
    exists id :: id in items && items[id].run == run && items[id].state != Cancelled
  }

  ghost predicate RunsAlive(s: System) {
    forall run :: run in s.runs && s.runs[run].status != StCancelled ==> Alive(s.items, run)
  }

  lemma {:induction false} RequeueCancelsNone(items: Items, chosen: seq<nat>, acknowledge: bool, id: nat)
    requires RowsAccounted(items) && OneActive(items) && id in items && items[id].state != Cancelled
    ensures var items' := RequeueAll(items, chosen, acknowledge);
            id in items' && items'[id].run == items[id].run && items'[id].state != Cancelled
  {
    if chosen != [] {
      RequeueCancelsNone(items, chosen[..|chosen| - 1], acknowledge, id);
      RequeueSound(items, chosen[..|chosen| - 1], acknowledge);
    }
  }

  lemma RowNotCancelled(i: Item, j: Item)
    requires (ExecutorMakes(i, j) || ReviewMakes(i, j)) && i.state != Cancelled
    ensures j.run == i.run && j.state != Cancelled
  {
    hide ExecutorMakes;
    if ExecutorMakes(i, j) {
      ExecutorUntouched(i, j);
    }
  }

  /** Only a cancellation of its run cancels an item. */
  lemma StepCancelsNone(s: System, step: Step, svc: Service, id: nat)
    requires Inv(s) && Enabled(s, step, svc) && id in s.items && s.items[id].state != Cancelled
      && step != CancelRun(s.items[id].run)
    ensures var s' := Apply(s, step, svc);
            id in s'.items && s'.items[id].run == s.items[id].run && s'.items[id].state != Cancelled
  {
    hide Inv, Apply, ExecutorMakes, ReviewMakes, RowsAccounted, OneActive;
    InvRows(s);
    if RunnerStep(step) {
      RunnerRows(s, step, svc);
      if step.Submit? {
        InsertSound(s.items, step.newRun, step.planned);
      }
    } else if Requeues(step) {
      RequeueRows(s, step, svc);
      RequeueCancelsNone(s.items, Chosen(step), Acknowledges(step), id);
    } else if ReviewStep(step) {
      ReviewRows(s, step, svc, id);
      RowNotCancelled(s.items[id], Apply(s, step, svc).items[id]);
    } else {
      ExecutorRows(s, step, svc, id);
      RowNotCancelled(s.items[id], Apply(s, step, svc).items[id]);
    }
  }

  lemma {:induction false} ReopenedAlive(items: Items, chosen: seq<nat>, acknowledge: bool, run: nat)
    requires RowsAccounted(items) && OneActive(items) && run in RunsToReopen(items, chosen, acknowledge)
    ensures Alive(RequeueAll(items, chosen, acknowledge), run)
  {
    var front, id := chosen[..|chosen| - 1], chosen[|chosen| - 1];
    var before, after := RequeueAll(items, front, acknowledge), RequeueAll(items, chosen, acknowledge);
    RequeueSound(items, front, acknowledge);
    if run in RunsToReopen(items, front, acknowledge) {
      ReopenedAlive(items, front, acknowledge, run);
      var x :| x in before && before[x].run == run && before[x].state != Cancelled;
      assert x in after && after[x].run == run && after[x].state != Cancelled;
    } else {
      assert id in after && after[id].run == run && after[id].state != Cancelled;
    }
  }

  lemma {:induction false} RetriedAlive(items: Items, chosen: seq<nat>, run: nat)
    requires RowsAccounted(items) && OneActive(items) && RequeueAll(items, chosen, false) != items
    requires forall id :: id in chosen ==> id in items && items[id].run == run
    ensures Alive(RequeueAll(items, chosen, false), run)
  {
    hide RowsAccounted, OneActive, RequeueVerdict, Requeue;
    var front, id := chosen[..|chosen| - 1], chosen[|chosen| - 1];
    var before, after := RequeueAll(items, front, false), RequeueAll(items, chosen, false);
    assert id in chosen;
    if before != items {
      RetriedAlive(items, front, run);
      var x :| x in before && before[x].run == run && before[x].state != Cancelled;
      RequeuedUncancelled(before[x], false);
      assert x in after && after[x].run == run && after[x].state != Cancelled;
    } else {
      RequeuedUncancelled(items[id], false);
      assert id in after && after[id].run == run && after[id].state != Cancelled;
    }
  }

  lemma RequeuedUncancelled(i: Item, acknowledge: bool)
    requires i.state != Cancelled
    ensures Requeue(i, acknowledge).run == i.run && Requeue(i, acknowledge).state != Cancelled
  {
  }

  lemma {:induction false} InsertedAlive(items: Items, run: nat, planned: seq<Planned>)
    requires InsertAll(items, run, planned) != items && forall i :: 0 <= i < |planned| ==> planned[i].id !in items
    requires forall i, j :: 0 <= i < j < |planned| ==> planned[i].id != planned[j].id
    requires RowsAccounted(items) && OneActive(items)
    ensures Alive(InsertAll(items, run, planned), run)
  {
    InsertSound(items, run, planned);
    var after := InsertAll(items, run, planned);
    assert (forall id :: id in after ==> id in items) ==> after == items;
    var id :| id in after && id !in items;
  }

  /** The executor changes no job but its own, and neither abandons nor revives that one. */
  lemma ExecutorRuns(s: System, step: Step, svc: Service, run: nat)
    requires !RunnerStep(step) && !ReviewStep(step) && (run in s.runs ==> JobSound(s.runs[run]))
    ensures var s' := Apply(s, step, svc);
            && (run in s'.runs <==> run in s.runs)
            && (run in s.runs && !(s.executor.On? && s.executor.run == run) ==> s'.runs[run] == s.runs[run])
            && (run in s.runs && s.runs[run].status == StCancelled ==> s'.runs[run] == s.runs[run])
            && (Abandoned(s', run) ==> Abandoned(s, run))
  {
    hide InStates, StrandRun, CancelItems, MarkAll, Mark, Stop, FailRequest, FailOutput, Finish, StoreChunk, Chunk,
      HasChunk, InsertAll, RequeueAll, RunsToReopen;
  }

  ghost predicate Revives(s: System, s': System, run: nat) {
    (run !in s.runs || s.runs[run].status == StCancelled) && run in s'.runs && s'.runs[run].status != StCancelled
  }

  lemma ReviewRevivesAlive(s: System, step: Step, svc: Service, run: nat)
    requires Inv(s) && Enabled(s, step, svc) && ReviewStep(step) && Revives(s, Apply(s, step, svc), run)
    ensures Alive(Apply(s, step, svc).items, run)
  {
    hide HoldsRequests, JobsSound, ApplyExecutor, ApplyRunner;
    if step.Resend? {
      ReopenedAlive(s.items, step.chosen, step.acknowledge, run);
    } else if step.Retry? {
      RetriedAlive(s.items, step.chosen, run);
    } else {
      hide Inv, Enabled;
    }
  }

  lemma RunnerRevivesAlive(s: System, step: Step, svc: Service, run: nat)
    requires Inv(s) && Enabled(s, step, svc) && RunnerStep(step) && Revives(s, Apply(s, step, svc), run)
    ensures Alive(Apply(s, step, svc).items, run)
  {
    assert run in s.runs ==> JobSound(s.runs[run]);
    hide HoldsRequests, JobsSound, ApplyExecutor, ApplyReview;
    if step.Submit? {
      InsertedAlive(s.items, step.newRun, step.planned);
    } else {
      hide Inv, InsertAll, CancelItems;
    }
  }

  /** A run's status leaves cancelled only for an item that is queued again, and a new run has items. */
  lemma RevivedAlive(s: System, step: Step, svc: Service, run: nat)
    requires Inv(s) && Enabled(s, step, svc) && Revives(s, Apply(s, step, svc), run)
    ensures Alive(Apply(s, step, svc).items, run)
  {
    assert run in s.runs ==> JobSound(s.runs[run]);
    hide Inv, Apply, Enabled, Alive;
    if ReviewStep(step) {
      ReviewRevivesAlive(s, step, svc, run);
    } else if RunnerStep(step) {
      RunnerRevivesAlive(s, step, svc, run);
    } else {
      ExecutorRuns(s, step, svc, run);
    }
  }

  lemma StaysCancelled(s: System, step: Step, svc: Service, run: nat)
    requires Enabled(s, step, svc) && step == CancelRun(run)
    ensures Apply(s, step, svc).runs[run].status == StCancelled
  {
    hide CancelItems;
  }

  lemma StepAlive(s: System, step: Step, svc: Service)
    requires Inv(s) && RunsAlive(s) && Enabled(s, step, svc)
    ensures RunsAlive(Apply(s, step, svc))
  {
    hide Inv, Apply, Enabled;
    var s' := Apply(s, step, svc);
    forall run | run in s'.runs && s'.runs[run].status != StCancelled
      ensures Alive(s'.items, run)
    {
      if run !in s.runs || s.runs[run].status == StCancelled {
        RevivedAlive(s, step, svc, run);
      } else {
        var id :| id in s.items && s.items[id].run == run && s.items[id].state != Cancelled;
        if step == CancelRun(run) {
          StaysCancelled(s, step, svc, run);
        }
        StepCancelsNone(s, step, svc, id);
      }
    }
  }

  lemma {:induction false} TraceAlive(ss: seq<System>, steps: seq<Step>, svc: Service, k: nat)
    requires Trace(ss, steps, svc) && k <= |steps|
    ensures RunsAlive(ss[k])
  {
    if k > 0 {
      TraceAlive(ss, steps, svc, k - 1);
      TraceInv(ss, steps, svc, k - 1);
      assert Next(ss[k - 1], steps[k - 1], ss[k], svc);
      StepAlive(ss[k - 1], steps[k - 1], svc);
    }
  }

  // ----- settlement -----

  ghost predicate AllIn(items: Items, run: nat, states: set<State>) {
    forall id :: id in items && items[id].run == run ==> items[id].state in states
  }

  ghost predicate SomeIn(items: Items, run: nat, states: set<State>) {
    exists id :: id in items && items[id].run == run && items[id].state in states
  }

  const STOPPED := {Failed, Uncertain, Invalid, PolicyBlocked}
  const REVIEWED := {Ready, Accepted, Rejected}

  lemma CountIsSome(items: Items, run: nat, states: set<State>)
    ensures |InStates(items, run, states)| > 0 <==> SomeIn(items, run, states)
  {
    if SomeIn(items, run, states) {
      var id :| id in items && items[id].run == run && items[id].state in states;
      assert id in InStates(items, run, states);
    } else {
      assert InStates(items, run, states) == {};
    }
  }

  /** What remains of a live run with nothing left to send. */
  lemma NothingUnsent(items: Items, run: nat)
    requires InStates(items, run, {Queued}) == {} && Alive(items, run)
    requires forall id :: id in items && items[id].run == run ==> items[id].state != Requesting
    ensures AllIn(items, run, STOPPED + REVIEWED + {Cancelled}) && SomeIn(items, run, STOPPED + REVIEWED)
    ensures AllIn(items, run, REVIEWED + {Cancelled}) <==> !SomeIn(items, run, STOPPED)
    ensures SomeIn(items, run, STOPPED + REVIEWED) <==> SomeIn(items, run, STOPPED) || SomeIn(items, run, REVIEWED)
  {
    forall id | id in items && items[id].run == run
      ensures items[id].state in STOPPED + REVIEWED + {Cancelled}
    {
      assert id !in InStates(items, run, {Queued});
    }
  }

  lemma StrandAlive(items: Items, run: nat)
    requires Alive(items, run)
    ensures Alive(StrandRun(items, run), run)
  {
    var id :| id in items && items[id].run == run && items[id].state != Cancelled;
    assert StrandRun(items, run)[id].run == run && StrandRun(items, run)[id].state != Cancelled;
  }

  /** What the items of a run say of it once its job is settled, or goes on. */
  ghost predicate Deserves(items: Items, run: nat, r: Run) {
    if SomeIn(items, run, {Queued}) then r == Run(StQueued, StQueued, false)
    else
      && AllIn(items, run, STOPPED + REVIEWED + {Cancelled})
      && (r.status == StFailed <==> !SomeIn(items, run, REVIEWED))
      && (r.status == StSucceeded <==> SomeIn(items, run, REVIEWED) && AllIn(items, run, REVIEWED + {Cancelled}))
      && (r.status == StPartial <==> SomeIn(items, run, REVIEWED) && SomeIn(items, run, STOPPED))
      && r.job == (if r.status == StFailed then StFailed else StSucceeded)
  }

  lemma SettledDeserves(items: Items, run: nat)
    requires Alive(items, run) && InStates(items, run, {Queued}) == {}
    requires forall id :: id in items && items[id].run == run ==> items[id].state != Requesting
    ensures Deserves(items, run, Settled(items, run))
  {
    NothingUnsent(items, run);
    hide InStates, Alive, AllIn, SomeIn;
    CountIsSome(items, run, {Queued});
    CountIsSome(items, run, STOPPED);
    CountIsSome(items, run, REVIEWED);
  }

  /** A settlement that settles: nothing is left to send; the run fails exactly when no item
      reached review, succeeds when some did and none stopped, and is partial otherwise. */
  lemma SettlementVerdict(ss: seq<System>, steps: seq<Step>, svc: Service, k: nat)
    requires Trace(ss, steps, svc) && k < |steps| && steps[k] == Settle
    requires ss[k].executor.On? && ss[k].executor.run in ss[k].runs && ss[k].runs[ss[k].executor.run].job == StRunning
    ensures var run := ss[k].executor.run; run in ss[k + 1].runs && Deserves(ss[k + 1].items, run, ss[k + 1].runs[run])
  {
    TraceInv(ss, steps, svc, k);
    TraceAlive(ss, steps, svc, k);
    assert Next(ss[k], steps[k], ss[k + 1], svc);
    hide Trace;
    StepVerdict(ss[k], svc);
  }

  lemma StepVerdict(s: System, svc: Service)
    requires Inv(s) && RunsAlive(s) && Enabled(s, Settle, svc) && s.runs[s.executor.run].job == StRunning
    ensures var run, s' := s.executor.run, Apply(s, Settle, svc);
            run in s'.runs && Deserves(s'.items, run, s'.runs[run])
  {
    var run := s.executor.run;
    var items := StrandRun(s.items, run);
    assert JobSound(s.runs[run]);
    StrandInv(s, run);
    StrandAlive(s.items, run);
    SettleResult(s, svc);
    hide Inv, StrandRun, InStates, Alive, Settled, Deserves, Apply, Enabled, JobSound;
    if InStates(items, run, {Queued}) == {} {
      SettledDeserves(items, run);
    } else {
      QueuedDeserves(items, run);
    }
  }

  lemma QueuedDeserves(items: Items, run: nat)
    requires InStates(items, run, {Queued}) != {}
    ensures Deserves(items, run, Run(StQueued, StQueued, false))
  {
    CountIsSome(items, run, {Queued});
  }

  // ----- what a failure of the runner leaves behind -----

  /** The step opens the run's job again, if the job had ended. */
  ghost predicate Reopens(s: System, step: Step, run: nat) {
    match step
    case Resend(chosen, acknowledge) => run in RunsToReopen(s.items, chosen, acknowledge)
    case Retry(retried, chosen) => retried == run && RequeueAll(s.items, chosen, false) != s.items
    case _ => false
  }

  /** The executor works on items of its own run, whose job the runner has not failed. */
  ghost predicate OwnRun(s: System) {
    s.executor.On? ==>
      && !Abandoned(s, s.executor.run)
      && forall id :: id in Held(s.executor) ==> id in s.items && s.items[id].run == s.executor.run
  }

  lemma ReviewAbandons(s: System, step: Step, svc: Service, run: nat)
    requires ReviewStep(step) && (run in s.runs ==> JobSound(s.runs[run]))
    ensures Abandoned(Apply(s, step, svc), run) <==> Abandoned(s, run) && !Reopens(s, step, run)
  {
    hide Apply, RequeueAll, RunsToReopen;
    if Requeues(step) {
      RequeueRuns(s, step, svc);
    } else {
      OneReviewRuns(s, step, svc);
    }
  }

  lemma OneReviewRuns(s: System, step: Step, svc: Service)
    requires ReviewStep(step) && !Requeues(step)
    ensures Apply(s, step, svc).runs == s.runs
  {
    hide Accept, Reject, Invalidate, AutoFail, ApplyRunner, ApplyExecutor;
  }

  lemma RunnerAbandons(s: System, step: Step, svc: Service, run: nat)
    requires RunnerStep(step) && Enabled(s, step, svc) && (run in s.runs ==> JobSound(s.runs[run]))
    ensures Abandoned(Apply(s, step, svc), run) <==> step == RunnerFails(run) || Abandoned(s, run)
  {
    hide InsertAll, CancelItems, ApplyReview, ApplyExecutor;
  }

  /** Exactly what makes a job abandoned, and what ends that. */
  lemma StepAbandonsIff(s: System, step: Step, svc: Service, run: nat)
    requires Inv(s) && OwnRun(s) && Enabled(s, step, svc)
    ensures Abandoned(Apply(s, step, svc), run) <==>
      step == RunnerFails(run) || (Abandoned(s, run) && !Reopens(s, step, run))
  {
    assert run in s.runs ==> JobSound(s.runs[run]);
    hide Inv, Apply, Enabled, JobSound;
    if RunnerStep(step) {
      RunnerAbandons(s, step, svc, run);
    } else if ReviewStep(step) {
      ReviewAbandons(s, step, svc, run);
    } else {
      ExecutorRuns(s, step, svc, run);
    }
  }

  lemma ClaimsLive(s: System, step: Step, svc: Service, run: nat)
    requires Inv(s) && Enabled(s, step, svc)
    ensures step == Claim(run) ==> !Abandoned(s, run)
    ensures step == RunnerFails(run) ==> s.executor.Off?
  {
    assert run in s.runs ==> JobSound(s.runs[run]);
    hide Inv;
  }

  lemma StepOwnRun(s: System, step: Step, svc: Service)
    requires Inv(s) && OwnRun(s) && Enabled(s, step, svc)
    ensures OwnRun(Apply(s, step, svc))
  {
    var s' := Apply(s, step, svc);
    hide Inv, Apply, Enabled;
    if s'.executor.On? {
      StepAbandonsIff(s, step, svc, s'.executor.run);
      StepHolds(s, step, svc);
      ClaimsLive(s, step, svc, s'.executor.run);
      forall id | id in Held(s'.executor)
        ensures id in s'.items && s'.items[id].run == s'.executor.run
      {
        StepSettlesOnce(s, step, svc, id);
      }
    }
  }

  lemma StepHolds(s: System, step: Step, svc: Service)
    requires OwnRun(s) && Enabled(s, step, svc) && Apply(s, step, svc).executor.On?
    ensures var e := Apply(s, step, svc).executor;
            && (forall id :: id in Held(e) ==> id in s.items && s.items[id].run == e.run)
            && (step == Claim(e.run) || (s.executor.On? && e.run == s.executor.run))
  {
    hide Apply, Enabled;
    if ExecutorStep(step) {
      ExecutorHolds(s, step, svc);
    } else {
      OthersHold(s, step, svc);
    }
  }

  lemma {:induction false} TraceOwnRun(ss: seq<System>, steps: seq<Step>, svc: Service, k: nat)
    requires Trace(ss, steps, svc) && k <= |steps|
    ensures OwnRun(ss[k])
  {
    if k > 0 {
      TraceOwnRun(ss, steps, svc, k - 1);
      TraceInv(ss, steps, svc, k - 1);
      assert Next(ss[k - 1], steps[k - 1], ss[k], svc);
      StepOwnRun(ss[k - 1], steps[k - 1], svc);
    }
  }

  /** The runner failed the run's job, and nobody opened it again since. */
  ghost predicate FailedByRunner(ss: seq<System>, steps: seq<Step>, k: nat, run: nat)
    requires k <= |steps| <= |ss|
  {
    exists i :: 0 <= i < k && FailedAt(ss, steps, i, k, run)
  }

  ghost predicate FailedAt(ss: seq<System>, steps: seq<Step>, i: nat, k: nat, run: nat)
    requires i < k <= |steps| <= |ss|
  {
    steps[i] == RunnerFails(run) && forall m :: i < m < k ==> !Reopens(ss[m], steps[m], run)
  }

  lemma {:induction false} AbandonedIff(ss: seq<System>, steps: seq<Step>, svc: Service, k: nat, run: nat)
    requires Trace(ss, steps, svc) && k <= |steps|
    ensures Abandoned(ss[k], run) <==> FailedByRunner(ss, steps, k, run)
  {
    if k > 0 {
      AbandonedIff(ss, steps, svc, k - 1, run);
      TraceInv(ss, steps, svc, k - 1);
      TraceOwnRun(ss, steps, svc, k - 1);
      assert Next(ss[k - 1], steps[k - 1], ss[k], svc);
      StepAbandonsIff(ss[k - 1], steps[k - 1], svc, run);
      hide Trace, Inv, OwnRun, Abandoned, Reopens, Apply;
      var h := k - 1;
      if !Reopens(ss[h], steps[h], run) {
        if i :| 0 <= i < h && FailedAt(ss, steps, i, h, run) {
          assert FailedAt(ss, steps, i, k, run);
        }
      }
      if steps[h] == RunnerFails(run) {
        assert FailedAt(ss, steps, h, k, run);
      }
      if i :| 0 <= i < h && FailedAt(ss, steps, i, k, run) {
        assert FailedAt(ss, steps, i, h, run);
      }
    }
  }

  /** An item still to be sent has no job that will send it, if and only if the runner failed
      that job and no resend or retry opened it since. */
  lemma StrandedIff(ss: seq<System>, steps: seq<Step>, svc: Service, k: nat, id: nat)
    requires Trace(ss, steps, svc) && k <= |steps| && id in ss[k].items && ss[k].items[id].state in {Queued, Requesting}
    ensures var run := ss[k].items[id].run;
            run in ss[k].runs && (ss[k].runs[run].job !in {StQueued, StRunning} <==> FailedByRunner(ss, steps, k, run))
  {
    NoStrandedItem(ss, steps, svc, k, id);
    AbandonedIff(ss, steps, svc, k, ss[k].items[id].run);
  }

  /** Any order of resend and settle leaves queued items with a queued or running job:
      without a job failed by the runner, nothing is ever stranded. */
  lemma NothingStranded(ss: seq<System>, steps: seq<Step>, svc: Service, k: nat, id: nat)
    requires Trace(ss, steps, svc) && k <= |steps| && id in ss[k].items && ss[k].items[id].state in {Queued, Requesting}
    requires RunnerFails(ss[k].items[id].run) !in steps
    ensures ss[k].items[id].run in ss[k].runs
    ensures ss[k].runs[ss[k].items[id].run] == Run(StQueued, StQueued, false)
      || ss[k].runs[ss[k].items[id].run] == Run(StRunning, StRunning, false)
  {
    NoStrandedItem(ss, steps, svc, k, id);
    StrandedIff(ss, steps, svc, k, id);
  }

  lemma StrandedExecutor(s: System, step: Step, svc: Service, id: nat)
    requires Inv(s) && OwnRun(s) && Enabled(s, step, svc) && !RunnerStep(step) && !ReviewStep(step)
    requires id in s.items && s.items[id].run in s.runs && !(s.executor.On? && s.executor.run == s.items[id].run)
    ensures id in Apply(s, step, svc).items && Apply(s, step, svc).items[id] == s.items[id]
  {
    hide Inv, InsertAll, RequeueAll, RunsToReopen, InStates, Mark, Strand, Stop, FailRequest, FailOutput, Finish,
      StoreChunk, Chunk, HasChunk, ApplyRunner, ApplyReview, Settled, RequeueJob;
  }

  lemma StrandedRunner(s: System, step: Step, svc: Service, id: nat)
    requires Inv(s) && Enabled(s, step, svc) && RunnerStep(step) && id in s.items && Abandoned(s, s.items[id].run)
    ensures var s', run := Apply(s, step, svc), s.items[id].run;
            id in s'.items && s'.items[id] == s.items[id] && run in s'.runs && s'.runs[run] == s.runs[run]
  {
    assert JobSound(s.runs[s.items[id].run]);
    if step.Submit? {
      InsertSound(s.items, step.newRun, step.planned);
    }
    hide Inv, InsertAll, RequeueAll, RunsToReopen, ApplyExecutor, ApplyReview;
  }

  /** Nothing but a resend or a retry that reopens the job touches an item stranded behind it. */
  lemma StrandedStep(s: System, step: Step, svc: Service, id: nat)
    requires Inv(s) && OwnRun(s) && Enabled(s, step, svc) && id in s.items && s.items[id].state in {Queued, Requesting}
    requires Abandoned(s, s.items[id].run) && !Reopens(s, step, s.items[id].run)
    ensures var s', run := Apply(s, step, svc), s.items[id].run;
            id in s'.items && s'.items[id] == s.items[id] && run in s'.runs && s'.runs[run] == s.runs[run]
  {
    assert JobSound(s.runs[s.items[id].run]);
    hide Inv, Apply, Enabled, JobSound, Reopens;
    if ReviewStep(step) {
      StrandedReview(s, step, svc, id);
    } else if RunnerStep(step) {
      StrandedRunner(s, step, svc, id);
    } else {
      ExecutorRuns(s, step, svc, s.items[id].run);
      StrandedExecutor(s, step, svc, id);
    }
  }

  lemma UnsentNotReviewed(i: Item, j: Item)
    requires ReviewMakes(i, j) && i.state in {Queued, Requesting}
    ensures j == i
  {
  }

  lemma StrandedReview(s: System, step: Step, svc: Service, id: nat)
    requires Inv(s) && ReviewStep(step) && Enabled(s, step, svc) && id in s.items
      && s.items[id].state in {Queued, Requesting}
    requires s.items[id].run in s.runs && !Reopens(s, step, s.items[id].run)
    ensures var s', run := Apply(s, step, svc), s.items[id].run;
            id in s'.items && s'.items[id] == s.items[id] && run in s'.runs && s'.runs[run] == s.runs[run]
  {
    hide Inv, Apply, Enabled, ReviewMakes, RequeueAll, RunsToReopen, RowsAccounted, OneActive;
    InvRows(s);
    if Requeues(step) {
      RequeueRows(s, step, svc);
      RequeueRuns(s, step, svc);
      RequeueKeepsTerminal(s.items, Chosen(step), Acknowledges(step), id);
    } else {
      ReviewRows(s, step, svc, id);
      UnsentNotReviewed(s.items[id], Apply(s, step, svc).items[id]);
    }
  }

  /** The system holds item i under id, unsent behind an abandoned job. */
  ghost predicate LeftBehind(s: System, id: nat, i: Item) {
    id in s.items && s.items[id] == i && i.state in {Queued, Requesting} && Abandoned(s, i.run)
  }

  lemma {:induction false} AbandonedStays(ss: seq<System>, steps: seq<Step>, svc: Service, k: nat, m: nat, id: nat,
      i: Item)
    requires Trace(ss, steps, svc) && k <= m <= |steps| && LeftBehind(ss[k], id, i)
    requires forall j :: k <= j < m ==> !Reopens(ss[j], steps[j], i.run)
    ensures LeftBehind(ss[m], id, i)
    decreases m
  {
    hide LeftBehind, Reopens, Inv, OwnRun, Apply, Enabled;
    if m > k {
      var h := m - 1;
      AbandonedStays(ss, steps, svc, k, h, id, i);
      TraceInv(ss, steps, svc, h);
      TraceOwnRun(ss, steps, svc, h);
      assert Next(ss[h], steps[h], ss[h + 1], svc);
      LeftBehindStep(ss[h], steps[h], svc, id, i);
    }
  }

  lemma LeftBehindStep(s: System, step: Step, svc: Service, id: nat, i: Item)
    requires Inv(s) && OwnRun(s) && Enabled(s, step, svc) && LeftBehind(s, id, i) && !Reopens(s, step, i.run)
    ensures LeftBehind(Apply(s, step, svc), id, i)
  {
    hide Reopens, Inv, OwnRun, Apply, Enabled;
    StrandedStep(s, step, svc, id);
  }

  /** A stranded item stays as it is through every continuation in which nobody reopens its job. */
  lemma StrandedStays(ss: seq<System>, steps: seq<Step>, svc: Service, k: nat, m: nat, id: nat)
    requires Trace(ss, steps, svc) && k <= m <= |steps| && id in ss[k].items
      && ss[k].items[id].state in {Queued, Requesting}
    requires FailedByRunner(ss, steps, k, ss[k].items[id].run)
    requires forall j :: k <= j < m ==> !Reopens(ss[j], steps[j], ss[k].items[id].run)
    ensures id in ss[m].items && ss[m].items[id] == ss[k].items[id] && FailedByRunner(ss, steps, m, ss[k].items[id].run)
  {
    var run := ss[k].items[id].run;
    AbandonedIff(ss, steps, svc, k, run);
    AbandonedIff(ss, steps, svc, m, run);
    hide FailedByRunner, Reopens, Abandoned, Trace;
    AbandonedStays(ss, steps, svc, k, m, id, ss[k].items[id]);
  }

  lemma {:induction false} FirstInserted(run: nat, planned: seq<Planned>)
    requires planned != []
    ensures planned[0].id in InsertAll(map[], run, planned)
  {
    var front := planned[..|planned| - 1];
    if front != [] {
      FirstInserted(run, front);
    } else {
      assert InsertAll(map[], run, front) == map[];
    }
  }

  lemma StrandingSubmit(planned: seq<Planned>, svc: Service)
    requires planned != [] && forall i, j :: 0 <= i < j < |planned| ==> planned[i].id != planned[j].id
    ensures Next(EMPTY, Submit(0, planned),
      System(InsertAll(map[], 0, planned), map[0 := Run(StQueued, StQueued, false)], Off), svc)
  {
    FirstInserted(0, planned);
    hide InsertAll, ApplyExecutor, ApplyReview;
  }

  lemma StrandingSteps(items: Items, svc: Service)
    ensures var queued, running := map[0 := Run(StQueued, StQueued, false)], map[0 := Run(StRunning, StRunning, false)];
            var failed := map[0 := Run(StFailed, StFailed, true)];
            && Next(System(items, queued, Off), Claim(0), System(items, running, On(0, Starting)), svc)
            && Next(System(items, running, On(0, Starting)), ExecutorEnds, System(items, running, Off), svc)
            && Next(System(items, running, Off), RunnerFails(0), System(items, failed, Off), svc)
  {
    hide InsertAll, ApplyExecutor, ApplyReview;
  }

  /** It happens: every submission is stranded when its executor ends and the runner then fails the job. */
  lemma RunnerFailureStrands(planned: seq<Planned>, svc: Service) returns (ss: seq<System>, steps: seq<Step>)
    requires planned != [] && forall i, j :: 0 <= i < j < |planned| ==> planned[i].id != planned[j].id
    ensures steps == [Submit(0, planned), Claim(0), ExecutorEnds, RunnerFails(0)] && Trace(ss, steps, svc)
    ensures planned[0].id in ss[4].items && ss[4].items[planned[0].id].state == Queued
      && ss[4].items[planned[0].id].run == 0
    ensures FailedByRunner(ss, steps, 4, 0) && ss[4].runs == map[0 := Run(StFailed, StFailed, true)]
  {
    hide InsertAll, Next, Reopens, Apply, Enabled, Active, Accounted, OneActive;
    var items := InsertAll(map[], 0, planned);
    assert planned[0].id in items && items[planned[0].id].state == Queued && items[planned[0].id].run == 0 by {
      InsertSound(map[], 0, planned);
      FirstInserted(0, planned);
    }
    StrandingSubmit(planned, svc);
    StrandingSteps(items, svc);
    var queued, running := map[0 := Run(StQueued, StQueued, false)], map[0 := Run(StRunning, StRunning, false)];
    var failed := map[0 := Run(StFailed, StFailed, true)];
    steps := [Submit(0, planned), Claim(0), ExecutorEnds, RunnerFails(0)];
    ss := [EMPTY, System(items, queued, Off), System(items, running, On(0, Starting)), System(items, running, Off),
      System(items, failed, Off)];
    assert FailedAt(ss, steps, 3, 4, 0);
  }
}
