/** What Translate with AI guarantees over every interleaving from an empty database. */
module TranslationTheorems {
  import opened TranslationItems
  import opened TranslationProtocol
  import opened TranslationSafety
  import opened TranslationSteps

  // ----- no silent double charge -----

  /** The step announces a request for the item: from here on it may have left. */
  predicate Announces(s: System, step: Step, s': System, id: nat) {
    id in s.items && id in s'.items && s'.items[id].marks > s.items[id].marks
  }

  /** A request's outcome was recorded: the row left requesting for the queue, for review or
      for a failure whose cause is known. */
  predicate Recorded(s: System, s': System, id: nat) {
    && id in s.items && id in s'.items && s'.items[id].recorded > s.items[id].recorded
    && s.items[id].state == Requesting && s'.items[id].state in {Queued, Ready, Failed}
  }

  /** A reviewer queued an uncertain item again, confirming that it may be charged twice. */
  predicate Acknowledged(s: System, step: Step, s': System, id: nat) {
    && id in s.items && id in s'.items && s'.items[id].acknowledged > s.items[id].acknowledged
    && s.items[id].state == Uncertain && step.Resend? && step.acknowledge && id in step.chosen
  }

  predicate Closes(s: System, step: Step, s': System, id: nat) {
    Recorded(s, s', id) || Acknowledged(s, step, s', id)
  }

  lemma {:induction false} RequeueKeepsUnknown(items: Items, chosen: seq<nat>, acknowledge: bool, id: nat)
    requires RowsAccounted(items) && OneActive(items) && id in items && items[id].unknown
    requires !acknowledge || id !in chosen
    ensures id in RequeueAll(items, chosen, acknowledge) && RequeueAll(items, chosen, acknowledge)[id] == items[id]
  {
    if chosen != [] {
      var front := chosen[..|chosen| - 1];
      RequeueKeepsUnknown(items, front, acknowledge, id);
      RequeueSound(items, front, acknowledge);
    }
  }

  /** A row in doubt stays so, with no other request, or leaves requesting with an outcome. */
  predicate KeepsDoubt(i: Item, j: Item) {
    j.marks == i.marks && (j.unknown
      || (j.recorded > i.recorded && i.state == Requesting && j.state in {Queued, Ready, Failed}))
  }

  lemma RowKeepsDoubt(i: Item, j: Item)
    requires Accounted(i) && i.unknown && (ExecutorMakes(i, j) || ReviewMakes(i, j) || j == CancelItem(i))
    ensures KeepsDoubt(i, j) && (ReviewMakes(i, j) || j == CancelItem(i) ==> j.unknown)
  {
  }

  /** While a request's outcome is in doubt, nothing but a recorded outcome or an
      acknowledging resend ends the doubt, and no other request is announced. */
  lemma DoubtPersists(s: System, step: Step, svc: Service, id: nat)
    requires Inv(s) && Enabled(s, step, svc) && id in s.items && s.items[id].unknown
    ensures var s' := Apply(s, step, svc);
            !Announces(s, step, s', id) && id in s'.items && (s'.items[id].unknown || Closes(s, step, s', id))
  {
    hide Inv, Accounted, Apply, ExecutorMakes, ReviewMakes, OneActive;
    InvRows(s);
    assert Accounted(s.items[id]);
    hide RowsAccounted;
    if RunnerStep(step) {
      RunnerKeepsDoubt(s, step, svc, id);
    } else if Requeues(step) {
      RequeueRows(s, step, svc);
      ResendKeepsDoubt(s.items, Chosen(step), Acknowledges(step), id);
    } else if ReviewStep(step) {
      ReviewRows(s, step, svc, id);
      RowKeepsDoubt(s.items[id], Apply(s, step, svc).items[id]);
    } else {
      ExecutorRows(s, step, svc, id);
      RowKeepsDoubt(s.items[id], Apply(s, step, svc).items[id]);
    }
  }

  lemma RunnerKeepsDoubt(s: System, step: Step, svc: Service, id: nat)
    requires RowsAccounted(s.items) && OneActive(s.items) && Enabled(s, step, svc) && RunnerStep(step) && id in s.items
      && s.items[id].unknown
    ensures id in Apply(s, step, svc).items && KeepsDoubt(s.items[id], Apply(s, step, svc).items[id])
      && Apply(s, step, svc).items[id].unknown
  {
    RunnerRows(s, step, svc);
    assert Accounted(s.items[id]);
    if step.Submit? {
      InsertSound(s.items, step.newRun, step.planned);
    }
    hide Apply, RowsAccounted, OneActive, Accounted, KeepsDoubt;
    if step.CancelRun? {
      RowKeepsDoubt(s.items[id], CancelItem(s.items[id]));
    }
    assert KeepsDoubt(s.items[id], s.items[id]) by { SameKeepsDoubt(s.items[id]); }
  }

  lemma SameKeepsDoubt(i: Item)
    requires i.unknown
    ensures KeepsDoubt(i, i)
  {
  }

  lemma ResendKeepsDoubt(items: Items, chosen: seq<nat>, acknowledge: bool, id: nat)
    requires RowsAccounted(items) && OneActive(items) && id in items && items[id].unknown
    ensures var items' := RequeueAll(items, chosen, acknowledge);
            && id in items' && items'[id].marks == items[id].marks
            && (|| items'[id].unknown
                || (acknowledge && id in chosen && items[id].state == Uncertain
                    && items'[id].acknowledged > items[id].acknowledged))
  {
    RequeueSound(items, chosen, acknowledge);
    RequeueKeepsMarks(items, chosen, acknowledge, id);
    assert Accounted(items[id]) && Accounted(RequeueAll(items, chosen, acknowledge)[id]);
    if items[id].state != Uncertain {
      RequeueKeepsTerminal(items, chosen, acknowledge, id);
    } else if !acknowledge || id !in chosen {
      RequeueKeepsUnknown(items, chosen, acknowledge, id);
    }
  }

  lemma {:induction false} RequeueKeepsMarks(items: Items, chosen: seq<nat>, acknowledge: bool, id: nat)
    requires RowsAccounted(items) && OneActive(items) && id in items
    ensures id in RequeueAll(items, chosen, acknowledge)
      && RequeueAll(items, chosen, acknowledge)[id].marks == items[id].marks
    ensures RequeueAll(items, chosen, acknowledge)[id].recorded == items[id].recorded
  {
    if chosen != [] {
      RequeueKeepsMarks(items, chosen[..|chosen| - 1], acknowledge, id);
      RequeueSound(items, chosen[..|chosen| - 1], acknowledge);
    }
  }

  lemma RowAnnounces(i: Item, j: Item)
    requires ExecutorMakes(i, j) || ReviewMakes(i, j) || j == CancelItem(i)
    ensures j.marks > i.marks ==> j.unknown && i.state == Queued
  {
  }

  lemma AnnouncingDoubts(s: System, step: Step, svc: Service, id: nat)
    requires Inv(s) && Enabled(s, step, svc) && Announces(s, step, Apply(s, step, svc), id)
    ensures Apply(s, step, svc).items[id].unknown && s.items[id].state == Queued
  {
    hide Apply, ExecutorMakes, ReviewMakes, HoldsRequests, JobsSound;
    if RunnerStep(step) {
      RunnerRows(s, step, svc);
      if step.Submit? {
        InsertSound(s.items, step.newRun, step.planned);
      }
      hide Inv;
      RowAnnounces(s.items[id], CancelItem(s.items[id]));
    } else if Requeues(step) {
      RequeueRows(s, step, svc);
      RequeueKeepsMarks(s.items, Chosen(step), Acknowledges(step), id);
    } else if ReviewStep(step) {
      ReviewRows(s, step, svc, id);
      RowAnnounces(s.items[id], Apply(s, step, svc).items[id]);
    } else {
      ExecutorRows(s, step, svc, id);
      RowAnnounces(s.items[id], Apply(s, step, svc).items[id]);
    }
  }

  lemma {:induction false} InDoubtUntil(ss: seq<System>, steps: seq<Step>, svc: Service, i: nat, j: nat, id: nat)
    requires Trace(ss, steps, svc) && i < j <= |steps| && Announces(ss[i], steps[i], ss[i + 1], id)
    requires forall k :: i < k < j ==> !Closes(ss[k], steps[k], ss[k + 1], id)
    ensures id in ss[j].items && ss[j].items[id].unknown
    decreases j
  {
    assert Next(ss[j - 1], steps[j - 1], ss[j], svc);
    TraceInv(ss, steps, svc, j - 1);
    if j == i + 1 {
      AnnouncingDoubts(ss[i], steps[i], svc, id);
    } else {
      InDoubtUntil(ss, steps, svc, i, j - 1, id);
      DoubtPersists(ss[j - 1], steps[j - 1], svc, id);
    }
  }

  /** Between two requests for one item, the row left requesting
      with the first one's outcome, or someone resent the uncertain item acknowledging that. */
  lemma ClosedBetweenRequests(ss: seq<System>, steps: seq<Step>, svc: Service, i: nat, j: nat, id: nat)
    requires Trace(ss, steps, svc) && i < j < |steps|
    requires Announces(ss[i], steps[i], ss[i + 1], id) && Announces(ss[j], steps[j], ss[j + 1], id)
    ensures exists k :: i < k < j && Closes(ss[k], steps[k], ss[k + 1], id)
  {
    if forall k :: i < k < j ==> !Closes(ss[k], steps[k], ss[k + 1], id) {
      InDoubtUntil(ss, steps, svc, i, j, id);
      TraceInv(ss, steps, svc, j);
      assert Next(ss[j], steps[j], ss[j + 1], svc);
      DoubtPersists(ss[j], steps[j], svc, id);
    }
  }

  /** Every announced request is closed by a recorded outcome or an acknowledgement, except the one in doubt. */
  lemma RequestsAccounted(ss: seq<System>, steps: seq<Step>, svc: Service, k: nat, id: nat)
    requires Trace(ss, steps, svc) && k <= |steps| && id in ss[k].items
    ensures var i := ss[k].items[id];
            && i.marks == i.recorded + i.acknowledged + (if i.unknown then 1 else 0)
            && (i.state in {Requesting, Uncertain} ==> i.unknown)
            && (i.unknown ==> i.state in {Requesting, Uncertain, Rejected})
  {
    TraceInv(ss, steps, svc, k);
    assert Accounted(ss[k].items[id]);
  }

  // ----- one active item, one application -----

  lemma {:induction false} RequeueKeepsTerminal(items: Items, chosen: seq<nat>, acknowledge: bool, id: nat)
    requires RowsAccounted(items) && OneActive(items) && id in items && items[id].state !in {Failed, Uncertain}
    ensures id in RequeueAll(items, chosen, acknowledge) && RequeueAll(items, chosen, acknowledge)[id] == items[id]
  {
    if chosen != [] {
      RequeueKeepsTerminal(items, chosen[..|chosen| - 1], acknowledge, id);
      RequeueSound(items, chosen[..|chosen| - 1], acknowledge);
    }
  }

  /** One row across one step: the object it names never changes, terminal states are
      kept, and its value is applied exactly when it goes from ready to accepted. */
  predicate SettlesOnce(i: Item, j: Item) {
    && SameObject(i, j)
    && (Terminal(i.state) ==> j.state == i.state)
    && j.applied - i.applied == (if j.state == Accepted && i.state != Accepted then 1 else 0)
    && (j.state == Accepted && i.state != Accepted ==> i.state == Ready)
  }

  /** No statement of the executor accepts, applies or cancels a row, or touches one that is settled. */
  predicate Untouched(i: Item, j: Item) {
    SameObject(i, j) && j.applied == i.applied
      && (if Terminal(i.state) then j.state == i.state else j.state !in {Accepted, Cancelled})
  }

  lemma OutcomesUntouch(i: Item)
    ensures forall e, stopped :: Untouched(i, FailRequest(i, e, stopped))
    ensures forall code :: Untouched(i, FailOutput(i, code))
    ensures forall code :: code != NoCode ==> Untouched(i, Stop(i, code))
  {
  }

  lemma ProgressUntouches(i: Item)
    ensures Untouched(i, i) && Untouched(i, Mark(i)) && Untouched(i, Strand(i))
    ensures forall result :: Untouched(i, Finish(i, result))
    ensures forall index, translated, start :: Untouched(i, StoreChunk(i, index, translated, start))
    ensures forall lines :: Untouched(i, i.(source := lines, start := 0))
  {
  }

  lemma ExecutorUntouched(i: Item, j: Item)
    requires ExecutorMakes(i, j)
    ensures Untouched(i, j)
  {
    OutcomesUntouch(i);
    ProgressUntouches(i);
    hide Untouched, Mark, Strand, FailRequest, FailOutput, Finish, StoreChunk, Stop;
  }

  lemma ReviewSettles(i: Item, j: Item)
    requires ReviewMakes(i, j)
    ensures SettlesOnce(i, j)
  {
  }

  lemma RowSettles(i: Item, j: Item)
    requires ExecutorMakes(i, j) || ReviewMakes(i, j)
    ensures SettlesOnce(i, j)
  {
    hide ExecutorMakes, ReviewMakes;
    if ReviewMakes(i, j) {
      ReviewSettles(i, j);
    } else {
      ExecutorUntouched(i, j);
    }
  }

  lemma StepSettlesOnce(s: System, step: Step, svc: Service, id: nat)
    requires Inv(s) && Enabled(s, step, svc) && id in s.items
    ensures id in Apply(s, step, svc).items && SettlesOnce(s.items[id], Apply(s, step, svc).items[id])
  {
    hide Inv, Enabled, Apply, ExecutorMakes, ReviewMakes, RowsAccounted, OneActive, RequeueAll;
    InvRows(s);
    if RunnerStep(step) {
      RunnerSettles(s, step, svc, id);
    } else if Requeues(step) {
      RequeueRows(s, step, svc);
      RequeueSettles(s.items, Chosen(step), Acknowledges(step), id);
    } else if ReviewStep(step) {
      ReviewRows(s, step, svc, id);
      RowSettles(s.items[id], Apply(s, step, svc).items[id]);
    } else {
      ExecutorRows(s, step, svc, id);
      RowSettles(s.items[id], Apply(s, step, svc).items[id]);
    }
  }

  lemma RunnerSettles(s: System, step: Step, svc: Service, id: nat)
    requires RowsAccounted(s.items) && OneActive(s.items) && Enabled(s, step, svc) && RunnerStep(step) && id in s.items
    ensures id in Apply(s, step, svc).items && SettlesOnce(s.items[id], Apply(s, step, svc).items[id])
  {
    RunnerRows(s, step, svc);
    if step.Submit? {
      InsertSound(s.items, step.newRun, step.planned);
    }
    hide Apply, RowsAccounted, OneActive;
  }

  lemma RequeueSettles(items: Items, chosen: seq<nat>, acknowledge: bool, id: nat)
    requires RowsAccounted(items) && OneActive(items) && id in items
    ensures var items' := RequeueAll(items, chosen, acknowledge);
            && id in items' && SameObject(items[id], items'[id]) && items'[id].applied == items[id].applied
            && (items[id].state !in {Failed, Uncertain} ==> items'[id] == items[id])
            && (items'[id].state == Accepted ==> items[id].state == Accepted)
  {
    RequeueSound(items, chosen, acknowledge);
    assert Accounted(items[id]) && Accounted(RequeueAll(items, chosen, acknowledge)[id]);
    if items[id].state !in {Failed, Uncertain} {
      RequeueKeepsTerminal(items, chosen, acknowledge, id);
    } else {
      NeverAccepts(items, chosen, acknowledge, id);
    }
  }

  lemma {:induction false} NeverAccepts(items: Items, chosen: seq<nat>, acknowledge: bool, id: nat)
    requires RowsAccounted(items) && OneActive(items) && id in items && items[id].state != Accepted
    ensures id in RequeueAll(items, chosen, acknowledge) && RequeueAll(items, chosen, acknowledge)[id].state != Accepted
  {
    if chosen != [] {
      NeverAccepts(items, chosen[..|chosen| - 1], acknowledge, id);
      RequeueSound(items, chosen[..|chosen| - 1], acknowledge);
    }
  }

  /** In every reachable state no object has two active items. */
  lemma OneActivePerObject(ss: seq<System>, steps: seq<Step>, svc: Service, k: nat, a: nat, b: nat)
    requires Trace(ss, steps, svc) && k <= |steps| && a in ss[k].items && b in ss[k].items
      && ss[k].items[a].key == ss[k].items[b].key
    requires Active(ss[k].items[a].state) && Active(ss[k].items[b].state)
    ensures a == b
  {
    TraceInv(ss, steps, svc, k);
  }

  lemma {:induction false} TerminalForever(ss: seq<System>, steps: seq<Step>, svc: Service, k: nat, m: nat, id: nat)
    requires Trace(ss, steps, svc) && k <= m <= |steps| && id in ss[k].items && Terminal(ss[k].items[id].state)
    ensures id in ss[m].items && ss[m].items[id].state == ss[k].items[id].state
      && ss[m].items[id].applied == ss[k].items[id].applied
    decreases m
  {
    if m > k {
      TerminalForever(ss, steps, svc, k, m - 1, id);
      TraceInv(ss, steps, svc, m - 1);
      assert Next(ss[m - 1], steps[m - 1], ss[m], svc);
      hide Trace, Inv, Enabled, Apply;
      StepSettlesOnce(ss[m - 1], steps[m - 1], svc, id);
    }
  }

  // ----- no stranded work -----

  /** An item that still has to be sent has a job that will send it, unless the runner
      failed that job after its executor ended without settling it. */
  lemma NoStrandedItem(ss: seq<System>, steps: seq<Step>, svc: Service, k: nat, id: nat)
    requires Trace(ss, steps, svc) && k <= |steps| && id in ss[k].items && ss[k].items[id].state in {Queued, Requesting}
    ensures ss[k].items[id].run in ss[k].runs
    ensures var r := ss[k].runs[ss[k].items[id].run];
            && (r.abandoned <==> r.job !in {StQueued, StRunning})
            && (!r.abandoned ==> r.status == r.job)
  {
    TraceInv(ss, steps, svc, k);
    assert JobSound(ss[k].runs[ss[k].items[id].run]);
  }

  predicate Abandoned(s: System, run: nat) {
    run in s.runs && s.runs[run].abandoned
  }
}
