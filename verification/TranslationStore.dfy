/** The transactions of Translate with AI as the loops that run them, over the rows they
    change, and the loops of an execution. */
module TranslationStore {
  import opened TranslationItems
  import opened TranslationProtocol
  import opened TranslationResume

  class TranslationStore {
    var items: Items
    var runs: Runs

    ghost function State(): System
      reads this
    {
      System(items, runs, Off)
    }

    constructor ()
      ensures State() == EMPTY
    {
      items, runs := map[], map[];
    }

    static lemma SubmitResult(s: System, run: nat, planned: seq<Planned>, svc: Service)
      requires Enabled(s, Submit(run, planned), svc)
      ensures var items := InsertAll(s.items, run, planned);
              Apply(s, Submit(run, planned), svc) == if items == s.items then s
                else s.(items := items, runs := s.runs[run := Run(StQueued, StQueued, false)])
      ensures forall k :: 0 <= k < |planned| ==> planned[k].id !in s.items
      ensures forall j, k :: 0 <= j < k < |planned| ==> planned[j].id != planned[k].id
    {
      hide InsertAll, ApplyReview, ApplyExecutor;
    }

    static lemma NothingInserted(items: Items, run: nat, planned: seq<Planned>)
      ensures InsertAll(items, run, planned[..0]) == items
    {
    }

    static lemma InsertsOne(items: Items, run: nat, planned: seq<Planned>, i: nat)
      requires i < |planned|
      ensures var before, p := InsertAll(items, run, planned[..i]), planned[i];
              InsertAll(items, run, planned[..i + 1]) == if ActiveKey(before, p.key) then before
                else before[p.id := NewItem(run, p)]
    {
      assert planned[..i + 1][..i] == planned[..i];
    }

    /** submitAITranslation's transaction: one row per planned object that is not active
        yet; with none left the transaction rolls back. */
    method SubmitRun(run: nat, planned: seq<Planned>, ghost svc: Service) returns (inserted: nat)
      requires Enabled(State(), Submit(run, planned), svc)
      modifies this
      ensures State() == Apply(old(State()), Submit(run, planned), svc)
      ensures inserted == 0 <==> items == old(items)
    {
      hide Enabled, Apply, InsertAll;
      SubmitResult(State(), run, planned, svc);
      ghost var was := items;
      ghost var added: nat := 0;
      inserted := 0;
      var i := 0;
      NothingInserted(was, run, planned);
      while i < |planned|
        invariant 0 <= i <= |planned|
        invariant items == InsertAll(was, run, planned[..i]) && runs == old(runs)
        invariant forall k :: i <= k < |planned| ==> planned[k].id !in items
        invariant inserted == 0 ==> items == was
        invariant inserted > 0 ==> added in items && added !in was
      {
        InsertsOne(was, run, planned, i);
        var p := planned[i];
        if !exists id :: id in items && items[id].key == p.key && Active(items[id].state) {
          items := items[p.id := NewItem(run, p)];
          inserted, added := inserted + 1, p.id;
        }
        i := i + 1;
      }
      assert planned[..|planned|] == planned;
      assert inserted > 0 ==> items != was;
      if inserted > 0 {
        runs := runs[run := Run(StQueued, StQueued, false)];
      }
    }

    /** requeueTranslationItemTx */
    method RequeueItem(id: nat, acknowledge: bool) returns (verdict: Verdict)
      requires id in items
      modifies this`items
      ensures verdict == old(RequeueVerdict(items, id, acknowledge))
      ensures items == if verdict == Sent then old(items)[id := Requeue(old(items[id]), acknowledge)] else old(items)
    {
      var i := items[id];
      if NeedsNewRequest(i.code) {
        return NotResendable;
      }
      if !acknowledge && (i.state == Uncertain || ResultUnknownCode(i.code)) {
        return AcknowledgementRequired;
      }
      if exists other :: other in items && other != id && items[other].key == i.key && Active(items[other].state) {
        return AlreadyActive;
      }
      if i.state !in {Failed, Uncertain} {
        return AlreadyActive;
      }
      items := items[id := Requeue(i, acknowledge)];
      return Sent;
    }

    /** requeueAITranslationJobTx, for each run in turn. */
    method ReopenJobs(which: set<nat>)
      modifies this`runs
      ensures runs == ReopenAll(old(runs), which)
    {
      ghost var was := runs;
      var todo := which;
      while todo != {}
        invariant todo <= which
        invariant runs == ReopenAll(was, which - todo)
      {
        var run :| run in todo;
        ghost var before := todo;
        todo := todo - {run};
        assert which - todo == (which - before) + {run};
        if run in runs && runs[run].job in {StSucceeded, StFailed, StCancelled} {
          runs := runs[run := Run(StQueued, StQueued, false)];
        }
      }
      assert which - {} == which;
    }

    static lemma ResendResult(s: System, chosen: seq<nat>, acknowledge: bool, svc: Service)
      ensures Apply(s, Resend(chosen, acknowledge), svc)
        == s.(items := RequeueAll(s.items, chosen, acknowledge),
          runs := ReopenAll(s.runs, RunsToReopen(s.items, chosen, acknowledge)))
    {
      hide RequeueAll, RunsToReopen, ReopenAll;
    }

    static lemma RequeuesOne(items: Items, chosen: seq<nat>, acknowledge: bool, i: nat)
      requires i < |chosen|
      ensures var before, id := RequeueAll(items, chosen[..i], acknowledge), chosen[i];
              && RequeueAll(items, chosen[..i + 1], acknowledge)
                 == (if Resendable(before, id, acknowledge) then before[id := Requeue(before[id], acknowledge)]
                   else before)
              && RunsToReopen(items, chosen[..i + 1], acknowledge)
                 == RunsToReopen(items, chosen[..i], acknowledge)
                    + if Resendable(before, id, acknowledge) && !Reaccepts(before[id]) then {before[id].run} else {}
    {
      assert chosen[..i + 1][..i] == chosen[..i];
      hide Resendable, Reaccepts, Requeue;
    }

    static lemma NothingRequeued(items: Items, chosen: seq<nat>, acknowledge: bool)
      ensures RequeueAll(items, chosen[..0], acknowledge) == items
        && RunsToReopen(items, chosen[..0], acknowledge) == {}
    {
    }

    /** resendTranslationItems' transaction. */
    method ResendItems(chosen: seq<nat>, acknowledge: bool, ghost svc: Service) returns (reaccept: seq<nat>)
      modifies this
      ensures State() == Apply(old(State()), Resend(chosen, acknowledge), svc)
    {
      hide Apply, RequeueAll, RunsToReopen, ReopenAll, Requeue, RequeueVerdict, Reaccepts;
      ResendResult(State(), chosen, acknowledge, svc);
      ghost var was := items;
      NothingRequeued(was, chosen, acknowledge);
      var reopen: set<nat> := {};
      reaccept := [];
      var i := 0;
      while i < |chosen|
        invariant 0 <= i <= |chosen|
        invariant items == RequeueAll(was, chosen[..i], acknowledge) && runs == old(runs)
        invariant reopen == RunsToReopen(was, chosen[..i], acknowledge)
      {
        RequeuesOne(was, chosen, acknowledge, i);
        var id := chosen[i];
        if id in items && items[id].state in {Failed, Uncertain} {
          var item := items[id];
          var verdict := RequeueItem(id, acknowledge);
          if verdict == Sent {
            if Reaccepts(item) {
              reaccept := reaccept + [id];
            } else {
              reopen := reopen + {item.run};
            }
          }
        }
        i := i + 1;
      }
      assert chosen[..|chosen|] == chosen;
      ReopenJobs(reopen);
    }

    static lemma RequeuedState(i: Item)
      requires i.state == Failed
      ensures Requeue(i, false).state !in {Failed, Uncertain}
    {
    }

    static lemma RetryResult(s: System, run: nat, chosen: seq<nat>, svc: Service)
      requires Enabled(s, Retry(run, chosen), svc)
      ensures forall id :: id in chosen ==> id in s.items && s.items[id].state == Failed
      ensures var items := RequeueAll(s.items, chosen, false);
              Apply(s, Retry(run, chosen), svc) == if items == s.items then s
                else s.(items := items, runs := ReopenAll(s.runs, {run}))
    {
      hide RequeueAll, ReopenAll;
    }

    /** retryAITranslationRun's transaction over the run's failed items. */
    method RetryRun(run: nat, chosen: seq<nat>, ghost svc: Service) returns (queued: nat)
      requires Enabled(State(), Retry(run, chosen), svc)
      modifies this
      ensures State() == Apply(old(State()), Retry(run, chosen), svc)
      ensures queued == 0 <==> items == old(items)
    {
      hide Enabled, Apply, RunsToReopen, RequeueAll, RequeueVerdict, Requeue, Reaccepts, ReopenAll;
      RetryResult(State(), run, chosen, svc);
      ghost var was := items;
      NothingRequeued(was, chosen, false);
      ghost var sent: nat := 0;
      queued := 0;
      var i := 0;
      while i < |chosen|
        invariant 0 <= i <= |chosen|
        invariant items == RequeueAll(was, chosen[..i], false) && runs == old(runs)
        invariant forall id :: id in chosen ==> id in items && items[id].state != Uncertain
        invariant if queued == 0 then items == was else sent in chosen && items[sent].state != Failed
      {
        RequeuesOne(was, chosen, false, i);
        var id := chosen[i];
        assert id in chosen;
        if items[id].state == Failed {
          RequeuedState(items[id]);
          var verdict := RequeueItem(id, false);
          if verdict == Sent {
            queued, sent := queued + 1, id;
          }
        }
        i := i + 1;
      }
      assert chosen[..|chosen|] == chosen;
      if queued > 0 {
        ReopenJobs({run});
      }
    }
  }

  /** One execution's chunk loop from a checkpoint: it stops at the end of the source, or
      early when it yields. */
  method RunChunks(svc: Service, lines: seq<string>, from: nat, checkpoint: seq<string>, yieldAt: nat)
    returns (index: nat, translated: seq<string>)
    requires svc.size > 0 && checkpoint == Segment(svc, lines, 0, from)
    ensures index >= from && translated == Segment(svc, lines, 0, index)
    ensures HasChunk(svc, lines, index) ==> index >= yieldAt
    ensures Faithful(svc) && !HasChunk(svc, lines, index) ==> translated == Pass(svc, lines)
  {
    index, translated := from, checkpoint;
    while index * svc.size < |lines| && index < yieldAt
      invariant index >= from && translated == Segment(svc, lines, 0, index)
      decreases yieldAt - index
    {
      translated := translated + svc.translate(Chunk(svc, lines, index));
      index := index + 1;
    }
    if Faithful(svc) && !HasChunk(svc, lines, index) {
      SegmentIsPass(svc, lines, index);
    }
  }
}
