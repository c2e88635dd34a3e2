/** Translate with AI as a protocol: one executor, reviewers, cancellation and the job
    runner interleave, each SQL statement or transaction being one step. */
module TranslationProtocol {
  import opened TranslationItems

  datatype Status = StQueued | StRunning | StSucceeded | StPartial | StFailed | StCancelled

  /** A run and its one job.  abandoned is history: the runner failed the job after its
      executor ended without settling it. */
  datatype Run = Run(job: Status, status: Status, abandoned: bool)

  type Items = map<nat, Item>

  type Runs = map<nat, Run>

  /** What the executor is in the middle of.  A lyrics pass keeps the lines it read, the
      chunk it is at and the lines translated so far, in memory. */
  datatype Doing =
    | Starting
    | Between
    | Sending(ids: set<nat>)
    | Chunks(id: nat, lines: seq<string>, index: nat, translated: seq<string>, start: nat, sent: bool)

  datatype Executor = Off | On(run: nat, doing: Doing)

  datatype System = System(items: Items, runs: Runs, executor: Executor)

  /** The translator, as the lines it answers for a chunk, and the chunk size. */
  datatype Service = Service(translate: seq<string> -> seq<string>, size: nat)

  datatype Planned = Planned(id: nat, key: string, source: seq<string>)

  datatype Step =
    // requests and the runner
    | Submit(newRun: nat, planned: seq<Planned>)
    | Claim(claimed: nat)
    | ExecutorEnds
    | RunnerRequeues(requeued: nat)
    | RunnerFails(failed: nat)
    | CancelRun(cancelled: nat)
    // the executor
    | Recover
    | StopItem(id: nat, code: Code)
    | Announce(ids: set<nat>)
    | Answer(id: nat, result: seq<string>)
    | AnswerUnusable(id: nat, code: Code)
    | RequestFails(id: nat, error: RequestError, stopped: bool)
    | OpenLyrics(id: nat, lines: seq<string>)
    | AnnounceChunk
    | ChunkAnswers
    | ChunkTooLarge
    | ChunkFails(error: RequestError, stopped: bool)
    | FinishLyrics(renders: bool)
    | Yield
    | Settle
    // reviewers and auto-accept
    | AcceptItem(id: nat)
    | InvalidateItem(id: nat, code: Code)
    | AutoFailItem(id: nat, code: Code)
    | RejectItem(id: nat)
    | Resend(chosen: seq<nat>, acknowledge: bool)
    | Retry(retried: nat, chosen: seq<nat>)

  // ----- statements over all rows -----

  predicate ActiveKey(items: Items, key: string) {
    exists id :: id in items && items[id].key == key && Active(items[id].state)
  }

  predicate ActiveElsewhere(items: Items, id: nat)
    requires id in items
  {
    exists other :: other in items && other != id && items[other].key == items[id].key && Active(items[other].state)
  }

  function NewItem(run: nat, p: Planned): Item {
    Item(run, p.key, Queued, NoCode, p.source, None, [], 0, false, 0, 0, 0, 0, 0)
  }

  /** submitAITranslation's loop: INSERT ... ON CONFLICT DO NOTHING. */
  function InsertAll(items: Items, run: nat, planned: seq<Planned>): Items {
    if planned == [] then items
    else
      var before, p := InsertAll(items, run, planned[..|planned| - 1]), planned[|planned| - 1];
      if ActiveKey(before, p.key) then before else before[p.id := NewItem(run, p)]
  }

  function StrandRun(items: Items, run: nat): Items {
    map id | id in items :: if items[id].run == run then Strand(items[id]) else items[id]
  }

  function CancelItems(items: Items, run: nat): Items {
    map id | id in items :: if items[id].run == run then CancelItem(items[id]) else items[id]
  }

  function MarkAll(items: Items, ids: set<nat>): Items {
    map id | id in items :: if id in ids then Mark(items[id]) else items[id]
  }

  datatype Verdict = Sent | NotResendable | AcknowledgementRequired | AlreadyActive

  function RequeueVerdict(items: Items, id: nat, acknowledge: bool): Verdict
    requires id in items
  {
    var i := items[id];
    if NeedsNewRequest(i.code) then NotResendable
    else if !acknowledge && (i.state == Uncertain || ResultUnknownCode(i.code)) then AcknowledgementRequired
    else if ActiveElsewhere(items, id) then AlreadyActive
    else if i.state !in {Failed, Uncertain} then AlreadyActive
    else Sent
  }

  predicate Resendable(items: Items, id: nat, acknowledge: bool) {
    && id in items && items[id].state in {Failed, Uncertain}
    && RequeueVerdict(items, id, acknowledge) == Sent
  }

  /** The rows after the chosen items were requeued one by one. */
  function RequeueAll(items: Items, chosen: seq<nat>, acknowledge: bool): Items {
    if chosen == [] then items
    else
      var before, id := RequeueAll(items, chosen[..|chosen| - 1], acknowledge), chosen[|chosen| - 1];
      if Resendable(before, id, acknowledge) then before[id := Requeue(before[id], acknowledge)] else before
  }

  /** The runs a resend reopens: those of an item that needs another request. */
  function RunsToReopen(items: Items, chosen: seq<nat>, acknowledge: bool): set<nat> {
    if chosen == [] then {}
    else
      var before, id := RequeueAll(items, chosen[..|chosen| - 1], acknowledge), chosen[|chosen| - 1];
      RunsToReopen(items, chosen[..|chosen| - 1], acknowledge)
      + if Resendable(before, id, acknowledge) && !Reaccepts(before[id]) then {before[id].run} else {}
  }

  function Reopen(r: Run): Run {
    if r.job in {StSucceeded, StFailed, StCancelled} then Run(StQueued, StQueued, false) else r
  }

  function ReopenAll(runs: Runs, which: set<nat>): Runs {
    map r | r in runs :: if r in which then Reopen(runs[r]) else runs[r]
  }

  /** requeueWorkflowJobTx, for the job this executor runs. */
  function RequeueJob(r: Run): Run {
    if r.job in {StRunning, StFailed} then Run(StQueued, StQueued, false) else r
  }

  function InStates(items: Items, run: nat, states: set<State>): set<nat> {
    set id | id in items && items[id].run == run && items[id].state in states
  }

  function StoppedCount(items: Items, run: nat): nat {
    |InStates(items, run, {Failed, Uncertain, Invalid, PolicyBlocked})|
  }

  function ReviewedCount(items: Items, run: nat): nat {
    |InStates(items, run, {Ready, Accepted, Rejected})|
  }

  /** finishAITranslationJob's verdict on a run with nothing left to send. */
  function Settled(items: Items, run: nat): Run {
    var stopped, reviewed := StoppedCount(items, run), ReviewedCount(items, run);
    if stopped > 0 && reviewed == 0 then Run(StFailed, StFailed, false)
    else if stopped > 0 then Run(StSucceeded, StPartial, false)
    else Run(StSucceeded, StSucceeded, false)
  }

  // ----- the executor's chunks -----

  function Min(a: nat, b: nat): nat {
    if a < b then a else b
  }

  function Chunk(svc: Service, lines: seq<string>, index: nat): seq<string> {
    lines[Min(index * svc.size, |lines|)..Min((index + 1) * svc.size, |lines|)]
  }

  /** The chunks of a source are those that start before its end. */
  predicate HasChunk(svc: Service, lines: seq<string>, index: nat) {
    index * svc.size < |lines|
  }

  predicate IdleIn(e: Executor, run: nat) {
    e.On? && e.run == run && (e.doing.Between? || (e.doing.Chunks? && !e.doing.sent))
  }

  predicate Chunking(e: Executor, sent: bool) {
    e.On? && e.doing.Chunks? && e.doing.sent == sent
  }

  function Answered(e: Executor, id: nat): Executor
    requires e.On? && e.doing.Sending?
  {
    On(e.run, if e.doing.ids - {id} == {} then Between else Sending(e.doing.ids - {id}))
  }

  ghost predicate Enabled(s: System, step: Step, svc: Service) {
    match step
    case Submit(run, planned) =>
      && run !in s.runs
      && (forall i :: 0 <= i < |planned| ==> planned[i].id !in s.items)
      && (forall i, j :: 0 <= i < j < |planned| ==> planned[i].id != planned[j].id)
    case Claim(run) =>
      && s.executor.Off? && run in s.runs && s.runs[run].job == StQueued == s.runs[run].status
      && forall r :: r in s.runs ==> s.runs[r].job != StRunning
    case ExecutorEnds => s.executor.On?
    case RunnerRequeues(run) => s.executor.Off? && run in s.runs && s.runs[run].job == StRunning
    case RunnerFails(run) => s.executor.Off? && run in s.runs && s.runs[run].job == StRunning
    case CancelRun(run) => run in s.runs && s.runs[run].status in {StQueued, StRunning}
    case Recover => s.executor.On? && s.executor.doing.Starting?
    case StopItem(id, code) => id in s.items && IdleIn(s.executor, s.items[id].run) && code != NoCode
    case Announce(ids) =>
      && s.executor.On? && s.executor.doing.Between? && ids != {} && s.executor.run in s.runs
      && forall id :: id in ids ==> id in s.items && s.items[id].run == s.executor.run
    case Answer(id, _) => s.executor.On? && s.executor.doing.Sending? && id in s.executor.doing.ids && id in s.items
    case AnswerUnusable(id, code) => s.executor.On? && s.executor.doing.Sending? && id in s.executor.doing.ids
      && id in s.items && code == InvalidOutput
    case RequestFails(id, _, _) => s.executor.On? && s.executor.doing.Sending? && id in s.executor.doing.ids
      && id in s.items
    case OpenLyrics(id, lines) =>
      // the row was read as queued; its run may have been cancelled since
      && s.executor.On? && s.executor.doing.Between? && id in s.items && s.items[id].run == s.executor.run
      && s.items[id].state in {Queued, Cancelled}
      && (Unread(s.items[id]) || lines == s.items[id].source)
    case AnnounceChunk => Chunking(s.executor, false) && s.executor.doing.id in s.items && s.executor.run in s.runs
      && HasChunk(svc, s.executor.doing.lines, s.executor.doing.index)
    case ChunkAnswers => Chunking(s.executor, true) && s.executor.doing.id in s.items
    case ChunkTooLarge => Chunking(s.executor, true) && s.executor.doing.id in s.items
    case ChunkFails(_, _) => Chunking(s.executor, true) && s.executor.doing.id in s.items
    case FinishLyrics(_) => Chunking(s.executor, false) && s.executor.doing.id in s.items
      && !HasChunk(svc, s.executor.doing.lines, s.executor.doing.index)
    case Yield => s.executor.On? && IdleIn(s.executor, s.executor.run) && s.executor.run in s.runs
    case Settle => s.executor.On? && s.executor.doing.Between? && s.executor.run in s.runs
    case AcceptItem(id) => id in s.items
    case InvalidateItem(id, code) => id in s.items
      && code in {SourceChanged, ProviderChanged, PolicyChanged, ContentBlocked, NameExists, LyricsExist}
    case AutoFailItem(id, code) => id in s.items && !OutputFailure(code) && !ResultUnknownCode(code)
    case RejectItem(id) => id in s.items
    case Resend(_, _) => true
    case Retry(run, chosen) =>
      && run in s.runs
      // the run's failed items, less those the account may not translate
      && (forall id :: id in chosen ==> id in s.items && s.items[id].run == run && s.items[id].state == Failed)
  }

  /** The first read of a lyrics item fixes the source its chunks translate. */
  predicate Unread(i: Item) {
    i.requestIndex == 0 && i.checkpoint == []
  }

  function ApplyRunner(s: System, step: Step): System {
    match step
    case Submit(run, planned) =>
      var items := InsertAll(s.items, run, planned);
      if items == s.items then s else s.(items := items, runs := s.runs[run := Run(StQueued, StQueued, false)])
    case Claim(run) => s.(runs := s.runs[run := Run(StRunning, StRunning, false)], executor := On(run, Starting))
    case ExecutorEnds => s.(executor := Off)
    case RunnerRequeues(run) => s.(runs := s.runs[run := Run(StQueued, StQueued, false)])
    case RunnerFails(run) => s.(runs := s.runs[run := Run(StFailed, StFailed, true)])
    case CancelRun(run) =>
      if run !in s.runs then s
      else
        var job := if s.runs[run].job in {StQueued, StRunning} then StCancelled else s.runs[run].job;
        s.(items := CancelItems(s.items, run), runs := s.runs[run := s.runs[run].(job := job, status := StCancelled)])
    case _ => s
  }

  function ApplyExecutor(s: System, step: Step, svc: Service): System
    requires s.executor.On?
  {
    var run, doing := s.executor.run, s.executor.doing;
    match step
    case Recover => s.(items := StrandRun(s.items, run), executor := On(run, Between))
    case StopItem(id, code) =>
      if id in s.items then s.(items := s.items[id := Stop(s.items[id], code)], executor := On(run, Between)) else s
    case Announce(ids) =>
      if run in s.runs && s.runs[run].status == StCancelled then s.(executor := Off)
      else
        // every item must have been queued, or no request leaves and the job ends with an error
        var all := forall id :: id in ids ==> id in s.items && s.items[id].state == Queued;
        s.(items := MarkAll(s.items, ids), executor := if all then On(run, Sending(ids)) else Off)
    case Answer(id, result) =>
      if id in s.items && doing.Sending? then
        s.(items := s.items[id := Finish(s.items[id], result)], executor := Answered(s.executor, id)) else s
    case AnswerUnusable(id, code) =>
      if id in s.items && doing.Sending? then
        s.(items := s.items[id := FailOutput(s.items[id], code)], executor := Answered(s.executor, id)) else s
    case RequestFails(id, e, stopped) =>
      if id in s.items && doing.Sending? then
        s.(items := s.items[id := FailRequest(s.items[id], e, stopped)], executor := Answered(s.executor, id)) else s
    case OpenLyrics(id, lines) =>
      if id in s.items then
        var i := s.items[id];
        s.(items := if Unread(i) then s.items[id := i.(source := lines, start := 0)] else s.items,
           executor := On(run, Chunks(id, lines, i.requestIndex, i.checkpoint,
                                      if Unread(i) then 0 else i.start, false)))
      else s
    case _ => if doing.Chunks? && doing.id in s.items then ApplyChunk(s, step, svc) else ApplyJob(s, step)
  }

  function ApplyChunk(s: System, step: Step, svc: Service): System
    requires s.executor.On? && s.executor.doing.Chunks? && s.executor.doing.id in s.items
  {
    var run, Chunks(id, lines, index, translated, start, sent) := s.executor.run, s.executor.doing;
    var i := s.items[id];
    match step
    case AnnounceChunk =>
      if (run in s.runs && s.runs[run].status == StCancelled) || i.state != Queued then s.(executor := Off)
      else s.(items := s.items[id := Mark(i)], executor := On(run, Chunks(id, lines, index, translated, start, true)))
    case ChunkAnswers =>
      var more := translated + svc.translate(Chunk(svc, lines, index));
      s.(items := s.items[id := StoreChunk(i, index, more, start)],
        executor := On(run, Chunks(id, lines, index + 1, more, start, false)))
    case ChunkTooLarge => s.(items := s.items[id := FailOutput(i, TranslationOutputTooLarge)],
      executor := On(run, Between))
    case ChunkFails(e, stopped) => s.(items := s.items[id := FailRequest(i, e, stopped)], executor := On(run, Between))
    case FinishLyrics(renders) =>
      // Render refuses a translation with another number of lines than the document
      if renders && |translated| == |lines| then
        s.(items := s.items[id := Finish(i, translated)], executor := On(run, Between))
      else s.(items := s.items[id := FailOutput(i, InvalidLyricsOutput)], executor := On(run, Between))
    case _ => ApplyJob(s, step)
  }

  function ApplyJob(s: System, step: Step): System
    requires s.executor.On?
  {
    var run := s.executor.run;
    match step
    case Yield => if run in s.runs then System(s.items, s.runs[run := RequeueJob(s.runs[run])], Off) else s
    case Settle =>
      if run !in s.runs then s
      else if s.runs[run].status != StRunning || s.runs[run].job != StRunning then s.(executor := Off)
      else
        var items := StrandRun(s.items, run);
        var runs := s.runs[run := if InStates(items, run, {Queued}) != {} then RequeueJob(s.runs[run])
          else Settled(items, run)];
        System(items, runs, Off)
    case _ => s
  }

  function ApplyReview(s: System, step: Step): System {
    match step
    case AcceptItem(id) => if id in s.items then s.(items := s.items[id := Accept(s.items[id])]) else s
    case InvalidateItem(id, code) => if id in s.items then s.(items := s.items[id := Invalidate(s.items[id], code)])
      else s
    case AutoFailItem(id, code) => if id in s.items then s.(items := s.items[id := AutoFail(s.items[id], code)]) else s
    case RejectItem(id) => if id in s.items then s.(items := s.items[id := Reject(s.items[id])]) else s
    case Resend(chosen, acknowledge) =>
      s.(items := RequeueAll(s.items, chosen, acknowledge),
        runs := ReopenAll(s.runs, RunsToReopen(s.items, chosen, acknowledge)))
    case Retry(run, chosen) =>
      var items := RequeueAll(s.items, chosen, false);
      if items == s.items then s else s.(items := items, runs := ReopenAll(s.runs, {run}))
    case _ => s
  }

  predicate RunnerStep(step: Step) {
    step.Submit? || step.Claim? || step.ExecutorEnds? || step.RunnerRequeues? || step.RunnerFails? || step.CancelRun?
  }

  predicate ReviewStep(step: Step) {
    step.AcceptItem? || step.InvalidateItem? || step.AutoFailItem? || step.RejectItem? || step.Resend? || step.Retry?
  }

  function Apply(s: System, step: Step, svc: Service): System {
    if RunnerStep(step) then ApplyRunner(s, step)
    else if ReviewStep(step) then ApplyReview(s, step)
    else if s.executor.On? then ApplyExecutor(s, step, svc)
    else s
  }

  ghost predicate Next(s: System, step: Step, s': System, svc: Service) {
    Enabled(s, step, svc) && s' == Apply(s, step, svc)
  }

  const EMPTY := System(map[], map[], Off)

  /** Every interleaving from an empty database. */
  ghost predicate Trace(ss: seq<System>, steps: seq<Step>, svc: Service) {
    && |ss| == |steps| + 1 && ss[0] == EMPTY
    && forall k :: 0 <= k < |steps| ==> Next(ss[k], steps[k], ss[k + 1], svc)
  }
}
