/** Translate with AI: item rows, and what each SQL statement does to one row. */
module TranslationItems {
  datatype State =
    | Queued | Requesting | Ready | Accepted | Rejected | Failed | Uncertain | Invalid | PolicyBlocked
    | Cancelled

  datatype Code =
    | NoCode
    | UpstreamResultUnknown | CancelledResultUnknown | RunCancelled
    | HelperRejected | UpstreamRejected | RequestTooLarge | InvalidOutput | EndpointUnavailable
    | SourceTemporarilyUnavailable | SourceChanged | ProviderChanged | PolicyChanged | ContentBlocked
    | PermissionChanged
    | NameExists | LyricsExist | LyricsFolderBlocked | AcceptFailed | NotReady | NotFound
    | InvalidLyricsOutput | TranslationOutputTooLarge

  datatype Option<T> = None | Some(value: T)

  /** One row of translation_item.

      The last six fields are history the program does not store: whether a request for
      the item has left whose outcome neither a statement recorded nor a reviewer
      acknowledged, how many requests were announced, how many of those a recorded
      outcome or an acknowledgement closed, how often the item's value was applied, and
      the first chunk its checkpoint starts from. */
  datatype Item = Item(
    run: nat, key: string, state: State, code: Code,
    source: seq<string>, result: Option<seq<string>>, checkpoint: seq<string>, requestIndex: nat,
    unknown: bool, marks: nat, recorded: nat, acknowledged: nat, applied: nat, start: nat)

  // ----- request outcomes -----

  /** What the client reports when a request does not answer. */
  datatype RequestError = HelperRejection | Upstream(status: int) | ResultUnknown | TooLarge | Unusable | Unsent

  const DEFINITIVE := {400, 401, 403, 404, 422, 429}

  /** translationRequestFailure */
  function Classify(e: RequestError): (State, Code) {
    match e
    case HelperRejection => (Failed, HelperRejected)
    case Upstream(status) => if status in DEFINITIVE then (Failed, UpstreamRejected)
      else (Uncertain, UpstreamResultUnknown)
    case ResultUnknown => (Uncertain, UpstreamResultUnknown)
    case TooLarge => (Failed, RequestTooLarge)
    case Unusable => (Failed, InvalidOutput)
    case Unsent => (Failed, EndpointUnavailable)
  }

  predicate ResultUnknownCode(c: Code) {
    c in {UpstreamResultUnknown, CancelledResultUnknown}
  }

  predicate NeedsNewRequest(c: Code) {
    c in {SourceChanged, ProviderChanged, PolicyChanged, ContentBlocked, NameExists, LyricsExist}
  }

  predicate ApplyFailure(c: Code) {
    c in {PermissionChanged, LyricsFolderBlocked, AcceptFailed}
  }

  predicate OutputFailure(c: Code) {
    c in {InvalidLyricsOutput, TranslationOutputTooLarge}
  }

  /** The states of the unique index on dedup_key. */
  predicate Active(s: State) {
    s in {Queued, Requesting, Ready, Uncertain}
  }

  // ----- one row under each statement; a row its WHERE clause misses stays as it is -----

  /** The outcome of an announced request is now recorded. */
  function Record(i: Item): Item {
    i.(unknown := false, recorded := i.recorded + if i.unknown then 1 else 0)
  }

  /** markTranslationRequesting: a request for the item is about to leave. */
  function Mark(i: Item): Item {
    if i.state == Queued then i.(state := Requesting, unknown := true, marks := i.marks + 1) else i
  }

  function StopState(c: Code): State {
    if c == ContentBlocked then PolicyBlocked
    else if c in {EndpointUnavailable, SourceTemporarilyUnavailable} then Failed
    else Invalid
  }

  function Stop(i: Item, c: Code): Item {
    if i.state in {Queued, Requesting} then i.(state := StopState(c), code := c) else i
  }

  /** failTranslationRequest: stopped says whether the job's context had ended. */
  function FailRequest(i: Item, e: RequestError, stopped: bool): Item {
    var (state, code) := Classify(e);
    if i.state != Requesting then i
    else if stopped && state == Failed && code == EndpointUnavailable then Record(i).(state := Queued)
    else if state == Uncertain then i.(state := Uncertain, code := code)
    else Record(i).(state := state, code := code)
  }

  function FailOutput(i: Item, c: Code): Item {
    if i.state in {Requesting, Queued} then Record(i).(state := Failed, code := c) else i
  }

  function Finish(i: Item, result: seq<string>): Item {
    if i.state in {Requesting, Queued} then
      Record(i).(state := Ready, result := Some(result), code := NoCode, checkpoint := [], start := i.requestIndex)
    else i
  }

  function StoreChunk(i: Item, index: nat, translated: seq<string>, start: nat): Item {
    if i.state == Requesting then
      Record(i).(state := Queued, requestIndex := index + 1, checkpoint := translated, start := start)
    else i
  }

  /** The restart of an execution, and settlement: a request in flight has an unknown result. */
  function Strand(i: Item): Item {
    if i.state == Requesting then i.(state := Uncertain, code := UpstreamResultUnknown) else i
  }

  function CancelItem(i: Item): Item {
    if i.state == Requesting then i.(state := Uncertain, code := CancelledResultUnknown)
    else if i.state == Queued then i.(state := Cancelled, code := RunCancelled)
    else i
  }

  /** settleAcceptedItem, in the transaction that applies the item's value. */
  function Accept(i: Item): Item {
    if i.state == Ready then i.(state := Accepted, applied := i.applied + 1) else i
  }

  function Invalidate(i: Item, c: Code): Item {
    if i.state == Ready then i.(state := Invalid, code := c) else i
  }

  /** autoAcceptTranslationItem's last statement. */
  function AutoFail(i: Item, c: Code): Item {
    if i.state in {Ready, Invalid} then i.(state := Failed, code := c) else i
  }

  function Reject(i: Item): Item {
    if i.state in {Ready, Failed, Uncertain, Invalid, PolicyBlocked} then i.(state := Rejected) else i
  }

  predicate Reaccepts(i: Item) {
    i.result.Some? && ApplyFailure(i.code)
  }

  /** requeueTranslationItemTx's update, once its checks have passed. */
  function Requeue(i: Item, acknowledge: bool): Item {
    if i.state !in {Failed, Uncertain} then i
    else
      var restart := OutputFailure(i.code);
      i.(state := if Reaccepts(i) then Ready else Queued, code := NoCode,
         requestIndex := if restart then 0 else i.requestIndex,
         checkpoint := if restart then [] else i.checkpoint,
         start := if restart then 0 else i.start,
         unknown := i.unknown && !acknowledge,
         acknowledged := i.acknowledged + if i.unknown && acknowledge then 1 else 0)
  }

  // ----- what every statement keeps about one row -----

  /** A row's requests are accounted for: an item in doubt is requesting, uncertain or
      discarded, and every other announced request was closed. */
  predicate Accounted(i: Item) {
    && (i.state in {Requesting, Uncertain} ==> i.unknown)
    && (i.unknown ==> i.state in {Requesting, Uncertain, Rejected})
    && i.marks == i.recorded + i.acknowledged + (if i.unknown then 1 else 0)
    && i.applied == (if i.state == Accepted then 1 else 0)
  }

  predicate SameObject(i: Item, j: Item) {
    j.run == i.run && j.key == i.key
  }

  /** Rows leave the active states or stay in them, but no statement except a requeue brings one back. */
  predicate NotRevived(i: Item, j: Item) {
    SameObject(i, j) && (Active(j.state) ==> Active(i.state))
  }

  predicate Terminal(s: State) {
    s in {Accepted, Rejected, Cancelled}
  }
}
