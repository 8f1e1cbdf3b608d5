/**
 Bounded recovery (backend/src/extrio/bounded_recovery.py): the stored records and the
 transitions of one recovery batch, of a dispatcher tick and of the surrounding world.

 Instants are integers (seconds), content digests are the digested values themselves and an
 identifier drawn at random is an argument of the transition that draws it.
 */
module RecoveryModel {
  import opened Prelude

  // Identifiers are opaque: the code only stores and compares them.
  type Id(==,!new)

  datatype Host = Host(name: string)

  const FIRST_DELAY := 1800
  const SECOND_DELAY := 7200
  const THIRD_DELAY := 21600
  const REQUEST_LIMIT := 120
  const MAX_REQUESTS := 360
  const MAX_ATTEMPTS := 3
  const LIFETIME := 24 * 3600
  const LIST_PAGE_LIMIT := 3
  const ITEM_LIMIT := 50

  datatype Status = CoolingDown | Running | Cancelling | Recovered | NeedsAttention | Cancelled

  datatype Reason =
    | SourceRateLimited | AttemptLimit | ServerWaitExceedsDeadline | SourceUnavailable | ContextChanged
    | ProgressChanged | DeadlineReached | DispatchRejected | ContinuationRunning | ContinuationVerified
    | RunNotRecoverable | CancelRequested

  // Dates are day numbers; progress may lack the date its window starts on.
  datatype Progress = Progress(ruleDigest: string, policyId: Id, windowStart: Option<int>, resumeHost: Host, pageIndex: int, rest: string)

  datatype Checkpoint = Checkpoint(kind: string, policyId: Id, ruleDigest: string, watermark: int, rest: string)

  datatype RunStatus = RunQueued | RunRunning | RunFinalizing | RunSucceeded | RunPartial | RunFailed | RunCancelled | RunTimedOut

  datatype StopKind = RateLimited | MaxPages | MaxItems | CheckpointReached | TimeWindowReached | OtherStop

  // finishedAt is what `finished` derives from finishedAtIso, or from startedAtIso and duration.
  datatype RunRecord = RunRecord(
    collectorId: Id, operationId: Id, batchId: Option<Id>, status: RunStatus, stop: StopKind,
    finishedAt: Option<int>, retryAfter: nat, listPages: nat, detailPages: nat, items: nat, sourceRequests: nat,
    progressBefore: Option<Progress>, progressAfter: Option<Progress>,
    checkpointBefore: Option<Checkpoint>, checkpointAfter: Option<Checkpoint>,
    verified: bool, ruleVersion: Id, policyVersion: Id, ruleDigest: string, windowStart: int)

  datatype Operation = Operation(collectorId: Id, terminal: bool, cancelRequested: bool)

  datatype Policy = Policy(id: Id, maxPages: int, maxItems: int, observed: bool, lookbackDays: int, initialWindowDays: int)

  // Everything the context digest of a source covers.
  datatype Context = Context(
    managementRevision: int, published: bool, activeRule: Option<Id>, collectionId: Id, collectionVersion: Id,
    pendingVersion: Option<Id>, intent: string, urlHost: Host, urlPath: string, candidate: string,
    policy: Option<Policy>, archived: bool)

  datatype Source = Source(
    context: Context, deleted: bool, scheduleEnabled: bool, progress: Option<Progress>, checkpoint: Option<Checkpoint>,
    latestRun: Option<Id>, activeOperation: Option<Id>)

  datatype Batch = Batch(
    id: Id, collectorId: Id, seedRunId: Id, status: Status, reason: Reason,
    expiresAt: int, finishedAt: Option<int>, nextAttemptAt: Option<int>, notBefore: Option<int>,
    maxAttempts: nat, attempts: seq<Id>, activeRun: Option<Id>, reservedRequests: nat, maxRequests: nat,
    hosts: set<Host>, context: Context, expectedProgress: Option<Progress>, expectedCheckpoint: Option<Checkpoint>,
    ruleVersion: Id, ruleDigest: string, policyVersion: Id, windowStart: int, cancelRequested: bool)

  // `order` lists the batches by creation; `busy` holds the collectors with a queued or processing job.
  datatype State = State(
    batches: map<Id, Batch>, order: seq<Id>, runs: map<Id, RunRecord>, operations: map<Id, Operation>,
    sources: map<Id, Source>, rules: map<Id, set<Host>>, busy: set<Id>)

  // What a dispatch draws or is told: fresh identifiers, the digest proved by the rule attestation, and
  // the date in the time zone of the policy.
  datatype Dispatch = Dispatch(runId: Id, operationId: Id, proof: Option<string>, today: int)

  datatype Event =
    | Start(runId: Id, batchId: Id, proof: Option<string>, now: int, wall: int)
    | RequestStop(batchId: Id, now: int)
    | Tick(now: int, wall: int, draws: map<Id, Dispatch>)
    | World(next: State)

  // ---------------------------------------------------------------- small readings

  predicate Active(b: Batch) {
    b.status in {CoolingDown, Running, Cancelling}
  }

  predicate Unfinished(r: RunRecord) {
    r.status in {RunQueued, RunRunning, RunFinalizing}
  }

  function Delay(index: nat): int {
    if index == 0 then FIRST_DELAY else if index == 1 then SECOND_DELAY else THIRD_DELAY
  }

  function Finished(r: RunRecord, fallback: int): int {
    if r.finishedAt.Some? then r.finishedAt.value else fallback
  }

  // The hosts a source may contact: its own and those its active rule allows.
  function ContextHosts(rules: map<Id, set<Host>>, context: Context): set<Host> {
    var allowed := if context.activeRule.Some? && context.activeRule.value in rules then rules[context.activeRule.value] else {};
    set h | h in allowed + {context.urlHost} && h.name != ""
  }

  function HostsOf(s: State, source: Source): set<Host> {
    ContextHosts(s.rules, source.context)
  }

  predicate ValidProgress(p: Option<Progress>, ruleDigest: string, policyId: Id) {
    p.Some? && p.value.ruleDigest == ruleDigest && p.value.policyId == policyId && p.value.windowStart.Some?
  }

  predicate HasActiveRun(s: State, collectorId: Id) {
    exists r :: r in s.runs && s.runs[r].collectorId == collectorId && Unfinished(s.runs[r])
  }

  predicate HasOpenOperation(s: State, collectorId: Id) {
    exists o :: o in s.operations && s.operations[o].collectorId == collectorId && !s.operations[o].terminal
  }

  predicate Available(s: State, collectorId: Id) {
    collectorId in s.sources && !s.sources[collectorId].deleted
  }

  // `for_run`: the batch that owns the run, or the batch the run seeded.
  function ForRun(s: State, runId: Id): Option<Id> {
    if runId in s.runs && s.runs[runId].batchId.Some? then
      if s.runs[runId].batchId.value in s.batches then s.runs[runId].batchId else None
    else
      SeededBy(s, runId, s.order)
  }

  function SeededBy(s: State, runId: Id, ids: seq<Id>): Option<Id> {
    if ids == [] then None
    else if ids[0] in s.batches && s.batches[ids[0]].seedRunId == runId then Some(ids[0])
    else SeededBy(s, runId, ids[1..])
  }

  // A batch holds its hosts while it is active, and as long as a server-imposed wait lasts.
  predicate Holds(b: Batch, wall: int) {
    Active(b) || (b.notBefore.Some? && b.notBefore.value > wall)
  }

  // `guard_source_work`: no other batch holds a host of the source.
  predicate HostsFree(s: State, source: Source, owner: Option<Id>, wall: int) {
    forall id :: id in s.batches && Holds(s.batches[id], wall) && Some(id) != owner
      ==> s.batches[id].hosts !! HostsOf(s, source)
  }

  // ---------------------------------------------------------------- one batch

  function Stop(b: Batch, reason: Reason, now: int, status: Status): Batch {
    b.(status := status, reason := reason, nextAttemptAt := None, finishedAt := Some(now))
  }

  function Due(b: Batch, run: RunRecord, now: int): int {
    Finished(run, now) + Max(Delay(|b.attempts|), run.retryAfter)
  }

  function Cool(b: Batch, run: RunRecord, now: int): Batch {
    var due := Due(b, run, now);
    var held := b.(notBefore := Some(due));
    if |b.attempts| >= b.maxAttempts then Stop(held, AttemptLimit, now, NeedsAttention)
    else if due >= b.expiresAt then Stop(held, ServerWaitExceedsDeadline, now, NeedsAttention)
    else held.(status := CoolingDown, reason := SourceRateLimited, nextAttemptAt := Some(due))
  }

  predicate VerifiedContinuation(source: Source, b: Batch, run: RunRecord) {
    && run.status in {RunSucceeded, RunPartial}
    && run.stop in {MaxPages, MaxItems, CheckpointReached, TimeWindowReached}
    && run.listPages <= LIST_PAGE_LIMIT && run.detailPages <= ITEM_LIMIT && run.items <= ITEM_LIMIT
    && run.sourceRequests <= REQUEST_LIMIT
    && match run.checkpointAfter
       case Some(checkpoint) =>
         && checkpoint.kind == "coverage" && checkpoint.policyId == b.policyVersion && checkpoint.ruleDigest == b.ruleDigest
         && source.checkpoint == Some(checkpoint) && source.progress == None
       case None =>
         && ValidProgress(run.progressAfter, b.ruleDigest, b.policyVersion)
         && run.progressAfter.value.windowStart == Some(b.windowStart)
         && run.progressAfter != b.expectedProgress && run.progressAfter == source.progress
         && b.expectedProgress.Some? && run.progressAfter.value.pageIndex >= b.expectedProgress.value.pageIndex
         && run.progressAfter.value.resumeHost in b.hosts
  }

  predicate ContextMoved(source: Source, b: Batch) {
    source.context != b.context || source.scheduleEnabled
  }

  datatype Verdict = Finish(reason: Reason, status: Status) | BackOff

  // The branches of `tick` for a batch whose run has ended.
  function Judge(source: Source, b: Batch, run: RunRecord): Verdict {
    if b.status == Cancelling then Finish(b.reason, if b.cancelRequested then Cancelled else NeedsAttention)
    else if ContextMoved(source, b) then Finish(ContextChanged, NeedsAttention)
    else if || run.progressBefore != b.expectedProgress || run.checkpointBefore != b.expectedCheckpoint || !run.verified
            || run.ruleVersion != b.ruleVersion || run.policyVersion != b.policyVersion || run.ruleDigest != b.ruleDigest then
      Finish(ContextChanged, NeedsAttention)
    else if run.stop == RateLimited then
      if run.items > 0 || run.checkpointAfter.Some? || run.progressAfter != b.expectedProgress || source.progress != b.expectedProgress
      then Finish(ProgressChanged, NeedsAttention)
      else BackOff
    else if VerifiedContinuation(source, b, run) then Finish(ContinuationVerified, Recovered)
    else Finish(RunNotRecoverable, NeedsAttention)
  }

  function Settle(source: Source, b: Batch, run: RunRecord, now: int): Batch {
    match Judge(source, b, run)
    case BackOff => Cool(b.(activeRun := None), run, now)
    case Finish(reason, status) =>
      var hold := if status == Recovered then None else b.notBefore;
      Stop(b.(activeRun := None, notBefore := hold), reason, now, status)
  }

  function Save(s: State, b: Batch): State {
    s.(batches := s.batches[b.id := b])
  }

  // A command leaves an ended operation alone; the dispatcher marks it either way.
  function CancelOperation(s: State, operationId: Id, evenEnded: bool): State {
    if operationId in s.operations && (evenEnded || !s.operations[operationId].terminal)
    then s.(operations := s.operations[operationId := s.operations[operationId].(cancelRequested := true)])
    else s
  }

  // ---------------------------------------------------------------- dispatching a run

  // `create_run_operation` with a recovery batch, and the checks of `create_async_command` behind it.
  predicate DispatchAccepted(s: State, b: Batch, d: Dispatch, wall: int) {
    && Available(s, b.collectorId)
    && var source := s.sources[b.collectorId];
       && !source.context.archived && source.context.pendingVersion == None
       && source.context.published && source.context.activeRule.Some? && source.context.policy.Some?
       && d.proof.Some?
       && !HasActiveRun(s, b.collectorId) && !HasOpenOperation(s, b.collectorId) && b.collectorId !in s.busy
       && HostsFree(s, source, Some(b.id), wall)
       && d.runId !in s.runs && d.operationId !in s.operations
  }

  // A run that takes up saved progress keeps the window of that progress; otherwise the policy counts
  // back from the watermark of the checkpoint, or for a first run from today.
  function WindowStart(progress: Option<Progress>, checkpoint: Option<Checkpoint>, policy: Policy, today: int): int {
    if progress.Some? && progress.value.windowStart.Some? then progress.value.windowStart.value
    else if checkpoint.Some? then checkpoint.value.watermark - policy.lookbackDays
    else today - policy.initialWindowDays
  }

  function NewRun(b: Batch, source: Source, d: Dispatch): RunRecord
    requires source.context.activeRule.Some? && source.context.policy.Some? && d.proof.Some?
  {
    var policy := source.context.policy.value;
    var progress := if policy.observed && ValidProgress(source.progress, d.proof.value, policy.id) then source.progress else None;
    var checkpoint := if source.checkpoint.Some? && (policy.observed ==> source.checkpoint.value.ruleDigest == d.proof.value)
                         && source.checkpoint.value.policyId == policy.id then source.checkpoint else None;
    RunRecord(b.collectorId, d.operationId, Some(b.id), RunQueued, OtherStop, None, 0, 0, 0, 0, 0, progress, None, checkpoint,
              None, true, source.context.activeRule.value, policy.id, d.proof.value,
              WindowStart(progress, checkpoint, policy, d.today))
  }

  function CreateRun(s: State, b: Batch, d: Dispatch): State
    requires b.collectorId in s.sources
    requires var c := s.sources[b.collectorId].context; c.activeRule.Some? && c.policy.Some? && d.proof.Some?
  {
    var source := s.sources[b.collectorId];
    s.(runs := s.runs[d.runId := NewRun(b, source, d)],
       operations := s.operations[d.operationId := Operation(b.collectorId, false, false)],
       sources := s.sources[b.collectorId := source.(activeOperation := Some(d.operationId))],
       busy := s.busy + {b.collectorId})
  }

  function Launched(b: Batch, d: Dispatch): Batch {
    b.(activeRun := Some(d.runId), attempts := b.attempts + [d.runId], reservedRequests := b.reservedRequests + REQUEST_LIMIT,
       status := Running, nextAttemptAt := None, reason := ContinuationRunning)
  }

  datatype Move = Leave | Wait | Halt(reason: Reason) | Launch(draw: Dispatch)

  // The second half of `tick`: what to do with a batch that is cooling down.
  function NextMove(s: State, b: Batch, now: int, wall: int, draws: map<Id, Dispatch>): Move
    requires b.collectorId in s.sources
  {
    var source := s.sources[b.collectorId];
    if b.status != CoolingDown then Leave
    else if now >= b.expiresAt then Halt(DeadlineReached)
    else if ContextMoved(source, b) then Halt(ContextChanged)
    else if source.progress != b.expectedProgress || source.checkpoint != b.expectedCheckpoint then Halt(ProgressChanged)
    else if b.nextAttemptAt.None? || now < b.nextAttemptAt.value then Wait
    else if |b.attempts| >= b.maxAttempts || b.reservedRequests + REQUEST_LIMIT > b.maxRequests then Halt(AttemptLimit)
    else if b.id in draws && DispatchAccepted(s, b, draws[b.id], wall) then Launch(draws[b.id])
    else Halt(DispatchRejected)
  }

  function Advance(s: State, b: Batch, now: int, wall: int, draws: map<Id, Dispatch>): State
    requires b.collectorId in s.sources
  {
    match NextMove(s, b, now, wall, draws)
    case Leave => s
    case Wait => Save(s, b)
    case Halt(reason) => Save(s, Stop(b, reason, now, NeedsAttention))
    case Launch(draw) => Save(CreateRun(s, b, draw), Launched(b, draw))
  }

  function TickBatch(s: State, id: Id, now: int, wall: int, draws: map<Id, Dispatch>): State
    requires id in s.batches
  {
    var b := s.batches[id];
    if !Available(s, b.collectorId) then Save(s, Stop(b, SourceUnavailable, now, NeedsAttention))
    else if b.activeRun.None? then Advance(s, b, now, wall, draws)
    else if b.activeRun.value !in s.runs then s
    else
      var run := s.runs[b.activeRun.value];
      if Unfinished(run) then
        if now >= b.expiresAt || b.cancelRequested then
          Save(CancelOperation(s, run.operationId, true),
               b.(status := Cancelling, reason := if b.cancelRequested then CancelRequested else DeadlineReached))
        else s
      else
        var settled := Settle(s.sources[b.collectorId], b, run, now);
        Advance(Save(s, settled), settled, now, wall, draws)
  }

  function ActiveIds(s: State, ids: seq<Id>): seq<Id> {
    if ids == [] then []
    else if ids[0] in s.batches && Active(s.batches[ids[0]]) then [ids[0]] + ActiveIds(s, ids[1..])
    else ActiveIds(s, ids[1..])
  }

  function TickAll(s: State, ids: seq<Id>, now: int, wall: int, draws: map<Id, Dispatch>): State {
    if ids == [] then s
    else
      var before := TickAll(s, ids[..|ids| - 1], now, wall, draws);
      var id := ids[|ids| - 1];
      if id in before.batches then TickBatch(before, id, now, wall, draws) else before
  }

  // ---------------------------------------------------------------- commands

  predicate SeedValid(s: State, runId: Id, run: RunRecord, source: Source) {
    && source.context.published && source.latestRun == Some(runId) && !source.scheduleEnabled
    && source.activeOperation == None && source.context.pendingVersion == None && !HasActiveRun(s, run.collectorId)
    && run.stop == RateLimited && run.status == RunFailed && run.verified
    && Some(run.ruleVersion) == source.context.activeRule && run.ruleVersion in s.rules
    && source.context.policy.Some?
    && var policy := source.context.policy.value;
       && run.policyVersion == policy.id && policy.observed
       && ValidProgress(source.progress, run.ruleDigest, policy.id)
       && source.progress == run.progressAfter && source.progress == run.progressBefore
       && run.checkpointAfter == None && run.items == 0 && policy.maxPages <= LIST_PAGE_LIMIT && policy.maxItems <= ITEM_LIMIT
  }

  function NewBatch(s: State, runId: Id, batchId: Id, run: RunRecord, source: Source, now: int): Batch
    requires source.progress.Some?
  {
    Cool(Batch(batchId, run.collectorId, runId, CoolingDown, SourceRateLimited, now + LIFETIME, None, None, None,
               MAX_ATTEMPTS, [], None, 0, MAX_REQUESTS, HostsOf(s, source), source.context, source.progress, source.checkpoint,
               run.ruleVersion, run.ruleDigest, run.policyVersion, if source.progress.value.windowStart.Some? then source.progress.value.windowStart.value else 0, false),
         run, now)
  }

  function StartBatch(s: State, runId: Id, batchId: Id, proof: Option<string>, now: int, wall: int): Result<State, string> {
    if ForRun(s, runId).Some? then Err("RECOVERY_ALREADY_EXISTS")
    else if runId !in s.runs then Err("RUN_NOT_FOUND")
    else
      var run := s.runs[runId];
      if !Available(s, run.collectorId) then Err("COLLECTOR_NOT_FOUND")
      else
        var source := s.sources[run.collectorId];
        if source.context.archived then Err("COLLECTOR_ARCHIVED")
        else if !SeedValid(s, runId, run, source) || proof != Some(run.ruleDigest) then Err("RECOVERY_SEED_INVALID")
        else if !HostsFree(s, source, None, wall) then Err("SOURCE_RECOVERY_ACTIVE")
        else if exists c :: c in s.busy && c in s.sources && HostsOf(s, s.sources[c]) * HostsOf(s, source) != {} then
          Err("SOURCE_RECOVERY_ACTIVE")
        else if batchId in s.batches then Err("IDENTIFIER_IN_USE")
        else Ok(Save(s, NewBatch(s, runId, batchId, run, source, now)).(order := s.order + [batchId]))
  }

  // An idle batch is cancelled at once; a batch with an attempt under way waits for it to end.
  function StopRequested(b: Batch, now: int): Batch {
    if b.activeRun.None? then Stop(b.(cancelRequested := true), CancelRequested, now, Cancelled)
    else b.(cancelRequested := true, status := Cancelling, reason := CancelRequested, nextAttemptAt := None)
  }

  function StopBatch(s: State, batchId: Id, now: int): Result<State, string> {
    if batchId !in s.batches then Err("RECOVERY_NOT_FOUND")
    else
      var b := s.batches[batchId];
      if !Active(b) then Ok(s)
      else if b.activeRun.None? then Ok(Save(s, StopRequested(b, now)))
      else if b.activeRun.value !in s.runs then Err("RUN_RECORD_MISSING")
      else Ok(Save(CancelOperation(s, s.runs[b.activeRun.value].operationId, false), StopRequested(b, now)))
  }

  // ---------------------------------------------------------------- the machine

  // What may happen outside this module: runs progress and end, sources are edited, other work is
  // created.  Nothing else writes recovery batches or tags a run with one, published rule versions
  // and stored operations stay, and an ended run keeps its finish and its requested wait.
  predicate WorldOk(s: State, t: State) {
    && t.batches == s.batches && t.order == s.order
    && (forall r :: r in s.rules ==> r in t.rules && t.rules[r] == s.rules[r])
    && (forall r :: r in s.runs ==> r in t.runs && t.runs[r].batchId == s.runs[r].batchId)
    && (forall r :: r in t.runs && r !in s.runs ==> t.runs[r].batchId == None)
    && (forall r :: r in s.runs && !Unfinished(s.runs[r]) ==>
          && !Unfinished(t.runs[r])
          && t.runs[r].finishedAt == s.runs[r].finishedAt && t.runs[r].retryAfter == s.runs[r].retryAfter)
  }

  function Step(s: State, e: Event): State {
    match e
    case Start(runId, batchId, proof, now, wall) =>
      (match StartBatch(s, runId, batchId, proof, now, wall) case Ok(t) => t case Err(_) => s)
    case RequestStop(batchId, now) =>
      (match StopBatch(s, batchId, now) case Ok(t) => t case Err(_) => s)
    case Tick(now, wall, draws) => TickAll(s, ActiveIds(s, s.order), now, wall, draws)
    case World(next) => if WorldOk(s, next) then next else s
  }

  function Exec(s: State, es: seq<Event>): State {
    if es == [] then s else Step(Exec(s, es[..|es| - 1]), es[|es| - 1])
  }

  // Before the first recovery: no batch, and no run that claims to belong to one.
  predicate Initial(s: State) {
    && s.batches == map[] && s.order == []
    && forall r :: r in s.runs ==> s.runs[r].batchId == None
  }
}
