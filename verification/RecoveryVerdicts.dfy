/**
 What a tick, a start and a stop decide, said of the stored fields alone: when a batch recovers, waits,
 starts again or is given up, and what exactly is written in each case.
 */
module RecoveryVerdicts {
  import opened Prelude
  import opened RecoveryModel
  import opened RecoverySafety
  import opened RecoverySteps
  import opened RecoveryTheorems

  // ---------------------------------------------------------------- what is looked at

  predicate InPlace(source: Source, b: Batch) {
    source.context == b.context && !source.scheduleEnabled
  }

  predicate TookUp(b: Batch, run: RunRecord) {
    && run.progressBefore == b.expectedProgress && run.checkpointBefore == b.expectedCheckpoint
    && run.verified && run.ruleVersion == b.ruleVersion && run.policyVersion == b.policyVersion && run.ruleDigest == b.ruleDigest
  }

  predicate CoverageReached(source: Source, b: Batch, run: RunRecord) {
    && run.checkpointAfter.Some? && run.checkpointAfter == source.checkpoint && source.progress.None?
    && run.checkpointAfter.value.kind == "coverage"
    && run.checkpointAfter.value.policyId == b.policyVersion && run.checkpointAfter.value.ruleDigest == b.ruleDigest
  }

  predicate Advanced(source: Source, b: Batch, run: RunRecord) {
    && run.checkpointAfter.None? && run.progressAfter.Some? && run.progressAfter == source.progress && run.progressAfter != b.expectedProgress
    && run.progressAfter.value.ruleDigest == b.ruleDigest && run.progressAfter.value.policyId == b.policyVersion
    && run.progressAfter.value.windowStart == Some(b.windowStart)
    && b.expectedProgress.Some? && b.expectedProgress.value.pageIndex <= run.progressAfter.value.pageIndex
    && run.progressAfter.value.resumeHost in b.hosts
  }

  // The run continued the interrupted window inside its budget and the source stores where it got.
  predicate Continued(source: Source, b: Batch, run: RunRecord) {
    && InPlace(source, b) && TookUp(b, run)
    && (run.status == RunSucceeded || run.status == RunPartial)
    && run.stop in {MaxPages, MaxItems, CheckpointReached, TimeWindowReached}
    && run.listPages <= 3 && run.detailPages <= 50 && run.items <= 50 && run.sourceRequests <= 120
    && (CoverageReached(source, b, run) || Advanced(source, b, run))
  }

  // The run met the rate limit again and left nothing behind.
  predicate MetLimit(source: Source, b: Batch, run: RunRecord) {
    && InPlace(source, b) && TookUp(b, run) && run.stop == RateLimited
    && run.items == 0 && run.checkpointAfter.None? && run.progressAfter == b.expectedProgress && source.progress == b.expectedProgress
  }

  // Thirty minutes, two hours or six hours after the run ended, or as long as the server asked.
  function NextStart(attempts: nat, run: RunRecord, now: int): int {
    var ended := if run.finishedAt.Some? then run.finishedAt.value else now;
    var delay := if attempts == 0 then 1800 else if attempts == 1 then 7200 else 21600;
    if run.retryAfter > delay then ended + run.retryAfter else ended + delay
  }

  // A further attempt is within quota and deadline.
  predicate MayRepeat(b: Batch, run: RunRecord, now: int) {
    |b.attempts| < 3 && NextStart(|b.attempts|, run, now) < b.expiresAt
  }

  // ---------------------------------------------------------------- a run has ended

  predicate Judged(s: State, b: Batch) {
    && b.id in s.batches && s.batches[b.id] == b && b.collectorId in s.sources && !s.sources[b.collectorId].deleted
    && b.status == Running && !b.cancelRequested && BatchOk(b)
    && b.activeRun.Some? && b.activeRun.value in s.runs && s.runs[b.activeRun.value].status !in {RunQueued, RunRunning, RunFinalizing}
  }

  predicate GivenUp(b: Batch, c: Batch, now: int) {
    c.status == NeedsAttention && c.finishedAt == Some(now) && c.nextAttemptAt == None && c.activeRun == None && c.attempts == b.attempts
  }

  // Why a batch whose run has ended is given up: the first of these that holds.
  function FirstFault(source: Source, b: Batch, run: RunRecord): Reason {
    if !InPlace(source, b) || !TookUp(b, run) then ContextChanged
    else if run.stop == RateLimited then ProgressChanged
    else RunNotRecoverable
  }

  function QuotaFault(b: Batch): Reason {
    if |b.attempts| >= 3 then AttemptLimit else ServerWaitExceedsDeadline
  }

  lemma JudgeMeans(source: Source, b: Batch, run: RunRecord)
    requires b.status == Running
    ensures Judge(source, b, run) == Finish(ContinuationVerified, Recovered) <==> Continued(source, b, run)
    ensures Judge(source, b, run) == BackOff <==> MetLimit(source, b, run)
    ensures Judge(source, b, run).Finish? && Judge(source, b, run).status != Recovered ==>
              Judge(source, b, run) == Finish(FirstFault(source, b, run), NeedsAttention)
    ensures Judge(source, b, run).Finish? && Judge(source, b, run).status == Recovered ==> Judge(source, b, run).reason == ContinuationVerified
  {
  }

  lemma CoolMeans(b: Batch, run: RunRecord, now: int)
    requires b.maxAttempts == 3
    ensures Due(b, run, now) == NextStart(|b.attempts|, run, now)
    ensures var due, c := NextStart(|b.attempts|, run, now), Cool(b, run, now);
            if MayRepeat(b, run, now)
            then c == b.(notBefore := Some(due), nextAttemptAt := Some(due), status := CoolingDown, reason := SourceRateLimited)
            else c == b.(notBefore := Some(due), nextAttemptAt := None, status := NeedsAttention, finishedAt := Some(now),
                         reason := QuotaFault(b))
  {
  }

  lemma SettleMeans(source: Source, b: Batch, run: RunRecord, now: int)
    requires b.status == Running && BatchOk(b)
    ensures var c, due := Settle(source, b, run, now), NextStart(|b.attempts|, run, now);
            && (c.status == Recovered <==> Continued(source, b, run))
            && (c.status == Recovered ==>
                  c == b.(status := Recovered, reason := ContinuationVerified, activeRun := None, notBefore := None, nextAttemptAt := None, finishedAt := Some(now)))
            && (c.status == CoolingDown <==> MetLimit(source, b, run) && MayRepeat(b, run, now))
            && (c.status == CoolingDown ==>
                  c == b.(status := CoolingDown, reason := SourceRateLimited, activeRun := None, notBefore := Some(due), nextAttemptAt := Some(due)))
            && (c.status != Recovered && c.status != CoolingDown ==>
                  GivenUp(b, c, now) && c.reason == if MetLimit(source, b, run) then QuotaFault(b) else FirstFault(source, b, run))
            && (c.status == Recovered ==> c.status != CoolingDown)
  {
    hide Continued, MetLimit, Judge, MayRepeat, FirstFault;
    JudgeMeans(source, b, run);
    CoolMeans(b.(activeRun := None), run, now);
    assert MayRepeat(b, run, now) == MayRepeat(b.(activeRun := None), run, now) by { QuotaOnly(b, run, now); }
  }

  lemma QuotaOnly(b: Batch, run: RunRecord, now: int)
    ensures MayRepeat(b, run, now) == MayRepeat(b.(activeRun := None), run, now)
  {
  }

  // ---------------------------------------------------------------- the tick of one batch

  // What `create_run_operation` accepts.
  predicate Admissible(s: State, b: Batch, d: Dispatch, wall: int) {
    && b.collectorId in s.sources
    && var source := s.sources[b.collectorId];
       && !source.deleted && !source.context.archived && source.context.pendingVersion.None? && source.context.published
       && source.context.activeRule.Some? && source.context.policy.Some? && d.proof.Some?
       && (forall r :: r in s.runs && s.runs[r].collectorId == b.collectorId ==> s.runs[r].status !in {RunQueued, RunRunning, RunFinalizing})
       && (forall o :: o in s.operations && s.operations[o].collectorId == b.collectorId ==> s.operations[o].terminal)
       && b.collectorId !in s.busy && d.runId !in s.runs && d.operationId !in s.operations
       && (forall id :: id in s.batches && id != b.id
             && (s.batches[id].status in {CoolingDown, Running, Cancelling} || (s.batches[id].notBefore.Some? && wall < s.batches[id].notBefore.value))
             ==> s.batches[id].hosts !! HostsOf(s, source))
  }

  lemma AdmissionMeans(s: State, b: Batch, d: Dispatch, wall: int)
    ensures DispatchAccepted(s, b, d, wall) <==> Admissible(s, b, d, wall)
  {
    hide HostsOf, ContextHosts;
  }

  // Saving the batch itself changes nothing an admission looks at.
  lemma AdmissionStays(s: State, b: Batch, c: Batch, d: Dispatch, wall: int)
    requires c.id == b.id && c.collectorId == b.collectorId
    ensures Admissible(Save(s, c), c, d, wall) <==> Admissible(s, b, d, wall)
  {
    var t := Save(s, c);
    forall source: Source ensures HostsOf(t, source) == HostsOf(s, source) {}
    hide HostsOf, ContextHosts;
    assert forall id :: id != b.id ==> (id in t.batches <==> id in s.batches) && (id in s.batches ==> t.batches[id] == s.batches[id]);
    assert b.collectorId in s.sources ==> HostsOf(t, t.sources[b.collectorId]) == HostsOf(s, s.sources[b.collectorId]);
  }

  // The hosts of a source are its own and those its active rule allows, when they have a name.
  lemma HostsMean(s: State, source: Source, h: Host)
    ensures h in HostsOf(s, source) <==>
              && h.name != ""
              && (h == source.context.urlHost
                  || (source.context.activeRule.Some? && source.context.activeRule.value in s.rules && h in s.rules[source.context.activeRule.value]))
  {
  }

  // A cooling batch is given up at the deadline or when its source has moved, waits until its time has
  // come, and is then dispatched or given up.
  predicate StillCooling(source: Source, b: Batch, now: int) {
    && now < b.expiresAt && InPlace(source, b) && source.progress == b.expectedProgress && source.checkpoint == b.expectedCheckpoint
  }

  // The first of these that holds is why a batch that was due or moved is given up.
  function HaltReason(source: Source, b: Batch, now: int): Reason {
    if now >= b.expiresAt then DeadlineReached
    else if !InPlace(source, b) then ContextChanged
    else if source.progress != b.expectedProgress || source.checkpoint != b.expectedCheckpoint then ProgressChanged
    else DispatchRejected
  }

  function Attempted(b: Batch, d: Dispatch): Batch {
    b.(status := Running, reason := ContinuationRunning, activeRun := Some(d.runId), attempts := b.attempts + [d.runId],
       reservedRequests := b.reservedRequests + 120, nextAttemptAt := None)
  }

  predicate Coolable(s: State, b: Batch) {
    b.collectorId in s.sources && b.id in s.batches && s.batches[b.id] == b && b.status == CoolingDown && BatchOk(b)
  }

  lemma MoveMeans(s: State, b: Batch, now: int, wall: int, draws: map<Id, Dispatch>)
    requires Coolable(s, b)
    ensures var source, due, move := s.sources[b.collectorId], b.nextAttemptAt.value, NextMove(s, b, now, wall, draws);
            && (move == Wait <==> StillCooling(source, b, now) && now < due)
            && (move.Launch? <==> StillCooling(source, b, now) && due <= now && b.id in draws && Admissible(s, b, draws[b.id], wall))
            && (move.Launch? ==> move.draw == draws[b.id])
            && (move.Halt? ==> move.reason == HaltReason(source, b, now))
            && !move.Leave?
  {
    hide DispatchAccepted, Admissible;
    if b.id in draws { AdmissionMeans(s, b, draws[b.id], wall); }
  }

  lemma AdvanceMeans(s: State, b: Batch, now: int, wall: int, draws: map<Id, Dispatch>)
    requires Coolable(s, b)
    ensures var source, due, t := s.sources[b.collectorId], b.nextAttemptAt.value, Advance(s, b, now, wall, draws);
            && b.id in t.batches
            && var c := t.batches[b.id];
               if StillCooling(source, b, now) && now < due then c == b
               else if StillCooling(source, b, now) && b.id in draws && Admissible(s, b, draws[b.id], wall) then c == Attempted(b, draws[b.id])
               else c == b.(status := NeedsAttention, nextAttemptAt := None, finishedAt := Some(now),
                            reason := HaltReason(source, b, now))
  {
    hide NextMove, DispatchAccepted, Admissible, StillCooling, HaltReason;
    MoveMeans(s, b, now, wall, draws);
    MoveCases(s, b, now, wall, draws);
  }

  // The tick of a cooling batch.
  lemma CoolingTick(s: State, b: Batch, now: int, wall: int, draws: map<Id, Dispatch>)
    requires Coolable(s, b) && !s.sources[b.collectorId].deleted
    ensures TickBatch(s, b.id, now, wall, draws) == Advance(s, b, now, wall, draws)
  {
    hide Advance;
  }

  function EndReason(source: Source, b: Batch, run: RunRecord, now: int): Reason {
    if !MetLimit(source, b, run) then FirstFault(source, b, run)
    else if !MayRepeat(b, run, now) then QuotaFault(b)
    else HaltReason(source, b, now)
  }

  // The tick of a running batch whose run has ended: it recovers, waits, starts again, or is given up.
  lemma EndedTick(s: State, b: Batch, now: int, wall: int, draws: map<Id, Dispatch>)
    requires Judged(s, b)
    ensures var source, run, t := s.sources[b.collectorId], s.runs[b.activeRun.value], TickBatch(s, b.id, now, wall, draws);
            var due := NextStart(|b.attempts|, run, now);
            var again := MetLimit(source, b, run) && MayRepeat(b, run, now) && StillCooling(source, b, now);
            var cooled := b.(status := CoolingDown, reason := SourceRateLimited, activeRun := None, notBefore := Some(due), nextAttemptAt := Some(due));
            && b.id in t.batches
            && var c := t.batches[b.id];
               if Continued(source, b, run) then
                 c == b.(status := Recovered, reason := ContinuationVerified, activeRun := None, notBefore := None, nextAttemptAt := None, finishedAt := Some(now))
               else if again && now < due then c == cooled
               else if again && b.id in draws && Admissible(s, b, draws[b.id], wall) then c == Attempted(cooled, draws[b.id])
               else GivenUp(b, c, now) && c.reason == EndReason(source, b, run, now)
  {
    hide FirstFault, HaltReason, QuotaFault, Advance, Settle, Continued, MetLimit, MayRepeat, Admissible, StillCooling, NextStart;
    var source, run := s.sources[b.collectorId], s.runs[b.activeRun.value];
    var settled := Settle(source, b, run, now);
    SettleMeans(source, b, run, now);
    SettleIdentity(source, b, run, now);
    var mid := Save(s, settled);
    assert TickBatch(s, b.id, now, wall, draws) == Advance(mid, settled, now, wall, draws);
    if settled.status == CoolingDown {
      LimitIsNoSuccess(source, b, run);
      assert BatchOk(settled) by { CooledIsOk(b, settled, run, now); }
      CoolingSame(source, b, settled, now);
      AdvanceMeans(mid, settled, now, wall, draws);
      if b.id in draws { AdmissionStays(s, b, settled, draws[b.id], wall); }
    } else {
      MoveCases(mid, settled, now, wall, draws);
      AdvanceLeaves(mid, settled, now, wall, draws);
    }
  }

  lemma LimitIsNoSuccess(source: Source, b: Batch, run: RunRecord)
    ensures MetLimit(source, b, run) ==> !Continued(source, b, run)
  {
  }

  lemma CooledIsOk(b: Batch, c: Batch, run: RunRecord, now: int)
    requires BatchOk(b) && b.status == Running && MayRepeat(b, run, now)
    requires c == b.(status := CoolingDown, reason := SourceRateLimited, activeRun := None,
                     notBefore := Some(NextStart(|b.attempts|, run, now)), nextAttemptAt := Some(NextStart(|b.attempts|, run, now)))
    ensures BatchOk(c)
  {
  }

  lemma CoolingSame(source: Source, b: Batch, c: Batch, now: int)
    requires SameIdentity(b, c)
    ensures StillCooling(source, c, now) <==> StillCooling(source, b, now)
    ensures HaltReason(source, c, now) == HaltReason(source, b, now)
  {
  }

  lemma AdvanceLeaves(s: State, b: Batch, now: int, wall: int, draws: map<Id, Dispatch>)
    requires b.collectorId in s.sources && b.status != CoolingDown
    ensures Advance(s, b, now, wall, draws) == s
  {
  }

  // ---------------------------------------------------------------- the whole tick

  predicate SameLook(a: Source, b: Source) {
    b.context == a.context && b.deleted == a.deleted && b.scheduleEnabled == a.scheduleEnabled && b.progress == a.progress && b.checkpoint == a.checkpoint
  }

  lemma LookAlike(a: Source, z: Source, b: Batch, run: RunRecord, now: int)
    requires SameLook(a, z)
    ensures Continued(a, b, run) <==> Continued(z, b, run)
    ensures MetLimit(a, b, run) <==> MetLimit(z, b, run)
    ensures StillCooling(a, b, now) <==> StillCooling(z, b, now)
    ensures EndReason(a, b, run, now) == EndReason(z, b, run, now)
  {
  }

  lemma KeptLooks(s: State, mid: State, c: Id)
    requires Kept(s, mid) && c in s.sources
    ensures c in mid.sources && SameLook(s.sources[c], mid.sources[c])
  {
  }

  lemma KeptRuns(s: State, mid: State, r: Id)
    requires Kept(s, mid) && r in s.runs
    ensures r in mid.runs && mid.runs[r] == s.runs[r]
  {
  }

  // Exactly when a running batch recovers, waits, starts again or is given up, over a tick of all
  // batches.  `mid` is the store when the batch has its turn; it differs in other batches' doings only.
  lemma TickVerdict(s: State, now: int, wall: int, draws: map<Id, Dispatch>, id: Id) returns (mid: State)
    requires Inv(s) && id in s.batches && Judged(s, s.batches[id])
    ensures var b, t := s.batches[id], Step(s, Tick(now, wall, draws));
            var source, run, due := s.sources[b.collectorId], s.runs[b.activeRun.value], NextStart(|b.attempts|, s.runs[b.activeRun.value], now);
            var again := MetLimit(source, b, run) && MayRepeat(b, run, now) && StillCooling(source, b, now);
            && id in t.batches
            && var c := t.batches[id];
               && (c.status == Recovered <==> Continued(source, b, run))
               && (c.status == CoolingDown <==> again && now < due && !Continued(source, b, run))
               && (c.status == Running <==> again && due <= now && id in draws && Admissible(mid, b, draws[id], wall) && !Continued(source, b, run))
               && (c.status == Running ==> c.attempts == b.attempts + [draws[id].runId])
               && (c.status !in {Recovered, CoolingDown, Running} ==> GivenUp(b, c, now) && c.reason == EndReason(source, b, run, now))
               && (c.status == CoolingDown ==> c.nextAttemptAt == Some(due))
  {
    hide Inv, Step, Outcome, Kept, TickBatch, Continued, MetLimit, MayRepeat, StillCooling, Admissible, NextStart, EndReason;
    hide BatchOk, BatchLinked, BatchTimed;
    var b := s.batches[id];
    mid := TickIsLawful(s, now, wall, draws, id);
    SoundBatch(s, id);
    KeptLooks(s, mid, b.collectorId);
    KeptRuns(s, mid, b.activeRun.value);
    LookAlike(s.sources[b.collectorId], mid.sources[b.collectorId], b, s.runs[b.activeRun.value], now);
    EndedTick(mid, b, now, wall, draws);
  }

  // The same of a batch that is cooling down.
  lemma CoolingVerdict(s: State, now: int, wall: int, draws: map<Id, Dispatch>, id: Id) returns (mid: State)
    requires Inv(s) && id in s.batches && s.batches[id].status == CoolingDown
    requires s.batches[id].collectorId in s.sources && !s.sources[s.batches[id].collectorId].deleted
    ensures var b, t := s.batches[id], Step(s, Tick(now, wall, draws));
            var source := s.sources[b.collectorId];
            && id in t.batches && b.nextAttemptAt.Some?
            && var c, due := t.batches[id], b.nextAttemptAt.value;
               if StillCooling(source, b, now) && now < due then c == b
               else if StillCooling(source, b, now) && id in draws && Admissible(mid, b, draws[id], wall) then c == Attempted(b, draws[id])
               else c == b.(status := NeedsAttention, nextAttemptAt := None, finishedAt := Some(now), reason := HaltReason(source, b, now))
  {
    hide Inv, Step, Outcome, Kept, TickBatch, StillCooling, Admissible, HaltReason, BatchLinked, BatchTimed, Advance, DispatchAccepted;
    var b := s.batches[id];
    mid := TickIsLawful(s, now, wall, draws, id);
    SoundBatch(s, id);
    KeptLooks(s, mid, b.collectorId);
    AnyRunLook(s.sources[b.collectorId], mid.sources[b.collectorId], b, now);
    CoolingTick(mid, b, now, wall, draws);
    AdvanceMeans(mid, b, now, wall, draws);
  }

  lemma AnyRunLook(a: Source, z: Source, b: Batch, now: int)
    requires SameLook(a, z)
    ensures StillCooling(a, b, now) <==> StillCooling(z, b, now)
    ensures HaltReason(a, b, now) == HaltReason(z, b, now)
  {
  }

  // A batch told to stop ends with its run; a run still under way is told to stop once the deadline has
  // come or a stop was requested; a batch whose source is gone is given up.
  predicate OtherwiseTicked(s: State, b: Batch, c: Batch, t: State, now: int) {
    if b.collectorId !in s.sources || s.sources[b.collectorId].deleted then
      c == b.(status := NeedsAttention, reason := SourceUnavailable, nextAttemptAt := None, finishedAt := Some(now))
    else if b.activeRun.None? || b.activeRun.value !in s.runs then true
    else if s.runs[b.activeRun.value].status in {RunQueued, RunRunning, RunFinalizing} then
      if now >= b.expiresAt || b.cancelRequested then
        && c == b.(status := Cancelling, reason := if b.cancelRequested then CancelRequested else DeadlineReached)
        && var o := s.runs[b.activeRun.value].operationId; o in s.operations ==> o in t.operations && t.operations[o].cancelRequested
      else c == b
    else if b.status == Cancelling then
      c == b.(status := if b.cancelRequested then Cancelled else NeedsAttention, activeRun := None, nextAttemptAt := None, finishedAt := Some(now))
    else true
  }

  lemma OtherwiseMeans(s: State, b: Batch, now: int, wall: int, draws: map<Id, Dispatch>)
    requires b.id in s.batches && s.batches[b.id] == b && BatchOk(b) && Active(b)
    ensures var t := TickBatch(s, b.id, now, wall, draws); b.id in t.batches && OtherwiseTicked(s, b, t.batches[b.id], t, now)
  {
    hide Advance, NextMove, BatchOk;
    if Available(s, b.collectorId) {
      if b.activeRun.None? {
        AdvanceFrame(s, b, now, wall, draws);
      } else if b.activeRun.value in s.runs && !Unfinished(s.runs[b.activeRun.value]) {
        var settled := Settle(s.sources[b.collectorId], b, s.runs[b.activeRun.value], now);
        SettleIdentity(s.sources[b.collectorId], b, s.runs[b.activeRun.value], now);
        AdvanceFrame(Save(s, settled), settled, now, wall, draws);
        if b.status == Cancelling { AdvanceLeaves(Save(s, settled), settled, now, wall, draws); }
      }
    }
  }

  predicate Queues(b: Batch, context: Context, d: Dispatch, r: RunRecord) {
    && r.batchId == Some(b.id) && r.collectorId == b.collectorId && r.operationId == d.operationId && r.status == RunQueued
    && context.activeRule == Some(r.ruleVersion) && context.policy.Some? && context.policy.value.id == r.policyVersion
    && d.proof == Some(r.ruleDigest) && r.verified && r.checkpointAfter.None? && r.progressAfter.None? && r.items == 0
  }

  // What a dispatch writes: one queued run of the batch under the active rule and policy, one open
  // operation that its source points at, and a place in the queue.
  lemma LaunchWrites(s: State, b: Batch, now: int, wall: int, draws: map<Id, Dispatch>)
    requires Coolable(s, b) && NextMove(s, b, now, wall, draws).Launch?
    ensures var d, t, source := draws[b.id], Advance(s, b, now, wall, draws), s.sources[b.collectorId];
            && b.id in draws && source.context.activeRule.Some? && source.context.policy.Some? && d.runId in t.runs
            && t.runs == s.runs[d.runId := t.runs[d.runId]] && Queues(b, source.context, d, t.runs[d.runId])
            && t.operations == s.operations[d.operationId := Operation(b.collectorId, false, false)]
            && t.sources == s.sources[b.collectorId := source.(activeOperation := Some(d.operationId))] && t.busy == s.busy + {b.collectorId}
  {
    hide HasActiveRun, HasOpenOperation, HostsFree;
    MoveCases(s, b, now, wall, draws);
  }

  // Where it begins: at the saved progress when that is of the proved digest and of an observing policy, with
  // the checkpoint when that fits them; its window is that of the progress, or is counted back from the
  // checkpoint, or from today.
  lemma LaunchBegins(b: Batch, source: Source, d: Dispatch)
    requires source.context.activeRule.Some? && source.context.policy.Some? && d.proof.Some?
    ensures var policy, digest, run := source.context.policy.value, d.proof.value, NewRun(b, source, d);
            var saved := policy.observed && source.progress.Some? && source.progress.value.ruleDigest == digest
                         && source.progress.value.policyId == policy.id && source.progress.value.windowStart.Some?;
            var fits := source.checkpoint.Some? && source.checkpoint.value.policyId == policy.id
                        && (policy.observed ==> source.checkpoint.value.ruleDigest == digest);
            && run.progressBefore == (if saved then source.progress else None)
            && run.checkpointBefore == (if fits then source.checkpoint else None)
            && (saved ==> Some(run.windowStart) == source.progress.value.windowStart)
            && (!saved && fits ==> run.windowStart + policy.lookbackDays == source.checkpoint.value.watermark)
            && (!saved && !fits ==> run.windowStart + policy.initialWindowDays == d.today)
  {
  }

  // Even of a damaged record no dispatch exceeds the stored quotas.
  lemma QuotaGuards(s: State, b: Batch, now: int, wall: int, draws: map<Id, Dispatch>)
    requires b.collectorId in s.sources && NextMove(s, b, now, wall, draws).Launch?
    ensures |b.attempts| < b.maxAttempts && b.reservedRequests + 120 <= b.maxRequests
  {
    hide DispatchAccepted, ContextMoved;
  }

  // ---------------------------------------------------------------- the commands

  // The latest run of a published, unscheduled, idle source that met the rate limit with saved progress
  // under the active rule and policy and left nothing else.
  predicate Seeds(s: State, runId: Id) {
    && runId in s.runs && s.runs[runId].collectorId in s.sources
    && var run, source := s.runs[runId], s.sources[s.runs[runId].collectorId];
       && !source.deleted && !source.context.archived && source.context.published && source.latestRun == Some(runId) && !source.scheduleEnabled
       && source.activeOperation.None? && source.context.pendingVersion.None?
       && (forall r :: r in s.runs && s.runs[r].collectorId == run.collectorId ==> s.runs[r].status !in {RunQueued, RunRunning, RunFinalizing})
       && run.stop == RateLimited && run.status == RunFailed && run.verified && run.checkpointAfter.None? && run.items == 0
       && source.context.activeRule == Some(run.ruleVersion) && run.ruleVersion in s.rules
       && source.context.policy.Some? && source.context.policy.value.id == run.policyVersion && source.context.policy.value.observed
       && source.context.policy.value.maxPages <= 3 && source.context.policy.value.maxItems <= 50
       && source.progress.Some? && source.progress == run.progressAfter == run.progressBefore
       && source.progress.value.ruleDigest == run.ruleDigest && source.progress.value.policyId == run.policyVersion
       && source.progress.value.windowStart.Some?
  }

  // No other batch holds a host of the source, and no queued or running work touches one.
  predicate Alone(s: State, source: Source, wall: int) {
    && (forall id :: id in s.batches
          && (s.batches[id].status in {CoolingDown, Running, Cancelling} || (s.batches[id].notBefore.Some? && wall < s.batches[id].notBefore.value))
          ==> s.batches[id].hosts !! HostsOf(s, source))
    && (forall c :: c in s.busy && c in s.sources ==> HostsOf(s, s.sources[c]) !! HostsOf(s, source))
  }

  predicate Unclaimed(s: State, runId: Id) {
    forall id :: id in s.batches ==> s.batches[id].seedRunId != runId && runId !in s.batches[id].attempts
  }

  // Exactly when a start is accepted.
  lemma StartAccepted(s: State, runId: Id, batchId: Id, proof: Option<string>, now: int, wall: int)
    requires Inv(s)
    ensures StartBatch(s, runId, batchId, proof, now, wall).Ok? <==>
              && Unclaimed(s, runId) && Seeds(s, runId) && proof == Some(s.runs[runId].ruleDigest)
              && Alone(s, s.sources[s.runs[runId].collectorId], wall) && batchId !in s.batches
  {
    hide Inv, ContextHosts, NewBatch, SeedValid, Seeds, HostsFree, HostsOf, Alone;
    ForRunExactly(s, runId);
    if runId in s.runs && s.runs[runId].collectorId in s.sources {
      SeedMeans(s, runId);
      AloneMeans(s, s.sources[s.runs[runId].collectorId], wall);
    } else {
      NoSeed(s, runId);
    }
  }

  lemma NoSeed(s: State, runId: Id)
    requires runId !in s.runs || s.runs[runId].collectorId !in s.sources
    ensures !Seeds(s, runId)
  {
  }

  lemma SeedMeans(s: State, runId: Id)
    requires runId in s.runs && s.runs[runId].collectorId in s.sources
    ensures var run, source := s.runs[runId], s.sources[s.runs[runId].collectorId];
            Seeds(s, runId) <==> Available(s, run.collectorId) && !source.context.archived && SeedValid(s, runId, run, source)
  {
  }

  lemma AloneMeans(s: State, source: Source, wall: int)
    ensures Alone(s, source, wall) <==>
              HostsFree(s, source, None, wall) && !(exists c :: c in s.busy && c in s.sources && HostsOf(s, s.sources[c]) * HostsOf(s, source) != {})
  {
    hide HostsOf;
    forall c | c in s.busy && c in s.sources
      ensures HostsOf(s, s.sources[c]) * HostsOf(s, source) == {} <==> HostsOf(s, s.sources[c]) !! HostsOf(s, source)
    {
      Apart(HostsOf(s, s.sources[c]), HostsOf(s, source));
    }
  }

  lemma Apart(a: set<Host>, b: set<Host>)
    ensures a * b == {} <==> a !! b
  {
    if a * b == {} {
      forall h | h in a ensures h !in b { assert h in b ==> h in a * b; }
    }
  }

  // The lookup finds a batch exactly when one owns the run or was seeded by it.
  lemma ForRunExactly(s: State, runId: Id)
    requires Inv(s)
    ensures ForRun(s, runId).None? <==> Unclaimed(s, runId)
  {
    assert RunsOwned(s.batches, s.runs);
    hide Inv, BatchOk, BatchTimed;
    forall id | id in s.batches ensures BatchLinked(s.runs, s.batches[id]) { SoundBatch(s, id); }
    SeededFound(s, runId, s.order);
    if runId in s.runs {
      if ForRun(s, runId).None? { ForRunSeesAll(s, runId); }
    }
  }

  lemma {:induction false} SeededFound(s: State, runId: Id, ids: seq<Id>)
    ensures SeededBy(s, runId, ids).Some? ==>
              SeededBy(s, runId, ids).value in s.batches && s.batches[SeededBy(s, runId, ids).value].seedRunId == runId
  {
    if ids != [] { SeededFound(s, runId, ids[1..]); }
  }

  // Which answer a refused start gets, by the first check that fails.
  lemma StartAnswers(s: State, runId: Id, batchId: Id, proof: Option<string>, now: int, wall: int)
    requires Inv(s)
    ensures var r, found := StartBatch(s, runId, batchId, proof, now, wall), runId in s.runs;
            var stored := found && s.runs[runId].collectorId in s.sources && !s.sources[s.runs[runId].collectorId].deleted;
            var open := stored && !s.sources[s.runs[runId].collectorId].context.archived;
            var sound := open && Seeds(s, runId) && proof == Some(s.runs[runId].ruleDigest);
            && (!Unclaimed(s, runId) ==> r == Err("RECOVERY_ALREADY_EXISTS"))
            && (Unclaimed(s, runId) && !found ==> r == Err("RUN_NOT_FOUND"))
            && (Unclaimed(s, runId) && found && !stored ==> r == Err("COLLECTOR_NOT_FOUND"))
            && (Unclaimed(s, runId) && stored && !open ==> r == Err("COLLECTOR_ARCHIVED"))
            && (Unclaimed(s, runId) && open && !sound ==> r == Err("RECOVERY_SEED_INVALID"))
            && (Unclaimed(s, runId) && sound && !Alone(s, s.sources[s.runs[runId].collectorId], wall) ==> r == Err("SOURCE_RECOVERY_ACTIVE"))
  {
    hide Inv, ContextHosts, NewBatch, SeedValid, Seeds, HostsFree, HostsOf, Alone, Unclaimed, ForRun;
    ForRunExactly(s, runId);
    if runId in s.runs && s.runs[runId].collectorId in s.sources {
      SeedMeans(s, runId);
      AloneMeans(s, s.sources[s.runs[runId].collectorId], wall);
    }
  }

  // What a start stores: a day to live, three attempts and 360 requests, everything the source stood for,
  // and the first wait, or no wait at all when it would outlast the day.
  lemma StartWrites(s: State, runId: Id, batchId: Id, proof: Option<string>, now: int, wall: int)
    requires Inv(s) && StartBatch(s, runId, batchId, proof, now, wall).Ok?
    ensures var t := StartBatch(s, runId, batchId, proof, now, wall).value;
            && runId in s.runs && s.runs[runId].collectorId in s.sources && batchId in t.batches
            && var run, source, c := s.runs[runId], s.sources[s.runs[runId].collectorId], t.batches[batchId];
               var due := NextStart(0, run, now);
               && t == s.(batches := s.batches[batchId := c], order := s.order + [batchId])
               && c.id == batchId && c.collectorId == run.collectorId && c.seedRunId == runId && c.expiresAt == now + 86400
               && c.maxAttempts == 3 && c.attempts == [] && c.activeRun.None? && c.reservedRequests == 0 && c.maxRequests == 360
               && c.hosts == HostsOf(s, source) && c.context == source.context && c.notBefore == Some(due) && !c.cancelRequested
               && c.expectedProgress == source.progress && c.expectedCheckpoint == source.checkpoint
               && c.ruleVersion == run.ruleVersion && c.ruleDigest == run.ruleDigest && c.policyVersion == run.policyVersion
               && source.progress.Some? && Some(c.windowStart) == source.progress.value.windowStart
               && if due < c.expiresAt then c.status == CoolingDown && c.reason == SourceRateLimited && c.nextAttemptAt == Some(due)
                  else c.status == NeedsAttention && c.reason == ServerWaitExceedsDeadline && c.finishedAt == Some(now)
  {
    hide Inv, HostsFree, ContextHosts, HasActiveRun;
    StartFacts(s, runId, batchId, proof, now, wall);
  }

  // The operation of a run is told to stop unless it has ended.
  predicate ToldToStop(before: map<Id, Operation>, after: map<Id, Operation>, o: Id) {
    after == if o in before && !before[o].terminal then before[o := before[o].(cancelRequested := true)] else before
  }

  lemma CancelMeans(s: State, o: Id)
    ensures var t := CancelOperation(s, o, false); ToldToStop(s.operations, t.operations, o) && t == s.(operations := t.operations)
  {
  }

  // A stop request is refused for an unknown batch only; an ended batch stays as it is, an idle one ends
  // at once, and one with a run under way waits for it with the run's operation told to stop.
  lemma StopWrites(s: State, batchId: Id, now: int)
    requires Inv(s)
    ensures batchId !in s.batches ==> StopBatch(s, batchId, now) == Err("RECOVERY_NOT_FOUND")
    ensures batchId in s.batches ==> StopBatch(s, batchId, now).Ok?
    ensures batchId in s.batches ==>
              var b, t := s.batches[batchId], StopBatch(s, batchId, now).value;
              if b.status in {Recovered, NeedsAttention, Cancelled} then t == s
              else if b.activeRun.None? then
                t == s.(batches := s.batches[batchId := b.(cancelRequested := true, status := Cancelled, reason := CancelRequested,
                                                           nextAttemptAt := None, finishedAt := Some(now))])
              else
                && b.activeRun.value in s.runs && ToldToStop(s.operations, t.operations, s.runs[b.activeRun.value].operationId)
                && t == s.(batches := s.batches[batchId := b.(cancelRequested := true, status := Cancelling, reason := CancelRequested, nextAttemptAt := None)],
                           operations := t.operations)
  {
    hide Inv, BatchTimed, BatchOk, BatchLinked, CancelOperation, ToldToStop, Active, StopRequested;
    if batchId in s.batches {
      SoundBatch(s, batchId);
      var b := s.batches[batchId];
      StopShape(s, b, now);
      if Active(b) && b.activeRun.Some? {
        AttemptStored(s, b);
        CancelMeans(s, s.runs[b.activeRun.value].operationId);
      }
    }
  }

  lemma StopShape(s: State, b: Batch, now: int)
    ensures Active(b) <==> b.status !in {Recovered, NeedsAttention, Cancelled}
    ensures b.activeRun.None? ==> StopRequested(b, now) == b.(cancelRequested := true, status := Cancelled, reason := CancelRequested,
                                                              nextAttemptAt := None, finishedAt := Some(now))
    ensures b.activeRun.Some? ==> StopRequested(b, now) == b.(cancelRequested := true, status := Cancelling, reason := CancelRequested, nextAttemptAt := None)
    ensures StopRequested(b, now).id == b.id
  {
    match b.status
    case CoolingDown =>
    case Running =>
    case Cancelling =>
    case Recovered =>
    case NeedsAttention =>
    case Cancelled =>
  }
}
