/**
 What every reachable state of bounded recovery satisfies: quotas, exclusivity of hosts and
 seeds, and the link between batches and the runs they dispatched.
 */
module RecoverySafety {
  import opened Prelude
  import opened RecoveryModel

  // ---------------------------------------------------------------- the invariant

  predicate BatchOk(b: Batch) {
    && b.maxAttempts == MAX_ATTEMPTS && b.maxRequests == MAX_REQUESTS
    && |b.attempts| <= MAX_ATTEMPTS
    && b.reservedRequests == REQUEST_LIMIT * |b.attempts|
    && (b.status == CoolingDown ==>
          && b.activeRun == None && !b.cancelRequested && |b.attempts| < MAX_ATTEMPTS
          && b.nextAttemptAt.Some? && b.nextAttemptAt.value < b.expiresAt && b.notBefore == b.nextAttemptAt)
    && (b.status in {Running, Cancelling} ==>
          b.attempts != [] && b.activeRun == Some(PreviousRun(b)) && b.nextAttemptAt == None)
    && (b.status == Running ==> !b.cancelRequested)
    && (b.cancelRequested ==> b.status in {Cancelling, Cancelled, NeedsAttention})
    && (!Active(b) ==> b.finishedAt.Some? && b.nextAttemptAt == None)
    && (!Active(b) && b.activeRun.Some? ==>
          b.reason == SourceUnavailable && b.attempts != [] && b.activeRun == Some(PreviousRun(b)))
    && (b.status == Recovered ==> b.attempts != [] && b.notBefore == None)
  }

  // The run whose rate limit the batch is waiting out: the seed, or the latest attempt.
  function PreviousRun(b: Batch): Id {
    if b.attempts == [] then b.seedRunId else b.attempts[|b.attempts| - 1]
  }

  predicate Ended(runs: map<Id, RunRecord>, r: Id) {
    r in runs && !Unfinished(runs[r])
  }

  // The attempts are distinct runs tagged with the batch, and the seed is a run no batch dispatched.
  predicate BatchLinked(runs: map<Id, RunRecord>, b: Batch) {
    && (forall i :: 0 <= i < |b.attempts| ==> b.attempts[i] in runs && runs[b.attempts[i]].batchId == Some(b.id))
    && (forall i, j :: 0 <= i < j < |b.attempts| ==> b.attempts[i] != b.attempts[j])
    && b.seedRunId in runs && runs[b.seedRunId].batchId == None
  }

  // Only the latest attempt can be unfinished, and a cooling batch waits exactly as long as the
  // rate limit of its previous run asks.
  predicate BatchTimed(runs: map<Id, RunRecord>, b: Batch) {
    && (forall i :: 0 <= i < |b.attempts| - 1 ==> Ended(runs, b.attempts[i]))
    && (b.attempts != [] && b.activeRun.None? ==> Ended(runs, PreviousRun(b)))
    && (b.status == CoolingDown ==>
          && Ended(runs, PreviousRun(b))
          && var r := runs[PreviousRun(b)];
             r.finishedAt.Some? ==>
               b.nextAttemptAt == Some(r.finishedAt.value + Max(Delay(|b.attempts|), r.retryAfter)))
  }

  predicate Listed(batches: map<Id, Batch>, order: seq<Id>) {
    && (forall id :: id in batches ==> batches[id].id == id && id in order)
    && (forall id :: id in order ==> id in batches)
    && (forall i, j :: 0 <= i < j < |order| ==> order[i] != order[j])
  }

  predicate BatchesOk(batches: map<Id, Batch>, runs: map<Id, RunRecord>) {
    forall id :: id in batches ==> BatchOk(batches[id]) && BatchLinked(runs, batches[id]) && BatchTimed(runs, batches[id])
  }

  predicate RunsOwned(batches: map<Id, Batch>, runs: map<Id, RunRecord>) {
    forall r :: r in runs && runs[r].batchId.Some? ==>
      runs[r].batchId.value in batches && r in batches[runs[r].batchId.value].attempts
  }

  predicate OneBatchPerSeed(batches: map<Id, Batch>) {
    forall a, b :: a in batches && b in batches && batches[a].seedRunId == batches[b].seedRunId ==> a == b
  }

  predicate HostsApart(batches: map<Id, Batch>) {
    forall a, b :: a in batches && b in batches && a != b && Active(batches[a]) && Active(batches[b])
      ==> batches[a].hosts !! batches[b].hosts
  }

  // The hosts a batch reserved are the hosts its pinned context can contact, for ever.
  predicate HostsPinned(batches: map<Id, Batch>, rules: map<Id, set<Host>>) {
    forall id :: id in batches ==>
      && batches[id].context.activeRule.Some? && batches[id].context.activeRule.value in rules
      && batches[id].hosts == ContextHosts(rules, batches[id].context)
  }

  predicate Inv(s: State) {
    && Listed(s.batches, s.order) && BatchesOk(s.batches, s.runs) && RunsOwned(s.batches, s.runs)
    && OneBatchPerSeed(s.batches) && HostsApart(s.batches) && HostsPinned(s.batches, s.rules)
  }

  // ---------------------------------------------------------------- elementary changes

  // The fields no transition of an existing batch may touch.
  predicate SameIdentity(b: Batch, c: Batch) {
    && c.id == b.id && c.seedRunId == b.seedRunId && c.collectorId == b.collectorId && c.hosts == b.hosts
    && c.expiresAt == b.expiresAt && c.context == b.context
    && c.expectedProgress == b.expectedProgress && c.expectedCheckpoint == b.expectedCheckpoint
    && c.ruleVersion == b.ruleVersion && c.ruleDigest == b.ruleDigest && c.policyVersion == b.policyVersion
    && c.windowStart == b.windowStart
  }

  lemma ReplaceKeepsShape(batches: map<Id, Batch>, order: seq<Id>, rules: map<Id, set<Host>>, b: Batch)
    requires Listed(batches, order) && OneBatchPerSeed(batches) && HostsApart(batches) && HostsPinned(batches, rules)
    requires b.id in batches && SameIdentity(batches[b.id], b) && (Active(b) ==> Active(batches[b.id]))
    ensures var after := batches[b.id := b];
            Listed(after, order) && OneBatchPerSeed(after) && HostsApart(after) && HostsPinned(after, rules)
  {
  }

  lemma SaveKeeps(s: State, b: Batch)
    requires Inv(s) && b.id in s.batches
    requires SameIdentity(s.batches[b.id], b) && b.attempts == s.batches[b.id].attempts
    requires BatchOk(b) && BatchTimed(s.runs, b) && (Active(b) ==> Active(s.batches[b.id]))
    ensures Inv(Save(s, b))
  {
    hide BatchOk, BatchTimed, Listed, OneBatchPerSeed, HostsApart, HostsPinned;
    ReplaceKeepsShape(s.batches, s.order, s.rules, b);
    assert BatchLinked(s.runs, s.batches[b.id]);
  }

  lemma CancelOperationFrame(s: State, o: Id, evenEnded: bool)
    ensures var t := CancelOperation(s, o, evenEnded); t == s.(operations := t.operations)
  {
  }

  // ---------------------------------------------------------------- dispatching

  lemma OtherBatchUnmoved(runs: map<Id, RunRecord>, more: map<Id, RunRecord>, b: Batch)
    requires forall r :: r in runs ==> r in more && more[r] == runs[r]
    requires BatchLinked(runs, b) && BatchTimed(runs, b)
    ensures BatchLinked(more, b) && BatchTimed(more, b)
  {
  }

  lemma LaunchedOk(s: State, b: Batch, d: Dispatch)
    requires BatchOk(b) && BatchLinked(s.runs, b) && BatchTimed(s.runs, b) && b.status == CoolingDown
    requires d.runId !in s.runs && b.collectorId in s.sources
    requires var c := s.sources[b.collectorId].context; c.activeRule.Some? && c.policy.Some? && d.proof.Some?
    ensures var t := CreateRun(s, b, d);
            var c := Launched(b, d);
            BatchOk(c) && BatchLinked(t.runs, c) && BatchTimed(t.runs, c)
  {
    var t := CreateRun(s, b, d);
    var c := Launched(b, d);
    assert forall i :: 0 <= i < |b.attempts| ==> c.attempts[i] == b.attempts[i];
    forall i | 0 <= i < |c.attempts| - 1 ensures Ended(t.runs, c.attempts[i]) {
      if i == |b.attempts| - 1 { assert c.attempts[i] == PreviousRun(b); }
    }
  }

  lemma LaunchBatchesOk(s: State, b: Batch, d: Dispatch)
    requires BatchesOk(s.batches, s.runs) && b.id in s.batches && s.batches[b.id] == b && b.status == CoolingDown
    requires d.runId !in s.runs && b.collectorId in s.sources
    requires var c := s.sources[b.collectorId].context; c.activeRule.Some? && c.policy.Some? && d.proof.Some?
    ensures var t := CreateRun(s, b, d); BatchesOk(t.batches[b.id := Launched(b, d)], t.runs)
  {
    var t := CreateRun(s, b, d);
    LaunchedOk(s, b, d);
    forall id | id in s.batches && id != b.id
      ensures BatchLinked(t.runs, s.batches[id]) && BatchTimed(t.runs, s.batches[id])
    {
      hide BatchLinked, BatchTimed;
      OtherBatchUnmoved(s.runs, t.runs, s.batches[id]);
    }
    hide BatchOk, BatchTimed, BatchLinked;
  }

  lemma LaunchKeeps(s: State, b: Batch, d: Dispatch, wall: int)
    requires Inv(s) && b.id in s.batches && s.batches[b.id] == b && b.status == CoolingDown
    requires DispatchAccepted(s, b, d, wall)
    ensures Inv(Save(CreateRun(s, b, d), Launched(b, d)))
  {
    hide HostsFree, HasActiveRun, HasOpenOperation, BatchesOk, RunsOwned, Listed, OneBatchPerSeed, HostsApart, HostsPinned;
    LaunchBatchesOk(s, b, d);
    ReplaceKeepsShape(s.batches, s.order, s.rules, Launched(b, d));
    LaunchOwned(s, b, d);
  }

  lemma LaunchOwned(s: State, b: Batch, d: Dispatch)
    requires RunsOwned(s.batches, s.runs) && b.id in s.batches && s.batches[b.id] == b && b.collectorId in s.sources
    requires var c := s.sources[b.collectorId].context; c.activeRule.Some? && c.policy.Some? && d.proof.Some?
    ensures var t := Save(CreateRun(s, b, d), Launched(b, d));
            RunsOwned(t.batches, t.runs) && t.order == s.order && t.rules == s.rules
  {
  }

  // ---------------------------------------------------------------- one batch in a tick

  // Cooling a batch whose previous run has ended gives a batch that is sound again.
  lemma CoolOk(runs: map<Id, RunRecord>, b: Batch, now: int)
    requires |b.attempts| <= MAX_ATTEMPTS && b.maxAttempts == MAX_ATTEMPTS && b.maxRequests == MAX_REQUESTS
    requires b.reservedRequests == REQUEST_LIMIT * |b.attempts| && b.activeRun == None && !b.cancelRequested
    requires Ended(runs, PreviousRun(b))
    requires forall i :: 0 <= i < |b.attempts| - 1 ==> Ended(runs, b.attempts[i])
    ensures var c := Cool(b, runs[PreviousRun(b)], now);
            SameIdentity(b, c) && c.attempts == b.attempts && BatchOk(c) && BatchTimed(runs, c)
  {
  }

  lemma SettleOk(runs: map<Id, RunRecord>, b: Batch, source: Source, now: int)
    requires BatchOk(b) && BatchTimed(runs, b) && Active(b) && b.activeRun.Some? && Ended(runs, b.activeRun.value)
    ensures var c := Settle(source, b, runs[b.activeRun.value], now);
            SameIdentity(b, c) && c.attempts == b.attempts && BatchOk(c) && BatchTimed(runs, c)
  {
    assert PreviousRun(b) == b.activeRun.value;
    var idle := b.(activeRun := None);
    assert PreviousRun(idle) == b.activeRun.value;
    hide Cool, VerifiedContinuation, ContextMoved;
    if b.status == Running {
      CoolOk(runs, idle, now);
    }
  }

  lemma StopOk(runs: map<Id, RunRecord>, b: Batch, reason: Reason, now: int)
    requires BatchOk(b) && BatchTimed(runs, b) && Active(b) && (b.activeRun.Some? ==> reason == SourceUnavailable)
    ensures var c := Stop(b, reason, now, NeedsAttention);
            SameIdentity(b, c) && c.attempts == b.attempts && BatchOk(c) && BatchTimed(runs, c) && !Active(c)
  {
  }

  lemma StopKeeps(s: State, b: Batch, reason: Reason, now: int)
    requires Inv(s) && b.id in s.batches && s.batches[b.id] == b && Active(b)
    requires b.activeRun.Some? ==> reason == SourceUnavailable
    ensures Inv(Save(s, Stop(b, reason, now, NeedsAttention)))
  {
    StopOk(s.runs, b, reason, now);
    hide BatchOk, BatchTimed, BatchLinked, Inv, SameIdentity;
    SaveKeeps(s, Stop(b, reason, now, NeedsAttention));
  }

  // An attempt told to stop: the batch waits for its run to end.
  lemma CancellingKeeps(s: State, b: Batch, o: Id, evenEnded: bool, requested: bool, reason: Reason)
    requires Inv(s) && b.id in s.batches && s.batches[b.id] == b && b.status in {Running, Cancelling}
    requires b.cancelRequested ==> requested
    ensures Inv(Save(CancelOperation(s, o, evenEnded),
                     b.(cancelRequested := requested, status := Cancelling, reason := reason, nextAttemptAt := None)))
  {
    var c := b.(cancelRequested := requested, status := Cancelling, reason := reason, nextAttemptAt := None);
    assert BatchOk(c) && BatchTimed(s.runs, c) && SameIdentity(b, c) by { assert BatchOk(b) && BatchTimed(s.runs, b); }
    hide BatchOk, BatchTimed, BatchLinked, SameIdentity;
    CancelOperationFrame(s, o, evenEnded);
    hide CancelOperation, BatchesOk, Listed, RunsOwned, OneBatchPerSeed, HostsApart, HostsPinned;
    SaveKeeps(CancelOperation(s, o, evenEnded), c);
  }

  lemma SoundBatch(s: State, id: Id)
    requires Inv(s) && id in s.batches
    ensures var b := s.batches[id]; b.id == id && BatchOk(b) && BatchLinked(s.runs, b) && BatchTimed(s.runs, b)
  {
  }

  lemma MoveCases(s: State, b: Batch, now: int, wall: int, draws: map<Id, Dispatch>)
    requires b.collectorId in s.sources
    ensures var move := NextMove(s, b, now, wall, draws);
            && (move.Leave? <==> b.status != CoolingDown)
            && (move.Launch? ==> DispatchAccepted(s, b, move.draw, wall))
  {
    hide DispatchAccepted;
  }

  lemma AdvanceKeeps(s: State, b: Batch, now: int, wall: int, draws: map<Id, Dispatch>)
    requires Inv(s) && b.id in s.batches && s.batches[b.id] == b && b.collectorId in s.sources
    ensures Inv(Advance(s, b, now, wall, draws))
  {
    hide Inv, NextMove, Stop, BatchLinked, BatchTimed;
    SoundBatch(s, b.id);
    MoveCases(s, b, now, wall, draws);
    match NextMove(s, b, now, wall, draws)
    case Leave =>
    case Wait => assert Save(s, b) == s;
    case Halt(reason) => StopKeeps(s, b, reason, now);
    case Launch(draw) => LaunchKeeps(s, b, draw, wall);
  }

  lemma SettleKeeps(s: State, b: Batch, now: int)
    requires Inv(s) && b.id in s.batches && s.batches[b.id] == b && Active(b) && b.collectorId in s.sources
    requires b.activeRun.Some? && Ended(s.runs, b.activeRun.value)
    ensures var c := Settle(s.sources[b.collectorId], b, s.runs[b.activeRun.value], now);
            SameIdentity(b, c) && Inv(Save(s, c))
  {
    hide Settle;
    SettleOk(s.runs, b, s.sources[b.collectorId], now);
    hide BatchOk, BatchTimed, BatchLinked, Inv;
    SaveKeeps(s, Settle(s.sources[b.collectorId], b, s.runs[b.activeRun.value], now));
  }

  lemma TickBatchKeeps(s: State, id: Id, now: int, wall: int, draws: map<Id, Dispatch>)
    requires Inv(s) && id in s.batches && Active(s.batches[id])
    ensures Inv(TickBatch(s, id, now, wall, draws))
  {
    var b := s.batches[id];
    assert b.id == id && (b.activeRun.Some? ==> b.activeRun.value in s.runs) && (b.status == CoolingDown <==> b.activeRun.None?)
           && (b.activeRun.Some? ==> b.nextAttemptAt == None) by {
      assert BatchOk(b) && BatchLinked(s.runs, b);
    }
    hide Inv, Advance, Settle, Stop;
    if !Available(s, b.collectorId) {
      StopKeeps(s, b, SourceUnavailable, now);
    } else if b.activeRun.None? {
      AdvanceKeeps(s, b, now, wall, draws);
    } else {
      var run := s.runs[b.activeRun.value];
      if !Unfinished(run) {
        var settled := Settle(s.sources[b.collectorId], b, run, now);
        SettleKeeps(s, b, now);
        AdvanceKeeps(Save(s, settled), settled, now, wall, draws);
      } else if now >= b.expiresAt || b.cancelRequested {
        CancellingKeeps(s, b, run.operationId, true, b.cancelRequested,
                        if b.cancelRequested then CancelRequested else DeadlineReached);
      }
    }
  }

  // ---------------------------------------------------------------- the whole tick

  // A step of the tick writes no batch but its own, so the rows read before the loop stay valid.
  predicate OnlyTouches(s: State, t: State, id: Id) {
    t.order == s.order && id in t.batches && t.batches == s.batches[id := t.batches[id]]
  }

  lemma AdvanceFrame(s: State, b: Batch, now: int, wall: int, draws: map<Id, Dispatch>)
    requires b.collectorId in s.sources && b.id in s.batches
    ensures OnlyTouches(s, Advance(s, b, now, wall, draws), b.id)
  {
    hide NextMove;
    MoveCases(s, b, now, wall, draws);
    match NextMove(s, b, now, wall, draws)
    case Leave => assert s.batches == s.batches[b.id := s.batches[b.id]];
    case Wait =>
    case Halt(_) =>
    case Launch(_) =>
  }

  lemma TickBatchFrame(s: State, id: Id, now: int, wall: int, draws: map<Id, Dispatch>)
    requires id in s.batches && s.batches[id].id == id
    ensures OnlyTouches(s, TickBatch(s, id, now, wall, draws), id)
  {
    var b := s.batches[id];
    hide Advance, Settle, Stop;
    assert s.batches == s.batches[id := b];
    if Available(s, b.collectorId) {
      if b.activeRun.None? {
        AdvanceFrame(s, b, now, wall, draws);
      } else if b.activeRun.value in s.runs && !Unfinished(s.runs[b.activeRun.value]) {
        var settled := Settle(s.sources[b.collectorId], b, s.runs[b.activeRun.value], now);
        SettleIdentity(s.sources[b.collectorId], b, s.runs[b.activeRun.value], now);
        AdvanceFrame(Save(s, settled), settled, now, wall, draws);
        var x := Advance(Save(s, settled), settled, now, wall, draws).batches[id];
        assert s.batches[id := settled][id := x] == s.batches[id := x];
      }
    }
  }

  lemma SettleIdentity(source: Source, b: Batch, run: RunRecord, now: int)
    ensures SameIdentity(b, Settle(source, b, run, now)) && Settle(source, b, run, now).attempts == b.attempts
  {
  }

  lemma {:induction false} ActiveIdsAreActive(s: State, ids: seq<Id>)
    requires NoRepeats(ids)
    ensures NoRepeats(ActiveIds(s, ids))
    ensures forall id :: id in ActiveIds(s, ids) <==> id in ids && id in s.batches && Active(s.batches[id])
  {
    if ids != [] {
      ActiveIdsAreActive(s, ids[1..]);
    }
  }

  lemma {:induction false} TickAllKeeps(s: State, ids: seq<Id>, now: int, wall: int, draws: map<Id, Dispatch>)
    requires Inv(s) && NoRepeats(ids) && forall id :: id in ids ==> id in s.batches && Active(s.batches[id])
    ensures var t := TickAll(s, ids, now, wall, draws);
            && Inv(t) && t.order == s.order
            && (forall id :: id in t.batches <==> id in s.batches)
            && (forall id :: id in s.batches && id !in ids ==> t.batches[id] == s.batches[id])
  {
    if ids != [] {
      var front, id := ids[..|ids| - 1], ids[|ids| - 1];
      TickAllKeeps(s, front, now, wall, draws);
      var before := TickAll(s, front, now, wall, draws);
      assert id in ids && id !in front;
      hide Inv, TickBatch, BatchOk, BatchLinked, BatchTimed;
      assert before.batches[id] == s.batches[id];
      SoundBatch(before, id);
      TickBatchKeeps(before, id, now, wall, draws);
      TickBatchFrame(before, id, now, wall, draws);
    }
  }

  // ---------------------------------------------------------------- commands and the world

  lemma {:induction false} SeededByFinds(s: State, runId: Id, ids: seq<Id>)
    ensures SeededBy(s, runId, ids).None? ==>
              forall id :: id in ids && id in s.batches ==> s.batches[id].seedRunId != runId
  {
    if ids != [] {
      SeededByFinds(s, runId, ids[1..]);
    }
  }

  // A run that owns or seeded a batch, or was dispatched by one, is recognised.
  lemma ForRunSeesAll(s: State, runId: Id)
    requires Inv(s) && runId in s.runs && ForRun(s, runId).None?
    ensures s.runs[runId].batchId.None? && forall id :: id in s.batches ==> s.batches[id].seedRunId != runId
  {
    SeededByFinds(s, runId, s.order);
  }

  lemma NewBatchOk(s: State, runId: Id, batchId: Id, source: Source, now: int)
    requires runId in s.runs && !Unfinished(s.runs[runId]) && s.runs[runId].batchId.None? && source.progress.Some?
    ensures var b := NewBatch(s, runId, batchId, s.runs[runId], source, now);
            && b.id == batchId && b.seedRunId == runId && b.hosts == HostsOf(s, source) && b.attempts == []
            && b.collectorId == s.runs[runId].collectorId && b.context == source.context
            && BatchOk(b) && BatchLinked(s.runs, b) && BatchTimed(s.runs, b)
  {
  }

  lemma InsertKeeps(s: State, b: Batch)
    requires Inv(s) && b.id !in s.batches && b.attempts == []
    requires BatchOk(b) && BatchLinked(s.runs, b) && BatchTimed(s.runs, b)
    requires forall id :: id in s.batches ==> s.batches[id].seedRunId != b.seedRunId
    requires forall id :: id in s.batches && Active(s.batches[id]) ==> s.batches[id].hosts !! b.hosts
    requires b.context.activeRule.Some? && b.context.activeRule.value in s.rules && b.hosts == ContextHosts(s.rules, b.context)
    ensures Inv(Save(s, b).(order := s.order + [b.id]))
  {
    hide BatchOk, BatchLinked, BatchTimed, Listed;
    InsertListed(s.batches, s.order, b);
  }

  lemma InsertListed(batches: map<Id, Batch>, order: seq<Id>, b: Batch)
    requires Listed(batches, order) && b.id !in batches
    ensures Listed(batches[b.id := b], order + [b.id])
  {
  }

  lemma StartKeeps(s: State, runId: Id, batchId: Id, proof: Option<string>, now: int, wall: int)
    requires Inv(s) && StartBatch(s, runId, batchId, proof, now, wall).Ok?
    ensures Inv(StartBatch(s, runId, batchId, proof, now, wall).value)
  {
    StartFacts(s, runId, batchId, proof, now, wall);
    var source := s.sources[s.runs[runId].collectorId];
    NewBatchOk(s, runId, batchId, source, now);
    hide BatchOk, BatchLinked, BatchTimed, NewBatch, StartBatch, ContextHosts, Listed, BatchesOk, RunsOwned, OneBatchPerSeed, HostsApart, HostsPinned;
    InsertKeeps(s, NewBatch(s, runId, batchId, s.runs[runId], source, now));
  }

  // What a successful start has checked.
  lemma StartFacts(s: State, runId: Id, batchId: Id, proof: Option<string>, now: int, wall: int)
    requires Inv(s) && StartBatch(s, runId, batchId, proof, now, wall).Ok?
    ensures && runId in s.runs && !Unfinished(s.runs[runId]) && s.runs[runId].batchId.None? && batchId !in s.batches
            && Available(s, s.runs[runId].collectorId)
            && (forall id :: id in s.batches ==> s.batches[id].seedRunId != runId)
            && var source := s.sources[s.runs[runId].collectorId];
               && source.progress.Some? && source.context.activeRule.Some? && source.context.activeRule.value in s.rules
               && HostsFree(s, source, None, wall)
               && (forall id :: id in s.batches && Active(s.batches[id]) ==> s.batches[id].hosts !! HostsOf(s, source))
               && (forall c :: c in s.busy && c in s.sources ==> HostsOf(s, s.sources[c]) * HostsOf(s, source) == {})
               && StartBatch(s, runId, batchId, proof, now, wall).value
                  == Save(s, NewBatch(s, runId, batchId, s.runs[runId], source, now)).(order := s.order + [batchId])
  {
    hide NewBatch, ContextHosts, Inv;
    ForRunSeesAll(s, runId);
  }

  // An idle batch is cancelled at once.
  lemma IdleStopKeeps(s: State, b: Batch, now: int)
    requires Inv(s) && b.id in s.batches && s.batches[b.id] == b && Active(b) && b.activeRun.None?
    ensures Inv(Save(s, StopRequested(b, now)))
  {
    var c := StopRequested(b, now);
    assert SameIdentity(b, c) && BatchOk(c) && BatchTimed(s.runs, c) by {
      hide Inv;
      SoundBatch(s, b.id);
    }
    hide Inv, BatchOk, BatchTimed, SameIdentity, StopRequested;
    SaveKeeps(s, c);
  }

  lemma BusyIsRunning(b: Batch)
    requires BatchOk(b) && Active(b) && b.activeRun.Some?
    ensures b.status in {Running, Cancelling}
  {
  }

  lemma StopBatchKeeps(s: State, batchId: Id, now: int)
    requires Inv(s) && StopBatch(s, batchId, now).Ok?
    ensures Inv(StopBatch(s, batchId, now).value)
  {
    var b := s.batches[batchId];
    hide Inv, BatchLinked, BatchTimed, BatchOk, Active, CancelOperation;
    SoundBatch(s, batchId);
    if Active(b) {
      if b.activeRun.None? {
        hide StopRequested;
        IdleStopKeeps(s, b, now);
      } else {
        BusyIsRunning(b);
        CancellingKeeps(s, b, s.runs[b.activeRun.value].operationId, false, true, CancelRequested);
      }
    }
  }

  lemma BatchInWorld(s: State, t: State, b: Batch)
    requires WorldOk(s, t) && BatchLinked(s.runs, b) && BatchTimed(s.runs, b)
    ensures BatchLinked(t.runs, b) && BatchTimed(t.runs, b)
  {
    assert forall r :: Ended(s.runs, r) ==> Ended(t.runs, r);
  }

  lemma WorldKeeps(s: State, t: State)
    requires Inv(s) && WorldOk(s, t)
    ensures Inv(t)
  {
    forall id | id in t.batches ensures BatchLinked(t.runs, t.batches[id]) && BatchTimed(t.runs, t.batches[id]) {
      SoundBatch(s, id);
      hide BatchLinked, BatchTimed, WorldOk, Inv;
      BatchInWorld(s, t, s.batches[id]);
    }
    hide BatchOk, BatchLinked, BatchTimed;
  }

  lemma StepKeeps(s: State, e: Event)
    requires Inv(s)
    ensures Inv(Step(s, e))
  {
    hide StartBatch, StopBatch, TickAll, BatchesOk, RunsOwned, OneBatchPerSeed, HostsApart, HostsPinned, WorldOk;
    match e
    case Start(runId, batchId, proof, now, wall) =>
      if StartBatch(s, runId, batchId, proof, now, wall).Ok? { StartKeeps(s, runId, batchId, proof, now, wall); }
    case RequestStop(batchId, now) =>
      if StopBatch(s, batchId, now).Ok? { StopBatchKeeps(s, batchId, now); }
    case Tick(now, wall, draws) =>
      ActiveIdsAreActive(s, s.order);
      TickAllKeeps(s, ActiveIds(s, s.order), now, wall, draws);
    case World(next) =>
      if WorldOk(s, next) { WorldKeeps(s, next); }
  }

  // The invariant of bounded recovery, over every interleaving of starts, stops, ticks and the world.
  lemma {:induction false} RecoveryInvariant(s: State, es: seq<Event>)
    requires Initial(s)
    ensures Inv(Exec(s, es))
  {
    if es != [] {
      RecoveryInvariant(s, es[..|es| - 1]);
      hide Inv, Step;
      StepKeeps(Exec(s, es[..|es| - 1]), es[|es| - 1]);
    } else {
      hide BatchOk, BatchLinked, BatchTimed;
    }
  }
}
