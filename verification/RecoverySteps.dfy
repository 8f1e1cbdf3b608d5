/**
 What one dispatcher tick does to one batch, in isolation from the other batches of the same tick.
 */
module RecoverySteps {
  import opened Prelude
  import opened RecoveryModel
  import opened RecoverySafety

  // ---------------------------------------------------------------- what a tick keeps

  // Inside a tick every stored run stays as it is, and a source changes at most its active operation.
  predicate Kept(s: State, t: State) {
    && (forall r :: r in s.runs ==> r in t.runs && t.runs[r] == s.runs[r])
    && (forall c :: c in s.sources ==> c in t.sources && SameSource(s.sources[c], t.sources[c]))
    && (forall c :: c in t.sources ==> c in s.sources)
  }

  predicate SameSource(a: Source, b: Source) {
    && b.context == a.context && b.deleted == a.deleted && b.scheduleEnabled == a.scheduleEnabled
    && b.progress == a.progress && b.checkpoint == a.checkpoint && b.latestRun == a.latestRun
  }

  lemma KeptTransitive(s: State, t: State, u: State)
    requires Kept(s, t) && Kept(t, u)
    ensures Kept(s, u)
  {
  }

  lemma KeptReflexive(s: State)
    ensures Kept(s, s)
  {
  }

  lemma SaveIsKept(s: State, b: Batch)
    ensures Kept(s, Save(s, b))
  {
  }

  lemma CancelIsKept(s: State, o: Id, b: Batch)
    ensures Kept(s, Save(CancelOperation(s, o, true), b))
  {
  }

  lemma LaunchIsKept(s: State, b: Batch, d: Dispatch, wall: int)
    requires DispatchAccepted(s, b, d, wall)
    ensures Kept(s, Save(CreateRun(s, b, d), Launched(b, d)))
  {
    hide HostsFree, HasActiveRun, HasOpenOperation;
  }

  lemma AdvanceKeepsRuns(s: State, b: Batch, now: int, wall: int, draws: map<Id, Dispatch>)
    requires b.collectorId in s.sources
    ensures Kept(s, Advance(s, b, now, wall, draws))
  {
    hide NextMove, Stop, Launched, CreateRun, Save, Kept, DispatchAccepted;
    MoveCases(s, b, now, wall, draws);
    match NextMove(s, b, now, wall, draws)
    case Leave => KeptReflexive(s);
    case Wait => SaveIsKept(s, b);
    case Halt(reason) => SaveIsKept(s, Stop(b, reason, now, NeedsAttention));
    case Launch(draw) => LaunchIsKept(s, b, draw, wall);
  }

  lemma TickBatchKeepsRuns(s: State, id: Id, now: int, wall: int, draws: map<Id, Dispatch>)
    requires id in s.batches
    ensures Kept(s, TickBatch(s, id, now, wall, draws))
  {
    var b := s.batches[id];
    hide Advance, Settle, Stop, Save, CancelOperation, Kept;
    if !Available(s, b.collectorId) {
      SaveIsKept(s, Stop(b, SourceUnavailable, now, NeedsAttention));
    } else if b.activeRun.None? {
      AdvanceKeepsRuns(s, b, now, wall, draws);
    } else if b.activeRun.value !in s.runs {
      KeptReflexive(s);
    } else if Unfinished(s.runs[b.activeRun.value]) {
      KeptReflexive(s);
      CancelIsKept(s, s.runs[b.activeRun.value].operationId,
                   b.(status := Cancelling, reason := if b.cancelRequested then CancelRequested else DeadlineReached));
    } else {
      var settled := Settle(s.sources[b.collectorId], b, s.runs[b.activeRun.value], now);
      SettleIdentity(s.sources[b.collectorId], b, s.runs[b.activeRun.value], now);
      SaveIsKept(s, settled);
      SaveSources(s, settled);
      AdvanceKeepsRuns(Save(s, settled), settled, now, wall, draws);
      KeptTransitive(s, Save(s, settled), Advance(Save(s, settled), settled, now, wall, draws));
    }
  }

  lemma SaveSources(s: State, b: Batch)
    ensures Save(s, b).sources == s.sources
  {
  }

  // The tick's effect on one batch is the effect of its own step, taken from some intermediate
  // state `mid` that agrees with the start on this batch and on every run.
  ghost predicate OwnStep(s: State, mid: State, after: State, t: State, id: Id) {
    && Inv(mid) && id in s.batches && id in mid.batches && mid.batches[id] == s.batches[id] && Kept(s, mid)
    && (forall x :: x in s.batches && !Active(s.batches[x]) ==> x in mid.batches && mid.batches[x] == s.batches[x])
    && id in t.batches && id in after.batches && t.batches[id] == after.batches[id] && Kept(after, t)
  }

  lemma OwnStepExtends(s: State, mid: State, after: State, before: State, id: Id, last: Id,
                       now: int, wall: int, draws: map<Id, Dispatch>)
    requires OwnStep(s, mid, after, before, id) && id != last && last in before.batches && before.batches[last].id == last
    ensures OwnStep(s, mid, after, TickBatch(before, last, now, wall, draws), id)
  {
    hide Inv, TickBatch, Kept;
    TickBatchFrame(before, last, now, wall, draws);
    TickBatchKeepsRuns(before, last, now, wall, draws);
    KeptTransitive(after, before, TickBatch(before, last, now, wall, draws));
  }

  lemma OwnStepHere(s: State, front: seq<Id>, id: Id, now: int, wall: int, draws: map<Id, Dispatch>)
    requires Inv(s) && NoRepeats(front) && (forall x :: x in front ==> x in s.batches && Active(s.batches[x]))
    requires id in s.batches && Active(s.batches[id]) && id !in front
    ensures var mid := TickAll(s, front, now, wall, draws);
            id in mid.batches && OwnStep(s, mid, TickBatch(mid, id, now, wall, draws), TickBatch(mid, id, now, wall, draws), id)
  {
    hide Inv, TickBatch, Kept, BatchOk, BatchLinked, BatchTimed;
    TickAllKeeps(s, front, now, wall, draws);
    TickAllKeepsRuns(s, front, now, wall, draws);
    var mid := TickAll(s, front, now, wall, draws);
    SoundBatch(mid, id);
    TickBatchFrame(mid, id, now, wall, draws);
    KeptReflexive(TickBatch(mid, id, now, wall, draws));
  }

  lemma {:induction false} TickAllLocal(s: State, ids: seq<Id>, now: int, wall: int, draws: map<Id, Dispatch>, id: Id)
    returns (mid: State, after: State)
    requires Inv(s) && NoRepeats(ids) && (forall x :: x in ids ==> x in s.batches && Active(s.batches[x])) && id in ids
    ensures id in mid.batches && after == TickBatch(mid, id, now, wall, draws)
    ensures OwnStep(s, mid, after, TickAll(s, ids, now, wall, draws), id)
  {
    var front, last := ids[..|ids| - 1], ids[|ids| - 1];
    assert last in ids && last !in front && (id == last || id in front);
    hide Inv, TickBatch, OwnStep, BatchOk, BatchLinked, BatchTimed;
    var before := TickAll(s, front, now, wall, draws);
    TickAllKeeps(s, front, now, wall, draws);
    if id == last {
      mid, after := before, TickBatch(before, last, now, wall, draws);
      OwnStepHere(s, front, id, now, wall, draws);
    } else {
      mid, after := TickAllLocal(s, front, now, wall, draws, id);
      SoundBatch(before, last);
      OwnStepExtends(s, mid, after, before, id, last, now, wall, draws);
    }
  }

  lemma {:induction false} TickAllKeepsRuns(s: State, ids: seq<Id>, now: int, wall: int, draws: map<Id, Dispatch>)
    ensures Kept(s, TickAll(s, ids, now, wall, draws))
  {
    if ids != [] {
      var front, last := ids[..|ids| - 1], ids[|ids| - 1];
      var before := TickAll(s, front, now, wall, draws);
      TickAllKeepsRuns(s, front, now, wall, draws);
      hide TickBatch, Kept;
      if last in before.batches {
        TickBatchKeepsRuns(before, last, now, wall, draws);
        KeptTransitive(s, before, TickBatch(before, last, now, wall, draws));
      }
    } else {
      KeptReflexive(s);
    }
  }

  // ---------------------------------------------------------------- what one step may do to its batch

  // The previous run has ended and, when its record tells when, the wait it asks for is over.
  predicate WaitedOut(runs: map<Id, RunRecord>, b: Batch, now: int) {
    && Ended(runs, PreviousRun(b))
    && var r := runs[PreviousRun(b)];
       r.finishedAt.Some? ==> now >= r.finishedAt.value + Max(Delay(|b.attempts|), r.retryAfter)
  }

  // The stored time of the next attempt has come; an attempt that follows its run in the same tick needs
  // a run whose record tells when it ended, for otherwise the wait begins at the tick itself.
  predicate TimeReached(runs: map<Id, RunRecord>, b: Batch, now: int) {
    && (b.status == CoolingDown ==> b.nextAttemptAt.Some? && now >= b.nextAttemptAt.value)
    && (b.status == Running ==> PreviousRun(b) in runs && runs[PreviousRun(b)].finishedAt.Some?)
  }

  // The source a batch was authorised for is still exactly that source.
  predicate Undrifted(s: State, b: Batch) {
    && Available(s, b.collectorId)
    && var source := s.sources[b.collectorId];
       && source.context == b.context && !source.scheduleEnabled
       && source.progress == b.expectedProgress && source.checkpoint == b.expectedCheckpoint
  }

  predicate Dispatched(s: State, b: Batch, c: Batch, now: int, wall: int) {
    && |b.attempts| < MAX_ATTEMPTS && c.attempts == b.attempts + [PreviousRun(c)] && PreviousRun(c) !in s.runs
    && c.status == Running && now < b.expiresAt && !b.cancelRequested
    && WaitedOut(s.runs, b, now) && TimeReached(s.runs, b, now) && Undrifted(s, b)
    && HostsFree(s, s.sources[b.collectorId], Some(b.id), wall)
  }

  // A run took up exactly what the batch was authorised to continue.
  predicate Authorised(b: Batch, run: RunRecord) {
    && run.progressBefore == b.expectedProgress && run.checkpointBefore == b.expectedCheckpoint
    && run.verified && run.ruleVersion == b.ruleVersion && run.policyVersion == b.policyVersion && run.ruleDigest == b.ruleDigest
  }

  // A run may be repeated: it met the rate limit under the authorised rule and policy and left
  // nothing behind, no item, no checkpoint and no progress.
  predicate Untouched(source: Source, b: Batch, run: RunRecord) {
    && run.stop == RateLimited && run.items == 0 && run.checkpointAfter == None
    && run.progressAfter == b.expectedProgress && source.progress == b.expectedProgress
    && Authorised(b, run)
  }

  predicate Repeatable(s: State, b: Batch) {
    && b.activeRun.Some? && Ended(s.runs, b.activeRun.value) && b.collectorId in s.sources
    && Untouched(s.sources[b.collectorId], b, s.runs[b.activeRun.value])
  }

  predicate Outcome(s: State, b: Batch, c: Batch, now: int, wall: int) {
    && SameIdentity(b, c)
    && (c.attempts == b.attempts || Dispatched(s, b, c, now, wall))
    && (b.cancelRequested ==> c.cancelRequested && c.attempts == b.attempts && c.status in {Cancelling, Cancelled, NeedsAttention})
    && (now >= b.expiresAt && Active(c) ==>
          c.status == Cancelling && c.activeRun.Some? && c.activeRun.value in s.runs && Unfinished(s.runs[c.activeRun.value]))
    && (c.status == Recovered ==>
          && b.status == Running && b.activeRun.Some? && Ended(s.runs, b.activeRun.value) && b.collectorId in s.sources
          && VerifiedContinuation(s.sources[b.collectorId], b, s.runs[b.activeRun.value])
          && Authorised(b, s.runs[b.activeRun.value]))
    && (c.status == CoolingDown || c.attempts != b.attempts ==> b.status in {CoolingDown, Running})
    && (b.status == Running && (c.status == CoolingDown || c.attempts != b.attempts) ==> Repeatable(s, b))
    && (b.status == Running && c.status == CoolingDown ==>
          b.activeRun.Some? && b.activeRun.value in s.runs && c.nextAttemptAt == Some(Due(b, s.runs[b.activeRun.value], now)))
    && (b.status == CoolingDown && c.status == CoolingDown ==> c == b)
  }

  lemma LaunchOutcome(s: State, b: Batch, now: int, wall: int, draws: map<Id, Dispatch>)
    requires Available(s, b.collectorId) && BatchOk(b) && BatchTimed(s.runs, b)
    requires NextMove(s, b, now, wall, draws).Launch?
    ensures Outcome(s, b, Launched(b, NextMove(s, b, now, wall, draws).draw), now, wall)
  {
    hide HostsFree, HasActiveRun, HasOpenOperation, VerifiedContinuation, Untouched;
  }

  lemma AdvanceOutcome(s: State, b: Batch, now: int, wall: int, draws: map<Id, Dispatch>)
    requires b.collectorId in s.sources && Available(s, b.collectorId) && b.id in s.batches && s.batches[b.id] == b
    requires BatchOk(b) && BatchTimed(s.runs, b) && b.status == CoolingDown
    ensures Outcome(s, b, Advance(s, b, now, wall, draws).batches[b.id], now, wall)
  {
    hide BatchTimed, DispatchAccepted, CreateRun, VerifiedContinuation, Untouched, Dispatched;
    MoveCases(s, b, now, wall, draws);
    match NextMove(s, b, now, wall, draws)
    case Wait =>
    case Halt(_) =>
    case Launch(draw) => LaunchOutcome(s, b, now, wall, draws);
  }

  lemma SettleOutcome(s: State, b: Batch, now: int)
    requires Available(s, b.collectorId) && BatchOk(b) && Active(b) && b.activeRun.Some? && Ended(s.runs, b.activeRun.value)
    ensures var c := Settle(s.sources[b.collectorId], b, s.runs[b.activeRun.value], now);
            && c.attempts == b.attempts && SameIdentity(b, c) && c.status in {CoolingDown, Recovered, NeedsAttention, Cancelled}
            && (b.cancelRequested ==> c.cancelRequested && c.status == Cancelled)
            && (!b.cancelRequested ==> !c.cancelRequested) && (c.status == CoolingDown ==> b.status == Running)
            && (c.status == Recovered ==>
                  && b.status == Running && VerifiedContinuation(s.sources[b.collectorId], b, s.runs[b.activeRun.value])
                  && Authorised(b, s.runs[b.activeRun.value]))
            && (c.status == CoolingDown ==> Repeatable(s, b) && c.nextAttemptAt == Some(Due(b, s.runs[b.activeRun.value], now)))
  {
    hide VerifiedContinuation, ContextMoved;
    var source, run := s.sources[b.collectorId], s.runs[b.activeRun.value];
    SettleIdentity(source, b, run, now);
  }

  lemma OutcomeThroughSettle(s: State, b: Batch, settled: Batch, c: Batch, now: int, wall: int)
    requires b.activeRun.Some? && Ended(s.runs, b.activeRun.value) && settled.attempts == b.attempts && SameIdentity(b, settled)
    requires settled.status == CoolingDown && b.status == Running && !b.cancelRequested && !settled.cancelRequested
    requires b.id in s.batches && Repeatable(s, b) && settled.nextAttemptAt == Some(Due(b, s.runs[b.activeRun.value], now))
    requires b.activeRun == Some(PreviousRun(b))
    requires Outcome(Save(s, settled), settled, c, now, wall)
    ensures Outcome(s, b, c, now, wall)
  {
    assert PreviousRun(b) == PreviousRun(settled);
    var t := Save(s, settled);
    if Dispatched(t, settled, c, now, wall) {
      assert HostsOf(t, t.sources[b.collectorId]) == HostsOf(s, s.sources[b.collectorId]);
      forall id | id in s.batches && Holds(s.batches[id], wall) && Some(id) != Some(b.id)
        ensures s.batches[id].hosts !! HostsOf(s, s.sources[b.collectorId])
      {
        assert t.batches[id] == s.batches[id];
      }
    }
  }

  // Stopping a batch, or telling its unfinished attempt to stop, dispatches nothing.
  lemma QuietOutcome(s: State, b: Batch, c: Batch, now: int, wall: int)
    requires BatchOk(b) && Active(b) && SameIdentity(b, c) && c.attempts == b.attempts && c.cancelRequested == b.cancelRequested
    requires || c.status == NeedsAttention
             || (b.activeRun.Some? && c.activeRun == b.activeRun && b.activeRun.value in s.runs && Unfinished(s.runs[b.activeRun.value])
                 && (c.status == Cancelling || (c == b && now < b.expiresAt && !b.cancelRequested)))
    ensures Outcome(s, b, c, now, wall)
  {
    hide Dispatched, VerifiedContinuation;
  }

  // A batch whose attempt is stored: the attempt runs on, or it is judged.
  lemma AttemptOutcome(s: State, b: Batch, now: int, wall: int, draws: map<Id, Dispatch>)
    requires Inv(s) && b.id in s.batches && s.batches[b.id] == b && Active(b) && BatchOk(b) && Available(s, b.collectorId)
    requires b.activeRun.Some? && b.activeRun.value in s.runs
    ensures var t := TickBatch(s, b.id, now, wall, draws); b.id in t.batches && Outcome(s, b, t.batches[b.id], now, wall)
  {
    hide Inv, Advance, Settle, Outcome, Ended, BatchOk, Active;
    if Unfinished(s.runs[b.activeRun.value]) {
      QuietOutcome(s, b, TickBatch(s, b.id, now, wall, draws).batches[b.id], now, wall);
    } else {
      EndedIs(s.runs, b.activeRun.value);
      SettledStepOutcome(s, b, now, wall, draws);
    }
  }

  lemma IdleOutcome(s: State, b: Batch, now: int, wall: int, draws: map<Id, Dispatch>)
    requires b.id in s.batches && s.batches[b.id] == b && Active(b) && BatchOk(b) && BatchTimed(s.runs, b)
    requires Available(s, b.collectorId) && b.activeRun.None?
    ensures var t := TickBatch(s, b.id, now, wall, draws); b.id in t.batches && Outcome(s, b, t.batches[b.id], now, wall)
  {
    assert b.status == CoolingDown;
    hide Advance, Outcome, BatchOk, BatchTimed, Active;
    AdvanceFrame(s, b, now, wall, draws);
    AdvanceOutcome(s, b, now, wall, draws);
  }

  lemma StepOutcome(s: State, id: Id, now: int, wall: int, draws: map<Id, Dispatch>)
    requires Inv(s) && id in s.batches && Active(s.batches[id])
    ensures var t := TickBatch(s, id, now, wall, draws); id in t.batches && Outcome(s, s.batches[id], t.batches[id], now, wall)
  {
    var b := s.batches[id];
    hide Inv, BatchTimed, BatchOk, Outcome, Active;
    SoundBatch(s, id);
    if !Available(s, b.collectorId) {
      hide BatchLinked;
      QuietOutcome(s, b, TickBatch(s, id, now, wall, draws).batches[id], now, wall);
    } else {
      if b.activeRun.None? {
        hide TickBatch;
        IdleOutcome(s, b, now, wall, draws);
      } else {
        hide TickBatch;
        AttemptStored(s, b);
        AttemptOutcome(s, b, now, wall, draws);
      }
    }
  }

  lemma AttemptStored(s: State, b: Batch)
    requires Active(b) && BatchOk(b) && BatchLinked(s.runs, b) && b.activeRun.Some?
    ensures b.activeRun.value in s.runs
  {
  }

  lemma EndedIs(runs: map<Id, RunRecord>, r: Id)
    ensures Ended(runs, r) <==> r in runs && !Unfinished(runs[r])
  {
  }

  lemma SettledStepOutcome(s: State, b: Batch, now: int, wall: int, draws: map<Id, Dispatch>)
    requires Inv(s) && b.id in s.batches && s.batches[b.id] == b && Active(b) && Available(s, b.collectorId)
    requires b.activeRun.Some? && Ended(s.runs, b.activeRun.value)
    ensures var settled := Settle(s.sources[b.collectorId], b, s.runs[b.activeRun.value], now);
            var t := Advance(Save(s, settled), settled, now, wall, draws);
            b.id in t.batches && Outcome(s, b, t.batches[b.id], now, wall)
  {
    hide Inv, Settle, BatchTimed, BatchLinked;
    SoundBatch(s, b.id);
    var settled := Settle(s.sources[b.collectorId], b, s.runs[b.activeRun.value], now);
    SettleOutcome(s, b, now);
    SettleKeeps(s, b, now);
    var mid := Save(s, settled);
    AdvanceFrame(mid, settled, now, wall, draws);
    if settled.status == CoolingDown {
      SoundBatch(mid, b.id);
      AdvanceOutcome(mid, settled, now, wall, draws);
      hide Outcome, Advance;
      OutcomeThroughSettle(s, b, settled, Advance(mid, settled, now, wall, draws).batches[b.id], now, wall);
    } else {
      hide VerifiedContinuation;
      MoveCases(mid, settled, now, wall, draws);
    }
  }
}
