/**
 What bounded recovery promises its operators and the sources it reads: when an attempt may
 start, what a stop request guarantees, what the deadline forces, and how much one rate-limited
 run can cost.
 */
module RecoveryTheorems {
  import opened Prelude
  import opened RecoveryModel
  import opened RecoverySafety
  import opened RecoverySteps

  // ---------------------------------------------------------------- one transition, one batch

  // What any transition may do to a batch that already exists.
  predicate Lawful(b: Batch, c: Batch) {
    && SameIdentity(b, c)
    && (!Active(b) ==> c == b)
    && b.attempts <= c.attempts && |c.attempts| <= |b.attempts| + 1
    && (b.cancelRequested ==> c.cancelRequested && c.attempts == b.attempts)
  }

  lemma TickIsLawful(s: State, now: int, wall: int, draws: map<Id, Dispatch>, id: Id)
    returns (mid: State)
    requires Inv(s) && id in s.batches && Active(s.batches[id])
    ensures var t := Step(s, Tick(now, wall, draws));
            && id in t.batches && id in mid.batches && mid.batches[id] == s.batches[id]
            && Inv(mid) && Kept(s, mid)
            && (forall x :: x in s.batches && !Active(s.batches[x]) ==> x in mid.batches && mid.batches[x] == s.batches[x])
            && Outcome(mid, s.batches[id], t.batches[id], now, wall) && Kept(mid, t)
            && id in TickBatch(mid, id, now, wall, draws).batches
            && t.batches[id] == TickBatch(mid, id, now, wall, draws).batches[id] && Kept(TickBatch(mid, id, now, wall, draws), t)
  {
    hide Inv, Outcome, Kept, TickBatch, TickAll, Listed;
    OrderIsListed(s, id);
    ActiveIdsAreActive(s, s.order);
    var after;
    mid, after := TickAllLocal(s, ActiveIds(s, s.order), now, wall, draws, id);
    StepOutcome(mid, id, now, wall, draws);
    TickBatchKeepsRuns(mid, id, now, wall, draws);
    KeptTransitive(mid, after, Step(s, Tick(now, wall, draws)));
  }

  lemma OrderIsListed(s: State, id: Id)
    requires Inv(s) && id in s.batches
    ensures NoRepeats(s.order) && id in s.order && forall x :: x in s.order ==> x in s.batches
  {
    hide BatchesOk, RunsOwned, OneBatchPerSeed, HostsApart, HostsPinned;
  }

  lemma TickLeavesInactive(s: State, now: int, wall: int, draws: map<Id, Dispatch>, id: Id)
    requires Inv(s) && id in s.batches && !Active(s.batches[id])
    ensures var t := Step(s, Tick(now, wall, draws)); id in t.batches && t.batches[id] == s.batches[id]
  {
    hide Inv, TickBatch, TickAll;
    OrderIsListed(s, id);
    ActiveIdsAreActive(s, s.order);
    TickAllKeeps(s, ActiveIds(s, s.order), now, wall, draws);
  }

  lemma StartTouchesNoOther(s: State, e: Event, id: Id)
    requires Inv(s) && id in s.batches && e.Start?
    ensures id in Step(s, e).batches && Step(s, e).batches[id] == s.batches[id]
  {
    hide Inv, StartBatch, NewBatch, HostsFree, ContextHosts;
    if StartBatch(s, e.runId, e.batchId, e.proof, e.now, e.wall).Ok? {
      StartFacts(s, e.runId, e.batchId, e.proof, e.now, e.wall);
      var source := s.sources[s.runs[e.runId].collectorId];
      assert NewBatch(s, e.runId, e.batchId, s.runs[e.runId], source, e.now).id == e.batchId by {
        NewBatchOk(s, e.runId, e.batchId, source, e.now);
      }
    }
  }

  lemma StopRequestedIsLawful(b: Batch, now: int)
    requires Active(b)
    ensures Lawful(b, StopRequested(b, now)) && StopRequested(b, now).attempts == b.attempts
    ensures StopRequested(b, now).status in {Cancelled, Cancelling}
  {
  }

  lemma StopIsLawful(s: State, batchId: Id, now: int, id: Id)
    requires id in s.batches && batchId in s.batches && s.batches[batchId].id == batchId
    ensures var t := Step(s, RequestStop(batchId, now));
            && id in t.batches && Lawful(s.batches[id], t.batches[id]) && t.batches[id].attempts == s.batches[id].attempts
            && (t.batches[id].status in {Recovered, CoolingDown} ==> s.batches[id].status == t.batches[id].status)
  {
    var b := s.batches[batchId];
    assert Lawful(s.batches[id], s.batches[id]);
    if Active(b) {
      StopRequestedIsLawful(b, now);
      assert StopRequested(b, now).id == batchId;
      hide StopRequested, Lawful;
    }
  }

  lemma CommandIsLawful(s: State, e: Event, id: Id)
    requires Inv(s) && id in s.batches && !e.Tick?
    ensures id in Step(s, e).batches && Lawful(s.batches[id], Step(s, e).batches[id])
    ensures Step(s, e).batches[id].attempts == s.batches[id].attempts
    ensures Step(s, e).batches[id].status in {Recovered, CoolingDown} ==> s.batches[id].status == Step(s, e).batches[id].status
  {
    hide Inv, BatchLinked, BatchTimed, BatchOk, StartBatch, StopBatch, WorldOk;
    match e
    case Start(_, _, _, _, _) => StartTouchesNoOther(s, e, id);
    case RequestStop(batchId, now) =>
      StopUnknown(s, batchId, now);
      if batchId in s.batches {
        SoundBatch(s, batchId);
        StopIsLawful(s, batchId, now, id);
      }
    case World(next) => WorldBatches(s, next);
  }

  lemma StopUnknown(s: State, batchId: Id, now: int)
    ensures batchId !in s.batches ==> StopBatch(s, batchId, now).Err?
  {
  }

  lemma WorldBatches(s: State, t: State)
    ensures WorldOk(s, t) ==> t.batches == s.batches
  {
  }

  lemma StepIsLawful(s: State, e: Event, id: Id)
    requires Inv(s) && id in s.batches
    ensures id in Step(s, e).batches && Lawful(s.batches[id], Step(s, e).batches[id])
  {
    hide Inv, Step;
    if !e.Tick? {
      CommandIsLawful(s, e, id);
    } else if Active(s.batches[id]) {
      var mid := TickIsLawful(s, e.now, e.wall, e.draws, id);
      OutcomeIsLawful(mid, s.batches[id], Step(s, e).batches[id], e.now, e.wall);
    } else {
      TickLeavesInactive(s, e.now, e.wall, e.draws, id);
    }
  }

  lemma OutcomeIsLawful(s: State, b: Batch, c: Batch, now: int, wall: int)
    requires Outcome(s, b, c, now, wall) && Active(b)
    ensures Lawful(b, c)
  {
    hide VerifiedContinuation, Undrifted, WaitedOut, TimeReached, HostsFree;
  }

  // ---------------------------------------------------------------- whole runs

  lemma {:induction false} ExecKeeps(s: State, es: seq<Event>)
    requires Inv(s)
    ensures Inv(Exec(s, es))
  {
    if es != [] {
      ExecKeeps(s, es[..|es| - 1]);
      hide Inv, Step;
      StepKeeps(Exec(s, es[..|es| - 1]), es[|es| - 1]);
    }
  }

  lemma {:induction false} ExecIsLawful(s: State, es: seq<Event>, id: Id)
    requires Inv(s) && id in s.batches
    ensures id in Exec(s, es).batches && SameIdentity(s.batches[id], Exec(s, es).batches[id])
    ensures s.batches[id].attempts <= Exec(s, es).batches[id].attempts
    ensures !Active(s.batches[id]) ==> Exec(s, es).batches[id] == s.batches[id]
    ensures s.batches[id].cancelRequested ==>
              Exec(s, es).batches[id].cancelRequested && Exec(s, es).batches[id].attempts == s.batches[id].attempts
  {
    if es != [] {
      hide Inv, Step;
      ExecIsLawful(s, es[..|es| - 1], id);
      ExecKeeps(s, es[..|es| - 1]);
      StepIsLawful(Exec(s, es[..|es| - 1]), es[|es| - 1], id);
    }
  }

  // A recovered, cancelled or abandoned batch never changes again, whatever happens next.
  lemma TerminalForever(s: State, before: seq<Event>, after: seq<Event>, id: Id)
    requires Initial(s) && id in Exec(s, before).batches && !Active(Exec(s, before).batches[id])
    ensures id in Exec(Exec(s, before), after).batches
    ensures Exec(Exec(s, before), after).batches[id] == Exec(s, before).batches[id]
  {
    hide Inv, Initial;
    RecoveryInvariant(s, before);
    ExecIsLawful(Exec(s, before), after, id);
  }

  // A stop request is final: no further attempt is dispatched and the batch never counts as recovered.
  lemma StopIsFinal(s: State, before: seq<Event>, after: seq<Event>, id: Id)
    requires Initial(s) && id in Exec(s, before).batches && Exec(s, before).batches[id].cancelRequested
    ensures var t := Exec(Exec(s, before), after);
            && id in t.batches && t.batches[id].attempts == Exec(s, before).batches[id].attempts
            && t.batches[id].status in {Cancelling, Cancelled, NeedsAttention}
  {
    hide Inv, Initial, BatchLinked, BatchTimed;
    RecoveryInvariant(s, before);
    ExecIsLawful(Exec(s, before), after, id);
    ExecKeeps(Exec(s, before), after);
    SoundBatch(Exec(Exec(s, before), after), id);
  }

  // ---------------------------------------------------------------- when an attempt may start

  // A dispatch is due: the previous run has ended and its wait is over, the deadline is ahead,
  // nobody asked to stop, the source is unchanged and no other batch holds one of its hosts.
  predicate DispatchDue(s: State, id: Id, now: int, wall: int)
    requires id in s.batches
  {
    var b := s.batches[id];
    && WaitedOut(s.runs, b, now) && TimeReached(s.runs, b, now) && now < b.expiresAt && !b.cancelRequested && Undrifted(s, b)
    && forall other :: other in s.batches && other != id && Holds(s.batches[other], wall) ==> s.batches[other].hosts !! b.hosts
  }

  // Only a tick dispatches, one attempt at a time, never a fourth, and only when it is due.
  lemma DispatchIsDue(s: State, e: Event, id: Id)
    requires Inv(s) && id in s.batches
    ensures var b, t := s.batches[id], Step(s, e);
            id in t.batches && t.batches[id].attempts != b.attempts ==>
              && |t.batches[id].attempts| == |b.attempts| + 1 <= MAX_ATTEMPTS && b.attempts <= t.batches[id].attempts
              && e.Tick? && DispatchDue(s, id, e.now, e.wall)
  {
    var b := s.batches[id];
    hide Inv, Step, Lawful, BatchOk, BatchTimed, Outcome, Kept, WaitedOut, TimeReached, Undrifted, Dispatched, HostsFree, BatchLinked, DispatchDue;
    SoundBatch(s, id);
    if !e.Tick? {
      CommandIsLawful(s, e, id);
    } else if !Active(b) {
      TickLeavesInactive(s, e.now, e.wall, e.draws, id);
    } else {
      var mid := TickIsLawful(s, e.now, e.wall, e.draws, id);
      if Step(s, e).batches[id].attempts != b.attempts {
        DispatchFacts(mid, b, Step(s, e).batches[id], e.now, e.wall);
        HoldersExcluded(s, mid, id, e.wall);
        WaitTransfers(s, mid, id, e.now, e.wall);
      }
    }
  }

  lemma DispatchFacts(s: State, b: Batch, c: Batch, now: int, wall: int)
    requires Outcome(s, b, c, now, wall) && c.attempts != b.attempts
    ensures && WaitedOut(s.runs, b, now) && TimeReached(s.runs, b, now) && now < b.expiresAt && !b.cancelRequested && Undrifted(s, b)
            && HostsFree(s, s.sources[b.collectorId], Some(b.id), wall)
    ensures b.attempts <= c.attempts && |c.attempts| == |b.attempts| + 1 <= MAX_ATTEMPTS
  {
    hide VerifiedContinuation, WaitedOut, TimeReached, HostsFree;
  }

  lemma WaitTransfers(s: State, mid: State, id: Id, now: int, wall: int)
    requires id in s.batches
    requires var b := s.batches[id];
             && Kept(s, mid) && WaitedOut(mid.runs, b, now) && TimeReached(mid.runs, b, now) && Undrifted(mid, b) && BatchLinked(s.runs, b)
             && now < b.expiresAt && !b.cancelRequested
    requires forall other :: other in s.batches && other != id && Holds(s.batches[other], wall)
              ==> s.batches[other].hosts !! s.batches[id].hosts
    ensures DispatchDue(s, id, now, wall)
  {
    var b := s.batches[id];
    assert PreviousRun(b) in s.runs;
  }

  lemma HoldersExcluded(s: State, mid: State, id: Id, wall: int)
    requires Inv(s) && Inv(mid) && id in s.batches && id in mid.batches && mid.batches[id] == s.batches[id]
    requires Active(s.batches[id])
    requires forall x :: x in s.batches && !Active(s.batches[x]) ==> x in mid.batches && mid.batches[x] == s.batches[x]
    requires Undrifted(mid, s.batches[id]) && HostsFree(mid, mid.sources[s.batches[id].collectorId], Some(id), wall)
    ensures forall other :: other in s.batches && other != id && Holds(s.batches[other], wall)
              ==> s.batches[other].hosts !! s.batches[id].hosts
  {
    hide BatchesOk, RunsOwned, OneBatchPerSeed, Listed, ContextHosts;
    assert s.batches[id].hosts == HostsOf(mid, mid.sources[s.batches[id].collectorId]);
    forall other | other in s.batches && other != id && Holds(s.batches[other], wall)
      ensures s.batches[other].hosts !! s.batches[id].hosts
    {
      if !Active(s.batches[other]) {
        assert mid.batches[other] == s.batches[other];
      }
    }
  }

  // ---------------------------------------------------------------- deadline and success

  // A tick at or after the deadline leaves the batch finished, or waiting for a run told to stop.
  lemma DeadlineTick(s: State, now: int, wall: int, draws: map<Id, Dispatch>, id: Id)
    requires Inv(s) && id in s.batches && now >= s.batches[id].expiresAt
    ensures var t := Step(s, Tick(now, wall, draws));
            && id in t.batches
            && var c := t.batches[id];
               Active(c) ==> c.status == Cancelling && c.activeRun.Some? && c.activeRun.value in t.runs
                             && Unfinished(t.runs[c.activeRun.value])
  {
    hide Inv, Step, Dispatched, VerifiedContinuation;
    if Active(s.batches[id]) {
      var mid := TickIsLawful(s, now, wall, draws, id);
    } else {
      TickLeavesInactive(s, now, wall, draws, id);
    }
  }

  // A batch becomes recovered only in a tick, after its latest attempt ended with verified progress.
  lemma RecoveredMeansVerified(s: State, e: Event, id: Id)
    requires Inv(s) && id in s.batches
    ensures var b, t := s.batches[id], Step(s, e);
            id in t.batches && t.batches[id].status == Recovered && b.status != Recovered ==>
              && e.Tick? && b.status == Running && !b.cancelRequested
              && Ended(s.runs, PreviousRun(b)) && b.collectorId in s.sources
              && VerifiedContinuation(s.sources[b.collectorId], b, s.runs[PreviousRun(b)]) && Authorised(b, s.runs[PreviousRun(b)])
  {
    var b := s.batches[id];
    hide Inv, Step, Lawful, BatchTimed, BatchOk, Outcome, Kept, VerifiedContinuation, BatchLinked;
    SoundBatch(s, id);
    if !e.Tick? {
      CommandIsLawful(s, e, id);
    } else if !Active(b) {
      TickLeavesInactive(s, e.now, e.wall, e.draws, id);
    } else {
      var mid := TickIsLawful(s, e.now, e.wall, e.draws, id);
      if Step(s, e).batches[id].status == Recovered { RecoveryTransfers(s, mid, b, Step(s, e).batches[id], e.now, e.wall); }
    }
  }

  lemma RecoveryTransfers(s: State, mid: State, b: Batch, c: Batch, now: int, wall: int)
    requires Kept(s, mid) && Outcome(mid, b, c, now, wall) && c.status == Recovered
    requires BatchLinked(s.runs, b) && BatchOk(b)
    ensures && b.status == Running && !b.cancelRequested && Ended(s.runs, PreviousRun(b)) && b.collectorId in s.sources
            && VerifiedContinuation(s.sources[b.collectorId], b, s.runs[PreviousRun(b)]) && Authorised(b, s.runs[PreviousRun(b)])
  {
    hide Dispatched;
    assert PreviousRun(b) in s.runs;
  }

  predicate LeftNothing(s: State, b: Batch) {
    Ended(s.runs, PreviousRun(b)) && b.collectorId in s.sources && Untouched(s.sources[b.collectorId], b, s.runs[PreviousRun(b)])
  }

  predicate Repeats(b: Batch, c: Batch) {
    b.status == Running && (c.status == CoolingDown || c.attempts != b.attempts)
  }

  // A continuation is repeated only when the last one met the rate limit and left nothing behind, so
  // recovery never redoes work that was already saved.
  lemma RepeatedOnlyUntouched(s: State, e: Event, id: Id)
    requires Inv(s) && id in s.batches
    ensures id in Step(s, e).batches && Repeats(s.batches[id], Step(s, e).batches[id]) ==> e.Tick? && LeftNothing(s, s.batches[id])
  {
    var b := s.batches[id];
    hide Inv, Step, BatchTimed, BatchOk, Outcome, Kept, Untouched, BatchLinked, LeftNothing, Repeats, Lawful, SameIdentity;
    SoundBatch(s, id);
    if !e.Tick? {
      CommandIsLawful(s, e, id);
      NoRepeat(b, Step(s, e).batches[id]);
    } else if Active(b) {
      var mid := TickIsLawful(s, e.now, e.wall, e.draws, id);
      UntouchedTransfers(s, mid, b, Step(s, e).batches[id], e.now, e.wall);
    } else {
      NoRepeat(b, b);
    }
  }

  lemma NoRepeat(b: Batch, c: Batch)
    ensures c.attempts == b.attempts && (c.status == CoolingDown ==> b.status == CoolingDown) ==> !Repeats(b, c)
    ensures !Active(b) ==> !Repeats(b, c)
  {
  }

  lemma UntouchedTransfers(s: State, mid: State, b: Batch, c: Batch, now: int, wall: int)
    requires Kept(s, mid) && Outcome(mid, b, c, now, wall) && BatchLinked(s.runs, b) && BatchOk(b)
    ensures Repeats(b, c) ==> LeftNothing(s, b)
  {
    hide Dispatched, VerifiedContinuation;
    assert PreviousRun(b) in s.runs;
  }

  // ---------------------------------------------------------------- what one seed can cost

  ghost function ContinuationRuns(s: State, seed: Id): set<Id> {
    set r | r in s.runs && s.runs[r].batchId.Some? && s.runs[r].batchId.value in s.batches
            && s.batches[s.runs[r].batchId.value].seedRunId == seed
  }

  lemma {:induction false} SubsetOfSequence(rs: set<Id>, ids: seq<Id>)
    requires forall r :: r in rs ==> r in ids
    ensures |rs| <= |ids|
  {
    if ids == [] {
      assert rs == {};
    } else {
      var last := ids[|ids| - 1];
      SubsetOfSequence(rs - {last}, ids[..|ids| - 1]);
    }
  }

  lemma {:induction false} SeededByComplete(s: State, runId: Id, ids: seq<Id>, id: Id)
    requires id in ids && id in s.batches && s.batches[id].seedRunId == runId
    ensures SeededBy(s, runId, ids).Some?
  {
    if ids[0] != id {
      SeededByComplete(s, runId, ids[1..], id);
    }
  }

  // One rate-limited run causes at most three continuation runs and at most 360 reserved requests,
  // and neither the seed nor any of its continuations can ever seed recovery again.
  lemma SeedBudget(s: State, es: seq<Event>, seed: Id)
    requires Initial(s)
    ensures var t := Exec(s, es);
            && |ContinuationRuns(t, seed)| <= MAX_ATTEMPTS
            && REQUEST_LIMIT * |ContinuationRuns(t, seed)| <= MAX_REQUESTS
            && (forall id :: id in t.batches && t.batches[id].seedRunId == seed ==>
                  t.batches[id].reservedRequests == REQUEST_LIMIT * |t.batches[id].attempts| <= MAX_REQUESTS)
            && (ContinuationRuns(t, seed) != {} ==>
                  forall r, batchId, proof, now, wall :: r in ContinuationRuns(t, seed) + {seed} ==>
                    StartBatch(t, r, batchId, proof, now, wall) == Err("RECOVERY_ALREADY_EXISTS"))
  {
    var t := Exec(s, es);
    RecoveryInvariant(s, es);
    hide Inv, Exec, Initial, BatchTimed, BatchLinked;
    forall id | id in t.batches ensures BatchOk(t.batches[id]) { SoundBatch(t, id); }
    if r :| r in ContinuationRuns(t, seed) {
      var id := t.runs[r].batchId.value;
      OneSeed(t, id, seed);
      SubsetOfSequence(ContinuationRuns(t, seed), t.batches[id].attempts);
      OrderIsListed(t, id);
      SeededByComplete(t, seed, t.order, id);
      assert seed in t.runs && t.runs[seed].batchId == None by { SoundBatch(t, id); assert BatchLinked(t.runs, t.batches[id]); }
    }
  }

  lemma OneSeed(s: State, id: Id, seed: Id)
    requires Inv(s) && id in s.batches && s.batches[id].seedRunId == seed
    ensures forall r :: r in ContinuationRuns(s, seed) ==> r in s.batches[id].attempts
  {
    hide Listed, BatchesOk, HostsApart, HostsPinned;
  }

  // ---------------------------------------------------------------- exclusivity

  // A new batch takes hosts nobody holds: no active batch, no server-imposed wait still running,
  // no source with queued work.  The batch starts idle and inside its own deadline.
  lemma StartIsExclusive(s: State, runId: Id, batchId: Id, proof: Option<string>, now: int, wall: int)
    requires Inv(s) && StartBatch(s, runId, batchId, proof, now, wall).Ok?
    ensures var t := StartBatch(s, runId, batchId, proof, now, wall).value;
            && batchId !in s.batches && batchId in t.batches
            && var b := t.batches[batchId];
               && b.seedRunId == runId && b.attempts == []
               && (b.status == CoolingDown ==> now < b.expiresAt)
               && (forall id :: id in s.batches && Holds(s.batches[id], wall) ==> s.batches[id].hosts !! b.hosts)
               && (forall c :: c in s.busy && c in s.sources ==> HostsOf(s, s.sources[c]) * b.hosts == {})
  {
    hide Inv, StartBatch, ContextHosts, Cool;
    StartFacts(s, runId, batchId, proof, now, wall);
    var source := s.sources[s.runs[runId].collectorId];
    NewBatchOk(s, runId, batchId, source, now);
    NewBatchDeadline(s, runId, batchId, source, now);
  }

  lemma NewBatchDeadline(s: State, runId: Id, batchId: Id, source: Source, now: int)
    requires runId in s.runs && source.progress.Some?
    ensures NewBatch(s, runId, batchId, s.runs[runId], source, now).expiresAt == now + LIFETIME
  {
    hide ContextHosts;
  }

  // `validate_attempt`: what the worker checks before it starts a dispatched run.
  predicate Admitted(s: State, runId: Id, wall: int) {
    && runId in s.runs && s.runs[runId].batchId.Some? && s.runs[runId].batchId.value in s.batches
    && var b := s.batches[s.runs[runId].batchId.value];
       && b.status == Running && b.activeRun == Some(runId) && !b.cancelRequested
       && wall < b.expiresAt && (b.notBefore.Some? ==> wall >= b.notBefore.value)
       && Undrifted(s, b)
  }

  // Two runs the worker would start at the same time belong to different batches and read disjoint
  // hosts, each the hosts its own source may contact.
  lemma AdmittedRunsApart(s: State, r: Id, q: Id, wall: int)
    requires Inv(s) && Admitted(s, r, wall) && Admitted(s, q, wall) && r != q
    ensures var b, c := s.batches[s.runs[r].batchId.value], s.batches[s.runs[q].batchId.value];
            && b.hosts !! c.hosts
            && b.hosts == HostsOf(s, s.sources[b.collectorId]) && c.hosts == HostsOf(s, s.sources[c.collectorId])
  {
    hide BatchesOk, Listed, RunsOwned, OneBatchPerSeed, ContextHosts;
  }
}
