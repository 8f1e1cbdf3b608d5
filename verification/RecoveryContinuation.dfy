/**
 Whether a continuation really continues: the runs a batch dispatches take up the interrupted
 window, progress and checkpoint, or the batch ends without repeating or recovering anything.
 */
module RecoveryContinuation {
  import opened Prelude
  import opened RecoveryModel
  import opened RecoverySafety
  import opened RecoverySteps
  import opened RecoveryTheorems

  // What a batch pins when it starts: progress of its own rule digest and policy, and its window.
  predicate Pinned(b: Batch) {
    && ValidProgress(b.expectedProgress, b.ruleDigest, b.policyVersion) && b.expectedProgress.value.windowStart == Some(b.windowStart)
    && b.context.policy.Some? && b.context.policy.value.id == b.policyVersion && b.context.policy.value.observed
  }

  // A run began where the batch was interrupted.
  predicate Resumes(b: Batch, run: RunRecord) {
    && run.ruleDigest == b.ruleDigest && run.windowStart == b.windowStart
    && run.progressBefore == b.expectedProgress && run.checkpointBefore == b.expectedCheckpoint
  }

  predicate Fits(checkpoint: Option<Checkpoint>, ruleDigest: string, policyVersion: Id) {
    checkpoint.Some? ==> checkpoint.value.ruleDigest == ruleDigest && checkpoint.value.policyId == policyVersion
  }

  // The source still stores a checkpoint of an earlier rule or policy, which no run of this batch can take up.
  predicate Stale(b: Batch) {
    !Fits(b.expectedCheckpoint, b.ruleDigest, b.policyVersion)
  }

  // What a dispatched run begins with, for whatever digest its rule attestation proves.
  predicate Origin(b: Batch, run: RunRecord) {
    && (run.ruleDigest == b.ruleDigest ==> run.windowStart == b.windowStart && run.progressBefore == b.expectedProgress)
    && (run.ruleDigest != b.ruleDigest ==> run.progressBefore == None)
    && run.checkpointBefore == if Fits(b.expectedCheckpoint, run.ruleDigest, b.policyVersion) then b.expectedCheckpoint else None
  }

  lemma ResumesExactly(b: Batch, run: RunRecord)
    requires Pinned(b) && Origin(b, run)
    ensures Resumes(b, run) <==> run.ruleDigest == b.ruleDigest && !Stale(b)
  {
  }

  // Every attempt has its origin; every attempt that was followed by another wait, another attempt
  // or a recovery resumed.
  predicate Chain(runs: map<Id, RunRecord>, b: Batch) {
    && Pinned(b)
    && (forall r :: r in b.attempts ==> r in runs && Origin(b, runs[r]))
    && (forall i :: 0 <= i < |b.attempts| - 1 ==> Resumes(b, runs[b.attempts[i]]))
    && (b.attempts != [] && b.status in {CoolingDown, Recovered} ==> Resumes(b, runs[PreviousRun(b)]))
    && (b.status == Recovered ==> b.attempts != [])
  }

  predicate SameOrigin(a: RunRecord, b: RunRecord) {
    && b.ruleDigest == a.ruleDigest && b.windowStart == a.windowStart
    && b.progressBefore == a.progressBefore && b.checkpointBefore == a.checkpointBefore
  }

  predicate OriginsKept(runs: map<Id, RunRecord>, after: map<Id, RunRecord>) {
    forall r :: r in runs ==> r in after && SameOrigin(runs[r], after[r])
  }

  // The rest of the store never rewrites what a run began with.
  ghost predicate OriginsFixed(s: State, es: seq<Event>) {
    forall k :: 0 <= k < |es| && es[k].World? ==> OriginsKept(Exec(s, es[..k]).runs, Step(Exec(s, es[..k]), es[k]).runs)
  }

  // ---------------------------------------------------------------- one transition

  lemma StartPins(s: State, runId: Id, batchId: Id, proof: Option<string>, now: int, wall: int)
    requires Inv(s) && StartBatch(s, runId, batchId, proof, now, wall).Ok?
    ensures var t := StartBatch(s, runId, batchId, proof, now, wall).value;
            && batchId in t.batches && Chain(t.runs, t.batches[batchId])
            && t.batches == s.batches[batchId := t.batches[batchId]] && t.runs == s.runs
  {
    hide Inv, HostsFree, ContextHosts;
    StartFacts(s, runId, batchId, proof, now, wall);
  }

  // A launch reads the context, progress and checkpoint the batch was authorised for.
  lemma LaunchOrigin(s: State, b: Batch, now: int, wall: int, draws: map<Id, Dispatch>)
    requires Pinned(b) && b.collectorId in s.sources && NextMove(s, b, now, wall, draws).Launch?
    ensures var d := NextMove(s, b, now, wall, draws).draw;
            && DispatchAccepted(s, b, d, wall) && Origin(b, NewRun(b, s.sources[b.collectorId], d))
  {
    hide HostsFree, HasActiveRun, HasOpenOperation;
  }

  predicate NewestStarted(b: Batch, c: Batch, runs: map<Id, RunRecord>) {
    c.attempts != b.attempts ==> c.attempts != [] && PreviousRun(c) in runs && Origin(b, runs[PreviousRun(c)])
  }

  lemma AdvanceStarts(s: State, b: Batch, now: int, wall: int, draws: map<Id, Dispatch>)
    requires Pinned(b) && b.collectorId in s.sources && b.id in s.batches && s.batches[b.id] == b
    ensures var t := Advance(s, b, now, wall, draws); b.id in t.batches && NewestStarted(b, t.batches[b.id], t.runs)
  {
    hide NextMove, NewRun, Origin, DispatchAccepted;
    MoveCases(s, b, now, wall, draws);
    match NextMove(s, b, now, wall, draws)
    case Launch(_) => LaunchOrigin(s, b, now, wall, draws);
    case Leave =>
    case Wait =>
    case Halt(_) =>
  }

  lemma TickStarts(s: State, id: Id, now: int, wall: int, draws: map<Id, Dispatch>)
    requires id in s.batches && s.batches[id].id == id && Pinned(s.batches[id])
    ensures var t := TickBatch(s, id, now, wall, draws); id in t.batches && NewestStarted(s.batches[id], t.batches[id], t.runs)
  {
    var b := s.batches[id];
    hide Advance, Settle, Origin;
    if Available(s, b.collectorId) {
      if b.activeRun.None? {
        AdvanceStarts(s, b, now, wall, draws);
      } else if b.activeRun.value in s.runs && !Unfinished(s.runs[b.activeRun.value]) {
        var settled := Settle(s.sources[b.collectorId], b, s.runs[b.activeRun.value], now);
        SettleIdentity(s.sources[b.collectorId], b, s.runs[b.activeRun.value], now);
        AdvanceStarts(Save(s, settled), settled, now, wall, draws);
        OriginIsShared(b, settled);
      }
    }
  }

  lemma OriginIsShared(b: Batch, c: Batch)
    requires SameIdentity(b, c)
    ensures forall run :: Origin(b, run) <==> Origin(c, run)
    ensures forall run :: Resumes(b, run) <==> Resumes(c, run)
    ensures Pinned(b) <==> Pinned(c)
  {
  }

  lemma OriginTravels(b: Batch, run: RunRecord, after: RunRecord)
    requires SameOrigin(run, after)
    ensures Origin(b, run) <==> Origin(b, after)
    ensures Resumes(b, run) <==> Resumes(b, after)
  {
  }

  lemma ChainTravels(b: Batch, runs: map<Id, RunRecord>, after: map<Id, RunRecord>)
    requires Chain(runs, b) && OriginsKept(runs, after)
    ensures Chain(after, b)
  {
    hide Origin, Resumes, SameOrigin, Pinned;
    forall r | r in b.attempts ensures r in after && Origin(b, after[r]) && (Resumes(b, runs[r]) ==> Resumes(b, after[r])) {
      OriginTravels(b, runs[r], after[r]);
    }
  }

  // A batch goes on waiting, starts again or recovers only on a latest attempt that resumed.
  lemma ResumedBefore(mid: State, b: Batch, c: Batch, now: int, wall: int)
    requires Outcome(mid, b, c, now, wall) && Chain(mid.runs, b) && BatchOk(b) && BatchLinked(mid.runs, b)
    ensures b.attempts != [] && (c.status in {CoolingDown, Recovered} || c.attempts != b.attempts) ==>
              Resumes(b, mid.runs[PreviousRun(b)])
    ensures c.attempts != b.attempts ==> |c.attempts| == |b.attempts| + 1 && c.attempts[..|b.attempts|] == b.attempts && c.status == Running
    ensures c.status == Recovered ==> c.attempts == b.attempts && b.attempts != []
    ensures SameIdentity(b, c)
  {
    hide VerifiedContinuation, Undrifted, WaitedOut, TimeReached;
  }

  lemma ChainGrows(runs: map<Id, RunRecord>, b: Batch, c: Batch)
    requires Chain(runs, b) && Pinned(c) && (forall run :: Origin(b, run) <==> Origin(c, run)) && (forall run :: Resumes(b, run) <==> Resumes(c, run))
    requires |c.attempts| == |b.attempts| + 1 && c.attempts[..|b.attempts|] == b.attempts && c.status == Running
    requires b.attempts != [] ==> Resumes(b, runs[PreviousRun(b)])
    requires PreviousRun(c) in runs && Origin(b, runs[PreviousRun(c)])
    ensures Chain(runs, c)
  {
    hide Origin, Resumes, Pinned;
    assert c.attempts == b.attempts + [PreviousRun(c)];
  }

  lemma ChainExtends(runs: map<Id, RunRecord>, b: Batch, c: Batch)
    requires Chain(runs, b) && SameIdentity(b, c)
    requires c.attempts == b.attempts ||
             (|c.attempts| == |b.attempts| + 1 && c.attempts[..|b.attempts|] == b.attempts && c.status == Running)
    requires b.attempts != [] && (c.status in {CoolingDown, Recovered} || c.attempts != b.attempts) ==> Resumes(b, runs[PreviousRun(b)])
    requires NewestStarted(b, c, runs) && (c.status == Recovered ==> c.attempts == b.attempts && b.attempts != [])
    ensures Chain(runs, c)
  {
    OriginIsShared(b, c);
    hide Origin, Resumes, Pinned, SameIdentity;
    if c.attempts != b.attempts {
      PinnedChain(runs, b);
      hide Chain;
      ChainGrows(runs, b, c);
    }
  }

  lemma TickChain(s: State, now: int, wall: int, draws: map<Id, Dispatch>, id: Id)
    requires Inv(s) && id in s.batches && Active(s.batches[id]) && Chain(s.runs, s.batches[id])
    ensures var t := Step(s, Tick(now, wall, draws)); id in t.batches && Chain(t.runs, t.batches[id])
  {
    hide Inv, Step, TickBatch, Kept, Outcome, Chain, BatchOk, BatchLinked, BatchTimed, NewestStarted, SameIdentity;
    var b := s.batches[id];
    var mid := TickIsLawful(s, now, wall, draws, id);
    SoundBatch(mid, id);
    KeptOrigins(s, mid);
    ChainTravels(b, s.runs, mid.runs);
    assert Pinned(b) by { PinnedChain(mid.runs, b); }
    var t := Step(s, Tick(now, wall, draws));
    KeptOrigins(mid, t);
    ChainTravels(b, mid.runs, t.runs);
    ResumedBefore(mid, b, t.batches[id], now, wall);
    TickStarts(mid, id, now, wall, draws);
    NewestTravels(b, t.batches[id], TickBatch(mid, id, now, wall, draws), t);
    ResumedTravels(b, mid, t);
    ChainExtends(t.runs, b, t.batches[id]);
  }

  lemma PinnedChain(runs: map<Id, RunRecord>, b: Batch)
    ensures Chain(runs, b) ==> Pinned(b)
  {
  }

  lemma KeptOrigins(s: State, t: State)
    ensures Kept(s, t) ==> OriginsKept(s.runs, t.runs)
  {
  }

  lemma NewestTravels(b: Batch, c: Batch, s: State, t: State)
    requires NewestStarted(b, c, s.runs) && Kept(s, t)
    ensures NewestStarted(b, c, t.runs)
  {
    hide Origin;
  }

  lemma ResumedTravels(b: Batch, s: State, t: State)
    requires Kept(s, t) && BatchLinked(s.runs, b)
    ensures b.attempts != [] ==> PreviousRun(b) in s.runs && PreviousRun(b) in t.runs && t.runs[PreviousRun(b)] == s.runs[PreviousRun(b)]
  {
  }

  lemma StepChain(s: State, e: Event, id: Id)
    requires Inv(s) && id in s.batches && Chain(s.runs, s.batches[id])
    requires e.World? ==> OriginsKept(s.runs, Step(s, e).runs)
    ensures id in Step(s, e).batches && Chain(Step(s, e).runs, Step(s, e).batches[id])
  {
    var b, t := s.batches[id], Step(s, e);
    hide Inv, Step, Kept, Chain, Lawful, Outcome;
    if e.Tick? {
      if Active(b) {
        TickChain(s, e.now, e.wall, e.draws, id);
      } else {
        TickLeavesInactive(s, e.now, e.wall, e.draws, id);
        TickKeepsOrigins(s, e);
        ChainTravels(b, s.runs, t.runs);
      }
    } else {
      CommandIsLawful(s, e, id);
      CommandKeepsOrigins(s, e);
      ChainTravels(b, s.runs, t.runs);
      var c := t.batches[id];
      LawfulIdentity(b, c);
      StatusChain(t.runs, b, c);
    }
  }

  lemma LawfulIdentity(b: Batch, c: Batch)
    ensures Lawful(b, c) ==> SameIdentity(b, c)
  {
  }

  lemma StatusChain(runs: map<Id, RunRecord>, b: Batch, c: Batch)
    requires Chain(runs, b) && SameIdentity(b, c) && c.attempts == b.attempts
    requires c.status in {Recovered, CoolingDown} ==> b.status == c.status
    ensures Chain(runs, c)
  {
    OriginIsShared(b, c);
    hide Origin, Resumes, Pinned, SameIdentity;
  }

  lemma TickKeepsOrigins(s: State, e: Event)
    requires e.Tick?
    ensures OriginsKept(s.runs, Step(s, e).runs)
  {
    hide TickAll, Kept, ActiveIds;
    TickAllKeepsRuns(s, ActiveIds(s, s.order), e.now, e.wall, e.draws);
    KeptOrigins(s, Step(s, e));
  }

  lemma CommandKeepsOrigins(s: State, e: Event)
    requires Inv(s) && !e.Tick? && (e.World? ==> OriginsKept(s.runs, Step(s, e).runs))
    ensures OriginsKept(s.runs, Step(s, e).runs)
  {
    hide Inv, HostsFree, ContextHosts, NewBatch, WorldOk;
  }

  // A batch that a transition adds is one that was just started.
  lemma NewBatchChain(s: State, e: Event, id: Id)
    requires Inv(s) && id !in s.batches && id in Step(s, e).batches
    ensures Chain(Step(s, e).runs, Step(s, e).batches[id])
  {
    hide Inv, TickAll, StopBatch, StartBatch, Chain, WorldOk, ActiveIds;
    match e
    case Start(runId, batchId, proof, now, wall) =>
      if StartBatch(s, runId, batchId, proof, now, wall).Ok? { StartPins(s, runId, batchId, proof, now, wall); }
    case RequestStop(batchId, now) => StopAddsNone(s, batchId, now);
    case Tick(now, wall, draws) => TickAddsNone(s, e);
    case World(next) => WorldBatches(s, next);
  }

  lemma StopAddsNone(s: State, batchId: Id, now: int)
    requires Inv(s)
    ensures StopBatch(s, batchId, now).Ok? ==> StopBatch(s, batchId, now).value.batches.Keys == s.batches.Keys
  {
    hide BatchesOk, RunsOwned, OneBatchPerSeed, HostsApart, HostsPinned;
  }

  lemma TickAddsNone(s: State, e: Event)
    requires Inv(s) && e.Tick?
    ensures Step(s, e).batches.Keys <= s.batches.Keys
  {
    assert NoRepeats(s.order) by { OrderRepeatsNone(s); }
    hide Inv, TickAll, ActiveIds, TickBatch, BatchOk;
    ActiveIdsAreActive(s, s.order);
    TickAllKeeps(s, ActiveIds(s, s.order), e.now, e.wall, e.draws);
  }

  lemma OrderRepeatsNone(s: State)
    requires Inv(s)
    ensures NoRepeats(s.order)
  {
    hide BatchesOk, RunsOwned, OneBatchPerSeed, HostsApart, HostsPinned;
  }

  // ---------------------------------------------------------------- over every run

  // Over every run: whatever a batch repeats, follows up or counts as recovered was a run that took up
  // the interrupted window, progress and checkpoint.
  lemma {:induction false} ContinuationsResume(s: State, es: seq<Event>, id: Id)
    requires Initial(s) && OriginsFixed(s, es) && id in Exec(s, es).batches
    ensures Chain(Exec(s, es).runs, Exec(s, es).batches[id])
  {
    if es != [] {
      var front, last := es[..|es| - 1], es[|es| - 1];
      var before := Exec(s, front);
      assert Inv(before) by { RecoveryInvariant(s, front); }
      hide Inv, Initial, Step, Chain, OriginsKept;
      FixedPrefix(s, es);
      if id in before.batches {
        ContinuationsResume(s, front, id);
        StepChain(before, last, id);
      } else {
        NewBatchChain(before, last, id);
      }
    }
  }

  lemma FixedPrefix(s: State, es: seq<Event>)
    requires es != [] && OriginsFixed(s, es)
    ensures var front, last := es[..|es| - 1], es[|es| - 1];
            OriginsFixed(s, front) && (last.World? ==> OriginsKept(Exec(s, front).runs, Step(Exec(s, front), last).runs))
  {
    hide OriginsKept, Step, Exec;
    var front := es[..|es| - 1];
    assert forall k :: 0 <= k < |front| ==> front[k] == es[k] && front[..k] == es[..k];
  }

  // A source that still stores a checkpoint of an earlier rule or policy is admitted to recovery, but it
  // gets one attempt at most and never counts as recovered.
  lemma StaleNeverRecovers(s: State, es: seq<Event>, id: Id)
    requires Initial(s) && OriginsFixed(s, es) && id in Exec(s, es).batches && Stale(Exec(s, es).batches[id])
    ensures var b := Exec(s, es).batches[id]; |b.attempts| <= 1 && b.status != Recovered
  {
    hide Initial, OriginsFixed, Exec, Stale, Origin, Resumes;
    ContinuationsResume(s, es, id);
    var t := Exec(s, es);
    var b := t.batches[id];
    if b.attempts != [] {
      ResumesExactly(b, t.runs[b.attempts[0]]);
      ResumesExactly(b, t.runs[PreviousRun(b)]);
    }
  }

  // A store in which that happens: the rule was published anew after the last checkpoint, so the run
  // that met the rate limit began without it and left progress under the new digest.
  function StaleStore(collector: Id, run: Id, operation: Id, rule: Id, policy: Id): State {
    var progress := Some(Progress("new", policy, Some(100), Host("example.org"), 1, ""));
    var seed := RunRecord(collector, operation, None, RunFailed, RateLimited, Some(0), 0, 1, 0, 0, 1, progress, progress,
                          None, None, true, rule, policy, "new", 100);
    var context := Context(1, true, Some(rule), collector, collector, None, "", Host("example.org"), "/", "",
                           Some(Policy(policy, 3, 50, true, 3, 30)), false);
    var source := Source(context, false, false, progress, Some(Checkpoint("coverage", policy, "old", 103, "")), Some(run), None);
    State(map[], [], map[run := seed], map[operation := Operation(collector, true, false)], map[collector := source],
          map[rule := {Host("example.org")}], {})
  }

  lemma StaleSourceAdmitted(collector: Id, run: Id, operation: Id, rule: Id, policy: Id, batch: Id)
    ensures var s := StaleStore(collector, run, operation, rule, policy);
            var started := Step(s, Start(run, batch, Some("new"), 0, 0));
            Initial(s) && batch in started.batches && Stale(started.batches[batch]) && Active(started.batches[batch])
  {
    var s := StaleStore(collector, run, operation, rule, policy);
    assert s.runs[run].ruleDigest == "new";
    assert "old" != "new" by { assert "old"[0] != "new"[0]; }
    assert !HasActiveRun(s, collector);
  }
}
