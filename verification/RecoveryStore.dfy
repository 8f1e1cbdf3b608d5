/**
 The store-side control of bounded recovery: `start`, `request_stop` and `tick` update the stored
 records in place, one transaction each, and are proved to be transitions of RecoveryModel.
 */
module RecoveryStore {
  import opened Prelude
  import opened CommandReceipts
  import opened RecoveryModel
  import opened RecoverySafety

  function StartCommand(key: Key, runId: Id, batchId: Id, proof: Option<string>, now: int, wall: int): Command<State, (), Batch> {
    Command(key, (), s =>
      match StartBatch(s, runId, batchId, proof, now, wall)
      case Err(error) => Abort(error)
      case Ok(t) => if batchId in t.batches then Commit(t, 201, t.batches[batchId], "recovery.start") else Abort(""))
  }

  function StopCommand(key: Key, batchId: Id, now: int): Command<State, (), Batch> {
    Command(key, (), s =>
      match StopBatch(s, batchId, now)
      case Err(error) => Abort(error)
      case Ok(t) => if batchId in t.batches then Commit(t, 200, t.batches[batchId], "recovery.cancel") else Abort(""))
  }

  class Control {
    var batches: map<Id, Batch>
    var order: seq<Id>
    var runs: map<Id, RunRecord>
    var operations: map<Id, Operation>
    var sources: map<Id, Source>
    var rules: map<Id, set<Host>>
    var busy: set<Id>
    var receipts: map<Key, Receipt<(), Batch>>
    var audit: seq<Audit<Batch>>

    function Current(): State
      reads this
    {
      State(batches, order, runs, operations, sources, rules, busy)
    }

    function Records(): Ledger<State, (), Batch>
      reads this
    {
      Ledger(Current(), receipts, audit)
    }

    method Finish(key: Key, status: int, value: Batch, action: string) returns (reply: Reply<Batch>)
      modifies this`receipts, this`audit
      ensures receipts == old(receipts)[key := Receipt((), status, value)] && audit == old(audit) + [Audit(key, action, value)]
      ensures reply == Done(status, value, false)
    {
      audit := audit + [Audit(key, action, value)];
      receipts := receipts[key := Receipt((), status, value)];
      reply := Done(status, value, false);
    }

    // The body of `start` once no receipt was found.
    method Begin(runId: Id, batchId: Id, proof: Option<string>, now: int, wall: int) returns (result: Result<Batch, string>)
      requires Inv(Current())
      modifies this`batches, this`order
      ensures var outcome := old(StartBatch(Current(), runId, batchId, proof, now, wall));
              if outcome.Err? then result == Err(outcome.error) && Current() == old(Current())
              else Current() == outcome.value && batchId in batches && result == Ok(batches[batchId])
    {
      hide Inv, ForRun, SeedValid, NewBatch, HostsFree, HostsOf;
      if ForRun(Current(), runId).Some? { return Err("RECOVERY_ALREADY_EXISTS"); }
      if runId !in runs { return Err("RUN_NOT_FOUND"); }
      var run := runs[runId];
      if !Available(Current(), run.collectorId) { return Err("COLLECTOR_NOT_FOUND"); }
      var source := sources[run.collectorId];
      if source.context.archived { return Err("COLLECTOR_ARCHIVED"); }
      if !SeedValid(Current(), runId, run, source) || proof != Some(run.ruleDigest) { return Err("RECOVERY_SEED_INVALID"); }
      if !HostsFree(Current(), source, None, wall) { return Err("SOURCE_RECOVERY_ACTIVE"); }
      if exists c :: c in busy && c in sources && HostsOf(Current(), sources[c]) * HostsOf(Current(), source) != {} {
        return Err("SOURCE_RECOVERY_ACTIVE");
      }
      if batchId in batches { return Err("IDENTIFIER_IN_USE"); }
      ghost var s := Current();
      assert StartBatch(s, runId, batchId, proof, now, wall).Ok?;
      StartFacts(s, runId, batchId, proof, now, wall);
      NewBatchOk(s, runId, batchId, source, now);
      var batch := NewBatch(Current(), runId, batchId, run, source, now);
      batches := batches[batch.id := batch];
      order := order + [batch.id];
      result := Ok(batch);
    }

    method Start(key: Key, runId: Id, batchId: Id, proof: Option<string>, now: int, wall: int) returns (reply: Reply<Batch>)
      requires Inv(Current())
      modifies this
      ensures (Records(), reply) == Execute(old(Records()), StartCommand(key, runId, batchId, proof, now, wall))
      ensures Inv(Current())
    {
      hide Inv, StartBatch;
      if key in receipts {
        assert receipts[key].body == ();
        return Done(receipts[key].status, receipts[key].response, true);
      }
      ghost var s := Current();
      var result := Begin(runId, batchId, proof, now, wall);
      if result.Err? { return Refused(result.error); }
      StartKeeps(s, runId, batchId, proof, now, wall);
      reply := Finish(key, 201, result.value, "recovery.start");
    }

    method MarkCancelled(operationId: Id, evenEnded: bool)
      modifies this`operations
      ensures Current() == CancelOperation(old(Current()), operationId, evenEnded)
    {
      if operationId in operations && (evenEnded || !operations[operationId].terminal) {
        operations := operations[operationId := operations[operationId].(cancelRequested := true)];
      }
    }

    // The body of `request_stop` once no receipt was found.
    method Halt(batchId: Id, now: int) returns (result: Result<Batch, string>)
      requires Inv(Current())
      modifies this`batches, this`operations
      ensures var outcome := old(StopBatch(Current(), batchId, now));
              if outcome.Err? then result == Err(outcome.error) && Current() == old(Current())
              else Current() == outcome.value && batchId in batches && result == Ok(batches[batchId])
    {
      hide Inv, BatchOk, BatchLinked, BatchTimed;
      if batchId !in batches { return Err("RECOVERY_NOT_FOUND"); }
      SoundBatch(Current(), batchId);
      var batch := batches[batchId];
      if Active(batch) {
        if batch.activeRun.Some? {
          if batch.activeRun.value !in runs { return Err("RUN_RECORD_MISSING"); }
          MarkCancelled(runs[batch.activeRun.value].operationId, false);
        }
        batch := StopRequested(batch, now);
        batches := batches[batch.id := batch];
      }
      result := Ok(batch);
    }

    method RequestStop(key: Key, batchId: Id, now: int) returns (reply: Reply<Batch>)
      requires Inv(Current())
      modifies this
      ensures (Records(), reply) == Execute(old(Records()), StopCommand(key, batchId, now))
      ensures Inv(Current())
    {
      hide Inv, StopBatch;
      if key in receipts {
        assert receipts[key].body == ();
        return Done(receipts[key].status, receipts[key].response, true);
      }
      ghost var s := Current();
      var result := Halt(batchId, now);
      if result.Err? { return Refused(result.error); }
      StopBatchKeeps(s, batchId, now);
      reply := Finish(key, 200, result.value, "recovery.cancel");
    }

    method CreateRunOperation(b: Batch, d: Dispatch, wall: int) returns (created: bool)
      requires b.collectorId in sources
      modifies this`runs, this`operations, this`sources, this`busy
      ensures created == old(DispatchAccepted(Current(), b, d, wall))
      ensures !created ==> Current() == old(Current())
      ensures created ==> var c := old(sources[b.collectorId].context);
                          c.activeRule.Some? && c.policy.Some? && d.proof.Some? && Current() == CreateRun(old(Current()), b, d)
      ensures |runs| == old(|runs|) + if created then 1 else 0
    {
      hide HostsFree, HasActiveRun, HasOpenOperation;
      created := DispatchAccepted(Current(), b, d, wall);
      if created {
        var source := sources[b.collectorId];
        runs := runs[d.runId := NewRun(b, source, d)];
        operations := operations[d.operationId := Operation(b.collectorId, false, false)];
        sources := sources[b.collectorId := source.(activeOperation := Some(d.operationId))];
        busy := busy + {b.collectorId};
      }
    }

    // The second half of the loop body of `tick`.
    method AdvanceRow(row: Batch, now: int, wall: int, draws: map<Id, Dispatch>) returns (launched: bool)
      requires row.collectorId in sources
      modifies this
      ensures Current() == Advance(old(Current()), row, now, wall, draws)
      ensures |runs| == old(|runs|) + if launched then 1 else 0
      ensures receipts == old(receipts) && audit == old(audit)
    {
      hide DispatchAccepted, CreateRun, NewRun;
      var batch := row;
      var source := sources[batch.collectorId];
      launched := false;
      if batch.status != CoolingDown { return; }
      if now >= batch.expiresAt {
        batch := Stop(batch, DeadlineReached, now, NeedsAttention);
      } else if ContextMoved(source, batch) {
        batch := Stop(batch, ContextChanged, now, NeedsAttention);
      } else if source.progress != batch.expectedProgress || source.checkpoint != batch.expectedCheckpoint {
        batch := Stop(batch, ProgressChanged, now, NeedsAttention);
      } else if batch.nextAttemptAt.Some? && now >= batch.nextAttemptAt.value {
        if |batch.attempts| >= batch.maxAttempts || batch.reservedRequests + REQUEST_LIMIT > batch.maxRequests {
          batch := Stop(batch, AttemptLimit, now, NeedsAttention);
        } else {
          if batch.id in draws {
            launched := CreateRunOperation(batch, draws[batch.id], wall);
          }
          if launched {
            batch := batch.(activeRun := Some(draws[batch.id].runId), attempts := batch.attempts + [draws[batch.id].runId],
                            reservedRequests := batch.reservedRequests + REQUEST_LIMIT,
                            status := Running, nextAttemptAt := None, reason := ContinuationRunning);
          } else {
            batch := Stop(batch, DispatchRejected, now, NeedsAttention);
          }
        }
      }
      batches := batches[batch.id := batch];
    }

    // One iteration of the loop of `tick`, on a row read before the loop.
    method TickRow(row: Batch, now: int, wall: int, draws: map<Id, Dispatch>) returns (launched: bool)
      requires row.id in batches && batches[row.id] == row
      modifies this
      ensures Current() == TickBatch(old(Current()), row.id, now, wall, draws)
      ensures |runs| == old(|runs|) + if launched then 1 else 0
      ensures receipts == old(receipts) && audit == old(audit)
    {
      hide Advance, Judge;
      var batch := row;
      launched := false;
      if !Available(Current(), batch.collectorId) {
        batch := Stop(batch, SourceUnavailable, now, NeedsAttention);
        batches := batches[batch.id := batch];
        return;
      }
      if batch.activeRun.Some? {
        if batch.activeRun.value !in runs { return; }
        var run := runs[batch.activeRun.value];
        if Unfinished(run) {
          if now >= batch.expiresAt || batch.cancelRequested {
            MarkCancelled(run.operationId, true);
            batch := batch.(status := Cancelling, reason := if batch.cancelRequested then CancelRequested else DeadlineReached);
            batches := batches[batch.id := batch];
          }
          return;
        }
        batch := Settle(sources[batch.collectorId], batch, run, now);
        assert SameIdentity(row, batch) by { SettleIdentity(sources[row.collectorId], row, run, now); }
        batches := batches[batch.id := batch];
      }
      launched := AdvanceRow(batch, now, wall, draws);
    }

    // The list of active batches is read once, before any of them is advanced.
    method ActiveRows() returns (rows: seq<Batch>)
      requires Inv(Current())
      ensures Ids(rows) == ActiveIds(Current(), order) && RowsFrom(batches, rows, 0)
    {
      hide Inv, Active, BatchOk, BatchLinked, BatchTimed, ActiveIds, Current;
      rows := [];
      ghost var s := Current();
      assert s.order == order && s.batches == batches by { CurrentFields(); }
      var i := 0;
      assert order[0..] == order;
      while i < |order|
        invariant 0 <= i <= |order|
        invariant ActiveIds(s, order) == Ids(rows) + ActiveIds(s, order[i..])
        invariant RowsFrom(batches, rows, 0)
      {
        var id := order[i];
        ActiveIdsUnfold(s, order, i);
        if id in batches && Active(batches[id]) {
          SoundBatch(s, id);
          IdsAppend(rows, batches[id]);
          assert Ids(rows) + ([id] + ActiveIds(s, order[i + 1..])) == Ids(rows) + [id] + ActiveIds(s, order[i + 1..]);
          rows := rows + [batches[id]];
        }
        i := i + 1;
      }
      ActiveIdsUnfold(s, order, i);
    }

    lemma CurrentFields()
      ensures Current().order == order && Current().batches == batches && Current().runs == runs
    {
    }

    // One dispatcher tick.  It returns how many runs it created.
    method Tick(now: int, wall: int, draws: map<Id, Dispatch>) returns (dispatched: nat)
      requires Inv(Current())
      modifies this
      ensures Current() == Step(old(Current()), Event.Tick(now, wall, draws)) && Inv(Current())
      ensures |runs| == old(|runs|) + dispatched
      ensures receipts == old(receipts) && audit == old(audit)
    {
      hide Inv, TickBatch, ActiveIds, TickAll, Current, NoRepeats, RowsFrom, Ids;
      ghost var s := Current();
      var rows := ActiveRows();
      ghost var ids := Ids(rows);
      assert ids == ActiveIds(s, s.order) && RowsFrom(s.batches, rows, 0) by { CurrentFields(); }
      TickPlan(s, now, wall, draws);
      IdsLength(rows);
      dispatched := 0;
      var i := 0;
      while i < |rows|
        invariant 0 <= i <= |rows|
        invariant Current() == TickAll(s, ids[..i], now, wall, draws)
        invariant RowsFrom(Current().batches, rows, i)
        invariant |runs| == old(|runs|) + dispatched
        invariant receipts == old(receipts) && audit == old(audit)
      {
        ghost var before := Current();
        RowAt(before.batches, rows, i);
        CurrentFields();
        var launched := TickRow(rows[i], now, wall, draws);
        TickAllStep(s, ids, i, now, wall, draws);
        RowsRemain(before, rows, i, now, wall, draws);
        if launched { dispatched := dispatched + 1; }
        i := i + 1;
      }
      assert ids[..|rows|] == ids;
    }
  }

  // ---------------------------------------------------------------- sequences of commands

  ghost predicate IsRecoveryCommand(c: Command<State, (), Batch>) {
    || (exists key, runId, batchId, proof, now, wall :: c == StartCommand(key, runId, batchId, proof, now, wall))
    || (exists key, batchId, now :: c == StopCommand(key, batchId, now))
  }

  // The first use of a key: what was decided is stored, answered and audited; a refusal leaves no trace.
  predicate Answered(l: Ledger<State, (), Batch>, c: Command<State, (), Batch>, outcome: Result<State, string>, id: Id, status: int, action: string) {
    var (m, reply) := Execute(l, c);
    match outcome
    case Err(error) => m == l && reply == Refused(error)
    case Ok(t) =>
      && id in t.batches && m.domain == t && reply == Done(status, t.batches[id], false)
      && c.key in m.receipts && m.audit == l.audit + [Audit(c.key, action, t.batches[id])]
  }

  lemma CommandsAnswer(l: Ledger<State, (), Batch>, key: Key, runId: Id, batchId: Id, proof: Option<string>, now: int, wall: int)
    requires Inv(l.domain) && key !in l.receipts
    ensures Answered(l, StartCommand(key, runId, batchId, proof, now, wall), StartBatch(l.domain, runId, batchId, proof, now, wall),
                     batchId, 201, "recovery.start")
    ensures Answered(l, StopCommand(key, batchId, now), StopBatch(l.domain, batchId, now), batchId, 200, "recovery.cancel")
  {
    hide Inv, StartBatch, StopBatch;
    if StartBatch(l.domain, runId, batchId, proof, now, wall).Ok? { Started(l.domain, runId, batchId, proof, now, wall); }
    if StopBatch(l.domain, batchId, now).Ok? { Stopped(l.domain, batchId, now); }
  }

  lemma Started(s: State, runId: Id, batchId: Id, proof: Option<string>, now: int, wall: int)
    requires Inv(s) && StartBatch(s, runId, batchId, proof, now, wall).Ok?
    ensures batchId in StartBatch(s, runId, batchId, proof, now, wall).value.batches
  {
    hide Inv, NewBatch;
    StartFacts(s, runId, batchId, proof, now, wall);
    NewBatchOk(s, runId, batchId, s.sources[s.runs[runId].collectorId], now);
  }

  lemma Stopped(s: State, batchId: Id, now: int)
    requires Inv(s) && StopBatch(s, batchId, now).Ok?
    ensures batchId in StopBatch(s, batchId, now).value.batches
  {
    SoundBatch(s, batchId);
  }

  lemma CommandKeepsInv(c: Command<State, (), Batch>)
    requires IsRecoveryCommand(c)
    ensures Keeps(c, Inv)
  {
    hide Inv, StartBatch, StopBatch;
    forall s | Inv(s) && c.effect(s).Commit? ensures Inv(c.effect(s).domain) {
      if key, runId, batchId, proof, now, wall :| c == StartCommand(key, runId, batchId, proof, now, wall) {
        StartKeeps(s, runId, batchId, proof, now, wall);
      } else {
        var key, batchId, now :| c == StopCommand(key, batchId, now);
        StopBatchKeeps(s, batchId, now);
      }
    }
  }

  predicate Unasked(e: Event) {
    e.Tick? || e.World?
  }

  // A tick or an outside change.
  function Outside(e: Event): State -> State {
    s => Step(s, e)
  }

  ghost predicate IsRecoveryHappening(h: Happening<State, (), Batch>) {
    match h
    case Issued(command) => IsRecoveryCommand(command)
    case Passed(_) => exists e :: Unasked(e) && h == Passed(Outside(e))
  }

  lemma RecoveryHappeningKeeps(h: Happening<State, (), Batch>)
    requires IsRecoveryHappening(h)
    ensures HappeningKeeps(h, Inv)
  {
    hide Inv, IsRecoveryCommand, Step;
    match h
    case Issued(command) => CommandKeepsInv(command);
    case Passed(change) =>
      var e :| Unasked(e) && h == Passed(Outside(e));
      forall s | Inv(s) ensures Inv(change(s)) { StepKeeps(s, e); }
  }

  // Over any interleaving of start and stop commands, retried or new, with ticks and outside changes:
  // the recovery invariant holds, and each scope and key is audited once if it has a receipt and
  // never otherwise.
  lemma RecoveryHistory(s: State, hs: seq<Happening<State, (), Batch>>, key: Key)
    requires Inv(s) && forall h :: h in hs ==> IsRecoveryHappening(h)
    ensures var l := HappenAll(Fresh<State, (), Batch>(s), hs);
            Inv(l.domain) && AuditCount(l.audit, key) == if key in l.receipts then 1 else 0
  {
    hide Inv, IsRecoveryHappening, HappeningKeeps;
    forall h | h in hs ensures HappeningKeeps(h, Inv) { RecoveryHappeningKeeps(h); }
    HistoryKeeps(s, hs, Inv, key);
  }

  predicate RowsFrom(batches: map<Id, Batch>, rows: seq<Batch>, from: nat) {
    forall j :: from <= j < |rows| ==> rows[j].id in batches && batches[rows[j].id] == rows[j]
  }

  lemma RowAt(batches: map<Id, Batch>, rows: seq<Batch>, i: nat)
    requires RowsFrom(batches, rows, i) && i < |rows|
    ensures rows[i].id in batches && batches[rows[i].id] == rows[i]
    ensures Ids(rows)[i] == rows[i].id
  {
  }

  lemma IdsLength(rows: seq<Batch>)
    ensures |Ids(rows)| == |rows|
  {
  }

  lemma {:induction false} ActiveIdsUnfold(s: State, order: seq<Id>, i: nat)
    requires i <= |order|
    ensures i == |order| ==> ActiveIds(s, order[i..]) == []
    ensures i < |order| ==>
              ActiveIds(s, order[i..]) ==
              (if order[i] in s.batches && Active(s.batches[order[i]]) then [order[i]] else []) + ActiveIds(s, order[i + 1..])
  {
    hide Active;
    if i < |order| {
      assert order[i..][1..] == order[i + 1..];
    }
  }

  lemma TickAllStep(s: State, ids: seq<Id>, i: nat, now: int, wall: int, draws: map<Id, Dispatch>)
    requires i < |ids| && ids[i] in TickAll(s, ids[..i], now, wall, draws).batches
    ensures TickAll(s, ids[..i + 1], now, wall, draws) == TickBatch(TickAll(s, ids[..i], now, wall, draws), ids[i], now, wall, draws)
  {
    hide TickBatch;
    assert ids[..i + 1][..i] == ids[..i];
  }

  // Advancing one row leaves the rows that come after it as they were read.
  lemma RowsRemain(s: State, rows: seq<Batch>, i: nat, now: int, wall: int, draws: map<Id, Dispatch>)
    requires i < |rows| && RowsFrom(s.batches, rows, i) && NoRepeats(Ids(rows))
    ensures RowsFrom(TickBatch(s, rows[i].id, now, wall, draws).batches, rows, i + 1)
  {
    hide TickBatch, NoRepeats, Ids;
    TickBatchFrame(s, rows[i].id, now, wall, draws);
    forall j | i < j < |rows| ensures rows[j].id != rows[i].id {
      RowsApart(rows, i, j);
    }
  }

  lemma RowsApart(rows: seq<Batch>, i: nat, j: nat)
    requires i < j < |rows| && NoRepeats(Ids(rows))
    ensures rows[i].id != rows[j].id
  {
    assert Ids(rows)[i] != Ids(rows)[j];
  }

  lemma TickPlan(s: State, now: int, wall: int, draws: map<Id, Dispatch>)
    requires Inv(s)
    ensures NoRepeats(ActiveIds(s, s.order))
    ensures TickAll(s, [], now, wall, draws) == s
    ensures Step(s, Event.Tick(now, wall, draws)) == TickAll(s, ActiveIds(s, s.order), now, wall, draws)
    ensures Inv(TickAll(s, ActiveIds(s, s.order), now, wall, draws))
  {
    hide Inv;
    OrderNoRepeats(s);
    ActiveIdsAreActive(s, s.order);
    TickAllKeeps(s, ActiveIds(s, s.order), now, wall, draws);
  }

  function Ids(rows: seq<Batch>): seq<Id> {
    seq(|rows|, i requires 0 <= i < |rows| => rows[i].id)
  }

  lemma IdsAppend(rows: seq<Batch>, b: Batch)
    ensures Ids(rows + [b]) == Ids(rows) + [b.id]
  {
  }

  lemma OrderNoRepeats(s: State)
    requires Inv(s)
    ensures NoRepeats(s.order)
  {
    hide BatchesOk, RunsOwned, OneBatchPerSeed, HostsApart, HostsPinned;
  }
}
