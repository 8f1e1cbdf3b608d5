/**
 Leased jobs (backend/src/extrio/job_control.py, `claim_job` of backend/src/extrio/store.py and the
 transactions of backend/src/extrio/worker.py).  A claim hands out the next attempt of a job; every
 write of a worker goes through `owned_transaction`, which checks that the attempt still owns the
 lease.  `effects` records the writes that were committed.
 */
module JobControl {
  import opened Prelude

  type Id(==,!new)

  datatype JobStatus = JobQueued | JobProcessing | JobCompleted | JobFailed

  datatype WorkStatus = Open | Succeeded | Partial | Failed | Cancelled | TimedOut

  // `record` is the run, or for an exploration the AI run, that the job executes.
  datatype Job = Job(operation: Id, record: Id, collector: Id, explore: bool, status: JobStatus, attempts: nat, lease: Option<int>,
                     availableAt: int, maxAttempts: nat)

  datatype Operation = Operation(status: WorkStatus, cancelRequested: bool)

  datatype Effect = Effect(job: Id, attempt: nat, afterCancel: bool)

  datatype Store = Store(jobs: map<Id, Job>, order: seq<Id>, operations: map<Id, Operation>, records: map<Id, WorkStatus>,
                         active: map<Id, Option<Id>>, claims: seq<Effect>, effects: seq<Effect>)

  datatype Work = Progress | Renew(until: int) | Succeed(final: WorkStatus)

  datatype Event =
    | Create(id: Id, operation: Id, record: Id, collector: Id, explore: bool, availableAt: int, maxAttempts: nat)
    | Claim(now: int, until: int)
    | Commit(id: Id, attempt: nat, now: int, work: Work)
    | Fail(id: Id, attempt: nat, now: int, outcome: WorkStatus)
    | RequestCancel(id: Id, now: int)
    | MarkCancel(id: Id)

  // ---------------------------------------------------------------- readings

  predicate Terminal(status: WorkStatus) {
    status != Open
  }

  predicate Ended(j: Job) {
    j.status == JobCompleted || j.status == JobFailed
  }

  predicate Due(j: Job, now: int) {
    j.availableAt <= now && (j.status == JobQueued || (j.status == JobProcessing && j.lease.Some? && j.lease.value < now))
  }

  function DueIn(jobs: map<Id, Job>, now: int): Id -> bool {
    id => id in jobs && Due(jobs[id], now)
  }

  datatype Refusal = LeaseLost | CancelledMeanwhile

  // `owned_transaction`: why an attempt may not write, if so.
  function Disowned(s: Store, id: Id, attempt: nat, now: int, allowCancel: bool): Option<Refusal> {
    if id !in s.jobs || s.jobs[id].status != JobProcessing || s.jobs[id].attempts != attempt
       || s.jobs[id].lease.None? || s.jobs[id].lease.value <= now then Some(LeaseLost)
    else if s.jobs[id].operation !in s.operations || Terminal(s.operations[s.jobs[id].operation].status) then Some(LeaseLost)
    else if s.operations[s.jobs[id].operation].cancelRequested && !allowCancel then Some(CancelledMeanwhile)
    else None
  }

  // ---------------------------------------------------------------- the transactions

  function Release(active: map<Id, Option<Id>>, collector: Id, operation: Id): map<Id, Option<Id>> {
    if collector in active && active[collector] == Some(operation) then active[collector := None] else active
  }

  // `finish_resources`: operation, run or AI run, collector and job end in one transaction.
  function FinishResources(s: Store, id: Id, outcome: WorkStatus): Store
    requires id in s.jobs
  {
    var j := s.jobs[id];
    if j.operation !in s.operations || Terminal(s.operations[j.operation].status) then s
    else
      s.(operations := s.operations[j.operation := s.operations[j.operation].(status := outcome)],
         records := s.records[j.record := outcome],
         active := Release(s.active, j.collector, j.operation),
         jobs := s.jobs[id := j.(status := JobFailed, lease := None)])
  }

  function TakeJob(s: Store, id: Id, now: int, until: int): Store
    requires id in s.jobs
  {
    var j := s.jobs[id];
    if j.operation !in s.operations || Terminal(s.operations[j.operation].status) then
      s.(jobs := s.jobs[id := j.(status := JobCompleted, lease := None)])
    else if s.operations[j.operation].cancelRequested then FinishResources(s, id, Cancelled)
    else if j.attempts >= j.maxAttempts then FinishResources(s, id, Failed)
    else
      s.(jobs := s.jobs[id := j.(status := JobProcessing, attempts := j.attempts + 1, lease := Some(until))],
         claims := s.claims + [Effect(id, j.attempts + 1, false)])
  }

  function DoWork(s: Store, id: Id, work: Work): Store
    requires id in s.jobs && s.jobs[id].operation in s.operations
  {
    var j := s.jobs[id];
    match work
    case Progress => s
    case Renew(until) => s.(jobs := s.jobs[id := j.(lease := Some(until))])
    case Succeed(final) =>
      s.(operations := s.operations[j.operation := s.operations[j.operation].(status := Succeeded)],
         records := s.records[j.record := if j.explore || !Terminal(final) then Succeeded else final],
         active := if j.collector in s.active then s.active[j.collector := None] else s.active,
         jobs := s.jobs[id := j.(status := JobCompleted, lease := None)])
  }

  function FailureOutcome(s: Store, id: Id, outcome: WorkStatus): WorkStatus
    requires id in s.jobs && s.jobs[id].operation in s.operations
  {
    if s.operations[s.jobs[id].operation].cancelRequested then Cancelled
    else if outcome == Cancelled || outcome == TimedOut then outcome else Failed
  }

  predicate Fresh(s: Store, e: Event)
    requires e.Create?
  {
    && e.id !in s.jobs && e.operation !in s.operations && e.record !in s.records
    && (e.collector in s.active ==> s.active[e.collector] == None)
  }

  function JobOf(jobs: map<Id, Job>, ids: seq<Id>, operation: Id): (r: Option<Id>)
    ensures r.Some? ==> r.value in jobs && jobs[r.value].operation == operation
  {
    if ids == [] then None
    else if ids[0] in jobs && jobs[ids[0]].operation == operation then Some(ids[0])
    else JobOf(jobs, ids[1..], operation)
  }

  function Step(s: Store, e: Event): Store {
    match e
    case Create(id, operation, record, collector, explore, availableAt, maxAttempts) =>
      if !Fresh(s, e) then s
      else
        s.(jobs := s.jobs[id := Job(operation, record, collector, explore, JobQueued, 0, None, availableAt, maxAttempts)],
           order := s.order + [id], operations := s.operations[operation := Operation(Open, false)],
           records := s.records[record := Open], active := s.active[collector := Some(operation)])
    case Claim(now, until) =>
      var due := FirstSuch(s.order, DueIn(s.jobs, now));
      if due.None? then s else TakeJob(s, due.value, now, until)
    case Commit(id, attempt, now, work) =>
      if Disowned(s, id, attempt, now, false).Some? then s
      else DoWork(s, id, work).(effects := s.effects + [Effect(id, attempt, false)])
    case Fail(id, attempt, now, outcome) =>
      if Disowned(s, id, attempt, now, true).Some? then s
      else
        FinishResources(s, id, FailureOutcome(s, id, outcome))
          .(effects := s.effects + [Effect(id, attempt, s.operations[s.jobs[id].operation].cancelRequested)])
    case RequestCancel(operation, now) =>
      var found := JobOf(s.jobs, s.order, operation);
      if found.None? || operation !in s.operations then s
      else if Terminal(s.operations[operation].status) || s.operations[operation].cancelRequested then s
      else
        var marked := s.(operations := s.operations[operation := s.operations[operation].(cancelRequested := true)]);
        var j := s.jobs[found.value];
        if j.status == JobQueued || j.lease.None? || j.lease.value <= now then FinishResources(marked, found.value, Cancelled) else marked
    case MarkCancel(operation) =>
      if operation in s.operations then s.(operations := s.operations[operation := s.operations[operation].(cancelRequested := true)]) else s
  }

  function Exec(s: Store, es: seq<Event>): Store {
    if es == [] then s else Step(Exec(s, es[..|es| - 1]), es[|es| - 1])
  }

  function Empty(): Store {
    Store(map[], [], map[], map[], map[], [], [])
  }

  // ---------------------------------------------------------------- the invariant

  function CountOf(history: seq<Effect>, id: Id): nat {
    if history == [] then 0 else CountOf(history[..|history| - 1], id) + if history[|history| - 1].job == id then 1 else 0
  }

  predicate Linked(s: Store) {
    && (forall id :: id in s.jobs ==> s.jobs[id].operation in s.operations && s.jobs[id].record in s.records)
    && (forall i, j :: i in s.jobs && j in s.jobs && i != j ==> s.jobs[i].operation != s.jobs[j].operation && s.jobs[i].record != s.jobs[j].record)
    && (forall id :: id in s.jobs ==> id in s.order)
  }

  // Job, operation and run (or AI run) end together.
  predicate Together(s: Store, id: Id)
    requires id in s.jobs && s.jobs[id].operation in s.operations && s.jobs[id].record in s.records
  {
    var j := s.jobs[id];
    && (Ended(j) <==> Terminal(s.operations[j.operation].status))
    && (Terminal(s.operations[j.operation].status) <==> Terminal(s.records[j.record]))
    && j.attempts <= j.maxAttempts && CountOf(s.claims, id) == j.attempts
    && (j.status == JobProcessing <==> j.lease.Some?)
  }

  predicate AllTogether(s: Store) {
    Linked(s) && forall id :: id in s.jobs ==> Together(s, id)
  }

  predicate Fenced(s: Store) {
    && (forall k :: 0 <= k < |s.effects| ==> s.effects[k].job in s.jobs && s.effects[k].attempt <= s.jobs[s.effects[k].job].attempts)
    && (forall c :: c in s.claims ==> c.job in s.jobs)
    && forall i, k :: 0 <= i < k < |s.effects| && s.effects[i].job == s.effects[k].job ==> s.effects[i].attempt <= s.effects[k].attempt
  }

  // A collector never points at an operation that has ended.
  predicate ActiveOpen(s: Store) {
    forall c :: c in s.active && s.active[c].Some? ==> s.active[c].value in s.operations && !Terminal(s.operations[s.active[c].value].status)
  }

  predicate ActiveOwned(s: Store) {
    forall id :: id in s.jobs ==> forall c :: c in s.active && s.active[c] == Some(s.jobs[id].operation) ==> c == s.jobs[id].collector
  }

  predicate Inv(s: Store) {
    AllTogether(s) && Fenced(s) && ActiveOpen(s) && ActiveOwned(s)
  }

  lemma CountAppend(history: seq<Effect>, a: Effect, id: Id)
    ensures CountOf(history + [a], id) == CountOf(history, id) + if a.job == id then 1 else 0
  {
    assert (history + [a])[..|history|] == history;
  }

  lemma {:induction false} CountZero(history: seq<Effect>, id: Id)
    requires forall a :: a in history ==> a.job != id
    ensures CountOf(history, id) == 0
  {
    if history != [] { CountZero(history[..|history| - 1], id); }
  }

  // ---------------------------------------------------------------- preservation

  // Ending a job with its operation and its record.
  predicate Closes(s: Store, t: Store, id: Id)
    requires id in s.jobs
  {
    var j := s.jobs[id];
    && t.order == s.order && t.claims == s.claims && t.effects == s.effects
    && id in t.jobs && t.jobs == s.jobs[id := t.jobs[id]] && Ended(t.jobs[id]) && t.jobs[id] == j.(status := t.jobs[id].status, lease := None)
    && j.operation in t.operations && t.operations == s.operations[j.operation := t.operations[j.operation]] && Terminal(t.operations[j.operation].status)
    && j.record in t.records && t.records == s.records[j.record := t.records[j.record]] && Terminal(t.records[j.record])
    && (forall c :: c in t.active ==> c in s.active && (t.active[c] == s.active[c] || t.active[c] == None))
    && (j.collector in t.active ==> t.active[j.collector] != Some(j.operation))
  }

  lemma ClosingKeeps(s: Store, t: Store, id: Id)
    requires Inv(s) && id in s.jobs && Closes(s, t, id)
    ensures Inv(t)
  {
    hide CountOf;
    assert Linked(t);
    forall k | k in t.jobs ensures Together(t, k) { assert Together(s, k); }
  }

  lemma FinishCloses(s: Store, id: Id, outcome: WorkStatus)
    requires Inv(s) && id in s.jobs && Terminal(outcome)
    ensures FinishResources(s, id, outcome) == s || Closes(s, FinishResources(s, id, outcome), id)
  {
    hide CountOf;
  }

  lemma FinishKeeps(s: Store, id: Id, outcome: WorkStatus)
    requires Inv(s) && id in s.jobs && Terminal(outcome)
    ensures Inv(FinishResources(s, id, outcome))
  {
    hide Inv, Closes, FinishResources;
    FinishCloses(s, id, outcome);
    if FinishResources(s, id, outcome) != s { ClosingKeeps(s, FinishResources(s, id, outcome), id); }
  }

  lemma TakeKeeps(s: Store, id: Id, now: int, until: int)
    requires Inv(s) && id in s.jobs && Due(s.jobs[id], now)
    ensures Inv(TakeJob(s, id, now, until))
  {
    hide CountOf, FinishResources, ActiveOpen, ActiveOwned;
    var j, t := s.jobs[id], TakeJob(s, id, now, until);
    assert Together(s, id);
    if s.operations[j.operation].cancelRequested {
      FinishKeeps(s, id, Cancelled);
    } else if j.attempts >= j.maxAttempts {
      FinishKeeps(s, id, Failed);
    } else {
      forall k | k in t.jobs ensures Together(t, k) {
        assert Together(s, k);
        CountAppend(s.claims, Effect(id, j.attempts + 1, false), k);
      }
      assert ActiveOpen(t) && ActiveOwned(t) by { ActiveSame(s, t); }
    }
  }

  lemma ActiveSame(s: Store, t: Store)
    requires ActiveOpen(s) && ActiveOwned(s) && t.active == s.active
    requires forall o :: o in s.operations ==> o in t.operations && t.operations[o].status == s.operations[o].status
    requires forall id :: id in t.jobs ==> id in s.jobs && t.jobs[id].operation == s.jobs[id].operation && t.jobs[id].collector == s.jobs[id].collector
    ensures ActiveOpen(t) && ActiveOwned(t)
  {
  }

  lemma RecordEffect(s: Store, id: Id, attempt: nat, afterCancel: bool)
    requires Inv(s) && id in s.jobs && s.jobs[id].attempts == attempt
    ensures Inv(s.(effects := s.effects + [Effect(id, attempt, afterCancel)]))
  {
    hide CountOf;
    var t := s.(effects := s.effects + [Effect(id, attempt, afterCancel)]);
    forall k | k in t.jobs ensures Together(t, k) { assert Together(s, k); }
  }

  lemma WorkKeeps(s: Store, id: Id, work: Work)
    requires Inv(s) && id in s.jobs && s.jobs[id].status == JobProcessing
    ensures Inv(DoWork(s, id, work)) && id in DoWork(s, id, work).jobs && DoWork(s, id, work).jobs[id].attempts == s.jobs[id].attempts
    ensures DoWork(s, id, work).effects == s.effects
  {
    hide CountOf;
    var t := DoWork(s, id, work);
    match work
    case Progress =>
    case Renew(until) =>
      forall k | k in t.jobs ensures Together(t, k) { assert Together(s, k); }
      assert ActiveOpen(t) && ActiveOwned(t) by { ActiveSame(s, t); }
    case Succeed(final) =>
      assert Closes(s, t, id);
      ClosingKeeps(s, t, id);
  }

  lemma MarkKeeps(s: Store, operation: Id)
    requires Inv(s) && operation in s.operations
    ensures Inv(s.(operations := s.operations[operation := s.operations[operation].(cancelRequested := true)]))
  {
    hide CountOf;
    var t := s.(operations := s.operations[operation := s.operations[operation].(cancelRequested := true)]);
    forall k | k in t.jobs ensures Together(t, k) { assert Together(s, k); }
    assert ActiveOpen(t) && ActiveOwned(t) by { ActiveSame(s, t); }
  }

  lemma CreateKeeps(s: Store, e: Event)
    requires Inv(s) && e.Create?
    ensures Inv(Step(s, e))
  {
    hide CountOf, Linked, Together, Fenced, ActiveOpen, ActiveOwned, Fresh;
    if Fresh(s, e) {
      CreateLinked(s, e);
      CreateTogether(s, e);
      CreateFenced(s, e);
      CreateActive(s, e);
    }
  }

  lemma CreateLinked(s: Store, e: Event)
    requires Linked(s) && e.Create? && Fresh(s, e)
    ensures Linked(Step(s, e))
  {
  }

  lemma CreateTogether(s: Store, e: Event)
    requires AllTogether(s) && Fenced(s) && e.Create? && Fresh(s, e)
    ensures Linked(Step(s, e)) && forall id :: id in Step(s, e).jobs ==> Together(Step(s, e), id)
  {
    hide CountOf;
    CreateLinked(s, e);
    CountZero(s.claims, e.id) by { assert forall a :: a in s.claims ==> a.job != e.id; }
    forall k | k in Step(s, e).jobs ensures Together(Step(s, e), k) { if k != e.id { assert Together(s, k); } }
  }

  lemma CreateFenced(s: Store, e: Event)
    requires Fenced(s) && e.Create? && Fresh(s, e)
    ensures Fenced(Step(s, e))
  {
  }

  lemma CreateActive(s: Store, e: Event)
    requires Linked(s) && ActiveOpen(s) && ActiveOwned(s) && e.Create? && Fresh(s, e)
    ensures ActiveOpen(Step(s, e)) && ActiveOwned(Step(s, e))
  {
  }

  lemma StepKeeps(s: Store, e: Event)
    requires Inv(s)
    ensures Inv(Step(s, e))
  {
    hide AllTogether, Fenced, ActiveOpen, ActiveOwned, FinishResources, TakeJob, DoWork, Due, FailureOutcome;
    match e
    case Create(_, _, _, _, _, _, _) => CreateKeeps(s, e);
    case Claim(now, until) =>
      var due := FirstSuch(s.order, DueIn(s.jobs, now));
      if due.Some? { TakeKeeps(s, due.value, now, until); }
    case Commit(id, attempt, now, work) =>
      if Disowned(s, id, attempt, now, false).None? {
        WorkKeeps(s, id, work);
        RecordEffect(DoWork(s, id, work), id, attempt, false);
      }
    case Fail(id, attempt, now, outcome) =>
      if Disowned(s, id, attempt, now, true).None? { FailKeeps(s, id, attempt, now, outcome); }
    case RequestCancel(operation, now) => CancelKeeps(s, operation, now);
    case MarkCancel(operation) => if operation in s.operations { MarkKeeps(s, operation); }
  }

  lemma FailKeeps(s: Store, id: Id, attempt: nat, now: int, outcome: WorkStatus)
    requires Inv(s) && Disowned(s, id, attempt, now, true).None?
    ensures Inv(Step(s, Fail(id, attempt, now, outcome)))
  {
    hide AllTogether, Fenced, ActiveOpen, ActiveOwned;
    var final := FailureOutcome(s, id, outcome);
    var t := FinishResources(s, id, final);
    FinishKeeps(s, id, final);
    RecordEffect(t, id, attempt, s.operations[s.jobs[id].operation].cancelRequested);
  }

  lemma CancelKeeps(s: Store, operation: Id, now: int)
    requires Inv(s)
    ensures Inv(Step(s, RequestCancel(operation, now)))
  {
    hide AllTogether, Fenced, ActiveOpen, ActiveOwned, FinishResources;
    var found := JobOf(s.jobs, s.order, operation);
    if found.Some? && operation in s.operations && !Terminal(s.operations[operation].status) && !s.operations[operation].cancelRequested {
      MarkKeeps(s, operation);
      FinishKeeps(s.(operations := s.operations[operation := s.operations[operation].(cancelRequested := true)]), found.value, Cancelled);
    }
  }

  lemma {:induction false} JobInvariant(es: seq<Event>)
    ensures Inv(Exec(Empty(), es))
  {
    hide Step;
    if es != [] {
      JobInvariant(es[..|es| - 1]);
      StepKeeps(Exec(Empty(), es[..|es| - 1]), es[|es| - 1]);
    }
  }

  // ---------------------------------------------------------------- what the lease promises

  // Over any run: attempts of one job write one after another, never an older after a newer one; no
  // job is handed out more often than allowed; and job, operation and run always end together.
  lemma LeaseSafety(es: seq<Event>)
    ensures var s := Exec(Empty(), es);
            && (forall i, k :: 0 <= i < k < |s.effects| && s.effects[i].job == s.effects[k].job ==> s.effects[i].attempt <= s.effects[k].attempt)
            && (forall id :: id in s.jobs ==> CountOf(s.claims, id) == s.jobs[id].attempts <= s.jobs[id].maxAttempts)
            && (forall id :: id in s.jobs ==>
                  && s.jobs[id].operation in s.operations && s.jobs[id].record in s.records
                  && (Ended(s.jobs[id]) <==> Terminal(s.operations[s.jobs[id].operation].status))
                  && (Ended(s.jobs[id]) <==> Terminal(s.records[s.jobs[id].record])))
            && ActiveOpen(s)
  {
    hide Exec, CountOf;
    JobInvariant(es);
    var s := Exec(Empty(), es);
    forall id | id in s.jobs ensures Together(s, id) {}
  }

  // Whoever writes holds the newest claim and an unexpired lease on an operation still open; a
  // cancelled operation admits only the write that ends it.
  lemma EffectIsOwned(s: Store, e: Event)
    requires Inv(s)
    ensures var t := Step(s, e);
            t.effects != s.effects ==>
              && (e.Commit? || e.Fail?) && e.id in s.jobs && t.effects == s.effects + [t.effects[|s.effects|]]
              && t.effects[|s.effects|].job == e.id && t.effects[|s.effects|].attempt == e.attempt == CountOf(s.claims, e.id)
              && s.jobs[e.id].lease.Some? && e.now < s.jobs[e.id].lease.value
              && !Terminal(s.operations[s.jobs[e.id].operation].status)
              && (s.operations[s.jobs[e.id].operation].cancelRequested ==> e.Fail? && t.operations[s.jobs[e.id].operation].status == Cancelled)
  {
    hide CountOf, Fenced, ActiveOpen, ActiveOwned, JobOf, Release;
    if (e.Commit? || e.Fail?) && e.id in s.jobs { assert Together(s, e.id); }
  }

  // An ended operation keeps its status for good, and its job never writes again.
  lemma {:induction false} EndedForever(s: Store, es: seq<Event>, id: Id)
    requires Inv(s) && id in s.jobs && Terminal(s.operations[s.jobs[id].operation].status)
    ensures var t := Exec(s, es);
            Inv(t) && Settled(s, t, id)
  {
    hide Step, CountOf, Fenced, ActiveOpen, ActiveOwned;
    if es != [] {
      var mid := Exec(s, es[..|es| - 1]);
      EndedForever(s, es[..|es| - 1], id);
      StepKeeps(mid, es[|es| - 1]);
      EndedStep(mid, es[|es| - 1], id);
    }
  }

  // Nothing of an ended job moves.
  predicate Settled(s: Store, t: Store, id: Id)
    requires id in s.jobs && s.jobs[id].operation in s.operations && s.jobs[id].record in s.records
  {
    && id in t.jobs && t.jobs[id] == s.jobs[id]
    && s.jobs[id].operation in t.operations && t.operations[s.jobs[id].operation].status == s.operations[s.jobs[id].operation].status
    && s.jobs[id].record in t.records && t.records[s.jobs[id].record] == s.records[s.jobs[id].record]
    && CountOf(t.effects, id) == CountOf(s.effects, id) && CountOf(t.claims, id) == CountOf(s.claims, id)
  }

  lemma ClosingSettles(s: Store, t: Store, k: Id, id: Id)
    requires Inv(s) && id in s.jobs && k in s.jobs && k != id && Closes(s, t, k)
    ensures Settled(s, t, id)
  {
    hide CountOf, Fenced, ActiveOpen, ActiveOwned;
  }

  lemma FinishSettles(s: Store, k: Id, outcome: WorkStatus, id: Id)
    requires Inv(s) && id in s.jobs && k in s.jobs && k != id && Terminal(outcome)
    ensures Settled(s, FinishResources(s, k, outcome), id)
  {
    hide CountOf, Fenced, ActiveOpen, ActiveOwned, FinishResources, Closes;
    FinishCloses(s, k, outcome);
    if FinishResources(s, k, outcome) != s { ClosingSettles(s, FinishResources(s, k, outcome), k, id); }
  }

  lemma TakeSettles(s: Store, k: Id, now: int, until: int, id: Id)
    requires Inv(s) && id in s.jobs && k in s.jobs && k != id
    ensures Settled(s, TakeJob(s, k, now, until), id)
  {
    hide CountOf, Fenced, ActiveOpen, ActiveOwned, FinishResources;
    FinishSettles(s, k, Cancelled, id);
    FinishSettles(s, k, Failed, id);
    CountAppend(s.claims, Effect(k, s.jobs[k].attempts + 1, false), id);
  }

  lemma WorkSettles(s: Store, k: Id, work: Work, id: Id)
    requires Inv(s) && id in s.jobs && k in s.jobs && k != id
    ensures Settled(s, DoWork(s, k, work), id)
  {
    hide CountOf, Fenced, ActiveOpen, ActiveOwned;
  }

  lemma EffectSettles(s: Store, t: Store, a: Effect, id: Id)
    requires Linked(s) && id in s.jobs && Settled(s, t, id) && a.job != id
    ensures Settled(s, t.(effects := t.effects + [a]), id)
  {
    hide CountOf;
    CountAppend(t.effects, a, id);
  }

  lemma EndedStep(s: Store, e: Event, id: Id)
    requires Inv(s) && id in s.jobs && Terminal(s.operations[s.jobs[id].operation].status)
    ensures Settled(s, Step(s, e), id)
  {
    hide CountOf, Fenced, ActiveOpen, ActiveOwned, FinishResources, TakeJob, DoWork, JobOf;
    assert Together(s, id);
    match e
    case Create(_, _, _, _, _, _, _) =>
    case Claim(now, until) =>
      var due := FirstSuch(s.order, DueIn(s.jobs, now));
      if due.Some? { TakeSettles(s, due.value, now, until, id); }
    case Commit(k, attempt, now, work) =>
      if Disowned(s, k, attempt, now, false).None? {
        WorkSettles(s, k, work, id);
        WorkEffects(s, k, work);
        EffectSettles(s, DoWork(s, k, work), Effect(k, attempt, false), id);
      }
    case Fail(k, attempt, now, outcome) =>
      if Disowned(s, k, attempt, now, true).None? {
        var final := FailureOutcome(s, k, outcome);
        FinishSettles(s, k, final, id);
        FinishEffects(s, k, final);
        EffectSettles(s, FinishResources(s, k, final), Effect(k, attempt, s.operations[s.jobs[k].operation].cancelRequested), id);
      }
    case RequestCancel(operation, now) => EndedCancel(s, operation, now, id);
    case MarkCancel(operation) =>
  }

  lemma WorkEffects(s: Store, k: Id, work: Work)
    requires k in s.jobs && s.jobs[k].operation in s.operations
    ensures DoWork(s, k, work).effects == s.effects
  {
  }

  lemma FinishEffects(s: Store, k: Id, outcome: WorkStatus)
    requires k in s.jobs
    ensures FinishResources(s, k, outcome).effects == s.effects
  {
  }

  lemma EndedCancel(s: Store, operation: Id, now: int, id: Id)
    requires Inv(s) && id in s.jobs && Terminal(s.operations[s.jobs[id].operation].status)
    ensures Settled(s, Step(s, RequestCancel(operation, now)), id)
  {
    hide CountOf, Fenced, ActiveOpen, ActiveOwned, FinishResources;
    var found := JobOf(s.jobs, s.order, operation);
    if found.Some? && operation in s.operations && !Terminal(s.operations[operation].status) && !s.operations[operation].cancelRequested {
      var marked := s.(operations := s.operations[operation := s.operations[operation].(cancelRequested := true)]);
      MarkKeeps(s, operation);
      FinishSettles(marked, found.value, Cancelled, id);
    }
  }

  // A cancelled operation is still open or ended as cancelled.
  predicate Cancelling(s: Store, id: Id) {
    && id in s.jobs && s.jobs[id].operation in s.operations
    && s.operations[s.jobs[id].operation].cancelRequested && s.operations[s.jobs[id].operation].status in {Open, Cancelled}
  }

  // After a cancellation was requested the operation can only end as cancelled, however long its
  // worker goes on.
  lemma {:induction false} CancelWins(s: Store, es: seq<Event>, id: Id)
    requires Inv(s) && Cancelling(s, id)
    ensures Inv(Exec(s, es)) && Cancelling(Exec(s, es), id)
  {
    hide Step, Inv, Cancelling;
    if es != [] {
      var mid := Exec(s, es[..|es| - 1]);
      CancelWins(s, es[..|es| - 1], id);
      StepKeeps(mid, es[|es| - 1]);
      CancelStep(mid, es[|es| - 1], id);
    }
  }

  lemma CancelFinish(s: Store, k: Id, outcome: WorkStatus, id: Id)
    requires Inv(s) && Cancelling(s, id) && k in s.jobs && Terminal(outcome) && (k == id ==> outcome == Cancelled)
    ensures Cancelling(FinishResources(s, k, outcome), id)
  {
    hide CountOf, Fenced, ActiveOpen, ActiveOwned, Release, Together;
  }

  lemma CancelTake(s: Store, k: Id, now: int, until: int, id: Id)
    requires Inv(s) && Cancelling(s, id) && k in s.jobs
    ensures Cancelling(TakeJob(s, k, now, until), id)
  {
    hide CountOf, Fenced, ActiveOpen, ActiveOwned, FinishResources, Together;
    if k != id { CancelFinish(s, k, Failed, id); }
    CancelFinish(s, k, Cancelled, id);
  }

  lemma CancelStep(s: Store, e: Event, id: Id)
    requires Inv(s) && Cancelling(s, id)
    ensures Cancelling(Step(s, e), id)
  {
    hide CountOf, Fenced, ActiveOpen, ActiveOwned, FinishResources, TakeJob, JobOf, Together;
    match e
    case Create(_, _, _, _, _, _, _) =>
    case Claim(now, until) =>
      var due := FirstSuch(s.order, DueIn(s.jobs, now));
      if due.Some? { CancelTake(s, due.value, now, until, id); }
    case Commit(_, _, _, _) =>
    case Fail(k, attempt, now, outcome) =>
      if Disowned(s, k, attempt, now, true).None? { CancelFinish(s, k, FailureOutcome(s, k, outcome), id); }
    case RequestCancel(operation, now) =>
      var found := JobOf(s.jobs, s.order, operation);
      if found.Some? && operation in s.operations && !s.operations[operation].cancelRequested {
        MarkKeeps(s, operation);
        CancelFinish(s.(operations := s.operations[operation := s.operations[operation].(cancelRequested := true)]), found.value, Cancelled, id);
      }
    case MarkCancel(operation) =>
  }
}
