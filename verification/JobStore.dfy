/**
 The job transactions as they update the stored rows in place; each is proved to be a step of
 JobControl.
 */
module JobStore {
  import opened Prelude
  import opened JobControl

  class Jobs {
    var jobs: map<Id, Job>
    var order: seq<Id>
    var operations: map<Id, Operation>
    var records: map<Id, WorkStatus>
    var active: map<Id, Option<Id>>
    ghost var claims: seq<Effect>
    ghost var effects: seq<Effect>

    ghost function Current(): Store
      reads this
    {
      Store(jobs, order, operations, records, active, claims, effects)
    }

    // The checks of `owned_transaction`: it admits the newest attempt of a job, while its lease lasts and
    // its operation is open, and nobody else; a cancel request is the only other obstacle.
    method Owns(id: Id, attempt: nat, now: int, allowCancel: bool) returns (refusal: Option<Refusal>)
      ensures refusal == Disowned(Current(), id, attempt, now, allowCancel)
      ensures Inv(Current()) ==>
                && (refusal.None? <==> HoldsLease(Current(), id, attempt, now) && (CancelAsked(Current(), id) ==> allowCancel))
                && (refusal == Some(CancelledMeanwhile) <==> HoldsLease(Current(), id, attempt, now) && CancelAsked(Current(), id) && !allowCancel)
    {
      hide Inv;
      ghost var s := Current();
      if Inv(s) { OwnershipMeaning(s, id, attempt, now, allowCancel); }
      if id !in jobs { return Some(LeaseLost); }
      var row := jobs[id];
      if row.status != JobProcessing || row.attempts != attempt || row.lease.None? || row.lease.value <= now { return Some(LeaseLost); }
      if row.operation !in operations || Terminal(operations[row.operation].status) { return Some(LeaseLost); }
      if operations[row.operation].cancelRequested && !allowCancel { return Some(CancelledMeanwhile); }
      refusal := None;
    }

    method RenewJob(id: Id, attempt: nat, now: int, until: int) returns (refusal: Option<Refusal>)
      modifies this
      ensures Current() == Step(old(Current()), Commit(id, attempt, now, Renew(until)))
      ensures old(Inv(Current())) ==> Inv(Current())
      ensures refusal == old(Disowned(Current(), id, attempt, now, false))
    {
      hide Inv;
      ghost var s := Current();
      if Inv(s) { StepKeeps(s, Commit(id, attempt, now, Renew(until))); }
      refusal := Owns(id, attempt, now, false);
      if refusal.Some? { return; }
      jobs := jobs[id := jobs[id].(lease := Some(until))];
      effects := effects + [Effect(id, attempt, false)];
    }

    method EndResources(id: Id, outcome: WorkStatus)
      requires id in jobs
      modifies this`jobs, this`operations, this`records, this`active
      ensures Current() == FinishResources(old(Current()), id, outcome)
      ensures old(Inv(Current())) && Terminal(outcome) ==> Inv(Current())
    {
      hide Inv;
      ghost var s := Current();
      if Inv(s) && Terminal(outcome) { FinishKeeps(s, id, outcome); }
      var row := jobs[id];
      if row.operation !in operations || Terminal(operations[row.operation].status) { return; }
      records := records[row.record := outcome];
      operations := operations[row.operation := operations[row.operation].(status := outcome)];
      if row.collector in active && active[row.collector] == Some(row.operation) { active := active[row.collector := None]; }
      jobs := jobs[id := row.(status := JobFailed, lease := None)];
    }

    method ClaimJob(now: int, until: int) returns (job: Option<(Id, nat)>)
      modifies this
      ensures Current() == Step(old(Current()), Claim(now, until))
      ensures old(Inv(Current())) ==> Inv(Current())
      ensures job.Some? <==> claims != old(claims)
      ensures job.Some? ==> job.value.0 in jobs && jobs[job.value.0].attempts == job.value.1 && jobs[job.value.0].lease == Some(until)
    {
      hide FinishResources, Inv;
      ghost var s := Current();
      if Inv(s) { StepKeeps(s, Claim(now, until)); }
      var due := FirstSuch(order, DueIn(jobs, now));
      if due.None? { return None; }
      var id := due.value;
      var row := jobs[id];
      FinishKeepsClaims(Current(), id);
      if row.operation !in operations || Terminal(operations[row.operation].status) {
        jobs := jobs[id := row.(status := JobCompleted, lease := None)];
        return None;
      }
      if operations[row.operation].cancelRequested || row.attempts >= row.maxAttempts {
        EndResources(id, if operations[row.operation].cancelRequested then Cancelled else Failed);
        return None;
      }
      jobs := jobs[id := row.(status := JobProcessing, attempts := row.attempts + 1, lease := Some(until))];
      claims := claims + [Effect(id, row.attempts + 1, false)];
      job := Some((id, row.attempts + 1));
    }

    // The failure path of the worker.
    method FailJob(id: Id, attempt: nat, now: int, outcome: WorkStatus) returns (refusal: Option<Refusal>)
      modifies this
      ensures Current() == Step(old(Current()), Fail(id, attempt, now, outcome))
      ensures old(Inv(Current())) ==> Inv(Current())
      ensures refusal == old(Disowned(Current(), id, attempt, now, true))
    {
      hide FinishResources, Inv;
      ghost var s := Current();
      if Inv(s) { StepKeeps(s, Fail(id, attempt, now, outcome)); }
      refusal := Owns(id, attempt, now, true);
      if refusal.Some? { return; }
      var cancelled := operations[jobs[id].operation].cancelRequested;
      EndResources(id, if cancelled then Cancelled else if outcome == Cancelled || outcome == TimedOut then outcome else Failed);
      FinishEffects(s, id, FailureOutcome(s, id, outcome));
      effects := effects + [Effect(id, attempt, cancelled)];
    }

    method CancelOperation(operation: Id, now: int)
      modifies this
      ensures Current() == Step(old(Current()), RequestCancel(operation, now))
      ensures old(Inv(Current())) ==> Inv(Current())
    {
      hide FinishResources, Inv;
      ghost var s := Current();
      if Inv(s) { StepKeeps(s, RequestCancel(operation, now)); }
      var found := JobOf(jobs, order, operation);
      if found.None? || operation !in operations { return; }
      if Terminal(operations[operation].status) || operations[operation].cancelRequested { return; }
      operations := operations[operation := operations[operation].(cancelRequested := true)];
      var row := jobs[found.value];
      if row.status == JobQueued || row.lease.None? || row.lease.value <= now { EndResources(found.value, Cancelled); }
    }
  }

  // The attempt handed out last, with time left on its lease and its operation still open.
  predicate HoldsLease(s: Store, id: Id, attempt: nat, now: int) {
    && id in s.jobs && CountOf(s.claims, id) == attempt && s.jobs[id].lease.Some? && now < s.jobs[id].lease.value
    && s.jobs[id].operation in s.operations && !Terminal(s.operations[s.jobs[id].operation].status)
  }

  predicate CancelAsked(s: Store, id: Id) {
    id in s.jobs && s.jobs[id].operation in s.operations && s.operations[s.jobs[id].operation].cancelRequested
  }

  lemma OwnershipMeaning(s: Store, id: Id, attempt: nat, now: int, allowCancel: bool)
    requires Inv(s)
    ensures var refusal := Disowned(s, id, attempt, now, allowCancel);
            && (refusal.None? <==> HoldsLease(s, id, attempt, now) && (CancelAsked(s, id) ==> allowCancel))
            && (refusal == Some(CancelledMeanwhile) <==> HoldsLease(s, id, attempt, now) && CancelAsked(s, id) && !allowCancel)
  {
    hide CountOf, Fenced, ActiveOpen, ActiveOwned;
    if id in s.jobs { assert Together(s, id); }
  }

  // So two attempts can never write at the same time.
  lemma OneOwner(s: Store, id: Id, a: nat, b: nat, now: int)
    requires Inv(s) && Disowned(s, id, a, now, true).None? && Disowned(s, id, b, now, true).None?
    ensures a == b == CountOf(s.claims, id)
  {
    hide Inv, Disowned;
    OwnershipMeaning(s, id, a, now, true);
    OwnershipMeaning(s, id, b, now, true);
  }

  lemma FinishKeepsClaims(s: Store, id: Id)
    requires id in s.jobs
    ensures forall outcome :: FinishResources(s, id, outcome).claims == s.claims
  {
  }
}
