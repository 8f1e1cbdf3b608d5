/**
 What each transaction of the job queue does, said of statuses, leases and attempts alone, and that a
 live lease keeps every other worker away.
 */
module JobLeases {
  import opened Prelude
  import opened JobControl

  // ---------------------------------------------------------------- claiming

  predicate Claimable(j: Job, now: int) {
    j.availableAt <= now && (j.status == JobQueued || (j.status == JobProcessing && j.lease.Some? && j.lease.value < now))
  }

  predicate IsFirstClaimable(s: Store, now: int, i: nat) {
    && i < |s.order| && s.order[i] in s.jobs && Claimable(s.jobs[s.order[i]], now)
    && forall k :: 0 <= k < i && s.order[k] in s.jobs ==> !Claimable(s.jobs[s.order[k]], now)
  }

  // A claim leaves every job alone that is not available yet, has ended or is held by a live lease.
  lemma ClaimRespectsLease(s: Store, now: int, until: int, id: Id)
    requires id in s.jobs && !Claimable(s.jobs[id], now)
    ensures var t := Step(s, Claim(now, until)); id in t.jobs && t.jobs[id] == s.jobs[id] && CountOf(t.claims, id) == CountOf(s.claims, id)
  {
    hide CountOf;
    var due := FirstSuch(s.order, DueIn(s.jobs, now));
    if due.Some? {
      CountAppend(s.claims, Effect(due.value, s.jobs[due.value].attempts + 1, false), id);
    }
  }

  predicate NothingElse(s: Store, t: Store) {
    t.order == s.order && t.effects == s.effects
  }

  // The job ends with its operation, its record and the pointer of its collector.
  predicate EndsAs(s: Store, t: Store, id: Id, outcome: WorkStatus)
    requires id in s.jobs && s.jobs[id].operation in s.operations
  {
    var j := s.jobs[id];
    && t.jobs == s.jobs[id := j.(status := JobFailed, lease := None)] && t.claims == s.claims && t.order == s.order
    && t.operations == s.operations[j.operation := s.operations[j.operation].(status := outcome)] && t.records == s.records[j.record := outcome]
    && t.active == if j.collector in s.active && s.active[j.collector] == Some(j.operation) then s.active[j.collector := None] else s.active
  }

  // Ending the resources of a job ends all of them together, and leaves an ended operation alone.
  lemma EndingMeans(s: Store, id: Id, outcome: WorkStatus)
    requires id in s.jobs
    ensures var t, o := FinishResources(s, id, outcome), s.jobs[id].operation;
            if o in s.operations && s.operations[o].status == Open then EndsAs(s, t, id, outcome) && t.effects == s.effects else t == s
  {
  }

  // The first claimable job is completed without work when its operation is gone or has ended, ends as
  // cancelled or failed when that was requested or its attempts are used up, and otherwise gets its next
  // attempt and the new lease.
  lemma ClaimMeans(s: Store, now: int, until: int, i: nat)
    requires IsFirstClaimable(s, now, i)
    ensures var id, j, t := s.order[i], s.jobs[s.order[i]], Step(s, Claim(now, until));
            && NothingElse(s, t)
            && if j.operation !in s.operations || s.operations[j.operation].status != Open then
                 t == s.(jobs := s.jobs[id := j.(status := JobCompleted, lease := None)])
               else if s.operations[j.operation].cancelRequested then EndsAs(s, t, id, Cancelled)
               else if j.attempts >= j.maxAttempts then EndsAs(s, t, id, Failed)
               else t == s.(jobs := s.jobs[id := j.(status := JobProcessing, attempts := j.attempts + 1, lease := Some(until))],
                            claims := s.claims + [Effect(id, j.attempts + 1, false)])
  {
    FirstIs(s.order, DueIn(s.jobs, now), i);
  }

  lemma ClaimFindsNone(s: Store, now: int, until: int)
    requires forall id :: id in s.order && id in s.jobs ==> !Claimable(s.jobs[id], now)
    ensures Step(s, Claim(now, until)) == s
  {
  }

  // ---------------------------------------------------------------- a live lease

  // The attempt holds its job until then at least, or the job has ended.
  predicate HeldUntil(j: Job, attempt: nat, until: int) {
    j.attempts == attempt && j.status != JobQueued && (j.status == JobProcessing ==> j.lease.Some? && until <= j.lease.value)
  }

  // What leaves the lease its time: claims before its end, and renewals of the job that do not shorten it.
  predicate InTime(e: Event, id: Id, until: int) {
    && (e.Claim? ==> e.now <= until)
    && (e.Commit? && e.id == id && e.work.Renew? ==> until <= e.work.until)
  }

  lemma HeldClaim(s: Store, now: int, until: int, id: Id, attempt: nat, end: int)
    requires id in s.jobs && HeldUntil(s.jobs[id], attempt, end) && now <= end
    ensures var t := Step(s, Claim(now, until)); id in t.jobs && HeldUntil(t.jobs[id], attempt, end) && CountOf(t.claims, id) == CountOf(s.claims, id)
  {
    hide CountOf, Step;
    ClaimRespectsLease(s, now, until, id);
  }

  lemma HeldOther(s: Store, e: Event, id: Id, attempt: nat, until: int)
    requires Inv(s) && id in s.jobs && HeldUntil(s.jobs[id], attempt, until) && InTime(e, id, until) && !e.Claim?
    ensures var t := Step(s, e); id in t.jobs && HeldUntil(t.jobs[id], attempt, until) && t.claims == s.claims
  {
    hide Inv, CountOf, FailureOutcome;
  }

  lemma {:induction false} HeldFor(s: Store, es: seq<Event>, id: Id, attempt: nat, until: int)
    requires Inv(s) && id in s.jobs && HeldUntil(s.jobs[id], attempt, until) && forall e :: e in es ==> InTime(e, id, until)
    ensures var t := Exec(s, es);
            Inv(t) && id in t.jobs && HeldUntil(t.jobs[id], attempt, until) && CountOf(t.claims, id) == CountOf(s.claims, id)
  {
    hide Inv, Step, HeldUntil, CountOf, InTime;
    if es != [] {
      var front, last := es[..|es| - 1], es[|es| - 1];
      assert last in es && forall e :: e in front ==> e in es;
      var mid := Exec(s, front);
      HeldFor(s, front, id, attempt, until);
      StepKeeps(mid, last);
      if last.Claim? {
        InTimeClaim(last, id, until);
        HeldClaim(mid, last.now, last.until, id, attempt, until);
      } else {
        HeldOther(mid, last, id, attempt, until);
      }
    }
  }

  lemma InTimeClaim(e: Event, id: Id, until: int)
    requires e.Claim? && InTime(e, id, until)
    ensures e.now <= until
  {
  }

  // Over any run: from a claim to the end of its lease nobody else is handed the job, whatever other
  // workers, cancellations and renewals come between.
  lemma LeaseProtects(s: Store, now: int, until: int, id: Id, attempt: nat, es: seq<Event>)
    requires Inv(s) && Step(s, Claim(now, until)).claims == s.claims + [Effect(id, attempt, false)]
    requires forall e :: e in es ==> InTime(e, id, until)
    ensures var t := Exec(Step(s, Claim(now, until)), es);
            id in t.jobs && t.jobs[id].attempts == attempt && CountOf(t.claims, id) == CountOf(s.claims, id) + 1
  {
    hide Inv, CountOf, Exec, InTime;
    StepKeeps(s, Claim(now, until));
    CountAppend(s.claims, Effect(id, attempt, false), id);
    ClaimedIsHeld(s, now, until, id, attempt);
    HeldFor(Step(s, Claim(now, until)), es, id, attempt, until);
  }

  lemma ClaimedIsHeld(s: Store, now: int, until: int, id: Id, attempt: nat)
    requires Step(s, Claim(now, until)).claims == s.claims + [Effect(id, attempt, false)]
    ensures var t := Step(s, Claim(now, until)); id in t.jobs && HeldUntil(t.jobs[id], attempt, until)
  {
    assert (s.claims + [Effect(id, attempt, false)])[|s.claims|] == Effect(id, attempt, false);
    assert s.claims + [Effect(id, attempt, false)] != s.claims;
  }

  // ---------------------------------------------------------------- the other transactions

  // Who may write: the attempt counted last, while its lease lasts and its operation is open.
  predicate Writes(s: Store, id: Id, attempt: nat, now: int, evenCancelled: bool) {
    && id in s.jobs && s.jobs[id].status == JobProcessing && s.jobs[id].attempts == attempt
    && s.jobs[id].lease.Some? && now < s.jobs[id].lease.value
    && s.jobs[id].operation in s.operations && s.operations[s.jobs[id].operation].status == Open
    && (s.operations[s.jobs[id].operation].cancelRequested ==> evenCancelled)
  }

  lemma OwnershipCases(s: Store, id: Id, attempt: nat, now: int)
    ensures Disowned(s, id, attempt, now, false).None? <==> Writes(s, id, attempt, now, false)
    ensures Disowned(s, id, attempt, now, true).None? <==> Writes(s, id, attempt, now, true)
    ensures Disowned(s, id, attempt, now, false) == Some(CancelledMeanwhile) <==>
              Writes(s, id, attempt, now, true) && s.operations[s.jobs[id].operation].cancelRequested
  {
  }

  // A write that is allowed is recorded and does its work; any other changes nothing.
  lemma CommitMeans(s: Store, id: Id, attempt: nat, now: int, work: Work)
    ensures var t := Step(s, Commit(id, attempt, now, work));
            if !Writes(s, id, attempt, now, false) then t == s
            else
              var j := s.jobs[id];
              && t.effects == s.effects + [Effect(id, attempt, false)] && t.claims == s.claims && t.order == s.order
              && match work
                 case Progress => t == s.(effects := t.effects)
                 case Renew(until) => t == s.(effects := t.effects, jobs := s.jobs[id := j.(lease := Some(until))])
                 case Succeed(final) =>
                   && t.jobs == s.jobs[id := j.(status := JobCompleted, lease := None)]
                   && t.operations == s.operations[j.operation := s.operations[j.operation].(status := Succeeded)]
                   && t.records == s.records[j.record := if j.explore || final == Open then Succeeded else final]
                   && t.active == if j.collector in s.active then s.active[j.collector := None] else s.active
  {
    hide Disowned;
    OwnershipCases(s, id, attempt, now);
  }

  // The failure path ends the job: as cancelled when that was requested or the worker was told so, as
  // timed out when it ran out of time, and otherwise as failed.
  lemma FailMeans(s: Store, id: Id, attempt: nat, now: int, outcome: WorkStatus)
    ensures var t := Step(s, Fail(id, attempt, now, outcome));
            if !Writes(s, id, attempt, now, true) then t == s
            else
              var asked := s.operations[s.jobs[id].operation].cancelRequested;
              && EndsAs(s, t, id, if asked || outcome == Cancelled then Cancelled else if outcome == TimedOut then TimedOut else Failed)
              && t.effects == s.effects + [Effect(id, attempt, asked)]
  {
    hide Disowned;
    OwnershipCases(s, id, attempt, now);
  }

  // A cancel request marks the open operation of a known job, and ends the job at once exactly when no
  // live lease holds it.
  lemma RequestCancelMeans(s: Store, operation: Id, now: int, id: Id)
    requires Inv(s) && id in s.jobs && s.jobs[id].operation == operation
    ensures var t, j := Step(s, RequestCancel(operation, now)), s.jobs[id];
            && operation in s.operations && NothingElse(s, t)
            && if s.operations[operation].status != Open || s.operations[operation].cancelRequested then t == s
               else
                 var marked := s.(operations := s.operations[operation := s.operations[operation].(cancelRequested := true)]);
                 if j.status == JobProcessing && j.lease.Some? && now < j.lease.value then t == marked else EndsAs(marked, t, id, Cancelled)
  {
    hide CountOf, Fenced, ActiveOpen, ActiveOwned;
    assert Together(s, id);
    TheJobOf(s, s.order, operation, id);
  }

  lemma {:induction false} TheJobOf(s: Store, ids: seq<Id>, operation: Id, id: Id)
    requires Linked(s) && id in s.jobs && s.jobs[id].operation == operation && id in ids
    ensures JobOf(s.jobs, ids, operation) == Some(id)
  {
    if !(ids[0] in s.jobs && s.jobs[ids[0]].operation == operation) {
      assert ids == [ids[0]] + ids[1..];
      TheJobOf(s, ids[1..], operation, id);
    }
  }

  // A new job waits with no attempt behind it, its operation open and its collector pointing there.
  lemma CreateMeans(s: Store, e: Event)
    requires e.Create?
    ensures var t := Step(s, e);
            if e.id !in s.jobs && e.operation !in s.operations && e.record !in s.records && (e.collector in s.active ==> s.active[e.collector].None?) then
              && t.jobs == s.jobs[e.id := Job(e.operation, e.record, e.collector, e.explore, JobQueued, 0, None, e.availableAt, e.maxAttempts)]
              && t.order == s.order + [e.id] && t.operations == s.operations[e.operation := Operation(Open, false)]
              && t.records == s.records[e.record := Open] && t.active == s.active[e.collector := Some(e.operation)]
              && t.claims == s.claims && t.effects == s.effects
            else t == s
  {
  }
}
