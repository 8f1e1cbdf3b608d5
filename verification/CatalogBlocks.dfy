/**
 What each step of a row does to its host, its batch and its result, said of the ledger alone, and
 that a failure keeps the runner away from its host for good.
 */
module CatalogBlocks {
  import opened Prelude
  import opened CatalogModel
  import opened CatalogSafety
  import opened CatalogTheorems

  // ---------------------------------------------------------------- budgets

  // The first of these that is used up is the reason a batch stops; a recorded reason stays.
  lemma BudgetMeans(c: Setup, l: Ledger, now: int)
    ensures Budget(c, l, now).None? <==>
              l.stop.None? && l.requests < c.limits.maxRequests && l.bytes < c.limits.maxBytes && now - l.startedAt < c.limits.maxSeconds
    ensures l.stop.Some? ==> Budget(c, l, now) == l.stop
    ensures l.stop.None? && l.requests >= c.limits.maxRequests ==> Budget(c, l, now) == Some(RequestBudget)
    ensures l.stop.None? && l.requests < c.limits.maxRequests && l.bytes >= c.limits.maxBytes ==> Budget(c, l, now) == Some(BytesBudget)
    ensures l.stop.None? && l.requests < c.limits.maxRequests && l.bytes < c.limits.maxBytes && Budget(c, l, now).Some? ==>
              Budget(c, l, now) == Some(Duration)
  {
  }

  predicate WithinBatch(c: Setup, l: Ledger, now: int) {
    l.stop.None? && l.requests < c.limits.maxRequests && l.bytes < c.limits.maxBytes && now - l.startedAt < c.limits.maxSeconds
  }

  function RowLimit(c: Setup, id: Id): nat
    requires id in c.entries
  {
    if c.entries[id].group == MainGroup || id in c.opted then c.limits.mainRequests else c.limits.reviewRequests
  }

  function Spent(l: Ledger, id: Id): nat {
    if id in l.rowRequests then l.rowRequests[id] else 0
  }

  // ---------------------------------------------------------------- entering a row

  // A row takes the lock of its host when no other row holds it, and enters when a slot is free too.
  lemma LockMeans(c: Setup, s: System, id: Id, now: int)
    requires id in c.entries && id in s.tasks && s.tasks[id].Pending?
    ensures var o := Perform(c, s, id, now, Lock);
            && o.ledger == s.ledger && o.request.None?
            && (o.task == Locked <==>
                  forall j :: j in s.tasks && j in c.entries && !(s.tasks[j].Pending? || s.tasks[j].Ended?)
                    ==> (if c.entries[j].invalid.Some? then Host("") else c.entries[j].host)
                        != (if c.entries[id].invalid.Some? then Host("") else c.entries[id].host))
            && (o.task != Locked ==> o.task == Pending)
  {
  }

  predicate Records(c: Setup, l: Ledger, m: Ledger, id: Id, status: Status, reason: string, tested: bool)
    requires id in c.entries
  {
    && id in m.results && m.results == l.results[id := m.results[id]] && m.running == l.running - {id}
    && m.requests == l.requests && m.rowRequests == l.rowRequests && m.bytes == l.bytes
    && m.results[id] == RowResult(id, status, reason, Some(Spent(l, id)), tested,
                                  Some(if c.entries[id].group == MainGroup then MainDetailSamples
                                       else if id in c.opted then ReviewDetailSamples else ListDiagnosticOnly))
  }

  // Entering skips a row with a result, stops at a used-up budget, refuses an invalid or historical entry,
  // ends a row behind a blocked host, and otherwise lets the row run.
  predicate Entered(c: Setup, l: Ledger, id: Id, now: int, o: Outcome)
    requires id in c.entries
  {
    var e, m := c.entries[id], o.ledger;
    var known := e.host in l.hosts;
    && o.request.None?
    && if id in l.results then m == l && o.task == Ended
       else if !WithinBatch(c, l, now) then m == l.(stop := Budget(c, l, now)) && o.task == Ended
       else if e.invalid.Some? then Records(c, l, m, id, InvalidInput, e.invalid.value, false) && m.hosts == l.hosts && m.stop == l.stop && o.task == Ended
       else if e.historical.Some? then Records(c, l, m, id, Restricted, e.historical.value, false) && m.hosts == l.hosts && m.stop == l.stop && o.task == Ended
       else
         && m.hosts == l.hosts[e.host := if known then l.hosts[e.host] else HostState(None, 0)] && m.stop == l.stop
         && if known && l.hosts[e.host].blocked.Some? then
              Records(c, l, m, id, InheritedBlock, "host_blocked:" + l.hosts[e.host].blocked.value, false) && o.task == Ended
            else m == l.(hosts := m.hosts, running := l.running + {id}) && o.task == Inspecting(false)
  }

  lemma EnterMeans(c: Setup, s: System, id: Id, now: int)
    requires id in c.entries && id in s.tasks && s.tasks[id].Locked?
    ensures var live := set j | j in s.tasks && s.tasks[j] != Pending && s.tasks[j] != Locked && s.tasks[j] != Ended;
            var o := Perform(c, s, id, now, Enter);
            if |live| < 4 && |live| < c.limits.concurrency then Entered(c, s.ledger, id, now, o) else o == Outcome(s.ledger, Locked, None)
  {
    hide Budget;
    BudgetMeans(c, s.ledger, now);
    var live := set j | j in s.tasks && s.tasks[j] != Pending && s.tasks[j] != Locked && s.tasks[j] != Ended;
    assert live == set j | j in s.tasks && Live(s.tasks[j]);
  }

  // ---------------------------------------------------------------- asking and sending

  // A row waits for its turn exactly while its host is open, the batch within budget and the row within
  // its own; it then waits until the spacing of its host has passed.
  lemma AskMeans(c: Setup, s: System, id: Id, now: int)
    requires id in c.entries && id in s.tasks && s.tasks[id].Inspecting? && c.entries[id].host in s.ledger.hosts
    ensures var l, t, host, o := s.ledger, s.tasks[id], s.ledger.hosts[c.entries[id].host], Perform(c, s, id, now, Ask);
            && o.request.None?
            && if host.blocked.None? && WithinBatch(c, l, now) && Spent(l, id) < RowLimit(c, id) then
                 o.ledger == l && o.task == Sleeping(t.responded, if now >= host.last + c.limits.spacing then now else host.last + c.limits.spacing)
               else o.task == t && o.ledger == l.(stop := if host.blocked.None? then Budget(c, l, now) else l.stop)
  {
    hide Budget;
    BudgetMeans(c, s.ledger, now);
  }

  // A row that slept long enough sends exactly while the batch is within budget, and the three counters
  // move together.
  lemma WakeMeans(c: Setup, s: System, id: Id, now: int)
    requires id in c.entries && id in s.tasks && s.tasks[id].Sleeping? && c.entries[id].host in s.ledger.hosts
    ensures var l, t, h, o := s.ledger, s.tasks[id], c.entries[id].host, Perform(c, s, id, now, Wake);
            if now < t.wake then o == Outcome(l, t, None)
            else if !WithinBatch(c, l, now) then o == Outcome(l.(stop := Budget(c, l, now)), Inspecting(t.responded), None)
            else && o.task == InFlight(t.responded) && o.request == Some(Request(id, h, now))
                 && o.ledger == l.(requests := l.requests + 1, rowRequests := l.rowRequests[id := Spent(l, id) + 1],
                                   hosts := l.hosts[h := l.hosts[h].(last := now)])
  {
    hide Budget;
    BudgetMeans(c, s.ledger, now);
  }

  // Bytes count towards the batch; an answer that shows a restriction blocks its host.
  lemma AnswerMeans(c: Setup, s: System, id: Id, now: int, bytes: nat, success: bool, block: Option<string>)
    requires id in c.entries && id in s.tasks && s.tasks[id].InFlight? && c.entries[id].host in s.ledger.hosts
    ensures var l, t, h := s.ledger, s.tasks[id], c.entries[id].host;
            && Perform(c, s, id, now, Receive(bytes)) == Outcome(l.(bytes := l.bytes + bytes), t, None)
            && Perform(c, s, id, now, Respond(true, block)) == Outcome(l, Inspecting(true), None)
            && Perform(c, s, id, now, Respond(false, None)) == Outcome(l, Inspecting(t.responded), None)
            && (block.Some? ==> Perform(c, s, id, now, Respond(false, block)) ==
                                Outcome(l.(hosts := l.hosts[h := l.hosts[h].(blocked := block)]), Inspecting(t.responded), None))
  {
  }

  // ---------------------------------------------------------------- how a row ends

  predicate BatchWide(f: Failure) {
    f.TotalBytes? || f.BatchFailure?
  }

  // What a failure is reported as: past the time limit of the batch it is the batch that failed.
  function ReportedAs(c: Setup, l: Ledger, f: Failure, now: int): Failure {
    if now - l.startedAt >= c.limits.maxSeconds then BatchFailure(Duration) else f
  }

  function Text(f: Failure): string {
    match f
    case BatchFailure(RequestBudget) => "batch_request_budget_exceeded"
    case BatchFailure(BytesBudget) => "batch_bytes_budget_exceeded"
    case BatchFailure(Duration) => "batch_duration_exceeded"
    case TotalBytes => "total_bytes_exceeded"
    case Restriction(code) => code
    case OtherFailure(code) => code
  }

  // A failing row ends with the reported reason.  If the failure is not batch-wide its host is blocked
  // with that reason and no other host is touched; a batch-wide one leaves all hosts alone and the batch
  // stopped.
  lemma FailureMeans(c: Setup, s: System, id: Id, now: int, f: Failure)
    requires id in c.entries && id in s.tasks && Live(s.tasks[id]) && c.entries[id].host in s.ledger.hosts
    requires f.BatchFailure? ==> s.ledger.stop.Some?
    ensures var l, h, o, told := s.ledger, c.entries[id].host, Perform(c, s, id, now, Fail(f)), ReportedAs(c, s.ledger, f, now);
            var m := o.ledger;
            && o.task == Ended && o.request.None?
            && Records(c, l, m, id, if BatchWide(told) then BudgetExhausted else if told.Restriction? then Restricted else NeedsAdapter, Text(told), true)
            && if BatchWide(told) then m.hosts == l.hosts && m.stop.Some?
               else m.hosts == l.hosts[h := l.hosts[h].(blocked := Some(Text(told)))] && m.stop == l.stop
  {
    hide ScopeOf;
    ScopeMeans(c, id);
  }

  lemma ScopeMeans(c: Setup, id: Id)
    requires id in c.entries
    ensures ScopeOf(c, id) == if c.entries[id].group == MainGroup then MainDetailSamples
                              else if id in c.opted then ReviewDetailSamples else ListDiagnosticOnly
  {
  }

  // The batch stops for time when the failure came too late, and for bytes when those were used up.
  lemma FailureStops(c: Setup, s: System, id: Id, now: int, f: Failure)
    requires id in c.entries && id in s.tasks && Live(s.tasks[id]) && (f.BatchFailure? ==> s.ledger.stop.Some?)
    ensures var l, m := s.ledger, Perform(c, s, id, now, Fail(f)).ledger;
            m.stop == if now - l.startedAt >= c.limits.maxSeconds then Some(Duration)
                      else if f.TotalBytes? || f == BatchFailure(BytesBudget) then Some(BytesBudget) else l.stop
  {
  }

  // An unexpected error or a cancellation ends the row and blocks its host; a restricted page does too.
  lemma EndingMeans(c: Setup, s: System, id: Id, now: int, kind: string)
    requires id in c.entries && id in s.tasks && Live(s.tasks[id]) && c.entries[id].host in s.ledger.hosts
    ensures var l, h, o, p := s.ledger, c.entries[id].host, Perform(c, s, id, now, Crash(kind)), Perform(c, s, id, now, Cancel);
            && o.task == p.task == Ended && o.request == p.request == None
            && Records(c, l, o.ledger, id, Error, "unexpected_error:" + kind, true)
            && Records(c, l, p.ledger, id, Interrupted, "request_cancelled", true)
            && o.ledger.hosts == l.hosts[h := l.hosts[h].(blocked := Some("unexpected_error:" + kind))] && o.ledger.stop == l.stop
            && p.ledger.hosts == l.hosts[h := l.hosts[h].(blocked := Some("request_cancelled"))] && p.ledger.stop == l.stop
  {
    hide ScopeOf;
    ScopeMeans(c, id);
  }

  // A row returns a verdict only after an answer: readable samples, or candidates where only the list is
  // looked at, or a refusal; a restricted one blocks the host.
  lemma ReturnMeans(c: Setup, s: System, id: Id, now: int, status: Status, reason: string, hostReason: string)
    requires id in c.entries && id in s.tasks && c.entries[id].host in s.ledger.hosts
    ensures var l, t, h, o := s.ledger, s.tasks[id], c.entries[id].host, Perform(c, s, id, now, Return(status, reason, hostReason));
            var listOnly := c.entries[id].group != MainGroup && id !in c.opted;
            if && t.Inspecting? && t.responded
               && (status == NeedsAdapter || status == Restricted || (status == CandidateList && listOnly) || (status == SampleReadable && !listOnly))
            then
              && o.task == Ended && o.request.None? && Records(c, l, o.ledger, id, status, reason, true) && o.ledger.stop == l.stop
              && o.ledger.hosts == if status == Restricted then l.hosts[h := l.hosts[h].(blocked := Some(hostReason))] else l.hosts
            else o == Outcome(l, t, None)
  {
    hide ScopeOf;
    ScopeMeans(c, id);
  }

  // ---------------------------------------------------------------- processes

  // A process that takes over ends the rows under way as interrupted, blocks their hosts and keeps all
  // else; it then works on the selected rows without a result.
  lemma RestartMeans(c: Setup, s: System, now: int, selection: set<Id>)
    requires s.clock <= now && s.ledger.running <= c.entries.Keys
    ensures var l, t := s.ledger, Step(c, s, Restart(now, selection));
            && t.sent == s.sent && t.clock == now && t.ledger.running == {} && t.ledger.stop == l.stop
            && t.ledger.requests == l.requests && t.ledger.rowRequests == l.rowRequests && t.ledger.bytes == l.bytes && t.ledger.startedAt == l.startedAt
            && t.ledger.results.Keys == l.results.Keys + l.running
            && (forall id :: id in l.running ==>
                  t.ledger.results[id] == RowResult(id, Interrupted, "previous_process_interrupted", None, true, None))
            && (forall id :: id in l.results && id !in l.running ==> t.ledger.results[id] == l.results[id])
            && (forall id :: id in l.running ==>
                  c.entries[id].host in t.ledger.hosts && t.ledger.hosts[c.entries[id].host].blocked == Some("previous_process_interrupted"))
            && (forall h :: h in l.hosts ==> h in t.ledger.hosts && t.ledger.hosts[h].last == l.hosts[h].last)
            && (forall h :: h in t.ledger.hosts && (forall id :: id in l.running ==> c.entries[id].host != h) ==>
                  h in l.hosts && t.ledger.hosts[h] == l.hosts[h])
            && t.tasks.Keys == (set id | id in selection && id in c.entries && id !in l.results && id !in l.running)
            && (forall id :: id in t.tasks ==> t.tasks[id] == Pending)
  {
  }

  // ---------------------------------------------------------------- failures stay blocked

  predicate Failed(r: RowResult) {
    r.status == Error || r.status == Interrupted || (r.status == Restricted && r.tested)
  }

  predicate BlockedAt(c: Setup, l: Ledger, id: Id) {
    id in c.entries && c.entries[id].host in l.hosts && l.hosts[c.entries[id].host].blocked.Some?
  }

  // The host of every row that was restricted, went wrong or was cut off is blocked, and so is the host of
  // every row that was ended because of it.
  predicate FailuresBlock(c: Setup, l: Ledger) {
    forall id :: id in l.results && (Failed(l.results[id]) || l.results[id].status == InheritedBlock) ==> BlockedAt(c, l, id)
  }

  // A result that a step adds follows the rule.
  predicate NewResultBlocks(c: Setup, l: Ledger, m: Ledger, id: Id) {
    id in m.results && (Failed(m.results[id]) || m.results[id].status == InheritedBlock) ==>
      BlockedAt(c, m, id) || (id in l.results && m.results[id] == l.results[id])
  }

  lemma EnterBlocks(c: Setup, s: System, id: Id, now: int)
    requires id in c.entries && id in s.tasks
    ensures NewResultBlocks(c, s.ledger, Perform(c, s, id, now, Enter).ledger, id)
  {
    hide ScopeOf, Budget;
  }

  lemma FailBlocks(c: Setup, s: System, id: Id, now: int, f: Failure)
    requires id in c.entries && id in s.tasks && (Live(s.tasks[id]) ==> c.entries[id].host in s.ledger.hosts)
    ensures NewResultBlocks(c, s.ledger, Perform(c, s, id, now, Fail(f)).ledger, id)
  {
    hide Records, ReportedAs, BatchWide, Text, FailRow;
    if Live(s.tasks[id]) && (f.BatchFailure? ==> s.ledger.stop.Some?) {
      FailureMeans(c, s, id, now, f);
      FailedRecord(c, s.ledger, Perform(c, s, id, now, Fail(f)).ledger, id, ReportedAs(c, s.ledger, f, now));
      ReportedKinds(c, s.ledger, f, now);
    }
  }

  lemma FailedRecord(c: Setup, l: Ledger, m: Ledger, id: Id, told: Failure)
    requires id in c.entries
    requires Records(c, l, m, id, if BatchWide(told) then BudgetExhausted else if told.Restriction? then Restricted else NeedsAdapter, Text(told), true)
    ensures id in m.results && (BatchWide(told) ==> m.results[id].status == BudgetExhausted) && m.results[id].status != InheritedBlock
  {
    hide Text;
  }

  lemma ReportedKinds(c: Setup, l: Ledger, f: Failure, now: int)
    ensures !BatchWide(ReportedAs(c, l, f, now)) ==> ReportedAs(c, l, f, now) == f
  {
  }

  lemma OtherBlocks(c: Setup, s: System, id: Id, now: int, a: Action)
    requires id in c.entries && id in s.tasks && !a.Enter? && !a.Fail?
    ensures NewResultBlocks(c, s.ledger, Perform(c, s, id, now, a).ledger, id)
  {
    hide ScopeOf, Cap, Budget, LockFree, SlotFree, LockKey, FailRow, EnterRow;
  }

  lemma PerformBlocks(c: Setup, s: System, id: Id, now: int, a: Action)
    requires id in c.entries && id in s.tasks && (Live(s.tasks[id]) ==> c.entries[id].host in s.ledger.hosts)
    ensures NewResultBlocks(c, s.ledger, Perform(c, s, id, now, a).ledger, id)
  {
    hide NewResultBlocks, Perform;
    match a
    case Enter => EnterBlocks(c, s, id, now);
    case Fail(f) => FailBlocks(c, s, id, now, f);
    case _ => OtherBlocks(c, s, id, now, a);
  }

  lemma StepBlocks(c: Setup, s: System, e: Event)
    requires Inv(c, s) && FailuresBlock(c, s.ledger)
    ensures FailuresBlock(c, Step(c, s, e).ledger)
  {
    hide Perform, HistoryOk, SumOf, LocksApart, NoRepeats, Cap, Failed, Moved, RowOk;
    if e.now >= s.clock {
      match e
      case Act(id, now, action) =>
        if id in c.entries && id in s.tasks {
          PerformBlocks(c, s, id, now, action);
          AttributedRow(c, s.ledger, id);
          assert TaskOk(c, s.ledger, id, s.tasks[id]);
          PerformOk(c, s, id, now, action);
          OthersResults(c, s.ledger, Perform(c, s, id, now, action).ledger, id);
        }
      case Restart(_, _) => RestartBlocks(c, s.ledger);
    }
  }

  lemma OthersResults(c: Setup, l: Ledger, m: Ledger, id: Id)
    requires id in c.entries && Moved(c, l, m, id)
    ensures forall h :: h in l.hosts && l.hosts[h].blocked.Some? ==> h in m.hosts && m.hosts[h].blocked.Some?
    ensures forall j :: j != id ==> (j in m.results <==> j in l.results) && (j in l.results ==> m.results[j] == l.results[j])
  {
  }

  lemma RestartBlocks(c: Setup, l: Ledger)
    requires l.running <= c.entries.Keys && FailuresBlock(c, l)
    ensures FailuresBlock(c, Resumed(c, l))
  {
    hide Failed;
  }

  // Over every interleaving and restart.
  lemma {:induction false} FailuresStayBlocked(c: Setup, now: int, selection: set<Id>, es: seq<Event>)
    requires ValidSetup(c) && now > 0
    ensures FailuresBlock(c, Exec(c, FirstProcess(c, now, selection), es).ledger)
  {
    hide Inv, Step, FirstProcess, FailuresBlock;
    if es == [] {
      NothingYet(c, now, selection);
    } else {
      FailuresStayBlocked(c, now, selection, es[..|es| - 1]);
      CatalogInvariant(c, now, selection, es[..|es| - 1]);
      StepBlocks(c, Exec(c, FirstProcess(c, now, selection), es[..|es| - 1]), es[|es| - 1]);
    }
  }

  lemma NothingYet(c: Setup, now: int, selection: set<Id>)
    ensures FailuresBlock(c, FirstProcess(c, now, selection).ledger)
  {
  }

  // So once a row of a host was restricted, went wrong or was cut off, nothing is sent to that host any
  // more, by this process or any later one.
  lemma QuietAfterFailure(c: Setup, now: int, selection: set<Id>, before: seq<Event>, after: seq<Event>, id: Id)
    requires ValidSetup(c) && now > 0
    requires var s := Exec(c, FirstProcess(c, now, selection), before); id in s.ledger.results && Failed(s.ledger.results[id])
    ensures id in c.entries
    ensures var s := Exec(c, FirstProcess(c, now, selection), before);
            var t := Exec(c, s, after);
            s.sent <= t.sent && forall i :: |s.sent| <= i < |t.sent| ==> t.sent[i].host != c.entries[id].host
  {
    hide Inv, Exec, FirstProcess, Failed;
    FailuresStayBlocked(c, now, selection, before);
    CatalogInvariant(c, now, selection, before);
    QuietForGood(c, Exec(c, FirstProcess(c, now, selection), before), after, c.entries[id].host);
  }
}
