/**
 What every step of the catalog runner keeps, whichever task moves and wherever the process is
 cut off: the counters agree with the requests on the wire, quotas and spacing hold, and a row
 relies on nobody else touching its host while it holds the host's lock.
 */
module CatalogSafety {
  import opened Prelude
  import opened CatalogModel

  // ---------------------------------------------------------------- sums over the manifest

  function SumOf(ids: seq<Id>, rowRequests: map<Id, nat>): nat {
    if ids == [] then 0 else SumOf(ids[..|ids| - 1], rowRequests) + Count(rowRequests, ids[|ids| - 1])
  }

  lemma {:induction false} SumUpdate(ids: seq<Id>, m: map<Id, nat>, id: Id, v: nat)
    requires NoRepeats(ids)
    ensures SumOf(ids, m[id := v]) == SumOf(ids, m) + if id in ids then v - Count(m, id) else 0
  {
    if ids != [] {
      var front, last := ids[..|ids| - 1], ids[|ids| - 1];
      SumUpdate(front, m, id, v);
      assert ids == front + [last];
    }
  }

  function SentBy(sent: seq<Request>, id: Id): nat {
    if sent == [] then 0
    else SentBy(sent[..|sent| - 1], id) + if sent[|sent| - 1].entry == id then 1 else 0
  }

  lemma SentByAppend(sent: seq<Request>, r: Request, id: Id)
    ensures SentBy(sent + [r], id) == SentBy(sent, id) + if r.entry == id then 1 else 0
  {
    assert (sent + [r])[..|sent|] == sent;
  }

  // ---------------------------------------------------------------- the invariant, piece by piece

  predicate Totals(c: Setup, requests: nat, rowRequests: map<Id, nat>) {
    && rowRequests.Keys <= c.entries.Keys
    && requests == SumOf(c.order, rowRequests)
    && requests <= c.limits.maxRequests
    && forall id :: id in rowRequests ==> 0 < rowRequests[id] <= Cap(c, id)
  }

  predicate ResultOk(c: Setup, rowRequests: map<Id, nat>, stop: Option<StopReason>, id: Id, r: RowResult)
    requires id in c.entries
  {
    && r.entryId == id
    && (r.status != Interrupted ==>
          && r.requests == Some(Count(rowRequests, id)) && r.scope == Some(ScopeOf(c, id))
          && (r.status == InheritedBlock ==> Count(rowRequests, id) == 0 && !r.tested)
          && (Count(rowRequests, id) > 0 ==> r.tested)
          && (r.status in {SampleReadable, CandidateList} ==> Count(rowRequests, id) > 0 && r.tested)
          && (r.status == BudgetExhausted ==> stop.Some?))
  }

  // Every counted request belongs to a row that has ended or is still listed as running.
  predicate Attributed(c: Setup, l: Ledger) {
    && l.results.Keys <= c.entries.Keys && l.running <= c.entries.Keys && l.running !! l.results.Keys
    && l.rowRequests.Keys <= l.results.Keys + l.running
    && (forall id :: id in l.results ==> ResultOk(c, l.rowRequests, l.stop, id, l.results[id]))
    && forall id :: id in l.running ==> c.entries[id].invalid.None? && c.entries[id].host in l.hosts
  }

  // What a row may rely on between two of its steps: only it writes its counter and its host.
  predicate TaskOk(c: Setup, l: Ledger, id: Id, t: Task) {
    && (Live(t) <==> id in l.running)
    && (Live(t) ==>
          && id in c.entries && c.entries[id].invalid.None? && c.entries[id].host in l.hosts
          && (t.responded ==> Count(l.rowRequests, id) > 0)
          && (t.InFlight? ==> Count(l.rowRequests, id) > 0)
          && (t.Sleeping? ==>
                && l.hosts[c.entries[id].host].blocked.None?
                && Count(l.rowRequests, id) < Cap(c, id)
                && t.wake >= l.hosts[c.entries[id].host].last + c.limits.spacing))
  }

  predicate TasksOk(c: Setup, l: Ledger, tasks: map<Id, Task>) {
    && l.running <= tasks.Keys
    && forall id :: id in tasks ==> TaskOk(c, l, id, tasks[id])
  }

  predicate LocksApart(c: Setup, tasks: map<Id, Task>) {
    forall i, j :: i in tasks && j in tasks && i in c.entries && j in c.entries && i != j && HoldsLock(tasks[i]) && HoldsLock(tasks[j])
      ==> LockKey(c.entries[i]) != LockKey(c.entries[j])
  }

  // The physical history agrees with the counters and respects the spacing of every host.
  ghost predicate HistoryOk(c: Setup, l: Ledger, sent: seq<Request>) {
    && |sent| == l.requests
    && (forall id :: SentBy(sent, id) == Count(l.rowRequests, id))
    && (forall i :: 0 <= i < |sent| ==> sent[i].host in l.hosts && sent[i].at <= l.hosts[sent[i].host].last)
    && Spaced(c, sent)
  }

  predicate Spaced(c: Setup, sent: seq<Request>) {
    forall i, j :: 0 <= i < j < |sent| && sent[i].host == sent[j].host ==> sent[j].at - sent[i].at >= c.limits.spacing
  }

  // The clock never runs behind the last request of a host.
  predicate ClockOk(l: Ledger, clock: int) {
    0 <= clock && forall g :: g in l.hosts ==> l.hosts[g].last <= clock
  }

  ghost predicate Inv(c: Setup, s: System) {
    && ValidSetup(c)
    && Totals(c, s.ledger.requests, s.ledger.rowRequests)
    && Attributed(c, s.ledger)
    && TasksOk(c, s.ledger, s.tasks)
    && LocksApart(c, s.tasks)
    && HistoryOk(c, s.ledger, s.sent)
    && s.tasks.Keys <= c.entries.Keys && ClockOk(s.ledger, s.clock)
  }

  // ---------------------------------------------------------------- one step of one task

  // A step of one row leaves every other row, its counter and every other host alone.
  ghost predicate Moved(c: Setup, l: Ledger, m: Ledger, id: Id)
    requires id in c.entries
  {
    && (l.stop.Some? ==> m.stop.Some?)
    && (forall j :: j != id ==> Count(m.rowRequests, j) == Count(l.rowRequests, j))
    && (forall j :: j != id ==> (j in m.running <==> j in l.running))
    && (forall j :: j != id ==> (j in m.results <==> j in l.results) && (j in l.results ==> m.results[j] == l.results[j]))
    && (forall g :: g in l.hosts ==> g in m.hosts && l.hosts[g].last <= m.hosts[g].last && (l.hosts[g].blocked.Some? ==> m.hosts[g].blocked.Some?))
    && (forall g :: g in l.hosts && g != LockKey(c.entries[id]) ==> m.hosts[g] == l.hosts[g])
    && (m.hosts == l.hosts || c.entries[id].invalid.None?)
  }

  // Attributed, read at one row.
  predicate RowOk(c: Setup, l: Ledger, id: Id)
    requires id in c.entries
  {
    && (id in l.results ==> ResultOk(c, l.rowRequests, l.stop, id, l.results[id]))
    && (id in l.running ==> id !in l.results && c.entries[id].invalid.None? && c.entries[id].host in l.hosts)
    && (id in l.rowRequests ==> l.rowRequests[id] > 0 && (id in l.results || id in l.running))
  }

  predicate Before(c: Setup, l: Ledger, id: Id, t: Task, now: int) {
    id in c.entries && TaskOk(c, l, id, t) && RowOk(c, l, id) && ClockOk(l, now)
  }

  ghost predicate After(c: Setup, l: Ledger, id: Id, now: int, o: Outcome)
    requires id in c.entries
  {
    && Moved(c, l, o.ledger, id) && TaskOk(c, o.ledger, id, o.task) && RowOk(c, o.ledger, id) && ClockOk(o.ledger, now)
  }

  lemma EnterOk(c: Setup, l: Ledger, id: Id, now: int)
    requires Before(c, l, id, Locked, now)
    ensures After(c, l, id, now, EnterRow(c, l, id, now))
  {
    hide After, TaskOk, RowOk, ClockOk, Budget, Finish;
    var e := c.entries[id];
    NothingOk(c, l, id, Locked, now);
    StopOk(c, l, id, Locked, now);
    if id !in l.results && Budget(c, l, now).None? {
      if e.invalid.Some? {
        RefuseOk(c, l, l, id, InvalidInput, e.invalid.value, now);
      } else if e.historical.Some? {
        RefuseOk(c, l, l, id, Restricted, e.historical.value, now);
      } else {
        var known := l.(hosts := l.hosts[e.host := HostOr(l, e.host)]);
        if HostOr(l, e.host).blocked.Some? {
          RefuseOk(c, l, known, id, InheritedBlock, "host_blocked:" + HostOr(l, e.host).blocked.value, now);
        } else {
          OpenOk(c, l, id, now);
        }
      }
    }
  }

  lemma StopOk(c: Setup, l: Ledger, id: Id, t: Task, now: int)
    requires Before(c, l, id, t, now) && !Live(t)
    ensures After(c, l, id, now, Outcome(l.(stop := Budget(c, l, now)), Ended, None))
  {
    hide ScopeOf, Cap;
  }

  // A row that never ran has no request of its own.
  lemma RefuseOk(c: Setup, l: Ledger, held: Ledger, id: Id, status: Status, reason: string, now: int)
    requires Before(c, l, id, Locked, now) && id !in l.results
    requires held == l || (c.entries[id].invalid.None? && held == l.(hosts := l.hosts[c.entries[id].host := HostOr(l, c.entries[id].host)]))
    requires status in {InvalidInput, Restricted, InheritedBlock}
    ensures After(c, l, id, now, Outcome(Finish(c, held, id, status, reason, false), Ended, None))
  {
    hide Cap, ScopeOf;
  }

  lemma OpenOk(c: Setup, l: Ledger, id: Id, now: int)
    requires Before(c, l, id, Locked, now) && id !in l.results && c.entries[id].invalid.None?
    ensures var h := c.entries[id].host;
            After(c, l, id, now, Outcome(l.(hosts := l.hosts[h := HostOr(l, h)], running := l.running + {id}), Inspecting(false), None))
  {
    hide Cap, ScopeOf;
  }

  lemma AskOk(c: Setup, l: Ledger, id: Id, t: Task, now: int)
    requires Before(c, l, id, t, now) && t.Inspecting?
    ensures After(c, l, id, now, AskRequest(c, l, id, t, now))
  {
    hide Cap, ResultOk;
    assert Budget(c, l, now).Some? || Budget(c, l, now) == l.stop;
  }

  lemma WakeOk(c: Setup, l: Ledger, id: Id, t: Task, now: int)
    requires Before(c, l, id, t, now) && t.Sleeping?
    ensures After(c, l, id, now, WakeRequest(c, l, id, t, now))
  {
    hide Cap, ResultOk;
  }

  // Closing a live row, whatever was recorded about its host and the batch beforehand.
  lemma CloseOk(c: Setup, l: Ledger, held: Ledger, id: Id, t: Task, status: Status, reason: string, now: int)
    requires Before(c, l, id, t, now) && Live(t)
    requires held.results == l.results && held.running == l.running && held.rowRequests == l.rowRequests
    requires held.hosts == l.hosts || (exists r :: held.hosts == BlockHost(l, c.entries[id].host, r).hosts)
    requires l.stop.Some? ==> held.stop.Some?
    requires status != InheritedBlock && (status in {SampleReadable, CandidateList} ==> t.responded)
    requires status == BudgetExhausted ==> held.stop.Some?
    ensures After(c, l, id, now, Outcome(Finish(c, held, id, status, reason, true), Ended, None))
  {
    hide Cap, ScopeOf;
  }

  lemma FailOk(c: Setup, l: Ledger, id: Id, t: Task, failure: Failure, now: int)
    requires Before(c, l, id, t, now) && Live(t) && (failure.BatchFailure? ==> l.stop.Some?)
    ensures After(c, l, id, now, Outcome(FailRow(c, l, id, failure, now), Ended, None))
  {
    hide After, TaskOk, RowOk, ClockOk, Code, Finish;
    var reported := Reported(c, l, failure, now);
    var stop := if reported == TotalBytes || reported == BatchFailure(BytesBudget) then Some(BytesBudget)
                else if now - l.startedAt >= c.limits.maxSeconds then Some(Duration) else l.stop;
    var held := if Global(reported) then l else BlockHost(l, c.entries[id].host, Code(reported));
    var status := if reported.Restriction? then Restricted else if Global(reported) then BudgetExhausted else NeedsAdapter;
    CloseOk(c, l, held.(stop := stop), id, t, status, Code(reported), now);
  }

  lemma SimpleOk(c: Setup, s: System, id: Id, now: int, a: Action)
    requires id in s.tasks && Before(c, s.ledger, id, s.tasks[id], now)
    requires a.Lock? || a.Receive? || a.Respond?
    ensures After(c, s.ledger, id, now, Perform(c, s, id, now, a))
  {
    hide Cap, ScopeOf, LockFree;
  }

  lemma PerformOk(c: Setup, s: System, id: Id, now: int, a: Action)
    requires id in s.tasks && Before(c, s.ledger, id, s.tasks[id], now)
    ensures After(c, s.ledger, id, now, Perform(c, s, id, now, a))
  {
    hide After, EnterRow, AskRequest, WakeRequest, FailRow, Finish, SlotFree, TaskOk, RowOk, ClockOk, ScopeOf, LockFree;
    var l, t, h := s.ledger, s.tasks[id], c.entries[id].host;
    NothingOk(c, l, id, t, now);
    match a
    case Lock => SimpleOk(c, s, id, now, a);
    case Enter => if t.Locked? { EnterOk(c, l, id, now); }
    case Ask => if t.Inspecting? { AskOk(c, l, id, t, now); }
    case Wake => if t.Sleeping? { WakeOk(c, l, id, t, now); }
    case Receive(_) => SimpleOk(c, s, id, now, a);
    case Respond(_, _) => SimpleOk(c, s, id, now, a);
    case Return(status, reason, hostReason) =>
      if t.Inspecting? && t.responded && Inspected(ScopeOf(c, id), status) {
        CloseOk(c, l, if status == Restricted then BlockHost(l, h, hostReason) else l, id, t, status, reason, now);
      }
    case Fail(failure) => if Live(t) && (failure.BatchFailure? ==> l.stop.Some?) { FailOk(c, l, id, t, failure, now); }
    case Crash(kind) => if Live(t) {
        CloseOk(c, l, BlockHost(l, h, "unexpected_error:" + kind), id, t, Error, "unexpected_error:" + kind, now);
      }
    case Cancel => if Live(t) { CloseOk(c, l, BlockHost(l, h, "request_cancelled"), id, t, Interrupted, "request_cancelled", now); }
  }

  lemma NothingOk(c: Setup, l: Ledger, id: Id, t: Task, now: int)
    requires Before(c, l, id, t, now)
    ensures After(c, l, id, now, Outcome(l, t, None))
    ensures !Live(t) ==> After(c, l, id, now, Outcome(l, Ended, None))
  {
    hide ResultOk, Cap;
  }

  // Only a row that slept long enough issues a request, and nothing else touches the counters.
  lemma PerformCounts(c: Setup, s: System, id: Id, now: int, a: Action)
    requires id in c.entries && id in s.tasks
    ensures var o := Perform(c, s, id, now, a);
            && (o.request.None? ==> o.ledger.requests == s.ledger.requests && o.ledger.rowRequests == s.ledger.rowRequests)
            && (o.request.Some? ==>
                  && o.ledger == IssueRequest(s.ledger, id, c.entries[id].host, now)
                  && o.request.value == Request(id, c.entries[id].host, now)
                  && s.tasks[id].Sleeping? && now >= s.tasks[id].wake && Budget(c, s.ledger, now).None?)
  {
    hide LockFree, SlotFree, Cap, ScopeOf, Inspected, Code, LockKey;
  }

  lemma IssueKeepsTotals(c: Setup, l: Ledger, id: Id, now: int)
    requires ValidSetup(c) && id in c.entries && Totals(c, l.requests, l.rowRequests)
    requires l.requests < c.limits.maxRequests && Count(l.rowRequests, id) < Cap(c, id)
    ensures var m := IssueRequest(l, id, c.entries[id].host, now); Totals(c, m.requests, m.rowRequests)
  {
    hide Cap, SumOf, NoRepeats;
    SumUpdate(c.order, l.rowRequests, id, Count(l.rowRequests, id) + 1);
  }

  // ---------------------------------------------------------------- the whole system

  lemma RowsAttributed(c: Setup, l: Ledger)
    requires l.results.Keys <= c.entries.Keys && l.running <= c.entries.Keys && l.rowRequests.Keys <= c.entries.Keys
    requires forall id :: id in c.entries ==> RowOk(c, l, id)
    ensures Attributed(c, l)
  {
    hide ResultOk;
    forall id | id in l.running ensures id !in l.results.Keys { assert RowOk(c, l, id); }
    forall id | id in l.rowRequests ensures id in l.results.Keys + l.running { assert RowOk(c, l, id); }
    forall id | id in l.results ensures ResultOk(c, l.rowRequests, l.stop, id, l.results[id]) { assert RowOk(c, l, id); }
    forall id | id in l.running ensures c.entries[id].invalid.None? && c.entries[id].host in l.hosts { assert RowOk(c, l, id); }
  }

  lemma AttributedRow(c: Setup, l: Ledger, id: Id)
    requires Attributed(c, l) && id in c.entries && Totals(c, l.requests, l.rowRequests)
    ensures RowOk(c, l, id)
  {
    hide ResultOk, SumOf, Cap;
  }

  lemma OtherRow(c: Setup, l: Ledger, m: Ledger, id: Id, j: Id)
    requires id in c.entries && j in c.entries && j != id && Moved(c, l, m, id) && RowOk(c, l, j)
    requires j in m.rowRequests ==> m.rowRequests[j] > 0
    ensures RowOk(c, m, j)
  {
    hide ScopeOf;
    assert Count(m.rowRequests, j) == Count(l.rowRequests, j);
  }

  lemma OtherTask(c: Setup, l: Ledger, m: Ledger, id: Id, j: Id, t: Task)
    requires id in c.entries && j in c.entries && j != id && Moved(c, l, m, id) && TaskOk(c, l, j, t)
    requires Live(t) ==> m.hosts == l.hosts || LockKey(c.entries[j]) != LockKey(c.entries[id])
    ensures TaskOk(c, m, j, t)
  {
    hide Cap;
    assert Count(m.rowRequests, j) == Count(l.rowRequests, j);
  }

  // A row acts on its host only while it holds the lock, and takes the lock only when it is free.
  lemma PerformLocks(c: Setup, s: System, id: Id, now: int, a: Action)
    requires id in c.entries && id in s.tasks
    ensures var o := Perform(c, s, id, now, a);
            && (!HoldsLock(s.tasks[id]) ==> o.ledger == s.ledger)
            && (HoldsLock(o.task) ==> HoldsLock(s.tasks[id]) || LockFree(c, s.tasks, LockKey(c.entries[id])))
  {
    hide LockFree, SlotFree, Cap, ScopeOf, Inspected, Code, Budget, Finish, BlockHost, IssueRequest, FailRow;
  }

  lemma LocksKept(c: Setup, tasks: map<Id, Task>, id: Id, t: Task)
    requires LocksApart(c, tasks) && id in c.entries && id in tasks
    requires HoldsLock(t) ==> HoldsLock(tasks[id]) || LockFree(c, tasks, LockKey(c.entries[id]))
    ensures LocksApart(c, tasks[id := t])
  {
    hide LockKey, HoldsLock;
  }

  lemma HistoryStays(c: Setup, l: Ledger, m: Ledger, sent: seq<Request>)
    requires HistoryOk(c, l, sent) && m.requests == l.requests && m.rowRequests == l.rowRequests
    requires forall g :: g in l.hosts ==> g in m.hosts && l.hosts[g].last <= m.hosts[g].last
    ensures HistoryOk(c, m, sent)
  {
    hide Spaced, SentBy;
  }

  lemma HistoryGrows(c: Setup, l: Ledger, sent: seq<Request>, id: Id, h: Host, now: int)
    requires HistoryOk(c, l, sent) && h in l.hosts && now >= l.hosts[h].last && now >= l.hosts[h].last + c.limits.spacing
    ensures HistoryOk(c, IssueRequest(l, id, h, now), sent + [Request(id, h, now)])
  {
    hide SentBy;
    var m, more := IssueRequest(l, id, h, now), sent + [Request(id, h, now)];
    forall j ensures SentBy(more, j) == Count(m.rowRequests, j) {
      SentByAppend(sent, Request(id, h, now), j);
      assert SentBy(sent, j) == Count(l.rowRequests, j);
    }
    forall i | 0 <= i < |more| ensures more[i].host in m.hosts && more[i].at <= m.hosts[more[i].host].last {
      if i < |sent| { assert more[i] == sent[i]; }
    }
  }

  lemma ActTasks(c: Setup, s: System, id: Id, o: Outcome)
    requires id in c.entries && id in s.tasks && s.tasks.Keys <= c.entries.Keys
    requires TasksOk(c, s.ledger, s.tasks) && LocksApart(c, s.tasks) && Moved(c, s.ledger, o.ledger, id) && TaskOk(c, o.ledger, id, o.task)
    requires !HoldsLock(s.tasks[id]) ==> o.ledger == s.ledger
    ensures TasksOk(c, o.ledger, s.tasks[id := o.task])
  {
    hide TaskOk, Moved, LockKey;
    var tasks := s.tasks[id := o.task];
    forall j | j in tasks ensures TaskOk(c, o.ledger, j, tasks[j]) {
      if j != id { OtherTask(c, s.ledger, o.ledger, id, j, s.tasks[j]); }
    }
    forall j | j in o.ledger.running ensures j in tasks {
      if j != id { MovedRunning(c, s.ledger, o.ledger, id, j); }
    }
  }

  lemma MovedRunning(c: Setup, l: Ledger, m: Ledger, id: Id, j: Id)
    requires id in c.entries && Moved(c, l, m, id) && j != id
    ensures j in m.running <==> j in l.running
    ensures j in m.results <==> j in l.results
  {
  }

  lemma ActAttributed(c: Setup, l: Ledger, m: Ledger, id: Id)
    requires id in c.entries && Attributed(c, l) && Totals(c, l.requests, l.rowRequests) && Totals(c, m.requests, m.rowRequests)
    requires Moved(c, l, m, id) && RowOk(c, m, id)
    ensures Attributed(c, m)
  {
    hide RowOk, Moved, ResultOk, SumOf, Cap;
    forall j | j in c.entries ensures RowOk(c, m, j) {
      if j != id {
        AttributedRow(c, l, j);
        OtherRow(c, l, m, id, j);
      }
    }
    forall j | j in m.results ensures j in c.entries { if j != id { MovedRunning(c, l, m, id, j); } }
    forall j | j in m.running ensures j in c.entries { if j != id { MovedRunning(c, l, m, id, j); } }
    RowsAttributed(c, m);
  }

  lemma MovedHosts(c: Setup, l: Ledger, m: Ledger, id: Id)
    requires id in c.entries && Moved(c, l, m, id)
    ensures forall g :: g in l.hosts ==> g in m.hosts && l.hosts[g].last <= m.hosts[g].last
  {
  }

  lemma ActKeeps(c: Setup, s: System, id: Id, now: int, a: Action)
    requires Inv(c, s) && id in c.entries && id in s.tasks && now >= s.clock
    ensures Inv(c, Step(c, s, Act(id, now, a)))
  {
    hide Perform, Moved, RowOk, Attributed, Totals, LocksApart, HistoryOk, ValidSetup, HoldsLock, LockKey, Budget, TaskOk, Count;
    var o := Perform(c, s, id, now, a);
    AttributedRow(c, s.ledger, id);
    assert TaskOk(c, s.ledger, id, s.tasks[id]);
    PerformOk(c, s, id, now, a);
    PerformCounts(c, s, id, now, a);
    PerformLocks(c, s, id, now, a);
    LocksKept(c, s.tasks, id, o.task);
    ActTasks(c, s, id, o);
    MovedHosts(c, s.ledger, o.ledger, id);
    if o.request.Some? {
      SleeperReady(c, s.ledger, id, s.tasks[id], now);
      IssueKeepsTotals(c, s.ledger, id, now);
      HistoryGrows(c, s.ledger, s.sent, id, c.entries[id].host, now);
    } else {
      HistoryStays(c, s.ledger, o.ledger, s.sent);
    }
    ActAttributed(c, s.ledger, o.ledger, id);
  }

  lemma SleeperReady(c: Setup, l: Ledger, id: Id, t: Task, now: int)
    requires TaskOk(c, l, id, t) && t.Sleeping? && now >= t.wake && Budget(c, l, now).None? && ClockOk(l, now)
    ensures id in c.entries && c.entries[id].host in l.hosts && l.hosts[c.entries[id].host].blocked.None?
    ensures now >= l.hosts[c.entries[id].host].last + c.limits.spacing && now >= l.hosts[c.entries[id].host].last
    ensures l.requests < c.limits.maxRequests && Count(l.rowRequests, id) < Cap(c, id)
  {
  }

  // ---------------------------------------------------------------- restarts

  lemma RestartRow(c: Setup, l: Ledger, id: Id)
    requires id in c.entries && RowOk(c, l, id) && l.running <= c.entries.Keys
    ensures RowOk(c, Resumed(c, l), id)
  {
    hide ScopeOf;
  }

  lemma RestartKeeps(c: Setup, s: System, now: int, selection: set<Id>)
    requires Inv(c, s) && now >= s.clock
    ensures Inv(c, Step(c, s, Restart(now, selection)))
  {
    hide RowOk, HistoryOk, ResultOk, SumOf, Cap, TasksOk, NoRepeats;
    var l := Resumed(c, s.ledger);
    forall id | id in c.entries ensures RowOk(c, l, id) {
      AttributedRow(c, s.ledger, id);
      RestartRow(c, s.ledger, id);
    }
    RowsAttributed(c, l);
    HistoryStays(c, s.ledger, l, s.sent);
    RestartTasks(c, l, selection);
  }

  lemma RestartTasks(c: Setup, l: Ledger, selection: set<Id>)
    requires l.running == {}
    ensures TasksOk(c, l, Selected(c, l, selection)) && LocksApart(c, Selected(c, l, selection))
  {
  }

  lemma StepKeeps(c: Setup, s: System, e: Event)
    requires Inv(c, s)
    ensures Inv(c, Step(c, s, e))
  {
    hide Inv, Perform, Resumed;
    if e.now >= s.clock {
      match e
      case Act(id, now, action) => if id in c.entries && id in s.tasks { ActKeeps(c, s, id, now, action); }
      case Restart(now, selection) => RestartKeeps(c, s, now, selection);
    }
  }

  lemma FirstProcessOk(c: Setup, now: int, selection: set<Id>)
    requires ValidSetup(c) && now > 0
    ensures Inv(c, FirstProcess(c, now, selection))
  {
    hide SumOf;
    RestartTasks(c, FreshLedger(now), selection);
    EmptySum(c.order);
    RowsAttributed(c, FreshLedger(now));
  }

  lemma {:induction false} EmptySum(ids: seq<Id>)
    ensures SumOf(ids, map[]) == 0
  {
    if ids != [] { EmptySum(ids[..|ids| - 1]); }
  }

  // Every interleaving of every sequence of processes over one ledger keeps the invariant.
  lemma {:induction false} CatalogInvariant(c: Setup, now: int, selection: set<Id>, es: seq<Event>)
    requires ValidSetup(c) && now > 0
    ensures Inv(c, Exec(c, FirstProcess(c, now, selection), es))
  {
    hide Inv, Step, FirstProcess;
    if es == [] {
      FirstProcessOk(c, now, selection);
    } else {
      CatalogInvariant(c, now, selection, es[..|es| - 1]);
      StepKeeps(c, Exec(c, FirstProcess(c, now, selection), es[..|es| - 1]), es[|es| - 1]);
    }
  }
}
