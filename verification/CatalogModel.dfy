/**
 The catalog runner (scripts/tender_sources/catalog_run.py) as a machine of interleaving tasks.

 One task per selected catalog entry runs `CatalogRunner.row`.  A step of the machine is the code
 between two suspension points, so everything a step does to the ledger happens at once; every
 step that changes the ledger also persists it, and a restart therefore continues from the ledger
 of the last completed step.  What the network, the parsers and the clock do is an argument of
 the step.
 */
module CatalogModel {
  import opened Prelude

  type Id(==,!new)

  datatype Host = Host(name: string)

  datatype Group = MainGroup | ReviewGroup

  // `invalid` and `historical` are the findings of validate_entry and historical_restriction.
  datatype Entry = Entry(group: Group, host: Host, invalid: Option<string>, historical: Option<string>)

  datatype Limits = Limits(maxRequests: nat, maxBytes: nat, maxSeconds: nat, mainRequests: nat, reviewRequests: nat,
                           spacing: nat, concurrency: nat, rowSeconds: nat, pageBytes: nat)

  // The manifest in file order, the limits of the run and the review entries opted in to sampling.
  datatype Setup = Setup(order: seq<Id>, entries: map<Id, Entry>, limits: Limits, opted: set<Id>)

  datatype StopReason = RequestBudget | BytesBudget | Duration

  datatype Status =
    | SampleReadable | CandidateList | NeedsAdapter | BodyIncomplete | Restricted | InvalidInput | InheritedBlock
    | Error | BudgetExhausted | Interrupted

  datatype Scope = MainDetailSamples | ReviewDetailSamples | ListDiagnosticOnly

  datatype RowResult = RowResult(entryId: Id, status: Status, reason: string, requests: Option<nat>, tested: bool, scope: Option<Scope>)

  datatype HostState = HostState(blocked: Option<string>, last: int)

  datatype Ledger = Ledger(
    startedAt: int, requests: nat, bytes: nat, rowRequests: map<Id, nat>, results: map<Id, RowResult>,
    running: set<Id>, hosts: map<Host, HostState>, stop: Option<StopReason>)

  datatype Task =
    | Pending
    | Locked
    | Inspecting(responded: bool)
    | Sleeping(responded: bool, wake: int)
    | InFlight(responded: bool)
    | Ended

  datatype Request = Request(entry: Id, host: Host, at: int)

  // `sent` is the physical history: the requests issued so far, by this process and its predecessors.
  datatype System = System(ledger: Ledger, tasks: map<Id, Task>, sent: seq<Request>, clock: int)

  // What a row can fail with, as far as the handler tells failures apart.
  datatype Failure =
    | BatchFailure(stop: StopReason)
    | TotalBytes
    | Restriction(code: string)
    | OtherFailure(code: string)

  // A restricted page blocks its host under a reason of its own, which a row restricted by a detail page does not repeat.
  datatype Action =
    | Lock
    | Enter
    | Ask
    | Wake
    | Receive(bytes: nat)
    | Respond(success: bool, block: Option<string>)
    | Return(status: Status, reason: string, hostReason: string)
    | Fail(failure: Failure)
    | Crash(kind: string)
    | Cancel

  datatype Event =
    | Act(id: Id, now: int, action: Action)
    | Restart(now: int, selection: set<Id>)

  // ---------------------------------------------------------------- readings

  // What load_catalog and the constructor accept.
  predicate ValidSetup(c: Setup) {
    && |c.order| > 0 && NoRepeats(c.order)
    && c.entries.Keys == (set id | id in c.order)
    && (forall id :: id in c.opted ==> id in c.entries && c.entries[id].group == ReviewGroup)
    && 0 < c.limits.maxRequests <= 8000 && 0 < c.limits.maxBytes && 0 < c.limits.maxSeconds
    && 0 < c.limits.mainRequests <= 12 && 0 < c.limits.reviewRequests <= 3 && 0 < c.limits.concurrency <= 4
  }

  function ScopeOf(c: Setup, id: Id): Scope
    requires id in c.entries
  {
    if c.entries[id].group == MainGroup then MainDetailSamples
    else if id in c.opted then ReviewDetailSamples
    else ListDiagnosticOnly
  }

  function Cap(c: Setup, id: Id): nat
    requires id in c.entries
  {
    if c.entries[id].group == ReviewGroup && id !in c.opted then c.limits.reviewRequests else c.limits.mainRequests
  }

  function Count(rowRequests: map<Id, nat>, id: Id): nat {
    if id in rowRequests then rowRequests[id] else 0
  }

  // Invalid entries all share the lock of the empty host name.
  function LockKey(e: Entry): Host {
    if e.invalid.Some? then Host("") else e.host
  }

  predicate Live(t: Task) {
    t.Inspecting? || t.Sleeping? || t.InFlight?
  }

  predicate HoldsLock(t: Task) {
    t.Locked? || Live(t)
  }

  predicate LockFree(c: Setup, tasks: map<Id, Task>, key: Host) {
    forall id :: id in tasks && id in c.entries && HoldsLock(tasks[id]) ==> LockKey(c.entries[id]) != key
  }

  predicate SlotFree(c: Setup, tasks: map<Id, Task>) {
    |set id | id in tasks && Live(tasks[id])| < Min(4, c.limits.concurrency)
  }

  // `check_budget`: the reason to stop, if any.
  function Budget(c: Setup, l: Ledger, now: int): Option<StopReason> {
    if l.stop.Some? then l.stop
    else if l.requests >= c.limits.maxRequests then Some(RequestBudget)
    else if l.bytes >= c.limits.maxBytes then Some(BytesBudget)
    else if now - l.startedAt >= c.limits.maxSeconds then Some(Duration)
    else None
  }

  // ---------------------------------------------------------------- ledger updates

  function Finish(c: Setup, l: Ledger, id: Id, status: Status, reason: string, tested: bool): Ledger
    requires id in c.entries
  {
    l.(results := l.results[id := RowResult(id, status, reason, Some(Count(l.rowRequests, id)), tested, Some(ScopeOf(c, id)))],
       running := l.running - {id})
  }

  function HostOr(l: Ledger, h: Host): HostState {
    if h in l.hosts then l.hosts[h] else HostState(None, 0)
  }

  function BlockHost(l: Ledger, h: Host, reason: string): Ledger {
    l.(hosts := l.hosts[h := HostOr(l, h).(blocked := Some(reason))])
  }

  function IssueRequest(l: Ledger, id: Id, h: Host, now: int): Ledger {
    l.(requests := l.requests + 1,
       rowRequests := l.rowRequests[id := Count(l.rowRequests, id) + 1],
       hosts := l.hosts[h := HostOr(l, h).(last := now)])
  }

  function Reported(c: Setup, l: Ledger, failure: Failure, now: int): Failure {
    if now - l.startedAt >= c.limits.maxSeconds then BatchFailure(Duration) else failure
  }

  predicate Global(failure: Failure) {
    failure.BatchFailure? || failure.TotalBytes?
  }

  function Code(failure: Failure): string {
    match failure
    case BatchFailure(stop) =>
      if stop == RequestBudget then "batch_request_budget_exceeded"
      else if stop == BytesBudget then "batch_bytes_budget_exceeded" else "batch_duration_exceeded"
    case TotalBytes => "total_bytes_exceeded"
    case Restriction(code) => code
    case OtherFailure(code) => code
  }

  // The handler of SourceNetworkError and TimeoutError in `row`.
  function FailRow(c: Setup, l: Ledger, id: Id, failure: Failure, now: int): Ledger
    requires id in c.entries
  {
    var reported := Reported(c, l, failure, now);
    var stop := if reported == TotalBytes || reported == BatchFailure(BytesBudget) then Some(BytesBudget)
                else if now - l.startedAt >= c.limits.maxSeconds then Some(Duration) else l.stop;
    var held := if Global(reported) then l else BlockHost(l, c.entries[id].host, Code(reported));
    var status := if reported.Restriction? then Restricted else if Global(reported) then BudgetExhausted else NeedsAdapter;
    Finish(c, held.(stop := stop), id, status, Code(reported), true)
  }

  // The verdicts `inspect` can end with.
  predicate Inspected(scope: Scope, status: Status) {
    status in {NeedsAdapter, Restricted} || status == if scope == ListDiagnosticOnly then CandidateList else SampleReadable
  }

  // ---------------------------------------------------------------- one step of one task

  datatype Outcome = Outcome(ledger: Ledger, task: Task, request: Option<Request>)

  function EnterRow(c: Setup, l: Ledger, id: Id, now: int): Outcome
    requires id in c.entries
  {
    var e := c.entries[id];
    if id in l.results then Outcome(l, Ended, None)
    else if Budget(c, l, now).Some? then Outcome(l.(stop := Budget(c, l, now)), Ended, None)
    else if e.invalid.Some? then Outcome(Finish(c, l, id, InvalidInput, e.invalid.value, false), Ended, None)
    else if e.historical.Some? then Outcome(Finish(c, l, id, Restricted, e.historical.value, false), Ended, None)
    else
      var known := l.(hosts := l.hosts[e.host := HostOr(l, e.host)]);
      if HostOr(l, e.host).blocked.Some? then
        Outcome(Finish(c, known, id, InheritedBlock, "host_blocked:" + HostOr(l, e.host).blocked.value, false), Ended, None)
      else Outcome(known.(running := known.running + {id}), Inspecting(false), None)
  }

  // `_request_once` up to its sleep.
  function AskRequest(c: Setup, l: Ledger, id: Id, t: Task, now: int): Outcome
    requires id in c.entries && t.Inspecting?
  {
    var host := HostOr(l, c.entries[id].host);
    if host.blocked.Some? then Outcome(l, t, None)
    else if Budget(c, l, now).Some? then Outcome(l.(stop := Budget(c, l, now)), t, None)
    else if Count(l.rowRequests, id) >= Cap(c, id) then Outcome(l, t, None)
    else Outcome(l, Sleeping(t.responded, Max(now, host.last + c.limits.spacing)), None)
  }

  // `_request_once` from the end of its sleep to the first byte on the wire.
  function WakeRequest(c: Setup, l: Ledger, id: Id, t: Task, now: int): Outcome
    requires id in c.entries && t.Sleeping?
  {
    var h := c.entries[id].host;
    if Budget(c, l, now).Some? then Outcome(l.(stop := Budget(c, l, now)), Inspecting(t.responded), None)
    else Outcome(IssueRequest(l, id, h, now), InFlight(t.responded), Some(Request(id, h, now)))
  }

  // A step that the state of the task does not allow changes nothing.
  function Perform(c: Setup, s: System, id: Id, now: int, a: Action): Outcome
    requires id in c.entries && id in s.tasks
  {
    var l, t, h := s.ledger, s.tasks[id], c.entries[id].host;
    match a
    case Lock => Outcome(l, if t.Pending? && LockFree(c, s.tasks, LockKey(c.entries[id])) then Locked else t, None)
    case Enter => if t.Locked? && SlotFree(c, s.tasks) then EnterRow(c, l, id, now) else Outcome(l, t, None)
    case Ask => if t.Inspecting? then AskRequest(c, l, id, t, now) else Outcome(l, t, None)
    case Wake => if t.Sleeping? && now >= t.wake then WakeRequest(c, l, id, t, now) else Outcome(l, t, None)
    case Receive(bytes) => Outcome(if t.InFlight? then l.(bytes := l.bytes + bytes) else l, t, None)
    case Respond(success, block) =>
      if !t.InFlight? then Outcome(l, t, None)
      else if success then Outcome(l, Inspecting(true), None)
      else Outcome(if block.Some? then BlockHost(l, h, block.value) else l, Inspecting(t.responded), None)
    case Return(status, reason, hostReason) =>
      if !t.Inspecting? || !t.responded || !Inspected(ScopeOf(c, id), status) then Outcome(l, t, None)
      else Outcome(Finish(c, if status == Restricted then BlockHost(l, h, hostReason) else l, id, status, reason, true), Ended, None)
    case Fail(failure) =>
      // Only check_budget raises a batch failure, and it records the reason before it does.
      if Live(t) && (failure.BatchFailure? ==> l.stop.Some?) then Outcome(FailRow(c, l, id, failure, now), Ended, None)
      else Outcome(l, t, None)
    case Crash(kind) =>
      if Live(t) then Outcome(Finish(c, BlockHost(l, h, "unexpected_error:" + kind), id, Error, "unexpected_error:" + kind, true), Ended, None)
      else Outcome(l, t, None)
    case Cancel =>
      if Live(t) then Outcome(Finish(c, BlockHost(l, h, "request_cancelled"), id, Interrupted, "request_cancelled", true), Ended, None)
      else Outcome(l, Ended, None)
  }

  // ---------------------------------------------------------------- processes

  const RESUMED := "previous_process_interrupted"

  function InterruptedRow(id: Id): RowResult {
    RowResult(id, Interrupted, RESUMED, None, true, None)
  }

  // What the constructor makes of a persisted ledger.
  function Resumed(c: Setup, l: Ledger): Ledger
    requires l.running <= c.entries.Keys
  {
    var cut := set id | id in l.running :: c.entries[id].host;
    l.(results := map id | id in l.results.Keys + l.running :: if id in l.running then InterruptedRow(id) else l.results[id],
       hosts := map h | h in l.hosts.Keys + cut :: if h in cut then HostOr(l, h).(blocked := Some(RESUMED)) else l.hosts[h],
       running := {})
  }

  function Selected(c: Setup, l: Ledger, selection: set<Id>): map<Id, Task> {
    map id | id in selection && id in c.entries && id !in l.results :: Pending
  }

  function FreshLedger(now: int): Ledger {
    Ledger(now, 0, 0, map[], map[], {}, map[], None)
  }

  function FirstProcess(c: Setup, now: int, selection: set<Id>): System {
    System(FreshLedger(now), Selected(c, FreshLedger(now), selection), [], now)
  }

  function Step(c: Setup, s: System, e: Event): System {
    if e.now < s.clock then s
    else
      match e
      case Act(id, now, action) =>
        if id !in c.entries || id !in s.tasks then s
        else
          var o := Perform(c, s, id, now, action);
          System(o.ledger, s.tasks[id := o.task], if o.request.Some? then s.sent + [o.request.value] else s.sent, now)
      case Restart(now, selection) =>
        if !(s.ledger.running <= c.entries.Keys) then s
        else
          var l := Resumed(c, s.ledger);
          System(l, Selected(c, l, selection), s.sent, now)
  }

  function Exec(c: Setup, s: System, es: seq<Event>): System {
    if es == [] then s else Step(c, Exec(c, s, es[..|es| - 1]), es[|es| - 1])
  }
}
