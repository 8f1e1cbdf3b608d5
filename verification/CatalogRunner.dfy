/**
 The runner object itself: each method is the code of scripts/tender_sources/catalog_run.py between
 two suspension points, updates the shared ledger in place and is proved to be a step of
 CatalogModel.
 */
module CatalogRunner {
  import opened Prelude
  import opened CatalogModel

  // What the command line and the catalog file give; `offline` is a run with a transport of its own, and
  // `forbidden` an output path with a symbolic link on it or inside the repository.
  datatype Input = Input(order: seq<Id>, entries: map<Id, Entry>, limits: Limits, selection: Option<set<Id>>, code: string,
                         offline: bool, forbidden: bool, resume: bool)

  // The ledger file of an earlier process. The policy is absent when its list is not sorted, repeats an
  // entry or does not match its recorded digest.
  datatype Saved = Saved(order: seq<Id>, entries: map<Id, Entry>, limits: Limits, code: string, policy: Option<set<Id>>, ledger: Ledger)

  // What stands at the output path: an occupied one is safe when it is a private directory of private files,
  // and busy while another process holds its lock.
  datatype Place = Vacant | Occupied(safe: bool, busy: bool, saved: Saved)

  datatype Refusal =
    | UnknownReview | InvalidLimits | OutputForbidden | OutputExists | OutputUnsafe | OutputMissing | OutputLocked | RepeatedEntry
    | InputChanged | CodeChanged | PolicyDamaged | PolicyChanged

  predicate AllReview(entries: map<Id, Entry>, ids: set<Id>) {
    forall id :: id in ids ==> id in entries && entries[id].group == ReviewGroup
  }

  predicate LimitsOk(l: Limits, offline: bool) {
    && 0 < l.maxRequests <= 8000 && 0 < l.maxBytes <= 1_000_000_000 && 0 < l.maxSeconds <= 5400
    && 0 < l.mainRequests <= 12 && 0 < l.reviewRequests <= 3 && 0 < l.concurrency <= 4 && (offline || l.spacing >= 2)
    && 0 < l.rowSeconds <= 60 && 0 < l.pageBytes <= 2_000_000
  }

  function Chosen(selection: Option<set<Id>>): set<Id> {
    if selection.Some? then selection.value else {}
  }

  // A later process continues exactly the run it finds.
  predicate SameRun(input: Input, saved: Saved) {
    && saved.order == input.order && saved.entries == input.entries && saved.limits == input.limits && saved.code == input.code
    && saved.policy.Some? && AllReview(input.entries, saved.policy.value)
    && (input.selection.Some? ==> input.selection == saved.policy)
  }

  predicate PlaceOk(input: Input, place: Place) {
    && !input.forbidden
    && match place
       case Vacant => !input.resume
       case Occupied(safe, busy, _) => input.resume && safe && !busy
  }

  // The first check that fails, in order.
  function FirstRefusal(input: Input, place: Place): Option<Refusal> {
    if input.selection.Some? && !AllReview(input.entries, input.selection.value) then Some(UnknownReview)
    else if !LimitsOk(input.limits, input.offline) then Some(InvalidLimits)
    else if input.forbidden then Some(OutputForbidden)
    else if place.Occupied? && !input.resume then Some(OutputExists)
    else if place.Occupied? && !place.safe then Some(OutputUnsafe)
    else if place.Vacant? && input.resume then Some(OutputMissing)
    else if place.Occupied? && place.busy then Some(OutputLocked)
    else if !NoRepeats(input.order) then Some(RepeatedEntry)
    else if place.Vacant? then None
    else
      var state := place.saved;
      if state.order != input.order || state.entries != input.entries || state.limits != input.limits then Some(InputChanged)
      else if state.code != input.code then Some(CodeChanged)
      else if state.policy.None? || !AllReview(input.entries, state.policy.value) then Some(PolicyDamaged)
      else if input.selection.Some? && input.selection != state.policy then Some(PolicyChanged)
      else None
  }

  class Runner {
    const setup: Setup
    var startedAt: int
    var requests: nat
    var bytes: nat
    var rowRequests: map<Id, nat>
    var results: map<Id, RowResult>
    var running: set<Id>
    var hosts: map<Host, HostState>
    var stop: Option<StopReason>

    function Current(): Ledger
      reads this
    {
      Ledger(startedAt, requests, bytes, rowRequests, results, running, hosts, stop)
    }

    constructor Start(c: Setup, now: int)
      ensures setup == c && Current() == FreshLedger(now)
    {
      setup := c;
      startedAt, requests, bytes := now, 0, 0;
      rowRequests, results, running, hosts, stop := map[], map[], {}, map[], None;
    }

    constructor Resume(c: Setup, l: Ledger)
      requires l.running <= c.entries.Keys && l.running !! l.results.Keys
      ensures setup == c && Current() == Resumed(c, l)
    {
      var results', hosts' := InterruptAll(c, l);
      setup := c;
      startedAt, requests, bytes := l.startedAt, l.requests, l.bytes;
      rowRequests, results, running, hosts, stop := l.rowRequests, results', {}, hosts', l.stop;
    }

    // Opening a new output or continuing a stored one.
    static method OpenRun(input: Input, place: Place, now: int) returns (result: Result<Runner, Refusal>)
      requires |input.order| > 0 && input.entries.Keys == (set id | id in input.order)
      requires place.Occupied? ==> place.saved.ledger.running <= place.saved.entries.Keys
                                   && place.saved.ledger.running !! place.saved.ledger.results.Keys
      ensures result.Ok? <==> (input.selection.Some? ==> AllReview(input.entries, input.selection.value))
                              && LimitsOk(input.limits, input.offline) && NoRepeats(input.order) && PlaceOk(input, place)
                              && (place.Occupied? ==> SameRun(input, place.saved))
      ensures result.Err? ==> FirstRefusal(input, place) == Some(result.error)
      ensures result.Ok? ==> fresh(result.value) && ValidSetup(result.value.setup)
      ensures result.Ok? && place.Vacant? ==>
                && result.value.setup == Setup(input.order, input.entries, input.limits, Chosen(input.selection))
                && result.value.Current() == FreshLedger(now)
      ensures result.Ok? && place.Occupied? ==>
                var state := place.saved;
                && state.policy.Some? && state.ledger.running <= result.value.setup.entries.Keys
                && result.value.setup == Setup(state.order, state.entries, state.limits, state.policy.value)
                && result.value.Current() == Resumed(result.value.setup, state.ledger)
    {
      hide Resumed;
      if input.selection.Some? && !AllReview(input.entries, input.selection.value) { return Err(UnknownReview); }
      if !LimitsOk(input.limits, input.offline) { return Err(InvalidLimits); }
      if input.forbidden { return Err(OutputForbidden); }
      if place.Occupied? {
        if !input.resume { return Err(OutputExists); }
        if !place.safe { return Err(OutputUnsafe); }
        if place.busy { return Err(OutputLocked); }
      } else if input.resume {
        return Err(OutputMissing);
      }
      if !NoRepeats(input.order) { return Err(RepeatedEntry); }
      if place.Vacant? {
        var runner := new Runner.Start(Setup(input.order, input.entries, input.limits, Chosen(input.selection)), now);
        return Ok(runner);
      }
      var state := place.saved;
      if state.order != input.order || state.entries != input.entries || state.limits != input.limits { return Err(InputChanged); }
      if state.code != input.code { return Err(CodeChanged); }
      if state.policy.None? || !AllReview(input.entries, state.policy.value) { return Err(PolicyDamaged); }
      if input.selection.Some? && input.selection != state.policy { return Err(PolicyChanged); }
      var runner := new Runner.Resume(Setup(input.order, input.entries, input.limits, state.policy.value), state.ledger);
      return Ok(runner);
    }

    method CheckBudget(now: int) returns (reason: Option<StopReason>)
      modifies this`stop
      ensures reason == old(Budget(setup, Current(), now))
      ensures Current() == old(Current()).(stop := reason)
    {
      reason := stop;
      if reason.None? {
        if requests >= setup.limits.maxRequests {
          reason := Some(RequestBudget);
        } else if bytes >= setup.limits.maxBytes {
          reason := Some(BytesBudget);
        } else if now - startedAt >= setup.limits.maxSeconds {
          reason := Some(Duration);
        }
      }
      stop := reason;
    }

    method FinishRow(id: Id, status: Status, reason: string, tested: bool)
      requires id in setup.entries
      modifies this`results, this`running
      ensures Current() == Finish(setup, old(Current()), id, status, reason, tested)
    {
      var scope := if setup.entries[id].group != ReviewGroup then MainDetailSamples
                   else if id in setup.opted then ReviewDetailSamples else ListDiagnosticOnly;
      results := results[id := RowResult(id, status, reason, Some(if id in rowRequests then rowRequests[id] else 0), tested, Some(scope))];
      running := running - {id};
    }

    method Block(h: Host, reason: string)
      modifies this`hosts
      ensures Current() == BlockHost(old(Current()), h, reason)
    {
      var state := if h in hosts then hosts[h] else HostState(None, 0);
      hosts := hosts[h := state.(blocked := Some(reason))];
    }

    // `row`, from the moment it holds the host lock and a slot to its first network operation.
    method RowEnter(id: Id, now: int) returns (task: Task)
      requires id in setup.entries
      modifies this
      ensures Outcome(Current(), task, None) == old(EnterRow(setup, Current(), id, now))
    {
      var entry := setup.entries[id];
      if id in results { return Ended; }
      var over := CheckBudget(now);
      if over.Some? { return Ended; }
      if entry.invalid.Some? {
        FinishRow(id, InvalidInput, entry.invalid.value, false);
        return Ended;
      }
      if entry.historical.Some? {
        FinishRow(id, Restricted, entry.historical.value, false);
        return Ended;
      }
      if entry.host !in hosts { hosts := hosts[entry.host := HostState(None, 0)]; }
      if hosts[entry.host].blocked.Some? {
        FinishRow(id, InheritedBlock, "host_blocked:" + hosts[entry.host].blocked.value, false);
        return Ended;
      }
      running := running + {id};
      task := Inspecting(false);
    }

    method RequestAsked(id: Id, t: Task, now: int) returns (task: Task)
      requires id in setup.entries && t.Inspecting? && setup.entries[id].host in hosts
      modifies this`stop
      ensures Outcome(Current(), task, None) == old(AskRequest(setup, Current(), id, t, now))
    {
      var host := hosts[setup.entries[id].host];
      if host.blocked.Some? { return t; }
      var over := CheckBudget(now);
      if over.Some? { return t; }
      var maximum := if setup.entries[id].group == ReviewGroup && id !in setup.opted then setup.limits.reviewRequests
                     else setup.limits.mainRequests;
      if (if id in rowRequests then rowRequests[id] else 0) >= maximum { return t; }
      task := Sleeping(t.responded, now + Max(0, host.last + setup.limits.spacing - now));
    }

    method RequestDue(id: Id, t: Task, now: int) returns (task: Task, request: Option<Request>)
      requires id in setup.entries && t.Sleeping? && setup.entries[id].host in hosts
      modifies this
      ensures Outcome(Current(), task, request) == old(WakeRequest(setup, Current(), id, t, now))
    {
      var over := CheckBudget(now);
      if over.Some? { return Inspecting(t.responded), None; }
      var h := setup.entries[id].host;
      requests := requests + 1;
      rowRequests := rowRequests[id := (if id in rowRequests then rowRequests[id] else 0) + 1];
      hosts := hosts[h := hosts[h].(last := now)];
      task, request := InFlight(t.responded), Some(Request(id, h, now));
    }

    // The handlers of a source error or a timeout.
    method RowFailed(id: Id, failure: Failure, now: int)
      requires id in setup.entries
      modifies this
      ensures Current() == FailRow(setup, old(Current()), id, failure, now)
    {
      hide Code, Finish;
      var reported := failure;
      if now - startedAt >= setup.limits.maxSeconds {
        reported := BatchFailure(Duration);
        stop := Some(Duration);
      }
      if reported == TotalBytes || reported == BatchFailure(BytesBudget) { stop := Some(BytesBudget); }
      var everywhere := reported.BatchFailure? || reported.TotalBytes?;
      if !everywhere { Block(setup.entries[id].host, Code(reported)); }
      FinishRow(id, if reported.Restriction? then Restricted else if everywhere then BudgetExhausted else NeedsAdapter, Code(reported), true);
    }
  }

  // Rows that were under way when the last process ended become interrupted, one after another.
  method InterruptAll(c: Setup, l: Ledger) returns (results: map<Id, RowResult>, hosts: map<Host, HostState>)
    requires l.running <= c.entries.Keys && l.running !! l.results.Keys
    ensures results == Resumed(c, l).results && hosts == Resumed(c, l).hosts
  {
    hide Resumed;
    results, hosts := l.results, l.hosts;
    ghost var done: set<Id> := {};
    var left := l.running;
    ResumeNone(c, l);
    while left != {}
      invariant left <= l.running && done == l.running - left
      invariant results == Resumed(c, l.(running := done)).results && hosts == Resumed(c, l.(running := done)).hosts
      decreases |left|
    {
      var id :| id in left;
      left := left - {id};
      results := results[id := InterruptedRow(id)];
      var h := c.entries[id].host;
      hosts := hosts[h := (if h in hosts then hosts[h] else HostState(None, 0)).(blocked := Some(RESUMED))];
      ResumeOne(c, l, done, id);
      done := done + {id};
    }
    assert done == l.running;
  }

  lemma ResumeNone(c: Setup, l: Ledger)
    ensures Resumed(c, l.(running := {})).results == l.results && Resumed(c, l.(running := {})).hosts == l.hosts
  {
  }

  lemma ResumeOne(c: Setup, l: Ledger, done: set<Id>, id: Id)
    requires done <= l.running <= c.entries.Keys && id in l.running && id !in done && l.running !! l.results.Keys
    ensures var before, after := Resumed(c, l.(running := done)), Resumed(c, l.(running := done + {id}));
            var h := c.entries[id].host;
            && after.results == before.results[id := InterruptedRow(id)]
            && after.hosts == before.hosts[h := (if h in before.hosts then before.hosts[h] else HostState(None, 0)).(blocked := Some(RESUMED))]
  {
  }
}
