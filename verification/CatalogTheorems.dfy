/**
 What the catalog runner and the merger promise together: bounded, spaced and attributable
 requests over every interleaving and restart, ledgers the merger accepts, and totals that add up.
 */
module CatalogTheorems {
  import opened Prelude
  import opened Text
  import opened CatalogModel
  import opened CatalogSafety
  import opened CatalogMerge

  // ---------------------------------------------------------------- the runner

  // The requests on the wire are exactly the counted ones; quotas and spacing hold.
  lemma RequestsBounded(c: Setup, now: int, selection: set<Id>, es: seq<Event>)
    requires ValidSetup(c) && now > 0
    ensures var s := Exec(c, FirstProcess(c, now, selection), es);
            && |s.sent| == s.ledger.requests == SumOf(c.order, s.ledger.rowRequests) <= c.limits.maxRequests
            && (forall id :: SentBy(s.sent, id) == Count(s.ledger.rowRequests, id))
            && (forall id :: id in c.entries ==> SentBy(s.sent, id) <= Cap(c, id))
            && Spaced(c, s.sent)
  {
    hide SumOf, Spaced, Exec, FirstProcess, Attributed, TasksOk, LocksApart, NoRepeats, Cap;
    CatalogInvariant(c, now, selection, es);
  }

  // A request that a step adds goes to an unblocked host before any stop.
  lemma IssuedWhileOpen(c: Setup, s: System, e: Event)
    requires Inv(c, s)
    ensures var t := Step(c, s, e);
            && s.sent <= t.sent
            && (|t.sent| > |s.sent| ==>
                  && |t.sent| == |s.sent| + 1 && s.ledger.stop.None?
                  && t.sent[|s.sent|].host in s.ledger.hosts && s.ledger.hosts[t.sent[|s.sent|].host].blocked.None?)
            && (s.ledger.stop.Some? ==> t.ledger.stop.Some?)
            && (forall h :: h in s.ledger.hosts && s.ledger.hosts[h].blocked.Some? ==> h in t.ledger.hosts && t.ledger.hosts[h].blocked.Some?)
  {
    hide Perform, Resumed, HistoryOk, SumOf, NoRepeats, Cap, LocksApart;
    if e.now >= s.clock {
      match e
      case Act(id, now, action) => if id in c.entries && id in s.tasks { ActIssues(c, s, id, now, action); }
      case Restart(now, selection) => ResumedBlocks(c, s.ledger);
    }
  }

  lemma ActIssues(c: Setup, s: System, id: Id, now: int, a: Action)
    requires Inv(c, s) && id in c.entries && id in s.tasks && now >= s.clock
    ensures var o := Perform(c, s, id, now, a);
            && (o.request.Some? ==> s.ledger.stop.None? && o.request.value.host in s.ledger.hosts && s.ledger.hosts[o.request.value.host].blocked.None?)
            && (s.ledger.stop.Some? ==> o.ledger.stop.Some?)
            && (forall h :: h in s.ledger.hosts && s.ledger.hosts[h].blocked.Some? ==> h in o.ledger.hosts && o.ledger.hosts[h].blocked.Some?)
  {
    hide Perform, RowOk, HistoryOk, SumOf, NoRepeats, Cap, LocksApart, LockKey;
    AttributedRow(c, s.ledger, id);
    assert TaskOk(c, s.ledger, id, s.tasks[id]);
    PerformOk(c, s, id, now, a);
    PerformCounts(c, s, id, now, a);
  }

  lemma ResumedBlocks(c: Setup, l: Ledger)
    requires l.running <= c.entries.Keys
    ensures Resumed(c, l).stop == l.stop
    ensures forall h :: h in l.hosts && l.hosts[h].blocked.Some? ==> h in Resumed(c, l).hosts && Resumed(c, l).hosts[h].blocked.Some?
  {
  }

  // Once a host is blocked, or the batch is stopped, no later step and no later process issues
  // another request to that host, or to any host.
  lemma {:induction false} QuietForGood(c: Setup, s: System, es: seq<Event>, h: Host)
    requires Inv(c, s)
    ensures var t := Exec(c, s, es);
            && Inv(c, t) && s.sent <= t.sent
            && (s.ledger.stop.Some? ==> t.ledger.stop.Some? && t.sent == s.sent)
            && (h in s.ledger.hosts && s.ledger.hosts[h].blocked.Some? ==>
                  && h in t.ledger.hosts && t.ledger.hosts[h].blocked.Some?
                  && forall i :: |s.sent| <= i < |t.sent| ==> t.sent[i].host != h)
  {
    hide Inv, Step;
    if es != [] {
      QuietForGood(c, s, es[..|es| - 1], h);
      var mid := Exec(c, s, es[..|es| - 1]);
      IssuedWhileOpen(c, mid, es[|es| - 1]);
      StepKeeps(c, mid, es[|es| - 1]);
    }
  }

  // A row whose host is already blocked: it does not run, and its result, once it has one, costs nothing.
  predicate BehindBlock(c: Setup, l: Ledger, id: Id)
    requires id in c.entries
  {
    && c.entries[id].host in l.hosts && l.hosts[c.entries[id].host].blocked.Some? && id !in l.running
    && (id in l.results ==>
          && l.results[id].status in {InvalidInput, Restricted, InheritedBlock} && !l.results[id].tested
          && l.results[id].requests == Some(0))
  }

  lemma EnterBehindBlock(c: Setup, l: Ledger, id: Id, now: int)
    requires id in c.entries && BehindBlock(c, l, id) && Count(l.rowRequests, id) == 0
    ensures BehindBlock(c, EnterRow(c, l, id, now).ledger, id)
  {
    hide ScopeOf, Budget;
  }

  lemma ActBehindBlock(c: Setup, s: System, k: Id, now: int, a: Action, id: Id)
    requires Inv(c, s) && k in c.entries && k in s.tasks && now >= s.clock && id in c.entries && BehindBlock(c, s.ledger, id)
    ensures BehindBlock(c, Perform(c, s, k, now, a).ledger, id)
  {
    hide HistoryOk, SumOf, NoRepeats, Cap, LocksApart, LockKey, EnterRow, AskRequest, WakeRequest, FailRow, Finish, Moved, RowOk, ResultOk;
    AttributedRow(c, s.ledger, id);
    AttributedRow(c, s.ledger, k);
    assert TaskOk(c, s.ledger, k, s.tasks[k]);
    if k == id {
      assert !Live(s.tasks[id]);
      NoCount(c, s.ledger, id);
      EnterBehindBlock(c, s.ledger, id, now);
    } else {
      PerformOk(c, s, k, now, a);
      MovedBehind(c, s.ledger, Perform(c, s, k, now, a).ledger, k, id);
    }
  }

  lemma MovedBehind(c: Setup, l: Ledger, m: Ledger, k: Id, id: Id)
    requires k in c.entries && id in c.entries && k != id && Moved(c, l, m, k) && BehindBlock(c, l, id)
    ensures BehindBlock(c, m, id)
  {
  }

  lemma NoCount(c: Setup, l: Ledger, id: Id)
    requires id in c.entries && RowOk(c, l, id) && BehindBlock(c, l, id)
    ensures Count(l.rowRequests, id) == 0
  {
  }

  lemma RestartBehindBlock(c: Setup, l: Ledger, id: Id)
    requires id in c.entries && l.running <= c.entries.Keys && BehindBlock(c, l, id)
    ensures BehindBlock(c, Resumed(c, l), id)
  {
  }

  // Once a host is blocked, every row of it that neither ran nor ended before ends, if at all, with a
  // result that made no request, in this process or any later one.
  lemma {:induction false} RowsBehindBlock(c: Setup, s: System, es: seq<Event>, id: Id)
    requires Inv(c, s) && id in c.entries && BehindBlock(c, s.ledger, id)
    ensures Inv(c, Exec(c, s, es)) && BehindBlock(c, Exec(c, s, es).ledger, id)
  {
    hide Inv, Perform, Resumed, BehindBlock;
    if es != [] {
      var mid, e := Exec(c, s, es[..|es| - 1]), es[|es| - 1];
      RowsBehindBlock(c, s, es[..|es| - 1], id);
      StepKeeps(c, mid, e);
      if e.now >= mid.clock {
        if e.Act? && e.id in c.entries && e.id in mid.tasks { ActBehindBlock(c, mid, e.id, e.now, e.action, id); }
        if e.Restart? && mid.ledger.running <= c.entries.Keys { RestartBehindBlock(c, mid.ledger, id); }
      }
    }
  }

  // ---------------------------------------------------------------- concurrency

  function LiveRows(tasks: map<Id, Task>): set<Id> {
    set id | id in tasks && Live(tasks[id])
  }

  // A row comes alive only through a free slot.
  lemma PerformSlots(c: Setup, s: System, id: Id, now: int, a: Action)
    requires id in c.entries && id in s.tasks
    ensures Live(Perform(c, s, id, now, a).task) && !Live(s.tasks[id]) ==> |LiveRows(s.tasks)| < Min(4, c.limits.concurrency)
  {
    hide LockFree, Cap, ScopeOf, Inspected, Code, Budget, Finish, BlockHost, IssueRequest, FailRow, LockKey;
  }

  lemma LiveAfter(tasks: map<Id, Task>, id: Id, t: Task)
    ensures |LiveRows(tasks[id := t])| <= |LiveRows(tasks)| + if Live(t) && !(id in tasks && Live(tasks[id])) then 1 else 0
  {
    var before, after := LiveRows(tasks), LiveRows(tasks[id := t]);
    if Live(t) && id !in before {
      assert after == before + {id};
    } else {
      Smaller(after, before);
    }
  }

  lemma Smaller(a: set<Id>, b: set<Id>)
    requires a <= b
    ensures |a| <= |b|
  {
    if a != {} {
      var x :| x in a;
      Smaller(a - {x}, b - {x});
    }
  }

  // At no time are more rows under way than there are slots, whatever the interleaving.
  lemma {:induction false} LiveRowsBounded(c: Setup, now: int, selection: set<Id>, es: seq<Event>)
    ensures |LiveRows(Exec(c, FirstProcess(c, now, selection), es).tasks)| <= Min(4, c.limits.concurrency)
  {
    hide Perform, LiveRows, Live;
    if es == [] {
      NoneLive(c, FreshLedger(now), selection);
    } else {
      var mid, e := Exec(c, FirstProcess(c, now, selection), es[..|es| - 1]), es[|es| - 1];
      LiveRowsBounded(c, now, selection, es[..|es| - 1]);
      if e.now >= mid.clock {
        match e
        case Act(id, at, action) =>
          if id in c.entries && id in mid.tasks {
            PerformSlots(c, mid, id, at, action);
            LiveAfter(mid.tasks, id, Perform(c, mid, id, at, action).task);
          }
        case Restart(_, chosen) => if mid.ledger.running <= c.entries.Keys { NoneLive(c, Resumed(c, mid.ledger), chosen); }
      }
    }
  }

  lemma NoneLive(c: Setup, l: Ledger, selection: set<Id>)
    ensures LiveRows(Selected(c, l, selection)) == {}
  {
  }

  // ---------------------------------------------------------------- the runner's ledgers

  function BatchOf(c: Setup, l: Ledger, digest: string): Batch {
    Batch(c.order, c.entries, c.opted, l, digest)
  }

  lemma PerformStart(c: Setup, s: System, id: Id, now: int, a: Action)
    requires id in c.entries && id in s.tasks
    ensures Perform(c, s, id, now, a).ledger.startedAt == s.ledger.startedAt
  {
    hide Budget, Cap, ScopeOf, LockFree, SlotFree, Inspected, Code;
  }

  lemma {:induction false} StartedOnce(c: Setup, s: System, es: seq<Event>)
    ensures var t := Exec(c, s, es); t.ledger.startedAt == s.ledger.startedAt && t.clock >= s.clock
  {
    hide Perform;
    if es != [] {
      var mid, e := Exec(c, s, es[..|es| - 1]), es[|es| - 1];
      StartedOnce(c, s, es[..|es| - 1]);
      if e.Act? && e.id in c.entries && e.id in mid.tasks { PerformStart(c, mid, e.id, e.now, e.action); }
    }
  }

  predicate Uninterrupted(l: Ledger) {
    forall id :: id in l.results ==> l.results[id].status != Interrupted
  }

  // Producer and consumer agree: of all the ledgers the runner ever persists, the merger accepts
  // exactly those with no row under way and no interrupted row.
  lemma LedgerAccepted(c: Setup, now: int, selection: set<Id>, es: seq<Event>, digest: string, clock: int)
    requires ValidSetup(c) && now > 0 && clock >= Exec(c, FirstProcess(c, now, selection), es).clock
    ensures var l := Exec(c, FirstProcess(c, now, selection), es).ledger;
            Accepts(BatchOf(c, l, digest), clock) <==> l.running == {} && Uninterrupted(l)
  {
    hide Exec, HistoryOk, TasksOk, LocksApart, SumOf, NoRepeats;
    var s := Exec(c, FirstProcess(c, now, selection), es);
    var b := BatchOf(c, s.ledger, digest);
    CatalogInvariant(c, now, selection, es);
    StartedOnce(c, FirstProcess(c, now, selection), es);
    if s.ledger.running == {} && Uninterrupted(s.ledger) {
      forall id | id in s.ledger.results ensures RowAccepted(b, id, s.ledger.results[id]) {
        assert ResultOk(c, s.ledger.rowRequests, s.ledger.stop, id, s.ledger.results[id]);
      }
    } else if Accepts(b, clock) {
      forall id | id in s.ledger.results ensures s.ledger.results[id].status != Interrupted {
        assert RowAccepted(b, id, s.ledger.results[id]);
      }
    }
  }

  // ---------------------------------------------------------------- the merger's totals

  function SumPhysical(bs: seq<Batch>, ids: seq<Id>): nat {
    if ids == [] then 0 else SumPhysical(bs, ids[..|ids| - 1]) + Physical(bs, ids[|ids| - 1])
  }

  // Adding a batch adds the sum of its counters, entry by entry.
  lemma {:induction false} SumPhysicalGrows(bs: seq<Batch>, ids: seq<Id>)
    requires |bs| > 0
    ensures SumPhysical(bs, ids) == SumPhysical(bs[..|bs| - 1], ids) + SumOf(ids, bs[|bs| - 1].ledger.rowRequests)
  {
    if ids != [] { SumPhysicalGrows(bs, ids[..|ids| - 1]); }
  }

  lemma {:induction false} NoPhysical(ids: seq<Id>)
    ensures SumPhysical([], ids) == 0
  {
    if ids != [] { NoPhysical(ids[..|ids| - 1]); }
  }

  // Summing by entry and summing by batch count the same requests.
  lemma {:induction false} ExchangeSums(bs: seq<Batch>, ids: seq<Id>)
    requires forall k :: 0 <= k < |bs| ==> bs[k].ledger.requests == SumOf(ids, bs[k].ledger.rowRequests)
    ensures SumPhysical(bs, ids) == BatchRequests(bs)
  {
    hide SumOf;
    if bs == [] {
      NoPhysical(ids);
    } else {
      ExchangeSums(bs[..|bs| - 1], ids);
      SumPhysicalGrows(bs, ids);
    }
  }

  // The two groups split every count of the whole catalog.
  lemma {:induction false} GroupsSplit(bs: seq<Batch>, entries: map<Id, Entry>, ids: seq<Id>, shown: Shown)
    requires forall id :: id in ids ==> id in entries
    ensures var all, main, review := TallyOf(bs, entries, ids, None), TallyOf(bs, entries, ids, Some(MainGroup)), TallyOf(bs, entries, ids, Some(ReviewGroup));
            && all.inputCount == |ids| == main.inputCount + review.inputCount
            && Shows(all.statuses, shown) == Shows(main.statuses, shown) + Shows(review.statuses, shown)
            && all.attributed == main.attributed + review.attributed
            && all.tested == main.tested + review.tested
            && all.physical == main.physical + review.physical == SumPhysical(bs, ids)
  {
    hide Latest, Physical;
    if ids != [] { GroupsSplit(bs, entries, ids[..|ids| - 1], shown); }
  }

  // ---------------------------------------------------------------- statuses partition the rows

  const ALL_SHOWN := [NotExecuted, Executed(SampleReadable), Executed(CandidateList), Executed(NeedsAdapter), Executed(BodyIncomplete),
                      Executed(Restricted), Executed(InvalidInput), Executed(InheritedBlock), Executed(Error),
                      Executed(BudgetExhausted), Executed(Interrupted)]

  function SumShown(list: seq<Shown>, statuses: map<Shown, nat>): nat {
    if list == [] then 0 else SumShown(list[..|list| - 1], statuses) + Shows(statuses, list[|list| - 1])
  }

  lemma {:induction false} SumShownUpdate(list: seq<Shown>, statuses: map<Shown, nat>, shown: Shown)
    requires forall i, j :: 0 <= i < j < |list| ==> list[i] != list[j]
    ensures SumShown(list, statuses[shown := Shows(statuses, shown) + 1]) == SumShown(list, statuses) + if shown in list then 1 else 0
  {
    if list != [] {
      SumShownUpdate(list[..|list| - 1], statuses, shown);
      assert list == list[..|list| - 1] + [list[|list| - 1]];
    }
  }

  lemma EveryShown(shown: Shown)
    ensures shown in ALL_SHOWN
  {
    match shown
    case NotExecuted => assert ALL_SHOWN[0] == shown;
    case Executed(status) =>
      match status
      case SampleReadable => assert ALL_SHOWN[1] == shown;
      case CandidateList => assert ALL_SHOWN[2] == shown;
      case NeedsAdapter => assert ALL_SHOWN[3] == shown;
      case BodyIncomplete => assert ALL_SHOWN[4] == shown;
      case Restricted => assert ALL_SHOWN[5] == shown;
      case InvalidInput => assert ALL_SHOWN[6] == shown;
      case InheritedBlock => assert ALL_SHOWN[7] == shown;
      case Error => assert ALL_SHOWN[8] == shown;
      case BudgetExhausted => assert ALL_SHOWN[9] == shown;
      case Interrupted => assert ALL_SHOWN[10] == shown;
  }

  lemma {:induction false} NothingShown(list: seq<Shown>)
    ensures SumShown(list, map[]) == 0
  {
    if list != [] { NothingShown(list[..|list| - 1]); }
  }

  lemma {:induction false} StatusesPartition(bs: seq<Batch>, entries: map<Id, Entry>, ids: seq<Id>, group: Option<Group>)
    ensures var t := TallyOf(bs, entries, ids, group); SumShown(ALL_SHOWN, t.statuses) == t.inputCount
  {
    hide SumShown, Latest, Physical;
    if ids == [] {
      NothingShown(ALL_SHOWN);
    } else {
      var before := TallyOf(bs, entries, ids[..|ids| - 1], group);
      var latest := Latest(bs, ids[|ids| - 1]);
      StatusesPartition(bs, entries, ids[..|ids| - 1], group);
      SumShownUpdate(ALL_SHOWN, before.statuses, latest.shown);
      EveryShown(latest.shown);
    }
  }

  // ---------------------------------------------------------------- the latest result

  // A record repeats status, reason, requests and testing of a result, and names its batch.
  predicate Copies(x: Record, r: RowResult, k: nat) {
    && x.shown == Executed(r.status) && x.reason == r.reason && x.tested == r.tested && x.batch == Some(k)
    && (r.requests.Some? ==> x.requests == r.requests.value)
  }

  // What the report shows of an entry is the result of the last batch that has one.
  lemma {:induction false} LatestIsLast(bs: seq<Batch>, id: Id)
    ensures match Latest(bs, id).batch
            case None =>
              Latest(bs, id) == Record(NotExecuted, "no_actual_result", 0, false, None) && forall k :: 0 <= k < |bs| ==> id !in bs[k].ledger.results
            case Some(k) => k < |bs| && id in bs[k].ledger.results && Copies(Latest(bs, id), bs[k].ledger.results[id], k)
                            && forall j :: k < j < |bs| ==> id !in bs[j].ledger.results
  {
    if bs != [] {
      LatestIsLast(bs[..|bs| - 1], id);
    }
  }

  // The history begins with the earliest batch that holds the entry, and two records mean two batches.
  lemma {:induction false} HistoryStarts(bs: seq<Batch>, id: Id)
    ensures History(bs, id) == [] <==> forall k :: 0 <= k < |bs| ==> id !in bs[k].ledger.results
    ensures History(bs, id) != [] ==>
              exists k :: 0 <= k < |bs| && id in bs[k].ledger.results && Copies(History(bs, id)[0], bs[k].ledger.results[id], k)
                          && forall j :: 0 <= j < k ==> id !in bs[j].ledger.results
    ensures |History(bs, id)| > 1 <==> exists j, k :: 0 <= j < k < |bs| && id in bs[j].ledger.results && id in bs[k].ledger.results
  {
    if bs != [] {
      var front := bs[..|bs| - 1];
      HistoryStarts(front, id);
      assert forall k :: 0 <= k < |front| ==> front[k] == bs[k];
    }
  }

  predicate Ascends(history: seq<Record>, n: nat) {
    && (forall i :: 0 <= i < |history| ==> history[i].batch.Some? && history[i].batch.value < n)
    && (forall i, j :: 0 <= i < j < |history| ==> history[i].batch.Some? && history[j].batch.Some? && history[i].batch.value < history[j].batch.value)
  }

  lemma AscendsNext(older: seq<Record>, x: Record, n: nat)
    requires Ascends(older, n) && x.batch == Some(n)
    ensures Ascends(older + [x], n + 1)
  {
  }

  // The history holds copies of results only,
  lemma {:induction false} HistoryCopies(bs: seq<Batch>, id: Id, x: Record)
    requires x in History(bs, id)
    ensures x.batch.Some? && x.batch.value < |bs| && id in bs[x.batch.value].ledger.results && Copies(x, bs[x.batch.value].ledger.results[id], x.batch.value)
  {
    var front := bs[..|bs| - 1];
    if x in History(front, id) { HistoryCopies(front, id, x); }
  }

  // one for every batch that has a result,
  lemma {:induction false} HistoryComplete(bs: seq<Batch>, id: Id, k: nat)
    requires k < |bs| && id in bs[k].ledger.results
    ensures RecordOf(bs[k].ledger.results[id], k) in History(bs, id)
  {
    if k < |bs| - 1 { HistoryComplete(bs[..|bs| - 1], id, k); }
  }

  // in the order of the batches.
  lemma {:induction false} HistoryIsOrdered(bs: seq<Batch>, id: Id)
    ensures Ascends(History(bs, id), |bs|)
  {
    if bs != [] {
      var front, last := bs[..|bs| - 1], bs[|bs| - 1];
      HistoryIsOrdered(front, id);
      hide Ascends;
      AscendsLater(History(front, id), |front|);
      if id in last.ledger.results {
        AscendsNext(History(front, id), RecordOf(last.ledger.results[id], |front|), |front|);
      } else {
        assert History(bs, id) == History(front, id);
      }
    }
  }

  lemma AscendsLater(history: seq<Record>, n: nat)
    requires Ascends(history, n)
    ensures Ascends(history, n + 1)
  {
  }

  // An entry whose earliest batch j failed in the tool itself and which a later batch visited again.
  predicate VisitedAgain(bs: seq<Batch>, id: Id, j: nat)
    requires j < |bs| && id in bs[j].ledger.results
  {
    && (forall i :: 0 <= i < j ==> id !in bs[i].ledger.results)
    && (exists k :: j < k < |bs| && id in bs[k].ledger.results)
    && ((j == 0 && bs[j].ledger.results[id].status == Error) || Contains(bs[j].ledger.results[id].reason, "unexpected_error:"))
  }

  lemma RevisitedMeans(bs: seq<Batch>, id: Id)
    requires |bs| > 0
    ensures Revisited(RowOf(bs, id)) <==> exists j :: 0 <= j < |bs| && id in bs[j].ledger.results && VisitedAgain(bs, id, j)
  {
    hide History, Contains;
    HistoryStarts(bs, id);
  }

  lemma {:induction false} GapsListed(rows: seq<Row>, gap: Gap)
    ensures gap in GapsOf(rows) <==> exists i :: 0 <= i < |rows| && Revisited(rows[i]) && gap == GapOf(rows[i])
    ensures |GapsOf(rows)| <= OverlaidCount(rows) <= |rows|
  {
    hide Contains;
    if rows != [] {
      var front := rows[..|rows| - 1];
      GapsListed(front, gap);
      assert forall i :: 0 <= i < |front| ==> front[i] == rows[i];
    }
  }

  // The merged report lists as revisited gaps exactly the entries whose first failure was the tool's own
  // and which were visited again, each with its latest record.
  lemma GapsAreRevisits(bs: seq<Batch>, id: Id)
    requires |bs| > 0 && id in bs[0].order
    ensures GapOf(RowOf(bs, id)) in SummaryOf(bs).gaps <==>
              exists j :: 0 <= j < |bs| && id in bs[j].ledger.results && VisitedAgain(bs, id, j)
    ensures |SummaryOf(bs).gaps| <= SummaryOf(bs).overlaid <= SummaryOf(bs).inputCount
  {
    hide History, Revisited, VisitedAgain, TallyOf, GroupsOf, BatchRequests, BatchBytes, GapsOf, OverlaidCount, LatestOf;
    var rows := RowsOf(bs);
    GapsListed(rows, GapOf(RowOf(bs, id)));
    RevisitedMeans(bs, id);
    var i :| 0 <= i < |bs[0].order| && bs[0].order[i] == id;
    assert rows[i] == RowOf(bs, id);
  }

  lemma {:induction false} PhysicalCovers(bs: seq<Batch>, id: Id, k: nat)
    requires k < |bs|
    ensures Physical(bs, id) >= Count(bs[k].ledger.rowRequests, id)
  {
    if k < |bs| - 1 { PhysicalCovers(bs[..|bs| - 1], id, k); }
  }

  predicate AllAccepted(bs: seq<Batch>, clock: int) {
    forall k :: 0 <= k < |bs| ==> Accepts(bs[k], clock)
  }

  lemma AttributedWithinPhysical(bs: seq<Batch>, id: Id, clock: int)
    requires AllAccepted(bs, clock)
    ensures Latest(bs, id).requests <= Physical(bs, id)
  {
    hide Latest, Physical, ManifestOk;
    LatestIsLast(bs, id);
    if Latest(bs, id).batch.Some? {
      var k := Latest(bs, id).batch.value;
      assert Accepts(bs[k], clock);
      PhysicalCovers(bs, id, k);
    } else {
      NoRecord(bs, id);
    }
  }

  lemma {:induction false} NoRecord(bs: seq<Batch>, id: Id)
    ensures Latest(bs, id).batch.None? ==> Latest(bs, id).requests == 0
  {
    if bs != [] { NoRecord(bs[..|bs| - 1], id); }
  }

  lemma {:induction false} TallyAttributed(bs: seq<Batch>, entries: map<Id, Entry>, ids: seq<Id>, group: Option<Group>, clock: int)
    requires AllAccepted(bs, clock)
    ensures TallyOf(bs, entries, ids, group).attributed <= TallyOf(bs, entries, ids, group).physical
  {
    hide Latest, Physical, AllAccepted;
    if ids != [] {
      TallyAttributed(bs, entries, ids[..|ids| - 1], group, clock);
      AttributedWithinPhysical(bs, ids[|ids| - 1], clock);
    }
  }

  // Conservation: in every accepted merge the requests of the groups add up to the requests of the
  // batches, group and status counts partition the catalog, and no group attributes more requests
  // to its latest results than were physically made.
  lemma MergeConserves(bs: seq<Batch>, clock: int)
    requires |bs| > 0 && AllAccepted(bs, clock) && Compatible(bs)
    ensures var ids, entries, summary := bs[0].order, bs[0].entries, SummaryOf(bs);
            var main, review := TallyOf(bs, entries, ids, Some(MainGroup)), TallyOf(bs, entries, ids, Some(ReviewGroup));
            && summary.physicalRequests == main.physical + review.physical
            && summary.inputCount == main.inputCount + review.inputCount
            && summary.attributed == main.attributed + review.attributed <= summary.physicalRequests
            && summary.tested == main.tested + review.tested
            && SumShown(ALL_SHOWN, summary.statuses) == summary.inputCount
            && SumShown(ALL_SHOWN, main.statuses) == main.inputCount && SumShown(ALL_SHOWN, review.statuses) == review.inputCount
            && (forall shown :: Shows(summary.statuses, shown) == Shows(main.statuses, shown) + Shows(review.statuses, shown))
            && main.attributed <= main.physical && review.attributed <= review.physical
  {
    hide TallyOf, SumShown, SumOf, BatchRequests, BatchBytes, RowAccepted, GroupsOf;
    var ids, entries := bs[0].order, bs[0].entries;
    assert Accepts(bs[0], clock);
    ManifestListed(bs[0], clock);
    forall shown ensures Shows(SummaryOf(bs).statuses, shown)
                         == Shows(TallyOf(bs, entries, ids, Some(MainGroup)).statuses, shown) + Shows(TallyOf(bs, entries, ids, Some(ReviewGroup)).statuses, shown) {
      GroupsSplit(bs, entries, ids, shown);
    }
    GroupsSplit(bs, entries, ids, NotExecuted);
    forall k | 0 <= k < |bs| ensures bs[k].ledger.requests == SumOf(ids, bs[k].ledger.rowRequests) {
      assert Accepts(bs[k], clock);
      assert k > 0 ==> bs[k].order == bs[0].order;
    }
    ExchangeSums(bs, ids);
    StatusesPartition(bs, entries, ids, None);
    StatusesPartition(bs, entries, ids, Some(MainGroup));
    StatusesPartition(bs, entries, ids, Some(ReviewGroup));
    TallyAttributed(bs, entries, ids, Some(MainGroup), clock);
    TallyAttributed(bs, entries, ids, Some(ReviewGroup), clock);
  }

  // ---------------------------------------------------------------- from the wire to the report

  // One ledger and everything that happened to it, over as many processes as it took.
  datatype Run = Run(setup: Setup, start: int, selection: set<Id>, events: seq<Event>, digest: string)

  function FinalState(r: Run): System {
    Exec(r.setup, FirstProcess(r.setup, r.start, r.selection), r.events)
  }

  predicate Sound(r: Run, first: Run, clock: int) {
    && ValidSetup(r.setup) && r.start > 0 && r.setup.order == first.setup.order && r.setup.entries == first.setup.entries
    && FinalState(r).clock <= clock && FinalState(r).ledger.running == {} && Uninterrupted(FinalState(r).ledger)
  }

  function Ledgers(runs: seq<Run>): (bs: seq<Batch>)
    ensures |bs| == |runs|
  {
    seq(|runs|, k requires 0 <= k < |runs| => BatchOf(runs[k].setup, FinalState(runs[k]).ledger, runs[k].digest))
  }

  function SentInAll(runs: seq<Run>, id: Id): nat {
    if runs == [] then 0 else SentInAll(runs[..|runs| - 1], id) + SentBy(FinalState(runs[|runs| - 1]).sent, id)
  }

  function AllSent(runs: seq<Run>): nat {
    if runs == [] then 0 else AllSent(runs[..|runs| - 1]) + |FinalState(runs[|runs| - 1]).sent|
  }

  lemma LedgersFront(runs: seq<Run>)
    requires |runs| > 0
    ensures Ledgers(runs)[..|runs| - 1] == Ledgers(runs[..|runs| - 1])
  {
  }

  lemma {:induction false} PhysicalIsSent(runs: seq<Run>, id: Id)
    requires forall k :: 0 <= k < |runs| ==> ValidSetup(runs[k].setup) && runs[k].start > 0
    ensures Physical(Ledgers(runs), id) == SentInAll(runs, id) && BatchRequests(Ledgers(runs)) == AllSent(runs)
  {
    hide ValidSetup, SentBy, SumOf, Exec, FirstProcess, Spaced, Cap;
    if runs != [] {
      var last := runs[|runs| - 1];
      PhysicalIsSent(runs[..|runs| - 1], id);
      LedgersFront(runs);
      RequestsBounded(last.setup, last.start, last.selection, last.events);
    }
  }

  // Ledgers of uninterrupted runs over one manifest always merge, and the merged totals are the
  // requests that really went out: per entry, and over the two groups together.
  lemma MergedTotalsArePhysical(runs: seq<Run>, clock: int)
    requires |runs| > 0 && forall k :: 0 <= k < |runs| ==> Sound(runs[k], runs[0], clock)
    ensures var bs := Ledgers(runs);
            var ids, entries := bs[0].order, bs[0].entries;
            && AllAccepted(bs, clock) && Compatible(bs)
            && (forall id :: Physical(bs, id) == SentInAll(runs, id))
            && TallyOf(bs, entries, ids, Some(MainGroup)).physical + TallyOf(bs, entries, ids, Some(ReviewGroup)).physical == AllSent(runs)
  {
    hide FinalState, Accepts, Physical, TallyOf, SumShown, SentInAll, AllSent, ValidSetup, Uninterrupted;
    var bs := Ledgers(runs);
    forall k | 0 <= k < |runs| ensures Accepts(bs[k], clock) {
      RunAccepted(runs[k], runs[0], clock);
    }
    forall id ensures Physical(bs, id) == SentInAll(runs, id) { PhysicalIsSent(runs, id); }
    NonemptyManifest(bs[0], clock);
    PhysicalIsSent(runs, bs[0].order[0]);
    MergeConserves(bs, clock);
  }

  lemma NonemptyManifest(b: Batch, clock: int)
    requires Accepts(b, clock)
    ensures |b.order| > 0
  {
  }

  lemma RunAccepted(r: Run, first: Run, clock: int)
    requires Sound(r, first, clock)
    ensures Accepts(BatchOf(r.setup, FinalState(r).ledger, r.digest), clock)
  {
    hide Accepts, Exec, ValidSetup;
    LedgerAccepted(r.setup, r.start, r.selection, r.events, r.digest, clock);
  }
}
