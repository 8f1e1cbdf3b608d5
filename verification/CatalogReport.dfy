/**
 What the numbers and rows of a merged report say about the ledgers: every count is the size of a set of
 manifest entries, every total a sum over them, and a ledger is accepted only if it agrees with itself.
 */
module CatalogReport {
  import opened Prelude
  import opened Text
  import opened CatalogModel
  import opened CatalogSafety
  import opened CatalogMerge
  import opened CatalogTheorems

  // ---------------------------------------------------------------- the last word on an entry

  function LastStatus(bs: seq<Batch>, id: Id): Shown {
    if bs == [] then NotExecuted
    else if id in bs[|bs| - 1].ledger.results then Executed(bs[|bs| - 1].ledger.results[id].status) else LastStatus(bs[..|bs| - 1], id)
  }

  function LastRequests(bs: seq<Batch>, id: Id): nat {
    if bs == [] then 0
    else if id in bs[|bs| - 1].ledger.results then
      if bs[|bs| - 1].ledger.results[id].requests.Some? then bs[|bs| - 1].ledger.results[id].requests.value else 0
    else LastRequests(bs[..|bs| - 1], id)
  }

  predicate LastTested(bs: seq<Batch>, id: Id) {
    bs != [] && if id in bs[|bs| - 1].ledger.results then bs[|bs| - 1].ledger.results[id].tested else LastTested(bs[..|bs| - 1], id)
  }

  lemma {:induction false} LatestMeans(bs: seq<Batch>, id: Id)
    ensures Latest(bs, id).shown == LastStatus(bs, id) && Latest(bs, id).requests == LastRequests(bs, id) && (Latest(bs, id).tested <==> LastTested(bs, id))
  {
    if bs != [] { LatestMeans(bs[..|bs| - 1], id); }
  }

  // ---------------------------------------------------------------- counts are sizes of sets

  predicate InGroup(entries: map<Id, Entry>, id: Id, group: Option<Group>) {
    group.Some? ==> id in entries && entries[id].group == group.value
  }

  function Total(ids: set<Id>, f: Id -> nat, order: seq<Id>): nat {
    if order == [] then 0 else Total(ids, f, order[..|order| - 1]) + if order[|order| - 1] in ids then f(order[|order| - 1]) else 0
  }

  // The listed entries, of one group or of both, that show a status last.
  function Showing(bs: seq<Batch>, entries: map<Id, Entry>, ids: seq<Id>, group: Option<Group>, shown: Shown): set<Id> {
    set id | id in ids && InGroup(entries, id, group) && LastStatus(bs, id) == shown
  }

  function Listed(entries: map<Id, Entry>, ids: seq<Id>, group: Option<Group>): set<Id> {
    set id | id in ids && InGroup(entries, id, group)
  }

  function Tested(bs: seq<Batch>, entries: map<Id, Entry>, ids: seq<Id>, group: Option<Group>): set<Id> {
    set id | id in ids && InGroup(entries, id, group) && LastTested(bs, id)
  }

  lemma Grow(small: set<Id>, large: set<Id>, id: Id, joins: bool)
    requires id !in small && (forall x :: x in large <==> x in small || (x == id && joins))
    ensures |large| == |small| + if joins then 1 else 0
  {
    assert large == if joins then small + {id} else small;
  }

  lemma NextListed(ids: seq<Id>)
    requires ids != [] && NoRepeats(ids)
    ensures var front, last := ids[..|ids| - 1], ids[|ids| - 1]; NoRepeats(front) && last !in front && forall id :: id in ids <==> id in front || id == last
  {
    assert ids == ids[..|ids| - 1] + [ids[|ids| - 1]];
  }

  lemma TallyStep(bs: seq<Batch>, entries: map<Id, Entry>, ids: seq<Id>, group: Option<Group>, shown: Shown)
    requires ids != []
    ensures var before, t, last := TallyOf(bs, entries, ids[..|ids| - 1], group), TallyOf(bs, entries, ids, group), ids[|ids| - 1];
            && t.inputCount == before.inputCount + (if InGroup(entries, last, group) then 1 else 0)
            && Shows(t.statuses, shown) == Shows(before.statuses, shown) + (if InGroup(entries, last, group) && LastStatus(bs, last) == shown then 1 else 0)
            && t.tested == before.tested + (if InGroup(entries, last, group) && LastTested(bs, last) then 1 else 0)
            && t.attributed == before.attributed + (if InGroup(entries, last, group) then LastRequests(bs, last) else 0)
            && t.physical == before.physical + (if InGroup(entries, last, group) then Physical(bs, last) else 0)
  {
    hide Latest, Physical, LastStatus, LastTested, LastRequests;
    LatestMeans(bs, ids[|ids| - 1]);
  }

  // Every component of a tally is what its name says.
  lemma {:induction false} TallyMeans(bs: seq<Batch>, entries: map<Id, Entry>, ids: seq<Id>, group: Option<Group>, shown: Shown)
    requires NoRepeats(ids)
    ensures var t := TallyOf(bs, entries, ids, group);
            && t.inputCount == |Listed(entries, ids, group)|
            && Shows(t.statuses, shown) == |Showing(bs, entries, ids, group, shown)|
            && t.tested == |Tested(bs, entries, ids, group)|
  {
    if ids != [] {
      hide TallyOf, LastStatus, LastTested, InGroup, NoRepeats, Shows;
      var front, last := ids[..|ids| - 1], ids[|ids| - 1];
      NextListed(ids);
      TallyMeans(bs, entries, front, group, shown);
      TallyStep(bs, entries, ids, group, shown);
      Grow(Listed(entries, front, group), Listed(entries, ids, group), last, InGroup(entries, last, group));
      Grow(Showing(bs, entries, front, group, shown), Showing(bs, entries, ids, group, shown), last,
           InGroup(entries, last, group) && LastStatus(bs, last) == shown);
      Grow(Tested(bs, entries, front, group), Tested(bs, entries, ids, group), last, InGroup(entries, last, group) && LastTested(bs, last));
    }
  }

  lemma {:induction false} TallyTotals(bs: seq<Batch>, entries: map<Id, Entry>, ids: seq<Id>, group: Option<Group>, order: seq<Id>)
    requires ids <= order
    ensures var t, listed := TallyOf(bs, entries, ids, group), Listed(entries, order, group);
            && t.attributed == Total(listed, id => LastRequests(bs, id), ids) && t.physical == Total(listed, id => Physical(bs, id), ids)
  {
    if ids != [] {
      hide TallyOf, Physical, LastRequests, InGroup, LastStatus, LastTested;
      TallyTotals(bs, entries, ids[..|ids| - 1], group, order);
      TallyStep(bs, entries, ids, group, NotExecuted);
      assert order[|ids| - 1] == ids[|ids| - 1];
    }
  }

  // ---------------------------------------------------------------- the summary

  // For every status, and for the entries no batch holds, the summary counts exactly the manifest entries
  // whose last result has that status; the totals are sums over the manifest.
  lemma SummaryMeans(bs: seq<Batch>, shown: Shown)
    requires |bs| > 0 && NoRepeats(bs[0].order)
    ensures var ids, entries, s := bs[0].order, bs[0].entries, SummaryOf(bs);
            && s.inputCount == |ids|
            && Shows(s.statuses, shown) == |Showing(bs, entries, ids, None, shown)|
            && s.tested == |Tested(bs, entries, ids, None)|
            && s.attributed == Total(Listed(entries, ids, None), id => LastRequests(bs, id), ids)
  {
    hide TallyOf, Showing, Tested, Listed, LastRequests, GroupsOf, BatchRequests, BatchBytes, GapsOf, OverlaidCount, Total, Shows;
    TallyMeans(bs, bs[0].entries, bs[0].order, None, shown);
    TallyTotals(bs, bs[0].entries, bs[0].order, None, bs[0].order);
  }

  // The same of each group, which is reported exactly when the manifest has an entry of it.
  lemma GroupMeans(bs: seq<Batch>, g: Group, shown: Shown)
    requires |bs| > 0 && NoRepeats(bs[0].order)
    ensures var ids, entries, groups := bs[0].order, bs[0].entries, SummaryOf(bs).groups;
            var members := Listed(entries, ids, Some(g));
            && (g in groups <==> members != {})
            && (g in groups ==>
                  && groups[g].inputCount == |members|
                  && Shows(groups[g].statuses, shown) == |Showing(bs, entries, ids, Some(g), shown)|
                  && groups[g].tested == |Tested(bs, entries, ids, Some(g))|
                  && groups[g].attributed == Total(members, id => LastRequests(bs, id), ids)
                  && groups[g].physical == Total(members, id => Physical(bs, id), ids))
  {
    hide TallyOf, Showing, Tested, Listed, LastRequests, GroupsOf, BatchRequests, BatchBytes, GapsOf, OverlaidCount, Total, Physical, Shows;
    TallyMeans(bs, bs[0].entries, bs[0].order, Some(g), shown);
    TallyTotals(bs, bs[0].entries, bs[0].order, Some(g), bs[0].order);
    GroupsOnly(bs, bs[0].entries, bs[0].order, g);
  }

  lemma GroupsOnly(bs: seq<Batch>, entries: map<Id, Entry>, ids: seq<Id>, g: Group)
    ensures g in GroupsOf(bs, entries, ids) <==> TallyOf(bs, entries, ids, Some(g)).inputCount > 0
    ensures g in GroupsOf(bs, entries, ids) ==> GroupsOf(bs, entries, ids)[g] == TallyOf(bs, entries, ids, Some(g))
  {
    hide TallyOf;
  }

  // Physical requests of an entry are its counters in all batches, and the batch totals add up to the
  // reported ones, in requests and in bytes.
  lemma BatchesAdd(bs: seq<Batch>, b: Batch, id: Id)
    ensures Physical(bs + [b], id) == Physical(bs, id) + if id in b.ledger.rowRequests then b.ledger.rowRequests[id] else 0
    ensures BatchRequests(bs + [b]) == BatchRequests(bs) + b.ledger.requests && BatchBytes(bs + [b]) == BatchBytes(bs) + b.ledger.bytes
    ensures Physical([], id) == BatchRequests([]) == BatchBytes([]) == 0
  {
    assert (bs + [b])[..|bs|] == bs;
  }

  lemma TotalsReported(bs: seq<Batch>)
    requires |bs| > 0
    ensures SummaryOf(bs).physicalRequests == BatchRequests(bs) && SummaryOf(bs).physicalBytes == BatchBytes(bs)
  {
    hide TallyOf, GroupsOf, GapsOf, OverlaidCount, BatchRequests, BatchBytes;
  }

  // ---------------------------------------------------------------- the rows

  // There is one row for every manifest entry, in order: what the first batch said, what was said last,
  // and everything in between.
  lemma RowsMean(bs: seq<Batch>, i: nat)
    requires |bs| > 0 && i < |bs[0].order|
    ensures var id, rows := bs[0].order[i], RowsOf(bs);
            && |rows| == |bs[0].order| && rows[i].id == id
            && rows[i].baseline == (if id in bs[0].ledger.results then Executed(bs[0].ledger.results[id].status) else NotExecuted)
            && rows[i].latest.shown == LastStatus(bs, id) && rows[i].latest.requests == LastRequests(bs, id)
            && (rows[i].latest.tested <==> LastTested(bs, id)) && rows[i].history == History(bs, id)
  {
    hide History, LastStatus, LastRequests, LastTested;
    var id := bs[0].order[i];
    LatestMeans(bs, id);
    HistoryStarts(bs, id);
  }

  // ---------------------------------------------------------------- acceptance

  // A result agrees with the counters, the sampling policy and itself.
  predicate ResultAgrees(b: Batch, id: Id)
    requires id in b.ledger.results && id in b.entries
  {
    var r, count := b.ledger.results[id], if id in b.ledger.rowRequests then b.ledger.rowRequests[id] else 0;
    var listOnly := b.entries[id].group == ReviewGroup && id !in b.opted;
    && r.entryId == id && r.status != Interrupted && r.requests == Some(count) && count <= (if listOnly then 3 else 12)
    && (count > 0 ==> r.tested) && (r.status == InheritedBlock ==> count == 0 && !r.tested)
    && (r.status == SampleReadable || r.status == CandidateList ==> count > 0)
    && (r.scope.Some? ==> r.scope.value == if b.entries[id].group == MainGroup then MainDetailSamples
                                           else if listOnly then ListDiagnosticOnly else ReviewDetailSamples)
  }

  // A ledger is accepted exactly if it is at rest, knows no entry but its own, and every number in it agrees
  // with every other.
  lemma AcceptedAgrees(b: Batch, clock: int)
    ensures var l := b.ledger;
            Accepts(b, clock) <==>
              && b.order != [] && NoRepeats(b.order) && (forall id :: id in b.order <==> id in b.entries)
              && l.running == {} && (forall id :: id in l.results ==> id in b.entries) && (forall id :: id in l.rowRequests ==> id in l.results)
              && l.requests == SumOf(b.order, l.rowRequests) <= 8000 && 0 < l.startedAt <= clock + 300
              && (forall id :: id in b.opted ==> id in b.entries && b.entries[id].group == ReviewGroup)
              && (forall id :: id in l.results ==> id in b.entries && ResultAgrees(b, id))
  {
    hide SumOf, NoRepeats, RowAccepted, ResultAgrees;
    forall id | id in b.ledger.results && id in b.entries ensures RowAccepted(b, id, b.ledger.results[id]) <==> ResultAgrees(b, id) {
      RowMeans(b, id);
    }
    assert (forall id :: id in b.order <==> id in b.entries) <==> b.entries.Keys == set id | id in b.order;
  }

  lemma RowMeans(b: Batch, id: Id)
    requires id in b.ledger.results && id in b.entries
    ensures RowAccepted(b, id, b.ledger.results[id]) <==> ResultAgrees(b, id)
  {
  }
}
