/**
 The catalog merger (scripts/tender_sources/catalog_merge.py): it re-validates every ledger it is
 given and overlays the batches in order, without trusting the runner that wrote them.
 */
module CatalogMerge {
  import opened Prelude
  import opened Text
  import opened CatalogModel
  import opened CatalogSafety

  // One ledger file: manifest, sampling policy, counters and results, and the digest of its bytes.
  datatype Batch = Batch(order: seq<Id>, entries: map<Id, Entry>, opted: set<Id>, ledger: Ledger, digest: string)

  datatype MergeError = InvalidLedger | ManifestDiffers | TimesOutOfOrder | DuplicateBatch | OutputExists

  datatype Shown = NotExecuted | Executed(status: Status)

  datatype Record = Record(shown: Shown, reason: string, requests: nat, tested: bool, batch: Option<nat>)

  datatype Row = Row(id: Id, baseline: Shown, latest: Record, history: seq<Record>)

  datatype Tally = Tally(inputCount: nat, statuses: map<Shown, nat>, attributed: nat, tested: nat, physical: nat)

  // An entry whose first record was a failure of the tool and which a later batch visited again.
  datatype Gap = Gap(id: Id, baseline: Shown, latest: Shown, retested: bool, batch: Option<nat>)

  datatype Summary = Summary(
    inputCount: nat, statuses: map<Shown, nat>, groups: map<Group, Tally>, overlaid: nat,
    physicalRequests: nat, physicalBytes: nat, attributed: nat, tested: nat, gaps: seq<Gap>)

  datatype Report = Report(rows: seq<Row>, summary: Summary)

  // ---------------------------------------------------------------- acceptance (`_read`)

  predicate ManifestOk(b: Batch) {
    |b.order| > 0 && NoRepeats(b.order) && b.entries.Keys == (set id | id in b.order)
  }

  predicate CountersOk(b: Batch) {
    && b.ledger.running == {}
    && b.ledger.results.Keys <= b.entries.Keys && b.ledger.rowRequests.Keys <= b.entries.Keys
    && b.ledger.rowRequests.Keys <= b.ledger.results.Keys
    && b.ledger.requests <= 8000 && b.ledger.requests == SumOf(b.order, b.ledger.rowRequests)
  }

  function PhysicalLimit(b: Batch, id: Id): nat
    requires id in b.entries
  {
    if b.entries[id].group == ReviewGroup && id !in b.opted then 3 else 12
  }

  function ExpectedScope(b: Batch, id: Id): Scope
    requires id in b.entries
  {
    if b.entries[id].group == MainGroup then MainDetailSamples
    else if id in b.opted then ReviewDetailSamples else ListDiagnosticOnly
  }

  predicate RowAccepted(b: Batch, id: Id, r: RowResult)
    requires id in b.entries
  {
    var count := Count(b.ledger.rowRequests, id);
    && r.entryId == id && r.status != Interrupted
    && r.requests == Some(count)
    && (r.status == InheritedBlock ==> count == 0 && !r.tested)
    && (count > 0 ==> r.tested)
    && count <= PhysicalLimit(b, id)
    && (r.scope == None || r.scope == Some(ExpectedScope(b, id)))
    && (r.status in {SampleReadable, CandidateList} ==> count > 0 && r.tested)
  }

  predicate Accepts(b: Batch, clock: int) {
    && ManifestOk(b) && CountersOk(b)
    && 0 < b.ledger.startedAt <= clock + 300
    && (forall id :: id in b.opted ==> id in b.entries && b.entries[id].group == ReviewGroup)
    && forall id :: id in b.ledger.results ==> RowAccepted(b, id, b.ledger.results[id])
  }

  predicate Compatible(bs: seq<Batch>) {
    forall k :: 0 < k < |bs| ==> bs[k].order == bs[0].order && bs[k].entries == bs[0].entries
  }

  predicate InOrder(bs: seq<Batch>) {
    forall k :: 0 < k < |bs| ==> bs[k - 1].ledger.startedAt <= bs[k].ledger.startedAt
  }

  predicate Distinct(bs: seq<Batch>) {
    forall i, k :: 0 <= i < k < |bs| ==> bs[i].digest != bs[k].digest
  }

  // ---------------------------------------------------------------- what the report says

  function RecordOf(r: RowResult, batch: nat): Record {
    Record(Executed(r.status), r.reason, if r.requests.Some? then r.requests.value else 0, r.tested, Some(batch))
  }

  function History(bs: seq<Batch>, id: Id): seq<Record> {
    if bs == [] then []
    else
      var last := bs[|bs| - 1].ledger.results;
      History(bs[..|bs| - 1], id) + if id in last then [RecordOf(last[id], |bs| - 1)] else []
  }

  function LatestOf(history: seq<Record>): Record {
    if history == [] then Record(NotExecuted, "no_actual_result", 0, false, None) else history[|history| - 1]
  }

  function Latest(bs: seq<Batch>, id: Id): Record {
    LatestOf(History(bs, id))
  }

  function RowOf(bs: seq<Batch>, id: Id): Row
    requires |bs| > 0
  {
    var history := History(bs, id);
    Row(id, if id in bs[0].ledger.results && history != [] then history[0].shown else NotExecuted, LatestOf(history), history)
  }

  predicate Overlaid(row: Row) {
    |row.history| > 1
  }

  predicate Revisited(row: Row) {
    Overlaid(row) && (row.baseline == Executed(Error) || Contains(row.history[0].reason, "unexpected_error:"))
  }

  function GapOf(row: Row): Gap {
    Gap(row.id, row.baseline, row.latest.shown, row.latest.tested, row.latest.batch)
  }

  function GapsOf(rows: seq<Row>): seq<Gap> {
    if rows == [] then []
    else
      var last := rows[|rows| - 1];
      GapsOf(rows[..|rows| - 1]) + if Revisited(last) then [GapOf(last)] else []
  }

  function OverlaidCount(rows: seq<Row>): nat {
    if rows == [] then 0 else OverlaidCount(rows[..|rows| - 1]) + if Overlaid(rows[|rows| - 1]) then 1 else 0
  }

  function RowsOf(bs: seq<Batch>): seq<Row>
    requires |bs| > 0
  {
    seq(|bs[0].order|, i requires 0 <= i < |bs[0].order| => RowOf(bs, bs[0].order[i]))
  }

  function Physical(bs: seq<Batch>, id: Id): nat {
    if bs == [] then 0 else Physical(bs[..|bs| - 1], id) + Count(bs[|bs| - 1].ledger.rowRequests, id)
  }

  function BatchRequests(bs: seq<Batch>): nat {
    if bs == [] then 0 else BatchRequests(bs[..|bs| - 1]) + bs[|bs| - 1].ledger.requests
  }

  function BatchBytes(bs: seq<Batch>): nat {
    if bs == [] then 0 else BatchBytes(bs[..|bs| - 1]) + bs[|bs| - 1].ledger.bytes
  }

  function Shows(statuses: map<Shown, nat>, shown: Shown): nat {
    if shown in statuses then statuses[shown] else 0
  }

  function AddRow(t: Tally, latest: Record, physical: nat): Tally {
    Tally(t.inputCount + 1, t.statuses[latest.shown := Shows(t.statuses, latest.shown) + 1],
          t.attributed + latest.requests, t.tested + if latest.tested then 1 else 0, t.physical + physical)
  }

  const EMPTY := Tally(0, map[], 0, 0, 0)

  // The tally of the listed entries, or of those in one group.
  function TallyOf(bs: seq<Batch>, entries: map<Id, Entry>, ids: seq<Id>, group: Option<Group>): Tally {
    if ids == [] then EMPTY
    else
      var before, id := TallyOf(bs, entries, ids[..|ids| - 1], group), ids[|ids| - 1];
      if group.Some? && !(id in entries && entries[id].group == group.value) then before
      else AddRow(before, Latest(bs, id), Physical(bs, id))
  }

  // ---------------------------------------------------------------- the merger

  method CollectHistory(bs: seq<Batch>, id: Id) returns (history: seq<Record>, physical: nat)
    ensures history == History(bs, id) && physical == Physical(bs, id)
  {
    history, physical := [], 0;
    for k := 0 to |bs|
      invariant history == History(bs[..k], id) && physical == Physical(bs[..k], id)
    {
      assert bs[..k + 1][..k] == bs[..k];
      if id in bs[k].ledger.results {
        history := history + [RecordOf(bs[k].ledger.results[id], k)];
      }
      physical := physical + Count(bs[k].ledger.rowRequests, id);
    }
    assert bs[..|bs|] == bs;
  }

  method Check(bs: seq<Batch>, clock: int, outputExists: bool) returns (problem: Option<MergeError>)
    requires |bs| > 0
    ensures problem == if exists k :: 0 <= k < |bs| && !Accepts(bs[k], clock) then Some(InvalidLedger)
                       else if !Compatible(bs) then Some(ManifestDiffers)
                       else if !InOrder(bs) then Some(TimesOutOfOrder)
                       else if !Distinct(bs) then Some(DuplicateBatch)
                       else if outputExists then Some(OutputExists) else None
  {
    hide Accepts;
    for k := 0 to |bs|
      invariant forall i :: 0 <= i < k ==> Accepts(bs[i], clock)
    {
      if !Accepts(bs[k], clock) { return Some(InvalidLedger); }
    }
    for k := 1 to |bs|
      invariant forall i :: 0 < i < k ==> bs[i].order == bs[0].order && bs[i].entries == bs[0].entries
    {
      if bs[k].order != bs[0].order || bs[k].entries != bs[0].entries { return Some(ManifestDiffers); }
    }
    for k := 1 to |bs|
      invariant forall i :: 0 < i < k ==> bs[i - 1].ledger.startedAt <= bs[i].ledger.startedAt
    {
      if bs[k].ledger.startedAt < bs[k - 1].ledger.startedAt { return Some(TimesOutOfOrder); }
    }
    if !Distinct(bs) { return Some(DuplicateBatch); }
    return if outputExists then Some(OutputExists) else None;
  }

  method MergeLedgers(bs: seq<Batch>, clock: int, outputExists: bool) returns (result: Result<Report, MergeError>)
    requires |bs| > 0
    ensures result.Ok? <==> (forall k :: 0 <= k < |bs| ==> Accepts(bs[k], clock)) && !outputExists
                            && (forall k :: 0 < k < |bs| ==> bs[k].order == bs[0].order && bs[k].entries == bs[0].entries)
                            && (forall k :: 0 < k < |bs| ==> bs[k - 1].ledger.startedAt <= bs[k].ledger.startedAt)
                            && (forall i, k :: 0 <= i < k < |bs| ==> bs[i].digest != bs[k].digest)
    ensures result.Ok? ==>
              result.value.rows == RowsOf(bs) && result.value.summary == SummaryOf(bs)
  {
    hide Accepts, TallyOf, GroupsOf, RowOf, BatchRequests, BatchBytes, GapsOf, OverlaidCount;
    var problem := Check(bs, clock, outputExists);
    if problem.Some? { return Err(problem.value); }
    assert Accepts(bs[0], clock);
    var ids, entries := bs[0].order, bs[0].entries;
    ManifestListed(bs[0], clock);
    var rows, statuses, groups := Overlay(bs, ids, entries);
    var attributed, tested := SumRows(bs, ids, entries, rows);
    var physicalRequests, physicalBytes := SumBatches(bs);
    assert rows == RowsOf(bs);
    var overlaid, gaps := FindGaps(rows);
    result := Ok(Report(rows, Summary(|rows|, statuses, groups, overlaid, physicalRequests, physicalBytes, attributed, tested, gaps)));
  }

  method Overlay(bs: seq<Batch>, ids: seq<Id>, entries: map<Id, Entry>)
    returns (rows: seq<Row>, statuses: map<Shown, nat>, groups: map<Group, Tally>)
    requires |bs| > 0 && forall id :: id in ids ==> id in entries
    ensures |rows| == |ids| && forall i :: 0 <= i < |ids| ==> rows[i] == RowOf(bs, ids[i])
    ensures statuses == TallyOf(bs, entries, ids, None).statuses && groups == GroupsOf(bs, entries, ids)
  {
    hide History, Physical, GroupsOf, TallyOf;
    rows, statuses, groups := [], map[], map[];
    EmptyOverlay(bs, entries);
    for i := 0 to |ids|
      invariant |rows| == i && forall k :: 0 <= k < i ==> rows[k] == RowOf(bs, ids[k])
      invariant statuses == TallyOf(bs, entries, ids[..i], None).statuses
      invariant groups == GroupsOf(bs, entries, ids[..i])
    {
      var id := ids[i];
      var history, physical := CollectHistory(bs, id);
      var latest := LatestOf(history);
      var baseline := if id in bs[0].ledger.results && history != [] then history[0].shown else NotExecuted;
      rows := rows + [Row(id, baseline, latest, history)];
      statuses := statuses[latest.shown := Shows(statuses, latest.shown) + 1];
      var group := entries[id].group;
      var tally := if group in groups then groups[group] else EMPTY;
      groups := groups[group := AddRow(tally, latest, physical)];
      GroupsStep(bs, entries, ids, i);
    }
    assert ids[..|ids|] == ids;
  }

  lemma EmptyOverlay(bs: seq<Batch>, entries: map<Id, Entry>)
    ensures TallyOf(bs, entries, [], None) == EMPTY && GroupsOf(bs, entries, []) == map[]
  {
  }

  method SumRows(bs: seq<Batch>, ids: seq<Id>, entries: map<Id, Entry>, rows: seq<Row>) returns (attributed: nat, tested: nat)
    requires |bs| > 0 && |rows| == |ids| && forall k :: 0 <= k < |ids| ==> rows[k] == RowOf(bs, ids[k])
    ensures attributed == TallyOf(bs, entries, ids, None).attributed && tested == TallyOf(bs, entries, ids, None).tested
  {
    attributed, tested := 0, 0;
    for i := 0 to |rows|
      invariant attributed == TallyOf(bs, entries, ids[..i], None).attributed && tested == TallyOf(bs, entries, ids[..i], None).tested
    {
      assert ids[..i + 1][..i] == ids[..i];
      attributed := attributed + rows[i].latest.requests;
      tested := tested + if rows[i].latest.tested then 1 else 0;
    }
    assert ids[..|ids|] == ids;
  }

  method FindGaps(rows: seq<Row>) returns (overlaid: nat, gaps: seq<Gap>)
    ensures overlaid == OverlaidCount(rows) && gaps == GapsOf(rows)
  {
    hide Revisited;
    overlaid, gaps := 0, [];
    for i := 0 to |rows|
      invariant overlaid == OverlaidCount(rows[..i]) && gaps == GapsOf(rows[..i])
    {
      assert rows[..i + 1][..i] == rows[..i];
      if Overlaid(rows[i]) { overlaid := overlaid + 1; }
      if Revisited(rows[i]) { gaps := gaps + [GapOf(rows[i])]; }
    }
    assert rows[..|rows|] == rows;
  }

  method SumBatches(bs: seq<Batch>) returns (requests: nat, bytes: nat)
    ensures requests == BatchRequests(bs) && bytes == BatchBytes(bs)
  {
    requests, bytes := 0, 0;
    for k := 0 to |bs|
      invariant requests == BatchRequests(bs[..k]) && bytes == BatchBytes(bs[..k])
    {
      assert bs[..k + 1][..k] == bs[..k];
      requests, bytes := requests + bs[k].ledger.requests, bytes + bs[k].ledger.bytes;
    }
    assert bs[..|bs|] == bs;
  }

  function GroupsOf(bs: seq<Batch>, entries: map<Id, Entry>, ids: seq<Id>): map<Group, Tally> {
    map g | g in {MainGroup, ReviewGroup} && TallyOf(bs, entries, ids, Some(g)).inputCount > 0 :: TallyOf(bs, entries, ids, Some(g))
  }

  function SummaryOf(bs: seq<Batch>): Summary
    requires |bs| > 0
  {
    var ids, entries := bs[0].order, bs[0].entries;
    var all := TallyOf(bs, entries, ids, None);
    Summary(|ids|, all.statuses, GroupsOf(bs, entries, ids), OverlaidCount(RowsOf(bs)), BatchRequests(bs), BatchBytes(bs),
            all.attributed, all.tested, GapsOf(RowsOf(bs)))
  }

  lemma ManifestListed(b: Batch, clock: int)
    requires Accepts(b, clock)
    ensures forall id :: id in b.order <==> id in b.entries
  {
  }

  lemma {:induction false} EmptyTally(bs: seq<Batch>, entries: map<Id, Entry>, ids: seq<Id>, group: Option<Group>)
    ensures TallyOf(bs, entries, ids, group).inputCount == 0 ==> TallyOf(bs, entries, ids, group) == EMPTY
  {
    if ids != [] { EmptyTally(bs, entries, ids[..|ids| - 1], group); }
  }

  lemma GroupsStep(bs: seq<Batch>, entries: map<Id, Entry>, ids: seq<Id>, i: nat)
    requires i < |ids| && ids[i] in entries
    ensures var g := entries[ids[i]].group;
            var before := GroupsOf(bs, entries, ids[..i]);
            GroupsOf(bs, entries, ids[..i + 1]) ==
            before[g := AddRow(if g in before then before[g] else EMPTY, Latest(bs, ids[i]), Physical(bs, ids[i]))]
    ensures TallyOf(bs, entries, ids[..i + 1], None) == AddRow(TallyOf(bs, entries, ids[..i], None), Latest(bs, ids[i]), Physical(bs, ids[i]))
  {
    hide Latest, Physical;
    assert ids[..i + 1][..i] == ids[..i];
    EmptyTally(bs, entries, ids[..i], Some(MainGroup));
    EmptyTally(bs, entries, ids[..i], Some(ReviewGroup));
  }
}
