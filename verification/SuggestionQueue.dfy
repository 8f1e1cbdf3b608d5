/**
 Field suggestions (backend/src/extrio/field_suggestions.py): a durable queue whose workers may
 crash, run late or finish twice.  Every store transaction is one step; the histories record which
 attempts were handed out, which results were committed and which suggestions were applied.
 */
module SuggestionQueue {
  import opened Prelude

  type Id(==,!new)

  datatype Status = Queued | Running | Succeeded | Failed

  // Field bodies by key; the order of a draft is not modelled.
  type Fields = map<string, string>

  datatype Suggestion = Suggestion(collection: Id, base: nat, status: Status, attempt: nat, lease: int, createdAt: int,
                                   fields: Fields, applied: bool)

  datatype Collection = Collection(revision: nat, archived: bool, draft: Fields)

  datatype Attempt = Attempt(id: Id, attempt: nat)

  datatype Queue = Queue(suggestions: map<Id, Suggestion>, order: seq<Id>, collections: map<Id, Collection>, clock: int,
                         claims: seq<Attempt>, commits: seq<Attempt>, applications: seq<Attempt>)

  const LEASE := 120
  const WINDOW := 3600
  const PER_WINDOW := 5
  const MAX_ATTEMPTS := 3

  // A request reads the clock once for the window and once for the creation time.
  datatype Event =
    | Request(collection: Id, revision: nat, id: Id, reading: int, now: int)
    | Claim(now: int, until: int)
    | Finish(id: Id, attempt: nat, result: Option<Fields>, now: int)
    | Apply(collection: Id, id: Id, revision: nat, selected: seq<string>, valid: bool, now: int)
    | Edit(collection: Id, draft: Fields, archived: bool, now: int)

  // ---------------------------------------------------------------- readings

  predicate Active(s: Suggestion) {
    s.status == Queued || s.status == Running
  }

  predicate HasActive(q: Queue, collection: Id) {
    exists id :: id in q.suggestions && q.suggestions[id].collection == collection && Active(q.suggestions[id])
  }

  // The suggestions of a collection created from an instant on, up to another one if given.
  function Created(suggestions: map<Id, Suggestion>, ids: seq<Id>, collection: Id, from: int, to: Option<int>): nat {
    if ids == [] then 0
    else Created(suggestions, ids[..|ids| - 1], collection, from, to) + if Counts(suggestions, ids[|ids| - 1], collection, from, to) then 1 else 0
  }

  predicate Counts(suggestions: map<Id, Suggestion>, id: Id, collection: Id, from: int, to: Option<int>) {
    && id in suggestions && suggestions[id].collection == collection
    && from <= suggestions[id].createdAt && (to.Some? ==> suggestions[id].createdAt <= to.value)
  }

  function InWindow(suggestions: map<Id, Suggestion>, ids: seq<Id>, collection: Id, from: int): nat {
    Created(suggestions, ids, collection, from, Some(from + WINDOW))
  }

  predicate Due(s: Suggestion, now: int) {
    s.status == Queued || (s.status == Running && s.lease < now)
  }

  // A suggestion waits to be claimed, or its lease ran out.
  function DueIn(suggestions: map<Id, Suggestion>, now: int): Id -> bool {
    id => id in suggestions && Due(suggestions[id], now)
  }

  // ---------------------------------------------------------------- the transactions

  function RequestRefusal(q: Queue, e: Event): Option<string>
    requires e.Request?
  {
    if e.collection !in q.collections then Some("COLLECTION_NOT_FOUND")
    else if q.collections[e.collection].archived then Some("COLLECTION_ARCHIVED")
    else if q.collections[e.collection].revision != e.revision then Some("COLLECTION_CONFLICT")
    else if HasActive(q, e.collection) then Some("SUGGESTION_ALREADY_ACTIVE")
    else if Created(q.suggestions, q.order, e.collection, e.reading - WINDOW, None) >= PER_WINDOW then Some("SUGGESTION_RATE_LIMIT")
    else if e.id in q.suggestions then Some("IDENTIFIER_IN_USE")
    else None
  }

  function ApplyRefusal(q: Queue, e: Event): Option<string>
    requires e.Apply?
  {
    if e.collection !in q.collections then Some("COLLECTION_NOT_FOUND")
    else if q.collections[e.collection].archived then Some("COLLECTION_ARCHIVED")
    else if q.collections[e.collection].revision != e.revision then Some("COLLECTION_CONFLICT")
    else if e.id !in q.suggestions || q.suggestions[e.id].collection != e.collection then Some("SUGGESTION_NOT_FOUND")
    else if q.suggestions[e.id].status != Succeeded || q.suggestions[e.id].applied then Some("SUGGESTION_NOT_READY")
    else if q.suggestions[e.id].base != e.revision then Some("COLLECTION_CONFLICT")
    else if e.selected == [] || !NoRepeats(e.selected) || (exists k :: k in e.selected && k !in q.suggestions[e.id].fields) then Some("SUGGESTION_SELECTION_INVALID")
    else if !e.valid then Some("INVALID_DRAFT")
    else None
  }

  function MergedDraft(draft: Fields, available: Fields, selected: seq<string>): Fields {
    draft + map k | k in selected && k in available :: available[k]
  }

  function Put(q: Queue, id: Id, s: Suggestion, now: int): Queue {
    q.(suggestions := q.suggestions[id := s], clock := now)
  }

  function Take(q: Queue, id: Id, e: Event): Queue
    requires e.Claim? && id in q.suggestions
  {
    var s := q.suggestions[id];
    if s.attempt >= MAX_ATTEMPTS then Put(q, id, s.(status := Failed), e.now)
    else Put(q, id, s.(status := Running, attempt := s.attempt + 1, lease := e.until), e.now).(claims := q.claims + [Attempt(id, s.attempt + 1)])
  }

  predicate Timely(q: Queue, e: Event) {
    e.now >= q.clock && (e.Request? ==> q.clock <= e.reading <= e.now) && (e.Claim? ==> e.until >= e.now + LEASE)
  }

  function Step(q: Queue, e: Event): Queue {
    if !Timely(q, e) then q
    else
      match e
      case Request(collection, revision, id, reading, now) =>
        if RequestRefusal(q, e).Some? then q.(clock := now)
        else
          Put(q, id, Suggestion(collection, revision, Queued, 0, 0, now, map[], false), now).(order := q.order + [id])
      case Claim(now, until) =>
        var due := FirstSuch(q.order, DueIn(q.suggestions, now));
        if due.None? then q.(clock := now) else Take(q, due.value, e)
      case Finish(id, attempt, result, now) =>
        if id !in q.suggestions || q.suggestions[id].status != Running || q.suggestions[id].attempt != attempt then q.(clock := now)
        else
          var s := q.suggestions[id];
          Put(q, id, if result.Some? then s.(status := Succeeded, fields := result.value) else s.(status := Failed, fields := map[]), now)
            .(commits := q.commits + [Attempt(id, attempt)])
      case Apply(collection, id, revision, selected, valid, now) =>
        if ApplyRefusal(q, e).Some? then q.(clock := now)
        else
          var s, c := q.suggestions[id], q.collections[collection];
          Put(q, id, s.(applied := true), now)
            .(collections := q.collections[collection := c.(revision := c.revision + 1, draft := MergedDraft(c.draft, s.fields, selected))],
              applications := q.applications + [Attempt(id, revision)])
      case Edit(collection, draft, archived, now) =>
        if collection !in q.collections then q.(clock := now)
        else q.(clock := now, collections := q.collections[collection := Collection(q.collections[collection].revision + 1, archived, draft)])
  }

  function Exec(q: Queue, es: seq<Event>): Queue {
    if es == [] then q else Step(Exec(q, es[..|es| - 1]), es[|es| - 1])
  }

  predicate Initial(q: Queue) {
    q.suggestions == map[] && q.order == [] && q.claims == [] && q.commits == [] && q.applications == []
  }

  // ---------------------------------------------------------------- the invariant

  function CountOf(history: seq<Attempt>, id: Id): nat {
    if history == [] then 0 else CountOf(history[..|history| - 1], id) + if history[|history| - 1].id == id then 1 else 0
  }

  predicate SuggestionOk(s: Suggestion, collections: map<Id, Collection>, clock: int) {
    && s.attempt <= MAX_ATTEMPTS && (s.status == Queued <==> s.attempt == 0)
    && s.collection in collections && s.base <= collections[s.collection].revision && s.createdAt <= clock
    && (s.applied ==> s.status == Succeeded && s.base < collections[s.collection].revision)
  }

  // What the histories say about one suggestion.
  predicate HistoryOk(q: Queue, id: Id, s: Suggestion) {
    && CountOf(q.claims, id) == s.attempt
    && CountOf(q.commits, id) <= 1 && (s.status == Succeeded ==> CountOf(q.commits, id) == 1) && (Active(s) ==> CountOf(q.commits, id) == 0)
    && CountOf(q.applications, id) == if s.applied then 1 else 0
  }

  predicate Known(q: Queue) {
    && NoRepeats(q.order) && (forall id :: id in q.suggestions ==> id in q.order) && (forall id :: id in q.order ==> id in q.suggestions)
    && (forall c :: c in q.claims ==> c.id in q.suggestions)
    && (forall c :: c in q.commits ==> c.id in q.suggestions && c.attempt == q.suggestions[c.id].attempt)
    && (forall c :: c in q.applications ==> c.id in q.suggestions && c.attempt == q.suggestions[c.id].base)
  }

  predicate OneActive(suggestions: map<Id, Suggestion>) {
    forall i, j :: i in suggestions && j in suggestions && i != j && Active(suggestions[i]) && Active(suggestions[j])
      ==> suggestions[i].collection != suggestions[j].collection
  }

  ghost predicate RateOk(suggestions: map<Id, Suggestion>, order: seq<Id>) {
    forall collection, from :: InWindow(suggestions, order, collection, from) <= PER_WINDOW
  }

  predicate AllOk(suggestions: map<Id, Suggestion>, collections: map<Id, Collection>, clock: int) {
    forall id :: id in suggestions ==> SuggestionOk(suggestions[id], collections, clock)
  }

  predicate HistoriesOk(q: Queue) {
    forall id :: id in q.suggestions ==> HistoryOk(q, id, q.suggestions[id])
  }

  ghost predicate Inv(q: Queue) {
    && Known(q) && AllOk(q.suggestions, q.collections, q.clock) && HistoriesOk(q) && OneActive(q.suggestions) && RateOk(q.suggestions, q.order)
  }

  // ---------------------------------------------------------------- counting

  lemma CountAppend(history: seq<Attempt>, a: Attempt, id: Id)
    ensures CountOf(history + [a], id) == CountOf(history, id) + if a.id == id then 1 else 0
  {
    assert (history + [a])[..|history|] == history;
  }

  lemma {:induction false} CountZero(history: seq<Attempt>, id: Id)
    ensures CountOf(history, id) == 0 <==> forall a :: a in history ==> a.id != id
  {
    if history != [] {
      CountZero(history[..|history| - 1], id);
      assert history == history[..|history| - 1] + [history[|history| - 1]];
    }
  }

  lemma {:induction false} CreatedSame(m: map<Id, Suggestion>, n: map<Id, Suggestion>, ids: seq<Id>, collection: Id, from: int, to: Option<int>)
    requires forall id :: id in ids ==> (Counts(m, id, collection, from, to) <==> Counts(n, id, collection, from, to))
    ensures Created(m, ids, collection, from, to) == Created(n, ids, collection, from, to)
  {
    hide Counts;
    if ids != [] {
      assert ids == ids[..|ids| - 1] + [ids[|ids| - 1]];
      CreatedSame(m, n, ids[..|ids| - 1], collection, from, to);
    }
  }

  lemma {:induction false} CreatedShrinks(m: map<Id, Suggestion>, ids: seq<Id>, collection: Id, early: int, late: int, to: Option<int>)
    requires early <= late
    ensures Created(m, ids, collection, late, to) <= Created(m, ids, collection, early, None)
  {
    if ids != [] { CreatedShrinks(m, ids[..|ids| - 1], collection, early, late, to); }
  }

  // ---------------------------------------------------------------- preservation

  predicate Grown(m: map<Id, Collection>, n: map<Id, Collection>) {
    forall c :: c in m ==> c in n && m[c].revision <= n[c].revision
  }

  predicate SameOthers(q: Queue, t: Queue, id: Id) {
    forall j :: j in q.suggestions && j != id
      ==> CountOf(t.claims, j) == CountOf(q.claims, j) && CountOf(t.commits, j) == CountOf(q.commits, j)
          && CountOf(t.applications, j) == CountOf(q.applications, j)
  }

  predicate SameRoots(s: Suggestion, x: Suggestion) {
    x.collection == s.collection && x.base == s.base && x.createdAt == s.createdAt && (Active(x) ==> Active(s))
  }

  lemma PutKeeps(q: Queue, t: Queue, id: Id, x: Suggestion)
    requires Inv(q) && id in q.suggestions && SameRoots(q.suggestions[id], x)
    requires t.suggestions == q.suggestions[id := x] && t.order == q.order && t.clock >= q.clock && Grown(q.collections, t.collections)
    requires SuggestionOk(x, t.collections, t.clock) && HistoryOk(t, id, x) && SameOthers(q, t, id) && Known(t)
    ensures Inv(t)
  {
    hide InWindow, CountOf, Known;
    forall collection, from ensures InWindow(t.suggestions, t.order, collection, from) <= PER_WINDOW {
      WindowSame(q, t, id, x, collection, from);
    }
  }

  lemma WindowSame(q: Queue, t: Queue, id: Id, x: Suggestion, collection: Id, from: int)
    requires id in q.suggestions && SameRoots(q.suggestions[id], x) && t.suggestions == q.suggestions[id := x] && t.order == q.order
    ensures InWindow(t.suggestions, t.order, collection, from) == InWindow(q.suggestions, q.order, collection, from)
  {
    CreatedSame(q.suggestions, t.suggestions, q.order, collection, from, Some(from + WINDOW));
  }

  lemma TakeKeeps(q: Queue, id: Id, e: Event)
    requires Inv(q) && e.Claim? && Timely(q, e) && id in q.suggestions && Active(q.suggestions[id])
    ensures Inv(Take(q, id, e))
  {
    hide CountOf, OneActive, RateOk, NoRepeats;
    var s, t := q.suggestions[id], Take(q, id, e);
    forall j ensures CountOf(q.claims + [Attempt(id, s.attempt + 1)], j) == CountOf(q.claims, j) + if j == id then 1 else 0 {
      CountAppend(q.claims, Attempt(id, s.attempt + 1), j);
    }
    CountZero(q.commits, id);
    PutKeeps(q, t, id, t.suggestions[id]);
  }

  lemma FinishKeeps(q: Queue, id: Id, attempt: nat, result: Option<Fields>, now: int)
    requires Inv(q) && now >= q.clock
    ensures Inv(Step(q, Finish(id, attempt, result, now)))
  {
    hide CountOf, OneActive, RateOk, NoRepeats;
    var t := Step(q, Finish(id, attempt, result, now));
    if id in q.suggestions && q.suggestions[id].status == Running && q.suggestions[id].attempt == attempt {
      forall j ensures CountOf(q.commits + [Attempt(id, attempt)], j) == CountOf(q.commits, j) + if j == id then 1 else 0 {
        CountAppend(q.commits, Attempt(id, attempt), j);
      }
      CountZero(q.commits, id);
      PutKeeps(q, t, id, t.suggestions[id]);
    }
  }

  lemma ApplyKeeps(q: Queue, e: Event)
    requires Inv(q) && e.Apply? && Timely(q, e)
    ensures Inv(Step(q, e))
  {
    hide CountOf, OneActive, RateOk, NoRepeats, MergedDraft;
    var t := Step(q, e);
    if ApplyRefusal(q, e).None? {
      forall j ensures CountOf(q.applications + [Attempt(e.id, e.revision)], j) == CountOf(q.applications, j) + if j == e.id then 1 else 0 {
        CountAppend(q.applications, Attempt(e.id, e.revision), j);
      }
      PutKeeps(q, t, e.id, t.suggestions[e.id]);
    }
  }

  lemma RequestKeeps(q: Queue, e: Event)
    requires Inv(q) && e.Request? && Timely(q, e)
    ensures Inv(Step(q, e))
  {
    hide CountOf, RateOk, NoRepeats, Created, InWindow;
    var t := Step(q, e);
    if RequestRefusal(q, e).None? {
      forall a | a in q.claims || a in q.commits || a in q.applications ensures a.id != e.id {}
      CountZero(q.claims, e.id);
      CountZero(q.commits, e.id);
      CountZero(q.applications, e.id);
      assert NoRepeats(t.order) by { AppendFresh(q.order, e.id); }
      assert RateOk(t.suggestions, t.order) by { RateKept(q, e); }
      assert OneActive(t.suggestions);
    }
  }

  lemma AppendFresh(ids: seq<Id>, id: Id)
    requires NoRepeats(ids) && id !in ids
    ensures NoRepeats(ids + [id])
  {
  }

  // At most four of the last hour's suggestions are admitted next to a new one, and every window
  // that contains the new one lies within that hour.
  lemma RateKept(q: Queue, e: Event)
    requires RateOk(q.suggestions, q.order) && e.Request? && Timely(q, e) && e.id !in q.suggestions
    requires Created(q.suggestions, q.order, e.collection, e.reading - WINDOW, None) < PER_WINDOW
    requires forall id :: id in q.order ==> id in q.suggestions
    ensures RateOk(q.suggestions[e.id := Suggestion(e.collection, e.revision, Queued, 0, 0, e.now, map[], false)], q.order + [e.id])
  {
    var x := Suggestion(e.collection, e.revision, Queued, 0, 0, e.now, map[], false);
    var n, ids := q.suggestions[e.id := x], q.order + [e.id];
    forall collection, from ensures InWindow(n, ids, collection, from) <= PER_WINDOW {
      var to := Some(from + WINDOW);
      assert ids[..|ids| - 1] == q.order;
      CreatedSame(q.suggestions, n, q.order, collection, from, to);
      assert InWindow(q.suggestions, q.order, collection, from) <= PER_WINDOW;
      if Counts(n, e.id, collection, from, to) {
        CreatedShrinks(q.suggestions, q.order, collection, e.reading - WINDOW, from, to);
      }
    }
  }

  lemma StepKeeps(q: Queue, e: Event)
    requires Inv(q)
    ensures Inv(Step(q, e))
  {
    hide CountOf, OneActive, RateOk, NoRepeats, Take, Due, ApplyRefusal, RequestRefusal, MergedDraft;
    if Timely(q, e) {
      match e
      case Request(_, _, _, _, _) => RequestKeeps(q, e);
      case Claim(now, _) =>
        var due := FirstSuch(q.order, DueIn(q.suggestions, now));
        if due.Some? {
          assert Active(q.suggestions[due.value]) by { DueIsActive(q.suggestions[due.value], now); }
          TakeKeeps(q, due.value, e);
        }
      case Finish(id, attempt, result, now) => FinishKeeps(q, id, attempt, result, now);
      case Apply(_, _, _, _, _, _) => ApplyKeeps(q, e);
      case Edit(_, _, _, _) =>
    }
  }

  lemma DueIsActive(s: Suggestion, now: int)
    requires Due(s, now)
    ensures Active(s)
  {
  }

  lemma {:induction false} QueueInvariant(q: Queue, es: seq<Event>)
    requires Initial(q)
    ensures Inv(Exec(q, es))
  {
    hide Step;
    if es != [] {
      QueueInvariant(q, es[..|es| - 1]);
      StepKeeps(Exec(q, es[..|es| - 1]), es[|es| - 1]);
    }
  }

  // ---------------------------------------------------------------- what the queue promises

  // Over any run, with any number of crashed, late and repeated workers.
  lemma QueueSafety(q: Queue, es: seq<Event>)
    requires Initial(q)
    ensures var t := Exec(q, es);
            && OneActive(t.suggestions)
            && (forall id :: CountOf(t.claims, id) <= MAX_ATTEMPTS && CountOf(t.commits, id) <= 1 && CountOf(t.applications, id) <= 1)
            && (forall collection, from :: InWindow(t.suggestions, t.order, collection, from) <= PER_WINDOW)
  {
    hide Exec, InWindow, CountOf;
    QueueInvariant(q, es);
    var t := Exec(q, es);
    forall id ensures CountOf(t.claims, id) <= MAX_ATTEMPTS && CountOf(t.commits, id) <= 1 && CountOf(t.applications, id) <= 1 {
      if id !in t.suggestions {
        CountZero(t.claims, id);
        CountZero(t.commits, id);
        CountZero(t.applications, id);
      } else {
        assert HistoryOk(t, id, t.suggestions[id]);
      }
    }
  }

  // A result is committed only by the attempt handed out last, and the commit ends the suggestion.
  lemma LatestAttemptCommits(q: Queue, e: Event)
    requires Inv(q)
    ensures var t := Step(q, e);
            t.commits != q.commits ==>
              && e.Finish? && e.id in q.suggestions && q.suggestions[e.id].status == Running
              && t.commits == q.commits + [Attempt(e.id, e.attempt)]
              && e.attempt == q.suggestions[e.id].attempt == CountOf(q.claims, e.id)
              && t.suggestions[e.id].status == (if e.result.Some? then Succeeded else Failed)
              && t.suggestions[e.id].fields == (if e.result.Some? then e.result.value else map[])
  {
    hide CountOf, Known, OneActive, RateOk, AllOk, Due, ApplyRefusal, RequestRefusal, MergedDraft;
    assert e.Finish? && e.id in q.suggestions ==> HistoryOk(q, e.id, q.suggestions[e.id]);
  }

  // A suggestion is applied to the revision it was made from: no edit came between, and the
  // revision moves on, so that no other suggestion made from it can be applied afterwards.
  lemma AppliedToItsBase(q: Queue, e: Event)
    requires Inv(q)
    ensures var t := Step(q, e);
            t.applications != q.applications ==>
              && e.Apply? && e.id in q.suggestions && q.suggestions[e.id].status == Succeeded && !q.suggestions[e.id].applied
              && var s := q.suggestions[e.id];
                 && s.collection in q.collections && q.collections[s.collection].revision == s.base
                 && t.collections[s.collection].revision == s.base + 1
                 && forall k :: k in t.collections[s.collection].draft <==>
                      k in q.collections[s.collection].draft || (k in e.selected && k in s.fields)
  {
    hide CountOf, Known, OneActive, RateOk, AllOk, Due, RequestRefusal;
  }

  // Merging replaces the selected fields and leaves every other field of the draft alone.
  lemma MergeKeepsOthers(draft: Fields, available: Fields, selected: seq<string>, k: string)
    requires forall j :: j in selected ==> j in available
    ensures var merged := MergedDraft(draft, available, selected);
            && (k in selected ==> k in merged && merged[k] == available[k])
            && (k !in selected ==> (k in merged <==> k in draft) && (k in draft ==> merged[k] == draft[k]))
  {
  }

  // A suggestion that succeeded or failed never changes again, except that it may be applied once:
  // it is not claimed, finished or reopened by anything that follows.
  lemma {:induction false} FinishedForever(q: Queue, es: seq<Event>, id: Id)
    requires Inv(q) && id in q.suggestions && !Active(q.suggestions[id])
    ensures var t := Exec(q, es);
            && id in t.suggestions && t.suggestions[id].(applied := q.suggestions[id].applied) == q.suggestions[id]
            && (q.suggestions[id].applied ==> t.suggestions[id].applied)
            && Inv(t) && CountOf(t.claims, id) == CountOf(q.claims, id) && CountOf(t.commits, id) == CountOf(q.commits, id)
  {
    hide CountOf, Step, Inv;
    if es != [] {
      var mid := Exec(q, es[..|es| - 1]);
      FinishedForever(q, es[..|es| - 1], id);
      StepKeeps(mid, es[|es| - 1]);
      FinishedStep(mid, es[|es| - 1], id);
    }
  }

  lemma FinishedStep(q: Queue, e: Event, id: Id)
    requires Inv(q) && id in q.suggestions && !Active(q.suggestions[id])
    ensures var t := Step(q, e);
            && id in t.suggestions && t.suggestions[id].(applied := q.suggestions[id].applied) == q.suggestions[id]
            && (q.suggestions[id].applied ==> t.suggestions[id].applied)
            && CountOf(t.claims, id) == CountOf(q.claims, id) && CountOf(t.commits, id) == CountOf(q.commits, id)
  {
    hide CountOf, Known, OneActive, RateOk, AllOk, HistoriesOk, Created, NoRepeats, MergedDraft, HasActive;
    forall a: Attempt ensures CountOf(q.claims + [a], id) == CountOf(q.claims, id) + if a.id == id then 1 else 0 { CountAppend(q.claims, a, id); }
    forall a: Attempt ensures CountOf(q.commits + [a], id) == CountOf(q.commits, id) + if a.id == id then 1 else 0 { CountAppend(q.commits, a, id); }
  }

  // ---------------------------------------------------------------- the transactions in place

  datatype Job = Job(id: Id, attempt: nat)

  class SuggestionStore {
    var suggestions: map<Id, Suggestion>
    var order: seq<Id>
    var collections: map<Id, Collection>
    ghost var clock: int
    ghost var claims: seq<Attempt>
    ghost var commits: seq<Attempt>
    ghost var applications: seq<Attempt>

    ghost function Current(): Queue
      reads this
    {
      Queue(suggestions, order, collections, clock, claims, commits, applications)
    }

    method RequestSuggestion(collection: Id, revision: nat, id: Id, reading: int, now: int) returns (result: Result<Suggestion, string>)
      requires Timely(Current(), Request(collection, revision, id, reading, now))
      modifies this
      ensures Current() == Step(old(Current()), Request(collection, revision, id, reading, now))
      ensures var refusal := old(RequestRefusal(Current(), Request(collection, revision, id, reading, now)));
              if refusal.Some? then result == Err(refusal.value) else id in suggestions && result == Ok(suggestions[id])
    {
      clock := now;
      if collection !in collections { return Err("COLLECTION_NOT_FOUND"); }
      if collections[collection].archived { return Err("COLLECTION_ARCHIVED"); }
      if collections[collection].revision != revision { return Err("COLLECTION_CONFLICT"); }
      if exists k :: k in suggestions && suggestions[k].collection == collection && Active(suggestions[k]) { return Err("SUGGESTION_ALREADY_ACTIVE"); }
      if Created(suggestions, order, collection, reading - WINDOW, None) >= PER_WINDOW { return Err("SUGGESTION_RATE_LIMIT"); }
      if id in suggestions { return Err("IDENTIFIER_IN_USE"); }
      suggestions := suggestions[id := Suggestion(collection, revision, Queued, 0, 0, now, map[], false)];
      order := order + [id];
      result := Ok(suggestions[id]);
    }

    method ClaimSuggestion(now: int, until: int) returns (job: Option<Job>)
      requires Timely(Current(), Claim(now, until))
      modifies this
      ensures Current() == Step(old(Current()), Claim(now, until))
      ensures job.Some? <==> claims != old(claims)
      ensures job.Some? ==> claims == old(claims) + [Attempt(job.value.id, job.value.attempt)]
    {
      clock := now;
      var due := FirstSuch(order, DueIn(suggestions, now));
      if due.None? { return None; }
      var s := suggestions[due.value];
      if s.attempt >= MAX_ATTEMPTS {
        suggestions := suggestions[due.value := s.(status := Failed)];
        return None;
      }
      suggestions := suggestions[due.value := s.(status := Running, attempt := s.attempt + 1, lease := until)];
      claims := claims + [Attempt(due.value, s.attempt + 1)];
      job := Some(Job(due.value, s.attempt + 1));
    }

    method FinishSuggestion(job: Job, result: Option<Fields>, now: int) returns (committed: bool)
      requires Timely(Current(), Finish(job.id, job.attempt, result, now))
      modifies this
      ensures Current() == Step(old(Current()), Finish(job.id, job.attempt, result, now))
      ensures committed <==> commits != old(commits)
    {
      clock := now;
      if job.id !in suggestions || suggestions[job.id].status != Running || suggestions[job.id].attempt != job.attempt { return false; }
      var s := suggestions[job.id];
      s := if result.Some? then s.(status := Succeeded, fields := result.value) else s.(status := Failed, fields := map[]);
      suggestions := suggestions[job.id := s];
      commits := commits + [Attempt(job.id, job.attempt)];
      committed := true;
    }

    method ApplySuggestion(collection: Id, id: Id, revision: nat, selected: seq<string>, valid: bool, now: int) returns (refusal: Option<string>)
      requires Timely(Current(), Apply(collection, id, revision, selected, valid, now))
      modifies this
      ensures Current() == Step(old(Current()), Apply(collection, id, revision, selected, valid, now))
      ensures refusal == old(ApplyRefusal(Current(), Apply(collection, id, revision, selected, valid, now)))
    {
      clock := now;
      if collection !in collections { return Some("COLLECTION_NOT_FOUND"); }
      var c := collections[collection];
      if c.archived { return Some("COLLECTION_ARCHIVED"); }
      if c.revision != revision { return Some("COLLECTION_CONFLICT"); }
      if id !in suggestions || suggestions[id].collection != collection { return Some("SUGGESTION_NOT_FOUND"); }
      var s := suggestions[id];
      if s.status != Succeeded || s.applied { return Some("SUGGESTION_NOT_READY"); }
      if s.base != revision { return Some("COLLECTION_CONFLICT"); }
      if selected == [] || !NoRepeats(selected) || exists k :: k in selected && k !in s.fields { return Some("SUGGESTION_SELECTION_INVALID"); }
      if !valid { return Some("INVALID_DRAFT"); }
      suggestions := suggestions[id := s.(applied := true)];
      collections := collections[collection := c.(revision := c.revision + 1, draft := c.draft + map k | k in selected && k in s.fields :: s.fields[k])];
      applications := applications + [Attempt(id, revision)];
      refusal := None;
    }
  }
}
