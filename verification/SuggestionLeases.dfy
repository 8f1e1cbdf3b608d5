/**
 What each queue transaction does, said of statuses, leases, attempts and revisions alone, and that a
 running lease protects its worker.
 */
module SuggestionLeases {
  import opened Prelude
  import opened SuggestionQueue

  // ---------------------------------------------------------------- claiming

  predicate Waiting(s: Suggestion, now: int) {
    s.status == Queued || (s.status == Running && s.lease < now)
  }

  // A claim leaves everything alone whose worker may still be at work.
  lemma ClaimRespectsLease(q: Queue, now: int, until: int, id: Id)
    requires id in q.suggestions && q.suggestions[id].status == Running && now <= q.suggestions[id].lease
    ensures var t := Step(q, Claim(now, until));
            id in t.suggestions && t.suggestions[id] == q.suggestions[id] && CountOf(t.claims, id) == CountOf(q.claims, id)
  {
    hide CountOf;
    var due := FirstSuch(q.order, DueIn(q.suggestions, now));
    if due.Some? && q.suggestions[due.value].attempt < MAX_ATTEMPTS {
      CountAppend(q.claims, Attempt(due.value, q.suggestions[due.value].attempt + 1), id);
    }
  }

  predicate IsOldestWaiting(q: Queue, now: int, i: nat) {
    && i < |q.order| && q.order[i] in q.suggestions && Waiting(q.suggestions[q.order[i]], now)
    && forall j :: 0 <= j < i && q.order[j] in q.suggestions ==> !Waiting(q.suggestions[q.order[j]], now)
  }

  // It takes the oldest waiting suggestion: with fewer than three attempts behind it the suggestion gets
  // the next attempt and the new lease, and otherwise it fails.
  lemma ClaimTakesOldest(q: Queue, now: int, until: int, i: nat)
    requires Timely(q, Claim(now, until)) && IsOldestWaiting(q, now, i)
    ensures var id, s, t := q.order[i], q.suggestions[q.order[i]], Step(q, Claim(now, until));
            && t.order == q.order && t.collections == q.collections && t.commits == q.commits && t.applications == q.applications && t.clock == now
            && if s.attempt < 3 then
                 && t.suggestions == q.suggestions[id := s.(status := Running, attempt := s.attempt + 1, lease := until)]
                 && t.claims == q.claims + [Attempt(id, s.attempt + 1)]
               else t.suggestions == q.suggestions[id := s.(status := Failed)] && t.claims == q.claims
  {
    FirstIs(q.order, DueIn(q.suggestions, now), i);
  }

  lemma ClaimFindsNone(q: Queue, now: int, until: int)
    requires forall id :: id in q.order && id in q.suggestions ==> !Waiting(q.suggestions[id], now)
    ensures var t := Step(q, Claim(now, until)); t.suggestions == q.suggestions && t.claims == q.claims && t.order == q.order
  {
  }

  // What a claim hands out and nothing since may have taken away.
  predicate Held(s: Suggestion, attempt: nat, until: int) {
    s.attempt == attempt && s.status != Queued && (s.status == Running ==> s.lease == until)
  }

  lemma HeldStep(q: Queue, e: Event, id: Id, attempt: nat, until: int)
    requires Inv(q) && id in q.suggestions && Held(q.suggestions[id], attempt, until) && e.now <= until
    ensures var t := Step(q, e);
            id in t.suggestions && Held(t.suggestions[id], attempt, until) && CountOf(t.claims, id) == CountOf(q.claims, id)
  {
    hide Inv, CountOf, ApplyRefusal, RequestRefusal, MergedDraft;
    if e.Claim? && FirstSuch(q.order, DueIn(q.suggestions, e.now)).Some? {
      var due := FirstSuch(q.order, DueIn(q.suggestions, e.now)).value;
      CountAppend(q.claims, Attempt(due, q.suggestions[due].attempt + 1), id);
    }
    if e.Request? && RequestRefusal(q, e).None? { RequestIsFresh(q, e); }
  }

  lemma RequestIsFresh(q: Queue, e: Event)
    requires e.Request? && RequestRefusal(q, e).None?
    ensures e.id !in q.suggestions
  {
  }

  lemma {:induction false} HeldFor(q: Queue, es: seq<Event>, id: Id, attempt: nat, until: int)
    requires Inv(q) && id in q.suggestions && Held(q.suggestions[id], attempt, until) && forall e :: e in es ==> e.now <= until
    ensures var t := Exec(q, es);
            Inv(t) && id in t.suggestions && Held(t.suggestions[id], attempt, until) && CountOf(t.claims, id) == CountOf(q.claims, id)
  {
    hide Inv, Step, Held, CountOf;
    if es != [] {
      var front, last := es[..|es| - 1], es[|es| - 1];
      assert last in es && forall e :: e in front ==> e in es;
      HeldFor(q, front, id, attempt, until);
      StepKeeps(Exec(q, front), last);
      HeldStep(Exec(q, front), last, id, attempt, until);
    }
  }

  // Over any run: from a claim until the end of its lease nobody else is handed the suggestion, whatever
  // other workers, requests and edits come between.
  lemma LeaseProtects(q: Queue, now: int, until: int, id: Id, attempt: nat, es: seq<Event>)
    requires Inv(q) && Step(q, Claim(now, until)).claims == q.claims + [Attempt(id, attempt)]
    requires forall e :: e in es ==> e.now <= until
    ensures var t := Exec(Step(q, Claim(now, until)), es);
            && CountOf(t.claims, id) == CountOf(q.claims, id) + 1
            && id in t.suggestions && t.suggestions[id].attempt == attempt
  {
    hide Inv, CountOf, Exec;
    StepKeeps(q, Claim(now, until));
    CountAppend(q.claims, Attempt(id, attempt), id);
    assert (q.claims + [Attempt(id, attempt)])[|q.claims|] == Attempt(id, attempt);
    HeldFor(Step(q, Claim(now, until)), es, id, attempt, until);
  }

  // A lease lasts two minutes at least.
  lemma LeaseLasts(q: Queue, now: int, until: int)
    ensures Step(q, Claim(now, until)) != q ==> now + 120 <= until
  {
  }

  // ---------------------------------------------------------------- finishing, requesting, applying

  // The attempt that still runs ends its suggestion with its result, and any other changes nothing.
  lemma FinishMeans(q: Queue, id: Id, attempt: nat, result: Option<Fields>, now: int)
    requires q.clock <= now
    ensures var t := Step(q, Finish(id, attempt, result, now));
            && t.order == q.order && t.collections == q.collections && t.claims == q.claims && t.applications == q.applications
            && if id in q.suggestions && q.suggestions[id].status == Running && q.suggestions[id].attempt == attempt then
                 && t.commits == q.commits + [Attempt(id, attempt)]
                 && t.suggestions == q.suggestions[id := q.suggestions[id].(status := if result.Some? then Succeeded else Failed,
                                                                           fields := if result.Some? then result.value else map[])]
               else t.suggestions == q.suggestions && t.commits == q.commits
  {
  }

  // The suggestions of a collection made within the hour before a reading of the clock.
  function Recent(q: Queue, collection: Id, reading: int): set<Id> {
    set id | id in q.suggestions && q.suggestions[id].collection == collection && reading - 3600 <= q.suggestions[id].createdAt
  }

  lemma {:induction false} CreatedCounts(m: map<Id, Suggestion>, ids: seq<Id>, collection: Id, from: int, to: Option<int>, found: set<Id>)
    requires NoRepeats(ids) && forall id :: id in found <==> id in ids && Counts(m, id, collection, from, to)
    ensures Created(m, ids, collection, from, to) == |found|
  {
    hide Counts;
    if ids == [] {
      assert found == {};
    } else {
      var front, last := ids[..|ids| - 1], ids[|ids| - 1];
      assert forall id :: id in ids <==> id in front || id == last by { assert ids == front + [last]; }
      assert last !in front;
      CreatedCounts(m, front, collection, from, to, found - {last});
    }
  }

  // A request is accepted exactly for an open collection at the given revision without an active
  // suggestion and with fewer than five in the last hour; it queues one fresh suggestion of that revision.
  lemma RequestMeans(q: Queue, e: Event)
    requires Inv(q) && e.Request? && Timely(q, e)
    ensures var t := Step(q, e);
            && t.collections == q.collections && t.claims == q.claims && t.commits == q.commits && t.applications == q.applications
            && if && e.collection in q.collections && !q.collections[e.collection].archived && q.collections[e.collection].revision == e.revision
                  && (forall id :: id in q.suggestions && q.suggestions[id].collection == e.collection ==> q.suggestions[id].status in {Succeeded, Failed})
                  && |Recent(q, e.collection, e.reading)| < 5 && e.id !in q.suggestions
               then
                 && t.order == q.order + [e.id]
                 && t.suggestions == q.suggestions[e.id := Suggestion(e.collection, e.revision, Queued, 0, 0, e.now, map[], false)]
               else t.order == q.order && t.suggestions == q.suggestions
  {
    hide CountOf, HistoriesOk, OneActive, RateOk;
    CreatedCounts(q.suggestions, q.order, e.collection, e.reading - 3600, None, Recent(q, e.collection, e.reading));
    StatusCases(q, e.collection);
  }

  lemma StatusCases(q: Queue, collection: Id)
    ensures HasActive(q, collection) <==>
              !(forall id :: id in q.suggestions && q.suggestions[id].collection == collection ==> q.suggestions[id].status in {Succeeded, Failed})
  {
  }

  // No six suggestions of one collection are made within one hour.
  lemma FiveAnHour(q: Queue, es: seq<Event>, collection: Id, from: int)
    requires Initial(q)
    ensures var m := Exec(q, es).suggestions;
            |set id | id in m && m[id].collection == collection && from <= m[id].createdAt <= from + 3600| <= 5
  {
    hide Exec, CountOf;
    QueueInvariant(q, es);
    var t := Exec(q, es);
    assert InWindow(t.suggestions, t.order, collection, from) <= 5;
    CreatedCounts(t.suggestions, t.order, collection, from, Some(from + 3600),
                  set id | id in t.suggestions && t.suggestions[id].collection == collection && from <= t.suggestions[id].createdAt <= from + 3600);
  }

  // An application succeeds exactly for a succeeded suggestion of an open collection, not applied yet and
  // made from its current revision, with distinct keys it offers; the draft then takes those fields.
  lemma ApplyMeans(q: Queue, e: Event)
    requires e.Apply? && Timely(q, e)
    ensures var t := Step(q, e);
            && t.order == q.order && t.claims == q.claims && t.commits == q.commits
            && if && e.collection in q.collections && !q.collections[e.collection].archived && q.collections[e.collection].revision == e.revision
                  && e.id in q.suggestions && q.suggestions[e.id].collection == e.collection
                  && q.suggestions[e.id].status == Succeeded && !q.suggestions[e.id].applied && q.suggestions[e.id].base == e.revision
                  && e.selected != [] && NoRepeats(e.selected) && (forall k :: k in e.selected ==> k in q.suggestions[e.id].fields) && e.valid
               then
                 var before, after, offered := q.collections[e.collection].draft, t.collections, q.suggestions[e.id].fields;
                 && t.suggestions == q.suggestions[e.id := q.suggestions[e.id].(applied := true)]
                 && t.applications == q.applications + [Attempt(e.id, e.revision)]
                 && e.collection in after && after == q.collections[e.collection := after[e.collection]]
                 && after[e.collection].revision == e.revision + 1 && !after[e.collection].archived
                 && (forall k :: k in after[e.collection].draft <==> k in before || k in e.selected)
                 && (forall k :: k in after[e.collection].draft ==>
                       after[e.collection].draft[k] == if k in e.selected then offered[k] else before[k])
               else t.suggestions == q.suggestions && t.collections == q.collections && t.applications == q.applications
  {
  }

  // An edit replaces the draft and moves the revision on, so a suggestion made before it never applies.
  lemma EditMeans(q: Queue, collection: Id, draft: Fields, archived: bool, now: int)
    requires q.clock <= now && collection in q.collections
    ensures var t := Step(q, Edit(collection, draft, archived, now));
            && t.collections == q.collections[collection := Collection(q.collections[collection].revision + 1, archived, draft)]
            && t.suggestions == q.suggestions && t.order == q.order && t.claims == q.claims && t.commits == q.commits && t.applications == q.applications
  {
  }

  // Which answer a refused request gets, and which a refused application: the first check that fails.
  lemma RequestAnswers(q: Queue, e: Event)
    requires Inv(q) && e.Request?
    ensures var known := e.collection in q.collections;
            var open := known && !q.collections[e.collection].archived;
            var current := open && q.collections[e.collection].revision == e.revision;
            var idle := forall id :: id in q.suggestions && q.suggestions[id].collection == e.collection ==> q.suggestions[id].status in {Succeeded, Failed};
            && (!known ==> RequestRefusal(q, e) == Some("COLLECTION_NOT_FOUND"))
            && (known && !open ==> RequestRefusal(q, e) == Some("COLLECTION_ARCHIVED"))
            && (open && !current ==> RequestRefusal(q, e) == Some("COLLECTION_CONFLICT"))
            && (current && !idle ==> RequestRefusal(q, e) == Some("SUGGESTION_ALREADY_ACTIVE"))
            && (current && idle && |Recent(q, e.collection, e.reading)| >= 5 ==> RequestRefusal(q, e) == Some("SUGGESTION_RATE_LIMIT"))
  {
    hide CountOf, HistoriesOk, OneActive, RateOk;
    CreatedCounts(q.suggestions, q.order, e.collection, e.reading - 3600, None, Recent(q, e.collection, e.reading));
    StatusCases(q, e.collection);
  }

  lemma ApplyAnswers(q: Queue, e: Event)
    requires e.Apply?
    ensures var known := e.collection in q.collections;
            var open := known && !q.collections[e.collection].archived;
            var current := open && q.collections[e.collection].revision == e.revision;
            var found := current && e.id in q.suggestions && q.suggestions[e.id].collection == e.collection;
            var ready := found && q.suggestions[e.id].status == Succeeded && !q.suggestions[e.id].applied;
            var based := ready && q.suggestions[e.id].base == e.revision;
            var chosen := based && e.selected != [] && NoRepeats(e.selected) && forall k :: k in e.selected ==> k in q.suggestions[e.id].fields;
            && (!known ==> ApplyRefusal(q, e) == Some("COLLECTION_NOT_FOUND"))
            && (known && !open ==> ApplyRefusal(q, e) == Some("COLLECTION_ARCHIVED"))
            && (open && !current ==> ApplyRefusal(q, e) == Some("COLLECTION_CONFLICT"))
            && (current && !found ==> ApplyRefusal(q, e) == Some("SUGGESTION_NOT_FOUND"))
            && (found && !ready ==> ApplyRefusal(q, e) == Some("SUGGESTION_NOT_READY"))
            && (ready && !based ==> ApplyRefusal(q, e) == Some("COLLECTION_CONFLICT"))
            && (based && !chosen ==> ApplyRefusal(q, e) == Some("SUGGESTION_SELECTION_INVALID"))
            && (chosen && !e.valid ==> ApplyRefusal(q, e) == Some("INVALID_DRAFT"))
  {
  }
}
