/**
 The two suggestion commands (backend/src/extrio/field_suggestions.py, `field_workflow_command`) as
 idempotent commands over the queue, among the claims, finishes and edits that need no key.
 */
module SuggestionCommands {
  import opened Prelude
  import opened SuggestionQueue
  import opened CommandReceipts

  datatype Body = Body(revision: nat, selected: seq<string>)

  datatype Response = Queueing(suggestion: Suggestion) | Changing(collection: Collection)

  const REQUESTED := "field_suggestion.requested"
  const APPLIED := "collection.suggestion_applied"

  type Log = Ledger<Queue, Body, Response>

  // A command whose clock runs behind the last transaction is outside the model and refused.
  const BEHIND := "CLOCK_RUNS_BACK"

  function RequestCommand(key: Key, e: Event): Command<Queue, Body, Response>
    requires e.Request?
  {
    Command(key, Body(e.revision, []), q =>
      if !Timely(q, e) then Abort(BEHIND)
      else
        match RequestRefusal(q, e)
        case Some(error) => Abort(error)
        case None => Commit(Step(q, e), 202, Queueing(Step(q, e).suggestions[e.id]), REQUESTED))
  }

  function ApplyCommand(key: Key, e: Event): Command<Queue, Body, Response>
    requires e.Apply?
  {
    Command(key, Body(e.revision, e.selected), q =>
      if !Timely(q, e) then Abort(BEHIND)
      else
        match ApplyRefusal(q, e)
        case Some(error) => Abort(error)
        case None => Commit(Step(q, e), 200, Changing(Step(q, e).collections[e.collection]), APPLIED))
  }

  // A claim, a finish or an edit.
  predicate Keyless(e: Event) {
    e.Claim? || e.Finish? || e.Edit?
  }

  function Outside(e: Event): Queue -> Queue {
    q => Step(q, e)
  }

  ghost predicate IsRequest(c: Command<Queue, Body, Response>) {
    exists key, e: Event :: e.Request? && c == RequestCommand(key, e)
  }

  ghost predicate IsApply(c: Command<Queue, Body, Response>) {
    exists key, e: Event :: e.Apply? && c == ApplyCommand(key, e)
  }

  ghost predicate IsSuggestionHappening(h: Happening<Queue, Body, Response>) {
    match h
    case Issued(command) => IsRequest(command) || IsApply(command)
    case Passed(_) => exists e :: Keyless(e) && h == Passed(Outside(e))
  }

  lemma SuggestionHappeningKeeps(h: Happening<Queue, Body, Response>)
    requires IsSuggestionHappening(h)
    ensures HappeningKeeps(h, Inv)
  {
    hide Inv, Step, RequestRefusal, ApplyRefusal, Timely;
    match h
    case Passed(change) =>
      var e :| Keyless(e) && h == Passed(Outside(e));
      forall q | Inv(q) ensures Inv(change(q)) { StepKeeps(q, e); }
    case Issued(command) =>
      forall q | Inv(q) && command.effect(q).Commit? ensures Inv(command.effect(q).domain) {
        if IsRequest(command) {
          var key, e: Event :| e.Request? && command == RequestCommand(key, e);
          StepKeeps(q, e);
        } else {
          var key, e: Event :| e.Apply? && command == ApplyCommand(key, e);
          StepKeeps(q, e);
        }
      }
  }

  // ---------------------------------------------------------------- what was audited is what was done

  function ActionCount(audit: seq<Audit<Response>>, action: string): nat {
    if audit == [] then 0 else ActionCount(audit[..|audit| - 1], action) + if audit[|audit| - 1].action == action then 1 else 0
  }

  predicate Audited(l: Log) {
    |l.domain.order| == ActionCount(l.audit, REQUESTED) && |l.domain.applications| == ActionCount(l.audit, APPLIED)
  }

  lemma ActionsDiffer()
    ensures REQUESTED != APPLIED
  {
    assert REQUESTED[0] == 'f' && APPLIED[0] == 'c';
  }

  lemma RequestAdds(q: Queue, e: Event)
    requires e.Request? && Timely(q, e) && RequestRefusal(q, e).None?
    ensures |Step(q, e).order| == |q.order| + 1 && Step(q, e).applications == q.applications
  {
  }

  lemma ApplyAdds(q: Queue, e: Event)
    requires e.Apply? && Timely(q, e) && ApplyRefusal(q, e).None?
    ensures Step(q, e).order == q.order && |Step(q, e).applications| == |q.applications| + 1
  {
  }

  lemma KeylessAdds(q: Queue, e: Event)
    requires Keyless(e)
    ensures Step(q, e).order == q.order && Step(q, e).applications == q.applications
  {
  }

  lemma AuditAppends(l: Log, key: Key, action: string, response: Response, other: string)
    ensures ActionCount(l.audit + [Audit(key, action, response)], other) == ActionCount(l.audit, other) + if action == other then 1 else 0
  {
    var audit := l.audit + [Audit(key, action, response)];
    assert audit[..|audit| - 1] == l.audit;
  }

  lemma HappeningAudited(l: Log, h: Happening<Queue, Body, Response>)
    requires Audited(l) && IsSuggestionHappening(h)
    ensures Audited(Happen(l, h))
  {
    hide Step, RequestRefusal, ApplyRefusal, Timely, ActionCount;
    match h
    case Passed(change) =>
      var e :| Keyless(e) && h == Passed(Outside(e));
      KeylessAdds(l.domain, e);
    case Issued(command) =>
      ActionsDiffer();
      if command.key !in l.receipts && command.effect(l.domain).Commit? {
        var done := command.effect(l.domain);
        AuditAppends(l, command.key, done.action, done.response, REQUESTED);
        AuditAppends(l, command.key, done.action, done.response, APPLIED);
        if IsRequest(command) {
          var key, e: Event :| e.Request? && command == RequestCommand(key, e);
          RequestAdds(l.domain, e);
        } else {
          var key, e: Event :| e.Apply? && command == ApplyCommand(key, e);
          ApplyAdds(l.domain, e);
        }
      }
  }

  lemma {:induction false} SuggestionsAudited(q: Queue, hs: seq<Happening<Queue, Body, Response>>)
    requires Initial(q) && forall h :: h in hs ==> IsSuggestionHappening(h)
    ensures Audited(HappenAll(Fresh<Queue, Body, Response>(q), hs))
  {
    hide IsSuggestionHappening, Happen;
    if hs != [] {
      SuggestionsAudited(q, hs[..|hs| - 1]);
      HappeningAudited(HappenAll(Fresh<Queue, Body, Response>(q), hs[..|hs| - 1]), hs[|hs| - 1]);
    }
  }

  // Over any interleaving of requests and applications, retried or new, with claims, finishes and edits:
  // the queue keeps its invariant, each key is audited once if it has a receipt and never otherwise, and
  // there are exactly as many suggestions and applications as audit events that say so.
  lemma SuggestionHistory(q: Queue, hs: seq<Happening<Queue, Body, Response>>, key: Key)
    requires Initial(q) && forall h :: h in hs ==> IsSuggestionHappening(h)
    ensures var l := HappenAll(Fresh<Queue, Body, Response>(q), hs);
            && Inv(l.domain) && Audited(l)
            && AuditCount(l.audit, key) == if key in l.receipts then 1 else 0
  {
    hide Inv, IsSuggestionHappening, HappeningKeeps, Initial, Audited;
    assert Inv(q) by {
      QueueInvariant(q, []);
    }
    forall h | h in hs ensures HappeningKeeps(h, Inv) { SuggestionHappeningKeeps(h); }
    HistoryKeeps(q, hs, Inv, key);
    SuggestionsAudited(q, hs);
  }
}
