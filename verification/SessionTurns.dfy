/**
 What one turn of the agent loop, one validation and one filling of the prompt decide, case by case.
 */
module SessionTurns {
  import opened Prelude
  import opened AdaptiveCompile

  // ---------------------------------------------------------------- a turn

  // Calls a phase may still make: discovery leaves half of all calls, four at most, to compilation.
  function CallsLeft(s: Session, purpose: string): int {
    s.maxCalls - s.calls - if purpose != "discover" then 0 else if s.maxCalls / 2 < 4 then s.maxCalls / 2 else 4
  }

  // A turn ends the run before any call, with the first of these reasons, or makes exactly one call.
  lemma BarredMeans(s: Session, purpose: string, turns: nat -> Turn)
    ensures var t, run := turns(s.calls), RunFrom(s, purpose, turns);
            && (t.expired ==> run == (s, Stopped(OutOfTime)))
            && (!t.expired && t.drained ==> run == (s, Stopped(OutOfTokens)))
            && (!t.expired && !t.drained && s.calls >= s.maxCalls ==> run == (s, Stopped(OutOfCalls)))
            && (!t.expired && !t.drained && s.calls < s.maxCalls && CallsLeft(s, purpose) <= 0 ==> run == (s, Stopped(DiscoveryBudget)))
            && (!t.expired && !t.drained && s.calls < s.maxCalls && CallsLeft(s, purpose) > 0 && !t.fits ==> run == (s, Stopped(OutOfTokens)))
  {
  }

  predicate Calls(s: Session, purpose: string, t: Turn) {
    !t.expired && !t.drained && s.calls < s.maxCalls && CallsLeft(s, purpose) > 0 && t.fits
  }

  // An answer that adds nothing new moves the stall counter on, and the third in a row ends the run.
  function Stalls(s: Session): Session {
    s.(calls := s.calls + 1, stalled := s.stalled + 1)
  }

  function Advances(s: Session, signature: Signature, more: set<Signature>): Session {
    s.(calls := s.calls + 1, stalled := 0, seen := s.seen + {signature} + more)
  }

  // An input that is too long costs its call and the loop goes on; a failed call counts as no progress and
  // ends the run; time and tokens are looked at again before the answer is.
  lemma CallMeans(s: Session, purpose: string, turns: nat -> Turn)
    requires Calls(s, purpose, turns(s.calls))
    ensures var t, run := turns(s.calls), RunFrom(s, purpose, turns);
            && (t.answer.TooLong? ==> run == RunFrom(s.(calls := s.calls + 1), purpose, turns))
            && (t.answer.CallFailed? ==> run == (Stalls(s), if s.stalled >= 2 then Stopped(NoProgress) else Failed))
            && (!t.answer.TooLong? && !t.answer.CallFailed? && t.late ==> run == (s.(calls := s.calls + 1), Stopped(OutOfTime)))
            && (!t.answer.TooLong? && !t.answer.CallFailed? && !t.late && t.overspent ==> run == (s.(calls := s.calls + 1), Stopped(OutOfTokens)))
  {
  }

  predicate Heard(s: Session, purpose: string, t: Turn) {
    Calls(s, purpose, t) && !t.late && !t.overspent
  }

  // A rule is returned, new or not, unless it is the third answer in a row that adds nothing; the same rule
  // proposed for another purpose is new.
  lemma ProposalMeans(s: Session, purpose: string, turns: nat -> Turn)
    requires Heard(s, purpose, turns(s.calls)) && turns(s.calls).answer.Propose?
    ensures var digest, run := turns(s.calls).answer.digest, RunFrom(s, purpose, turns);
            if Proposal(purpose, digest) !in s.seen then run == (Advances(s, Proposal(purpose, digest), {}), Rule(digest))
            else run == (Stalls(s), if s.stalled >= 2 then Stopped(NoProgress) else Rule(digest))
  {
    if Proposal(purpose, turns(s.calls).answer.digest) !in s.seen {
      var t := Answered(s, purpose, turns(s.calls)).0;
      assert t.seen == s.seen + {Proposal(purpose, turns(s.calls).answer.digest)} + {};
    }
  }

  // A read that adds something goes on with everything it added remembered; a read that adds nothing, and
  // an answer that is no action, count against the run and it goes on until the third.
  lemma ReadMeans(s: Session, purpose: string, turns: nat -> Turn)
    requires Heard(s, purpose, turns(s.calls)) && turns(s.calls).answer.Read? && turns(s.calls).answer.first.Some?
    requires ReadOf(turns(s.calls).answer.first.value) !in s.seen
    ensures var first, others := turns(s.calls).answer.first.value, turns(s.calls).answer.others;
            RunFrom(s, purpose, turns) == RunFrom(Advances(s, ReadOf(first), set text | text in others :: ReadOf(text)), purpose, turns)
  {
    var first, others := turns(s.calls).answer.first.value, turns(s.calls).answer.others;
    var (t, outcome) := Answered(s, purpose, turns(s.calls));
    assert outcome.None?;
    assert t.seen == s.seen + {ReadOf(first)} + (set text | text in others :: ReadOf(text));
    assert t == Advances(s, ReadOf(first), set text | text in others :: ReadOf(text));
  }

  lemma IdleMeans(s: Session, purpose: string, turns: nat -> Turn)
    requires Heard(s, purpose, turns(s.calls))
    requires turns(s.calls).answer.Malformed? || (turns(s.calls).answer.Read? && turns(s.calls).answer.first.None?)
    ensures RunFrom(s, purpose, turns) == if s.stalled >= 2 then (Stalls(s), Stopped(NoProgress)) else RunFrom(Stalls(s), purpose, turns)
  {
    var (t, outcome) := Answered(s, purpose, turns(s.calls));
    assert t == Stalls(s);
  }

  // ---------------------------------------------------------------- a validation

  // Issues count as no better when they include all of a non-empty last set and nothing was read since.
  lemma ValidationMeans(v: Validation, issues: set<Issue>)
    ensures var w := Validate(v, issues);
            && w.previous == issues && w.seenRevision == w.revision == v.revision
            && w.stalled == if v.previous != {} && v.previous <= issues && v.seenRevision == v.revision then v.stalled + 1 else 0
  {
  }

  // ---------------------------------------------------------------- the prompt

  // Older evidence is tried beside everything newer that fitted, and an item that does not fit does not
  // keep the still older ones out.
  lemma OlderIsTried<T>(older: T, items: seq<T>, cost: seq<T> -> int, cap: int)
    ensures var newer := Greedy(items, cost, cap);
            Greedy([older] + items, cost, cap) == if cost([older] + newer) <= cap then [older] + newer else newer
    ensures Greedy([], cost, cap) == []
  {
    assert ([older] + items)[1..] == items;
  }

  // ---------------------------------------------------------------- the cache

  // After a read its key is the newest with its new value, and the other keys keep their order; when there
  // are more than twelve, the one read longest ago goes.
  lemma ReadCached(log: seq<Entry>, e: Entry)
    ensures var before, after := Cached(log), Cached(log + [e]);
            && after != [] && after[|after| - 1] == e
            && after == Last(Without(before, e.key) + [e], 12)
            && |after| <= 12
  {
    assert (log + [e])[..|log|] == log;
  }
}
