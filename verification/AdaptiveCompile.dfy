/**
 The adaptive compile session (backend/src/extrio/adaptive_compile.py): the bounded agent loop, the
 validation-stall counter that the retry loop of backend/src/extrio/explorer.py relies on, the
 evidence cache and the greedy prompt envelope.
 */
module AdaptiveCompile {
  import opened Prelude

  // ---------------------------------------------------------------- the agent loop

  datatype Signature = Proposal(purpose: string, digest: string) | ReadOf(text: string)

  // What one turn of the loop meets.  `expired` and `late` are the clock before and after the call, `drained`
  // and `overspent` the metered tokens, `fits` says whether envelope and reservation are admitted, and a
  // read reports the first signature it added, if any, and the others it added.
  datatype Answer = TooLong | CallFailed | Propose(digest: string) | Read(first: Option<string>, others: set<string>) | Malformed

  datatype Turn = Turn(expired: bool, drained: bool, fits: bool, late: bool, overspent: bool, answer: Answer)

  datatype StopCode = OutOfCalls | OutOfTime | OutOfTokens | DiscoveryBudget | NoProgress

  datatype Outcome = Rule(digest: string) | Failed | Stopped(code: StopCode)

  datatype Session = Session(maxCalls: nat, calls: nat, stalled: nat, seen: set<Signature>)

  function Held(maxCalls: nat, discover: bool): nat {
    if discover then Min(4, maxCalls / 2) else 0
  }

  function PhaseCallsLeft(s: Session, discover: bool): nat {
    Max(0, s.maxCalls - s.calls - Held(s.maxCalls, discover))
  }

  function Progressed(s: Session, signature: Option<Signature>): Session {
    if signature.Some? && signature.value !in s.seen then s.(seen := s.seen + {signature.value}, stalled := 0)
    else s.(stalled := s.stalled + 1)
  }

  function Noted(s: Session, a: Answer): Session {
    if a.Read? && a.first.Some? then s.(seen := s.seen + set text | text in a.others - {a.first.value} :: ReadOf(text)) else s
  }

  function SignatureOf(purpose: string, a: Answer): Option<Signature> {
    match a
    case Propose(digest) => Some(Proposal(purpose, digest))
    case Read(Some(first), _) => Some(ReadOf(first))
    case _ => None
  }

  // Why a turn ends the run before it calls the model.
  function Barred(s: Session, discover: bool, t: Turn): Option<StopCode> {
    if t.expired then Some(OutOfTime)
    else if t.drained then Some(OutOfTokens)
    else if s.calls >= s.maxCalls then Some(OutOfCalls)
    else if PhaseCallsLeft(s, discover) == 0 then Some(DiscoveryBudget)
    else if !t.fits then Some(OutOfTokens)
    else None
  }

  // The session after a turn that called the model, and the outcome if the run ends with it.
  function Answered(s: Session, purpose: string, t: Turn): (Session, Option<Outcome>) {
    var called := s.(calls := s.calls + 1);
    if t.answer.TooLong? then (called, None)
    else if t.late && !t.answer.CallFailed? then (called, Some(Stopped(OutOfTime)))
    else if t.overspent && !t.answer.CallFailed? then (called, Some(Stopped(OutOfTokens)))
    else
      var after := Progressed(Noted(called, t.answer), SignatureOf(purpose, t.answer));
      (after,
       if after.stalled >= 3 then Some(Stopped(NoProgress))
       else if t.answer.CallFailed? then Some(Failed)
       else if t.answer.Propose? then Some(Rule(t.answer.digest))
       else None)
  }

  // The whole run; turns are numbered by the calls made so far.
  function RunFrom(s: Session, purpose: string, turns: nat -> Turn): (Session, Outcome)
    decreases s.maxCalls - s.calls
  {
    var discover, t := purpose == "discover", turns(s.calls);
    var barred := Barred(s, discover, t);
    if barred.Some? then (s, Stopped(barred.value))
    else
      var (after, outcome) := Answered(s, purpose, t);
      if outcome.Some? then (after, outcome.value) else RunFrom(after, purpose, turns)
  }

  class Agent {
    const maxCalls: nat
    var calls: nat
    var stalled: nat
    var seen: set<Signature>

    constructor (maxCalls: nat, calls: nat)
      ensures Current() == Session(maxCalls, calls, 0, {})
    {
      this.maxCalls, this.calls, stalled, seen := maxCalls, calls, 0, {};
    }

    function Current(): Session
      reads this
    {
      Session(maxCalls, calls, stalled, seen)
    }

    method Progress(signature: Option<Signature>) returns (stuck: bool)
      modifies this`stalled, this`seen
      ensures Current() == Progressed(old(Current()), signature) && stuck == (stalled >= 3)
    {
      if signature.Some? && signature.value !in seen {
        seen := seen + {signature.value};
        stalled := 0;
      } else {
        stalled := stalled + 1;
      }
      stuck := stalled >= 3;
    }

    // The loop terminates because every turn that does not end it costs one call.
    method Run(purpose: string, turns: nat -> Turn) returns (outcome: Outcome)
      modifies this
      ensures (Current(), outcome) == RunFrom(old(Current()), purpose, turns)
    {
      ghost var start := Current();
      while true
        invariant RunFrom(Current(), purpose, turns) == RunFrom(start, purpose, turns)
        decreases maxCalls - calls
      {
        var t := turns(calls);
        if t.expired { return Stopped(OutOfTime); }
        if t.drained { return Stopped(OutOfTokens); }
        if calls >= maxCalls { return Stopped(OutOfCalls); }
        if PhaseCallsLeft(Current(), purpose == "discover") == 0 { return Stopped(DiscoveryBudget); }
        if !t.fits { return Stopped(OutOfTokens); }
        calls := calls + 1;
        if t.answer.TooLong? { continue; }
        if t.answer.CallFailed? {
          var stuck := Progress(None);
          return if stuck then Stopped(NoProgress) else Failed;
        }
        if t.late { return Stopped(OutOfTime); }
        if t.overspent { return Stopped(OutOfTokens); }
        if t.answer.Propose? {
          var stuck := Progress(Some(Proposal(purpose, t.answer.digest)));
          return if stuck then Stopped(NoProgress) else Rule(t.answer.digest);
        }
        var signature: Option<Signature> := None;
        if t.answer.Read? && t.answer.first.Some? {
          seen := seen + set text | text in t.answer.others - {t.answer.first.value} :: ReadOf(text);
          signature := Some(ReadOf(t.answer.first.value));
        }
        var stuck := Progress(signature);
        if stuck { return Stopped(NoProgress); }
      }
    }
  }

  // A run never exceeds the calls it is allowed; a discovery run stops early enough to leave
  // compilation its share, unless the share was gone before it began.
  lemma {:induction false} RunWithinBudget(s: Session, purpose: string, turns: nat -> Turn)
    ensures var t := RunFrom(s, purpose, turns).0;
            && t.maxCalls == s.maxCalls && s.calls <= t.calls
            && t.calls <= Max(s.calls, s.maxCalls - Held(s.maxCalls, purpose == "discover"))
    decreases s.maxCalls - s.calls
  {
    var t := turns(s.calls);
    if Barred(s, purpose == "discover", t).None? {
      var (after, outcome) := Answered(s, purpose, t);
      if outcome.None? { RunWithinBudget(after, purpose, turns); }
    }
  }

  function RunAll(s: Session, purpose: string, runs: seq<nat -> Turn>): Session {
    if runs == [] then s else RunFrom(RunAll(s, purpose, runs[..|runs| - 1]), purpose, runs[|runs| - 1]).0
  }

  // However often discovery is retried, compilation keeps at least min(4, maxCalls / 2) calls.
  lemma {:induction false} DiscoveryLeavesCalls(s: Session, runs: seq<nat -> Turn>)
    requires s.calls <= s.maxCalls - Min(4, s.maxCalls / 2)
    ensures var t := RunAll(s, "discover", runs); t.maxCalls == s.maxCalls && s.calls <= t.calls && t.maxCalls - t.calls >= Min(4, t.maxCalls / 2)
  {
    if runs != [] {
      DiscoveryLeavesCalls(s, runs[..|runs| - 1]);
      RunWithinBudget(RunAll(s, "discover", runs[..|runs| - 1]), "discover", runs[|runs| - 1]);
    }
  }

  // Three answers in a row that add nothing end the run, and nothing else is reported that way.
  lemma {:induction false} NoProgressMeansThree(s: Session, purpose: string, turns: nat -> Turn)
    requires s.stalled < 3
    ensures var (t, outcome) := RunFrom(s, purpose, turns); (outcome == Stopped(NoProgress) <==> t.stalled == 3) && t.stalled <= 3
    ensures RunFrom(s, purpose, turns).0.seen >= s.seen
    decreases s.maxCalls - s.calls
  {
    var t := turns(s.calls);
    if Barred(s, purpose == "discover", t).None? {
      var (after, outcome) := Answered(s, purpose, t);
      if outcome.None? { NoProgressMeansThree(after, purpose, turns); }
    }
  }

  // ---------------------------------------------------------------- validation stalls

  type Issue(==,!new)

  // The issues of the last validation, the evidence revision it saw and how often it was no better
  // than the one before it.
  datatype Validation = Validation(previous: set<Issue>, seenRevision: int, revision: int, stalled: nat)

  function Validate(v: Validation, issues: set<Issue>): Validation {
    var again := issues != {} && v.previous != {} && v.previous <= issues && v.seenRevision == v.revision;
    v.(previous := issues, seenRevision := v.revision, stalled := if again then v.stalled + 1 else 0)
  }

  // One pass of the compile loop of the explorer: the calls it made, whether it read new evidence,
  // whether it raised its issues instead of returning a candidate, the issues (none when the candidate
  // is accepted), and whether time or tokens turn out to be used up.
  datatype Pass = Pass(calls: nat, learned: bool, raised: bool, issues: set<Issue>, exhausted: bool)

  // A raised pass always reports the error it raised.
  ghost predicate Reporting(passes: nat -> Pass) {
    forall n: nat :: passes(n).raised ==> passes(n).issues != {}
  }

  datatype Ending = Accepted | CallsSpent | Exhausted | Stuck

  // A pass without a model call is decided by the repair specification and the samples alone, so
  // all such passes find the same issues and read nothing.
  ghost predicate Repeats(passes: nat -> Pass, fixed: set<Issue>) {
    forall n :: passes(n).calls == 0 ==> passes(n).issues == fixed && !passes(n).learned
  }

  // The state after the first n passes.
  function After(start: Validation, passes: nat -> Pass, n: nat): Validation {
    if n == 0 then start
    else
      var v := After(start, passes, n - 1);
      Validate(if passes(n - 1).learned then v.(revision := v.revision + 1) else v, passes(n - 1).issues)
  }

  function Slack(v: Validation, fixed: set<Issue>): nat {
    if fixed != {} && v.previous == fixed && v.seenRevision == v.revision && v.stalled <= 3 then 3 - v.stalled else 4
  }

  // The calls spent by the first n passes and before them.
  function CallsAfter(calls: nat, passes: nat -> Pass, n: nat): nat {
    if n == 0 then calls else CallsAfter(calls, passes, n - 1) + passes(n - 1).calls
  }

  // The retry loop terminates: every pass either costs a call, or repeats the issues of the last
  // call-free pass and moves the stall counter towards its limit.
  method CompileLoop(maxCalls: nat, calls: nat, v: Validation, passes: nat -> Pass, ghost fixed: set<Issue>) returns (ending: Ending, spent: nat, rounds: nat)
    requires Repeats(passes, fixed) && Reporting(passes) && calls <= maxCalls
    ensures calls <= spent <= maxCalls && spent == CallsAfter(calls, passes, rounds)
    ensures ending == CallsSpent ==> spent + passes(rounds).calls > maxCalls || (rounds > 0 && spent == maxCalls)
    ensures ending == Accepted ==> rounds > 0 && passes(rounds - 1).issues == {} && !passes(rounds - 1).exhausted
    ensures ending == Exhausted ==> rounds > 0 && passes(rounds - 1).exhausted && (passes(rounds - 1).raised ==> After(v, passes, rounds).stalled < 3)
    ensures forall n :: 0 <= n < rounds - 1 ==> !passes(n).exhausted
    ensures forall n :: 0 <= n < rounds - 1 ==> passes(n).issues != {}
    ensures rounds <= 4 + 5 * (spent - calls + 1)
    ensures ending == Stuck ==> rounds > 0 && After(v, passes, rounds).stalled >= 3 && (passes(rounds - 1).exhausted ==> passes(rounds - 1).raised)
    ensures forall n :: 0 < n < rounds ==> CallsAfter(calls, passes, n) < maxCalls
    ensures forall n :: 0 < n < rounds ==> After(v, passes, n).stalled < 3
  {
    var w := v;
    spent, rounds := calls, 0;
    while true
      invariant calls <= spent <= maxCalls && spent == CallsAfter(calls, passes, rounds)
      invariant forall n :: 0 < n <= rounds ==> CallsAfter(calls, passes, n) < maxCalls
      invariant forall n :: 0 <= n < rounds ==> passes(n).issues != {} && !passes(n).exhausted
      invariant rounds + Slack(w, fixed) <= 4 + 5 * (spent - calls)
      invariant w == After(v, passes, rounds)
      invariant forall n :: 0 < n <= rounds ==> After(v, passes, n).stalled < 3
      decreases maxCalls - spent, Slack(w, fixed)
    {
      var pass := passes(rounds);
      if spent + pass.calls > maxCalls { return CallsSpent, spent, rounds; }
      spent := spent + pass.calls;
      rounds := rounds + 1;
      if pass.learned { w := w.(revision := w.revision + 1); }
      if pass.exhausted && !pass.raised { return Exhausted, spent, rounds; }
      if pass.issues == {} { return Accepted, spent, rounds; }
      w := Validate(w, pass.issues);
      if w.stalled >= 3 { return Stuck, spent, rounds; }
      if pass.exhausted { return Exhausted, spent, rounds; }
      if spent >= maxCalls { return CallsSpent, spent, rounds; }
    }
  }

  // What a session starts with.
  const UNVALIDATED := Validation({}, -1, 0, 0)

  // A pass that reports all issues of the pass before it again, from the same evidence.
  predicate NoBetter(passes: nat -> Pass, i: nat) {
    && i > 0 && passes(i - 1).issues != {} && passes(i - 1).issues <= passes(i).issues && !passes(i).learned
  }

  lemma {:induction false} AfterShape(passes: nat -> Pass, n: nat)
    requires n > 0
    ensures var v := After(UNVALIDATED, passes, n);
            v.previous == passes(n - 1).issues && v.seenRevision == v.revision && v.revision >= 0
  {
    if n > 1 { AfterShape(passes, n - 1); }
  }

  // For any sequence of passes: the stall counter has reached k exactly when each of the last k passes
  // was no better than the one before it.  So a session is stopped as stuck exactly when the last four
  // sets of issues are non-empty and nested upward and came from one revision of the evidence.
  lemma {:induction false} StallMeaning(passes: nat -> Pass, n: nat, k: nat)
    ensures After(UNVALIDATED, passes, n).stalled >= k <==> k <= n && forall i :: n - k <= i < n ==> NoBetter(passes, i)
    decreases n
  {
    if k > 0 && n > 0 {
      StallMeaning(passes, n - 1, k - 1);
      StallStep(passes, n - 1);
    }
  }

  lemma StallStep(passes: nat -> Pass, n: nat)
    ensures After(UNVALIDATED, passes, n + 1).stalled == if NoBetter(passes, n) then After(UNVALIDATED, passes, n).stalled + 1 else 0
  {
    if n > 0 { AfterShape(passes, n); }
  }

  // A session that reports a and b in turn without reading anything new.
  function Turns(a: set<Issue>, b: set<Issue>, calls: nat): nat -> Pass {
    n => Pass(calls, false, false, if n % 2 == 0 then a else b, false)
  }

  predicate StuckAt(a: set<Issue>, b: set<Issue>, calls: nat, n: nat) {
    After(UNVALIDATED, Turns(a, b, calls), n).stalled >= 3
  }

  // Such a session trips the stall counter exactly when the two sets are equal; otherwise it goes on
  // until its calls are spent.  Passes without a call cannot alternate: they all find the same issues.
  lemma AlternatingStallsIffEqual(a: set<Issue>, b: set<Issue>, calls: nat)
    requires a != {} && b != {}
    ensures (exists n: nat :: StuckAt(a, b, calls, n)) <==> a == b
    ensures calls == 0 && (exists fixed :: Repeats(Turns(a, b, calls), fixed)) ==> a == b
  {
    var passes := Turns(a, b, calls);
    if a == b {
      StallMeaning(passes, 4, 3);
      assert StuckAt(a, b, calls, 4);
    } else {
      forall n: nat ensures !StuckAt(a, b, calls, n) {
        StallMeaning(passes, n, 3);
        if n > 3 { assert !NoBetter(passes, n - 1) || !NoBetter(passes, n - 2); }
      }
    }
    if calls == 0 {
      forall fixed | Repeats(passes, fixed) ensures a == b { assert passes(0).issues == fixed && passes(1).issues == fixed; }
    }
  }

  // ---------------------------------------------------------------- the evidence cache

  const CACHE_SIZE := 12

  type Key(==,!new)

  type Fragment(!new)

  datatype Entry = Entry(key: Key, value: Fragment)

  function Without(entries: seq<Entry>, key: Key): seq<Entry> {
    if entries == [] then []
    else Without(entries[..|entries| - 1], key) + if entries[|entries| - 1].key == key then [] else [entries[|entries| - 1]]
  }

  function Last(entries: seq<Entry>, n: nat): seq<Entry> {
    if |entries| <= n then entries else entries[|entries| - n..]
  }

  // Every key read so far, once, ordered by its last read, with its latest value.
  function Latest(log: seq<Entry>): seq<Entry> {
    if log == [] then [] else Without(Latest(log[..|log| - 1]), log[|log| - 1].key) + [log[|log| - 1]]
  }

  // The dictionary of the session after the same reads.
  function Cached(log: seq<Entry>): seq<Entry> {
    if log == [] then []
    else Last(Without(Cached(log[..|log| - 1]), log[|log| - 1].key) + [log[|log| - 1]], CACHE_SIZE)
  }

  class EvidenceCache {
    var entries: seq<Entry>
    ghost var log: seq<Entry>

    ghost predicate Valid()
      reads this
    {
      entries == Cached(log)
    }

    constructor ()
      ensures Valid() && log == []
    {
      entries, log := [], [];
    }

    // A read moves its key to the end and drops the entries read longest ago.
    method Remember(key: Key, value: Fragment)
      requires Valid()
      modifies this
      ensures Valid() && log == old(log) + [Entry(key, value)]
    {
      var kept := Remove(entries, key);
      entries := Trim(kept + [Entry(key, value)]);
      log := log + [Entry(key, value)];
      assert log[..|log| - 1] == old(log);
    }
  }

  method Remove(entries: seq<Entry>, key: Key) returns (kept: seq<Entry>)
    ensures kept == Without(entries, key)
  {
    kept := [];
    for i := 0 to |entries|
      invariant kept == Without(entries[..i], key)
    {
      assert entries[..i + 1][..i] == entries[..i];
      if entries[i].key != key { kept := kept + [entries[i]]; }
    }
    assert entries[..|entries|] == entries;
  }

  method Trim(full: seq<Entry>) returns (entries: seq<Entry>)
    ensures entries == Last(full, CACHE_SIZE)
  {
    entries := full;
    while |entries| > CACHE_SIZE
      invariant Min(|full|, CACHE_SIZE) <= |entries| <= |full| && entries == full[|full| - |entries|..]
    {
      entries := entries[1..];
    }
  }

  // ---------------------------------------------------------------- least recently used

  lemma {:induction false} WithoutSplit(a: seq<Entry>, b: seq<Entry>, key: Key)
    ensures Without(a + b, key) == Without(a, key) + Without(b, key)
  {
    if b == [] {
      assert a + b == a;
    } else {
      assert (a + b)[..|a + b| - 1] == a + b[..|b| - 1];
      WithoutSplit(a, b[..|b| - 1], key);
    }
  }

  // An order on entries that removing entries cannot disturb: the last reads increase.
  predicate Ascending(entries: seq<Entry>, log: seq<Entry>) {
    forall i, j :: 0 <= i < j < |entries| ==> LastRead(log, entries[i].key) < LastRead(log, entries[j].key)
  }

  lemma {:induction false} WithoutMembers(entries: seq<Entry>, key: Key, e: Entry)
    ensures e in Without(entries, key) <==> e in entries && e.key != key
  {
    if entries != [] {
      var front, last := entries[..|entries| - 1], entries[|entries| - 1];
      WithoutMembers(front, key, e);
      assert entries == front + [last];
    }
  }

  lemma {:induction false} WithoutAscending(entries: seq<Entry>, key: Key, log: seq<Entry>)
    requires Ascending(entries, log)
    ensures Ascending(Without(entries, key), log)
  {
    hide LastRead;
    if entries != [] {
      var front, last := entries[..|entries| - 1], entries[|entries| - 1];
      var kept := Without(front, key);
      WithoutAscending(front, key, log);
      forall i | 0 <= i < |kept| ensures LastRead(log, kept[i].key) < LastRead(log, last.key) {
        WithoutMembers(front, key, kept[i]);
        MemberBefore(entries, log, kept[i]);
      }
    }
  }

  lemma MemberBefore(entries: seq<Entry>, log: seq<Entry>, e: Entry)
    requires Ascending(entries, log) && entries != [] && e in entries[..|entries| - 1]
    ensures LastRead(log, e.key) < LastRead(log, entries[|entries| - 1].key)
  {
    hide LastRead;
    var i :| 0 <= i < |entries| - 1 && entries[..|entries| - 1][i] == e;
    assert entries[i] == e;
  }

  lemma {:induction false} WithoutNone(entries: seq<Entry>, key: Key)
    ensures |Without(entries, key)| <= |entries|
    ensures |Without(entries, key)| == |entries| <==> forall i :: 0 <= i < |entries| ==> entries[i].key != key
    ensures |Without(entries, key)| == |entries| ==> Without(entries, key) == entries
  {
    if entries != [] {
      WithoutNone(entries[..|entries| - 1], key);
      assert entries == entries[..|entries| - 1] + [entries[|entries| - 1]];
    }
  }

  // With ascending last reads a key occurs once, so at most one entry goes.
  lemma {:induction false} WithoutOne(entries: seq<Entry>, key: Key, log: seq<Entry>)
    requires Ascending(entries, log)
    ensures |entries| - 1 <= |Without(entries, key)|
  {
    hide LastRead;
    if entries != [] {
      var front, last := entries[..|entries| - 1], entries[|entries| - 1];
      if last.key == key {
        forall i | 0 <= i < |front| ensures front[i].key != key {
          assert LastRead(log, entries[i].key) < LastRead(log, last.key);
        }
        WithoutNone(front, key);
      } else {
        WithoutOne(front, key, log);
      }
    }
  }

  lemma LastOfSuffix(prefix: seq<Entry>, tail: seq<Entry>, n: nat)
    requires |tail| >= n
    ensures Last(prefix + tail, n) == Last(tail, n)
  {
  }

  lemma LastOfWithout(all: seq<Entry>, e: Entry, n: nat, log: seq<Entry>)
    requires Ascending(all, log) && n > 0
    ensures Last(Without(Last(all, n), e.key) + [e], n) == Last(Without(all, e.key) + [e], n)
  {
    hide LastRead, Without;
    if |all| > n {
      var dropped, kept := all[..|all| - n], all[|all| - n..];
      assert all == dropped + kept;
      AscendingParts(dropped, kept, log);
      WithoutSplit(dropped, kept, e.key);
      WithoutOne(kept, e.key, log);
      var gone, left := Without(dropped, e.key), Without(kept, e.key);
      assert Without(all, e.key) + [e] == gone + (left + [e]);
      LastOfSuffix(gone, left + [e], n);
    }
  }

  lemma AscendingParts(a: seq<Entry>, b: seq<Entry>, log: seq<Entry>)
    requires Ascending(a + b, log)
    ensures Ascending(a, log) && Ascending(b, log)
  {
    hide LastRead;
    assert forall i :: 0 <= i < |a| ==> (a + b)[i] == a[i];
    forall i, j | 0 <= i < j < |b| ensures LastRead(log, b[i].key) < LastRead(log, b[j].key) {
      assert (a + b)[|a| + i] == b[i] && (a + b)[|a| + j] == b[j];
    }
  }

  // The position of the last read of a key.
  function LastRead(log: seq<Entry>, key: Key): int {
    if log == [] then -1 else if log[|log| - 1].key == key then |log| - 1 else LastRead(log[..|log| - 1], key)
  }

  lemma {:induction false} LastReadBound(log: seq<Entry>, key: Key)
    ensures -1 <= LastRead(log, key) < |log|
    ensures LastRead(log, key) >= 0 ==> log[LastRead(log, key)].key == key
    ensures LastRead(log, key) < 0 ==> forall i :: 0 <= i < |log| ==> log[i].key != key
  {
    if log != [] { LastReadBound(log[..|log| - 1], key); }
  }

  predicate IsLastRead(log: seq<Entry>, e: Entry) {
    0 <= LastRead(log, e.key) < |log| && e == log[LastRead(log, e.key)]
  }

  // What `Latest` means: exactly the last reads of all keys that were read, in the order of those
  // reads, hence every key once.
  lemma {:induction false} LatestMeaning(log: seq<Entry>)
    ensures forall e :: e in Latest(log) <==> IsLastRead(log, e)
    ensures Ascending(Latest(log), log)
  {
    if log != [] {
      var front, last := log[..|log| - 1], log[|log| - 1];
      var older := Without(Latest(front), last.key);
      LatestMeaning(front);
      forall e: Entry ensures e in Latest(log) <==> IsLastRead(log, e) {
        WithoutMembers(Latest(front), last.key, e);
        LastReadBound(front, e.key);
      }
      WithoutAscending(Latest(front), last.key, front);
      forall i | 0 <= i < |older| ensures LastRead(log, older[i].key) == LastRead(front, older[i].key) < |log| - 1 {
        WithoutMembers(Latest(front), last.key, older[i]);
        LastReadBound(front, older[i].key);
      }
      AscendingAppend(older, last, front, log);
    }
  }

  lemma AscendingAppend(older: seq<Entry>, last: Entry, front: seq<Entry>, log: seq<Entry>)
    requires Ascending(older, front)
    requires forall i :: 0 <= i < |older| ==> LastRead(log, older[i].key) == LastRead(front, older[i].key) < LastRead(log, last.key)
    ensures Ascending(older + [last], log)
  {
    hide LastRead;
  }

  // The cache is exactly the twelve most recently read distinct keys, whatever was read.
  lemma {:induction false} CacheIsLru(log: seq<Entry>)
    ensures Cached(log) == Last(Latest(log), CACHE_SIZE)
  {
    if log != [] {
      var front, last := log[..|log| - 1], log[|log| - 1];
      CacheIsLru(front);
      LatestMeaning(front);
      LastOfWithout(Latest(front), last, CACHE_SIZE, front);
    }
  }

  // ---------------------------------------------------------------- the envelope

  // Newest evidence first; an item that does not fit beside the newer ones is left out.
  function Greedy<T>(items: seq<T>, cost: seq<T> -> int, cap: int): seq<T> {
    if items == [] then []
    else
      var newer := Greedy(items[1..], cost, cap);
      if cost([items[0]] + newer) <= cap then [items[0]] + newer else newer
  }

  method FillEnvelope<T>(items: seq<T>, cost: seq<T> -> int, cap: int) returns (included: seq<T>, omitted: nat)
    ensures included == Greedy(items, cost, cap) && |included| + omitted == |items|
  {
    included, omitted := [], 0;
    var i := |items|;
    while i > 0
      invariant 0 <= i <= |items| && included == Greedy(items[i..], cost, cap) && |included| + omitted == |items| - i
    {
      assert items[i - 1..][1..] == items[i..];
      i := i - 1;
      included := [items[i]] + included;
      if cost(included) > cap {
        included := included[1..];
        omitted := omitted + 1;
      }
    }
    assert items[0..] == items;
  }

  predicate Subsequence<T(==)>(a: seq<T>, b: seq<T>) {
    a == [] || (b != [] && ((a[0] == b[0] && Subsequence(a[1..], b[1..])) || Subsequence(a, b[1..])))
  }

  // The included evidence keeps its order and its total fits; the newest item is included whenever
  // it fits alone, and nothing is left out when every suffix fits.
  lemma {:induction false} EnvelopeIsFaithful<T>(items: seq<T>, cost: seq<T> -> int, cap: int)
    ensures var included := Greedy(items, cost, cap);
            && Subsequence(included, items)
            && (included != [] ==> cost(included) <= cap)
            && (items != [] && cost([items[|items| - 1]]) <= cap ==> included != [] && included[|included| - 1] == items[|items| - 1])
            && ((forall i :: 0 <= i < |items| ==> cost(items[i..]) <= cap) ==> included == items)
  {
    if items != [] {
      EnvelopeIsFaithful(items[1..], cost, cap);
      assert [items[0]] + items[1..] == items;
      assert forall i :: 0 <= i < |items[1..]| ==> items[1..][i..] == items[i + 1..];
      assert items[0..] == items;
      var newer := Greedy(items[1..], cost, cap);
      assert ([items[0]] + newer)[1..] == newer;
      if |items| == 1 { assert items == [items[0]] && newer == []; }
    }
  }
}
