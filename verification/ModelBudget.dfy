/**
 Model-call accounting (backend/src/extrio/model_budget.py) and its survival across crashes
 (backend/src/extrio/adaptive_compile.py, the session constructor and the call sequence of `run`).
 */
module ModelBudget {
  import opened Prelude

  datatype Limits = Limits(context: nat, maxInput: nat, maxOutput: nat, reasoning: nat)

  datatype Code = TimeExceeded | TokensExceeded | CallsExceeded | OutputExceeded | ContextInsufficient

  datatype Budget = Budget(maxCalls: nat, maxInput: nat, maxOutput: nat, calls: nat, inputUsed: int, outputUsed: int)

  const MAX_CALLS := 16
  const MAX_INPUT := 120000
  const MAX_OUTPUT := 16000

  // A twentieth of the context, rounded up, and at least 256 tokens stay free.
  function Margin(limits: Limits): nat {
    var share := (limits.context + 19) / 20;
    if share < 256 then 256 else share
  }

  function InputBudget(limits: Limits, output: int): int {
    Max(0, Min(limits.maxInput, limits.context - output - limits.reasoning) - Margin(limits))
  }

  // Why a reservation is refused, in the order the code checks.
  function Refusal(limits: Limits, b: Budget, expired: bool, input: int, output: int): Option<Code> {
    if expired then Some(TimeExceeded)
    else if b.inputUsed > b.maxInput || b.outputUsed > b.maxOutput then Some(TokensExceeded)
    else if b.calls >= b.maxCalls then Some(CallsExceeded)
    else if output < 1 || output > limits.maxOutput then Some(OutputExceeded)
    else if input < 0 || input > InputBudget(limits, output) then Some(ContextInsufficient)
    else if b.inputUsed + input > b.maxInput || b.outputUsed + output > b.maxOutput then Some(TokensExceeded)
    else None
  }

  function Charge(b: Budget, input: int, output: int): Budget {
    b.(calls := b.calls + 1, inputUsed := b.inputUsed + input, outputUsed := b.outputUsed + output)
  }

  // Metered usage replaces the estimate; missing or negative usage leaves it in place.
  function Corrected(used: int, reserved: int, metered: Option<int>): int {
    if metered.Some? && metered.value >= 0 then used + metered.value - reserved else used
  }

  function Adjust(b: Budget, input: int, output: int, meteredInput: Option<int>, meteredOutput: Option<int>): Budget {
    b.(inputUsed := Corrected(b.inputUsed, input, meteredInput), outputUsed := Corrected(b.outputUsed, output, meteredOutput))
  }

  // An admitted reservation leaves room for its output, the reasoning allowance and the margin, and
  // the charged totals stay within the caps of the task.
  lemma AdmissionFits(limits: Limits, b: Budget, expired: bool, input: int, output: int)
    requires Refusal(limits, b, expired, input, output).None?
    ensures input > 0 ==> input + output + limits.reasoning + Margin(limits) <= limits.context && input + Margin(limits) <= limits.maxInput
    ensures var c := Charge(b, input, output);
            c.calls <= c.maxCalls && c.inputUsed <= c.maxInput && c.outputUsed <= c.maxOutput && 1 <= output <= limits.maxOutput
  {
  }

  // ---------------------------------------------------------------- the budget object

  class Reservation {
    const input: int
    const output: int
    var settled: bool

    constructor (input: int, output: int)
      ensures this.input == input && this.output == output && !settled
    {
      this.input, this.output, settled := input, output, false;
    }
  }

  class TaskBudget {
    const limits: Limits
    var maxCalls: nat
    var calls: nat
    var inputUsed: int
    var outputUsed: int
    var stop: Option<Code>

    function Current(): Budget
      reads this
    {
      Budget(maxCalls, MAX_INPUT, MAX_OUTPUT, calls, inputUsed, outputUsed)
    }

    // A new session continues from the summary its predecessor last reported.
    constructor (limits: Limits, prior: Option<Budget>)
      ensures this.limits == limits && Current() == Resume(prior) && stop == None
    {
      this.limits := limits;
      maxCalls, calls, inputUsed, outputUsed, stop := MAX_CALLS, 0, 0, 0, None;
      new;
      if prior.Some? {
        maxCalls := Min(MAX_CALLS, Max(1, prior.value.maxCalls));
        calls := prior.value.calls;
        inputUsed, outputUsed := Max(0, prior.value.inputUsed), Max(0, prior.value.outputUsed);
      }
    }

    method CheckConsumption(expired: bool) returns (refusal: Option<Code>)
      modifies this`stop
      ensures refusal == if expired then Some(TimeExceeded)
                         else if inputUsed > MAX_INPUT || outputUsed > MAX_OUTPUT then Some(TokensExceeded) else None
      ensures stop == if refusal.Some? then refusal else old(stop)
    {
      refusal := if expired then Some(TimeExceeded) else if inputUsed > MAX_INPUT || outputUsed > MAX_OUTPUT then Some(TokensExceeded) else None;
      if refusal.Some? { stop := refusal; }
    }

    method Reserve(expired: bool, input: int, output: int) returns (granted: Result<Reservation, Code>)
      modifies this
      ensures var refusal := old(Refusal(limits, Current(), expired, input, output));
              if refusal.Some? then granted == Err(refusal.value) && stop == refusal && Current() == old(Current())
              else && granted.Ok? && fresh(granted.value) && granted.value.input == input && granted.value.output == output
                   && !granted.value.settled && stop == old(stop) && Current() == Charge(old(Current()), input, output)
    {
      var over := CheckConsumption(expired);
      if over.Some? { return Err(over.value); }
      if calls >= maxCalls { over := Some(CallsExceeded); }
      else if output < 1 || output > limits.maxOutput { over := Some(OutputExceeded); }
      else if input < 0 || input > InputBudget(limits, output) { over := Some(ContextInsufficient); }
      else if inputUsed + input > MAX_INPUT || outputUsed + output > MAX_OUTPUT { over := Some(TokensExceeded); }
      if over.Some? {
        stop := over;
        return Err(over.value);
      }
      calls, inputUsed, outputUsed := calls + 1, inputUsed + input, outputUsed + output;
      var reservation := new Reservation(input, output);
      granted := Ok(reservation);
    }

    // The gateway settles with the metered usage and the session settles again without any: only
    // the first of all settlements of one reservation counts.
    method Settle(reservation: Reservation, input: Option<int>, output: Option<int>)
      modifies this`inputUsed, this`outputUsed, reservation`settled
      ensures reservation.settled
      ensures Current() == if old(reservation.settled) then old(Current())
                           else Adjust(old(Current()), reservation.input, reservation.output, input, output)
    {
      if reservation.settled { return; }
      reservation.settled := true;
      if input.Some? && input.value >= 0 { inputUsed := inputUsed + input.value - reservation.input; }
      if output.Some? && output.value >= 0 { outputUsed := outputUsed + output.value - reservation.output; }
    }

    // One model call: settled by the gateway, then by the session.
    method SettleTwice(reservation: Reservation, input: Option<int>, output: Option<int>)
      requires !reservation.settled
      modifies this`inputUsed, this`outputUsed, reservation`settled
      ensures reservation.settled && Current() == Adjust(old(Current()), reservation.input, reservation.output, input, output)
    {
      Settle(reservation, input, output);
      Settle(reservation, None, None);
    }
  }

  function Resume(prior: Option<Budget>): Budget {
    match prior
    case None => Budget(MAX_CALLS, MAX_INPUT, MAX_OUTPUT, 0, 0, 0)
    case Some(p) => Budget(Min(MAX_CALLS, Max(1, p.maxCalls)), MAX_INPUT, MAX_OUTPUT, p.calls, Max(0, p.inputUsed), Max(0, p.outputUsed))
  }

  // ---------------------------------------------------------------- chains of sessions

  datatype Phase = Idle | Reserved(input: int, output: int) | Published(input: int, output: int) | Calling(input: int, output: int)

  // `stored` is the summary the last report persisted; `issued` counts the calls the provider saw.
  datatype Chain = Chain(budget: Budget, phase: Phase, stored: Option<Budget>, issued: nat)

  datatype Event =
    | Reserve(expired: bool, input: int, output: int)
    | Publish
    | Issue
    | Settle(meteredInput: Option<int>, meteredOutput: Option<int>)
    | Report
    | CrashAndResume

  // `reports` says whether the session was given a report callback.
  function Step(limits: Limits, reports: bool, c: Chain, e: Event): Chain {
    match e
    case Reserve(expired, input, output) =>
      if c.phase.Idle? && Refusal(limits, c.budget, expired, input, output).None?
      then c.(budget := Charge(c.budget, input, output), phase := Reserved(input, output)) else c
    case Publish =>
      if c.phase.Reserved? then c.(phase := Published(c.phase.input, c.phase.output), stored := if reports then Some(c.budget) else c.stored) else c
    case Issue => if c.phase.Published? then c.(phase := Calling(c.phase.input, c.phase.output), issued := c.issued + 1) else c
    case Settle(input, output) =>
      if c.phase.Calling? then c.(phase := Idle, budget := Adjust(c.budget, c.phase.input, c.phase.output, input, output)) else c
    case Report => if c.phase.Idle? && reports then c.(stored := Some(c.budget)) else c
    case CrashAndResume => Chain(Resume(c.stored), Idle, c.stored, c.issued)
  }

  function Exec(limits: Limits, reports: bool, es: seq<Event>): Chain {
    if es == [] then Chain(Resume(None), Idle, None, 0)
    else Step(limits, reports, Exec(limits, reports, es[..|es| - 1]), es[|es| - 1])
  }

  function StoredCalls(c: Chain): nat {
    if c.stored.Some? then c.stored.value.calls else 0
  }

  predicate WellCounted(limits: Limits, c: Chain) {
    && 1 <= c.budget.maxCalls <= MAX_CALLS && c.budget.maxInput == MAX_INPUT && c.budget.maxOutput == MAX_OUTPUT
    && c.budget.calls <= c.budget.maxCalls
    && (c.stored.Some? ==> c.stored.value.maxCalls == c.budget.maxCalls && c.stored.value.calls <= c.stored.value.maxCalls
                           && c.stored.value.inputUsed >= 0 && c.stored.value.outputUsed >= 0)
    && (c.stored.None? ==> c.budget.maxCalls == MAX_CALLS)
    && c.issued + (if c.phase.Published? then 1 else 0) <= StoredCalls(c)
    && StoredCalls(c) + (if c.phase.Reserved? then 1 else 0) <= c.budget.calls
    && (c.phase.Idle? ==> c.budget.inputUsed >= 0 && c.budget.outputUsed >= 0)
    && (!c.phase.Idle? ==>
          && c.budget.inputUsed >= c.phase.input >= 0 && c.budget.outputUsed >= c.phase.output >= 1
          && c.budget.inputUsed <= MAX_INPUT && c.budget.outputUsed <= MAX_OUTPUT
          && (c.phase.input > 0 ==> c.phase.input + c.phase.output + limits.reasoning + Margin(limits) <= limits.context))
  }

  // Each call is counted in a persisted summary before the provider sees it.  So over any chain of
  // crashes and resumed sessions no more than the allowed calls are issued, and at every issue the
  // charged tokens are within the caps and the request fits the context.
  lemma {:induction false} CallsBounded(limits: Limits, es: seq<Event>)
    ensures var c := Exec(limits, true, es);
            && c.issued <= StoredCalls(c) <= c.budget.calls <= c.budget.maxCalls <= MAX_CALLS
            && WellCounted(limits, c)
  {
    hide Margin;
    if es != [] {
      var before, e := Exec(limits, true, es[..|es| - 1]), es[|es| - 1];
      CallsBounded(limits, es[..|es| - 1]);
      if e.Reserve? && before.phase.Idle? && Refusal(limits, before.budget, e.expired, e.input, e.output).None? {
        AdmissionFits(limits, before.budget, e.expired, e.input, e.output);
      }
    }
  }

  // Why the bound needs the publish step: a session object without a report callback persists nothing,
  // so sessions that crash during their first call would issue any number of calls.
  function CrashLoop(n: nat): seq<Event> {
    if n == 0 then [] else CrashLoop(n - 1) + [Reserve(false, 0, 1), Publish, Issue, CrashAndResume]
  }

  function FirstCalls(n: nat): Chain {
    Chain(Resume(None), Idle, None, n)
  }

  lemma {:induction false} ExecAppend(limits: Limits, reports: bool, es: seq<Event>, more: seq<Event>)
    ensures Exec(limits, reports, es + more) == Continue(limits, reports, Exec(limits, reports, es), more)
  {
    hide Step;
    if more == [] {
      assert es + more == es;
    } else {
      assert (es + more)[..|es + more| - 1] == es + more[..|more| - 1];
      ExecAppend(limits, reports, es, more[..|more| - 1]);
    }
  }

  function Continue(limits: Limits, reports: bool, c: Chain, es: seq<Event>): Chain {
    if es == [] then c else Step(limits, reports, Continue(limits, reports, c, es[..|es| - 1]), es[|es| - 1])
  }

  lemma FirstCallAdmitted(limits: Limits, n: nat)
    requires limits.maxOutput > 0
    ensures Step(limits, false, FirstCalls(n), Reserve(false, 0, 1)) == Chain(Charge(Resume(None), 0, 1), Reserved(0, 1), None, n)
  {
  }

  lemma CrashingCall(limits: Limits, n: nat)
    requires limits.maxOutput > 0
    ensures Continue(limits, false, FirstCalls(n), [Reserve(false, 0, 1), Publish, Issue, CrashAndResume]) == FirstCalls(n + 1)
  {
    hide Refusal, Charge, Resume;
    FirstCallAdmitted(limits, n);
    var a: Event, b: Event, d: Event, e: Event := Reserve(false, 0, 1), Publish, Issue, CrashAndResume;
    var c := FirstCalls(n);
    assert [a, b, d, e][..3] == [a, b, d] && [a, b, d][..2] == [a, b] && [a, b][..1] == [a] && [a][..0] == [];
    assert Continue(limits, false, c, [a]) == Step(limits, false, c, a);
    assert Continue(limits, false, c, [a, b]) == Step(limits, false, Step(limits, false, c, a), b);
    assert Continue(limits, false, c, [a, b, d]).issued == n + 1 && Continue(limits, false, c, [a, b, d]).stored == None;
  }

  lemma {:induction false} UnreportedCallsUnbounded(limits: Limits, n: nat)
    requires limits.maxOutput > 0
    ensures Exec(limits, false, CrashLoop(n)) == FirstCalls(n) && FirstCalls(n).issued == n
  {
    hide Step, Continue;
    if n > 0 {
      UnreportedCallsUnbounded(limits, n - 1);
      CrashingCall(limits, n - 1);
      ExecAppend(limits, false, CrashLoop(n - 1), [Reserve(false, 0, 1), Publish, Issue, CrashAndResume]);
    }
  }
}
