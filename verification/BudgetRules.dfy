/**
 What the budget of a task admits, charges and carries over to the next session, number by number.
 */
module BudgetRules {
  import opened Prelude
  import opened ModelBudget

  // The margin is the least one that is a twentieth of the context and 256 tokens at least.
  lemma MarginMeans(limits: Limits)
    ensures Margin(limits) >= 256 && 20 * Margin(limits) >= limits.context
    ensures forall m: nat :: m >= 256 && 20 * m >= limits.context ==> Margin(limits) <= m
  {
  }

  // What an input may take beside its output, the reasoning and the margin.
  predicate InputFits(limits: Limits, input: int, output: int) {
    0 <= input && (input == 0 || (input + Margin(limits) <= limits.maxInput && input + output + limits.reasoning + Margin(limits) <= limits.context))
  }

  predicate Unspent(b: Budget, expired: bool) {
    !expired && b.inputUsed <= b.maxInput && b.outputUsed <= b.maxOutput
  }

  // A call is admitted exactly within the time, the totals and the calls of the task, with an output and an
  // input the model has room for; each refusal gives the first reason.
  lemma AdmissionMeans(limits: Limits, b: Budget, expired: bool, input: int, output: int)
    ensures var r := Refusal(limits, b, expired, input, output);
            && (r.None? <==>
                  && Unspent(b, expired) && b.calls < b.maxCalls && 1 <= output <= limits.maxOutput && InputFits(limits, input, output)
                  && b.inputUsed + input <= b.maxInput && b.outputUsed + output <= b.maxOutput)
            && (expired ==> r == Some(TimeExceeded))
            && (!expired && !Unspent(b, expired) ==> r == Some(TokensExceeded))
            && (Unspent(b, expired) && b.calls >= b.maxCalls ==> r == Some(CallsExceeded))
            && (Unspent(b, expired) && b.calls < b.maxCalls && !(1 <= output <= limits.maxOutput) ==> r == Some(OutputExceeded))
            && (Unspent(b, expired) && b.calls < b.maxCalls && 1 <= output <= limits.maxOutput && !InputFits(limits, input, output) ==>
                  r == Some(ContextInsufficient))
            && (r.Some? && Unspent(b, expired) && b.calls < b.maxCalls && 1 <= output <= limits.maxOutput && InputFits(limits, input, output) ==>
                  r == Some(TokensExceeded))
  {
    hide Margin;
  }

  // A call is charged with its estimate and, once metered, with what it really used; what was not metered
  // keeps its estimate.
  lemma ChargeMeans(b: Budget, input: int, output: int, meteredInput: Option<int>, meteredOutput: Option<int>)
    ensures var after := Adjust(Charge(b, input, output), input, output, meteredInput, meteredOutput);
            && after.calls == b.calls + 1 && after.maxCalls == b.maxCalls && after.maxInput == b.maxInput && after.maxOutput == b.maxOutput
            && after.inputUsed == b.inputUsed + (if meteredInput.Some? && meteredInput.value >= 0 then meteredInput.value else input)
            && after.outputUsed == b.outputUsed + (if meteredOutput.Some? && meteredOutput.value >= 0 then meteredOutput.value else output)
  {
  }

  // A session that continues another starts with its calls and tokens and with no more calls than it had;
  // a first one starts with nothing used and sixteen calls, 120000 and 16000 tokens to use.
  lemma ResumeMeans(prior: Option<Budget>)
    ensures var b := Resume(prior);
            && b.maxInput == 120000 && b.maxOutput == 16000 && 1 <= b.maxCalls <= 16
            && (prior.None? ==> b.maxCalls == 16 && b.calls == 0 && b.inputUsed == 0 && b.outputUsed == 0)
            && (prior.Some? ==> b.calls == prior.value.calls && (1 <= prior.value.maxCalls <= 16 ==> b.maxCalls == prior.value.maxCalls))
            && (prior.Some? && prior.value.inputUsed >= 0 ==> b.inputUsed == prior.value.inputUsed)
            && (prior.Some? && prior.value.outputUsed >= 0 ==> b.outputUsed == prior.value.outputUsed)
            && b.inputUsed >= 0 && b.outputUsed >= 0
  {
  }

  // ---------------------------------------------------------------- one call of a session

  // A call is sent only once it was reserved and then reported; the report holds the budget with that call in
  // it; only an admitted reservation charges, only a settlement corrects, and a session that takes over
  // starts from the last report.
  lemma StepsMean(limits: Limits, c: Chain, e: Event)
    ensures var t := Step(limits, true, c, e);
            && (t.issued != c.issued ==> e.Issue? && c.phase.Published? && t.issued == c.issued + 1)
            && (t.stored != c.stored ==> t.stored == Some(c.budget) && ((e.Publish? && c.phase.Reserved?) || (e.Report? && c.phase.Idle?)))
            && (e.Publish? && c.phase.Reserved? ==> t.stored == Some(c.budget) && t.phase == Published(c.phase.input, c.phase.output))
            && (e.Report? && c.phase.Idle? ==> t.stored == Some(c.budget))
            && (e.Issue? && c.phase.Published? ==> t.issued == c.issued + 1 && t.phase == Calling(c.phase.input, c.phase.output))
            && (e.Reserve? && c.phase.Idle? && Refusal(limits, c.budget, e.expired, e.input, e.output).None? ==>
                  t.budget == Charge(c.budget, e.input, e.output) && t.phase == Reserved(e.input, e.output))
            && (e.Settle? && c.phase.Calling? ==>
                  t.budget == Adjust(c.budget, c.phase.input, c.phase.output, e.meteredInput, e.meteredOutput) && t.phase == Idle)
            && (e.CrashAndResume? ==> t.budget == Resume(c.stored) && t.phase == Idle)
            && (t.budget != c.budget ==> (e.Reserve? && t.phase.Reserved?) || (e.Settle? && c.phase.Calling?) || e.CrashAndResume?)
    ensures Step(limits, false, c, e).stored == c.stored
  {
    hide Refusal, Charge, Adjust, Resume;
  }

  // So a crash after a call was sent never gives its call back.
  lemma CrashKeepsCalls(limits: Limits, es: seq<Event>)
    ensures var c := Exec(limits, true, es); Step(limits, true, c, CrashAndResume).budget.calls >= c.issued
  {
    hide Refusal, Charge, Adjust;
    CallsBounded(limits, es);
    var c := Exec(limits, true, es);
    if c.stored.Some? { ResumeMeans(c.stored); }
  }
}
