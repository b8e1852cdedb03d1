/**
 The bounded run of the specialist stages, and the language providers' retry loop, which spends from
 the same budget. What a provider answers, and when, is up to the environment.
 */
module AgentRuntime {
  import opened Runs

  datatype Role = SemanticResolver | QueryPlanner | QueryExecutor | ResultVerifier | AnswerComposer

  const STAGES := [SemanticResolver, QueryPlanner, QueryExecutor, ResultVerifier, AnswerComposer]

  datatype StepStatus = InProgress | Succeeded | FailedStep | CancelledStep

  datatype Step = Step(role: Role, sequence: nat, status: StepStatus)

  datatype Limits = Limits(maximumSteps: nat, maximumModelCalls: nat, maximumTotalTokens: nat)

  datatype Failure =
    | RunDeadline | StepBudget | InvalidStage | ModelBudget
    | LanguageCapacity | PromptRefused | ProviderSchema | InputTokenLimit
    | ProviderError(retryable: bool, retryAfter: Option<Delay>) | RetryAfterInvalid | RetryDelayLimit
    | ObservedTokenLimit | ProviderIncomplete

  // A Retry-After header: not a number at all, a number without a finite value, or seconds.
  datatype Delay = NotANumber | NotFinite | Seconds(seconds: real)

  function Sum(values: seq<nat>): nat {
    if values == [] then 0 else Sum(values[..|values| - 1]) + values[|values| - 1]
  }

  class AgentRun {
    const limits: Limits
    const deadline: real
    var steps: seq<Step>
    var modelCalls: nat
    var usageComplete: bool
    var countedInput: nat
    var reserved: nat
    var inputTokens: nat
    var outputTokens: nat
    var lastReservation: nat
    // History: every reservation ever made.
    ghost var reservations: seq<nat>

    ghost predicate Valid()
      reads this
    {
      && |steps| <= limits.maximumSteps && |steps| <= |STAGES|
      && (forall i :: 0 <= i < |steps| ==> steps[i].role == STAGES[i] && steps[i].sequence == i + 1)
      && modelCalls == |reservations| <= limits.maximumModelCalls
      && reserved == Sum(reservations) <= limits.maximumTotalTokens
      && lastReservation == (if reservations == [] then 0 else reservations[|reservations| - 1])
    }

    constructor (limits: Limits, deadline: real)
      ensures Valid() && this.limits == limits && this.deadline == deadline && steps == [] && reservations == []
    {
      this.limits, this.deadline := limits, deadline;
      steps, modelCalls, usageComplete, countedInput, reserved := [], 0, true, 0, 0;
      inputTokens, outputTokens, lastReservation, reservations := 0, 0, 0, [];
    }

    function Remaining(now: real): Option<real> {
      if deadline - now <= 0.0 then None else Some(deadline - now)
    }

    // Stages run once each, in their fixed order.
    method Start(role: Role, now: real) returns (failure: Option<Failure>)
      requires Valid()
      modifies `steps
      ensures Valid()
      ensures failure.Some? ==> steps == old(steps)
      ensures failure.None? <==> old(now < deadline && |steps| < limits.maximumSteps && |steps| < |STAGES| && STAGES[|steps|] == role)
      ensures failure.None? ==> steps == old(steps) + [Step(role, |old(steps)| + 1, InProgress)]
      ensures failure == Some(RunDeadline) <==> deadline <= now
      ensures failure == Some(InvalidStage) ==> StageIndex(role) > |old(steps)|
      ensures failure.Some? ==> failure.value in {RunDeadline, StepBudget, InvalidStage}
    {
      if Remaining(now).None? {
        return Some(RunDeadline);
      }
      StageOrder(role);
      if |steps| >= limits.maximumSteps || exists i :: 0 <= i < |steps| && steps[i].role == role {
        return Some(StepBudget);
      }
      if StageIndex(role) != |steps| {
        return Some(InvalidStage);
      }
      steps := steps + [Step(role, |steps| + 1, InProgress)];
      return None;
    }

    // How the stage that was started last ends.
    method End(status: StepStatus)
      requires Valid() && steps != []
      modifies `steps
      ensures Valid() && |steps| == |old(steps)| && steps[..|steps| - 1] == old(steps)[..|steps| - 1]
      ensures steps[|steps| - 1] == old(steps)[|steps| - 1].(status := status)
    {
      var last := |steps| - 1;
      steps := steps[last := steps[last].(status := status)];
    }

    method Reserve(input: nat, output: nat, now: real) returns (failure: Option<Failure>)
      requires Valid()
      modifies `modelCalls, `usageComplete, `countedInput, `reserved, `lastReservation, `reservations
      ensures Valid()
      ensures failure.None? <==> old(now < deadline && modelCalls < limits.maximumModelCalls
                                     && reserved + input + output <= limits.maximumTotalTokens)
      ensures failure == Some(RunDeadline) <==> deadline <= now
      ensures failure.Some? ==> failure.value in {RunDeadline, ModelBudget}
      ensures reservations == if failure.None? then old(reservations) + [input + output] else old(reservations)
      ensures failure.None? ==> !usageComplete && countedInput == old(countedInput) + input
      ensures failure.Some? ==> usageComplete == old(usageComplete) && countedInput == old(countedInput)
    {
      if Remaining(now).None? {
        return Some(RunDeadline);
      }
      var required := input + output;
      if modelCalls >= limits.maximumModelCalls || reserved + required > limits.maximumTotalTokens {
        return Some(ModelBudget);
      }
      modelCalls := modelCalls + 1;
      usageComplete := false;
      countedInput := countedInput + input;
      reserved := reserved + required;
      lastReservation := required;
      reservations := reservations + [required];
      assert reservations[..|reservations| - 1] == old(reservations);
      return None;
    }
  }

  function StageIndex(role: Role): (k: nat)
    ensures k < |STAGES| && STAGES[k] == role
  {
    match role
    case SemanticResolver => 0
    case QueryPlanner => 1
    case QueryExecutor => 2
    case ResultVerifier => 3
    case AnswerComposer => 4
  }

  lemma StageOrder(role: Role)
    ensures forall k :: 0 <= k < |STAGES| && STAGES[k] == role ==> k == StageIndex(role)
  {
  }

  // ---------------------------------------------------------------- providers

  datatype Spent =
    | ClaudeUsage(input: nat, created: nat, read: nat, output: nat)
    | GeminiUsage(prompt: nat, candidates: nat, thoughts: nat, total: nat, cached: nat, tools: nat)

  // A generated reply. `declined` is Gemini's block of the prompt; `finished` its or Claude's normal stop.
  datatype Body = Body(declined: bool, usage: Option<Spent>, model: Option<string>, finished: bool, proposal: Option<nat>)

  datatype Reply = Generated(body: Body) | Raised(failure: Failure) | Cancelled

  // Input and output tokens, when the usage report is consistent with itself.
  function Consumed(u: Spent): Option<(nat, nat)> {
    match u
    case ClaudeUsage(input, created, read, output) => Some((input + created + read, output))
    case GeminiUsage(prompt, candidates, thoughts, total, cached, tools) =>
      if total != prompt + candidates + thoughts || cached > prompt || tools != 0 then None
      else Some((prompt, candidates + thoughts))
  }

  datatype Configuration = Configuration(
    model: string, maximumInputTokens: nat, maximumOutputTokens: nat, maximumConcurrentRequests: nat)

  predicate ModelMatches(config: Configuration, model: string) {
    model == config.model || config.model + "-" <= model
  }

  // One turn of the loop: its three clock readings and how the request ends.
  datatype Turn = Turn(reserveAt: real, requestAt: real, retryAt: real, reply: Reply)

  datatype Outcome = Proposal(id: nat) | Refused(failure: Failure) | WasCancelled

  function Smaller(a: real, b: real): real { if a < b then a else b }

  // The tokens a consistent usage report adds up to.
  predicate Reports(u: Spent, input: nat, output: nat) {
    match u
    case ClaudeUsage(direct, created, read, out) => input == direct + created + read && output == out
    case GeminiUsage(prompt, candidates, thoughts, total, cached, tools) =>
      input == prompt && output == candidates + thoughts && total == prompt + candidates + thoughts && cached <= prompt && tools == 0
  }

  lemma ConsumedReports(u: Spent)
    ensures Consumed(u).Some? ==> Reports(u, Consumed(u).value.0, Consumed(u).value.1)
    ensures forall input: nat, output: nat :: Reports(u, input, output) ==> Consumed(u) == Some((input, output))
  {
  }

  // A complete reply of the configured model or a dated version of it, with a proposal.
  predicate Complete(model: string, body: Body, input: nat, output: nat) {
    && !body.declined && body.finished && body.proposal.Some?
    && body.usage.Some? && Reports(body.usage.value, input, output)
    && body.model.Some? && (body.model.value == model || (|body.model.value| > |model| && body.model.value[..|model| + 1] == model + "-"))
  }

  class LanguageRuntime {
    const config: Configuration
    var active: nat

    // The reply is complete and its usage fits the limits, given what was reserved for other calls.
    ghost predicate Accepts(run: AgentRun, body: Body, others: int, spent: (nat, nat))
      reads this, run
    {
      && Complete(config.model, body, spent.0, spent.1)
      && spent.0 <= config.maximumInputTokens && spent.1 <= config.maximumOutputTokens
      && others + spent.0 + spent.1 <= run.limits.maximumTotalTokens
    }

    // Nothing stands in the way of a first call, and its reply is one to accept.
    ghost predicate Succeeds(run: AgentRun, refusal: Option<Failure>, counted: Option<int>, turns: seq<Turn>, spent: (nat, nat))
      reads this, run
    {
      && refusal.None? && counted.Some? && 0 <= counted.value <= config.maximumInputTokens
      && turns != [] && turns[0].reserveAt < run.deadline && turns[0].requestAt < run.deadline
      && run.modelCalls < run.limits.maximumModelCalls
      && run.reserved + counted.value + config.maximumOutputTokens <= run.limits.maximumTotalTokens
      && turns[0].reply.Generated? && Accepts(run, turns[0].reply.body, run.reserved, spent)
    }

    constructor (config: Configuration)
      ensures this.config == config && active == 0
    {
      this.config, active := config, 0;
    }

    // `spent` is any pair of token counts; `refusal` is what the checks before the count found; `counted` is the provider's token count.
    method Propose(run: AgentRun, refusal: Option<Failure>, counted: Option<int>, turns: seq<Turn>, ghost spent: (nat, nat)) returns (outcome: Outcome)
      requires run.Valid() && |turns| > run.limits.maximumModelCalls
      modifies this, run
      ensures run.Valid() && active == old(active) && run.steps == old(run.steps)
      ensures old(run.reservations) <= run.reservations
      ensures forall i :: |old(run.reservations)| <= i < |run.reservations| ==>
                counted.Some? && 0 <= counted.value && run.reservations[i] == counted.value + config.maximumOutputTokens
      ensures outcome.Proposal? ==>
        && refusal.None? && old(active) < config.maximumConcurrentRequests
        && counted.Some? && 0 <= counted.value <= config.maximumInputTokens
        && |run.reservations| > |old(run.reservations)|
        && Affordable(run, old(run.inputTokens), old(run.outputTokens))
        && (run.usageComplete <==> run.modelCalls == 1)
      ensures old(active < config.maximumConcurrentRequests && Succeeds(run, refusal, counted, turns, spent)) ==>
                && outcome == Proposal(turns[0].reply.body.proposal.value)
                && run.inputTokens == old(run.inputTokens) + spent.0 && run.outputTokens == old(run.outputTokens) + spent.1
    {
      if active >= config.maximumConcurrentRequests {
        return Refused(LanguageCapacity);
      }
      active := active + 1;
      outcome := Attempt(run, refusal, counted, turns, spent);
      active := active - 1;
    }

    // The observed usage fits the per-call limits, and the earlier reservations plus it fit the total.
    ghost predicate Affordable(run: AgentRun, input': nat, output': nat)
      reads this, run
    {
      && run.reservations != [] && input' <= run.inputTokens && output' <= run.outputTokens
      && run.inputTokens - input' <= config.maximumInputTokens && run.outputTokens - output' <= config.maximumOutputTokens
      && Sum(run.reservations[..|run.reservations| - 1]) + (run.inputTokens - input') + (run.outputTokens - output') <= run.limits.maximumTotalTokens
    }

    method Attempt(run: AgentRun, refusal: Option<Failure>, counted: Option<int>, turns: seq<Turn>, ghost spent: (nat, nat)) returns (outcome: Outcome)
      requires run.Valid() && |turns| > run.limits.maximumModelCalls
      modifies run
      ensures run.Valid() && run.steps == old(run.steps) && old(run.reservations) <= run.reservations
      ensures forall i :: |old(run.reservations)| <= i < |run.reservations| ==>
                counted.Some? && 0 <= counted.value && run.reservations[i] == counted.value + config.maximumOutputTokens
      ensures outcome.Proposal? ==>
        && refusal.None? && counted.Some? && 0 <= counted.value <= config.maximumInputTokens
        && |run.reservations| > |old(run.reservations)|
        && Affordable(run, old(run.inputTokens), old(run.outputTokens))
        && (run.usageComplete <==> run.modelCalls == 1)
      ensures old(Succeeds(run, refusal, counted, turns, spent)) ==>
                && outcome == Proposal(turns[0].reply.body.proposal.value)
                && run.inputTokens == old(run.inputTokens) + spent.0 && run.outputTokens == old(run.outputTokens) + spent.1
    {
      if refusal.Some? {
        return Refused(refusal.value);
      }
      if counted.None? || counted.value < 0 {
        return Refused(ProviderSchema);
      }
      if counted.value > config.maximumInputTokens {
        return Refused(InputTokenLimit);
      }
      var count: nat := counted.value;
      var tries := 0;
      while true
        invariant run.Valid() && run.steps == old(run.steps)
        invariant run.modelCalls == |old(run.reservations)| + tries
        invariant old(run.reservations) <= run.reservations
        invariant forall i :: |old(run.reservations)| <= i < |run.reservations| ==> run.reservations[i] == count + config.maximumOutputTokens
        invariant run.inputTokens == old(run.inputTokens) && run.outputTokens == old(run.outputTokens)
        invariant tries == 0 ==> run.reservations == old(run.reservations)
        invariant tries > 0 ==> !old(Succeeds(run, refusal, counted, turns, spent))
        decreases run.limits.maximumModelCalls - run.modelCalls
      {
        var turn := turns[tries];
        var refused := run.Reserve(count, config.maximumOutputTokens, turn.reserveAt);
        if refused.Some? {
          return Refused(refused.value);
        }
        tries := tries + 1;
        var ended := Receive(run, turn, spent);
        if ended.Some? {
          return ended.value;
        }
      }
    }

    // One generation call and what follows from its reply; None when it is to be repeated.
    method Receive(run: AgentRun, turn: Turn, ghost spent: (nat, nat)) returns (ended: Option<Outcome>)
      requires run.Valid() && run.reservations != []
      modifies run`inputTokens, run`outputTokens, run`usageComplete
      ensures run.Valid()
      ensures ended.None? ==>
        && run.modelCalls < run.limits.maximumModelCalls
        && run.inputTokens == old(run.inputTokens) && run.outputTokens == old(run.outputTokens)
      ensures ended.Some? && ended.value.Proposal? ==>
        && turn.reply.Generated? && run.Remaining(turn.requestAt).Some?
        && Affordable(run, old(run.inputTokens), old(run.outputTokens)) && (run.usageComplete <==> run.modelCalls == 1)
      ensures turn.requestAt < run.deadline && turn.reply.Generated?
              && old(Accepts(run, turn.reply.body, run.reserved - run.lastReservation, spent)) ==>
                && ended == Some(Proposal(turn.reply.body.proposal.value))
                && run.inputTokens == old(run.inputTokens) + spent.0 && run.outputTokens == old(run.outputTokens) + spent.1
    {
      hide AgentRun.Valid, Affordable, Accepts;
      var reply := if run.Remaining(turn.requestAt).None? then Raised(RunDeadline) else turn.reply;
      match reply {
        case Cancelled =>
          return Some(WasCancelled);
        case Generated(body) =>
          var outcome := ValidateResponse(run, body, spent);
          return Some(outcome);
        case Raised(failure) =>
          var stop := RetryRefused(run, failure, turn.retryAt);
          return if stop.Some? then Some(Refused(stop.value)) else None;
      }
    }

    // None when the request may be repeated after the delay; then another call is still affordable.
    method RetryRefused(run: AgentRun, failure: Failure, now: real) returns (stop: Option<Failure>)
      ensures stop.None? <==>
        && failure.ProviderError? && failure.retryable && run.modelCalls < run.limits.maximumModelCalls
        && (failure.retryAfter.Some? ==> failure.retryAfter.value.Seconds?)
        && run.Remaining(now).Some?
        && var delay := if failure.retryAfter.None? then 1.0 else failure.retryAfter.value.seconds;
           0.0 <= delay <= 5.0 && delay <= run.Remaining(now).value
      ensures stop.Some? ==> stop.value in {failure, RetryAfterInvalid, RetryDelayLimit, RunDeadline}
      ensures !(failure.ProviderError? && failure.retryable) ==> stop == Some(failure)
    {
      if !(failure.ProviderError? && failure.retryable) || run.modelCalls >= run.limits.maximumModelCalls {
        return Some(failure);
      }
      var delay := Seconds(1.0);
      if failure.retryAfter.Some? {
        delay := failure.retryAfter.value;
        if delay.NotANumber? {
          return Some(RetryAfterInvalid);
        }
      }
      if delay.NotFinite? || delay.seconds < 0.0 {
        return Some(RetryDelayLimit);
      }
      var remaining := run.Remaining(now);
      if remaining.None? {
        return Some(RunDeadline);
      }
      return if delay.seconds > Smaller(5.0, remaining.value) then Some(RetryDelayLimit) else None;
    }

    method ValidateResponse(run: AgentRun, body: Body, ghost spent: (nat, nat)) returns (outcome: Outcome)
      requires run.Valid() && run.reservations != []
      modifies run`inputTokens, run`outputTokens, run`usageComplete
      ensures run.Valid() && !outcome.WasCancelled?
      ensures outcome.Proposal? <==>
        && !body.declined && body.usage.Some? && Consumed(body.usage.value).Some?
        && Affordable(run, old(run.inputTokens), old(run.outputTokens))
        && body.model.Some? && ModelMatches(config, body.model.value) && body.finished && body.proposal.Some?
      ensures outcome.Proposal? ==> outcome.id == body.proposal.value && (run.usageComplete <==> run.modelCalls == 1)
      ensures outcome == Refused(ObservedTokenLimit) ==>
                run.reservations != [] && !Affordable(run, old(run.inputTokens), old(run.outputTokens))
      ensures outcome.Proposal? ==> var spent := Consumed(body.usage.value).value;
                run.inputTokens == old(run.inputTokens) + spent.0 && run.outputTokens == old(run.outputTokens) + spent.1
      ensures old(Accepts(run, body, run.reserved - run.lastReservation, spent)) ==>
                && outcome == Proposal(body.proposal.value)
                && run.inputTokens == old(run.inputTokens) + spent.0 && run.outputTokens == old(run.outputTokens) + spent.1
      ensures outcome.Proposal? && spent == (run.inputTokens - old(run.inputTokens), run.outputTokens - old(run.outputTokens)) ==>
                old(Accepts(run, body, run.reserved - run.lastReservation, spent))
    {
      if body.usage.Some? { ConsumedReports(body.usage.value); }
      if body.declined {
        return Refused(ProviderIncomplete);
      }
      if body.usage.None? || Consumed(body.usage.value).None? {
        return Refused(ProviderSchema);
      }
      var (input, output) := Consumed(body.usage.value).value;
      run.inputTokens := run.inputTokens + input;
      run.outputTokens := run.outputTokens + output;
      run.usageComplete := run.modelCalls == 1;
      if input > config.maximumInputTokens || output > config.maximumOutputTokens
         || run.reserved - run.lastReservation + input + output > run.limits.maximumTotalTokens
      {
        return Refused(ObservedTokenLimit);
      }
      if body.model.None? || !ModelMatches(config, body.model.value) {
        return Refused(ProviderSchema);
      }
      if !body.finished {
        return Refused(ProviderIncomplete);
      }
      if body.proposal.None? {
        return Refused(ProviderSchema);
      }
      return Proposal(body.proposal.value);
    }
  }
}
