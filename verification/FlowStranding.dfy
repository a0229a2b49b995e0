/** Running runs that nothing can move any more: which writes lead there, and what one
    uncut Advance makes of every other state a crash can leave (flow/kernel.go,
    flow/kernel_resume.go). */
module FlowStranding {
  import opened Text
  import opened FlowDefinition
  import opened FlowRun
  import opened FlowKernel
  import opened FlowInvariant

  /** The run is neither over nor waiting, and its current step is recorded as failed. */
  predicate Stranded(r: Run) {
    !Over(r.status) && r.status != RunWaitingHuman && StateOf(r, r.current).status == StepFailed
  }

  lemma StrandedIdle(def: Definition, r: Run, op: Op)
    requires AfterWrite(def, r) && Stranded(r)
    ensures Apply(def, r, op) == r
  {
    hide SoundStep, PendingFor;
    assert !Blank(r.current);
  }

  /** No sequence of operations ever changes a stranded run. */
  lemma {:induction false} StrandedForever(def: Definition, r: Run, ops: seq<Op>)
    requires AfterWrite(def, r) && Stranded(r)
    ensures RunOps(def, r, ops) == r
    decreases |ops|
  {
    if ops != [] {
      StrandedIdle(def, r, ops[0]);
      hide AfterWrite, Apply, Stranded;
      StrandedForever(def, r, ops[1..]);
    }
  }

  // ----- Which operation strands a run -----

  /** The transition of the completed step enters a step already recorded as failed. */
  predicate EntersFailed(r: Run, step: Step, conditions: string -> Verdict) {
    var n := ResolveNext(step, conditions);
    n.Goto? && n.id != "" && StateOf(r, n.id).status == StepFailed
  }

  /** What the attempt counter of the step is once it was executed from this state. */
  function AttemptsAfter(s: StepState): nat {
    if s.startedAt.None? then s.attempts + 1 else s.attempts
  }

  /** Failure routing leads the step back to itself or to a step already recorded as failed. */
  predicate RoutesToFailed(r: Run, step: Step) {
    && !MayRetry(step, AttemptsAfter(StateOf(r, step.id)))
    && FailureRoute(step) != ""
    && (FailureRoute(step) == step.id || StateOf(r, FailureRoute(step)).status == StepFailed)
  }

  predicate ExecutionStrands(r: Run, step: Step, input: AdvanceInput, budget: nat) {
    match StatusOf(EffectiveResult(input).status)
    case StepFailed => budget == 2 || (budget > 2 && RoutesToFailed(r, step))
    case StepCompleted => budget > 2 && EntersFailed(r, step, input.conditions)
    case _ => false
  }

  /** Either the failed result is recorded and the failure is not acted on, or the run
      goes back to a step that failed before. */
  predicate AdvanceStrands(def: Definition, r: Run, input: AdvanceInput, budget: nat) {
    if Executes(def, r) then ExecutionStrands(r, StepById(def, r.current).value, input, budget)
    else
      && !Over(r.status) && r.status != RunWaitingHuman && StepById(def, r.current).Some?
      && StateOf(r, r.current).status == StepCompleted
      && budget > 0 && EntersFailed(r, StepById(def, r.current).value, input.conditions)
  }

  predicate FailsStep(view: RequestView, agent: AgentView) {
    AgentRefusal(view) || agent == AgentStatus("failed")
  }

  /** The refusal is recorded on the step and not on the run, or the run goes back to a
      step that failed before. */
  predicate ResumeStrands(def: Definition, r: Run, input: ResumeInput, budget: nat) {
    && ResumeWrites(def, r, input) != []
    && var step, view := StepById(def, r.current).value, input.view.value;
      if view.source == SOURCE_AGENT_REQUEST && FailsStep(view, input.agent) then budget == 1
      else
        && budget > 1 && EntersFailed(r, step, input.conditions)
        && (view.source != SOURCE_AGENT_REQUEST ==>
              SignalFor(view.kind, step) != "cancel" || HasBranchFor(step, "cancel"))
  }

  predicate Strands(def: Definition, r: Run, op: Op) {
    match op
    case DoAdvance(input, budget) => AdvanceStrands(def, r, input, budget)
    case DoResume(input, budget) => ResumeStrands(def, r, input, budget)
  }

  /** A completed step's transition strands the run exactly if it enters a failed step;
      `r0` is the run before the step completed. */
  lemma TransitionStrands(r0: Run, r: Run, step: Step, conditions: string -> Verdict)
    requires r.current == step.id && StateOf(r, step.id).status == StepCompleted
    requires StateOf(r0, step.id).status != StepFailed
    requires r.status == RunRunning || r.status == RunPending
    requires forall x | x != step.id :: StateOf(r, x) == StateOf(r0, x)
    ensures var writes := TransitionWrites(r, step, conditions);
      |writes| == 1 && (Stranded(writes[0]) <==> EntersFailed(r0, step, conditions))
  {
    hide ResolveNext;
    var n := ResolveNext(step, conditions);
    if n.Goto? && n.id != "" {
      assert StateOf(Entered(r, n.id), n.id).status == StepFailed <==> StateOf(r, n.id).status == StepFailed;
    }
  }

  lemma FailureStrands(r: Run, step: Step)
    requires r.current == step.id && StateOf(r, step.id).status == StepFailed && step.id in r.steps
    ensures var writes := FailureWrites(r, step);
      |writes| == 1 &&
      (Stranded(writes[0]) <==>
        && !MayRetry(step, StateOf(r, step.id).attempts) && FailureRoute(step) != ""
        && StateOf(r, FailureRoute(step)).status == StepFailed)
  {
    hide MayRetry, FailureRoute;
  }

  /** The first two writes of an execution. */
  lemma ExecutionFacts(def: Definition, r: Run, step: Step, input: AdvanceInput)
    requires Working(def, r, step)
    requires StateOf(r, step.id).status !in {StepCompleted, StepFailed, StepWaitingHuman}
    ensures MarkedRunning(r, step.id, input.now).Some?
    ensures var r1 := MarkedRunning(r, step.id, input.now).value;
      var r2 := ResultApplied(r1, step.id, EffectiveResult(input), input.now);
      && r.current == r1.current == r2.current == step.id && step.id in r2.steps
      && (r.status == RunRunning || r.status == RunPending) && r1.status == r2.status == r.status
      && StateOf(r1, step.id).status == StepRunning
      && StateOf(r2, step.id).status == StatusOf(EffectiveResult(input).status)
      && StateOf(r2, step.id).attempts == AttemptsAfter(StateOf(r, step.id))
      && forall x | x != step.id :: StateOf(r2, x) == StateOf(r, x)
  {
    MarkedKeeps(def, r, step, input.now);
    hide AfterWrite;
  }

  lemma ExecutionStrandsExactly(def: Definition, r: Run, step: Step, input: AdvanceInput, budget: nat)
    requires Working(def, r, step)
    requires StateOf(r, step.id).status !in {StepCompleted, StepFailed, StepWaitingHuman}
    ensures Stranded(Cut(r, ExecutionWrites(r, step, input), budget)) <==> ExecutionStrands(r, step, input, budget)
  {
    ExecutionFacts(def, r, step, input);
    var r1 := MarkedRunning(r, step.id, input.now).value;
    var r2 := ResultApplied(r1, step.id, EffectiveResult(input), input.now);
    assert ExecutionWrites(r, step, input) == [r1, r2] + SettleWrites(r2, step, input.conditions);
    hide AfterWrite, Working, StepById, MarkedRunning, ResultApplied, RoutesToFailed, AttemptsAfter, ExecutionWrites;
    match StatusOf(EffectiveResult(input).status) {
      case StepFailed => FailedExecutionStrands(r, r1, r2, step, input, budget);
      case StepCompleted =>
        TransitionStrands(r, r2, step, input.conditions);
        hide TransitionWrites, EntersFailed;
      case _ =>
    }
  }

  lemma FailedExecutionStrands(r: Run, r1: Run, r2: Run, step: Step, input: AdvanceInput, budget: nat)
    requires r.current == r1.current == r2.current == step.id && step.id in r2.steps
    requires StateOf(r, step.id).status != StepFailed && StateOf(r1, step.id).status == StepRunning
    requires StateOf(r2, step.id).status == StepFailed && (r2.status == RunRunning || r2.status == RunPending)
    requires StateOf(r2, step.id).attempts == AttemptsAfter(StateOf(r, step.id))
    requires forall x | x != step.id :: StateOf(r2, x) == StateOf(r, x)
    ensures Stranded(Cut(r, [r1, r2] + SettleWrites(r2, step, input.conditions), budget)) <==>
      budget == 2 || (budget > 2 && RoutesToFailed(r, step))
  {
    FailureStrands(r2, step);
    assert SettleWrites(r2, step, input.conditions) == FailureWrites(r2, step);
    hide FailureWrites, MayRetry, FailureRoute, AttemptsAfter, SettleWrites;
  }

  lemma AdvanceStrandsExactly(def: Definition, r: Run, input: AdvanceInput, budget: nat)
    requires AfterWrite(def, r) && !Stranded(r)
    ensures Stranded(Cut(r, AdvanceWrites(def, r, input), budget)) <==> AdvanceStrands(def, r, input, budget)
  {
    hide SoundStep, PendingFor;
    if Executes(def, r) {
      var step := StepById(def, r.current).value;
      assert Working(def, r, step);
      assert AdvanceWrites(def, r, input) == ExecutionWrites(r, step, input);
      hide AdvanceWrites, ExecutionWrites, ExecutionStrands, Stranded, Working, AfterWrite;
      ExecutionStrandsExactly(def, r, step, input, budget);
    } else if !Over(r.status) && r.status != RunWaitingHuman {
      IdleStrandsExactly(def, r, input, budget);
      hide AdvanceWrites, EntersFailed, AfterWrite;
    }
  }

  lemma IdleStrandsExactly(def: Definition, r: Run, input: AdvanceInput, budget: nat)
    requires AfterWrite(def, r) && !Stranded(r) && !Executes(def, r) && !Over(r.status) && r.status != RunWaitingHuman
    ensures StepById(def, r.current).Some?
    ensures Stranded(Cut(r, AdvanceWrites(def, r, input), budget)) <==>
      StateOf(r, r.current).status == StepCompleted && budget > 0
      && EntersFailed(r, StepById(def, r.current).value, input.conditions)
  {
    hide SoundStep, PendingFor;
    var step := StepById(def, r.current).value;
    if StateOf(r, r.current).status == StepCompleted {
      TransitionStrands(r, r, step, input.conditions);
      hide TransitionWrites, EntersFailed;
    }
  }

  lemma AgentStrandsExactly(r: Run, step: Step, view: RequestView, input: ResumeInput, budget: nat)
    requires r.status == RunWaitingHuman && r.current == step.id && StateOf(r, step.id).status == StepWaitingHuman
    requires AgentWrites(r, step, view, input) != []
    ensures Stranded(Cut(r, AgentWrites(r, step, view, input), budget)) <==>
      if FailsStep(view, input.agent) then budget == 1 else budget > 1 && EntersFailed(r, step, input.conditions)
  {
    hide FailureText, EntersFailed, TransitionWrites;
    if !FailsStep(view, input.agent) {
      var r1 := AgentFinished(r, step.id, input.now);
      TransitionStrands(r, r1, step, input.conditions);
    }
  }

  lemma ApprovalStrandsExactly(r: Run, step: Step, view: RequestView, input: ResumeInput, budget: nat)
    requires r.status == RunWaitingHuman && r.current == step.id && StateOf(r, step.id).status == StepWaitingHuman
    ensures Stranded(Cut(r, ApprovalWrites(r, step, view, input), budget)) <==>
      && budget > 1 && EntersFailed(r, step, input.conditions)
      && (SignalFor(view.kind, step) != "cancel" || HasBranchFor(step, "cancel"))
  {
    hide FailureText, EntersFailed, TransitionWrites, SignalFor, SlotFor, HasBranchFor;
    var r1 := Approved(r, step.id, SlotFor(step), SignalFor(view.kind, step), input.now);
    TransitionStrands(r, r1, step, input.conditions);
  }

  lemma ResumeStrandsExactly(def: Definition, r: Run, input: ResumeInput, budget: nat)
    requires AfterWrite(def, r) && !Stranded(r)
    ensures Stranded(Cut(r, ResumeWrites(def, r, input), budget)) <==> ResumeStrands(def, r, input, budget)
  {
    hide SoundStep, PendingFor;
    if ResumeWrites(def, r, input) != [] {
      var step, view := StepById(def, r.current).value, input.view.value;
      hide Stranded, EntersFailed, FailsStep;
      if view.source == SOURCE_AGENT_REQUEST {
        assert ResumeWrites(def, r, input) == AgentWrites(r, step, view, input);
        hide ResumeWrites, AgentWrites;
        AgentStrandsExactly(r, step, view, input, budget);
      } else {
        assert ResumeWrites(def, r, input) == ApprovalWrites(r, step, view, input);
        hide ResumeWrites, ApprovalWrites;
        ApprovalStrandsExactly(r, step, view, input, budget);
      }
    }
  }

  /** Exactly which operation, cut where, strands a run. */
  lemma StrandedExactly(def: Definition, r: Run, op: Op)
    requires AfterWrite(def, r) && !Stranded(r)
    ensures Stranded(Apply(def, r, op)) <==> Strands(def, r, op)
  {
    hide AfterWrite, Stranded, AdvanceWrites, ResumeWrites, AdvanceStrands, ResumeStrands;
    match op {
      case DoAdvance(input, budget) => AdvanceStrandsExactly(def, r, input, budget);
      case DoResume(input, budget) => ResumeStrandsExactly(def, r, input, budget);
    }
  }

  /** A cut failed execution strands its run however many attempts are left, and for good. */
  lemma CutFailureLosesRetries(def: Definition, r: Run, input: AdvanceInput, ops: seq<Op>)
    requires Closed(def) && AfterWrite(def, r) && !Stranded(r) && Executes(def, r)
    requires EffectiveResult(input).status == ExecFailed
    ensures var r1 := Apply(def, r, DoAdvance(input, 2)); Stranded(r1) && RunOps(def, r1, ops) == r1
  {
    var op := DoAdvance(input, 2);
    OpKeeps(def, r, op);
    StrandedExactly(def, r, op);
    assert Strands(def, r, op);
    hide AfterWrite, Stranded, Apply;
    StrandedForever(def, Apply(def, r, op), ops);
  }

  /** After any history of cuts, one uncut Advance restores the boundary invariant, and
      the run can go on unless it was stranded before or this Advance goes back to a step
      that failed before. */
  lemma AdvanceRepairs(def: Definition, r: Run, ops: seq<Op>, input: AdvanceInput, budget: nat)
    requires Closed(def) && AfterWrite(def, r)
    requires var r1 := RunOps(def, r, ops); |AdvanceWrites(def, r1, input)| <= budget
    ensures var r1 := RunOps(def, r, ops);
      var r2 := Apply(def, r1, DoAdvance(input, budget));
      AtBoundary(def, r2) && (Stranded(r2) <==> Stranded(r1) || AdvanceStrands(def, r1, input, budget))
  {
    RunsStaySound(def, r, ops);
    var r1 := RunOps(def, r, ops);
    var op := DoAdvance(input, budget);
    OpKeeps(def, r1, op);
    if Stranded(r1) {
      StrandedIdle(def, r1, op);
    } else {
      StrandedExactly(def, r1, op);
    }
    hide AfterWrite, AtBoundary, Stranded, AdvanceWrites, AdvanceStrands, RunOps, Closed;
  }
}
