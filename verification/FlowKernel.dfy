/** The flow kernel: Start, Advance and Resume as sequences of separate store
    writes (flow/kernel.go, flow/kernel_resume.go). */
module FlowKernel {
  import opened Common
  import opened Text
  import opened FlowDefinition
  import opened FlowRun

  const SOURCE_FLOW_APPROVAL := "flow_human_approval"
  const SOURCE_AGENT_REQUEST := "agent_request"

  datatype KernelError =
    | RunNotFound
    | EntrypointNotFound
    | StoreFailed
    | CurrentStepNotFound
    | BlankRequestId
    | NoCurrentStep
    | NotInRunState
    | NotLinked
    | ResolverFailed
    | StillPending
    | AgentLookupFailed
    | TransitionError(reason: string)

  datatype Outcome = Done | Rejected(error: KernelError)

  /** What evaluating one branch condition yields; the evaluator is arbitrary. */
  datatype Verdict = Match | NoMatch | Broken(reason: string)

  datatype AdvanceInput = AdvanceInput(
    result: ExecResult,
    execError: Option<string>,
    conditions: string -> Verdict,
    now: int)

  /** The flow-side view of a human request. */
  datatype RequestView = RequestView(id: string, source: string, resolved: bool, kind: string, message: string)

  datatype AgentView = NoHook | LookupFailed | AgentStatus(status: string)

  datatype ResumeInput = ResumeInput(
    request: string,
    view: Option<RequestView>,
    agent: AgentView,
    conditions: string -> Verdict,
    now: int)

  // ----- Pure decisions -----

  datatype NextStep = Goto(id: string) | Unresolvable(reason: string)

  function FirstMatch(branches: seq<Branch>, conditions: string -> Verdict): NextStep {
    if branches == [] then Goto("")
    else match conditions(branches[0].when)
      case Match => Goto(branches[0].next)
      case NoMatch => FirstMatch(branches[1..], conditions)
      case Broken(reason) => Unresolvable(reason)
  }

  /** `resolveNext`: a declared branch set is exhaustive. */
  function ResolveNext(step: Step, conditions: string -> Verdict): NextStep {
    if step.branches == [] then Goto(step.onSuccess)
    else match FirstMatch(step.branches, conditions)
      case Unresolvable(reason) => Unresolvable(reason)
      case Goto(id) => if id == "" then Unresolvable("transition unresolvable") else Goto(id)
  }

  function MaxAttempts(step: Step): nat {
    if step.retry.None? || step.retry.value.maxAttempts <= 0 then 1 else step.retry.value.maxAttempts
  }

  predicate MayRetry(step: Step, attempts: nat) {
    step.retry.Some? && attempts < MaxAttempts(step)
  }

  /** Where a failed step that may not be retried leads; "" fails the run. */
  function FailureRoute(step: Step): string {
    if step.retry.Some? && step.retry.value.onExhausted != "" then step.retry.value.onExhausted
    else step.onFailure
  }

  predicate HasOption(step: Step, option: string) {
    option in step.executor.options
  }

  function SignalFor(kind: string, step: Step): string {
    if HasOption(step, kind) then kind
    else if kind == "deny" then (if HasOption(step, "reject") then "reject" else "deny")
    else if kind == "answer" then "approve"
    else kind
  }

  predicate HasBranchFor(step: Step, signal: string) {
    exists b | b in step.branches ::
      Contains(b.when, "'" + signal + "'") || Contains(b.when, "\"" + signal + "\"")
  }

  function SlotFor(step: Step): string {
    if step.slots == [] then "approval_signal" else step.slots[0]
  }

  function FailureText(message: string, fallback: string): string {
    if message != "" then message else fallback
  }

  // ----- The writes of each operation, in order -----

  predicate Over(status: RunStatus) {
    status == RunCompleted || status == RunFailed || status == RunCanceled
  }

  function StartWrites(start: string): seq<Run> {
    [CreatedRun(start), Started(CreatedRun(start), start)]
  }

  function TransitionWrites(r: Run, step: Step, conditions: string -> Verdict): seq<Run> {
    match ResolveNext(step, conditions)
    case Unresolvable(reason) => [TransitionFailed(r, step.id, reason)]
    case Goto(id) => if id == "" then [CompletedRun(r)] else [Entered(r, id)]
  }

  function FailureWrites(r: Run, step: Step): seq<Run> {
    if MayRetry(step, StateOf(r, step.id).attempts) then [RetryScheduled(r, step.id)]
    else if FailureRoute(step) != "" then [Routed(r, FailureRoute(step))]
    else [FailedRun(r)]
  }

  function EffectiveResult(input: AdvanceInput): ExecResult {
    match input.execError
    case None => input.result
    case Some(e) => input.result.(status := ExecFailed, error := e)
  }

  /** The writes that follow a recorded result. */
  function SettleWrites(r: Run, step: Step, conditions: string -> Verdict): seq<Run> {
    match StateOf(r, step.id).status
    case StepWaitingHuman => [Paused(r, StateOf(r, step.id).requests)]
    case StepFailed => FailureWrites(r, step)
    case StepCompleted => TransitionWrites(r, step, conditions)
    case _ => []
  }

  /** Does Advance hand the current step to the executor? */
  predicate Executes(def: Definition, r: Run) {
    && !Over(r.status) && r.status != RunWaitingHuman && !Blank(r.current)
    && StepById(def, r.current).Some?
    && StateOf(r, r.current).status !in {StepCompleted, StepFailed, StepWaitingHuman}
  }

  function ExecutionWrites(r: Run, step: Step, input: AdvanceInput): seq<Run> {
    match MarkedRunning(r, step.id, input.now)
    case None => []
    case Some(r1) =>
      var r2 := ResultApplied(r1, step.id, EffectiveResult(input), input.now);
      [r1, r2] + SettleWrites(r2, step, input.conditions)
  }

  function AdvanceWrites(def: Definition, r: Run, input: AdvanceInput): seq<Run> {
    if Over(r.status) || r.status == RunWaitingHuman then []
    else if Blank(r.current) then [CompletedRun(r)]
    else match StepById(def, r.current)
      case None => []
      case Some(step) =>
        match StateOf(r, step.id).status
        case StepCompleted => TransitionWrites(r, step, input.conditions)
        case StepFailed => []
        case StepWaitingHuman => [Paused(r, StateOf(r, step.id).requests)]
        case _ => ExecutionWrites(r, step, input)
  }

  function TransitionOutcome(step: Step, conditions: string -> Verdict): Outcome {
    match ResolveNext(step, conditions)
    case Unresolvable(reason) => Rejected(TransitionError(reason))
    case Goto(_) => Done
  }

  /** How Advance ends when no write fails. */
  function AdvanceOutcome(def: Definition, r: Run, input: AdvanceInput): Outcome {
    if Over(r.status) || r.status == RunWaitingHuman || Blank(r.current) then Done
    else match StepById(def, r.current)
      case None => Rejected(CurrentStepNotFound)
      case Some(step) =>
        match StateOf(r, step.id).status
        case StepCompleted => TransitionOutcome(step, input.conditions)
        case StepFailed => Done
        case StepWaitingHuman => Done
        case _ =>
          if StatusOf(EffectiveResult(input).status) == StepCompleted
          then TransitionOutcome(step, input.conditions) else Done
  }

  /** Why Resume refuses before it writes anything, if it does. */
  function ResumeRefusal(def: Definition, r: Run, input: ResumeInput): Option<KernelError>
    requires r.status == RunWaitingHuman
  {
    if r.current == "" then Some(NoCurrentStep)
    else if r.current !in r.steps then Some(NotInRunState)
    else if input.request !in r.steps[r.current].requests then Some(NotLinked)
    else if input.view.None? then Some(ResolverFailed)
    else if !input.view.value.resolved then Some(StillPending)
    else if StepById(def, r.current).None? then Some(CurrentStepNotFound)
    else None
  }

  predicate AgentRefusal(view: RequestView) {
    view.kind == "deny" || view.kind == "cancel"
  }

  function ApprovalWrites(r: Run, step: Step, view: RequestView, input: ResumeInput): seq<Run> {
    var signal := SignalFor(view.kind, step);
    var r1 := Approved(r, step.id, SlotFor(step), signal, input.now);
    [r1] + if signal == "cancel" && !HasBranchFor(step, "cancel")
           then [CanceledRun(r1, step.id, FailureText(view.message, "flow canceled by human: " + view.kind))]
           else TransitionWrites(r1, step, input.conditions)
  }

  function AgentWrites(r: Run, step: Step, view: RequestView, input: ResumeInput): seq<Run> {
    if AgentRefusal(view) then
      var r1 := AgentRefused(r, step.id, FailureText(view.message, "human denied: " + view.kind), input.now);
      [r1, FailedRun(r1)]
    else match input.agent
      case NoHook => []
      case LookupFailed => []
      case AgentStatus(status) =>
        if status == "completed" then
          var r1 := AgentFinished(r, step.id, input.now);
          [r1] + TransitionWrites(r1, step, input.conditions)
        else if status == "failed" then
          var r1 := AgentRefused(r, step.id, "agent run failed after human response", input.now);
          [r1, FailedRun(r1)]
        else []
  }

  function ResumeWrites(def: Definition, r: Run, input: ResumeInput): seq<Run> {
    if Blank(input.request) || r.status != RunWaitingHuman || ResumeRefusal(def, r, input).Some? then []
    else
      var step := StepById(def, r.current).value;
      var view := input.view.value;
      if view.source == SOURCE_AGENT_REQUEST then AgentWrites(r, step, view, input)
      else ApprovalWrites(r, step, view, input)
  }

  /** How Resume ends when no write fails. */
  function ResumeOutcome(def: Definition, r: Run, input: ResumeInput): Outcome {
    if Blank(input.request) then Rejected(BlankRequestId)
    else if r.status != RunWaitingHuman then Done
    else match ResumeRefusal(def, r, input)
      case Some(e) => Rejected(e)
      case None =>
        var step := StepById(def, r.current).value;
        var view := input.view.value;
        if view.source != SOURCE_AGENT_REQUEST then
          var signal := SignalFor(view.kind, step);
          if signal == "cancel" && !HasBranchFor(step, "cancel") then Done
          else TransitionOutcome(step, input.conditions)
        else if AgentRefusal(view) then Done
        else match input.agent
          case NoHook => Done
          case LookupFailed => Rejected(AgentLookupFailed)
          case AgentStatus(status) =>
            if status == "completed" then TransitionOutcome(step, input.conditions) else Done
  }

  /** The run on disk once only the first `done` writes have reached it. */
  function Cut(r: Run, writes: seq<Run>, done: nat): Run {
    if done == 0 || writes == [] then r else writes[Min(done, |writes|) - 1]
  }

  function CutOutcome(writes: seq<Run>, done: nat, whole: Outcome): Outcome {
    if done < |writes| then Rejected(StoreFailed) else whole
  }

  // ----- The kernel -----

  /** The kernel of one run over one fixed definition. `file` is the run file;
      `handed` logs every step given to the executor. Each operation is told how
      many of its writes will succeed (`budget`): a store error and a crash leave
      the same file behind. */
  class Kernel {
    const def: Definition
    var file: Option<Run>
    var handed: seq<string>

    constructor (def: Definition)
      ensures this.def == def && file == None && handed == []
    {
      this.def := def;
      file := None;
      handed := [];
    }

    /** `Store.UpdateRun` writes the whole file or nothing. */
    method Write(rec: RunRecord, budget: nat) returns (ok: bool, left: nat)
      requires file.Some?
      modifies this`file
      ensures ok <==> budget > 0
      ensures left == if ok then budget - 1 else 0
      ensures file == if ok then Some(rec.Data()) else old(file)
    {
      if budget == 0 { return false, 0; }
      file := Some(rec.Data());
      return true, budget - 1;
    }

    method Start(entrypoint: string, budget: nat) returns (out: Outcome)
      requires file.None?
      modifies this`file
      ensures var step := ResolveEntrypoint(def, entrypoint);
        if step.None? then file == old(file) && out == Rejected(EntrypointNotFound)
        else
          var writes := StartWrites(step.value.id);
          && out == CutOutcome(writes, budget, Done)
          && file == if budget == 0 then None else Some(writes[Min(budget, 2) - 1])
    {
      var step := ResolveEntrypoint(def, entrypoint);
      if step.None? { return Rejected(EntrypointNotFound); }
      if budget == 0 { return Rejected(StoreFailed); }
      file := Some(CreatedRun(step.value.id));
      var rec := new RunRecord(file.value);
      rec.BeginFirstStep(step.value.id);
      var ok, _ := Write(rec, budget - 1);
      return if ok then Done else Rejected(StoreFailed);
    }

    method Transition(step: Step, conditions: string -> Verdict, budget: nat) returns (out: Outcome)
      requires file.Some?
      modifies this`file
      ensures var writes := TransitionWrites(old(file.value), step, conditions);
        && file == Some(Cut(old(file.value), writes, budget))
        && out == CutOutcome(writes, budget, TransitionOutcome(step, conditions))
    {
      var rec := new RunRecord(file.value);
      match ResolveNext(step, conditions) {
        case Unresolvable(reason) =>
          rec.FailTransition(step.id, reason);
        case Goto(id) =>
          if id == "" { rec.Complete(); } else { rec.Enter(id); }
      }
      var ok, _ := Write(rec, budget);
      return if ok then TransitionOutcome(step, conditions) else Rejected(StoreFailed);
    }

    method HandleStepFailure(step: Step, budget: nat) returns (out: Outcome)
      requires file.Some?
      modifies this`file
      ensures var writes := FailureWrites(old(file.value), step);
        && file == Some(Cut(old(file.value), writes, budget))
        && out == CutOutcome(writes, budget, Done)
    {
      var rec := new RunRecord(file.value);
      var s := rec.StepAt(step.id);
      if step.retry.Some? && s.attempts < MaxAttempts(step) {
        rec.ScheduleRetry(step.id);
      } else if step.retry.Some? && step.retry.value.onExhausted != "" {
        rec.RouteAfterFailure(step.retry.value.onExhausted);
      } else if step.onFailure != "" {
        rec.RouteAfterFailure(step.onFailure);
      } else {
        rec.Fail();
      }
      var ok, _ := Write(rec, budget);
      return if ok then Done else Rejected(StoreFailed);
    }

    method MarkWaitingHuman(requests: seq<string>, budget: nat) returns (out: Outcome)
      requires file.Some?
      modifies this`file
      ensures file == Some(Cut(old(file.value), [Paused(old(file.value), requests)], budget))
      ensures out == if budget > 0 then Done else Rejected(StoreFailed)
    {
      var rec := new RunRecord(file.value);
      rec.Pause(requests);
      var ok, _ := Write(rec, budget);
      return if ok then Done else Rejected(StoreFailed);
    }

    method MarkFailed(budget: nat) returns (out: Outcome)
      requires file.Some?
      modifies this`file
      ensures file == Some(Cut(old(file.value), [FailedRun(old(file.value))], budget))
      ensures out == if budget > 0 then Done else Rejected(StoreFailed)
    {
      var rec := new RunRecord(file.value);
      rec.Fail();
      var ok, _ := Write(rec, budget);
      return if ok then Done else Rejected(StoreFailed);
    }

    /** Settles the step according to the recorded result. */
    method Settle(step: Step, conditions: string -> Verdict, budget: nat) returns (out: Outcome)
      requires file.Some?
      modifies this`file
      ensures var writes := SettleWrites(old(file.value), step, conditions);
        && file == Some(Cut(old(file.value), writes, budget))
        && out == CutOutcome(writes, budget,
                    if StateOf(old(file.value), step.id).status == StepCompleted
                    then TransitionOutcome(step, conditions) else Done)
    {
      var s := StateOf(file.value, step.id);
      match s.status {
        case StepWaitingHuman => out := MarkWaitingHuman(s.requests, budget);
        case StepFailed => out := HandleStepFailure(step, budget);
        case StepCompleted => out := Transition(step, conditions, budget);
        case _ => out := Done;
      }
    }

    /** Marks the step running, hands it to the executor and records the result. */
    method Execute(step: Step, input: AdvanceInput, budget: nat) returns (out: Outcome)
      requires file.Some? && MarkedRunning(file.value, step.id, input.now).Some?
      modifies this
      ensures var writes := ExecutionWrites(old(file.value), step, input);
        && file == Some(Cut(old(file.value), writes, budget))
        && out == CutOutcome(writes, budget,
                    if StatusOf(EffectiveResult(input).status) == StepCompleted
                    then TransitionOutcome(step, input.conditions) else Done)
      ensures handed == old(handed) + if budget > 0 then [step.id] else []
    {
      var rec := new RunRecord(file.value);
      var marked := rec.MarkStepRunning(step.id, input.now);
      var ok, left := Write(rec, budget);
      if !ok { return Rejected(StoreFailed); }
      handed := handed + [step.id];
      rec := new RunRecord(file.value);
      rec.ApplyStepResult(step.id, EffectiveResult(input), input.now);
      ok, left := Write(rec, left);
      if !ok { return Rejected(StoreFailed); }
      out := Settle(step, input.conditions, left);
    }

    method Advance(input: AdvanceInput, budget: nat) returns (out: Outcome)
      modifies this
      ensures old(file).None? ==> file == None && handed == old(handed) && out == Rejected(RunNotFound)
      ensures old(file).Some? ==>
        var r := old(file.value);
        var writes := AdvanceWrites(def, r, input);
        && file == Some(Cut(r, writes, budget))
        && out == CutOutcome(writes, budget, AdvanceOutcome(def, r, input))
        && handed == old(handed) + if Executes(def, r) && budget > 0 then [r.current] else []
    {
      if file.None? { return Rejected(RunNotFound); }
      var r := file.value;
      if r.status == RunCompleted || r.status == RunFailed || r.status == RunCanceled { return Done; }
      if r.status == RunWaitingHuman { return Done; }
      if Blank(r.current) {
        var rec := new RunRecord(r);
        rec.Complete();
        var ok, _ := Write(rec, budget);
        return if ok then Done else Rejected(StoreFailed);
      }
      var step := StepById(def, r.current);
      if step.None? { return Rejected(CurrentStepNotFound); }
      var s := StateOf(r, step.value.id);
      if s.status == StepCompleted {
        out := Transition(step.value, input.conditions, budget);
      } else if s.status == StepFailed {
        return Done;
      } else if s.status == StepWaitingHuman {
        out := MarkWaitingHuman(s.requests, budget);
      } else {
        out := Execute(step.value, input, budget);
      }
    }

    method ResumeExplicitApproval(step: Step, view: RequestView, input: ResumeInput, budget: nat) returns (out: Outcome)
      requires file.Some?
      modifies this`file
      ensures var r := old(file.value);
        var writes := ApprovalWrites(r, step, view, input);
        var signal := SignalFor(view.kind, step);
        && file == Some(Cut(r, writes, budget))
        && out == CutOutcome(writes, budget,
                    if signal == "cancel" && !HasBranchFor(step, "cancel") then Done
                    else TransitionOutcome(step, input.conditions))
    {
      var signal := SignalFor(view.kind, step);
      var rec := new RunRecord(file.value);
      rec.Approve(step.id, SlotFor(step), signal, input.now);
      var ok, left := Write(rec, budget);
      if !ok { return Rejected(StoreFailed); }
      if signal == "cancel" && !HasBranchFor(step, "cancel") {
        rec := new RunRecord(file.value);
        rec.Cancel(step.id, FailureText(view.message, "flow canceled by human: " + view.kind));
        ok, left := Write(rec, left);
        return if ok then Done else Rejected(StoreFailed);
      }
      out := Transition(step, input.conditions, left);
    }

    method RefuseAgentStep(step: Step, error: string, now: int, budget: nat) returns (out: Outcome)
      requires file.Some?
      modifies this`file
      ensures var r1 := AgentRefused(old(file.value), step.id, error, now);
        var writes := [r1, FailedRun(r1)];
        && file == Some(Cut(old(file.value), writes, budget))
        && out == CutOutcome(writes, budget, Done)
    {
      var rec := new RunRecord(file.value);
      rec.RefuseAgent(step.id, error, now);
      var ok, left := Write(rec, budget);
      if !ok { return Rejected(StoreFailed); }
      out := MarkFailed(left);
    }

    method ResumeAgentGenerated(step: Step, view: RequestView, input: ResumeInput, budget: nat) returns (out: Outcome)
      requires file.Some?
      modifies this`file
      ensures var r := old(file.value);
        var writes := AgentWrites(r, step, view, input);
        && file == Some(Cut(r, writes, budget))
        && out == CutOutcome(writes, budget,
                    if AgentRefusal(view) then Done
                    else if input.agent == LookupFailed then Rejected(AgentLookupFailed)
                    else if input.agent == AgentStatus("completed") then TransitionOutcome(step, input.conditions)
                    else Done)
    {
      if AgentRefusal(view) {
        out := RefuseAgentStep(step, FailureText(view.message, "human denied: " + view.kind), input.now, budget);
        return;
      }
      match input.agent {
        case NoHook => return Done;
        case LookupFailed => return Rejected(AgentLookupFailed);
        case AgentStatus(status) =>
          if status == "completed" {
            var rec := new RunRecord(file.value);
            rec.FinishAgent(step.id, input.now);
            var ok, left := Write(rec, budget);
            if !ok { return Rejected(StoreFailed); }
            out := Transition(step, input.conditions, left);
          } else if status == "failed" {
            out := RefuseAgentStep(step, "agent run failed after human response", input.now, budget);
          } else {
            return Done;
          }
      }
    }

    method Resume(input: ResumeInput, budget: nat) returns (out: Outcome)
      modifies this`file
      ensures old(file).None? ==> file == None
      ensures old(file).None? ==> out == Rejected(if Blank(input.request) then BlankRequestId else RunNotFound)
      ensures old(file).Some? ==>
        var r := old(file.value);
        var writes := ResumeWrites(def, r, input);
        && file == Some(Cut(r, writes, budget))
        && out == CutOutcome(writes, budget, ResumeOutcome(def, r, input))
    {
      if Blank(input.request) { return Rejected(BlankRequestId); }
      if file.None? { return Rejected(RunNotFound); }
      var r := file.value;
      if r.status != RunWaitingHuman { return Done; }
      if r.current == "" { return Rejected(NoCurrentStep); }
      if r.current !in r.steps { return Rejected(NotInRunState); }
      if input.request !in r.steps[r.current].requests { return Rejected(NotLinked); }
      if input.view.None? { return Rejected(ResolverFailed); }
      var view := input.view.value;
      if !view.resolved { return Rejected(StillPending); }
      var step := StepById(def, r.current);
      if step.None? { return Rejected(CurrentStepNotFound); }
      if view.source == SOURCE_AGENT_REQUEST {
        out := ResumeAgentGenerated(step.value, view, input, budget);
      } else {
        out := ResumeExplicitApproval(step.value, view, input, budget);
      }
    }
  }
}
