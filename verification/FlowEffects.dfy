/** What one operation of the kernel means for the run it works on: approvals, retries
    and branches (flow/kernel.go, flow/kernel_resume.go). */
module FlowEffects {
  import opened Common
  import opened Text
  import opened FlowDefinition
  import opened FlowRun
  import opened FlowKernel
  import opened FlowInvariant

  // ----- Approvals -----

  /** The resume answers the approval the run waits for. */
  predicate Answers(def: Definition, r: Run, input: ResumeInput) {
    && !Blank(input.request) && r.status == RunWaitingHuman && ResumeRefusal(def, r, input).None?
    && input.view.value.source != SOURCE_AGENT_REQUEST
  }

  /** All other recorded steps are as before; at most the new current step is added. */
  predicate OthersKept(r: Run, r1: Run, id: string) {
    && (forall x | x in r.steps && x != id :: x in r1.steps && r1.steps[x] == r.steps[x])
    && (forall x | x in r1.steps && x !in r.steps && x != id :: x == r1.current && r1.steps[x].status == StepPending)
  }

  /** The paused step `id` is answered: the signal is its only output, its requests are
      gone, nothing is pending, and no other recorded step changed. */
  predicate Answered(r: Run, r1: Run, id: string, slot: string, signal: string) {
    var s := StateOf(r1, id);
    && id in r1.steps
    && r1.status != RunWaitingHuman && r1.pending == []
    && s.outputs == map[slot := signal] && s.requests == [] && s.attempts == StateOf(r, id).attempts
    && (s.status == StepCompleted || (s.status == StepFailed && r1.status in {RunFailed, RunCanceled}))
    && OthersKept(r, r1, id)
  }

  /** An answered approval takes its step out of the pause for good, however many of the
      writes after the first are lost. */
  lemma ApprovalTakesEffect(def: Definition, r: Run, input: ResumeInput, budget: nat)
    requires AfterWrite(def, r) && Answers(def, r, input) && budget > 0
    ensures StepById(def, r.current).Some?
    ensures var step := StepById(def, r.current).value;
      var r1 := Apply(def, r, DoResume(input, budget));
      Answered(r, r1, r.current, SlotFor(step), SignalFor(input.view.value.kind, step))
  {
    hide AfterWrite, Answers, AdvanceWrites, ResumeWrites, RemoveNamed, Answered, ApprovalWrites;
    hide StepById, ResumeRefusal;
    AnsweredApproval(def, r, input);
    ApprovalAnswers(r, StepById(def, r.current).value, input.view.value, input);
  }

  lemma AnsweredApproval(def: Definition, r: Run, input: ResumeInput)
    requires AfterWrite(def, r) && Answers(def, r, input)
    ensures StepById(def, r.current).Some? && input.view.Some?
    ensures ResumeWrites(def, r, input) == ApprovalWrites(r, StepById(def, r.current).value, input.view.value, input)
    ensures RemoveNamed(r.pending, StateOf(r, r.current).requests) == []
  {
    hide SoundStep, ApprovalWrites, AgentWrites, PendingFor, RemoveNamed;
    PendingCleared(StateOf(r, r.current).requests);
  }

  lemma ApprovalAnswers(r: Run, step: Step, view: RequestView, input: ResumeInput)
    requires r.current == step.id && RemoveNamed(r.pending, StateOf(r, step.id).requests) == []
    ensures var writes := ApprovalWrites(r, step, view, input);
      && |writes| == 2
      && Answered(r, writes[0], step.id, SlotFor(step), SignalFor(view.kind, step))
      && Answered(r, writes[1], step.id, SlotFor(step), SignalFor(view.kind, step))
  {
    hide SlotFor, SignalFor, HasBranchFor, FailureText, Answered;
    var slot, signal := SlotFor(step), SignalFor(view.kind, step);
    var r1 := Approved(r, step.id, slot, signal, input.now);
    ApprovedAnswers(r, step.id, slot, signal, input.now);
    CanceledAnswers(r, r1, step.id, slot, signal, FailureText(view.message, "flow canceled by human: " + view.kind));
    TransitionAnswers(r, r1, step, slot, signal, input.conditions);
    hide Approved, CanceledRun, TransitionWrites;
  }

  lemma ApprovedAnswers(r: Run, id: string, slot: string, signal: string, now: int)
    requires RemoveNamed(r.pending, StateOf(r, id).requests) == []
    ensures var r1 := Approved(r, id, slot, signal, now);
      Answered(r, r1, id, slot, signal) && r1.current == r.current && StateOf(r1, id).status == StepCompleted
  {
  }

  lemma CanceledAnswers(r: Run, r1: Run, id: string, slot: string, signal: string, error: string)
    requires Answered(r, r1, id, slot, signal) && r1.current == r.current == id
    ensures Answered(r, CanceledRun(r1, id, error), id, slot, signal)
  {
    assert RemoveNamed([], []) == [];
  }

  lemma TransitionAnswers(r: Run, r1: Run, step: Step, slot: string, signal: string, conditions: string -> Verdict)
    requires Answered(r, r1, step.id, slot, signal) && r1.current == r.current == step.id
    requires StateOf(r1, step.id).status == StepCompleted
    ensures var writes := TransitionWrites(r1, step, conditions);
      |writes| == 1 && Answered(r, writes[0], step.id, slot, signal)
  {
    FailedAnswers(r, r1, step.id, slot, signal);
    MovedAnswers(r, r1, step.id, slot, signal);
    hide ResolveNext, Answered, TransitionFailed, Entered;
  }

  lemma FailedAnswers(r: Run, r1: Run, id: string, slot: string, signal: string)
    requires Answered(r, r1, id, slot, signal) && r1.current == r.current == id
    ensures forall reason :: Answered(r, TransitionFailed(r1, id, reason), id, slot, signal)
  {
  }

  lemma MovedAnswers(r: Run, r1: Run, id: string, slot: string, signal: string)
    requires Answered(r, r1, id, slot, signal) && r1.current == r.current == id
    requires StateOf(r1, id).status == StepCompleted
    ensures Answered(r, CompletedRun(r1), id, slot, signal)
    ensures forall next :: Answered(r, Entered(r1, next), id, slot, signal)
  {
    assert forall x | x in r1.steps && x !in r.steps && x != id :: x == r1.current;
  }

  // ----- Branches -----

  /** The first branch in declaration order whose condition holds decides; a branch that
      cannot be evaluated before that is an error. */
  predicate Decides(branches: seq<Branch>, conditions: string -> Verdict, i: nat) {
    && i < |branches|
    && conditions(branches[i].when) == Match
    && forall j | 0 <= j < i :: conditions(branches[j].when) == NoMatch
  }

  lemma {:induction false} FirstMatchExactly(branches: seq<Branch>, conditions: string -> Verdict, next: string)
    requires next != ""
    ensures FirstMatch(branches, conditions) == Goto(next) <==>
      exists i: nat :: Decides(branches, conditions, i) && branches[i].next == next
  {
    if branches != [] {
      var rest := branches[1..];
      FirstMatchExactly(rest, conditions, next);
      if i: nat :| Decides(branches, conditions, i) && branches[i].next == next {
        if i > 0 { assert Decides(rest, conditions, i - 1) && rest[i - 1].next == next; }
      }
      if conditions(branches[0].when) == NoMatch {
        if i: nat :| Decides(rest, conditions, i) && rest[i].next == next {
          assert Decides(branches, conditions, i + 1) && branches[i + 1].next == next;
        }
      } else if conditions(branches[0].when) == Match && branches[0].next == next {
        assert Decides(branches, conditions, 0);
      }
    }
  }

  /** Declared branches are exhaustive: a completed step none of whose branches applies
      fails the run, and `on_success` is not consulted. */
  lemma BranchesExhaustive(r: Run, step: Step, conditions: string -> Verdict)
    requires step.branches != []
    requires forall i: nat | Decides(step.branches, conditions, i) :: step.branches[i].next == ""
    ensures var writes := TransitionWrites(r, step, conditions);
      |writes| == 1 && writes[0].status == RunFailed && writes[0].current == r.current
      && StateOf(writes[0], step.id).status == StepFailed
  {
    var n := FirstMatch(step.branches, conditions);
    if n.Goto? && n.id != "" { FirstMatchExactly(step.branches, conditions, n.id); }
  }

  // ----- Retries -----

  /** An execution that fails, all of whose writes succeed. */
  predicate Fails(op: Op) {
    op.DoAdvance? && EffectiveResult(op.advance).status == ExecFailed && op.budget >= 3
  }

  /** The run is about to hand the declared step to the executor for attempt `n + 1`. */
  predicate Ready(def: Definition, r: Run, step: Step, n: nat) {
    && AfterWrite(def, r) && (r.status == RunRunning || r.status == RunPending)
    && StepById(def, r.current) == Some(step) && step.id in r.steps
    && StateOf(r, step.id).status == StepPending && StateOf(r, step.id).startedAt.None?
    && StateOf(r, step.id).attempts == n
  }

  /** One failed attempt: while a policy allows more attempts the step is made ready
      again, otherwise it is left failed and the run goes where failure leads. */
  lemma OneFailure(def: Definition, r: Run, step: Step, op: Op, n: nat)
    requires Closed(def) && Ready(def, r, step, n) && Fails(op)
    ensures var r1 := Apply(def, r, op);
      if step.retry.Some? && n + 1 < MaxAttempts(step) then Ready(def, r1, step, n + 1)
      else Exhausted(r1, step)
  {
    hide Closed, AfterWrite, AdvanceWrites, ResumeWrites, FailedResult, FailureWrites, FailureRoute, Exhausted;
    OpKeeps(def, r, op);
    FailureWritten(def, r, step, op.advance, n);
    var r2 := FailedResult(r, step, op.advance);
    FailureFollows(r2, step, n);
    assert Apply(def, r, op) == FailureWrites(r2, step)[0];
  }

  /** What the last write makes of a recorded failure. */
  lemma FailureFollows(r: Run, step: Step, n: nat)
    requires r.current == step.id && step.id in r.steps
    requires r.steps[step.id].status == StepFailed && r.steps[step.id].attempts == n + 1
    ensures |FailureWrites(r, step)| == 1
    ensures var w := FailureWrites(r, step)[0];
      if step.retry.Some? && n + 1 < MaxAttempts(step) then
        && w.status == RunRunning && w.current == step.id && step.id in w.steps
        && w.steps[step.id].status == StepPending && w.steps[step.id].startedAt.None?
        && w.steps[step.id].attempts == n + 1
      else Exhausted(w, step)
  {
    hide MaxAttempts, FailureRoute;
  }

  /** The run once the failed result is recorded. */
  function FailedResult(r: Run, step: Step, input: AdvanceInput): Run {
    match MarkedRunning(r, step.id, input.now)
    case None => r
    case Some(r1) => ResultApplied(r1, step.id, EffectiveResult(input), input.now)
  }

  lemma FailureWritten(def: Definition, r: Run, step: Step, input: AdvanceInput, n: nat)
    requires Ready(def, r, step, n) && EffectiveResult(input).status == ExecFailed
    ensures var r2 := FailedResult(r, step, input);
      && |AdvanceWrites(def, r, input)| == 3 && |FailureWrites(r2, step)| == 1
      && AdvanceWrites(def, r, input)[2] == FailureWrites(r2, step)[0]
      && r2.current == step.id && r2.status == r.status && step.id in r2.steps
      && r2.steps[step.id].status == StepFailed && r2.steps[step.id].attempts == n + 1
  {
    hide SoundStep, PendingFor, FailureRoute;
    var r1 := MarkedRunning(r, step.id, input.now);
    assert r1.Some?;
    assert AdvanceWrites(def, r, input) == ExecutionWrites(r, step, input);
    hide AdvanceWrites, FailureWrites;
    var r2 := FailedResult(r, step, input);
    assert SettleWrites(r2, step, input.conditions) == FailureWrites(r2, step);
    FailureFollows(r2, step, n);
  }

  predicate Exhausted(r: Run, step: Step) {
    && StateOf(r, step.id).status == StepFailed
    && if FailureRoute(step) == "" then r.status == RunFailed && r.current == step.id
       else r.status == RunRunning && r.current == FailureRoute(step)
  }

  /** A step that keeps failing is executed exactly `max_attempts` times (once without a
      policy) before its failure takes effect. */
  lemma {:induction false} FailsExactly(def: Definition, r: Run, step: Step, ops: seq<Op>, n: nat)
    requires Closed(def) && Ready(def, r, step, n) && forall i | 0 <= i < |ops| :: Fails(ops[i])
    requires 0 < |ops|
    ensures step.retry.Some? && n + |ops| < MaxAttempts(step) ==> Ready(def, RunOps(def, r, ops), step, n + |ops|)
    ensures (if step.retry.Some? then n + |ops| == MaxAttempts(step) else |ops| == 1) ==>
      Exhausted(RunOps(def, r, ops), step)
    decreases |ops|
  {
    OneFailure(def, r, step, ops[0], n);
    hide Ready, Exhausted, Closed, Apply;
    var r1 := Apply(def, r, ops[0]);
    assert RunOps(def, r, ops) == RunOps(def, r1, ops[1..]);
    if |ops| == 1 {
      assert RunOps(def, r1, ops[1..]) == r1;
    } else if step.retry.Some? && n + 1 < MaxAttempts(step) {
      FailsExactly(def, r1, step, ops[1..], n + 1);
    }
  }
}
