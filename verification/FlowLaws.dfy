/** What each operation of the kernel leaves in the run file, field by field
    (flow/kernel.go, flow/kernel_resume.go, flow/store.go). */
module FlowLaws {
  import opened Common
  import opened Text
  import opened FlowDefinition
  import opened FlowRun
  import opened FlowKernel
  import opened FlowInvariant
  import opened FlowEffects
  import opened FlowTermination

  // ----- Where a completed step leads -----

  /** The run moved on to `next`: a step not recorded yet is pending, all else is kept. */
  predicate MovedOn(r: Run, r1: Run, next: string) {
    && r1.current == next && r1.status == r.status && r1.pending == r.pending
    && next in r1.steps
    && (forall id | id in r.steps :: id in r1.steps && r1.steps[id] == r.steps[id])
    && (forall id | id in r1.steps && id !in r.steps ::
          id == next && r1.steps[id] == StepState(StepPending, None, None, 0, "", [], map[], ""))
  }

  /** The run is completed and has no current step. */
  predicate RanOut(r: Run, r1: Run) {
    r1.status == RunCompleted && r1.current == "" && r1.steps == r.steps && r1.pending == r.pending
  }

  /** The run and its current step failed, with a reason. */
  predicate BrokeDown(r: Run, r1: Run, id: string) {
    && r1.status == RunFailed && r1.current == r.current && r1.pending == r.pending
    && id in r1.steps && r1.steps == r.steps[id := r1.steps[id]]
    && r1.steps[id] == StateOf(r, id).(status := StepFailed, error := r1.steps[id].error)
    && (StateOf(r, id).error != "" ==> r1.steps[id].error == StateOf(r, id).error)
  }

  /** What completing `step` makes of the run: without branches `on_success` decides, with
      branches the first that applies. */
  ghost predicate Completes(r: Run, r1: Run, step: Step, conditions: string -> Verdict) {
    && (step.branches == [] && step.onSuccess != "" ==> MovedOn(r, r1, step.onSuccess))
    && (step.branches == [] && step.onSuccess == "" ==> RanOut(r, r1))
    && (forall i: nat | Decides(step.branches, conditions, i) && step.branches[i].next != "" ::
          MovedOn(r, r1, step.branches[i].next))
    && (step.branches != []
        && (forall i: nat | Decides(step.branches, conditions, i) :: step.branches[i].next == "") ==>
          BrokeDown(r, r1, step.id))
  }

  lemma TransitionLaw(r: Run, step: Step, conditions: string -> Verdict)
    ensures var writes := TransitionWrites(r, step, conditions);
      |writes| == 1 && Completes(r, writes[0], step, conditions)
  {
    forall i: nat | Decides(step.branches, conditions, i) && step.branches[i].next != ""
      ensures FirstMatch(step.branches, conditions) == Goto(step.branches[i].next)
    {
      FirstMatchExactly(step.branches, conditions, step.branches[i].next);
    }
    var n := FirstMatch(step.branches, conditions);
    if n.Goto? && n.id != "" { FirstMatchExactly(step.branches, conditions, n.id); }
    hide FirstMatch;
  }

  /** Completing `a` can lead to `b`: exactly by `on_success` of a step without branches,
      or by a branch whose condition no earlier branch repeats. */
  lemma SuccessEdgeExactly(def: Definition, a: string, b: string)
    requires StepById(def, a).Some?
    ensures var step := StepById(def, a).value;
      && (step.branches == [] ==> (SuccessEdge(def, a, b) <==> b != "" && b == step.onSuccess))
      && (step.branches != [] ==>
            (SuccessEdge(def, a, b) <==> b != "" && exists i: nat :: Selectable(step.branches, i, b)))
  {
    var step := StepById(def, a).value;
    var never: string -> Verdict := (_: string) => NoMatch;
    assert step.branches == [] ==> ResolveNext(step, never) == Goto(step.onSuccess);
    if step.branches != [] {
      if SuccessEdge(def, a, b) {
        var conditions: string -> Verdict :| ResolveNext(step, conditions) == Goto(b);
        FirstMatchExactly(step.branches, conditions, b);
        var i: nat :| Decides(step.branches, conditions, i) && step.branches[i].next == b;
        assert Selectable(step.branches, i, b);
      }
      if b != "" && exists i: nat :: Selectable(step.branches, i, b) {
        var i: nat :| Selectable(step.branches, i, b);
        var only: string -> Verdict := (w: string) => if w == step.branches[i].when then Match else NoMatch;
        assert Decides(step.branches, only, i);
        FirstMatchExactly(step.branches, only, b);
        assert ResolveNext(step, only) == Goto(b);
      }
    }
  }

  predicate Selectable(branches: seq<Branch>, i: nat, b: string) {
    i < |branches| && branches[i].next == b && forall j | 0 <= j < i :: branches[j].when != branches[i].when
  }

  // ----- Where a failed step leads -----

  /** How often a step may be executed. */
  function Limit(step: Step): nat {
    if step.retry.Some? && step.retry.value.maxAttempts > 1 then step.retry.value.maxAttempts else 1
  }

  /** The step is ready for another attempt. */
  predicate MadeReady(r: Run, r1: Run, id: string) {
    && r1.status == RunRunning && r1.current == r.current && r1.pending == r.pending
    && r1.steps == r.steps[id :=
         StateOf(r, id).(status := StepPending, error := "", startedAt := None, completedAt := None)]
  }

  /** The failure takes effect: `on_exhausted` of a policy that has one, else `on_failure`,
      else the run fails. */
  predicate TookEffect(r: Run, r1: Run, step: Step) {
    if step.retry.Some? && step.retry.value.onExhausted != "" then
      MovedOn(r.(status := RunRunning), r1, step.retry.value.onExhausted)
    else if step.onFailure != "" then MovedOn(r.(status := RunRunning), r1, step.onFailure)
    else r1 == r.(status := RunFailed)
  }

  lemma FailureLaw(r: Run, step: Step)
    ensures var writes := FailureWrites(r, step);
      && |writes| == 1
      && if step.retry.Some? && StateOf(r, step.id).attempts < Limit(step) then MadeReady(r, writes[0], step.id)
         else TookEffect(r, writes[0], step)
  {
  }

  // ----- Advance -----

  /** Advance hands the current step to the executor. */
  predicate Runs(def: Definition, r: Run, step: Step) {
    && (r.status == RunPending || r.status == RunRunning) && StepById(def, r.current) == Some(step)
    && StateOf(r, step.id).status !in {StepCompleted, StepFailed, StepWaitingHuman}
  }

  predicate OnlyStep(r: Run, r1: Run, id: string) {
    && r1.status == r.status && r1.current == r.current && r1.pending == r.pending
    && id in r1.steps && r1.steps == r.steps[id := r1.steps[id]]
  }

  /** The step is started: an attempt is counted unless one is already under way. */
  predicate StartedStep(s: StepState, s1: StepState, now: int) {
    s1 == s.(status := StepRunning, startedAt := Some(now),
             attempts := s.attempts + if s.startedAt.None? then 1 else 0)
  }

  /** The executor's answer is on record. An executor error is a failure; an empty status
      is success; requests and outputs that the answer leaves out are kept. */
  predicate ResultOnRecord(s: StepState, s1: StepState, input: AdvanceInput) {
    && s1.status ==
       (if input.execError.Some? then StepFailed
        else match input.result.status
          case ExecFailed => StepFailed
          case ExecWaitingHuman => StepWaitingHuman
          case _ => StepCompleted)
    && s1.error == Trim(if input.execError.Some? then input.execError.value else input.result.error)
    && s1.agentRun == input.result.agentRun
    && s1.requests == (if input.result.requests.Some? then input.result.requests.value else s.requests)
    && s1.outputs == (if input.result.outputs.Some? then input.result.outputs.value else s.outputs)
    && s1.completedAt == (if s1.status == StepWaitingHuman then s.completedAt else Some(input.now))
    && s1.startedAt == s.startedAt && s1.attempts == s.attempts
  }

  /** The run waits for the requests of the step: each non-blank id once, trimmed. */
  ghost predicate NowWaits(r: Run, r1: Run, id: string) {
    && r1 == r.(status := RunWaitingHuman, pending := r1.pending)
    && Distinct(r1.pending)
    && var requests := StateOf(r, id).requests;
      forall x :: x in r1.pending <==>
        x in r.pending || (x != "" && exists i :: 0 <= i < |requests| && Trim(requests[i]) == x)
  }

  /** An execution, write by write: after the first the step runs, after the second the
      answer is on record, after the third it has taken effect. */
  lemma ExecutionLaw(def: Definition, r: Run, step: Step, input: AdvanceInput)
    requires AfterWrite(def, r) && Runs(def, r, step)
    ensures var r1 := Apply(def, r, DoAdvance(input, 1));
      OnlyStep(r, r1, step.id) && StartedStep(StateOf(r, step.id), r1.steps[step.id], input.now)
    ensures var r1, r2 := Apply(def, r, DoAdvance(input, 1)), Apply(def, r, DoAdvance(input, 2));
      OnlyStep(r, r2, step.id) && step.id in r1.steps && ResultOnRecord(r1.steps[step.id], r2.steps[step.id], input)
    ensures var r2, r3 := Apply(def, r, DoAdvance(input, 2)), Apply(def, r, DoAdvance(input, 3));
      match StateOf(r2, step.id).status
      case StepWaitingHuman => NowWaits(r2, r3, step.id)
      case StepFailed =>
        if step.retry.Some? && StateOf(r2, step.id).attempts < Limit(step) then MadeReady(r2, r3, step.id)
        else TookEffect(r2, r3, step)
      case _ => Completes(r2, r3, step, input.conditions)
    ensures forall budget | budget > 3 :: Apply(def, r, DoAdvance(input, budget)) == Apply(def, r, DoAdvance(input, 3))
  {
    hide AfterWrite, AdvanceWrites, ResumeWrites, ExecutionWrites, TransitionWrites, FailureWrites, Completes;
    hide MadeReady, TookEffect, NowWaits, MarkedRunning, ResultApplied, StartedStep, ResultOnRecord, Paused;
    ExecutionShape(def, r, step, input);
    var r1 := MarkedRunning(r, step.id, input.now).value;
    var r2 := ResultApplied(r1, step.id, EffectiveResult(input), input.now);
    TransitionLaw(r2, step, input.conditions);
    FailureLaw(r2, step);
    PausedLaw(r2, step.id);
    hide OnlyStep;
  }

  lemma PausedLaw(r: Run, id: string)
    ensures r.pending == [] ==> NowWaits(r, Paused(r, StateOf(r, id).requests), id)
  {
    PendingMembers(StateOf(r, id).requests);
    hide AppendUnique, Trim;
  }

  lemma ExecutionShape(def: Definition, r: Run, step: Step, input: AdvanceInput)
    requires AfterWrite(def, r) && Runs(def, r, step)
    ensures MarkedRunning(r, step.id, input.now).Some?
    ensures var r1 := MarkedRunning(r, step.id, input.now).value;
      var r2 := ResultApplied(r1, step.id, EffectiveResult(input), input.now);
      && AdvanceWrites(def, r, input) == [r1, r2] + SettleWrites(r2, step, input.conditions)
      && OnlyStep(r, r1, step.id) && StartedStep(StateOf(r, step.id), r1.steps[step.id], input.now)
      && OnlyStep(r, r2, step.id) && ResultOnRecord(r1.steps[step.id], r2.steps[step.id], input)
      && r2.pending == [] && StateOf(r2, step.id).status in {StepWaitingHuman, StepFailed, StepCompleted}
  {
    hide SoundStep, PendingFor, SettleWrites, Trim;
    assert !Blank(r.current);
    assert AdvanceWrites(def, r, input) == ExecutionWrites(r, step, input);
  }

  /** A completed current step is left without executing anything. */
  lemma CompletedStepLaw(def: Definition, r: Run, step: Step, input: AdvanceInput, budget: nat)
    requires AfterWrite(def, r) && (r.status == RunPending || r.status == RunRunning) && budget > 0
    requires StepById(def, r.current) == Some(step) && StateOf(r, step.id).status == StepCompleted
    ensures Completes(r, Apply(def, r, DoAdvance(input, budget)), step, input.conditions)
  {
    TransitionLaw(r, step, input.conditions);
    hide SoundStep, PendingFor, TransitionWrites, Completes;
    assert AdvanceWrites(def, r, input) == TransitionWrites(r, step, input.conditions);
  }

  /** A half recorded pause is completed. */
  lemma PauseLaw(def: Definition, r: Run, input: AdvanceInput, budget: nat)
    requires AfterWrite(def, r) && (r.status == RunPending || r.status == RunRunning) && budget > 0
    requires StateOf(r, r.current).status == StepWaitingHuman
    ensures NowWaits(r, Apply(def, r, DoAdvance(input, budget)), r.current)
  {
    PausedLaw(r, r.current);
    hide SoundStep, NowWaits, Paused;
    assert r.pending == [] && StepById(def, r.current).Some?;
    assert AdvanceWrites(def, r, input) == [Paused(r, StateOf(r, r.current).requests)];
  }

  /** In every other state Advance writes nothing. */
  lemma IdleLaw(def: Definition, r: Run, input: AdvanceInput, budget: nat)
    requires AfterWrite(def, r)
    requires r.status !in {RunPending, RunRunning} || StateOf(r, r.current).status == StepFailed
    ensures Apply(def, r, DoAdvance(input, budget)) == r
  {
    hide SoundStep, PendingFor;
  }

  /** A step without branches that completes goes to `on_success`, or ends the run; its
      failure edges play no part. */
  lemma UnbranchedStepLeads(def: Definition, r: Run, step: Step, input: AdvanceInput)
    requires AfterWrite(def, r) && Runs(def, r, step) && step.branches == []
    requires input.execError.None? && input.result.status in {ExecCompleted, ExecUnset}
    ensures var r2, r3 := Apply(def, r, DoAdvance(input, 2)), Apply(def, r, DoAdvance(input, 3));
      && StateOf(r3, step.id).status == StepCompleted
      && (step.onSuccess != "" ==>
            && r3.current == step.onSuccess && r3.status == r.status
            && (forall id | id in r2.steps :: id in r3.steps && r3.steps[id] == r2.steps[id])
            && (step.onSuccess !in r2.steps ==> StateOf(r3, step.onSuccess).status == StepPending))
      && (step.onSuccess == "" ==> r3.status == RunCompleted && r3.current == "")
  {
    ExecutionLaw(def, r, step, input);
    hide AfterWrite, Apply, BrokeDown, NowWaits, MadeReady, TookEffect, StartedStep;
  }

  // ----- Retries -----

  /** A step that keeps failing. With a policy of m >= 1 attempts it is executed exactly m
      times, without a policy or with m <= 0 once; then the failure takes effect. */
  lemma RetriesExactly(def: Definition, r: Run, step: Step, ops: seq<Op>, m: nat)
    requires Closed(def) && Ready(def, r, step, 0) && forall i | 0 <= i < |ops| :: Fails(ops[i])
    requires if step.retry.Some? && step.retry.value.maxAttempts >= 1 then m == step.retry.value.maxAttempts else m == 1
    ensures 0 < |ops| < m ==> Ready(def, RunOps(def, r, ops), step, |ops|)
    ensures |ops| == m ==> FailureIn(RunOps(def, r, ops), step)
  {
    assert m == Limit(step);
    hide Ready, Fails, FailureIn, Closed;
    if 0 < |ops| <= m { RetriesFrom(def, r, step, ops, 0); }
  }

  lemma {:induction false} RetriesFrom(def: Definition, r: Run, step: Step, ops: seq<Op>, n: nat)
    requires Closed(def) && Ready(def, r, step, n) && forall i | 0 <= i < |ops| :: Fails(ops[i])
    requires 0 < |ops| && n + |ops| <= Limit(step)
    ensures n + |ops| < Limit(step) ==> Ready(def, RunOps(def, r, ops), step, n + |ops|)
    ensures n + |ops| == Limit(step) ==> FailureIn(RunOps(def, r, ops), step)
    decreases |ops|
  {
    FailsOnce(def, r, step, ops[0], n);
    hide Ready, FailureIn, Closed, Apply, Limit;
    var r1 := Apply(def, r, ops[0]);
    assert RunOps(def, r, ops) == RunOps(def, r1, ops[1..]);
    if |ops| == 1 {
      assert RunOps(def, r1, ops[1..]) == r1;
    } else {
      RetriesFrom(def, r1, step, ops[1..], n + 1);
    }
  }

  /** The step is left failed and the run is where the failure leads. */
  predicate FailureIn(r: Run, step: Step) {
    && StateOf(r, step.id).status == StepFailed
    && if step.retry.Some? && step.retry.value.onExhausted != "" then
         r.status == RunRunning && r.current == step.retry.value.onExhausted
       else if step.onFailure != "" then r.status == RunRunning && r.current == step.onFailure
       else r.status == RunFailed && r.current == step.id
  }

  lemma FailsOnce(def: Definition, r: Run, step: Step, op: Op, n: nat)
    requires Closed(def) && Ready(def, r, step, n) && Fails(op) && n < Limit(step)
    ensures if n + 1 < Limit(step) then Ready(def, Apply(def, r, op), step, n + 1)
            else FailureIn(Apply(def, r, op), step)
  {
    OneFailure(def, r, step, op, n);
    assert MaxAttempts(step) == Limit(step);
    hide Ready, Closed, Apply, MaxAttempts;
  }

  // ----- Approvals -----

  /** The signal an answer of this kind writes. */
  predicate Spells(kind: string, options: seq<string>, signal: string) {
    if kind in options then signal == kind
    else if kind == "approve" || kind == "answer" then signal == "approve"
    else if kind == "deny" then signal == if "reject" in options then "reject" else "deny"
    else signal == kind
  }

  /** The resume brings the answer to a request the paused step is linked to. */
  predicate Brings(def: Definition, r: Run, input: ResumeInput, step: Step) {
    && r.status == RunWaitingHuman && StepById(def, r.current) == Some(step) && r.current in r.steps
    && !Blank(input.request) && input.request in r.steps[r.current].requests
    && input.view.Some? && input.view.value.resolved
  }

  lemma BringsAnswers(def: Definition, r: Run, input: ResumeInput, step: Step)
    requires AfterWrite(def, r)
    ensures Brings(def, r, input, step) && input.view.value.source != SOURCE_AGENT_REQUEST ==> Answers(def, r, input)
    ensures StepById(def, r.current) == Some(step) && Answers(def, r, input) ==> Brings(def, r, input, step)
  {
    hide SoundStep, PendingFor;
  }

  predicate QuotesCancel(step: Step) {
    exists b | b in step.branches :: Contains(b.when, "'cancel'") || Contains(b.when, "\"cancel\"")
  }

  /** The first write of an answered approval. */
  predicate SignalWritten(r: Run, r1: Run, step: Step, kind: string, now: int) {
    var s, s1 := StateOf(r, step.id), StateOf(r1, step.id);
    && r1 == r.(status := RunRunning, pending := [], steps := r.steps[step.id := s1])
    && s1 == s.(status := StepCompleted, outputs := s1.outputs, completedAt := Some(now), requests := [])
    && var slot := if step.slots == [] then "approval_signal" else step.slots[0];
      && slot in s1.outputs && s1.outputs == map[slot := s1.outputs[slot]]
      && Spells(kind, step.executor.options, s1.outputs[slot])
  }

  /** The run is canceled by a human. */
  predicate CanceledBy(r: Run, r1: Run, step: Step, view: RequestView) {
    var s1 := StateOf(r, step.id).(status := StepFailed, requests := [],
      error := if view.message != "" then view.message else "flow canceled by human: " + view.kind);
    r1 == Run(RunCanceled, "", r.steps[step.id := s1], r.pending)
  }

  /** An answered approval, write by write. The signal goes to the first declared slot, else
      to "approval_signal"; "cancel" ends the run as canceled unless a branch quotes it, and
      everything else goes on as a completed step. */
  lemma ApprovalLaw(def: Definition, r: Run, input: ResumeInput, step: Step)
    requires AfterWrite(def, r) && Brings(def, r, input, step) && input.view.value.source != SOURCE_AGENT_REQUEST
    ensures var r1, r2 := Apply(def, r, DoResume(input, 1)), Apply(def, r, DoResume(input, 2));
      && SignalWritten(r, r1, step, input.view.value.kind, input.now)
      && if input.view.value.kind == "cancel" && !QuotesCancel(step) then CanceledBy(r1, r2, step, input.view.value)
         else Completes(r1, r2, step, input.conditions)
    ensures forall budget | budget > 2 :: Apply(def, r, DoResume(input, budget)) == Apply(def, r, DoResume(input, 2))
  {
    BringsAnswers(def, r, input, step);
    AnsweredApproval(def, r, input);
    hide AfterWrite, Brings, Answers, AdvanceWrites, ResumeWrites, RemoveNamed;
    ApprovalShape(r, step, input.view.value, input);
    hide ApprovalWrites, SignalWritten, CanceledBy, Completes;
  }

  lemma ApprovalShape(r: Run, step: Step, view: RequestView, input: ResumeInput)
    requires r.current == step.id && RemoveNamed(r.pending, StateOf(r, step.id).requests) == []
    ensures var writes := ApprovalWrites(r, step, view, input);
      && |writes| == 2 && SignalWritten(r, writes[0], step, view.kind, input.now)
      && if view.kind == "cancel" && !QuotesCancel(step) then CanceledBy(writes[0], writes[1], step, view)
         else Completes(writes[0], writes[1], step, input.conditions)
  {
    var slot, signal := SlotFor(step), SignalFor(view.kind, step);
    var r1 := Approved(r, step.id, slot, signal, input.now);
    SignalSpelled(view.kind, step);
    CancelQuoted(step);
    assert SignalWritten(r, r1, step, view.kind, input.now) by { hide SignalFor, HasBranchFor, FailureText; }
    CanceledShape(r1, step, view);
    TransitionLaw(r1, step, input.conditions);
    hide SignalFor, SlotFor, HasBranchFor, QuotesCancel, Approved, CanceledRun, TransitionWrites;
    hide SignalWritten, CanceledBy;
  }

  lemma CanceledShape(r: Run, step: Step, view: RequestView)
    ensures r.pending == [] ==>
      var error := FailureText(view.message, "flow canceled by human: " + view.kind);
      CanceledBy(r, CanceledRun(r, step.id, error), step, view)
  {
    assert RemoveNamed([], StateOf(r, step.id).requests) == [];
  }

  lemma SignalSpelled(kind: string, step: Step)
    ensures Spells(kind, step.executor.options, SignalFor(kind, step))
    ensures SignalFor(kind, step) == "cancel" <==> kind == "cancel"
  {
  }

  lemma CancelQuoted(step: Step)
    ensures HasBranchFor(step, "cancel") <==> QuotesCancel(step)
  {
    hide Contains;
    assert "'" + "cancel" + "'" == "'cancel'" && "\"" + "cancel" + "\"" == "\"cancel\"";
  }

  /** An approval answer cancels the run exactly if it is "cancel", no branch quotes it, and
      both writes happen. */
  lemma CanceledExactly(def: Definition, r: Run, input: ResumeInput, step: Step, budget: nat)
    requires AfterWrite(def, r) && Brings(def, r, input, step) && input.view.value.source != SOURCE_AGENT_REQUEST
    ensures Apply(def, r, DoResume(input, budget)).status == RunCanceled <==>
      input.view.value.kind == "cancel" && !QuotesCancel(step) && budget >= 2
  {
    hide Apply, AfterWrite, Completes, QuotesCancel, Brings;
    var r1, r2 := Apply(def, r, DoResume(input, 1)), Apply(def, r, DoResume(input, 2));
    ApprovalLaw(def, r, input, step);
    Waits(def, r, input, step);
    hide SignalWritten, CanceledBy;
    WrittenStatus(r, r1, r2, step, input);
    assert budget > 2 ==> Apply(def, r, DoResume(input, budget)) == r2;
  }

  /** The run's status along the two writes of an answered approval. */
  lemma WrittenStatus(r: Run, r1: Run, r2: Run, step: Step, input: ResumeInput)
    requires input.view.Some? && SignalWritten(r, r1, step, input.view.value.kind, input.now)
    requires if input.view.value.kind == "cancel" && !QuotesCancel(step)
             then CanceledBy(r1, r2, step, input.view.value)
             else Completes(r1, r2, step, input.conditions)
    ensures r1.status == RunRunning
    ensures r2.status == RunCanceled <==> input.view.value.kind == "cancel" && !QuotesCancel(step)
  {
    hide Completes, QuotesCancel, Spells;
    if Completes(r1, r2, step, input.conditions) { CompletesUncanceled(r1, r2, step, input.conditions); }
  }

  lemma Waits(def: Definition, r: Run, input: ResumeInput, step: Step)
    requires Brings(def, r, input, step)
    ensures r.status == RunWaitingHuman && input.view.Some?
    ensures Apply(def, r, DoResume(input, 0)) == r
  {
    hide ResumeWrites;
  }

  lemma CompletesUncanceled(r: Run, r1: Run, step: Step, conditions: string -> Verdict)
    requires Completes(r, r1, step, conditions) && r.status != RunCanceled
    ensures r1.status != RunCanceled
  {
    if step.branches != [] && !BrokeDown(r, r1, step.id) {
      var i: nat :| Decides(step.branches, conditions, i) && step.branches[i].next != "";
    }
  }

  // ----- Resumes of agent requests, and the ones that do nothing -----

  /** The paused step ended with this status and error; the run goes on. */
  predicate PauseEnded(r: Run, r1: Run, id: string, status: StepStatus, error: string, now: int) {
    && r1.status == RunRunning && r1.current == r.current && r1.pending == []
    && r1.steps == r.steps[id :=
         StateOf(r, id).(status := status, error := error, completedAt := Some(now), requests := [])]
  }

  /** A denied or canceled agent request fails its step and the run; otherwise the status of
      the agent run decides. */
  lemma AgentLaw(def: Definition, r: Run, input: ResumeInput, step: Step)
    requires AfterWrite(def, r) && Brings(def, r, input, step) && input.view.value.source == SOURCE_AGENT_REQUEST
    ensures var view := input.view.value;
      var s := StateOf(r, step.id);
      var denial := if view.message != "" then view.message else "human denied: " + view.kind;
      var r1, r2 := Apply(def, r, DoResume(input, 1)), Apply(def, r, DoResume(input, 2));
      if view.kind == "deny" || view.kind == "cancel" then
        && PauseEnded(r, r1, step.id, StepFailed, denial, input.now)
        && r2 == r1.(status := RunFailed)
      else if input.agent == AgentStatus("completed") then
        PauseEnded(r, r1, step.id, StepCompleted, s.error, input.now) && Completes(r1, r2, step, input.conditions)
      else if input.agent == AgentStatus("failed") then
        && PauseEnded(r, r1, step.id, StepFailed, "agent run failed after human response", input.now)
        && r2 == r1.(status := RunFailed)
      else r1 == r2 == r
  {
    hide AfterWrite, StepById, ResumeRefusal, RemoveNamed, TransitionWrites, Completes;
    hide ApprovalWrites, AdvanceWrites;
    BringsCleared(def, r, input, step);
    TransitionLaw(AgentFinished(r, step.id, input.now), step, input.conditions);
    hide Brings;
  }

  lemma BringsCleared(def: Definition, r: Run, input: ResumeInput, step: Step)
    requires AfterWrite(def, r) && Brings(def, r, input, step)
    ensures r.current == step.id && step.id in r.steps
    ensures RemoveNamed(r.pending, StateOf(r, step.id).requests) == []
    ensures input.view.value.source == SOURCE_AGENT_REQUEST ==>
      ResumeWrites(def, r, input) == AgentWrites(r, step, input.view.value, input)
  {
    PendingCleared(StateOf(r, step.id).requests);
    hide SoundStep, PendingFor, RemoveNamed, AgentWrites, ApprovalWrites;
  }

  /** A resume that does not bring an answer to the paused step changes nothing. */
  lemma ResumeIdleLaw(def: Definition, r: Run, input: ResumeInput, budget: nat)
    requires StepById(def, r.current).Some? ==> !Brings(def, r, input, StepById(def, r.current).value)
    ensures Apply(def, r, DoResume(input, budget)) == r
  {
    hide AgentWrites, ApprovalWrites, AdvanceWrites;
  }

  // ----- Start -----

  /** A declared entrypoint of an accepted definition starts its step, an undeclared one
      starts nothing. */
  lemma StartLaw(def: Definition, entrypoint: string)
    requires ValidDefinition(def)
    ensures ResolveEntrypoint(def, entrypoint).Some? <==> exists ep :: ep in def.entrypoints && ep.id == entrypoint
    ensures forall ep | ep in def.entrypoints && ep.id == entrypoint ::
      && ResolveEntrypoint(def, entrypoint).Some?
      && var start := ResolveEntrypoint(def, entrypoint).value.id;
        && start == ep.startStep
        && StartWrites(start) == [
             Run(RunPending, start, map[], []),
             Run(RunRunning, start, map[start := StepState(StepPending, None, None, 0, "", [], map[], "")], [])]
  {
    if exists ep :: ep in def.entrypoints && ep.id == entrypoint {
      ValidEntrypointStarts(def, entrypoint);
    }
    forall ep | ep in def.entrypoints && ep.id == entrypoint
      ensures FindEntrypoint(def.entrypoints, entrypoint) == Some(ep)
    {
      var found := FindEntrypoint(def.entrypoints, entrypoint).value;
      var i :| 0 <= i < |def.entrypoints| && def.entrypoints[i] == ep;
      var j :| 0 <= j < |def.entrypoints| && def.entrypoints[j] == found;
    }
    hide FindEntrypoint, ValidDefinition, StepById;
  }

  // ----- What the caller is told -----

  /** The step has branches and none applies with a target. */
  ghost predicate Undecided(step: Step, conditions: string -> Verdict) {
    step.branches != [] && forall i: nat | Decides(step.branches, conditions, i) :: step.branches[i].next == ""
  }

  lemma TransitionTold(step: Step, conditions: string -> Verdict)
    ensures TransitionOutcome(step, conditions) == Done <==> !Undecided(step, conditions)
  {
    var n := FirstMatch(step.branches, conditions);
    if n.Goto? && n.id != "" { FirstMatchExactly(step.branches, conditions, n.id); }
    forall i: nat | Decides(step.branches, conditions, i) && step.branches[i].next != ""
      ensures n == Goto(step.branches[i].next)
    {
      FirstMatchExactly(step.branches, conditions, step.branches[i].next);
    }
    hide FirstMatch;
  }

  /** Advance reports an error exactly if a write is lost, or a completed step has branches
      of which none applies. */
  lemma AdvanceTold(def: Definition, r: Run, input: AdvanceInput, budget: nat)
    requires AfterWrite(def, r)
    ensures var writes := AdvanceWrites(def, r, input);
      CutOutcome(writes, budget, AdvanceOutcome(def, r, input)) == Done <==>
        && Uncut(def, r, DoAdvance(input, budget))
        && ((r.status == RunPending || r.status == RunRunning)
            && (StateOf(r, r.current).status == StepCompleted
                || (StateOf(r, r.current).status !in {StepFailed, StepWaitingHuman}
                    && input.execError.None? && input.result.status in {ExecCompleted, ExecUnset})) ==>
              StepById(def, r.current).Some? && !Undecided(StepById(def, r.current).value, input.conditions))
  {
    hide SoundStep, PendingFor, AdvanceWrites, ResumeWrites;
    if StepById(def, r.current).Some? { TransitionTold(StepById(def, r.current).value, input.conditions); }
    hide TransitionOutcome, Undecided;
  }

  /** Resume reports success exactly if it had nothing to do because the run does not wait,
      or it brought its answer, every write was made and the transition could be decided. */
  lemma ResumeTold(def: Definition, r: Run, input: ResumeInput, budget: nat)
    requires AfterWrite(def, r)
    ensures var writes := ResumeWrites(def, r, input);
      CutOutcome(writes, budget, ResumeOutcome(def, r, input)) == Done <==>
        && Uncut(def, r, DoResume(input, budget)) && !Blank(input.request)
        && (r.status == RunWaitingHuman ==>
              && StepById(def, r.current).Some?
              && var step := StepById(def, r.current).value;
                && Brings(def, r, input, step)
                && var view := input.view.value;
                  if view.source != SOURCE_AGENT_REQUEST then
                    (view.kind == "cancel" && !QuotesCancel(step)) || !Undecided(step, input.conditions)
                  else
                    || view.kind == "deny" || view.kind == "cancel"
                    || (input.agent != LookupFailed
                        && (input.agent == AgentStatus("completed") ==> !Undecided(step, input.conditions))))
  {
    hide SoundStep, PendingFor, AdvanceWrites, ResumeWrites;
    if StepById(def, r.current).Some? {
      var step := StepById(def, r.current).value;
      TransitionTold(step, input.conditions);
      CancelQuoted(step);
      if input.view.Some? { SignalSpelled(input.view.value.kind, step); }
    }
    hide TransitionOutcome, Undecided, SignalFor, HasBranchFor, QuotesCancel;
  }
}
