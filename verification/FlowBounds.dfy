/** How often a flow run may hand a step to the executor. */
module FlowBounds {
  import opened Common
  import opened Text
  import opened FlowDefinition
  import opened FlowRun
  import opened FlowKernel
  import opened FlowInvariant

  // ----- The log of executions -----

  predicate HandsOver(def: Definition, r: Run, op: Op) {
    op.DoAdvance? && Executes(def, r) && op.budget > 0
  }

  /** The step this operation gives to the executor. */
  function Handed(def: Definition, r: Run, op: Op): seq<string> {
    if HandsOver(def, r, op) then [r.current] else []
  }

  /** The execution whose result never reached the run file. */
  function Lost(def: Definition, r: Run, op: Op): seq<string> {
    if HandsOver(def, r, op) && op.budget == 1 then [r.current] else []
  }

  function AllHanded(def: Definition, r: Run, ops: seq<Op>): seq<string>
    decreases |ops|
  {
    if ops == [] then [] else Handed(def, r, ops[0]) + AllHanded(def, Apply(def, r, ops[0]), ops[1..])
  }

  function AllLost(def: Definition, r: Run, ops: seq<Op>): seq<string>
    decreases |ops|
  {
    if ops == [] then [] else Lost(def, r, ops[0]) + AllLost(def, Apply(def, r, ops[0]), ops[1..])
  }

  // ----- Attempts account for executions -----

  /** Attempts whose result is on record. */
  function Recorded(r: Run, id: string): int {
    var s := StateOf(r, id);
    if s.status == StepRunning then s.attempts - 1 else s.attempts
  }

  predicate SameRecord(a: Run, b: Run, id: string) {
    Recorded(a, id) == Recorded(b, id)
  }

  predicate AllSame(r: Run, writes: seq<Run>, id: string) {
    forall i | 0 <= i < |writes| :: SameRecord(r, writes[i], id)
  }

  lemma TransitionRecords(r: Run, step: Step, conditions: string -> Verdict, id: string)
    requires StateOf(r, step.id).status == StepCompleted
    ensures AllSame(r, TransitionWrites(r, step, conditions), id)
  {
  }

  lemma FailureRecords(r: Run, step: Step, id: string)
    requires StateOf(r, step.id).status == StepFailed
    ensures AllSame(r, FailureWrites(r, step), id)
  {
  }

  lemma SettleRecords(r: Run, step: Step, conditions: string -> Verdict, id: string)
    ensures AllSame(r, SettleWrites(r, step, conditions), id)
  {
    match StateOf(r, step.id).status {
      case StepFailed => FailureRecords(r, step, id);
      case StepCompleted => TransitionRecords(r, step, conditions, id);
      case _ =>
    }
  }

  lemma ApprovalRecords(r: Run, step: Step, view: RequestView, input: ResumeInput, id: string)
    requires StateOf(r, step.id).status == StepWaitingHuman
    ensures AllSame(r, ApprovalWrites(r, step, view, input), id)
  {
    var r1 := Approved(r, step.id, SlotFor(step), SignalFor(view.kind, step), input.now);
    TransitionRecords(r1, step, input.conditions, id);
  }

  lemma AgentRecords(r: Run, step: Step, view: RequestView, input: ResumeInput, id: string)
    requires StateOf(r, step.id).status == StepWaitingHuman
    ensures AllSame(r, AgentWrites(r, step, view, input), id)
  {
    hide TransitionWrites;
    var r1 := AgentFinished(r, step.id, input.now);
    TransitionRecords(r1, step, input.conditions, id);
  }

  lemma ResumeRecords(def: Definition, r: Run, input: ResumeInput, id: string)
    requires AfterWrite(def, r)
    ensures AllSame(r, ResumeWrites(def, r, input), id)
  {
    if !Blank(input.request) && r.status == RunWaitingHuman && ResumeRefusal(def, r, input).None? {
      var step := StepById(def, r.current).value;
      var view := input.view.value;
      if view.source == SOURCE_AGENT_REQUEST {
        AgentRecords(r, step, view, input, id);
      } else {
        ApprovalRecords(r, step, view, input, id);
      }
    }
  }

  /** An execution adds one recorded attempt unless its result is lost. */
  lemma ExecutionRecords(def: Definition, r: Run, step: Step, input: AdvanceInput, done: nat, id: string)
    requires Working(def, r, step) && 0 < done
    requires StateOf(r, step.id).status !in {StepCompleted, StepFailed, StepWaitingHuman}
    ensures Recorded(Cut(r, ExecutionWrites(r, step, input), done), id)
      == Recorded(r, id) + if id == step.id && done > 1 then 1 else 0
  {
    if step.id in r.steps { assert SoundStep(def, r, step.id); }
    var r1 := MarkedRunning(r, step.id, input.now).value;
    var r2 := ResultApplied(r1, step.id, EffectiveResult(input), input.now);
    SettleRecords(r2, step, input.conditions, id);
  }

  lemma {:induction false} OpRecords(def: Definition, r: Run, op: Op, id: string)
    requires AfterWrite(def, r)
    ensures Recorded(Apply(def, r, op), id)
      == Recorded(r, id) + Count(Handed(def, r, op), id) - Count(Lost(def, r, op), id)
  {
    hide SoundStep, ExecutionWrites, ResumeWrites;
    match op {
      case DoResume(input, _) => ResumeRecords(def, r, input, id);
      case DoAdvance(input, budget) =>
        if HandsOver(def, r, op) {
          ExecutionRecords(def, r, StepById(def, r.current).value, input, budget, id);
        } else {
          IdleRecords(def, r, input, budget, id);
        }
    }
  }

  lemma IdleRecords(def: Definition, r: Run, input: AdvanceInput, budget: nat, id: string)
    requires AfterWrite(def, r) && !(Executes(def, r) && budget > 0)
    ensures SameRecord(r, Cut(r, AdvanceWrites(def, r, input), budget), id)
  {
    hide SoundStep, PendingFor, ExecutionWrites, TransitionWrites;
    if budget > 0 && StepById(def, r.current).Some? && StateOf(r, r.current).status == StepCompleted {
      TransitionRecords(r, StepById(def, r.current).value, input.conditions, id);
    }
  }

  /** The exact account: executions are the recorded attempts plus the lost results. */
  lemma {:induction false} ExecutionsAccounted(def: Definition, r: Run, ops: seq<Op>, id: string)
    requires Closed(def) && AfterWrite(def, r)
    ensures Count(AllHanded(def, r, ops), id)
      == Recorded(RunOps(def, r, ops), id) - Recorded(r, id) + Count(AllLost(def, r, ops), id)
    decreases |ops|
  {
    if ops != [] {
      OpRecords(def, r, ops[0], id);
      OpKeeps(def, r, ops[0]);
      ExecutionsAccounted(def, Apply(def, r, ops[0]), ops[1..], id);
    }
  }

  lemma RecordedBounded(def: Definition, r: Run, step: Step)
    requires AfterWrite(def, r) && StepById(def, step.id) == Some(step)
    ensures Recorded(r, step.id) <= MaxAttempts(step)
  {
    if step.id in r.steps { assert SoundStep(def, r, step.id); }
  }

  /** Bounded work: over any sequence of operations, on cyclic graphs too, a step is
      executed at most `max_attempts` times, or once without a policy that allows more,
      plus once per lost result. */
  lemma StepExecutionsBounded(def: Definition, start: string, written: nat, ops: seq<Op>, step: Step)
    requires Closed(def) && StepById(def, start).Some? && !Blank(start) && 1 <= written
    requires StepById(def, step.id) == Some(step)
    ensures var r := StartedRun(start, written);
      Count(AllHanded(def, r, ops), step.id) <=
      (if step.retry.Some? && step.retry.value.maxAttempts > 1 then step.retry.value.maxAttempts else 1)
      + Count(AllLost(def, r, ops), step.id)
  {
    var r := StartedRun(start, written);
    FirstWrites(def, start);
    ExecutionsAccounted(def, r, ops, step.id);
    RunsStaySound(def, r, ops);
    RecordedBounded(def, RunOps(def, r, ops), step);
  }

  // ----- Total work -----

  function TotalAttempts(steps: seq<Step>): nat {
    if steps == [] then 0
    else
      (if steps[0].retry.Some? && steps[0].retry.value.maxAttempts > 1 then steps[0].retry.value.maxAttempts else 1)
      + TotalAttempts(steps[1..])
  }

  function TotalCount(steps: seq<Step>, log: multiset<string>): nat {
    if steps == [] then 0 else log[steps[0].id] + TotalCount(steps[1..], log)
  }

  lemma {:induction false} CountWithout(steps: seq<Step>, log: multiset<string>, x: string)
    requires forall i | 0 <= i < |steps| :: steps[i].id != x
    ensures TotalCount(steps, log) == TotalCount(steps, log[x := 0])
  {
    if steps != [] {
      CountWithout(steps[1..], log, x);
    }
  }

  /** A log that names declared steps only has as many entries as its counts add up to. */
  lemma {:induction false} LogSize(steps: seq<Step>, log: multiset<string>)
    requires UniqueSteps(steps)
    requires forall x | x in log :: exists i | 0 <= i < |steps| :: steps[i].id == x
    ensures |log| == TotalCount(steps, log)
    decreases |steps|
  {
    if steps == [] {
      assert forall x :: x !in log;
      assert log == multiset{};
    } else {
      var rest := log[steps[0].id := 0];
      forall x | x in rest ensures exists i | 0 <= i < |steps[1..]| :: steps[1..][i].id == x {
        assert x in log;
        var i :| 0 <= i < |steps| && steps[i].id == x;
        assert steps[1..][i - 1].id == x;
      }
      LogSize(steps[1..], rest);
      CountWithout(steps[1..], log, steps[0].id);
    }
  }

  lemma {:induction false} HandedDeclared(def: Definition, r: Run, ops: seq<Op>)
    ensures forall x | x in AllHanded(def, r, ops) :: StepById(def, x).Some?
    ensures forall x | x in AllLost(def, r, ops) :: StepById(def, x).Some?
    decreases |ops|
  {
    if ops != [] {
      HandedDeclared(def, Apply(def, r, ops[0]), ops[1..]);
    }
  }

  lemma DeclaredIndexed(steps: seq<Step>, log: seq<string>)
    requires forall x | x in log :: FindStep(steps, x).Some?
    ensures forall x | x in multiset(log) :: exists i | 0 <= i < |steps| :: steps[i].id == x
  {
    forall x | x in multiset(log) ensures exists i | 0 <= i < |steps| :: steps[i].id == x {
      assert x in log;
      assert FindStep(steps, x).Some?;
    }
  }

  lemma {:induction false} CountsAddUp(steps: seq<Step>, handed: multiset<string>, lost: multiset<string>)
    requires forall i | 0 <= i < |steps| :: handed[steps[i].id] <= MaxAttempts(steps[i]) + lost[steps[i].id]
    ensures TotalCount(steps, handed) <= TotalAttempts(steps) + TotalCount(steps, lost)
  {
    if steps != [] {
      CountsAddUp(steps[1..], handed, lost);
    }
  }

  lemma {:induction false} FindUnique(steps: seq<Step>, i: nat)
    requires UniqueSteps(steps) && i < |steps|
    ensures FindStep(steps, steps[i].id) == Some(steps[i])
    decreases |steps|
  {
    if i > 0 {
      assert steps[1..][i - 1] == steps[i];
      FindUnique(steps[1..], i - 1);
    }
  }

  /** All executions of a run together: the sum over the declared steps, plus one per
      lost result. */
  lemma TotalExecutionsBounded(def: Definition, start: string, written: nat, ops: seq<Op>)
    requires Closed(def) && UniqueSteps(def.steps)
    requires StepById(def, start).Some? && !Blank(start) && 1 <= written
    ensures var r := StartedRun(start, written);
      |AllHanded(def, r, ops)| <= TotalAttempts(def.steps) + |AllLost(def, r, ops)|
  {
    hide AllHanded, AllLost, Closed, TotalAttempts, UniqueSteps;
    var r := StartedRun(start, written);
    var handed, lost := AllHanded(def, r, ops), AllLost(def, r, ops);
    HandedDeclared(def, r, ops);
    DeclaredIndexed(def.steps, handed);
    DeclaredIndexed(def.steps, lost);
    LogSize(def.steps, multiset(handed));
    LogSize(def.steps, multiset(lost));
    forall i | 0 <= i < |def.steps|
      ensures multiset(handed)[def.steps[i].id] <= MaxAttempts(def.steps[i]) + multiset(lost)[def.steps[i].id]
    {
      FindUnique(def.steps, i);
      StepExecutionsBounded(def, start, written, ops, def.steps[i]);
    }
    CountsAddUp(def.steps, multiset(handed), multiset(lost));
  }

  // ----- Settled steps are never run again -----

  /** The step stays settled and keeps the outputs it recorded. */
  predicate StaysSettled(r: Run, w: Run, id: string) {
    Settled(StateOf(w, id)) && StateOf(w, id).outputs == StateOf(r, id).outputs
  }

  predicate KeepsSettled(r: Run, writes: seq<Run>, id: string) {
    forall i | 0 <= i < |writes| :: StaysSettled(r, writes[i], id)
  }

  lemma SettleKeepsSettled(r: Run, step: Step, conditions: string -> Verdict, id: string)
    requires Settled(StateOf(r, id)) && (step.id == id ==> StateOf(r, id).status == StepCompleted)
    ensures KeepsSettled(r, SettleWrites(r, step, conditions), id)
  {
  }

  lemma AgentKeepsSettled(r: Run, step: Step, view: RequestView, input: ResumeInput, id: string)
    requires step.id != id && Settled(StateOf(r, id))
    ensures KeepsSettled(r, AgentWrites(r, step, view, input), id)
  {
  }

  lemma ApprovalKeepsSettled(r: Run, step: Step, view: RequestView, input: ResumeInput, id: string)
    requires step.id != id && Settled(StateOf(r, id))
    ensures KeepsSettled(r, ApprovalWrites(r, step, view, input), id)
  {
  }

  /** No write of a resume unsettles a step other than the one that waits. */
  lemma ResumeKeepsSettled(def: Definition, r: Run, input: ResumeInput, id: string)
    requires r.current != id && Settled(StateOf(r, id))
    ensures KeepsSettled(r, ResumeWrites(def, r, input), id)
  {
    if ResumeWrites(def, r, input) != [] {
      var step := StepById(def, r.current).value;
      AgentKeepsSettled(r, step, input.view.value, input, id);
      ApprovalKeepsSettled(r, step, input.view.value, input, id);
    }
  }

  lemma AdvanceKeepsSettled(def: Definition, r: Run, input: AdvanceInput, id: string)
    requires Settled(StateOf(r, id))
    ensures KeepsSettled(r, AdvanceWrites(def, r, input), id)
    ensures Executes(def, r) ==> r.current != id
  {
    if Executes(def, r) {
      var step := StepById(def, r.current).value;
      var r1 := MarkedRunning(r, step.id, input.now);
      if r1.Some? {
        var r2 := ResultApplied(r1.value, step.id, EffectiveResult(input), input.now);
        SettleKeepsSettled(r2, step, input.conditions, id);
      }
      assert AdvanceWrites(def, r, input) == ExecutionWrites(r, step, input);
      hide AdvanceWrites, SettleWrites;
    }
  }

  lemma OpKeepsSettled(def: Definition, r: Run, op: Op, id: string)
    requires AfterWrite(def, r) && Settled(StateOf(r, id))
    ensures StaysSettled(r, Apply(def, r, op), id)
    ensures id !in Handed(def, r, op)
  {
    hide SoundStep, PendingFor, Executes, ResumeRefusal;
    match op {
      case DoResume(input, budget) =>
        if r.status == RunWaitingHuman {
          ResumeKeepsSettled(def, r, input, id);
          hide AfterWrite;
        }
        hide AdvanceWrites;
        CutSettled(r, ResumeWrites(def, r, input), budget, id);
      case DoAdvance(input, budget) =>
        hide AfterWrite, ResumeWrites, AdvanceWrites;
        AdvanceKeepsSettled(def, r, input, id);
        CutSettled(r, AdvanceWrites(def, r, input), budget, id);
    }
  }

  lemma CutSettled(r: Run, writes: seq<Run>, budget: nat, id: string)
    requires Settled(StateOf(r, id)) && KeepsSettled(r, writes, id)
    ensures StaysSettled(r, Cut(r, writes, budget), id)
  {
    hide Settled;
  }

  /** A step recorded completed or failed, between operations or after a crash, is never
      handed to the executor again and keeps its outputs, an approval's signal among
      them. */
  lemma {:induction false} SettledNeverRunsAgain(def: Definition, r: Run, ops: seq<Op>, id: string)
    requires Closed(def) && AfterWrite(def, r) && Settled(StateOf(r, id))
    ensures id !in AllHanded(def, r, ops)
    ensures StaysSettled(r, RunOps(def, r, ops), id)
    decreases |ops|
  {
    if ops != [] {
      OpKeepsSettled(def, r, ops[0], id);
      OpKeeps(def, r, ops[0]);
      SettledNeverRunsAgain(def, Apply(def, r, ops[0]), ops[1..], id);
    }
  }

  // ----- A cancellation is two writes -----

  /** An approval answered "cancel" on a step without a branch for it ends the run as
      canceled exactly when both its writes reach the disk; cut in between, the next
      Advance leaves the step by its ordinary transition instead. */
  lemma CancelNeedsBothWrites(def: Definition, r: Run, step: Step, view: RequestView, input: ResumeInput, budget: nat,
                              next: AdvanceInput)
    requires StepById(def, r.current) == Some(step) && !Blank(r.current) && r.status == RunWaitingHuman
    requires SignalFor(view.kind, step) == "cancel" && !HasBranchFor(step, "cancel")
    ensures Cut(r, ApprovalWrites(r, step, view, input), budget).status == RunCanceled <==> budget >= 2
    ensures var r1 := Cut(r, ApprovalWrites(r, step, view, input), 1);
      && AdvanceWrites(def, r1, next) == TransitionWrites(r1, step, next.conditions)
      && Cut(r1, AdvanceWrites(def, r1, next), 1).status != RunCanceled
  {
    var r1 := Approved(r, step.id, SlotFor(step), "cancel", input.now);
    var r2 := CanceledRun(r1, step.id, FailureText(view.message, "flow canceled by human: " + view.kind));
    assert ApprovalWrites(r, step, view, input) == [r1, r2];
  }
}
