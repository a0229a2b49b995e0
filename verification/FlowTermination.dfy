/** When a flow run comes to rest: a bound on everything that ever happens to a run whose
    success transitions form no cycle, and runs that go round a cycle for ever
    (flow/kernel.go). */
module FlowTermination {
  import opened Common
  import opened Text
  import opened FlowDefinition
  import opened FlowRun
  import opened FlowKernel
  import opened FlowInvariant
  import opened FlowBounds
  import opened FlowStranding

  /** Completing `a` can lead to `b` under some outcome of the conditions. */
  ghost predicate SuccessEdge(def: Definition, a: string, b: string) {
    && b != "" && StepById(def, a).Some?
    && exists conditions: string -> Verdict :: ResolveNext(StepById(def, a).value, conditions) == Goto(b)
  }

  /** The success transitions form no cycle: each lowers the rank. */
  ghost predicate Ranked(def: Definition, rank: string -> nat, top: nat) {
    && (forall a :: rank(a) <= top)
    && (forall a, b | SuccessEdge(def, a, b) :: rank(b) < rank(a))
  }

  /** No operation of the run is cut and each changes it. */
  predicate AllChange(def: Definition, r: Run, ops: seq<Op>)
    decreases |ops|
  {
    ops == [] ||
    (Uncut(def, r, ops[0]) && Apply(def, r, ops[0]) != r && AllChange(def, Apply(def, r, ops[0]), ops[1..]))
  }

  // ----- Every change is paid for by an execution -----

  /** What may still happen before the next execution. */
  function Charge(r: Run, rank: string -> nat, top: nat): nat {
    if Over(r.status) then 0 else 1 + rank(r.current) + if r.status == RunWaitingHuman then top + 1 else 0
  }

  /** What so many executions can pay for. */
  function Paid(executions: nat, top: nat): nat {
    executions * (2 * (top + 1))
  }

  lemma TransitionCharged(def: Definition, r: Run, step: Step, conditions: string -> Verdict,
      rank: string -> nat, top: nat)
    requires Ranked(def, rank, top) && StepById(def, r.current) == Some(step)
    ensures var writes := TransitionWrites(r, step, conditions);
      && |writes| == 1
      && (r.status == RunRunning || r.status == RunPending ==>
            Charge(writes[0], rank, top) < 1 + rank(r.current) && writes[0].status != RunWaitingHuman)
  {
    var n := ResolveNext(step, conditions);
    if n.Goto? && n.id != "" { assert SuccessEdge(def, r.current, n.id); }
    hide ResolveNext;
  }

  lemma AnyCharge(r: Run, rank: string -> nat, top: nat)
    requires rank(r.current) <= top
    ensures Charge(r, rank, top) <= 2 * (top + 1)
  {
  }

  /** An idle Advance moves along a success edge or ends the run. */
  lemma IdleCharged(def: Definition, r: Run, input: AdvanceInput, budget: nat, rank: string -> nat, top: nat)
    requires AtBoundary(def, r) && Ranked(def, rank, top) && !Executes(def, r)
    requires Cut(r, AdvanceWrites(def, r, input), budget) != r
    ensures Charge(Cut(r, AdvanceWrites(def, r, input), budget), rank, top) < Charge(r, rank, top)
  {
    hide SoundStep, PendingFor;
    assert !Blank(r.current) && StepById(def, r.current).Some?;
    var step := StepById(def, r.current).value;
    TransitionCharged(def, r, step, input.conditions, rank, top);
    hide Ranked, TransitionWrites;
    assert StateOf(r, r.current).status == StepCompleted;
  }

  /** No write of a resume leaves the run waiting. */
  lemma ResumeLeaves(def: Definition, r: Run, input: ResumeInput, budget: nat)
    requires AfterWrite(def, r) && Cut(r, ResumeWrites(def, r, input), budget) != r
    ensures r.status == RunWaitingHuman
    ensures Cut(r, ResumeWrites(def, r, input), budget).status != RunWaitingHuman
  {
    hide SoundStep, PendingFor, AgentWrites, ApprovalWrites;
    var step, view := StepById(def, r.current).value, input.view.value;
    if view.source == SOURCE_AGENT_REQUEST {
      AgentLeaves(r, step, view, input);
    } else {
      ApprovalLeaves(r, step, view, input);
    }
  }

  predicate NoneWaits(writes: seq<Run>) {
    forall i | 0 <= i < |writes| :: writes[i].status != RunWaitingHuman
  }

  lemma TransitionLeaves(r: Run, step: Step, conditions: string -> Verdict)
    requires r.status == RunRunning
    ensures NoneWaits(TransitionWrites(r, step, conditions))
  {
    hide ResolveNext;
  }

  lemma AgentLeaves(r: Run, step: Step, view: RequestView, input: ResumeInput)
    ensures NoneWaits(AgentWrites(r, step, view, input))
  {
    TransitionLeaves(AgentFinished(r, step.id, input.now), step, input.conditions);
    hide TransitionWrites, FailureText;
  }

  lemma ApprovalLeaves(r: Run, step: Step, view: RequestView, input: ResumeInput)
    ensures NoneWaits(ApprovalWrites(r, step, view, input))
  {
    hide SlotFor, SignalFor, HasBranchFor, FailureText;
    var r1 := Approved(r, step.id, SlotFor(step), SignalFor(view.kind, step), input.now);
    TransitionLeaves(r1, step, input.conditions);
    hide TransitionWrites;
  }

  lemma OpCharged(def: Definition, r: Run, op: Op, rank: string -> nat, top: nat)
    requires Closed(def) && AtBoundary(def, r) && Ranked(def, rank, top)
    requires Uncut(def, r, op) && Apply(def, r, op) != r
    ensures 1 + Charge(Apply(def, r, op), rank, top) <= Paid(|Handed(def, r, op)|, top) + Charge(r, rank, top)
  {
    var r1 := Apply(def, r, op);
    assert rank(r1.current) <= top && rank(r.current) <= top;
    match op {
      case DoAdvance(input, budget) =>
        if Executes(def, r) {
          ExecutionUncut(def, r, input, budget);
          AnyCharge(r1, rank, top);
          assert Charge(r, rank, top) >= 1 && Paid(1, top) == 2 * (top + 1);
        } else {
          IdleCharged(def, r, input, budget, rank, top);
          hide Ranked, AdvanceWrites, ResumeWrites, AtBoundary;
        }
      case DoResume(input, budget) =>
        hide SoundStep, PendingFor, Ranked, AdvanceWrites;
        ResumeLeaves(def, r, input, budget);
        hide ResumeWrites, AtBoundary;
    }
  }

  lemma ExecutionUncut(def: Definition, r: Run, input: AdvanceInput, budget: nat)
    requires AtBoundary(def, r) && Executes(def, r) && Uncut(def, r, DoAdvance(input, budget))
    ensures |Handed(def, r, DoAdvance(input, budget))| == 1 && Lost(def, r, DoAdvance(input, budget)) == []
  {
    hide SoundStep, PendingFor, SettleWrites;
    assert |AdvanceWrites(def, r, input)| >= 2;
  }

  lemma {:induction false} RunCharged(def: Definition, r: Run, ops: seq<Op>, rank: string -> nat, top: nat)
    requires Closed(def) && AtBoundary(def, r) && Ranked(def, rank, top) && AllChange(def, r, ops)
    ensures |ops| <= Paid(|AllHanded(def, r, ops)|, top) + Charge(r, rank, top)
    ensures AllLost(def, r, ops) == []
    decreases |ops|
  {
    hide Ranked, Closed, Charge, Apply, Handed, Lost, Uncut, Paid, AfterWrite;
    if ops != [] {
      var r1 := Apply(def, r, ops[0]);
      OpCharged(def, r, ops[0], rank, top);
      NothingLost(def, r, ops[0]);
      UncutSettles(def, r, ops[0]);
      HandedFirst(def, r, ops);
      hide AtBoundary, AllHanded, AllLost;
      RunCharged(def, r1, ops[1..], rank, top);
      PaidTogether(|Handed(def, r, ops[0])|, |AllHanded(def, r1, ops[1..])|, top);
    }
  }

  lemma PaidTogether(one: nat, rest: nat, top: nat)
    ensures Paid(one + rest, top) == Paid(one, top) + Paid(rest, top)
  {
  }

  lemma HandedFirst(def: Definition, r: Run, ops: seq<Op>)
    requires ops != []
    ensures var r1 := Apply(def, r, ops[0]);
      && |AllHanded(def, r, ops)| == |Handed(def, r, ops[0])| + |AllHanded(def, r1, ops[1..])|
      && AllLost(def, r, ops) == Lost(def, r, ops[0]) + AllLost(def, r1, ops[1..])
  {
    hide Handed, Lost, Apply;
  }

  lemma UncutSettles(def: Definition, r: Run, op: Op)
    requires Closed(def) && AtBoundary(def, r) && Uncut(def, r, op)
    ensures AtBoundary(def, Apply(def, r, op))
  {
    OpKeeps(def, r, op);
  }

  lemma NothingLost(def: Definition, r: Run, op: Op)
    requires AtBoundary(def, r) && Uncut(def, r, op)
    ensures Lost(def, r, op) == []
  {
    if op.DoAdvance? && Executes(def, r) {
      ExecutionUncut(def, r, op.advance, op.budget);
    }
    hide AtBoundary, Executes;
  }

  /** How often anything can happen to a run over these steps. */
  function Horizon(def: Definition, top: nat): nat {
    Paid(TotalAttempts(def.steps), top) + 1 + top
  }

  /** Over a definition whose success transitions form no cycle (failure routes may), at
      most `Horizon` operations ever change a run, human pauses included. */
  lemma ChangesBounded(def: Definition, start: string, ops: seq<Op>, rank: string -> nat, top: nat)
    requires Closed(def) && UniqueSteps(def.steps) && StepById(def, start).Some? && !Blank(start)
    requires Ranked(def, rank, top) && AllChange(def, StartedRun(start, 2), ops)
    ensures |ops| <= Horizon(def, top)
  {
    hide AllHanded, AllLost, TotalAttempts, AllChange, Ranked, Closed, AtBoundary, Paid, Charge, UniqueSteps;
    hide StartWrites, AfterWrite, StepById, Blank;
    var r := StartedRun(start, 2);
    hide StartedRun;
    StartCharged(def, start, rank, top);
    RunCharged(def, r, ops, rank, top);
    TotalExecutionsBounded(def, start, 2, ops);
    var n, m := |AllHanded(def, r, ops)|, TotalAttempts(def.steps);
    PaidTogether(n, m - n, top);
  }

  lemma StartCharged(def: Definition, start: string, rank: string -> nat, top: nat)
    requires StepById(def, start).Some? && !Blank(start) && Ranked(def, rank, top)
    ensures AtBoundary(def, StartedRun(start, 2)) && Charge(StartedRun(start, 2), rank, top) <= 1 + top
  {
    FirstWrites(def, start);
    hide AtBoundary, AfterWrite;
    assert StartedRun(start, 2) == StartWrites(start)[1];
    assert rank(start) <= top;
  }

  // ----- So the run comes to rest -----

  /** Nothing an Advance can do: over, waiting for a human, or stranded. */
  predicate AtRest(r: Run) {
    Over(r.status) || r.status == RunWaitingHuman || Stranded(r)
  }

  predicate IsAdvance(op: Op) {
    op.DoAdvance?
  }

  lemma AtRestExactly(def: Definition, r: Run, op: Op, rank: string -> nat, top: nat)
    requires AtBoundary(def, r) && Ranked(def, rank, top) && IsAdvance(op) && Uncut(def, r, op)
    ensures Apply(def, r, op) == r <==> AtRest(r)
  {
    hide PendingFor;
    if !AtRest(r) {
      assert StepById(def, r.current).Some? && !Blank(r.current);
      var step := StepById(def, r.current).value;
      if Executes(def, r) {
        assert SoundStep(def, r, r.current);
        ExecutionChanges(def, r, step, op.advance, op.budget);
      } else {
        TransitionCharged(def, r, step, op.advance.conditions, rank, top);
        hide Ranked, SoundStep, TransitionWrites;
      }
    } else {
      hide Ranked, SoundStep;
    }
  }

  /** An uncut execution is recorded. */
  lemma ExecutionChanges(def: Definition, r: Run, step: Step, input: AdvanceInput, budget: nat)
    requires AtBoundary(def, r) && Executes(def, r) && StepById(def, r.current) == Some(step)
    requires Uncut(def, r, DoAdvance(input, budget))
    ensures Apply(def, r, DoAdvance(input, budget)) != r
  {
    var op := DoAdvance(input, budget);
    ExecutionUncut(def, r, input, budget);
    OpRecords(def, r, op, r.current);
    hide AtBoundary, Apply, Uncut, Executes;
  }

  lemma {:induction false} RestStays(def: Definition, r: Run, ops: seq<Op>, rank: string -> nat, top: nat)
    requires Closed(def) && AtBoundary(def, r) && Ranked(def, rank, top) && AtRest(r)
    requires NoneCut(def, r, ops) && forall op | op in ops :: IsAdvance(op)
    ensures RunOps(def, r, ops) == r
    decreases |ops|
  {
    if ops != [] {
      AtRestExactly(def, r, ops[0], rank, top);
      hide AtBoundary, Ranked, AtRest, Closed, Apply, Uncut;
      RestStays(def, r, ops[1..], rank, top);
    }
  }

  lemma {:induction false} RestsOrChanges(def: Definition, r: Run, ops: seq<Op>, rank: string -> nat, top: nat)
    requires Closed(def) && AtBoundary(def, r) && Ranked(def, rank, top)
    requires NoneCut(def, r, ops) && forall op | op in ops :: IsAdvance(op)
    ensures AtRest(RunOps(def, r, ops)) || AllChange(def, r, ops)
    decreases |ops|
  {
    if ops != [] {
      AtRestExactly(def, r, ops[0], rank, top);
      OpKeeps(def, r, ops[0]);
      if AtRest(r) {
        RestStays(def, r, ops, rank, top);
      } else {
        hide AtBoundary, Ranked, AtRest, Closed, Apply, Uncut;
        RestsOrChanges(def, Apply(def, r, ops[0]), ops[1..], rank, top);
      }
    }
  }

  /** More uncut Advances than the horizon bring such a run to rest, whatever the executor
      and the conditions answer. */
  lemma AdvancingEnds(def: Definition, start: string, ops: seq<Op>, rank: string -> nat, top: nat)
    requires Closed(def) && UniqueSteps(def.steps) && StepById(def, start).Some? && !Blank(start)
    requires Ranked(def, rank, top) && |ops| > Horizon(def, top)
    requires NoneCut(def, StartedRun(start, 2), ops) && forall op | op in ops :: IsAdvance(op)
    ensures AtRest(RunOps(def, StartedRun(start, 2), ops))
  {
    FirstWrites(def, start);
    hide AtBoundary, Ranked, Closed, AtRest, AllChange, NoneCut, UniqueSteps, RunOps, Horizon;
    RestsOrChanges(def, StartedRun(start, 2), ops, rank, top);
    if AllChange(def, StartedRun(start, 2), ops) { ChangesBounded(def, start, ops, rank, top); }
  }

  // ----- The rank is needed: round a cycle of success transitions -----

  /** The run is running, nothing in it ever failed or waits, and its current step is
      ready or completed. */
  predicate Clean(def: Definition, r: Run) {
    && r.status == RunRunning && r.pending == [] && r.current in r.steps
    && !Blank(r.current) && StepById(def, r.current).Some?
    && forall id | id in r.steps ::
         r.steps[id].status == StepCompleted || (id == r.current && r.steps[id].status == StepPending)
  }

  ghost predicate SuccessWalk(def: Definition, walk: seq<string>) {
    forall i | 0 <= i < |walk| - 1 :: SuccessEdge(def, walk[i], walk[i + 1])
  }

  lemma SuccessTarget(def: Definition, a: string, b: string)
    requires Closed(def) && SuccessEdge(def, a, b)
    ensures StepById(def, b).Some? && !Blank(b)
  {
    var step := StepById(def, a).value;
    var conditions: string -> Verdict :| ResolveNext(step, conditions) == Goto(b);
    ResolvedIsTarget(step, conditions);
    assert Edge(def, a, b);
  }

  /** One uncut Advance follows any success edge: it executes a ready step, and passes a
      completed one without executing it. */
  lemma FollowEdge(def: Definition, r: Run, b: string) returns (op: Op)
    requires Closed(def) && Clean(def, r) && SuccessEdge(def, r.current, b)
    ensures IsAdvance(op) && Uncut(def, r, op)
    ensures Clean(def, Apply(def, r, op)) && Apply(def, r, op).current == b
  {
    SuccessTarget(def, r.current, b);
    var step := StepById(def, r.current).value;
    var conditions: string -> Verdict :| ResolveNext(step, conditions) == Goto(b);
    var input := AdvanceInput(ExecResult(ExecCompleted, "", None, None, ""), None, conditions, 0);
    op := DoAdvance(input, 3);
    EdgeFollowed(def, r, step, input, b);
    hide ResolveNext, Closed, SuccessEdge, Blank, Clean, AdvanceWrites, ResumeWrites;
  }

  lemma EdgeFollowed(def: Definition, r: Run, step: Step, input: AdvanceInput, b: string)
    requires Clean(def, r) && StepById(def, r.current) == Some(step)
    requires input.execError.None? && input.result == ExecResult(ExecCompleted, "", None, None, "")
    requires ResolveNext(step, input.conditions) == Goto(b) && b != "" && StepById(def, b).Some? && !Blank(b)
    ensures var writes := AdvanceWrites(def, r, input);
      1 <= |writes| <= 3 && Clean(def, writes[|writes| - 1]) && writes[|writes| - 1].current == b
  {
    hide ResolveNext, Blank;
    if StateOf(r, r.current).status == StepPending {
      assert AdvanceWrites(def, r, input) == ExecutionWrites(r, step, input);
      hide AdvanceWrites;
      ReadyExecuted(def, r, step, input, b);
    } else {
      assert AdvanceWrites(def, r, input) == TransitionWrites(r, step, input.conditions);
      hide AdvanceWrites;
      CompletedLeft(def, r, step, input.conditions, b);
    }
  }

  /** Leaving a completed current step for `b`. */
  lemma CompletedLeft(def: Definition, r: Run, step: Step, conditions: string -> Verdict, b: string)
    requires Clean(def, r) && StateOf(r, r.current).status == StepCompleted
    requires ResolveNext(step, conditions) == Goto(b) && b != "" && StepById(def, b).Some? && !Blank(b)
    ensures TransitionWrites(r, step, conditions) == [Entered(r, b)]
    ensures Clean(def, Entered(r, b)) && Entered(r, b).current == b
  {
    hide ResolveNext, StepById, Blank;
  }

  lemma ReadyExecuted(def: Definition, r: Run, step: Step, input: AdvanceInput, b: string)
    requires Clean(def, r) && StateOf(r, r.current).status == StepPending && StepById(def, r.current) == Some(step)
    requires input.execError.None? && input.result == ExecResult(ExecCompleted, "", None, None, "")
    requires ResolveNext(step, input.conditions) == Goto(b) && b != "" && StepById(def, b).Some? && !Blank(b)
    ensures var writes := ExecutionWrites(r, step, input);
      |writes| == 3 && Clean(def, writes[2]) && writes[2].current == b
  {
    hide ResolveNext, Blank;
    var r1 := MarkedRunning(r, step.id, input.now).value;
    var r2 := ResultApplied(r1, step.id, input.result, input.now);
    assert Clean(def, r2) && StateOf(r2, r2.current).status == StepCompleted;
    assert ExecutionWrites(r, step, input) == [r1, r2] + SettleWrites(r2, step, input.conditions);
    assert SettleWrites(r2, step, input.conditions) == TransitionWrites(r2, step, input.conditions);
    hide MarkedRunning, ResultApplied, ExecutionWrites, SettleWrites, StepById;
    CompletedLeft(def, r2, step, input.conditions, b);
  }

  /** However long a walk of success edges is, a run can be advanced along it. */
  lemma {:induction false} WalkFollowed(def: Definition, r: Run, walk: seq<string>) returns (ops: seq<Op>)
    requires Closed(def) && Clean(def, r) && walk != [] && walk[0] == r.current && SuccessWalk(def, walk)
    ensures |ops| == |walk| - 1 && NoneCut(def, r, ops) && forall op | op in ops :: IsAdvance(op)
    ensures Clean(def, RunOps(def, r, ops)) && RunOps(def, r, ops).current == walk[|walk| - 1]
    decreases |walk|
  {
    ops := [];
    if |walk| > 1 {
      assert SuccessEdge(def, walk[0], walk[1]);
      var op := FollowEdge(def, r, walk[1]);
      assert forall i | 0 <= i < |walk[1..]| :: walk[1..][i] == walk[i + 1];
      hide Clean, Closed, SuccessEdge, Apply, Uncut;
      var rest := WalkFollowed(def, Apply(def, r, op), walk[1..]);
      ops := [op] + rest;
      assert ops[1..] == rest;
    }
  }

  /** `n` times round the cycle after the lead. */
  function Unrolled(lead: seq<string>, cycle: seq<string>, n: nat): (walk: seq<string>)
    requires cycle != []
    ensures |walk| == |lead| + n * (|cycle| - 1)
  {
    if n == 0 then lead else Unrolled(lead, cycle, n - 1) + cycle[1..]
  }

  /** A walk that comes to the first step of a cycle. */
  ghost predicate LeadsInto(def: Definition, lead: seq<string>, cycle: seq<string>) {
    && SuccessWalk(def, lead) && SuccessWalk(def, cycle)
    && lead != [] && |cycle| >= 2 && lead[|lead| - 1] == cycle[0] == cycle[|cycle| - 1]
  }

  lemma {:induction false} UnrolledWalks(def: Definition, lead: seq<string>, cycle: seq<string>, n: nat)
    requires LeadsInto(def, lead, cycle)
    ensures SuccessWalk(def, Unrolled(lead, cycle, n))
    ensures var walk := Unrolled(lead, cycle, n); walk != [] && walk[0] == lead[0] && walk[|walk| - 1] == cycle[0]
  {
    if n > 0 {
      UnrolledWalks(def, lead, cycle, n - 1);
      hide SuccessEdge;
      var before := Unrolled(lead, cycle, n - 1);
      var walk := before + cycle[1..];
      forall i | 0 <= i < |walk| - 1 ensures SuccessEdge(def, walk[i], walk[i + 1]) {
        if i >= |before| - 1 {
          var j := i - (|before| - 1);
          assert SuccessEdge(def, cycle[j], cycle[j + 1]);
        }
      }
    }
  }

  /** A cycle of success transitions within reach of the start lets a run advance as often
      as one likes, every write made, without ever coming to rest. */
  lemma CycleNeverRests(def: Definition, start: string, lead: seq<string>, cycle: seq<string>, n: nat)
    returns (ops: seq<Op>)
    requires Closed(def) && StepById(def, start).Some? && !Blank(start)
    requires LeadsInto(def, lead, cycle) && lead[0] == start
    ensures |ops| >= n && forall op | op in ops :: IsAdvance(op)
    ensures NoneCut(def, StartedRun(start, 2), ops) && !AtRest(RunOps(def, StartedRun(start, 2), ops))
  {
    var walk := Unrolled(lead, cycle, n);
    UnrolledWalks(def, lead, cycle, n);
    assert Clean(def, StartedRun(start, 2));
    AtLeast(n, |cycle| - 1);
    hide SuccessWalk, LeadsInto, Closed, Unrolled;
    ops := WalkFollowed(def, StartedRun(start, 2), walk);
    CleanMoves(def, RunOps(def, StartedRun(start, 2), ops));
  }

  lemma AtLeast(n: nat, k: nat)
    requires k >= 1
    ensures n * k >= n
  {
  }

  lemma CleanMoves(def: Definition, r: Run)
    requires Clean(def, r)
    ensures !AtRest(r)
  {
  }

  // ----- Such a definition -----

  function WorkStep(id: string, next: string): Step {
    Step(id, "o", Executor("worker", "", "", []), [], next, "", [], None)
  }

  /** Two steps that lead to each other. */
  const LOOP := Definition(
    SCHEMA_VERSION, "f", "f", "1", [WorkStep("a", "b"), WorkStep("b", "a")], [Entrypoint("e", "a")])

  /** An accepted definition whose run goes round for ever: after two executions Advance
      only passes completed steps. */
  lemma LoopNeverRests(n: nat) returns (ops: seq<Op>)
    ensures ValidDefinition(LOOP) && ResolveEntrypoint(LOOP, "e") == Some(WorkStep("a", "b"))
    ensures |ops| >= n && forall op | op in ops :: IsAdvance(op)
    ensures NoneCut(LOOP, StartedRun("a", 2), ops) && !AtRest(RunOps(LOOP, StartedRun("a", 2), ops))
  {
    LoopIsValid();
    ValidIsClosed(LOOP);
    var conditions: string -> Verdict := (_: string) => NoMatch;
    assert ResolveNext(WorkStep("a", "b"), conditions) == Goto("b");
    assert ResolveNext(WorkStep("b", "a"), conditions) == Goto("a");
    assert SuccessEdge(LOOP, "a", "b") && SuccessEdge(LOOP, "b", "a");
    hide ValidDefinition, Closed, ResolveEntrypoint, SuccessEdge, AtRest, RunOps, NoneCut, StartedRun;
    var lead, cycle := ["a"], ["a", "b", "a"];
    assert SuccessWalk(LOOP, lead) && SuccessWalk(LOOP, cycle);
    ops := CycleNeverRests(LOOP, "a", lead, cycle, n);
  }

  lemma LoopIsValid()
    ensures ValidDefinition(LOOP) && ResolveEntrypoint(LOOP, "e") == Some(WorkStep("a", "b"))
    ensures StepById(LOOP, "a") == Some(WorkStep("a", "b")) && StepById(LOOP, "b") == Some(WorkStep("b", "a"))
    ensures !Blank("a")
  {
    NotBlank("a");
    NotBlank("b");
    NotBlank("e");
    NotBlank("f");
    NotBlank("o");
    NotBlank("1");
    NotBlank("worker");
    assert Blank("");
    var ids := StepIds(LOOP.steps);
    assert LOOP.steps[0].id in ids && LOOP.steps[1].id in ids;
    hide Blank, Trim;
  }
}
