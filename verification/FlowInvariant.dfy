/** What every flow run keeps: after each single write, at operation boundaries,
    and over whole runs. */
module FlowInvariant {
  import opened Common
  import opened Text
  import opened FlowDefinition
  import opened FlowRun
  import opened FlowKernel

  // ----- The invariants -----

  predicate Known(def: Definition, id: string) {
    id != "" && !Blank(id) && StepById(def, id).Some?
  }

  predicate Settled(s: StepState) {
    s.status == StepCompleted || s.status == StepFailed
  }

  /** A recorded step and its attempt counter. */
  predicate SoundState(step: Step, s: StepState) {
    && s.attempts <= MaxAttempts(step)
    && match s.status
       case StepPending => s.startedAt.None? && s.attempts < MaxAttempts(step)
       case StepRunning => s.startedAt.Some? && 1 <= s.attempts
       case StepWaitingHuman => true
       case StepFailed => true
       case StepCompleted => true
       case _ => false
  }

  predicate SoundStep(def: Definition, r: Run, id: string)
    requires id in r.steps
  {
    && Known(def, id)
    && SoundState(StepById(def, id).value, r.steps[id])
    && (id != r.current ==> Settled(r.steps[id]))
  }

  predicate Ended(status: RunStatus) {
    status == RunCompleted || status == RunCanceled
  }

  /** Holds after every single write, whatever cut the operation short. */
  predicate AfterWrite(def: Definition, r: Run) {
    && r.status != RunWaitingSignal && r.status != RunRecoverable
    && (r.current == "" <==> Ended(r.status))
    && (r.current != "" ==> Known(def, r.current))
    && (r.current != "" && r.current !in r.steps ==> r.steps == map[] && r.status == RunPending)
    && (forall id | id in r.steps :: SoundStep(def, r, id))
    && (r.status == RunFailed ==> StateOf(r, r.current).status == StepFailed)
    && (r.status == RunWaitingHuman ==> StateOf(r, r.current).status == StepWaitingHuman)
    && r.pending == if r.status == RunWaitingHuman then PendingFor(StateOf(r, r.current).requests) else []
  }

  /** Holds between operations none of whose writes was lost: the run waits for a
      human exactly when its current step does, and nothing is left running. */
  predicate AtBoundary(def: Definition, r: Run) {
    && AfterWrite(def, r)
    && (r.current != "" ==> r.current in r.steps)
    && (StateOf(r, r.current).status == StepWaitingHuman <==> r.status == RunWaitingHuman)
    && (forall id | id in r.steps :: r.steps[id].status != StepRunning)
  }

  /** The current step stays, follows a declared edge, or is dropped at the end. */
  predicate Moves(def: Definition, a: Run, b: Run) {
    || b.current == a.current
    || (a.current != "" && b.current != "" && Edge(def, a.current, b.current))
    || (b.current == "" && Ended(b.status))
  }

  /** Every write in the list keeps the invariant and moves along the graph. */
  predicate SoundWrites(def: Definition, r: Run, writes: seq<Run>)
    decreases |writes|
  {
    writes == [] ||
    (AfterWrite(def, writes[0]) && Moves(def, r, writes[0]) && SoundWrites(def, writes[0], writes[1..]))
  }

  lemma SoundCons(def: Definition, r: Run, w: Run, rest: seq<Run>)
    requires AfterWrite(def, w) && Moves(def, r, w) && SoundWrites(def, w, rest)
    ensures SoundWrites(def, r, [w] + rest)
  {
    assert ([w] + rest)[1..] == rest;
  }

  /** The last of a list of sound writes is a boundary state. */
  predicate Settles(def: Definition, r: Run, writes: seq<Run>) {
    writes != [] && SoundWrites(def, r, writes) && AtBoundary(def, writes[|writes| - 1])
  }

  lemma SettlesOne(def: Definition, r: Run, w: Run)
    requires AtBoundary(def, w) && Moves(def, r, w)
    ensures Settles(def, r, [w])
  {
    SoundCons(def, r, w, []);
  }

  lemma SettlesCons(def: Definition, r: Run, w: Run, rest: seq<Run>)
    requires AfterWrite(def, w) && Moves(def, r, w) && Settles(def, w, rest)
    ensures Settles(def, r, [w] + rest)
  {
    SoundCons(def, r, w, rest);
  }

  // ----- One write at a time -----

  /** The run is under way and its current step is the declared `step`. */
  predicate Working(def: Definition, r: Run, step: Step) {
    && AfterWrite(def, r)
    && (r.status == RunPending || r.status == RunRunning)
    && StepById(def, r.current) == Some(step)
  }

  /** `r2` is `r1` with a new sound state for the current step. */
  lemma StateReplaced(def: Definition, r1: Run, r2: Run, step: Step, s: StepState)
    requires AfterWrite(def, r1) && r1.current != "" && StepById(def, r1.current) == Some(step)
    requires r2.steps == r1.steps[r1.current := s] && r2.current == r1.current
    requires SoundState(step, s)
    requires r2.status in {RunPending, RunRunning, RunFailed, RunWaitingHuman}
    requires r2.status == RunFailed ==> s.status == StepFailed
    requires r2.status == RunWaitingHuman ==> s.status == StepWaitingHuman
    requires r2.pending == if r2.status == RunWaitingHuman then PendingFor(s.requests) else []
    ensures AfterWrite(def, r2)
  {
    forall id | id in r2.steps ensures SoundStep(def, r2, id) {
      if id != r1.current { assert SoundStep(def, r1, id); }
    }
    hide SoundStep, SoundState, PendingFor;
  }

  lemma MarkedKeeps(def: Definition, r: Run, step: Step, now: int)
    requires Working(def, r, step)
    requires StateOf(r, step.id).status !in {StepCompleted, StepFailed, StepWaitingHuman}
    ensures MarkedRunning(r, step.id, now).Some?
    ensures Working(def, MarkedRunning(r, step.id, now).value, step)
    ensures StateOf(MarkedRunning(r, step.id, now).value, step.id).status == StepRunning
  {
    if step.id in r.steps { assert SoundStep(def, r, step.id); }
    var r1 := MarkedRunning(r, step.id, now).value;
    StateReplaced(def, r, r1, step, r1.steps[step.id]);
  }

  lemma ResultKeeps(def: Definition, r: Run, step: Step, res: ExecResult, now: int)
    requires Working(def, r, step) && StateOf(r, step.id).status == StepRunning
    ensures Working(def, ResultApplied(r, step.id, res, now), step)
  {
    assert SoundStep(def, r, step.id);
    var r1 := ResultApplied(r, step.id, res, now);
    StateReplaced(def, r, r1, step, r1.steps[step.id]);
  }

  lemma PauseKeeps(def: Definition, r: Run, step: Step)
    requires Working(def, r, step) && StateOf(r, step.id).status == StepWaitingHuman
    ensures AtBoundary(def, Paused(r, StateOf(r, step.id).requests))
  {
    assert SoundStep(def, r, step.id);
    var r1 := Paused(r, StateOf(r, step.id).requests);
    assert r.steps == r.steps[step.id := r.steps[step.id]];
    OthersSettled(def, r);
    StateReplaced(def, r, r1, step, r.steps[step.id]);
    hide AfterWrite, StepById;
  }

  ghost predicate TargetsKnown(def: Definition, step: Step) {
    forall t :: IsTarget(step, t) ==> Known(def, t)
  }

  /** Entering a declared target of the settled current step. */
  lemma EnterKeeps(def: Definition, r: Run, step: Step, next: string)
    requires Known(def, next) && IsTarget(step, next)
    requires Working(def, r, step) && Settled(StateOf(r, step.id))
    ensures AtBoundary(def, Entered(r, next)) && Moves(def, r, Entered(r, next))
    ensures AtBoundary(def, Routed(r, next)) && Moves(def, r, Routed(r, next))
  {
    assert Edge(def, r.current, next);
    assert Moves(def, r, Entered(r, next)) && Moves(def, r, Routed(r, next));
    hide AtBoundary, Working, Edge, Settled, Moves, UnderWay;
    EnteredKeeps(def, r, step, next);
    RoutedKeeps(def, r, next);
    UnderWayBoundary(def, Entered(r, next));
    UnderWayBoundary(def, Routed(r, next));
  }

  /** The current step is ready or settled and the others are settled. */
  predicate UnderWay(def: Definition, r: Run) {
    && (r.status == RunPending || r.status == RunRunning)
    && Known(def, r.current) && r.current in r.steps && r.pending == []
    && forall id | id in r.steps ::
         SoundStep(def, r, id) && (Settled(r.steps[id]) || r.steps[id].status == StepPending)
  }

  lemma UnderWayBoundary(def: Definition, r: Run)
    requires UnderWay(def, r)
    ensures AtBoundary(def, r)
  {
    hide SoundStep;
  }

  lemma EnteredKeeps(def: Definition, r: Run, step: Step, next: string)
    requires Known(def, next) && Working(def, r, step) && Settled(StateOf(r, step.id))
    ensures UnderWay(def, Entered(r, next))
  {
    var r1 := Entered(r, next);
    forall id | id in r1.steps
      ensures SoundStep(def, r1, id) && (Settled(r1.steps[id]) || r1.steps[id].status == StepPending)
    {
      if id in r.steps { assert SoundStep(def, r, id); }
    }
    hide SoundStep, PendingFor, StepById;
  }

  lemma RoutedKeeps(def: Definition, r: Run, next: string)
    requires UnderWay(def, Entered(r, next))
    ensures UnderWay(def, Routed(r, next))
  {
    var r1, r2 := Entered(r, next), Routed(r, next);
    forall id | id in r2.steps ensures SoundStep(def, r2, id) { assert SoundStep(def, r1, id); }
    hide SoundState, Known;
  }

  lemma TransitionFailedKeeps(def: Definition, r: Run, step: Step, reason: string)
    requires Working(def, r, step) && step.id in r.steps
    ensures AtBoundary(def, TransitionFailed(r, step.id, reason))
  {
    assert SoundStep(def, r, step.id);
    var r1 := TransitionFailed(r, step.id, reason);
    OthersSettled(def, r);
    StateReplaced(def, r, r1, step, r1.steps[step.id]);
    hide AfterWrite, StepById;
  }

  lemma CompletedKeeps(def: Definition, r: Run, step: Step)
    requires Working(def, r, step) && Settled(StateOf(r, step.id))
    ensures AtBoundary(def, CompletedRun(r))
  {
    var r1 := CompletedRun(r);
    forall id | id in r1.steps ensures SoundStep(def, r1, id) && Settled(r1.steps[id]) {
      assert SoundStep(def, r, id);
    }
  }

  lemma OthersSettled(def: Definition, r: Run)
    requires AfterWrite(def, r)
    ensures forall id | id in r.steps && id != r.current :: Settled(r.steps[id])
  {
    assert forall id | id in r.steps && id != r.current :: SoundStep(def, r, id);
  }

  lemma RetryKeeps(def: Definition, r: Run, step: Step)
    requires Working(def, r, step) && step.id in r.steps && MayRetry(step, StateOf(r, step.id).attempts)
    ensures AtBoundary(def, RetryScheduled(r, step.id))
  {
    hide SoundStep, PendingFor;
    OthersSettled(def, r);
    var r1 := RetryScheduled(r, step.id);
    StateReplaced(def, r, r1, step, r1.steps[step.id]);
    hide AfterWrite, MayRetry, StepById;
  }

  lemma FailedKeeps(def: Definition, r: Run, step: Step)
    requires Working(def, r, step) && StateOf(r, step.id).status == StepFailed
    ensures AtBoundary(def, FailedRun(r))
  {
    assert SoundStep(def, r, step.id);
    var r1 := FailedRun(r);
    assert r1.steps == r.steps[step.id := r.steps[step.id]];
    OthersSettled(def, r);
    StateReplaced(def, r, r1, step, r.steps[step.id]);
    hide AfterWrite, StepById;
  }

  lemma FirstMatchIsBranch(branches: seq<Branch>, conditions: string -> Verdict)
    ensures var n := FirstMatch(branches, conditions);
      n.Goto? && n.id != "" ==> exists b | b in branches :: b.next == n.id
  {
    if branches != [] && conditions(branches[0].when) == NoMatch {
      FirstMatchIsBranch(branches[1..], conditions);
      var n := FirstMatch(branches[1..], conditions);
      if n.Goto? && n.id != "" {
        var b :| b in branches[1..] && b.next == n.id;
        assert b in branches;
      }
    }
  }

  lemma ResolvedIsTarget(step: Step, conditions: string -> Verdict)
    ensures var n := ResolveNext(step, conditions); n.Goto? && n.id != "" ==> IsTarget(step, n.id)
  {
    FirstMatchIsBranch(step.branches, conditions);
  }

  lemma TransitionKeeps(def: Definition, r: Run, step: Step, conditions: string -> Verdict)
    requires TargetsKnown(def, step)
    requires Working(def, r, step) && StateOf(r, step.id).status == StepCompleted
    ensures Settles(def, r, TransitionWrites(r, step, conditions))
  {
    match ResolveNext(step, conditions) {
      case Unresolvable(reason) =>
        TransitionFailedKeeps(def, r, step, reason);
        SettlesOne(def, r, TransitionFailed(r, step.id, reason));
      case Goto(id) =>
        if id != "" {
          ResolvedIsTarget(step, conditions);
          EnterKeeps(def, r, step, id);
          SettlesOne(def, r, Entered(r, id));
        } else {
          CompletedKeeps(def, r, step);
          SettlesOne(def, r, CompletedRun(r));
        }
    }
  }

  lemma FailureKeeps(def: Definition, r: Run, step: Step)
    requires TargetsKnown(def, step)
    requires Working(def, r, step) && StateOf(r, step.id).status == StepFailed
    ensures Settles(def, r, FailureWrites(r, step))
  {
    if MayRetry(step, StateOf(r, step.id).attempts) {
      RetryKeeps(def, r, step);
      SettlesOne(def, r, RetryScheduled(r, step.id));
    } else if FailureRoute(step) != "" {
      EnterKeeps(def, r, step, FailureRoute(step));
      SettlesOne(def, r, Routed(r, FailureRoute(step)));
    } else {
      FailedKeeps(def, r, step);
      SettlesOne(def, r, FailedRun(r));
    }
  }

  lemma SettleKeeps(def: Definition, r: Run, step: Step, conditions: string -> Verdict)
    requires TargetsKnown(def, step)
    requires Working(def, r, step)
    requires StateOf(r, step.id).status in {StepWaitingHuman, StepFailed, StepCompleted}
    ensures Settles(def, r, SettleWrites(r, step, conditions))
  {
    match StateOf(r, step.id).status {
      case StepWaitingHuman =>
        PauseKeeps(def, r, step);
        SettlesOne(def, r, Paused(r, StateOf(r, step.id).requests));
      case StepFailed => FailureKeeps(def, r, step);
      case StepCompleted => TransitionKeeps(def, r, step, conditions);
      case _ =>
    }
  }

  // ----- Whole operations -----

  lemma FirstWrites(def: Definition, start: string)
    requires StepById(def, start).Some? && !Blank(start)
    ensures AfterWrite(def, StartWrites(start)[0]) && AtBoundary(def, StartWrites(start)[1])
  {
  }

  /** The run after a Start of which the first `written` writes happened. */
  function StartedRun(start: string, written: nat): Run
    requires written >= 1
  {
    StartWrites(start)[Min(written, 2) - 1]
  }

  lemma StartKeeps(def: Definition, entrypoint: string)
    requires ValidDefinition(def) && FindEntrypoint(def.entrypoints, entrypoint).Some?
    ensures ResolveEntrypoint(def, entrypoint).Some?
    ensures var start := ResolveEntrypoint(def, entrypoint).value.id;
      && AfterWrite(def, StartWrites(start)[0])
      && AtBoundary(def, StartWrites(start)[1])
  {
    ValidEntrypointStarts(def, entrypoint);
    FirstWrites(def, ResolveEntrypoint(def, entrypoint).value.id);
  }

  lemma ExecutionKeeps(def: Definition, r: Run, step: Step, input: AdvanceInput)
    requires TargetsKnown(def, step) && Working(def, r, step)
    requires StateOf(r, step.id).status !in {StepCompleted, StepFailed, StepWaitingHuman}
    ensures Settles(def, r, ExecutionWrites(r, step, input))
  {
    hide AfterWrite, Settles, AtBoundary, TargetsKnown, SettleWrites;
    MarkedKeeps(def, r, step, input.now);
    var r1 := MarkedRunning(r, step.id, input.now).value;
    ResultKeeps(def, r1, step, EffectiveResult(input), input.now);
    var r2 := ResultApplied(r1, step.id, EffectiveResult(input), input.now);
    assert StateOf(r2, step.id).status in {StepWaitingHuman, StepFailed, StepCompleted};
    assert Moves(def, r, r1) && Moves(def, r1, r2);
    assert ExecutionWrites(r, step, input) == [r1, r2] + SettleWrites(r2, step, input.conditions);
    hide MarkedRunning, ResultApplied, ExecutionWrites, Moves, StepById;
    SettleKeeps(def, r2, step, input.conditions);
    var rest := SettleWrites(r2, step, input.conditions);
    SettlesCons(def, r1, r2, rest);
    SettlesCons(def, r, r1, [r2] + rest);
    assert [r1] + ([r2] + rest) == [r1, r2] + rest;
  }

  lemma ClosedTargets(def: Definition, id: string)
    requires Closed(def) && StepById(def, id).Some?
    ensures TargetsKnown(def, StepById(def, id).value)
  {
    forall t | IsTarget(StepById(def, id).value, t) ensures Known(def, t) {
      assert Edge(def, id, t);
    }
  }

  /** Advance from any state a crash can leave: each of its writes is sound, its last
      write reaches a boundary state, and it never misses its current step. */
  lemma AdvanceKeeps(def: Definition, r: Run, input: AdvanceInput)
    requires Closed(def) && AfterWrite(def, r)
    ensures var writes := AdvanceWrites(def, r, input);
      if writes == [] then AtBoundary(def, r) else Settles(def, r, writes)
    ensures AdvanceOutcome(def, r, input) != Rejected(CurrentStepNotFound)
  {
    if Over(r.status) || r.status == RunWaitingHuman {
      IdleAtBoundary(def, r);
    } else {
      hide AtBoundary, SoundWrites, Closed, TargetsKnown, ExecutionWrites, TransitionWrites;
      var step := StepById(def, r.current).value;
      ClosedTargets(def, r.current);
      AdvanceWorking(def, r, step, input);
    }
  }

  lemma IdleAtBoundary(def: Definition, r: Run)
    requires AfterWrite(def, r)
    requires Over(r.status) || r.status == RunWaitingHuman || StateOf(r, r.current).status == StepFailed
    ensures AtBoundary(def, r)
  {
    OthersSettled(def, r);
    hide SoundStep, PendingFor, Known;
  }

  lemma AdvanceWorking(def: Definition, r: Run, step: Step, input: AdvanceInput)
    requires TargetsKnown(def, step) && Working(def, r, step)
    ensures var writes := AdvanceWrites(def, r, input);
      (writes == [] && AtBoundary(def, r)) || Settles(def, r, writes)
  {
    hide Settles, AtBoundary, TargetsKnown, ExecutionWrites, TransitionWrites;
    var s := StateOf(r, step.id);
    match s.status {
      case StepCompleted => TransitionKeeps(def, r, step, input.conditions);
      case StepFailed => IdleAtBoundary(def, r);
      case StepWaitingHuman =>
        PauseKeeps(def, r, step);
        assert AtBoundary(def, Paused(r, s.requests));
        SettlesOne(def, r, Paused(r, s.requests));
      case _ => ExecutionKeeps(def, r, step, input);
    }
  }

  /** Leaving the pause by an approval or an agent's end. */
  lemma UnpausedKeeps(def: Definition, r: Run, step: Step, t: StepState)
    requires AfterWrite(def, r) && r.status == RunWaitingHuman
    requires StepById(def, r.current) == Some(step)
    requires Settled(t) && t.attempts == StateOf(r, step.id).attempts
    ensures Working(def, Unpaused(r, step.id, t), step)
    ensures StateOf(Unpaused(r, step.id, t), step.id) == t.(requests := [])
  {
    assert r.current in r.steps;
    assert SoundState(step, t) by { assert SoundStep(def, r, step.id); }
    hide SoundStep, SoundState, Settled, PendingFor, RemoveNamed;
    PendingCleared(StateOf(r, step.id).requests);
    var r1 := Unpaused(r, step.id, t);
    StateReplaced(def, r, r1, step, r1.steps[step.id]);
  }

  lemma CancelKeeps(def: Definition, r: Run, step: Step, error: string)
    requires Working(def, r, step) && Settled(StateOf(r, step.id))
    ensures AtBoundary(def, CanceledRun(r, step.id, error))
  {
    assert SoundStep(def, r, step.id);
    var r1 := CanceledRun(r, step.id, error);
    forall id | id in r1.steps ensures SoundStep(def, r1, id) && Settled(r1.steps[id]) {
      if id in r.steps { assert SoundStep(def, r, id); }
    }
  }

  lemma ApprovalKeeps(def: Definition, r: Run, step: Step, view: RequestView, input: ResumeInput)
    requires TargetsKnown(def, step) && AfterWrite(def, r) && r.status == RunWaitingHuman
    requires StepById(def, r.current) == Some(step)
    ensures Settles(def, r, ApprovalWrites(r, step, view, input))
  {
    var signal := SignalFor(view.kind, step);
    var outputs := map[SlotFor(step) := signal];
    var t := StateOf(r, step.id).(status := StepCompleted, outputs := outputs, completedAt := Some(input.now));
    UnpausedKeeps(def, r, step, t);
    var r1 := Approved(r, step.id, SlotFor(step), signal, input.now);
    if signal == "cancel" && !HasBranchFor(step, "cancel") {
      var error := FailureText(view.message, "flow canceled by human: " + view.kind);
      CancelKeeps(def, r1, step, error);
      SettlesOne(def, r1, CanceledRun(r1, step.id, error));
      SettlesCons(def, r, r1, [CanceledRun(r1, step.id, error)]);
    } else {
      TransitionKeeps(def, r1, step, input.conditions);
      SettlesCons(def, r, r1, TransitionWrites(r1, step, input.conditions));
    }
  }

  lemma RefusalKeeps(def: Definition, r: Run, step: Step, error: string, now: int)
    requires AfterWrite(def, r) && r.status == RunWaitingHuman
    requires StepById(def, r.current) == Some(step)
    ensures var r1 := AgentRefused(r, step.id, error, now); Settles(def, r, [r1, FailedRun(r1)])
  {
    var t := StateOf(r, step.id).(status := StepFailed, error := error, completedAt := Some(now));
    UnpausedKeeps(def, r, step, t);
    var r1 := AgentRefused(r, step.id, error, now);
    FailedKeeps(def, r1, step);
    SettlesOne(def, r1, FailedRun(r1));
    SettlesCons(def, r, r1, [FailedRun(r1)]);
    assert [r1] + [FailedRun(r1)] == [r1, FailedRun(r1)];
  }

  lemma AgentKeeps(def: Definition, r: Run, step: Step, view: RequestView, input: ResumeInput)
    requires TargetsKnown(def, step) && AfterWrite(def, r) && r.status == RunWaitingHuman
    requires StepById(def, r.current) == Some(step)
    ensures var writes := AgentWrites(r, step, view, input);
      writes == [] || Settles(def, r, writes)
  {
    if AgentRefusal(view) {
      RefusalKeeps(def, r, step, FailureText(view.message, "human denied: " + view.kind), input.now);
    } else if input.agent == AgentStatus("completed") {
      var t := StateOf(r, step.id).(status := StepCompleted, completedAt := Some(input.now));
      UnpausedKeeps(def, r, step, t);
      var r1 := AgentFinished(r, step.id, input.now);
      TransitionKeeps(def, r1, step, input.conditions);
      SettlesCons(def, r, r1, TransitionWrites(r1, step, input.conditions));
    } else if input.agent == AgentStatus("failed") {
      RefusalKeeps(def, r, step, "agent run failed after human response", input.now);
    }
  }

  lemma ResumeFindsStep(def: Definition, r: Run, input: ResumeInput)
    requires AfterWrite(def, r)
    ensures ResumeOutcome(def, r, input) !in
      {Rejected(CurrentStepNotFound), Rejected(NoCurrentStep), Rejected(NotInRunState)}
  {
    hide SoundStep, PendingFor;
  }

  /** Resume likewise: it writes nothing or reaches a boundary state. */
  lemma ResumeKeeps(def: Definition, r: Run, input: ResumeInput)
    requires Closed(def) && AfterWrite(def, r)
    ensures var writes := ResumeWrites(def, r, input); writes == [] || Settles(def, r, writes)
    ensures ResumeOutcome(def, r, input) !in
      {Rejected(CurrentStepNotFound), Rejected(NoCurrentStep), Rejected(NotInRunState)}
  {
    ResumeFindsStep(def, r, input);
    hide ResumeOutcome;
    if !Blank(input.request) && r.status == RunWaitingHuman && ResumeRefusal(def, r, input).None? {
      var step := StepById(def, r.current).value;
      var view := input.view.value;
      ClosedTargets(def, r.current);
      hide Settles, AgentWrites, ApprovalWrites, Closed, TargetsKnown;
      if view.source == SOURCE_AGENT_REQUEST {
        AgentKeeps(def, r, step, view, input);
      } else {
        ApprovalKeeps(def, r, step, view, input);
      }
    }
  }

  // ----- Whole runs -----

  /** One operation and how many of its writes reach the disk. */
  datatype Op =
    | DoAdvance(advance: AdvanceInput, budget: nat)
    | DoResume(resume: ResumeInput, budget: nat)

  function OpWrites(def: Definition, r: Run, op: Op): seq<Run> {
    match op
    case DoAdvance(input, _) => AdvanceWrites(def, r, input)
    case DoResume(input, _) => ResumeWrites(def, r, input)
  }

  function Apply(def: Definition, r: Run, op: Op): Run {
    Cut(r, OpWrites(def, r, op), op.budget)
  }

  predicate Uncut(def: Definition, r: Run, op: Op) {
    |OpWrites(def, r, op)| <= op.budget
  }

  function RunOps(def: Definition, r: Run, ops: seq<Op>): Run
    decreases |ops|
  {
    if ops == [] then r else RunOps(def, Apply(def, r, ops[0]), ops[1..])
  }

  predicate NoneCut(def: Definition, r: Run, ops: seq<Op>)
    decreases |ops|
  {
    ops == [] || (Uncut(def, r, ops[0]) && NoneCut(def, Apply(def, r, ops[0]), ops[1..]))
  }

  lemma {:induction false} CutSound(def: Definition, r: Run, writes: seq<Run>, done: nat)
    requires AfterWrite(def, r) && SoundWrites(def, r, writes)
    ensures AfterWrite(def, Cut(r, writes, done))
    decreases |writes|
  {
    hide AfterWrite, Moves;
    if done > 0 && writes != [] {
      CutSound(def, writes[0], writes[1..], done - 1);
    }
  }

  lemma OpSettles(def: Definition, r: Run, op: Op)
    requires Closed(def) && AfterWrite(def, r)
    ensures var writes := OpWrites(def, r, op);
      if writes != [] then Settles(def, r, writes) else op.DoAdvance? ==> AtBoundary(def, r)
  {
    match op {
      case DoAdvance(input, _) => AdvanceKeeps(def, r, input);
      case DoResume(input, _) => ResumeKeeps(def, r, input);
    }
  }

  /** A finished run is never written again. */
  lemma OverStays(def: Definition, r: Run, op: Op)
    requires Over(r.status)
    ensures Apply(def, r, op) == r
  {
  }

  lemma OpKeeps(def: Definition, r: Run, op: Op)
    requires Closed(def) && AfterWrite(def, r)
    ensures AfterWrite(def, Apply(def, r, op))
    ensures Uncut(def, r, op) && (op.DoAdvance? || AtBoundary(def, r)) ==> AtBoundary(def, Apply(def, r, op))
  {
    var writes := OpWrites(def, r, op);
    OpSettles(def, r, op);
    CutKeeps(def, r, writes, op.budget);
  }

  lemma CutKeeps(def: Definition, r: Run, writes: seq<Run>, done: nat)
    requires AfterWrite(def, r)
    requires writes != [] ==> Settles(def, r, writes)
    ensures AfterWrite(def, Cut(r, writes, done))
    ensures writes != [] && |writes| <= done ==> AtBoundary(def, Cut(r, writes, done))
  {
    hide AfterWrite, AtBoundary, Moves;
    CutSound(def, r, writes, done);
  }

  /** The run invariant over every sequence of operations, each cut anywhere. */
  lemma {:induction false} RunsStaySound(def: Definition, r: Run, ops: seq<Op>)
    requires Closed(def) && AfterWrite(def, r)
    ensures AfterWrite(def, RunOps(def, r, ops))
    ensures NoneCut(def, r, ops) && AtBoundary(def, r) ==> AtBoundary(def, RunOps(def, r, ops))
    ensures Over(r.status) ==> RunOps(def, r, ops) == r
    decreases |ops|
  {
    if ops != [] {
      OpKeeps(def, r, ops[0]);
      if Over(r.status) { OverStays(def, r, ops[0]); }
      RunsStaySound(def, Apply(def, r, ops[0]), ops[1..]);
    }
  }

  /** From a resolved entrypoint on, whatever is lost on the way. */
  lemma StartedRunsStaySound(def: Definition, entrypoint: string, written: nat, ops: seq<Op>)
    requires ValidDefinition(def) && FindEntrypoint(def.entrypoints, entrypoint).Some?
    requires 1 <= written
    ensures ResolveEntrypoint(def, entrypoint).Some?
    ensures var start := ResolveEntrypoint(def, entrypoint).value.id;
      var r := StartedRun(start, written);
      && AfterWrite(def, RunOps(def, r, ops))
      && (2 <= written && NoneCut(def, r, ops) ==> AtBoundary(def, RunOps(def, r, ops)))
  {
    StartKeeps(def, entrypoint);
    ValidIsClosed(def);
    var start := ResolveEntrypoint(def, entrypoint).value.id;
    RunsStaySound(def, StartedRun(start, written), ops);
  }

  /** The invariant in the words of the documentation. */
  lemma BoundaryMeaning(def: Definition, r: Run)
    requires AtBoundary(def, r)
    ensures forall id | id in r.steps && id != r.current :: Settled(r.steps[id])
    ensures r.status == RunWaitingHuman <==> StateOf(r, r.current).status == StepWaitingHuman
    ensures forall x :: x in r.pending <==>
      r.status == RunWaitingHuman && x != "" &&
      exists i :: 0 <= i < |StateOf(r, r.current).requests| && Trim(StateOf(r, r.current).requests[i]) == x
    ensures Distinct(r.pending)
    ensures Ended(r.status) <==> r.current == ""
    ensures r.status == RunFailed ==> StateOf(r, r.current).status == StepFailed
    ensures r.current != "" ==> StepById(def, r.current).Some?
  {
    forall id | id in r.steps && id != r.current ensures Settled(r.steps[id]) {
      assert SoundStep(def, r, id);
    }
    PendingMembers(StateOf(r, r.current).requests);
  }

  // ----- The graph is never left -----

  ghost predicate OnGraph(def: Definition, start: string, r: Run) {
    r.current != "" ==> Reachable(def, start, r.current)
  }

  lemma MoveStaysOnGraph(def: Definition, start: string, a: Run, b: Run)
    requires OnGraph(def, start, a) && Moves(def, a, b)
    ensures OnGraph(def, start, b)
  {
    if a.current != "" && b.current != "" && b.current != a.current {
      ReachableStep(def, start, a.current, b.current);
    }
  }

  lemma {:induction false} CutStaysOnGraph(def: Definition, start: string, r: Run, writes: seq<Run>, done: nat)
    requires OnGraph(def, start, r) && SoundWrites(def, r, writes)
    ensures OnGraph(def, start, Cut(r, writes, done))
    decreases |writes|
  {
    if done > 0 && writes != [] {
      MoveStaysOnGraph(def, start, r, writes[0]);
      CutStaysOnGraph(def, start, writes[0], writes[1..], done - 1);
    }
  }

  lemma OpStaysOnGraph(def: Definition, start: string, r: Run, op: Op)
    requires Closed(def) && AfterWrite(def, r) && OnGraph(def, start, r)
    ensures AfterWrite(def, Apply(def, r, op)) && OnGraph(def, start, Apply(def, r, op))
  {
    OpKeeps(def, r, op);
    OpSettles(def, r, op);
    CutStaysOnGraph(def, start, r, OpWrites(def, r, op), op.budget);
  }

  lemma {:induction false} RunsStayOnGraph(def: Definition, start: string, r: Run, ops: seq<Op>)
    requires Closed(def) && AfterWrite(def, r) && OnGraph(def, start, r)
    ensures AfterWrite(def, RunOps(def, r, ops)) && OnGraph(def, start, RunOps(def, r, ops))
    decreases |ops|
  {
    if ops != [] {
      OpStaysOnGraph(def, start, r, ops[0]);
      RunsStayOnGraph(def, start, Apply(def, r, ops[0]), ops[1..]);
    }
  }

  /** For an accepted definition the current step of every run is a declared step
      reachable from the start step of its entrypoint, and the next Advance finds it. */
  lemma ValidatedRunsStayOnGraph(def: Definition, entrypoint: string, written: nat, ops: seq<Op>, input: AdvanceInput)
    requires ValidDefinition(def) && FindEntrypoint(def.entrypoints, entrypoint).Some?
    requires 1 <= written
    ensures ResolveEntrypoint(def, entrypoint).Some?
    ensures var start := ResolveEntrypoint(def, entrypoint).value.id;
      var r := RunOps(def, StartedRun(start, written), ops);
      && (r.current != "" ==> StepById(def, r.current).Some? && Reachable(def, start, r.current))
      && AdvanceOutcome(def, r, input) != Rejected(CurrentStepNotFound)
  {
    StartKeeps(def, entrypoint);
    ValidIsClosed(def);
    var start := ResolveEntrypoint(def, entrypoint).value.id;
    var first := StartedRun(start, written);
    ReachableSelf(def, start);
    RunsStayOnGraph(def, start, first, ops);
    AdvanceKeeps(def, RunOps(def, first, ops), input);
  }
}
