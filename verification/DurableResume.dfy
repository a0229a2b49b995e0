/** Durable resume: claim, dispatch into the flow, finish, with crashes anywhere,
    startup recovery and reconciliation (runtime/human_requests.go). */
module DurableResume {
  import opened Common
  import opened Text
  import opened FlowDefinition
  import opened FlowRun
  import opened FlowKernel
  import opened FlowInvariant
  import opened HumanRequest
  import opened HumanRequestHistory
  import opened HumanRequestStore

  // ----- One process over one workspace and one flow run -----

  /** A goroutine inside `resumeResolvedHumanRequest`: it holds a claim, or it has
      dispatched and is about to record how that ended. */
  datatype Work = Holding(id: string) | Dispatched(id: string, ok: bool)

  /** `left` logs the request of every resume that took a step out of its pause. */
  datatype System = System(
    disk: Disk,
    run: Run,
    workers: map<nat, Work>,
    down: bool,
    left: seq<string>)

  datatype Setting = Setting(def: Definition, runId: string)

  /** What the environment decides about one dispatch: the backing agent, the branch
      conditions, the clock, the fate of work outside this run, and how many of the
      flow's writes succeed. */
  datatype Env = Env(agent: AgentView, conditions: string -> Verdict, now: int, elsewhereOk: bool, budget: nat)

  function KindName(kind: ResponseKind): string {
    match kind
    case Approve => "approve"
    case Deny => "deny"
    case Cancel => "cancel"
    case Answer => "answer"
  }

  /** The flow bridge's projection of a stored request. */
  function ViewOf(r: Request): RequestView {
    match r.response
    case None => RequestView(r.id, r.source, r.status == Resolved, "", "")
    case Some(a) =>
      var kind := if r.source == SOURCE_FLOW_APPROVAL && a.kind == Answer && !Blank(a.message)
                  then Trim(a.message) else KindName(a.kind);
      RequestView(r.id, r.source, r.status == Resolved, kind, a.message)
  }

  function ResumeFor(d: Disk, id: string, env: Env): ResumeInput {
    ResumeInput(id, if id in d.requests then Some(ViewOf(d.requests[id])) else None, env.agent, env.conditions, env.now)
  }

  datatype FlowStep = FlowStep(run: Run, ok: bool, left: seq<string>)

  /** One `flow.Resume` against the stored request. */
  function FlowResume(ctx: Setting, d: Disk, run: Run, id: string, env: Env): FlowStep {
    var input := ResumeFor(d, id, env);
    var writes := ResumeWrites(ctx.def, run, input);
    FlowStep(Cut(run, writes, env.budget),
             CutOutcome(writes, env.budget, ResumeOutcome(ctx.def, run, input)) == Done,
             if writes != [] && env.budget > 0 then [id] else [])
  }

  /** Is this request an approval of the run at hand? */
  predicate ForRun(ctx: Setting, r: Request) {
    r.source == SOURCE_FLOW_APPROVAL && Trim(r.flowRunId) == ctx.runId && !Blank(r.flowRunId)
  }

  /** `dispatchHumanRequestResume`. */
  function Dispatch(ctx: Setting, d: Disk, run: Run, r: Request, env: Env): FlowStep {
    if ForRun(ctx, r) then FlowResume(ctx, d, run, r.id, env)
    else if r.source == SOURCE_FLOW_APPROVAL && Blank(r.flowRunId) then FlowStep(run, false, [])
    else if r.source == SOURCE_FLOW_APPROVAL || r.source == SOURCE_AGENT_REQUEST then FlowStep(run, env.elsewhereOk, [])
    else FlowStep(run, true, [])
  }

  const DISPATCH_ERROR := "dispatch failed"

  // ----- Atomic steps -----

  datatype SystemStep =
    | AdvanceStep(advance: AdvanceInput, budget: nat)
    | CreateStep(input: CreateInput, id: string, correlation: string, now: int, budget: nat)
    | TouchStep(id: string, event: Event, budget: nat)
    | ClaimStep(worker: nat, id: string, now: int, budget: nat)
    | DispatchStep(worker: nat, env: Env)
    | FinishStep(worker: nat, now: int, budget: nat)
    | DirectResumeStep(id: string, env: Env)
    | CrashStep
    | RecoverStep(id: string, now: int, budget: nat)
    | BootStep

  function Store1(d: Disk, id: string, e: Event, budget: nat): Disk {
    CutDisk(d, EventWrites(d, id, e), budget)
  }

  function Next(ctx: Setting, s: System, step: SystemStep): System {
    match step
    case AdvanceStep(input, budget) =>
      if s.down then s else s.(run := Cut(s.run, AdvanceWrites(ctx.def, s.run, input), budget))
    case CreateStep(input, id, correlation, now, budget) =>
      if s.down then s else s.(disk := CutDisk(s.disk, CreateWrites(s.disk, input, id, correlation, now), budget))
    case TouchStep(id, event, budget) =>
      // Delivery and response events; resume events belong to workers and recovery.
      if s.down || event.Claim? || event.Finish? || event.Recover? then s
      else s.(disk := Store1(s.disk, id, event, budget))
    case ClaimStep(worker, id, now, budget) =>
      if s.down || worker in s.workers || id !in s.disk.requests
         || !Claimed(s.disk.requests[id], now).Changed? || budget == 0 then s
      else s.(disk := Store1(s.disk, id, Claim(now), budget), workers := s.workers[worker := Holding(id)])
    case DispatchStep(worker, env) =>
      if s.down || worker !in s.workers || !s.workers[worker].Holding?
         || s.workers[worker].id !in s.disk.requests then s
      else
        var id := s.workers[worker].id;
        var f := Dispatch(ctx, s.disk, s.run, s.disk.requests[id], env);
        s.(run := f.run, workers := s.workers[worker := Dispatched(id, f.ok)], left := s.left + f.left)
    case FinishStep(worker, now, budget) =>
      if s.down || worker !in s.workers || !s.workers[worker].Dispatched? then s
      else
        var w := s.workers[worker];
        s.(disk := Store1(s.disk, w.id, Finish(if w.ok then "" else DISPATCH_ERROR, now), budget),
           workers := s.workers - {worker})
    case DirectResumeStep(id, env) =>
      if s.down then s
      else
        var f := FlowResume(ctx, s.disk, s.run, id, env);
        s.(run := f.run, left := s.left + f.left)
    case CrashStep => s.(workers := map[], down := true)
    case RecoverStep(id, now, budget) =>
      if !s.down then s else s.(disk := Store1(s.disk, id, Recover(now), budget))
    case BootStep => s.(down := false)
  }

  function RunSystem(ctx: Setting, s: System, steps: seq<SystemStep>): System
    decreases |steps|
  {
    if steps == [] then s else RunSystem(ctx, Next(ctx, s, steps[0]), steps[1..])
  }

  // ----- Assumptions about the environment -----

  predicate IsResolved(d: Disk, id: string) {
    id in d.requests && d.requests[id].status == Resolved
  }

  /** The resume work of this run's request succeeded, recorded or about to be. */
  predicate DoneWith(ctx: Setting, s: System, id: string) {
    && id in s.disk.requests && ForRun(ctx, s.disk.requests[id])
    && (s.disk.requests[id].resume.status == ResumeCompleted
        || exists w | w in s.workers :: s.workers[w] == Dispatched(id, true))
  }

  /** The request has had its effect on the run, or its resume work is done. */
  predicate UsedUp(ctx: Setting, s: System, id: string) {
    id in s.left || DoneWith(ctx, s, id)
  }

  /** The executor never returns a request that is used up, though it may be answered
      already, and a waiting result names its requests. */
  predicate Honest(ctx: Setting, s: System, result: ExecResult) {
    && (result.status == ExecWaitingHuman ==> result.requests.Some?)
    && (result.requests.Some? ==>
          forall i | 0 <= i < |result.requests.value| ::
            !UsedUp(ctx, s, result.requests.value[i]) && !UsedUp(ctx, s, Trim(result.requests.value[i])))
  }

  /** The result does not pend the id. */
  predicate Unnamed(result: ExecResult, id: string) {
    && (result.status == ExecWaitingHuman ==> result.requests.Some?)
    && (result.requests.Some? ==>
          forall i | 0 <= i < |result.requests.value| ::
            result.requests.value[i] != id && Trim(result.requests.value[i]) != id)
  }

  predicate Admissible(ctx: Setting, s: System, step: SystemStep) {
    match step
    case AdvanceStep(input, _) => Honest(ctx, s, EffectiveResult(input))
    case CreateStep(_, id, _, _, _) => id !in s.disk.requests
    case TouchStep(_, event, _) => event.Respond? ==> event.responseId !in s.disk.responses
    case _ => true
  }

  predicate AllAdmissible(ctx: Setting, s: System, steps: seq<SystemStep>)
    decreases |steps|
  {
    steps == [] || (Admissible(ctx, s, steps[0]) && AllAdmissible(ctx, Next(ctx, s, steps[0]), steps[1..]))
  }

  // ----- At most once -----

  predicate StoreSound(d: Disk) {
    forall id | id in d.requests :: d.requests[id].id == id && Lifecycle(d.requests[id])
  }

  /** A worker's request is running, and no two workers share one. */
  predicate ClaimsExclusive(s: System) {
    && (forall w | w in s.workers ::
          s.workers[w].id in s.disk.requests && s.disk.requests[s.workers[w].id].resume.status == ResumeRunning)
    && (forall v, w | v in s.workers && w in s.workers && v != w :: s.workers[v].id != s.workers[w].id)
    && (s.down ==> s.workers == map[])
  }

  /** A request that has taken its step out of the pause is linked to settled steps only. */
  predicate Spent(r: Run, id: string) {
    forall step | step in r.steps && id in r.steps[step].requests :: Settled(r.steps[step])
  }

  predicate AtMostOnce(d: Disk, run: Run, left: seq<string>) {
    && Distinct(left)
    && (forall id | id in left :: IsResolved(d, id) && Spent(run, id))
  }

  predicate Safe(ctx: Setting, s: System) {
    && AfterWrite(ctx.def, s.run)
    && StoreSound(s.disk)
    && ClaimsExclusive(s)
    && AtMostOnce(s.disk, s.run, s.left)
  }

  // Store side.

  lemma LifecycleKept(r: Request, e: Event)
    requires Lifecycle(r)
    ensures Lifecycle(After(r, e)) && After(r, e).id == r.id
    ensures r.status == Resolved ==> After(r, e).status == Resolved
    ensures !e.Claim? && !e.Finish? && !e.Recover? && r.resume.status in {ResumeRunning, ResumeCompleted} ==>
      After(r, e) == r
    ensures After(r, e).resume.status == ResumeCompleted ==>
      r.resume.status == ResumeCompleted || (e.Finish? && e.failure == "")
    ensures After(r, e).source == r.source && After(r, e).flowRunId == r.flowRunId
  {
  }

  /** What an event can do to the files of the workspace. */
  lemma EventOnDisk(d: Disk, id: string, e: Event, budget: nat)
    requires StoreSound(d)
    ensures var d1 := Store1(d, id, e, budget);
      && StoreSound(d1) && d1.requests.Keys == d.requests.Keys
      && (forall x | x in d.requests ::
            d1.requests[x] == d.requests[x] || (x == id && d1.requests[x] == After(d.requests[x], e)))
  {
    if id in d.requests { LifecycleKept(d.requests[id], e); }
    StoredEvent(d, id, e, budget);
    hide Lifecycle, After, Store1;
  }

  lemma StoredEvent(d: Disk, id: string, e: Event, budget: nat)
    ensures var d1 := Store1(d, id, e, budget);
      d1.requests == d.requests || (id in d.requests && d1.requests == d.requests[id := After(d.requests[id], e)])
  {
    hide ChangeOf;
  }

  lemma ResolvedStays(d: Disk, id: string, e: Event, budget: nat, x: string)
    requires StoreSound(d)
    ensures IsResolved(d, x) ==> IsResolved(Store1(d, id, e, budget), x)
  {
    EventOnDisk(d, id, e, budget);
    if x in d.requests { LifecycleKept(d.requests[x], e); }
  }

  // Flow side.

  predicate EachSpent(writes: seq<Run>, id: string) {
    forall i | 0 <= i < |writes| :: Spent(writes[i], id)
  }

  lemma TransitionSpent(r: Run, step: Step, conditions: string -> Verdict, id: string)
    requires Spent(r, id) && StateOf(r, step.id).status == StepCompleted
    ensures EachSpent(TransitionWrites(r, step, conditions), id)
  {
  }

  lemma FailureSpent(r: Run, step: Step, id: string)
    requires Spent(r, id) && id !in StateOf(r, step.id).requests
    ensures EachSpent(FailureWrites(r, step), id)
  {
  }

  lemma SettleSpent(r: Run, step: Step, conditions: string -> Verdict, id: string)
    requires Spent(r, id) && id !in StateOf(r, step.id).requests
    ensures EachSpent(SettleWrites(r, step, conditions), id)
  {
    match StateOf(r, step.id).status {
      case StepFailed => FailureSpent(r, step, id);
      case StepCompleted => TransitionSpent(r, step, conditions, id);
      case _ =>
    }
  }

  lemma AdvanceSpent(def: Definition, r: Run, input: AdvanceInput, id: string)
    requires Spent(r, id)
    requires EffectiveResult(input).requests.Some? ==> id !in EffectiveResult(input).requests.value
    ensures EachSpent(AdvanceWrites(def, r, input), id)
  {
    if Executes(def, r) {
      var step := StepById(def, r.current).value;
      var r1 := MarkedRunning(r, step.id, input.now);
      if r1.Some? {
        assert id !in StateOf(r, step.id).requests;
        var r2 := ResultApplied(r1.value, step.id, EffectiveResult(input), input.now);
        assert id !in StateOf(r2, step.id).requests;
        SettleSpent(r2, step, input.conditions, id);
        assert Spent(r1.value, id) && Spent(r2, id);
        assert AdvanceWrites(def, r, input) == [r1.value, r2] + SettleWrites(r2, step, input.conditions);
        hide AdvanceWrites, SettleWrites, MarkedRunning, ResultApplied, Spent;
      }
    } else if StepById(def, r.current).Some? && StateOf(r, r.current).status == StepCompleted {
      TransitionSpent(r, StepById(def, r.current).value, input.conditions, id);
    }
  }

  /** After its first write a resume leaves the paused step settled and unlinked. */
  lemma ApprovalSpent(r: Run, step: Step, view: RequestView, input: ResumeInput, id: string)
    requires forall s | s in r.steps && s != step.id && id in r.steps[s].requests :: Settled(r.steps[s])
    ensures EachSpent(ApprovalWrites(r, step, view, input), id)
  {
    var r1 := Approved(r, step.id, SlotFor(step), SignalFor(view.kind, step), input.now);
    assert Spent(r1, id);
    TransitionSpent(r1, step, input.conditions, id);
  }

  lemma AgentSpent(r: Run, step: Step, view: RequestView, input: ResumeInput, id: string)
    requires forall s | s in r.steps && s != step.id && id in r.steps[s].requests :: Settled(r.steps[s])
    ensures EachSpent(AgentWrites(r, step, view, input), id)
  {
    var r1 := AgentFinished(r, step.id, input.now);
    assert Spent(r1, id);
    TransitionSpent(r1, step, input.conditions, id);
  }

  lemma ResumeSpent(def: Definition, r: Run, input: ResumeInput, id: string)
    requires AfterWrite(def, r)
    ensures Spent(r, id) || id == input.request ==> EachSpent(ResumeWrites(def, r, input), id)
    ensures ResumeWrites(def, r, input) != [] ==> !Spent(r, input.request)
  {
    var writes := ResumeWrites(def, r, input);
    if writes != [] {
      var step := StepById(def, r.current).value;
      forall s | s in r.steps && s != step.id ensures Settled(r.steps[s]) {
        assert SoundStep(def, r, s);
      }
      AgentSpent(r, step, input.view.value, input, id);
      ApprovalSpent(r, step, input.view.value, input, id);
    }
  }

  lemma CutSpent(r: Run, writes: seq<Run>, done: nat, id: string)
    requires Spent(r, id) && EachSpent(writes, id)
    ensures Spent(Cut(r, writes, done), id)
  {
  }

  // Step by step.

  lemma AdvanceStepSafe(ctx: Setting, s: System, input: AdvanceInput, budget: nat)
    requires Closed(ctx.def) && Safe(ctx, s) && Honest(ctx, s, EffectiveResult(input))
    ensures Safe(ctx, Next(ctx, s, AdvanceStep(input, budget)))
  {
    if !s.down {
      OpKeeps(ctx.def, s.run, DoAdvance(input, budget));
      forall id | id in s.left ensures Spent(Cut(s.run, AdvanceWrites(ctx.def, s.run, input), budget), id) {
        AdvanceSpent(ctx.def, s.run, input, id);
        CutSpent(s.run, AdvanceWrites(ctx.def, s.run, input), budget, id);
      }
    }
  }

  /** A flow resume that takes the step out of its pause does so for a new request. */
  lemma FlowResumeOnce(ctx: Setting, d: Disk, run: Run, left: seq<string>, id: string, env: Env)
    requires AfterWrite(ctx.def, run) && AtMostOnce(d, run, left)
    ensures var f := FlowResume(ctx, d, run, id, env); AtMostOnce(d, f.run, left + f.left)
  {
    var input := ResumeFor(d, id, env);
    var writes := ResumeWrites(ctx.def, run, input);
    var f := FlowResume(ctx, d, run, id, env);
    ResumeSpent(ctx.def, run, input, id);
    forall x | x in left ensures Spent(f.run, x) {
      ResumeSpent(ctx.def, run, input, x);
      CutSpent(run, writes, env.budget, x);
    }
    if f.left != [] {
      assert f.run in writes;
      assert IsResolved(d, id);
    }
  }

  lemma FlowResumeKeeps(ctx: Setting, d: Disk, run: Run, id: string, env: Env)
    requires Closed(ctx.def) && AfterWrite(ctx.def, run)
    ensures AfterWrite(ctx.def, FlowResume(ctx, d, run, id, env).run)
  {
    OpKeeps(ctx.def, run, DoResume(ResumeFor(d, id, env), env.budget));
  }

  lemma DispatchOnce(ctx: Setting, d: Disk, run: Run, left: seq<string>, r: Request, env: Env)
    requires Closed(ctx.def) && AfterWrite(ctx.def, run) && AtMostOnce(d, run, left)
    ensures var f := Dispatch(ctx, d, run, r, env); AfterWrite(ctx.def, f.run) && AtMostOnce(d, f.run, left + f.left)
  {
    hide AfterWrite, AtMostOnce, FlowResume, Closed;
    if ForRun(ctx, r) {
      FlowResumeOnce(ctx, d, run, left, r.id, env);
      FlowResumeKeeps(ctx, d, run, r.id, env);
    } else {
      assert left + [] == left;
    }
  }

  lemma TouchStepSafe(ctx: Setting, s: System, id: string, event: Event, budget: nat)
    requires Safe(ctx, s) && !event.Claim? && !event.Finish? && !event.Recover?
    ensures Safe(ctx, s.(disk := Store1(s.disk, id, event, budget)))
  {
    EventOnDisk(s.disk, id, event, budget);
    forall x | x in s.left ensures IsResolved(Store1(s.disk, id, event, budget), x) {
      ResolvedStays(s.disk, id, event, budget, x);
    }
    forall x | x in s.disk.requests && s.disk.requests[x].resume.status == ResumeRunning
      ensures Store1(s.disk, id, event, budget).requests[x] == s.disk.requests[x]
    {
      LifecycleKept(s.disk.requests[x], event);
    }
  }

  lemma ResumeEventSafe(ctx: Setting, s: System, s1: System, id: string, event: Event, budget: nat)
    requires Safe(ctx, s)
    requires s1 == s.(disk := Store1(s.disk, id, event, budget), workers := s1.workers)
    requires forall w | w in s1.workers :: s1.workers[w].id != id && w in s.workers && s1.workers[w] == s.workers[w]
    requires s.down ==> s1.workers == map[]
    ensures Safe(ctx, s1)
  {
    EventOnDisk(s.disk, id, event, budget);
    forall x | x in s.left ensures IsResolved(s1.disk, x) {
      ResolvedStays(s.disk, id, event, budget, x);
    }
  }

  lemma ClaimIsNew(s: System, worker: nat, id: string, now: int, d1: Disk)
    requires ClaimsExclusive(s) && !s.down && worker !in s.workers
    requires id in s.disk.requests && Claimed(s.disk.requests[id], now).Changed?
    requires d1.requests == s.disk.requests[id := Claimed(s.disk.requests[id], now).request]
    ensures ClaimsExclusive(s.(disk := d1, workers := s.workers[worker := Holding(id)]))
  {
    forall w | w in s.workers ensures s.workers[w].id != id {
      assert s.disk.requests[s.workers[w].id].resume.status == ResumeRunning;
    }
  }

  /** Only the files and the workers changed. */
  lemma FilesReplaced(ctx: Setting, s: System, s1: System)
    requires Safe(ctx, s) && s1.run == s.run && s1.left == s.left
    requires StoreSound(s1.disk) && ClaimsExclusive(s1)
    requires forall x | x in s.left :: IsResolved(s1.disk, x)
    ensures Safe(ctx, s1)
  {
    hide AfterWrite, Spent, StoreSound, ClaimsExclusive;
  }

  lemma ClaimTaken(d: Disk, id: string, now: int, budget: nat)
    requires id in d.requests && Claimed(d.requests[id], now).Changed? && budget > 0
    ensures Store1(d, id, Claim(now), budget).requests == d.requests[id := Claimed(d.requests[id], now).request]
  {
    hide Claimed;
  }

  lemma ClaimStepSafe(ctx: Setting, s: System, worker: nat, id: string, now: int, budget: nat)
    requires Safe(ctx, s)
    ensures Safe(ctx, Next(ctx, s, ClaimStep(worker, id, now, budget)))
  {
    hide AfterWrite, Spent, IsResolved, ClaimsExclusive, StoreSound, Store1, Claimed;
    var s1 := Next(ctx, s, ClaimStep(worker, id, now, budget));
    if s1 != s {
      var d1 := Store1(s.disk, id, Claim(now), budget);
      assert s1 == s.(disk := d1, workers := s.workers[worker := Holding(id)]);
      ClaimTaken(s.disk, id, now, budget);
      EventOnDisk(s.disk, id, Claim(now), budget);
      forall x | x in s.left ensures IsResolved(d1, x) {
        ResolvedStays(s.disk, id, Claim(now), budget, x);
      }
      ClaimIsNew(s, worker, id, now, d1);
      hide Safe, Next;
      FilesReplaced(ctx, s, s1);
    }
  }

  lemma CreateStepSafe(ctx: Setting, s: System, step: SystemStep)
    requires Safe(ctx, s) && step.CreateStep? && Admissible(ctx, s, step)
    ensures Safe(ctx, Next(ctx, s, step))
  {
    hide AfterWrite, Spent;
  }

  lemma FinishStepSafe(ctx: Setting, s: System, worker: nat, now: int, budget: nat)
    requires Safe(ctx, s)
    ensures Safe(ctx, Next(ctx, s, FinishStep(worker, now, budget)))
  {
    hide AfterWrite, AtMostOnce, StoreSound, Store1;
    var s1 := Next(ctx, s, FinishStep(worker, now, budget));
    if s1 != s {
      var w := s.workers[worker];
      ResumeEventSafe(ctx, s, s1, w.id, Finish(if w.ok then "" else DISPATCH_ERROR, now), budget);
    }
  }

  lemma DispatchStepSafe(ctx: Setting, s: System, worker: nat, env: Env)
    requires Closed(ctx.def) && Safe(ctx, s)
    ensures Safe(ctx, Next(ctx, s, DispatchStep(worker, env)))
  {
    hide AfterWrite, AtMostOnce, Dispatch, StoreSound, Closed;
    if worker in s.workers && s.workers[worker].id in s.disk.requests {
      DispatchOnce(ctx, s.disk, s.run, s.left, s.disk.requests[s.workers[worker].id], env);
    }
  }

  lemma DirectResumeStepSafe(ctx: Setting, s: System, id: string, env: Env)
    requires Closed(ctx.def) && Safe(ctx, s)
    ensures Safe(ctx, Next(ctx, s, DirectResumeStep(id, env)))
  {
    hide FlowResume, AfterWrite, AtMostOnce, StoreSound, ClaimsExclusive, Closed;
    var f := FlowResume(ctx, s.disk, s.run, id, env);
    var s1 := Next(ctx, s, DirectResumeStep(id, env));
    assert s1 == if s.down then s else s.(run := f.run, left := s.left + f.left);
    hide Next;
    if !s.down {
      FlowResumeOnce(ctx, s.disk, s.run, s.left, id, env);
      FlowResumeKeeps(ctx, s.disk, s.run, id, env);
      RunReplaced(ctx, s, f);
    }
  }

  lemma RunReplaced(ctx: Setting, s: System, f: FlowStep)
    requires Safe(ctx, s) && AfterWrite(ctx.def, f.run) && AtMostOnce(s.disk, f.run, s.left + f.left)
    ensures Safe(ctx, s.(run := f.run, left := s.left + f.left))
  {
  }

  lemma NextSafe(ctx: Setting, s: System, step: SystemStep)
    requires Closed(ctx.def) && Safe(ctx, s) && Admissible(ctx, s, step)
    ensures Safe(ctx, Next(ctx, s, step))
  {
    match step {
      case AdvanceStep(input, budget) => AdvanceStepSafe(ctx, s, input, budget);
      case CreateStep(_, _, _, _, _) => CreateStepSafe(ctx, s, step);
      case TouchStep(id, event, budget) =>
        if !event.Claim? && !event.Finish? && !event.Recover? { TouchStepSafe(ctx, s, id, event, budget); }
      case ClaimStep(worker, id, now, budget) => ClaimStepSafe(ctx, s, worker, id, now, budget);
      case DispatchStep(worker, env) => DispatchStepSafe(ctx, s, worker, env);
      case FinishStep(worker, now, budget) => FinishStepSafe(ctx, s, worker, now, budget);
      case DirectResumeStep(id, env) => DirectResumeStepSafe(ctx, s, id, env);
      case CrashStep =>
      case RecoverStep(id, now, budget) => RecoverStepSafe(ctx, s, id, now, budget);
      case BootStep =>
    }
  }

  lemma RecoverStepSafe(ctx: Setting, s: System, id: string, now: int, budget: nat)
    requires Safe(ctx, s)
    ensures Safe(ctx, Next(ctx, s, RecoverStep(id, now, budget)))
  {
    if s.down { ResumeEventSafe(ctx, s, Next(ctx, s, RecoverStep(id, now, budget)), id, Recover(now), budget); }
  }

  /** Over any interleaving of resolving, claiming, resuming, finishing, crashing,
      recovering and reconciling, a request takes a step out of its pause at most once,
      and no two workers ever hold the same request. */
  lemma {:induction false} ResumeAtMostOnce(ctx: Setting, s: System, steps: seq<SystemStep>)
    requires Closed(ctx.def) && Safe(ctx, s) && AllAdmissible(ctx, s, steps)
    ensures Safe(ctx, RunSystem(ctx, s, steps))
    ensures Distinct(RunSystem(ctx, s, steps).left)
    decreases |steps|
  {
    if steps != [] {
      NextSafe(ctx, s, steps[0]);
      ResumeAtMostOnce(ctx, Next(ctx, s, steps[0]), steps[1..]);
    }
  }

  /** A pause ends only by such a resume. */
  lemma PauseEndsByResume(ctx: Setting, s: System, step: SystemStep)
    requires s.run.status == RunWaitingHuman
    ensures Next(ctx, s, step).run == s.run || |Next(ctx, s, step).left| == |s.left| + 1
  {
  }

  // ----- A completed request is off the pending list -----

  /** A step that waits has its run waiting: no pause is half recorded. */
  predicate PauseWhole(r: Run) {
    StateOf(r, r.current).status == StepWaitingHuman ==> r.status == RunWaitingHuman
  }

  /** The step does not cut an Advance between its result write and its pause write. */
  predicate KeepsPausesWhole(ctx: Setting, s: System, step: SystemStep) {
    !(step.AdvanceStep? && Executes(ctx.def, s.run)
      && EffectiveResult(step.advance).status == ExecWaitingHuman && step.budget == 2)
  }

  predicate AllKeepPausesWhole(ctx: Setting, s: System, steps: seq<SystemStep>)
    decreases |steps|
  {
    steps == [] || (KeepsPausesWhole(ctx, s, steps[0]) && AllKeepPausesWhole(ctx, Next(ctx, s, steps[0]), steps[1..]))
  }

  ghost predicate DoneCleared(ctx: Setting, s: System) {
    forall id :: DoneWith(ctx, s, id) ==> id !in s.run.pending
  }

  lemma HonestUnnamed(ctx: Setting, s: System, result: ExecResult, id: string)
    requires Honest(ctx, s, result) && UsedUp(ctx, s, id)
    ensures Unnamed(result, id)
  {
    hide Trim, DoneWith;
  }

  lemma ExecutionPause(def: Definition, r: Run, step: Step, input: AdvanceInput, budget: nat)
    requires Working(def, r, step)
    requires StateOf(r, step.id).status !in {StepCompleted, StepFailed, StepWaitingHuman}
    requires !(EffectiveResult(input).status == ExecWaitingHuman && budget == 2) && 0 < budget < 3
    ensures PauseWhole(Cut(r, ExecutionWrites(r, step, input), budget))
  {
  }

  lemma AdvancePauseWhole(def: Definition, r: Run, input: AdvanceInput, budget: nat)
    requires Closed(def) && AfterWrite(def, r) && PauseWhole(r)
    requires !(Executes(def, r) && EffectiveResult(input).status == ExecWaitingHuman && budget == 2)
    ensures PauseWhole(Cut(r, AdvanceWrites(def, r, input), budget))
  {
    if |AdvanceWrites(def, r, input)| <= budget {
      OpKeeps(def, r, DoAdvance(input, budget));
      hide AdvanceWrites;
    } else if budget > 0 {
      LongAdvanceExecutes(def, r, input);
      hide AdvanceWrites, ExecutionWrites, PauseWhole, Closed;
      ExecutionPause(def, r, StepById(def, r.current).value, input, budget);
    }
  }

  lemma LongAdvanceExecutes(def: Definition, r: Run, input: AdvanceInput)
    requires AfterWrite(def, r) && |AdvanceWrites(def, r, input)| > 1
    ensures Executes(def, r) && Working(def, r, StepById(def, r.current).value)
    ensures AdvanceWrites(def, r, input) == ExecutionWrites(r, StepById(def, r.current).value, input)
    ensures |AdvanceWrites(def, r, input)| <= 3
  {
    hide SoundStep, PendingFor, ResolveNext, FailureRoute;
  }

  /** A resume either writes nothing or leaves the run unpaused with nothing pending. */
  lemma ResumeUnpauses(def: Definition, r: Run, input: ResumeInput, budget: nat)
    requires Closed(def) && AfterWrite(def, r)
    ensures var r1 := Cut(r, ResumeWrites(def, r, input), budget);
      && (r1 == r || (r1.status != RunWaitingHuman && PauseWhole(r1)))
      && (ResumeWrites(def, r, input) != [] && budget > 0 ==> r1.status != RunWaitingHuman)
  {
    var writes := ResumeWrites(def, r, input);
    if writes != [] && budget > 0 {
      var step := StepById(def, r.current).value;
      OpSettles(def, r, DoResume(input, budget));
      if input.view.value.source == SOURCE_AGENT_REQUEST {
        AgentUnpauses(r, step, input.view.value, input, budget);
      } else {
        ApprovalUnpauses(r, step, input.view.value, input, budget);
      }
    }
  }

  lemma TransitionUnpauses(r: Run, step: Step, conditions: string -> FlowKernel.Verdict)
    requires r.status == RunRunning && r.current == step.id && StateOf(r, step.id).status == StepCompleted
    requires forall s | s in r.steps && s != step.id :: Settled(r.steps[s])
    ensures |TransitionWrites(r, step, conditions)| == 1
    ensures var r1 := TransitionWrites(r, step, conditions)[0]; r1.status != RunWaitingHuman && PauseWhole(r1)
  {
    hide ResolveNext;
  }

  lemma ApprovalUnpauses(r: Run, step: Step, view: RequestView, input: ResumeInput, budget: nat)
    requires r.current == step.id && budget > 0
    requires forall s | s in r.steps && s != step.id :: Settled(r.steps[s])
    ensures var r1 := Cut(r, ApprovalWrites(r, step, view, input), budget);
      r1.status != RunWaitingHuman && PauseWhole(r1)
  {
    var r1 := Approved(r, step.id, SlotFor(step), SignalFor(view.kind, step), input.now);
    TransitionUnpauses(r1, step, input.conditions);
    hide TransitionWrites, ResolveNext, FailureText, SignalFor, SlotFor, HasBranchFor;
  }

  lemma AgentUnpauses(r: Run, step: Step, view: RequestView, input: ResumeInput, budget: nat)
    requires r.current == step.id && budget > 0 && AgentWrites(r, step, view, input) != []
    requires forall s | s in r.steps && s != step.id :: Settled(r.steps[s])
    ensures var r1 := Cut(r, AgentWrites(r, step, view, input), budget); r1.status != RunWaitingHuman && PauseWhole(r1)
  {
    var r1 := AgentFinished(r, step.id, input.now);
    TransitionUnpauses(r1, step, input.conditions);
    hide TransitionWrites, ResolveNext, FailureText, SignalFor, SlotFor, HasBranchFor;
  }

  lemma ExecutionPends(r: Run, step: Step, input: AdvanceInput, budget: nat)
    requires r.pending == []
    ensures var r1 := Cut(r, ExecutionWrites(r, step, input), budget);
      var result := EffectiveResult(input);
      r1.pending == [] ||
      (result.status == ExecWaitingHuman &&
       r1.pending == PendingFor(if result.requests.Some? then result.requests.value else StateOf(r, step.id).requests))
  {
    var r1 := MarkedRunning(r, step.id, input.now);
    if r1.Some? {
      var r2 := ResultApplied(r1.value, step.id, EffectiveResult(input), input.now);
      SettlePends(r2, step, input.conditions);
    }
  }

  lemma SettlePends(r: Run, step: Step, conditions: string -> FlowKernel.Verdict)
    ensures forall i | 0 <= i < |SettleWrites(r, step, conditions)| ::
      SettleWrites(r, step, conditions)[i].pending ==
        (if StateOf(r, step.id).status == StepWaitingHuman
         then AppendUnique(r.pending, StateOf(r, step.id).requests) else r.pending)
  {
  }

  lemma IdlePends(def: Definition, r: Run, input: AdvanceInput, budget: nat)
    requires AfterWrite(def, r) && PauseWhole(r) && !Executes(def, r)
    ensures Cut(r, AdvanceWrites(def, r, input), budget).pending == r.pending
  {
  }

  lemma ExecutionPendsFresh(r: Run, step: Step, input: AdvanceInput, budget: nat, id: string)
    requires r.pending == [] && Unnamed(EffectiveResult(input), id)
    ensures id !in Cut(r, ExecutionWrites(r, step, input), budget).pending
  {
    var result := EffectiveResult(input);
    ExecutionPends(r, step, input, budget);
    if result.requests.Some? { PendingMembers(result.requests.value); }
  }

  /** Advance pends no request that its result does not name. */
  lemma AdvancePendsFresh(def: Definition, r: Run, input: AdvanceInput, budget: nat, id: string)
    requires AfterWrite(def, r) && PauseWhole(r)
    requires Unnamed(EffectiveResult(input), id) && id !in r.pending
    ensures id !in Cut(r, AdvanceWrites(def, r, input), budget).pending
  {
    if Executes(def, r) {
      assert r.pending == [];
      hide Unnamed, ExecutionWrites, AfterWrite;
      var step := StepById(def, r.current).value;
      assert AdvanceWrites(def, r, input) == ExecutionWrites(r, step, input);
      ExecutionPendsFresh(r, step, input, budget, id);
    } else {
      IdlePends(def, r, input, budget);
    }
  }

  /** A dispatch that succeeds leaves nothing pending. */
  lemma DispatchClears(ctx: Setting, d: Disk, r: Run, q: Request, env: Env)
    requires Closed(ctx.def) && AfterWrite(ctx.def, r) && PauseWhole(r)
    requires q.id in d.requests && d.requests[q.id] == q
    ensures var f := Dispatch(ctx, d, r, q, env);
      && (ForRun(ctx, q) && f.ok ==> f.run.pending == [])
      && (f.run == r || f.run.pending == []) && PauseWhole(f.run)
  {
    hide AfterWrite, ResumeWrites, ResumeOutcome, Closed, PauseWhole;
    var input := ResumeFor(d, q.id, env);
    ResumeUnpauses(ctx.def, r, input, env.budget);
    OpKeeps(ctx.def, r, DoResume(input, env.budget));
    if ForRun(ctx, q) && FlowResume(ctx, d, r, q.id, env).ok { OkMeansUnpaused(ctx, d, r, q, env); }
    PendsOnlyWaiting(ctx.def, r);
    PendsOnlyWaiting(ctx.def, Cut(r, ResumeWrites(ctx.def, r, input), env.budget));
  }

  lemma PendsOnlyWaiting(def: Definition, r: Run)
    requires AfterWrite(def, r)
    ensures r.status != RunWaitingHuman ==> r.pending == []
  {
  }

  lemma OkMeansUnpaused(ctx: Setting, d: Disk, r: Run, q: Request, env: Env)
    requires AfterWrite(ctx.def, r) && ForRun(ctx, q)
    requires q.id in d.requests && d.requests[q.id] == q
    requires FlowResume(ctx, d, r, q.id, env).ok
    ensures r.status != RunWaitingHuman || (ResumeWrites(ctx.def, r, ResumeFor(d, q.id, env)) != [] && env.budget > 0)
  {
    var input := ResumeFor(d, q.id, env);
    if r.status == RunWaitingHuman {
      assert input.view.value.source == SOURCE_FLOW_APPROVAL != SOURCE_AGENT_REQUEST;
      assert ResumeWrites(ctx.def, r, input) != [];
    }
  }

  ghost predicate Cleared(ctx: Setting, s: System) {
    PauseWhole(s.run) && DoneCleared(ctx, s)
  }

  /** The run is as before and no request became done with. */
  lemma StillCleared(ctx: Setting, s: System, s1: System)
    requires Cleared(ctx, s) && s1.run == s.run
    requires forall id :: DoneWith(ctx, s1, id) ==> DoneWith(ctx, s, id)
    ensures Cleared(ctx, s1)
  {
  }

  lemma AdvanceCleared(ctx: Setting, s: System, input: AdvanceInput, budget: nat)
    requires Closed(ctx.def) && Safe(ctx, s) && Cleared(ctx, s) && !s.down
    requires Admissible(ctx, s, AdvanceStep(input, budget)) && KeepsPausesWhole(ctx, s, AdvanceStep(input, budget))
    ensures Cleared(ctx, s.(run := Cut(s.run, AdvanceWrites(ctx.def, s.run, input), budget)))
  {
    var r1 := Cut(s.run, AdvanceWrites(ctx.def, s.run, input), budget);
    AdvancePauseWhole(ctx.def, s.run, input, budget);
    forall id | DoneWith(ctx, s.(run := r1), id) ensures id !in r1.pending {
      assert DoneWith(ctx, s, id);
      HonestUnnamed(ctx, s, EffectiveResult(input), id);
      AdvancePendsFresh(ctx.def, s.run, input, budget, id);
    }
  }

  /** An event that does not complete the resume makes no request done with. */
  lemma EventNotDone(ctx: Setting, s: System, s1: System, id: string, e: Event, budget: nat)
    requires StoreSound(s.disk) && s1.disk == Store1(s.disk, id, e, budget)
    requires !e.Finish? || e.failure != "" || DoneWith(ctx, s, id)
      || (id in s.disk.requests && !ForRun(ctx, s.disk.requests[id]))
    requires forall w | w in s1.workers && s1.workers[w].Dispatched? :: w in s.workers && s.workers[w] == s1.workers[w]
    ensures forall x :: DoneWith(ctx, s1, x) ==> DoneWith(ctx, s, x)
  {
    EventOnDisk(s.disk, id, e, budget);
    forall x | DoneWith(ctx, s1, x) ensures DoneWith(ctx, s, x) {
      LifecycleKept(s.disk.requests[x], e);
    }
  }

  lemma CreateNotDone(ctx: Setting, s: System, step: SystemStep)
    requires Safe(ctx, s) && step.CreateStep? && Admissible(ctx, s, step)
    ensures forall x :: DoneWith(ctx, Next(ctx, s, step), x) ==> DoneWith(ctx, s, x)
  {
    hide AfterWrite, AtMostOnce, StoreSound, ValidCreate, Duplicate;
  }

  lemma DispatchCleared(ctx: Setting, s: System, worker: nat, q: Request, env: Env)
    requires Closed(ctx.def) && Safe(ctx, s) && Cleared(ctx, s)
    requires worker in s.workers && s.workers[worker] == Holding(q.id)
    requires q.id in s.disk.requests && s.disk.requests[q.id] == q
    ensures var f := Dispatch(ctx, s.disk, s.run, q, env);
      Cleared(ctx, s.(run := f.run, workers := s.workers[worker := Dispatched(q.id, f.ok)], left := s.left + f.left))
  {
    DispatchClears(ctx, s.disk, s.run, q, env);
    hide Dispatch;
    var f := Dispatch(ctx, s.disk, s.run, q, env);
    var s1 := s.(run := f.run, workers := s.workers[worker := Dispatched(q.id, f.ok)], left := s.left + f.left);
    forall id | DoneWith(ctx, s1, id) ensures id !in s1.run.pending {
      if !DoneWith(ctx, s, id) {
        assert id == q.id && f.ok;
      }
    }
  }

  lemma DirectCleared(ctx: Setting, s: System, id: string, env: Env)
    requires Closed(ctx.def) && Safe(ctx, s) && Cleared(ctx, s)
    ensures var f := FlowResume(ctx, s.disk, s.run, id, env);
      Cleared(ctx, s.(run := f.run, left := s.left + f.left))
  {
    var input := ResumeFor(s.disk, id, env);
    ResumeUnpauses(ctx.def, s.run, input, env.budget);
    OpKeeps(ctx.def, s.run, DoResume(input, env.budget));
    hide ResumeWrites;
    var f := FlowResume(ctx, s.disk, s.run, id, env);
    var s1 := s.(run := f.run, left := s.left + f.left);
    forall x | DoneWith(ctx, s1, x) ensures x !in s1.run.pending {
      assert DoneWith(ctx, s, x);
    }
  }

  lemma FinishCleared(ctx: Setting, s: System, worker: nat, now: int, budget: nat)
    requires Safe(ctx, s) && Cleared(ctx, s)
    ensures Cleared(ctx, Next(ctx, s, FinishStep(worker, now, budget)))
  {
    var s1 := Next(ctx, s, FinishStep(worker, now, budget));
    if s1 != s {
      var w := s.workers[worker];
      if w.ok && ForRun(ctx, s.disk.requests[w.id]) {
        assert s.workers[worker] == Dispatched(w.id, true);
        assert DoneWith(ctx, s, w.id);
      }
      EventNotDone(ctx, s, s1, w.id, Finish(if w.ok then "" else DISPATCH_ERROR, now), budget);
      StillCleared(ctx, s, s1);
    }
  }

  lemma EventCleared(ctx: Setting, s: System, s1: System, id: string, e: Event, budget: nat)
    requires Safe(ctx, s) && Cleared(ctx, s) && !e.Finish?
    requires s1.run == s.run && s1.disk == Store1(s.disk, id, e, budget)
    requires forall w | w in s1.workers && s1.workers[w].Dispatched? :: w in s.workers && s.workers[w] == s1.workers[w]
    ensures Cleared(ctx, s1)
  {
    EventNotDone(ctx, s, s1, id, e, budget);
    StillCleared(ctx, s, s1);
  }

  lemma NextCleared(ctx: Setting, s: System, step: SystemStep)
    requires Closed(ctx.def) && Safe(ctx, s) && Cleared(ctx, s)
    requires Admissible(ctx, s, step) && KeepsPausesWhole(ctx, s, step)
    ensures Cleared(ctx, Next(ctx, s, step))
  {
    hide AfterWrite, Safe, Cleared, FlowResume, Dispatch, AdvanceWrites, EventWrites, Honest;
    var s1 := Next(ctx, s, step);
    match step {
      case AdvanceStep(input, budget) => if !s.down { AdvanceCleared(ctx, s, input, budget); }
      case CreateStep(_, _, _, _, _) => CreateNotDone(ctx, s, step); StillCleared(ctx, s, s1);
      case TouchStep(id, event, budget) => if s1 != s { EventCleared(ctx, s, s1, id, event, budget); }
      case ClaimStep(worker, id, now, budget) => if s1 != s { EventCleared(ctx, s, s1, id, Claim(now), budget); }
      case DispatchStep(worker, env) =>
        if s1 != s { DispatchStepCleared(ctx, s, worker, env); }
      case FinishStep(worker, now, budget) => FinishCleared(ctx, s, worker, now, budget);
      case DirectResumeStep(id, env) => if !s.down { DirectCleared(ctx, s, id, env); }
      case CrashStep => StillCleared(ctx, s, s1);
      case RecoverStep(id, now, budget) => if s.down { EventCleared(ctx, s, s1, id, Recover(now), budget); }
      case BootStep => StillCleared(ctx, s, s1);
    }
  }

  lemma DispatchStepCleared(ctx: Setting, s: System, worker: nat, env: Env)
    requires Closed(ctx.def) && Safe(ctx, s) && Cleared(ctx, s)
    ensures Cleared(ctx, Next(ctx, s, DispatchStep(worker, env)))
  {
    hide AfterWrite, AtMostOnce, Cleared, Dispatch, Closed, Lifecycle;
    if worker in s.workers && s.workers[worker].Holding? && s.workers[worker].id in s.disk.requests {
      var q := s.disk.requests[s.workers[worker].id];
      assert StoreSound(s.disk);
      DispatchCleared(ctx, s, worker, q, env);
    }
  }

  lemma {:induction false} RunsStayCleared(ctx: Setting, s: System, steps: seq<SystemStep>)
    requires Closed(ctx.def) && Safe(ctx, s) && Cleared(ctx, s)
    requires AllAdmissible(ctx, s, steps) && AllKeepPausesWhole(ctx, s, steps)
    ensures Safe(ctx, RunSystem(ctx, s, steps)) && Cleared(ctx, RunSystem(ctx, s, steps))
    decreases |steps|
  {
    hide Closed, Safe, Cleared, Next, Admissible, KeepsPausesWhole;
    if steps != [] {
      NextSafe(ctx, s, steps[0]);
      NextCleared(ctx, s, steps[0]);
      RunsStayCleared(ctx, Next(ctx, s, steps[0]), steps[1..]);
    }
  }

  predicate CompletedHere(ctx: Setting, s: System, id: string) {
    id in s.disk.requests && ForRun(ctx, s.disk.requests[id]) && s.disk.requests[id].resume.status == ResumeCompleted
  }

  /** If no Advance is cut between its result write and its pause write, a request whose
      resume is recorded as completed is never in the run's pending list. */
  lemma CompletedNeverPending(ctx: Setting, s: System, steps: seq<SystemStep>, id: string)
    requires Closed(ctx.def) && Safe(ctx, s) && Cleared(ctx, s)
    requires AllAdmissible(ctx, s, steps) && AllKeepPausesWhole(ctx, s, steps)
    requires CompletedHere(ctx, RunSystem(ctx, s, steps), id)
    ensures id !in RunSystem(ctx, s, steps).run.pending
  {
    hide Closed, Safe, PauseWhole, RunSystem, AllAdmissible, AllKeepPausesWhole, ForRun;
    RunsStayCleared(ctx, s, steps);
    assert DoneWith(ctx, RunSystem(ctx, s, steps), id);
  }

  // ----- What a cut Advance leaves behind -----

  /** The result of the current step is on disk, the pause is not. */
  predicate HalfPaused(r: Run) {
    !PauseWhole(r) && !Over(r.status)
  }

  /** Exactly which Advance leaves a pause half recorded. */
  lemma PauseHalvedExactly(def: Definition, r: Run, input: AdvanceInput, budget: nat)
    requires Closed(def) && AfterWrite(def, r) && PauseWhole(r)
    ensures var r1 := Cut(r, AdvanceWrites(def, r, input), budget);
      !PauseWhole(r1) <==> Executes(def, r) && EffectiveResult(input).status == ExecWaitingHuman && budget == 2
    ensures var r1 := Cut(r, AdvanceWrites(def, r, input), budget); !PauseWhole(r1) ==> HalfPaused(r1)
  {
    if Executes(def, r) && EffectiveResult(input).status == ExecWaitingHuman && budget == 2 {
      hide SoundStep, PendingFor, Closed, TransitionWrites, FailureWrites, ResolveNext;
      assert AdvanceWrites(def, r, input) == ExecutionWrites(r, StepById(def, r.current).value, input);
    } else {
      AdvancePauseWhole(def, r, input, budget);
      hide AdvanceWrites, PauseWhole;
    }
  }

  /** On a half recorded pause Advance only finishes the pause. */
  lemma PauseFinished(def: Definition, r: Run, input: AdvanceInput)
    requires AfterWrite(def, r) && HalfPaused(r)
    ensures AdvanceWrites(def, r, input) == [Paused(r, StateOf(r, r.current).requests)]
    ensures var r1 := Paused(r, StateOf(r, r.current).requests);
      r1.status == RunWaitingHuman && r1.pending == PendingFor(StateOf(r, r.current).requests)
  {
    assert r.current in r.steps;
    assert SoundStep(def, r, r.current);
    assert r.pending == [];
  }

  /** Exactly when Advance puts a request whose work is done on the pending list: the pause
      that links it was half recorded. */
  lemma DonePendedExactly(ctx: Setting, s: System, input: AdvanceInput, budget: nat, id: string)
    requires Safe(ctx, s) && !s.down && Honest(ctx, s, EffectiveResult(input))
    requires UsedUp(ctx, s, id) && id !in s.run.pending
    ensures id in Next(ctx, s, AdvanceStep(input, budget)).run.pending <==>
      HalfPaused(s.run) && budget > 0 && id in PendingFor(StateOf(s.run, s.run.current).requests)
  {
    var r1 := Cut(s.run, AdvanceWrites(ctx.def, s.run, input), budget);
    assert Next(ctx, s, AdvanceStep(input, budget)).run == r1;
    HonestUnnamed(ctx, s, EffectiveResult(input), id);
    hide Next, Honest, UsedUp, Unnamed, AtMostOnce, StoreSound, ClaimsExclusive;
    PendedExactly(ctx.def, s.run, input, budget, id);
  }

  lemma PendedExactly(def: Definition, r: Run, input: AdvanceInput, budget: nat, id: string)
    requires AfterWrite(def, r) && Unnamed(EffectiveResult(input), id) && id !in r.pending
    ensures id in Cut(r, AdvanceWrites(def, r, input), budget).pending <==>
      HalfPaused(r) && budget > 0 && id in PendingFor(StateOf(r, r.current).requests)
  {
    if HalfPaused(r) {
      PauseFinished(def, r, input);
      hide AdvanceWrites, PendingFor;
    } else if PauseWhole(r) {
      hide AfterWrite, AdvanceWrites, Unnamed;
      AdvancePendsFresh(def, r, input, budget, id);
    } else {
      hide AfterWrite;
    }
  }

  /** While the pause is half recorded a dispatch reports success and changes nothing. */
  lemma SwallowedDispatch(ctx: Setting, d: Disk, r: Run, q: Request, env: Env)
    requires AfterWrite(ctx.def, r) && HalfPaused(r)
    requires ForRun(ctx, q) && !Blank(q.id)
    ensures Dispatch(ctx, d, r, q, env) == FlowStep(r, true, [])
  {
    assert r.status != RunWaitingHuman;
  }

  /** The three steps of one resume whose dispatch reports success. */
  function WorkRound(ctx: Setting, s: System, id: string, worker: nat, env: Env, now: int): System {
    var claimed := Next(ctx, s, ClaimStep(worker, id, now, 1));
    Next(ctx, Next(ctx, claimed, DispatchStep(worker, env)), FinishStep(worker, now, 1))
  }

  /** A round that the flow swallows completes the request and leaves the run alone. */
  lemma SwallowedRound(ctx: Setting, s: System, id: string, worker: nat, env: Env, now: int)
    requires !s.down && worker !in s.workers && id in s.disk.requests && s.disk.requests[id].id == id
    requires Claimed(s.disk.requests[id], now).Changed?
    requires forall d, q: Request | q.id == id && ForRun(ctx, q) ::
      Dispatch(ctx, d, s.run, q, env) == FlowStep(s.run, true, [])
    requires ForRun(ctx, s.disk.requests[id])
    ensures var last := WorkRound(ctx, s, id, worker, env, now);
      && last.run == s.run && last.left == s.left && !last.down && CompletedHere(ctx, last, id)
  {
    hide Dispatch;
    var q := Claimed(s.disk.requests[id], now).request;
    var d1 := s.disk.(requests := s.disk.requests[id := q]);
    var s1 := s.(disk := d1, workers := s.workers[worker := Holding(id)]);
    assert Next(ctx, s, ClaimStep(worker, id, now, 1)) == s1;
    assert Dispatch(ctx, d1, s.run, q, env) == FlowStep(s.run, true, []);
    var s2 := s1.(workers := s1.workers[worker := Dispatched(id, true)]);
    assert s1.left + [] == s1.left;
    assert Next(ctx, s1, DispatchStep(worker, env)) == s2;
  }

  /** The premise is needed: with the pause half recorded, resume work on a linked,
      answered request is swallowed, recorded as completed, and the next Advance then
      makes the run wait for that very request. */
  lemma HalfPauseStrands(ctx: Setting, s: System, id: string, worker: nat, env: Env, now: int, input: AdvanceInput)
    requires Safe(ctx, s) && !s.down && worker !in s.workers && HalfPaused(s.run)
    requires !Blank(id) && id in PendingFor(StateOf(s.run, s.run.current).requests)
    requires id in s.disk.requests && ForRun(ctx, s.disk.requests[id]) && Claimed(s.disk.requests[id], now).Changed?
    ensures var last := Next(ctx, WorkRound(ctx, s, id, worker, env, now), AdvanceStep(input, 1));
      && last.run.status == RunWaitingHuman && id in last.run.pending
      && CompletedHere(ctx, last, id) && last.left == s.left
  {
    PauseFinished(ctx.def, s.run, input);
    forall d, q: Request | q.id == id && ForRun(ctx, q)
      ensures Dispatch(ctx, d, s.run, q, env) == FlowStep(s.run, true, [])
    {
      SwallowedDispatch(ctx, d, s.run, q, env);
    }
    hide Dispatch, AfterWrite, AdvanceWrites, HalfPaused, WorkRound, ClaimsExclusive, AtMostOnce;
    SwallowedRound(ctx, s, id, worker, env, now);
  }

  // ----- Where every system starts -----

  function FreshSystem(start: string, written: nat): System
    requires written >= 1
  {
    System(Disk(map[], map[]), StartedRun(start, written), map[], false, [])
  }

  /** A started run beside an empty store, its Start cut or not, satisfies everything the
      theorems assume. */
  lemma FreshSystemSafe(ctx: Setting, entrypoint: string, written: nat)
    requires ValidDefinition(ctx.def) && FindEntrypoint(ctx.def.entrypoints, entrypoint).Some? && written >= 1
    ensures Closed(ctx.def) && ResolveEntrypoint(ctx.def, entrypoint).Some?
    ensures var s := FreshSystem(ResolveEntrypoint(ctx.def, entrypoint).value.id, written);
      Safe(ctx, s) && Cleared(ctx, s)
  {
    ValidIsClosed(ctx.def);
    StartKeeps(ctx.def, entrypoint);
    var start := ResolveEntrypoint(ctx.def, entrypoint).value.id;
    assert PauseWhole(StartedRun(start, written));
    assert AfterWrite(ctx.def, StartedRun(start, written));
    hide Closed, AfterWrite, ValidDefinition, FindEntrypoint, ResolveEntrypoint, StartedRun, PauseWhole, Safe, Cleared;
    EmptyStoreSafe(ctx, StartedRun(start, written));
  }

  lemma EmptyStoreSafe(ctx: Setting, r: Run)
    requires AfterWrite(ctx.def, r) && PauseWhole(r)
    ensures var s := System(Disk(map[], map[]), r, map[], false, []); Safe(ctx, s) && Cleared(ctx, s)
  {
    hide AfterWrite, PauseWhole, ForRun;
  }
}
