/** The other half of effectively once: reconciliation does end the pause of a run whose
    linked approval is answered (runtime/human_requests.go). */
module EffectivelyOnce {
  import opened Common
  import opened Text
  import opened FlowDefinition
  import opened FlowRun
  import opened FlowKernel
  import opened FlowInvariant
  import opened FlowEffects
  import opened FlowLaws
  import opened HumanRequest
  import opened HumanRequestHistory
  import opened HumanRequestStore
  import opened DurableResume
  import opened ResumeService

  /** The request is an approval of this run, linked to the step it waits at. */
  predicate Links(ctx: Setting, r: Run, q: Request) {
    ForRun(ctx, q) && !Blank(q.id) && r.status == RunWaitingHuman && q.id in StateOf(r, r.current).requests
  }

  /** The resume of a linked, answered approval is not refused. */
  lemma LinkedNotRefused(ctx: Setting, d: Disk, r: Run, q: Request, env: Env)
    requires AfterWrite(ctx.def, r) && Links(ctx, r, q)
    requires q.id in d.requests && d.requests[q.id] == q && q.status == Resolved
    ensures ResumeWrites(ctx.def, r, ResumeFor(d, q.id, env)) != []
  {
    hide SoundStep, PendingFor, KindName;
    assert r.current != "" && r.current in r.steps;
    assert ResumeRefusal(ctx.def, r, ResumeFor(d, q.id, env)).None?;
  }

  /** Everything else leaves the run as it is. */
  lemma UnlinkedIgnored(ctx: Setting, d: Disk, r: Run, q: Request, env: Env)
    requires AfterWrite(ctx.def, r) && !Links(ctx, r, q)
    ensures Dispatch(ctx, d, r, q, env).run == r && Dispatch(ctx, d, r, q, env).left == []
  {
    hide SoundStep, PendingFor, KindName;
    if ForRun(ctx, q) {
      var input := ResumeFor(d, q.id, env);
      if r.status == RunWaitingHuman && !Blank(q.id) {
        assert r.current in r.steps;
        assert ResumeRefusal(ctx.def, r, input).Some?;
      }
      assert ResumeWrites(ctx.def, r, input) == [];
    }
  }

  lemma LinkedEnds(ctx: Setting, d: Disk, r: Run, q: Request, env: Env)
    requires Closed(ctx.def) && AfterWrite(ctx.def, r) && Links(ctx, r, q) && env.budget > 0
    requires q.id in d.requests && d.requests[q.id] == q && q.status == Resolved
    ensures var f := Dispatch(ctx, d, r, q, env); f.run.status != RunWaitingHuman && f.left == [q.id]
  {
    var input := ResumeFor(d, q.id, env);
    LinkedNotRefused(ctx, d, r, q, env);
    hide AfterWrite, ResumeWrites, ResumeOutcome, Closed;
    ResumeUnpauses(ctx.def, r, input, env.budget);
  }

  /** One attempt on a resumable request: it ends the pause exactly if it is linked. */
  lemma AttemptEnds(ctx: Setting, w: World, q: Request, plan: Plan)
    requires Closed(ctx.def) && AfterWrite(ctx.def, w.run)
    requires Resumable(q) && Writable(plan) && plan.env.budget > 0
    requires q.id in w.disk.requests && w.disk.requests[q.id] == q
    ensures var w1 := Attempt(ctx, w, q, plan).world;
      if Links(ctx, w.run, q) then w1.run.status != RunWaitingHuman && w1.left == w.left + [q.id]
      else w1.run == w.run && w1.left == w.left
  {
    hide Closed, AfterWrite, Dispatch, Store1;
    var held := Claimed(q, plan.claimAt).request;
    var d := w.disk.(requests := w.disk.requests[q.id := held]);
    assert held.id == q.id && held.status == Resolved && d.requests[q.id] == held;
    assert Links(ctx, w.run, held) <==> Links(ctx, w.run, q);
    var f := Dispatch(ctx, d, w.run, held, plan.env);
    assert Attempt(ctx, w, q, plan).world.run == f.run && Attempt(ctx, w, q, plan).world.left == w.left + f.left;
    hide Links, Attempt, Claimed, Writable, Resumable;
    if Links(ctx, w.run, q) {
      LinkedEnds(ctx, d, w.run, held, plan.env);
    } else {
      UnlinkedIgnored(ctx, d, w.run, held, plan.env);
      assert w.left + [] == w.left;
    }
  }

  /** The requests of the list that are linked to the paused step. */
  predicate SomeLinked(ctx: Setting, r: Run, list: seq<Request>) {
    exists q | q in list :: Links(ctx, r, q)
  }

  /** After a pass: still paused as before, or left by exactly one linked request. */
  predicate PassedOver(ctx: Setting, w: World, list: seq<Request>, end: World) {
    if SomeLinked(ctx, w.run, list) then
      && end.run.status != RunWaitingHuman
      && |end.left| == |w.left| + 1 && end.left[..|w.left|] == w.left
      && exists q | q in list :: Links(ctx, w.run, q) && q.id == end.left[|w.left|]
    else end.run == w.run && end.left == w.left
  }

  lemma PassNext(ctx: Setting, w: World, list: seq<Request>, q: Request, before: World, end: World)
    requires PassedOver(ctx, w, list, before)
    requires if Links(ctx, before.run, q) then end.run.status != RunWaitingHuman && end.left == before.left + [q.id]
             else end.run == before.run && end.left == before.left
    ensures PassedOver(ctx, w, list + [q], end)
  {
    if SomeLinked(ctx, w.run, list) {
      assert !Links(ctx, before.run, q);
      var x :| x in list && Links(ctx, w.run, x) && x.id == before.left[|w.left|];
      assert x in list + [q];
    } else if Links(ctx, w.run, q) {
      assert q in list + [q];
    } else {
      assert forall x | x in list + [q] :: !Links(ctx, w.run, x);
    }
  }

  lemma {:induction false} PassEnds(ctx: Setting, s: System, list: seq<Request>, plans: string -> Plan)
    requires Closed(ctx.def) && Safe(ctx, s) && !s.down
    requires Listed(s.disk.requests, list) && DistinctIds(list)
    requires forall q | q in list :: Resumable(q) && Writable(plans(q.id)) && plans(q.id).env.budget > 0
    ensures PassedOver(ctx, WorldOf(s), list, AttemptEach(ctx, WorldOf(s), list, plans).world)
  {
    hide Closed, Safe, Resumable, Writable, Attempt, PassedOver, AttemptRecorded, Links;
    var w := WorldOf(s);
    if list == [] {
      EmptyPass(ctx, w);
    } else {
      var n := |list| - 1;
      var q := list[n];
      var before := AttemptEach(ctx, w, list[..n], plans).world;
      PassEnds(ctx, s, list[..n], plans);
      ReconcileReachesAll(ctx, w, list[..n], plans);
      assert q in list;
      assert !InList(list[..n], q.id);
      ReconcileSafe(ctx, s, list[..n], plans);
      SafeRun(ctx, Within(s, before));
      AttemptEnds(ctx, before, q, plans(q.id));
      PassNext(ctx, w, list[..n], q, before, AttemptEach(ctx, w, list, plans).world);
      SplitLast(list);
    }
  }

  lemma EmptyPass(ctx: Setting, w: World)
    ensures PassedOver(ctx, w, [], w)
  {
  }

  lemma SafeRun(ctx: Setting, s: System)
    requires Safe(ctx, s)
    ensures AfterWrite(ctx.def, s.run)
  {
    hide AfterWrite;
  }

  /** What `ListResumable` looks for. */
  predicate AllResumable(d: Disk, list: seq<Request>) {
    && Listed(d.requests, list) && DistinctIds(list)
    && forall id | id in d.requests ::
         InList(list, id) <==>
         d.requests[id].status == Resolved && d.requests[id].resume.status in {ResumePending, ResumeFailed}
  }

  lemma ListedResumable(d: Disk, list: seq<Request>)
    requires StoreSound(d) && AllResumable(d, list)
    ensures forall q | q in list :: Resumable(q)
  {
    forall q | q in list ensures Resumable(q) {
      assert InList(list, q.id);
      assert Lifecycle(d.requests[q.id]);
    }
  }

  /** The answered approval is on the list: recovery left it not running, and a completed
      one would not be pending. */
  lemma LinkedListed(ctx: Setting, s: System, list: seq<Request>, id: string)
    requires Safe(ctx, s) && Cleared(ctx, s) && AllResumable(s.disk, list)
    requires IsResolved(s.disk, id) && Links(ctx, s.run, s.disk.requests[id]) && Trim(id) == id
    requires s.disk.requests[id].resume.status != ResumeRunning
    ensures SomeLinked(ctx, s.run, list)
  {
    var q := s.disk.requests[id];
    assert q.id == id && Lifecycle(q);
    LinkedPending(ctx, s.run, q);
    hide AfterWrite, Trim, Blank, AtMostOnce, ClaimsExclusive, PauseWhole;
    assert q.resume.status == ResumeCompleted ==> DoneWith(ctx, s, id);
    assert InList(list, id);
    var x :| x in list && x.id == id;
    assert x == q;
  }

  lemma LinkedPending(ctx: Setting, r: Run, q: Request)
    requires AfterWrite(ctx.def, r) && Links(ctx, r, q) && Trim(q.id) == q.id
    ensures q.id in r.pending
  {
    var requests := StateOf(r, r.current).requests;
    PendingMembers(requests);
    hide SoundStep, Trim, ForRun;
    var i :| 0 <= i < |requests| && requests[i] == q.id;
    assert Trim(requests[i]) == q.id;
    assert q.id != "";
  }

  /** Effectively once. Take a waiting run with an answered approval linked to the step it
      waits at, not held by a worker, as recovery leaves it. An uncanceled reconciliation
      whose files are writable and whose dispatches can write the run takes it out of that
      pause, by exactly one such request; and no request ever does so twice. */
  lemma ReconcileEndsPause(ctx: Setting, s: System, list: seq<Request>, plans: string -> Plan, id: string)
    requires Closed(ctx.def) && Safe(ctx, s) && Cleared(ctx, s) && !s.down
    requires AllResumable(s.disk, list)
    requires forall q | q in list :: Writable(plans(q.id)) && plans(q.id).env.budget > 0
    requires IsResolved(s.disk, id) && Links(ctx, s.run, s.disk.requests[id]) && Trim(id) == id
    requires s.disk.requests[id].resume.status != ResumeRunning
    ensures var end := AttemptEach(ctx, WorldOf(s), list, plans).world;
      && end.run.status != RunWaitingHuman
      && |end.left| == |s.left| + 1 && end.left[..|s.left|] == s.left && Distinct(end.left)
      && exists q | q in list :: Links(ctx, s.run, q) && q.id == end.left[|s.left|]
  {
    LinkedListed(ctx, s, list, id);
    StoreOf(ctx, s);
    ListedResumable(s.disk, list);
    hide Safe, Cleared, Closed, Links, Resumable, Writable, AttemptEach, SomeLinked, IsResolved, Trim;
    PassEnds(ctx, s, list, plans);
    ReconcileSafe(ctx, s, list, plans);
    LeftDistinct(ctx, Within(s, AttemptEach(ctx, WorldOf(s), list, plans).world));
  }

  lemma StoreOf(ctx: Setting, s: System)
    requires Safe(ctx, s)
    ensures StoreSound(s.disk)
  {
    hide AfterWrite, StoreSound;
  }

  lemma LeftDistinct(ctx: Setting, s: System)
    requires Safe(ctx, s)
    ensures Distinct(s.left)
  {
    hide AfterWrite, Spent;
  }

  // ----- The human's decision is what the flow records -----

  /** What the flow is told for an answer: the decision, or the text of a free answer. */
  function Told(a: Response): string {
    match a.kind
    case Approve => "approve"
    case Deny => "deny"
    case Cancel => "cancel"
    case Answer => if Blank(a.message) then "answer" else Trim(a.message)
  }

  lemma ToldToFlow(d: Disk, q: Request, env: Env)
    requires q.id in d.requests && d.requests[q.id] == q
    requires q.source == SOURCE_FLOW_APPROVAL && q.status == Resolved && q.response.Some?
    ensures var input := ResumeFor(d, q.id, env);
      && input.request == q.id && input.view.Some?
      && input.view.value.resolved && input.view.value.source == SOURCE_FLOW_APPROVAL
      && input.view.value.kind == Told(q.response.value) && input.view.value.message == q.response.value.message
  {
    hide Trim, Blank;
  }

  /** From the stored answer to the run file: dispatching a linked, answered approval leaves
      the step with one output, in its first declared slot, else "approval_signal", and that
      output is the decision in the step's own options. */
  lemma DecisionReachesRun(ctx: Setting, d: Disk, r: Run, q: Request, env: Env)
    requires AfterWrite(ctx.def, r) && Links(ctx, r, q) && env.budget > 0
    requires q.id in d.requests && d.requests[q.id] == q && q.status == Resolved && q.response.Some?
    ensures StepById(ctx.def, r.current).Some?
    ensures var step := StepById(ctx.def, r.current).value;
      var s := StateOf(Dispatch(ctx, d, r, q, env).run, r.current);
      var slot := if step.slots == [] then "approval_signal" else step.slots[0];
      && slot in s.outputs && s.outputs == map[slot := s.outputs[slot]]
      && Spells(Told(q.response.value), step.executor.options, s.outputs[slot])
      && s.requests == []
  {
    var input := ResumeFor(d, q.id, env);
    ToldToFlow(d, q, env);
    LinkedBrings(ctx, r, q, input);
    var step := StepById(ctx.def, r.current).value;
    BringsAnswers(ctx.def, r, input, step);
    ApprovalTakesEffect(ctx.def, r, input, env.budget);
    SignalSpelled(input.view.value.kind, step);
    assert Dispatch(ctx, d, r, q, env).run == Apply(ctx.def, r, DoResume(input, env.budget));
    hide AfterWrite, Apply, Dispatch, SignalFor, Told, Links;
  }

  lemma LinkedBrings(ctx: Setting, r: Run, q: Request, input: ResumeInput)
    requires AfterWrite(ctx.def, r) && Links(ctx, r, q)
    requires input.request == q.id && input.view.Some? && input.view.value.resolved
    ensures StepById(ctx.def, r.current).Some?
    ensures Brings(ctx.def, r, input, StepById(ctx.def, r.current).value)
  {
    hide SoundStep, PendingFor;
    assert r.current in r.steps;
  }

  /** Where an answer goes: an approval of this run to the flow, one of another run or of an
      agent to work outside this run, an approval that names no run nowhere, with an error,
      and any other request nowhere, without one. */
  lemma DispatchExactly(ctx: Setting, d: Disk, r: Run, q: Request, env: Env)
    ensures var f := Dispatch(ctx, d, r, q, env);
      var input := ResumeFor(d, q.id, env);
      if q.source == "flow_human_approval" && Trim(q.flowRunId) != "" && Trim(q.flowRunId) == ctx.runId then
        && f.run == Apply(ctx.def, r, DoResume(input, env.budget))
        && f.left == (if ResumeWrites(ctx.def, r, input) == [] || env.budget == 0 then [] else [q.id])
        && (f.ok <==> ResumeOutcome(ctx.def, r, input) == Done && Uncut(ctx.def, r, DoResume(input, env.budget)))
      else
        && f.run == r && f.left == []
        && (q.source == "flow_human_approval" ==> (f.ok <==> Trim(q.flowRunId) != "" && env.elsewhereOk))
        && (q.source == "agent_request" ==> (f.ok <==> env.elsewhereOk))
        && (q.source != "flow_human_approval" && q.source != "agent_request" ==> f.ok)
  {
    assert Blank(q.flowRunId) <==> Trim(q.flowRunId) == "" by { TrimBlank(q.flowRunId); }
    hide Trim, Blank, ResumeWrites, ResumeOutcome, ResumeFor;
    assert ForRun(ctx, q) ==> Dispatch(ctx, d, r, q, env) == FlowResume(ctx, d, r, q.id, env);
  }
}
