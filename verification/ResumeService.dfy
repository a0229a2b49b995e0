/** One process driving durable resumes: `resumeResolvedHumanRequest` and
    `ReconcileHumanRequests` (runtime/human_requests.go). */
module ResumeService {
  import opened Common
  import opened Text
  import opened FlowDefinition
  import opened FlowRun
  import opened FlowKernel
  import opened FlowInvariant
  import opened HumanRequest
  import opened HumanRequestHistory
  import opened HumanRequestStore
  import opened DurableResume

  /** What the environment decides about one attempt: clocks, surviving writes, dispatch. */
  datatype Plan = Plan(claimAt: int, claimBudget: nat, env: Env, finishAt: int, finishBudget: nat)

  datatype World = World(disk: Disk, run: Run, left: seq<string>)

  datatype Attempted = Attempted(world: World, failed: bool)

  /** One call of `resumeResolvedHumanRequest`. */
  function Attempt(ctx: Setting, w: World, q: Request, plan: Plan): Attempted {
    if q.resume.status == ResumeUnset then
      var f := Dispatch(ctx, w.disk, w.run, q, plan.env);
      Attempted(World(w.disk, f.run, w.left + f.left), !f.ok)
    else if q.id !in w.disk.requests then Attempted(w, true)
    else match Claimed(w.disk.requests[q.id], plan.claimAt)
      case Refused(_) => Attempted(w, true)
      case Same => Attempted(w, false)
      case Changed(held) =>
        if plan.claimBudget == 0 then Attempted(w, true)
        else
          var d := w.disk.(requests := w.disk.requests[q.id := held]);
          var f := Dispatch(ctx, d, w.run, held, plan.env);
          Attempted(
            World(Store1(d, q.id, Finish(if f.ok then "" else DISPATCH_ERROR, plan.finishAt), plan.finishBudget),
                  f.run, w.left + f.left),
            !f.ok || plan.finishBudget == 0)
  }

  datatype Reconciled = Reconciled(world: World, failures: seq<string>)

  /** Every request of the list in turn, whatever happened to the ones before. */
  function AttemptEach(ctx: Setting, w: World, list: seq<Request>, plans: string -> Plan): Reconciled {
    if list == [] then Reconciled(w, [])
    else
      var n := |list| - 1;
      var before := AttemptEach(ctx, w, list[..n], plans);
      var a := Attempt(ctx, before.world, list[n], plans(list[n].id));
      Reconciled(a.world, before.failures + if a.failed then [list[n].id] else [])
  }

  class Service {
    const ctx: Setting
    const store: Store
    const kernel: Kernel
    ghost var left: seq<string>

    ghost predicate Valid()
      reads this, store, kernel
    {
      kernel.def == ctx.def && kernel.file.Some? && Keyed(store.requests)
    }

    ghost function Here(): World
      reads this, store, kernel
      requires Valid()
    {
      World(store.Contents(), kernel.file.value, left)
    }

    constructor (ctx: Setting, store: Store, kernel: Kernel)
      requires kernel.def == ctx.def && kernel.file.Some? && Keyed(store.requests)
      ensures Valid() && left == [] && this.ctx == ctx && this.store == store && this.kernel == kernel
    {
      this.ctx, this.store, this.kernel, this.left := ctx, store, kernel, [];
    }

    /** `dispatchHumanRequestResume`. */
    method DispatchResume(q: Request, env: Env) returns (ok: bool)
      requires Valid()
      modifies this`left, kernel`file
      ensures Valid()
      ensures var w := old(Here()); var f := Dispatch(ctx, w.disk, w.run, q, env);
        Here() == World(w.disk, f.run, w.left + f.left) && ok == f.ok
    {
      if q.source == SOURCE_AGENT_REQUEST { return env.elsewhereOk; }
      if q.source != SOURCE_FLOW_APPROVAL { return true; }
      if Blank(q.flowRunId) { return false; }
      if Trim(q.flowRunId) != ctx.runId { return env.elsewhereOk; }
      ghost var f := FlowResume(ctx, store.Contents(), kernel.file.value, q.id, env);
      var out := kernel.Resume(ResumeFor(store.Contents(), q.id, env), env.budget);
      left := left + f.left;
      return out == Done;
    }

    method ResumeResolved(q: Request, plan: Plan) returns (failed: bool)
      requires Valid()
      modifies this`left, kernel`file, store
      ensures Valid()
      ensures var a := Attempt(ctx, old(Here()), q, plan); Here() == a.world && failed == a.failed
    {
      hide Dispatch;
      if q.resume.status == ResumeUnset {
        var ok := DispatchResume(q, plan.env);
        return !ok;
      }
      var claimed, reply := store.ClaimResume(q.id, plan.claimAt, plan.claimBudget);
      if !claimed { return reply.Err?; }
      ghost var d := store.Contents();
      var ok := DispatchResume(reply.request, plan.env);
      var finished := store.FinishResume(q.id, if ok then "" else DISPATCH_ERROR, plan.finishAt, plan.finishBudget);
      return !ok || finished.Err?;
    }

    /** Attempts every resumable request; `upTo` is where a canceled context stops it. The
        returned error joins the failures and, if it cut the list short, the cancellation. */
    method Reconcile(plans: string -> Plan, upTo: nat)
      returns (failures: seq<string>, canceled: bool, ghost all: seq<Request>)
      requires Valid()
      modifies this`left, kernel`file, store
      ensures Valid()
      ensures Ordered(all) && Listed(old(store.requests), all)
      ensures forall id | id in old(store.requests) :: InList(all, id) <==>
        var r := old(store.requests)[id]; r.status == Resolved && r.resume.status in {ResumePending, ResumeFailed}
      ensures var end := AttemptEach(ctx, old(Here()), all[..Min(upTo, |all|)], plans);
        Here() == end.world && failures == end.failures
      ensures canceled <==> upTo < |all|
    {
      var list := store.ListResumable();
      all := list;
      failures, canceled := [], false;
      for i := 0 to |list|
        invariant !canceled && i <= upTo
        invariant Valid()
        invariant AttemptEach(ctx, old(Here()), list[..i], plans) == Reconciled(Here(), failures)
      {
        if i == upTo {
          canceled := true;
          return;
        }
        assert list[..i + 1][..i] == list[..i];
        var failed := ResumeResolved(list[i], plans(list[i].id));
        if failed { failures := failures + [list[i].id]; }
      }
    }
  }

  // ----- One attempt is three steps of the protocol -----

  /** The process as part of the system, its other workers aside. */
  function Within(s: System, w: World): System {
    s.(disk := w.disk, run := w.run, left := w.left)
  }

  function WorldOf(s: System): World {
    World(s.disk, s.run, s.left)
  }

  function StepsOf(ctx: Setting, q: Request, plan: Plan, worker: nat): seq<SystemStep> {
    if q.resume.status != ResumeUnset then
      [ClaimStep(worker, q.id, plan.claimAt, plan.claimBudget), DispatchStep(worker, plan.env),
       FinishStep(worker, plan.finishAt, plan.finishBudget)]
    else if ForRun(ctx, q) then [DirectResumeStep(q.id, plan.env)] else []
  }

  lemma RunThree(ctx: Setting, s: System, a: SystemStep, b: SystemStep, c: SystemStep)
    ensures RunSystem(ctx, s, [a, b, c]) == Next(ctx, Next(ctx, Next(ctx, s, a), b), c)
  {
    hide Next;
    var s1 := Next(ctx, s, a);
    var s2 := Next(ctx, s1, b);
    assert [a, b, c][1..] == [b, c] && [b, c][1..] == [c] && [c][1..] == [];
    assert RunSystem(ctx, s2, [c]) == Next(ctx, s2, c);
    assert RunSystem(ctx, s1, [b, c]) == RunSystem(ctx, s2, [c]);
  }

  /** Undisturbed, `resumeResolvedHumanRequest` is exactly claim, dispatch and finish. */
  lemma AttemptIsSteps(ctx: Setting, s: System, q: Request, plan: Plan, worker: nat)
    requires Keyed(s.disk.requests) && !s.down && worker !in s.workers
    ensures RunSystem(ctx, s, StepsOf(ctx, q, plan, worker)) == Within(s, Attempt(ctx, WorldOf(s), q, plan).world)
  {
    var steps := StepsOf(ctx, q, plan, worker);
    assert s.left + [] == s.left;
    if q.resume.status != ResumeUnset {
      ClaimedAttempt(ctx, s, q, plan, worker);
      RunThree(ctx, s, steps[0], steps[1], steps[2]);
    } else if ForRun(ctx, q) {
      assert steps[1..] == [];
      assert RunSystem(ctx, s, steps) == Next(ctx, s, steps[0]);
    }
  }

  lemma ClaimedAttempt(ctx: Setting, s: System, q: Request, plan: Plan, worker: nat)
    requires Keyed(s.disk.requests) && !s.down && worker !in s.workers && q.resume.status != ResumeUnset
    ensures Next(ctx, Next(ctx, Next(ctx, s, ClaimStep(worker, q.id, plan.claimAt, plan.claimBudget)),
              DispatchStep(worker, plan.env)), FinishStep(worker, plan.finishAt, plan.finishBudget))
      == Within(s, Attempt(ctx, WorldOf(s), q, plan).world)
  {
    hide Dispatch;
    var s1 := Next(ctx, s, ClaimStep(worker, q.id, plan.claimAt, plan.claimBudget));
    if s1 != s {
      var held := Claimed(s.disk.requests[q.id], plan.claimAt).request;
      assert s1.disk == s.disk.(requests := s.disk.requests[q.id := held]);
      assert s1.workers - {worker} == s.workers;
    }
  }

  /** Reconciliation keeps every guarantee of the protocol, at most once included, even
      beside workers of other goroutines. */
  lemma {:induction false} ReconcileSafe(ctx: Setting, s: System, list: seq<Request>, plans: string -> Plan)
    requires Closed(ctx.def) && Safe(ctx, s) && !s.down
    ensures Safe(ctx, Within(s, AttemptEach(ctx, WorldOf(s), list, plans).world))
  {
    hide Attempt, Safe, Closed;
    if list != [] {
      var n := |list| - 1;
      ReconcileSafe(ctx, s, list[..n], plans);
      AttemptSafe(ctx, Within(s, AttemptEach(ctx, WorldOf(s), list[..n], plans).world), list[n], plans(list[n].id));
    }
  }

  lemma FreeWorker(workers: set<nat>) returns (worker: nat)
    ensures worker !in workers
  {
    worker := 0;
    var below := {};
    while worker in workers
      invariant below <= workers && forall w | w in below :: w < worker
      decreases workers - below
    {
      below := below + {worker};
      worker := worker + 1;
    }
  }

  lemma AttemptSafe(ctx: Setting, s: System, q: Request, plan: Plan)
    requires Closed(ctx.def) && Safe(ctx, s) && !s.down
    ensures Safe(ctx, Within(s, Attempt(ctx, WorldOf(s), q, plan).world))
  {
    var worker := FreeWorker(s.workers.Keys);
    var steps := StepsOf(ctx, q, plan, worker);
    AttemptIsSteps(ctx, s, q, plan, worker);
    StepsAdmissible(ctx, s, q, plan, worker);
    hide Attempt, AfterWrite, RunSystem;
    ResumeAtMostOnce(ctx, s, steps);
  }

  lemma StepsAdmissible(ctx: Setting, s: System, q: Request, plan: Plan, worker: nat)
    ensures AllAdmissible(ctx, s, StepsOf(ctx, q, plan, worker))
  {
    hide Next;
    var steps := StepsOf(ctx, q, plan, worker);
    if q.resume.status != ResumeUnset {
      var s1 := Next(ctx, s, steps[0]);
      var s2 := Next(ctx, s1, steps[1]);
      assert steps[1..][1..] == steps[2..] && steps[2..][1..] == [];
      assert AllAdmissible(ctx, s2, steps[2..]);
      assert AllAdmissible(ctx, s1, steps[1..]);
    }
  }

  // ----- One failure does not stop the others -----

  predicate Writable(plan: Plan) {
    plan.claimBudget > 0 && plan.finishBudget > 0
  }

  /** The attempt was made and recorded. */
  predicate AttemptRecorded(before: Request, after: Request, failed: bool) {
    && after.id == before.id
    && after.resume.attempts == before.resume.attempts + 1
    && after.resume.status == (if failed then ResumeFailed else ResumeCompleted)
  }

  predicate Resumable(r: Request) {
    r.status == Resolved && r.response.Some? && r.resume.status in {ResumePending, ResumeFailed}
  }

  lemma AttemptRecords(ctx: Setting, w: World, q: Request, plan: Plan)
    requires Resumable(q) && Writable(plan)
    requires q.id in w.disk.requests && w.disk.requests[q.id] == q
    ensures var a := Attempt(ctx, w, q, plan); var d := a.world.disk.requests;
      && d.Keys == w.disk.requests.Keys
      && AttemptRecorded(q, d[q.id], a.failed)
      && forall id | id in d && id != q.id :: d[id] == w.disk.requests[id]
  {
    hide Dispatch;
  }

  /** With the files writable, every resumable request is attempted exactly once and its
      outcome recorded, whatever the outcomes of the others; the reported failures are
      exactly those whose dispatch failed, and no other request is touched. */
  lemma {:induction false} ReconcileReachesAll(ctx: Setting, w: World, list: seq<Request>, plans: string -> Plan)
    requires Listed(w.disk.requests, list) && DistinctIds(list)
    requires forall q | q in list :: Resumable(q) && Writable(plans(q.id))
    ensures var end := AttemptEach(ctx, w, list, plans); var d := end.world.disk.requests;
      && d.Keys == w.disk.requests.Keys
      && (forall q | q in list :: AttemptRecorded(q, d[q.id], q.id in end.failures))
      && (forall id | id in d && !InList(list, id) :: d[id] == w.disk.requests[id] && id !in end.failures)
  {
    hide Attempt, AttemptRecorded, Resumable, Writable;
    if list != [] {
      var n := |list| - 1;
      var q := list[n];
      var before := AttemptEach(ctx, w, list[..n], plans);
      ReconcileReachesAll(ctx, w, list[..n], plans);
      assert q in list;
      forall r | r in list[..n] ensures r.id != q.id && InList(list, r.id) {}
      assert !InList(list[..n], q.id);
      AttemptRecords(ctx, before.world, q, plans(q.id));
      var end := AttemptEach(ctx, w, list, plans);
      forall r | r in list
        ensures r.id in end.world.disk.requests
        ensures AttemptRecorded(r, end.world.disk.requests[r.id], r.id in end.failures)
      {
        if r != q { assert r in list[..n]; }
      }
      forall id | id in end.world.disk.requests && !InList(list, id)
        ensures end.world.disk.requests[id] == w.disk.requests[id] && id !in end.failures
      {
        assert id != q.id;
        assert !InList(list[..n], id);
      }
    }
  }
}
