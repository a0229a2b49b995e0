/** One durable flow run and the in-place updates its store applies to it
    (flow/types.go, flow/store.go and the closures of flow/kernel.go and
    flow/kernel_resume.go). */
module FlowRun {
  import opened Common
  import opened Text

  datatype RunStatus =
    | RunPending | RunRunning | RunWaitingHuman | RunWaitingSignal
    | RunRecoverable | RunFailed | RunCanceled | RunCompleted

  /** `Unset` is the zero value a missing step reads as. */
  datatype StepStatus =
    | Unset | StepPending | StepRunning | StepWaitingHuman | StepWaiting
    | StepSkipped | StepFailed | StepRecoverable | StepCompleted

  datatype StepState = StepState(
    status: StepStatus,
    startedAt: Option<int>,
    completedAt: Option<int>,
    attempts: nat,
    agentRun: string,
    requests: seq<string>,
    outputs: map<string, string>,
    error: string)

  /** The persisted value of a run: what one run file holds. */
  datatype Run = Run(
    status: RunStatus,
    current: string,
    steps: map<string, StepState>,
    pending: seq<string>)

  const ZERO_STEP := StepState(Unset, None, None, 0, "", [], map[], "")

  function StateOf(r: Run, id: string): StepState {
    if id in r.steps then r.steps[id] else ZERO_STEP
  }

  // ----- Executor results -----

  datatype ExecStatus = ExecUnset | ExecCompleted | ExecFailed | ExecWaitingHuman

  /** `None` in `requests` and `outputs` is Go's nil: the step keeps what it had. */
  datatype ExecResult = ExecResult(
    status: ExecStatus,
    agentRun: string,
    requests: Option<seq<string>>,
    outputs: Option<map<string, string>>,
    error: string)

  function StatusOf(s: ExecStatus): StepStatus {
    match s
    case ExecUnset => StepCompleted
    case ExecCompleted => StepCompleted
    case ExecFailed => StepFailed
    case ExecWaitingHuman => StepWaitingHuman
  }

  // ----- Lists of request ids -----

  /** Appends the trimmed, non-blank values that are not there yet. */
  function AppendUnique(dst: seq<string>, values: seq<string>): seq<string>
    decreases |values|
  {
    if values == [] then dst
    else
      var v := Trim(values[0]);
      AppendUnique(if v == "" || v in dst then dst else dst + [v], values[1..])
  }

  predicate NamedBy(v: string, values: seq<string>) {
    exists i | 0 <= i < |values| :: Trim(values[i]) == Trim(v)
  }

  /** Drops every element that some value names, white space aside. */
  function RemoveNamed(list: seq<string>, values: seq<string>): seq<string> {
    if list == [] then []
    else (if NamedBy(list[0], values) then [] else [list[0]]) + RemoveNamed(list[1..], values)
  }

  predicate Distinct(s: seq<string>) {
    forall i, j | 0 <= i < j < |s| :: s[i] != s[j]
  }

  /** The pending list a paused step gives its run. */
  function PendingFor(requests: seq<string>): seq<string> {
    AppendUnique([], requests)
  }

  lemma {:induction false} AppendUniqueMembers(dst: seq<string>, values: seq<string>)
    requires Distinct(dst)
    ensures var out := AppendUnique(dst, values);
      && Distinct(out)
      && (forall x :: x in out <==> x in dst || (x != "" && exists i :: 0 <= i < |values| && Trim(values[i]) == x))
    decreases |values|
  {
    if values != [] {
      var v := Trim(values[0]);
      var next := if v == "" || v in dst then dst else dst + [v];
      AppendUniqueMembers(next, values[1..]);
      var out := AppendUnique(dst, values);
      forall x
        ensures x in out <==> x in dst || (x != "" && exists i :: 0 <= i < |values| && Trim(values[i]) == x)
      {
        if x != "" && exists i :: 0 <= i < |values| && Trim(values[i]) == x {
          var i :| 0 <= i < |values| && Trim(values[i]) == x;
          if i > 0 { assert values[1..][i - 1] == values[i]; }
        }
        if exists i :: 0 <= i < |values[1..]| && Trim(values[1..][i]) == x {
          var i :| 0 <= i < |values[1..]| && Trim(values[1..][i]) == x;
          assert values[i + 1] == values[1..][i];
        }
      }
    }
  }

  /** The pending list of a paused step: each non-blank request id once, trimmed. */
  lemma PendingMembers(requests: seq<string>)
    ensures Distinct(PendingFor(requests))
    ensures forall x :: x in PendingFor(requests) <==>
      x != "" && exists i :: 0 <= i < |requests| && Trim(requests[i]) == x
  {
    AppendUniqueMembers([], requests);
  }

  lemma {:induction false} RemoveAll(list: seq<string>, values: seq<string>)
    requires forall i | 0 <= i < |list| :: NamedBy(list[i], values)
    ensures RemoveNamed(list, values) == []
  {
    if list != [] {
      RemoveAll(list[1..], values);
    }
  }

  /** Leaving the pause takes back exactly what entering it added. */
  lemma PendingCleared(requests: seq<string>)
    ensures RemoveNamed(PendingFor(requests), requests) == []
  {
    var list := PendingFor(requests);
    PendingMembers(requests);
    forall i | 0 <= i < |list| ensures NamedBy(list[i], requests) {
      assert list[i] in list;
      var j :| 0 <= j < |requests| && Trim(requests[j]) == list[i];
      TrimIdempotent(requests[j]);
    }
    RemoveAll(list, requests);
  }

  method AppendUniqueStrings(dst: seq<string>, values: seq<string>) returns (out: seq<string>)
    ensures out == AppendUnique(dst, values)
  {
    var seen := set v | v in dst;
    out := dst;
    for i := 0 to |values|
      invariant seen == set v | v in out
      invariant AppendUnique(dst, values) == AppendUnique(out, values[i..])
    {
      var v := Trim(values[i]);
      if v != "" && v !in seen {
        seen := seen + {v};
        out := out + [v];
      }
    }
  }

  method TrimmedSet(values: seq<string>) returns (names: set<string>)
    ensures forall s :: Trim(s) in names <==> NamedBy(s, values)
  {
    hide Trim;
    names := {};
    for i := 0 to |values|
      invariant forall v :: v in names <==> exists j :: 0 <= j < i && Trim(values[j]) == v
    {
      names := names + {Trim(values[i])};
    }
  }

  lemma {:induction false} RemoveNamedSnoc(list: seq<string>, x: string, values: seq<string>)
    ensures RemoveNamed(list + [x], values) == RemoveNamed(list, values) + if NamedBy(x, values) then [] else [x]
  {
    hide NamedBy;
    if list == [] {
      assert [] + [x] == [x] && [x][1..] == [];
    } else {
      RemoveNamedSnoc(list[1..], x, values);
      assert (list + [x])[1..] == list[1..] + [x];
    }
  }

  lemma RemoveNamedNext(list: seq<string>, values: seq<string>, i: nat)
    requires i < |list|
    ensures RemoveNamed(list[..i + 1], values) ==
      RemoveNamed(list[..i], values) + if NamedBy(list[i], values) then [] else [list[i]]
  {
    hide NamedBy, RemoveNamed;
    assert list[..i + 1] == list[..i] + [list[i]];
    RemoveNamedSnoc(list[..i], list[i], values);
  }

  method RemoveStrings(list: seq<string>, values: seq<string>) returns (out: seq<string>)
    ensures out == RemoveNamed(list, values)
  {
    var remove := TrimmedSet(values);
    assert RemoveNamed(list[..0], values) == [] && list[..|list|] == list;
    hide Trim, NamedBy, RemoveNamed;
    out := [];
    for i := 0 to |list|
      invariant out == RemoveNamed(list[..i], values)
    {
      RemoveNamedNext(list, values, i);
      if Trim(list[i]) !in remove {
        out := out + [list[i]];
      }
    }
  }

  // ----- What each update makes of a run -----

  function CreatedRun(start: string): Run {
    Run(RunPending, start, map[], [])
  }

  function Started(r: Run, start: string): Run {
    r.(status := RunRunning, steps := r.steps[start := ZERO_STEP.(status := StepPending)])
  }

  /** `MarkStepRunning`: a second start without a retry in between, after a lost
      result, does not count as an attempt. */
  function MarkedRunning(r: Run, id: string, now: int): Option<Run> {
    var s := StateOf(r, id);
    if Blank(id) || s.status == StepCompleted then None
    else
      var attempts := if s.startedAt.None? then s.attempts + 1 else s.attempts;
      Some(r.(steps := r.steps[id := s.(status := StepRunning, startedAt := Some(now), attempts := attempts)]))
  }

  function ResultApplied(r: Run, id: string, res: ExecResult, now: int): Run {
    var s := StateOf(r, id);
    var status := StatusOf(res.status);
    var t := s.(
      status := status,
      agentRun := res.agentRun,
      requests := if res.requests.Some? then res.requests.value else s.requests,
      outputs := if res.outputs.Some? then res.outputs.value else s.outputs,
      error := Trim(res.error),
      completedAt := if status == StepWaitingHuman then s.completedAt else Some(now));
    r.(steps := r.steps[id := t])
  }

  function Paused(r: Run, requests: seq<string>): Run {
    r.(status := RunWaitingHuman, pending := AppendUnique(r.pending, requests))
  }

  function FailedRun(r: Run): Run {
    r.(status := RunFailed)
  }

  function RetryScheduled(r: Run, id: string): Run {
    var s := StateOf(r, id).(status := StepPending, error := "", startedAt := None, completedAt := None);
    r.(status := RunRunning, steps := r.steps[id := s])
  }

  function Entered(r: Run, next: string): Run {
    r.(current := next,
       steps := if next in r.steps then r.steps else r.steps[next := ZERO_STEP.(status := StepPending)])
  }

  function Routed(r: Run, next: string): Run {
    Entered(r, next).(status := RunRunning)
  }

  function TransitionFailed(r: Run, id: string, reason: string): Run {
    var s := StateOf(r, id);
    var t := s.(status := StepFailed, error := if s.error == "" then reason else s.error);
    r.(status := RunFailed, steps := r.steps[id := t])
  }

  function CompletedRun(r: Run): Run {
    r.(status := RunCompleted, current := "")
  }

  /** The step leaves its pause with the given new state. */
  function Unpaused(r: Run, id: string, t: StepState): Run {
    r.(status := RunRunning,
       pending := RemoveNamed(r.pending, StateOf(r, id).requests),
       steps := r.steps[id := t.(requests := [])])
  }

  function Approved(r: Run, id: string, slot: string, signal: string, now: int): Run {
    Unpaused(r, id, StateOf(r, id).(status := StepCompleted, outputs := map[slot := signal], completedAt := Some(now)))
  }

  function AgentFinished(r: Run, id: string, now: int): Run {
    Unpaused(r, id, StateOf(r, id).(status := StepCompleted, completedAt := Some(now)))
  }

  function AgentRefused(r: Run, id: string, error: string, now: int): Run {
    Unpaused(r, id, StateOf(r, id).(status := StepFailed, error := error, completedAt := Some(now)))
  }

  function CanceledRun(r: Run, id: string, error: string): Run {
    var s := StateOf(r, id);
    Run(RunCanceled, "",
        r.steps[id := s.(status := StepFailed, error := error, requests := [])],
        RemoveNamed(r.pending, s.requests))
  }

  // ----- The same updates on a loaded run, in place -----

  class RunRecord {
    var status: RunStatus
    var current: string
    var steps: map<string, StepState>
    var pending: seq<string>

    constructor (r: Run)
      ensures Data() == r
    {
      status, current, steps, pending := r.status, r.current, r.steps, r.pending;
    }

    function Data(): Run
      reads this
    {
      Run(status, current, steps, pending)
    }

    /** Reading a missing key of the step map yields the zero value. */
    function StepAt(id: string): (s: StepState)
      reads this
      ensures s == StateOf(Data(), id)
    {
      if id in steps then steps[id] else ZERO_STEP
    }

    method BeginFirstStep(start: string)
      modifies this
      ensures Data() == Started(old(Data()), start)
    {
      status := RunRunning;
      steps := steps[start := ZERO_STEP.(status := StepPending)];
    }

    method MarkStepRunning(id: string, now: int) returns (ok: bool)
      modifies this
      ensures ok <==> MarkedRunning(old(Data()), id, now).Some?
      ensures Data() == if ok then MarkedRunning(old(Data()), id, now).value else old(Data())
    {
      if Blank(id) { return false; }
      var s := StepAt(id);
      if s.status == StepCompleted { return false; }
      if s.startedAt.None? {
        if s.attempts == 0 {
          s := s.(attempts := 1);
        } else {
          s := s.(attempts := s.attempts + 1);
        }
      }
      s := s.(status := StepRunning, startedAt := Some(now));
      steps := steps[id := s];
      return true;
    }

    method ApplyStepResult(id: string, res: ExecResult, now: int)
      modifies this
      ensures Data() == ResultApplied(old(Data()), id, res, now)
    {
      var s := StepAt(id);
      var newStatus := StatusOf(res.status);
      s := s.(status := newStatus, agentRun := res.agentRun);
      if res.requests.Some? { s := s.(requests := res.requests.value); }
      if res.outputs.Some? { s := s.(outputs := res.outputs.value); }
      s := s.(error := Trim(res.error));
      if newStatus == StepCompleted || newStatus == StepFailed {
        s := s.(completedAt := Some(now));
      }
      steps := steps[id := s];
    }

    method Pause(requests: seq<string>)
      modifies this
      ensures Data() == Paused(old(Data()), requests)
    {
      status := RunWaitingHuman;
      var p := AppendUniqueStrings(pending, requests);
      pending := p;
    }

    method Fail()
      modifies this
      ensures Data() == FailedRun(old(Data()))
    {
      status := RunFailed;
    }

    method ScheduleRetry(id: string)
      modifies this
      ensures Data() == RetryScheduled(old(Data()), id)
    {
      var s := StepAt(id);
      s := s.(status := StepPending, error := "", startedAt := None, completedAt := None);
      status := RunRunning;
      steps := steps[id := s];
    }

    method Enter(next: string)
      modifies this
      ensures Data() == Entered(old(Data()), next)
    {
      current := next;
      if next !in steps {
        steps := steps[next := ZERO_STEP.(status := StepPending)];
      }
    }

    method RouteAfterFailure(next: string)
      modifies this
      ensures Data() == Routed(old(Data()), next)
    {
      status := RunRunning;
      Enter(next);
    }

    method FailTransition(id: string, reason: string)
      modifies this
      ensures Data() == TransitionFailed(old(Data()), id, reason)
    {
      status := RunFailed;
      var s := StepAt(id).(status := StepFailed);
      if s.error == "" { s := s.(error := reason); }
      steps := steps[id := s];
    }

    method Complete()
      modifies this
      ensures Data() == CompletedRun(old(Data()))
    {
      status := RunCompleted;
      current := "";
    }

    method Approve(id: string, slot: string, signal: string, now: int)
      modifies this
      ensures Data() == Approved(old(Data()), id, slot, signal, now)
    {
      var s := StepAt(id);
      s := s.(status := StepCompleted, outputs := map[slot := signal], completedAt := Some(now));
      var p := RemoveStrings(pending, s.requests);
      pending := p;
      s := s.(requests := []);
      status := RunRunning;
      steps := steps[id := s];
    }

    method FinishAgent(id: string, now: int)
      modifies this
      ensures Data() == AgentFinished(old(Data()), id, now)
    {
      var s := StepAt(id).(status := StepCompleted, completedAt := Some(now));
      var p := RemoveStrings(pending, s.requests);
      pending := p;
      s := s.(requests := []);
      status := RunRunning;
      steps := steps[id := s];
    }

    method RefuseAgent(id: string, error: string, now: int)
      modifies this
      ensures Data() == AgentRefused(old(Data()), id, error, now)
    {
      var s := StepAt(id).(status := StepFailed, error := error, completedAt := Some(now));
      var p := RemoveStrings(pending, s.requests);
      pending := p;
      s := s.(requests := []);
      status := RunRunning;
      steps := steps[id := s];
    }

    method Cancel(id: string, error: string)
      modifies this
      ensures Data() == CanceledRun(old(Data()), id, error)
    {
      status := RunCanceled;
      current := "";
      var s := StepAt(id).(status := StepFailed, error := error);
      var p := RemoveStrings(pending, s.requests);
      pending := p;
      s := s.(requests := []);
      steps := steps[id := s];
    }
  }
}
