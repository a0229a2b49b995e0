/** Flow definitions, their structural validation and the transition graph they
    declare (flow/definition.go). */
module FlowDefinition {
  import opened Common
  import opened Text

  const SCHEMA_VERSION := "xira.flow.v0"

  datatype Branch = Branch(when: string, next: string)

  datatype Retry = Retry(maxAttempts: int, onExhausted: string)

  datatype Executor = Executor(agent: string, typ: string, responder: string, options: seq<string>)

  datatype Step = Step(
    id: string,
    objective: string,
    executor: Executor,
    slots: seq<string>,
    onSuccess: string,
    onFailure: string,
    branches: seq<Branch>,
    retry: Option<Retry>)

  datatype Entrypoint = Entrypoint(id: string, startStep: string)

  datatype Definition = Definition(
    schemaVersion: string,
    id: string,
    name: string,
    version: string,
    steps: seq<Step>,
    entrypoints: seq<Entrypoint>)

  datatype DefinitionError =
    | BadSchemaVersion
    | MissingField(field: string)
    | NoSteps
    | BlankStepId
    | DuplicateStepId(id: string)
    | BlankObjective(id: string)
    | BadExecutor(id: string)
    | BadTransition(id: string)
    | NoEntrypoints
    | BlankEntrypointId
    | DuplicateEntrypointId(id: string)
    | BadStartStep(id: string)

  // ----- What a well-formed definition is -----

  predicate KnownResponder(responder: string) {
    responder == "current_sender" || responder == "owner"
  }

  predicate ControlType(typ: string) {
    typ == "human_approval" || typ == "decision" || typ == "wait_signal" || typ == "subflow"
  }

  predicate ValidExecutor(e: Executor) {
    && (Blank(e.responder) || (e.typ == "human_approval" && KnownResponder(Trim(e.responder))))
    && (Blank(e.agent) <==> !Blank(e.typ))
    && (Blank(e.typ) || ControlType(e.typ))
  }

  predicate KnownTarget(target: string, ids: set<string>) {
    target == "" || target in ids
  }

  predicate ValidBranch(b: Branch, ids: set<string>) {
    !Blank(b.when) && !Blank(b.next) && b.next in ids
  }

  predicate ValidTransitions(step: Step, ids: set<string>) {
    && KnownTarget(step.onSuccess, ids)
    && KnownTarget(step.onFailure, ids)
    && (forall b | b in step.branches :: ValidBranch(b, ids))
    && (step.retry.Some? ==> KnownTarget(step.retry.value.onExhausted, ids))
  }

  function StepIds(steps: seq<Step>): (ids: set<string>)
    ensures forall i | 0 <= i < |steps| :: steps[i].id in ids
    ensures forall id | id in ids :: exists i | 0 <= i < |steps| :: steps[i].id == id
  {
    set i | 0 <= i < |steps| :: steps[i].id
  }

  predicate ValidStep(step: Step) {
    !Blank(step.id) && !Blank(step.objective) && ValidExecutor(step.executor)
  }

  predicate UniqueSteps(steps: seq<Step>) {
    forall i, j | 0 <= i < j < |steps| :: steps[i].id != steps[j].id
  }

  predicate ValidEntrypoint(ep: Entrypoint, ids: set<string>) {
    !Blank(ep.id) && !Blank(ep.startStep) && ep.startStep in ids
  }

  predicate UniqueEntrypoints(eps: seq<Entrypoint>) {
    forall i, j | 0 <= i < j < |eps| :: eps[i].id != eps[j].id
  }

  /** Every rule `ValidateDefinition` enforces, stated without an order. */
  predicate ValidDefinition(def: Definition) {
    && def.schemaVersion == SCHEMA_VERSION
    && !Blank(def.id) && !Blank(def.name) && !Blank(def.version)
    && def.steps != [] && def.entrypoints != []
    && UniqueSteps(def.steps)
    && UniqueEntrypoints(def.entrypoints)
    && (forall i | 0 <= i < |def.steps| ::
          ValidStep(def.steps[i]) && ValidTransitions(def.steps[i], StepIds(def.steps)))
    && (forall i | 0 <= i < |def.entrypoints| :: ValidEntrypoint(def.entrypoints[i], StepIds(def.steps)))
  }

  // ----- Validation as the source runs it -----

  method CheckTransitions(step: Step, known: set<string>) returns (err: Option<DefinitionError>)
    ensures err.None? <==> ValidTransitions(step, known)
    ensures err.Some? ==> err.value == BadTransition(step.id)
  {
    if step.onSuccess != "" && step.onSuccess !in known { return Some(BadTransition(step.id)); }
    if step.onFailure != "" && step.onFailure !in known { return Some(BadTransition(step.id)); }
    for i := 0 to |step.branches|
      invariant forall j | 0 <= j < i :: ValidBranch(step.branches[j], known)
    {
      var b := step.branches[i];
      assert b in step.branches;
      if Blank(b.when) || Blank(b.next) || b.next !in known { return Some(BadTransition(step.id)); }
    }
    if step.retry.Some? && step.retry.value.onExhausted != "" && step.retry.value.onExhausted !in known {
      return Some(BadTransition(step.id));
    }
    return None;
  }

  method CheckStep(step: Step, ids: set<string>) returns (err: Option<DefinitionError>)
    ensures err.None? <==> ValidStep(step) && step.id !in ids
  {
    if Blank(step.id) { return Some(BlankStepId); }
    if step.id in ids { return Some(DuplicateStepId(step.id)); }
    if Blank(step.objective) { return Some(BlankObjective(step.id)); }
    var valid := CheckExecutor(step.executor);
    if !valid { return Some(BadExecutor(step.id)); }
    return None;
  }

  /** `validateExecutor`, test by test. */
  method CheckExecutor(e: Executor) returns (valid: bool)
    ensures valid <==> ValidExecutor(e)
  {
    TrimBlank(e.responder);
    hide Trim;
    var hasAgent, hasType := !Blank(e.agent), !Blank(e.typ);
    var responder := Trim(e.responder);
    if responder != "" && e.typ != "human_approval" { return false; }
    if responder != "" && responder != "current_sender" && responder != "owner" { return false; }
    if hasAgent && hasType { return false; }
    if !hasAgent && !hasType { return false; }
    if hasType && e.typ !in ["human_approval", "decision", "wait_signal", "subflow"] { return false; }
    return true;
  }

  /** The first loop of `ValidateDefinition`: it fills the id set and stops at the
      first malformed step. */
  method CollectSteps(steps: seq<Step>) returns (ids: set<string>, err: Option<DefinitionError>)
    ensures err.None? <==> UniqueSteps(steps) && forall i | 0 <= i < |steps| :: ValidStep(steps[i])
    ensures err.None? ==> ids == StepIds(steps)
  {
    hide ValidStep;
    ids := {};
    for i := 0 to |steps|
      invariant forall j | 0 <= j < i :: steps[j].id in ids
      invariant forall id | id in ids :: exists j | 0 <= j < i :: steps[j].id == id
      invariant forall j, k | 0 <= j < k < i :: steps[j].id != steps[k].id
      invariant forall j | 0 <= j < i :: ValidStep(steps[j])
    {
      err := CheckStep(steps[i], ids);
      if err.Some? { return; }
      ids := ids + {steps[i].id};
    }
    return ids, None;
  }

  method CheckEntrypoint(ep: Entrypoint, ids: set<string>) returns (err: Option<DefinitionError>)
    ensures err.None? <==> ValidEntrypoint(ep, ids)
  {
    if Blank(ep.id) { return Some(BlankEntrypointId); }
    if Blank(ep.startStep) || ep.startStep !in ids { return Some(BadStartStep(ep.id)); }
    return None;
  }

  method CheckEntrypoints(eps: seq<Entrypoint>, ids: set<string>) returns (err: Option<DefinitionError>)
    ensures err.None? <==> UniqueEntrypoints(eps) && forall i | 0 <= i < |eps| :: ValidEntrypoint(eps[i], ids)
  {
    var seen: set<string> := {};
    for i := 0 to |eps|
      invariant forall j | 0 <= j < i :: eps[j].id in seen
      invariant forall id | id in seen :: exists j | 0 <= j < i :: eps[j].id == id
      invariant forall j, k | 0 <= j < k < i :: eps[j].id != eps[k].id
      invariant forall j | 0 <= j < i :: ValidEntrypoint(eps[j], ids)
    {
      if eps[i].id in seen { return Some(DuplicateEntrypointId(eps[i].id)); }
      seen := seen + {eps[i].id};
      err := CheckEntrypoint(eps[i], ids);
      if err.Some? { return; }
    }
    return None;
  }

  /** Accepts exactly the well-formed definitions. */
  method ValidateDefinition(def: Definition) returns (err: Option<DefinitionError>)
    ensures err.None? <==> ValidDefinition(def)
  {
    if def.schemaVersion != SCHEMA_VERSION { return Some(BadSchemaVersion); }
    if Blank(def.id) { return Some(MissingField("id")); }
    if Blank(def.name) { return Some(MissingField("name")); }
    if Blank(def.version) { return Some(MissingField("version")); }
    if |def.steps| == 0 { return Some(NoSteps); }
    var ids: set<string>;
    ids, err := CollectSteps(def.steps);
    if err.Some? { return; }
    for i := 0 to |def.steps|
      invariant forall j | 0 <= j < i :: ValidTransitions(def.steps[j], ids)
    {
      err := CheckTransitions(def.steps[i], ids);
      if err.Some? { return; }
    }
    if |def.entrypoints| == 0 { return Some(NoEntrypoints); }
    err := CheckEntrypoints(def.entrypoints, ids);
  }

  // ----- Lookups -----

  function FindStep(steps: seq<Step>, id: string): (r: Option<Step>)
    ensures r.Some? <==> id in StepIds(steps)
    ensures r.Some? ==> r.value in steps && r.value.id == id
  {
    if steps == [] then None
    else if steps[0].id == id then Some(steps[0])
    else
      assert steps == [steps[0]] + steps[1..];
      FindStep(steps[1..], id)
  }

  function StepById(def: Definition, id: string): (r: Option<Step>)
    ensures r.Some? ==> r.value in def.steps && r.value.id == id
  {
    FindStep(def.steps, id)
  }

  function FindEntrypoint(eps: seq<Entrypoint>, id: string): (r: Option<Entrypoint>)
    ensures r.Some? <==> exists ep :: ep in eps && ep.id == id
    ensures r.Some? ==> r.value in eps && r.value.id == id
  {
    if eps == [] then None
    else if eps[0].id == id then Some(eps[0])
    else
      assert eps == [eps[0]] + eps[1..];
      FindEntrypoint(eps[1..], id)
  }

  /** The start step of an entrypoint, `ResolveEntrypoint`. */
  function ResolveEntrypoint(def: Definition, id: string): (r: Option<Step>) {
    match FindEntrypoint(def.entrypoints, id)
    case None => None
    case Some(ep) => StepById(def, ep.startStep)
  }

  // ----- The declared transition graph -----

  /** `target` is named by a branch, on_success, on_failure or on_exhausted of `step`. */
  predicate IsTarget(step: Step, target: string) {
    target != "" &&
    (|| target == step.onSuccess
     || target == step.onFailure
     || (exists b | b in step.branches :: b.next == target)
     || (step.retry.Some? && step.retry.value.onExhausted == target))
  }

  predicate Edge(def: Definition, a: string, b: string) {
    var step := StepById(def, a);
    step.Some? && IsTarget(step.value, b)
  }

  predicate Walk(def: Definition, path: seq<string>) {
    path != [] && forall i | 0 <= i < |path| - 1 :: Edge(def, path[i], path[i + 1])
  }

  ghost predicate Reachable(def: Definition, a: string, b: string) {
    exists path :: Walk(def, path) && path[0] == a && path[|path| - 1] == b
  }

  lemma ReachableSelf(def: Definition, a: string)
    ensures Reachable(def, a, a)
  {
    assert Walk(def, [a]);
  }

  lemma ReachableStep(def: Definition, a: string, b: string, c: string)
    requires Reachable(def, a, b) && Edge(def, b, c)
    ensures Reachable(def, a, c)
  {
    var path :| Walk(def, path) && path[0] == a && path[|path| - 1] == b;
    var longer := path + [c];
    assert Walk(def, longer) && longer[0] == a && longer[|longer| - 1] == c;
  }

  /** Every edge ends in a declared step with a non-blank id. */
  ghost predicate Closed(def: Definition) {
    forall a, b :: Edge(def, a, b) ==> StepById(def, b).Some? && !Blank(b)
  }

  lemma ValidEdgeTarget(def: Definition, a: string, b: string)
    requires ValidDefinition(def) && Edge(def, a, b)
    ensures StepById(def, b).Some? && !Blank(b)
  {
    var step := StepById(def, a).value;
    assert ValidTransitions(step, StepIds(def.steps));
    assert b in StepIds(def.steps);
    var s := StepById(def, b).value;
    assert ValidStep(s);
  }

  /** The graph of an accepted definition is closed. */
  lemma ValidIsClosed(def: Definition)
    requires ValidDefinition(def)
    ensures Closed(def)
  {
    forall a, b | Edge(def, a, b) ensures StepById(def, b).Some? && !Blank(b) {
      ValidEdgeTarget(def, a, b);
    }
  }

  /** Every entrypoint of an accepted definition starts at a declared step. */
  lemma ValidEntrypointStarts(def: Definition, id: string)
    requires ValidDefinition(def) && FindEntrypoint(def.entrypoints, id).Some?
    ensures ResolveEntrypoint(def, id).Some?
    ensures !Blank(ResolveEntrypoint(def, id).value.id)
  {
    var ep := FindEntrypoint(def.entrypoints, id).value;
    assert ValidEntrypoint(ep, StepIds(def.steps));
    assert ValidStep(StepById(def, ep.startStep).value);
  }
}
