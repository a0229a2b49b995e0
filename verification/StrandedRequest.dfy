/** One concrete run in which a request whose resume is recorded as completed is pending
    again (runtime/human_requests.go, flow/kernel.go). */
module StrandedRequest {
  import opened Common
  import opened Text
  import opened FlowDefinition
  import opened FlowRun
  import opened FlowKernel
  import opened HumanRequest
  import opened HumanRequestHistory
  import opened HumanRequestStore
  import opened DurableResume

  const APPROVAL := Step("a", "o", Executor("", "human_approval", "", []), [], "", "", [], None)

  const FLOW := Setting(Definition(SCHEMA_VERSION, "f", "f", "1", [APPROVAL], [Entrypoint("e", "a")]), "r")

  const PAUSES := AdvanceInput(ExecResult(ExecWaitingHuman, "", Some(["q"]), None, ""), None, (_: string) => NoMatch, 0)
  const IDLE := AdvanceInput(ExecResult(ExecCompleted, "", None, None, ""), None, (_: string) => NoMatch, 0)

  const ENV := Env(NoHook, (_: string) => NoMatch, 0, true, 2)

  const ASKS := CreateInput("r", "", "", SOURCE_FLOW_APPROVAL, "r", Responder(CurrentSender, "", "", ""), None, false)

  /** Ask, pause with the pause write lost, approve, claim, dispatch, finish, advance. */
  const STRANDING: seq<SystemStep> := [
    CreateStep(ASKS, "q", "", 0, 1),
    AdvanceStep(PAUSES, 2),
    TouchStep("q", Respond(ResolveInput(Approve, "", "", ""), None, "x", 0), 2),
    ClaimStep(0, "q", 0, 1),
    DispatchStep(0, ENV),
    FinishStep(0, 0, 1),
    AdvanceStep(IDLE, 1)]

  lemma FlowIsValid()
    ensures ValidDefinition(FLOW.def) && FindEntrypoint(FLOW.def.entrypoints, "e").Some?
    ensures ResolveEntrypoint(FLOW.def, "e") == Some(APPROVAL) && StepById(FLOW.def, "a") == Some(APPROVAL)
    ensures !Blank("r") && !Blank("a") && !Blank("q")
  {
    NotBlank("q");
    NotBlank("r");
    NotBlank("a");
    NotBlank("e");
    NotBlank("f");
    NotBlank("1");
    ApprovalIsValid();
    hide Blank, Trim, ValidStep;
    assert FLOW.def.steps[0] == APPROVAL && FLOW.def.entrypoints[0] == Entrypoint("e", "a");
    assert "a" in StepIds(FLOW.def.steps) by { hide ValidTransitions; }
    assert ValidEntrypoint(FLOW.def.entrypoints[0], StepIds(FLOW.def.steps));
    assert ValidTransitions(APPROVAL, StepIds(FLOW.def.steps));
    hide StepIds, ValidTransitions, ValidEntrypoint;
  }

  lemma ApprovalIsValid()
    ensures ValidStep(APPROVAL)
  {
    NotBlank("a");
    NotBlank("o");
    NotBlank("human_approval");
    assert Blank("");
    hide Blank, Trim;
  }

  lemma Letters()
    ensures Trim("q") == "q" && Trim("r") == "r"
  {
    TrimLetter('q');
    TrimLetter('r');
  }

  lemma TrimLetter(c: char)
    requires !IsSpace(c)
    ensures Trim([c]) == [c]
  {
  }

  lemma RunFrom(ctx: Setting, s: System, steps: seq<SystemStep>, i: nat)
    requires i < |steps|
    ensures RunSystem(ctx, s, steps[i..]) == RunSystem(ctx, Next(ctx, s, steps[i]), steps[i + 1..])
    ensures AllAdmissible(ctx, s, steps[i..]) <==>
      Admissible(ctx, s, steps[i]) && AllAdmissible(ctx, Next(ctx, s, steps[i]), steps[i + 1..])
  {
    hide Next, Admissible;
    assert steps[i..][1..] == steps[i + 1..];
  }

  /** The request as asked, and as answered. */
  const ASKED := NewRequest(ASKS, "q", "", 0)
  const ANSWER := Respond(ResolveInput(Approve, "", "", ""), None, "x", 0)

  lemma AskedAndAnswered(s: System)
    requires s == FreshSystem("a", 2)
    ensures var s1 := Next(FLOW, s, STRANDING[0]);
      s1 == s.(disk := Disk(map["q" := ASKED], map[]))
    ensures After(ASKED, ANSWER).response.Some? && ChangeOf(ASKED, ANSWER).Changed?
    ensures Claimed(After(ASKED, ANSWER), 0).Changed? && ForRun(FLOW, After(ASKED, ANSWER))
    ensures After(ASKED, ANSWER).id == "q"
  {
    FlowIsValid();
    Letters();
    hide Blank, Trim;
  }

  lemma PauseHalved(s: System)
    requires s == FreshSystem("a", 2).(disk := Disk(map["q" := ASKED], map[]))
    ensures var s1 := Next(FLOW, s, STRANDING[1]);
      && s1 == s.(run := s1.run) && HalfPaused(s1.run)
      && s1.run.current == "a" && StateOf(s1.run, "a").requests == ["q"]
  {
    FlowIsValid();
    Letters();
    hide Blank, Trim, StepById, ResolveEntrypoint, ValidDefinition;
    assert AdvanceWrites(FLOW.def, s.run, PAUSES) == ExecutionWrites(s.run, APPROVAL, PAUSES);
  }

  lemma AnsweredWhileHalved(s: System)
    requires s.disk == Disk(map["q" := ASKED], map[]) && !s.down
    ensures var s1 := Next(FLOW, s, STRANDING[2]);
      && s1 == s.(disk := s1.disk) && s1.disk.requests == map["q" := After(ASKED, ANSWER)]
  {
    AskedAndAnswered(FreshSystem("a", 2));
    hide After, ChangeOf;
    var r := After(ASKED, ANSWER);
    assert s.disk.requests["q" := r] == map["q" := r];
  }

  lemma LeadAdmissible(s0: System, s1: System, s2: System)
    requires s0.disk.requests == map[] && s2.disk.responses == map[]
    requires s1.left == [] && s1.workers == map[] && s1.disk.requests == map["q" := ASKED]
    ensures Admissible(FLOW, s0, STRANDING[0]) && Admissible(FLOW, s1, STRANDING[1])
    ensures Admissible(FLOW, s2, STRANDING[2])
  {
    assert ASKED.resume.status == ResumeWaiting;
    hide Trim, ForRun;
  }

  /** From a fresh system to just before the claim. */
  lemma HalvedAndAnswered() returns (s: System)
    ensures Safe(FLOW, s) && !s.down && s.workers == map[] && HalfPaused(s.run)
    ensures s.run.current == "a" && StateOf(s.run, "a").requests == ["q"]
    ensures s.disk.requests == map["q" := After(ASKED, ANSWER)]
    ensures RunSystem(FLOW, FreshSystem("a", 2), STRANDING) == RunSystem(FLOW, s, STRANDING[3..])
    ensures AllAdmissible(FLOW, FreshSystem("a", 2), STRANDING) <==> AllAdmissible(FLOW, s, STRANDING[3..])
  {
    hide Next, Safe, Closed, Admissible, AllAdmissible, RunSystem, HalfPaused;
    hide ValidDefinition, FindEntrypoint, Blank, Trim;
    var s0 := FreshSystem("a", 2);
    var s1, s2 := Next(FLOW, s0, STRANDING[0]), Next(FLOW, Next(FLOW, s0, STRANDING[0]), STRANDING[1]);
    s := Next(FLOW, s2, STRANDING[2]);
    FlowIsValid();
    Letters();
    FreshSystemSafe(FLOW, "e", 2);
    AskedAndAnswered(s0);
    PauseHalved(s1);
    AnsweredWhileHalved(s2);
    LeadAdmissible(s0, s1, s2);
    NextSafe(FLOW, s0, STRANDING[0]);
    NextSafe(FLOW, s1, STRANDING[1]);
    NextSafe(FLOW, s2, STRANDING[2]);
    assert STRANDING[0..] == STRANDING;
    RunFrom(FLOW, s0, STRANDING, 0);
    RunFrom(FLOW, s1, STRANDING, 1);
    RunFrom(FLOW, s2, STRANDING, 2);
  }

  /** Such a run exists: admissible steps from a fresh system end with the run waiting for
      a request whose resume is recorded as completed. */
  lemma StrandingReached()
    ensures AllAdmissible(FLOW, FreshSystem("a", 2), STRANDING)
    ensures var last := RunSystem(FLOW, FreshSystem("a", 2), STRANDING);
      last.run.status == RunWaitingHuman && "q" in last.run.pending && CompletedHere(FLOW, last, "q")
  {
    var s3 := HalvedAndAnswered();
    FlowIsValid();
    Letters();
    AskedAndAnswered(FreshSystem("a", 2));
    PendingMembers(["q"]);
    assert "q" in PendingFor(["q"]) by { assert Trim(["q"][0]) == "q"; }
    hide Safe, HalfPaused, PendingFor, After, ForRun, Blank, Trim, WorkRound, CompletedHere;
    HalfPauseStrands(FLOW, s3, "q", 0, ENV, 0, IDLE);
    StrandingTail(s3);
  }

  lemma StrandingTail(s: System)
    ensures RunSystem(FLOW, s, STRANDING[3..]) == Next(FLOW, WorkRound(FLOW, s, "q", 0, ENV, 0), AdvanceStep(IDLE, 1))
    ensures AllAdmissible(FLOW, s, STRANDING[3..])
  {
    var s4 := Next(FLOW, s, STRANDING[3]);
    var s5 := Next(FLOW, s4, STRANDING[4]);
    var s6 := Next(FLOW, s5, STRANDING[5]);
    var s7 := Next(FLOW, s6, STRANDING[6]);
    assert Admissible(FLOW, s, STRANDING[3]) && Admissible(FLOW, s4, STRANDING[4]) && Admissible(FLOW, s5, STRANDING[5])
      && Admissible(FLOW, s6, STRANDING[6]);
    assert RunSystem(FLOW, s7, STRANDING[7..]) == s7 && AllAdmissible(FLOW, s7, STRANDING[7..]);
    hide Next, Admissible, RunSystem, AllAdmissible;
    RunFrom(FLOW, s, STRANDING, 3);
    RunFrom(FLOW, s4, STRANDING, 4);
    RunFrom(FLOW, s5, STRANDING, 5);
    RunFrom(FLOW, s6, STRANDING, 6);
  }
}
