/** What session histories keep over whole runs of appends and restarts
    (session/manager.go, session/file_store.go). */
module SessionRuns {
  import opened Common
  import opened Text
  import opened Session
  import opened SessionStore

  /** One append, or a restart that comes up with the given memory. */
  datatype SessionStep = DoAppend(append: Append) | Restart(memory: Memory)

  function NextBooks(b: Books, step: SessionStep): Books {
    match step
    case DoAppend(op) => Appended(b, op)
    case Restart(m) => Books(m, b.disk)
  }

  function RunBooks(b: Books, steps: seq<SessionStep>): Books
    decreases |steps|
  {
    if steps == [] then b else RunBooks(NextBooks(b, steps[0]), steps[1..])
  }

  // ----- Whatever fails -----

  /** A restart loads the disk; the clock never reads the zero time. */
  ghost predicate Possible(b: Books, step: SessionStep) {
    match step
    case DoAppend(op) => op.now > 0
    case Restart(m) => Restored(b.disk, m)
  }

  ghost predicate AllPossible(b: Books, steps: seq<SessionStep>)
    decreases |steps|
  {
    steps == [] || (Possible(b, steps[0]) && AllPossible(NextBooks(b, steps[0]), steps[1..]))
  }

  /** Each session history interleaves its agents' histories, and its messages are on disk,
      in the directories their turns named. */
  ghost predicate Backed(b: Books) {
    LinesSound(b.disk) && Provenance(b.disk, b.memory)
  }

  lemma TrimmedName(name: string)
    requires Trim(name) != ""
    ensures !Blank(Trim(name)) && Trim(Trim(name)) == Trim(name)
  {
    TrimIdempotent(name);
    TrimBlank(Trim(name));
  }

  lemma PreparedSound(op: Append)
    ensures Attributed(Prepared(op))
    ensures op.now > 0 ==> Timed(Prepared(op))
  {
    hide Trim, Compact, Kept, Blank;
    if Trim(op.target.session) != "" && Trim(op.target.agent) != "" {
      var raw := Stamped(op.target, op.now, op.messages);
      CompactMembers(raw);
      forall m | m in Compact(raw) ensures m.agentId != "" && (op.now > 0 ==> m.createdAt > 0) {
        var j :| 0 <= j < |raw| && m == Cleaned(raw[j]);
        TrimmedName(op.target.agent);
        TrimBlank(raw[j].agentId);
      }
    }
  }

  lemma LinesGrow(d: Disk, p: Place, s: string, a: string, ms: seq<Message>, budget: nat)
    requires LinesSound(d) && Timed(ms) && Attributed(ms)
    ensures LinesSound(Stored(d, p, s, a, ms, budget))
    ensures forall q :: multiset(LinesAt(d, q)) <= multiset(LinesAt(Stored(d, p, s, a, ms, budget), q))
    ensures budget >= 2 ==>
      multiset(LinesAt(Stored(d, p, s, a, ms, budget), p)) == multiset(LinesAt(d, p)) + multiset(ms)
  {
  }

  lemma PublishedBacked(b: Books, s: string, a: string, p: Place, ms: seq<Message>)
    requires Backed(b) && Timed(ms) && Attributed(ms)
    ensures Backed(Books(Published(b.memory, s, a, p, ms), Stored(b.disk, p, s, a, ms, 3)))
  {
    hide LinesSound, FromAgents, FromPlaces, Published, Stored, Timed, Attributed, LinesAt;
    var m, m1 := b.memory, Published(b.memory, s, a, p, ms);
    var d1 := Stored(b.disk, p, s, a, ms, 3);
    LinesGrow(b.disk, p, s, a, ms, 3);
    forall s1, a1 ensures FromAgents(m1, s1, a1) {
      assert FromAgents(m, s1, a1);
      AgentsPublished(m, s, a, p, ms, s1, a1);
    }
    forall s1, p1 ensures FromPlaces(d1, m1, s1, p1) {
      assert FromPlaces(b.disk, m, s1, p1);
      PlacesPublished(b.disk, d1, m, s, a, p, ms, s1, p1);
    }
  }

  lemma AgentsPublished(m: Memory, s: string, a: string, p: Place, ms: seq<Message>, s1: string, a1: string)
    requires FromAgents(m, s1, a1)
    ensures FromAgents(Published(m, s, a, p, ms), s1, a1)
  {
    hide Picked, Published;
    PublishedPicked(m, s, a, p, ms, s1, ByAgent(a1));
  }

  lemma PlacesPublished(d: Disk, d1: Disk, m: Memory, s: string, a: string, p: Place, ms: seq<Message>,
      s1: string, p1: Place)
    requires FromPlaces(d, m, s1, p1)
    requires multiset(LinesAt(d, p1)) <= multiset(LinesAt(d1, p1))
    requires multiset(LinesAt(d1, p)) == multiset(LinesAt(d, p)) + multiset(ms)
    ensures FromPlaces(d1, Published(m, s, a, p, ms), s1, p1)
  {
    hide Picked, Published, LinesAt;
    PublishedPicked(m, s, a, p, ms, s1, ByPlace(p1));
  }

  lemma UnpublishedBacked(b: Books, s: string, a: string, p: Place, ms: seq<Message>, budget: nat)
    requires Backed(b) && Timed(ms) && Attributed(ms)
    ensures Backed(Books(b.memory, Stored(b.disk, p, s, a, ms, budget)))
  {
    LinesGrow(b.disk, p, s, a, ms, budget);
    forall s1, p1 ensures FromPlaces(Stored(b.disk, p, s, a, ms, budget), b.memory, s1, p1) {
      assert FromPlaces(b.disk, b.memory, s1, p1);
      hide LinesSound, Provenance, Picked, Stored, LinesAt;
    }
    hide LinesSound, FromAgents, FromPlaces, Stored;
  }

  lemma StepBacked(b: Books, step: SessionStep)
    requires Backed(b) && Possible(b, step)
    ensures Backed(NextBooks(b, step))
  {
    hide LinesSound, Provenance, Trim, Published;
    match step {
      case Restart(m) =>
      case DoAppend(op) =>
        var ms := Prepared(op);
        PreparedSound(op);
        if ms != [] {
          var s, a, p := Trim(op.target.session), Trim(op.target.agent), PlaceOf(op.target);
          hide Prepared, Timed, Attributed;
          if op.budget >= 3 {
            PublishedBacked(b, s, a, p, ms);
            assert Stored(b.disk, p, s, a, ms, op.budget) == Stored(b.disk, p, s, a, ms, 3);
          } else {
            UnpublishedBacked(b, s, a, p, ms, op.budget);
          }
        }
    }
  }

  /** Over any appends and restarts, whichever writes fail: every session history
      interleaves the histories of its agents, and each of its messages is on disk in the
      directory its turn named, as often as it was published. */
  lemma {:induction false} RunsBacked(b: Books, steps: seq<SessionStep>)
    requires Backed(b) && AllPossible(b, steps)
    ensures Backed(RunBooks(b, steps))
    decreases |steps|
  {
    hide NextBooks, Backed, Possible;
    if steps != [] {
      StepBacked(b, steps[0]);
      RunsBacked(NextBooks(b, steps[0]), steps[1..]);
    }
  }

  // ----- Runs without failed writes: memory and disk agree -----

  /** Every stored line names its agent and every directory its session and its count. */
  predicate Filed(d: Disk) {
    && d.metas.Keys == d.lines.Keys
    && (forall p | p in d.lines :: p.path in d.sessions && d.metas[p].count == |d.lines[p]|)
    && (forall p | p in d.lines :: Attributed(d.lines[p]))
  }

  ghost predicate Agrees(b: Books) {
    var d, m := b.disk, b.memory;
    && Filed(d)
    && CollectsSessions(d, d.lines.Keys, m.histories)
    && CollectsAgents(d, d.lines.Keys, m.agents)
    && (forall s :: Increasing(HistoryOf(m.histories, s)))
    && (forall s, a :: Increasing(AgentHistoryOf(m.agents, s, a)))
    && (forall s, a :: forall x | x in AgentHistoryOf(m.agents, s, a) :: x in HistoryOf(m.histories, s))
  }

  predicate Follows(ms: seq<Message>, h: seq<Message>) {
    forall x, y | x in h && y in ms :: x.createdAt < y.createdAt
  }

  /** The directories are this session's and this agent's, and time moves on. */
  predicate WellPlaced(b: Books, op: Append) {
    var s, a, p := Trim(op.target.session), Trim(op.target.agent), PlaceOf(op.target);
    && (p.path in b.disk.sessions ==> b.disk.sessions[p.path] == s)
    && (p in b.disk.metas ==> b.disk.metas[p].agentId == a)
    && Increasing(Prepared(op)) && Follows(Prepared(op), HistoryOf(b.memory.histories, s))
  }

  ghost predicate StepWellPlaced(b: Books, step: SessionStep) {
    match step
    case DoAppend(op) => WellPlaced(b, op) && op.budget >= 3
    case Restart(m) => Restored(b.disk, m)
  }

  ghost predicate AllWellPlaced(b: Books, steps: seq<SessionStep>)
    decreases |steps|
  {
    steps == [] || (StepWellPlaced(b, steps[0]) && AllWellPlaced(NextBooks(b, steps[0]), steps[1..]))
  }

  function LinesOfSession(d: Disk, s: string): map<Place, seq<Message>> {
    map p | p in d.lines && SessionOf(d, p) == Some(s) :: d.lines[p]
  }

  function LinesOfAgent(d: Disk, s: string, a: string): map<Place, seq<Message>> {
    map p | p in d.lines && SessionOf(d, p) == Some(s) && AgentOf(d, p) == a :: d.lines[p]
  }

  lemma FiledReadsBack(d: Disk, s: string, a: string)
    requires Filed(d)
    ensures OfSession(d, d.lines.Keys, s) == LinesOfSession(d, s)
    ensures OfAgent(d, d.lines.Keys, s, a) == LinesOfAgent(d, s, a)
  {
    forall p | p in d.lines ensures ReadAt(d, p) == d.lines[p] { ReadsBack(d, p); }
    hide ReadAt, SessionOf, AgentOf;
  }

  /** The append belongs in these directories. */
  predicate Fits(d: Disk, p: Place, s: string, a: string) {
    && !Blank(s) && !Blank(a) && Trim(a) == a
    && (p.path in d.sessions ==> d.sessions[p.path] == s)
    && (p in d.metas ==> d.metas[p].agentId == a)
  }

  /** A complete append attributes its own directory and moves no other. */
  lemma StoredAttribution(d: Disk, p: Place, s: string, a: string, ms: seq<Message>, q: Place)
    requires Filed(d) && Fits(d, p, s, a)
    ensures var d1 := Stored(d, p, s, a, ms, 3);
      && (q in d.lines ==> SessionOf(d1, q) == SessionOf(d, q) && AgentOf(d1, q) == AgentOf(d, q))
      && SessionOf(d1, p) == Some(s) && AgentOf(d1, p) == a
  {
    hide Trim, Blank, Attributed;
  }

  lemma StoredFiled(d: Disk, p: Place, s: string, a: string, ms: seq<Message>)
    requires Filed(d) && Attributed(ms)
    ensures Filed(Stored(d, p, s, a, ms, 3))
  {
    forall q | q in d.lines ensures Attributed(d.lines[q]) {}
  }

  /** `p` gained `ms` and is now agent `a`'s in session `s`; no other directory moved. */
  ghost predicate Grew(d: Disk, d1: Disk, p: Place, s: string, a: string, ms: seq<Message>) {
    && d1.lines == d.lines[p := LinesAt(d, p) + ms]
    && (forall q | q in d.lines :: SessionOf(d1, q) == SessionOf(d, q) && AgentOf(d1, q) == AgentOf(d, q))
    && SessionOf(d1, p) == Some(s) && AgentOf(d1, p) == a
  }

  lemma SessionLinesGrow(d: Disk, d1: Disk, p: Place, s: string, a: string, ms: seq<Message>, s1: string)
    requires Grew(d, d1, p, s, a, ms)
    ensures Total(LinesOfSession(d1, s1)) ==
      Total(LinesOfSession(d, s1)) + (if s1 == s then multiset(ms) else multiset{})
  {
    hide SessionOf, AgentOf, Total;
    var m, m1 := LinesOfSession(d, s1), LinesOfSession(d1, s1);
    if s1 == s {
      TotalExtended(m, p, ms);
      assert m1 == m[p := (if p in m then m[p] else []) + ms];
    } else {
      assert m1 == m;
    }
  }

  lemma AgentLinesGrow(d: Disk, d1: Disk, p: Place, s: string, a: string, ms: seq<Message>, s1: string, a1: string)
    requires Grew(d, d1, p, s, a, ms)
    ensures Total(LinesOfAgent(d1, s1, a1)) ==
      Total(LinesOfAgent(d, s1, a1)) + (if s1 == s && a1 == a then multiset(ms) else multiset{})
  {
    hide SessionOf, AgentOf, Total;
    var m, m1 := LinesOfAgent(d, s1, a1), LinesOfAgent(d1, s1, a1);
    if s1 == s && a1 == a {
      TotalExtended(m, p, ms);
      assert m1 == m[p := (if p in m then m[p] else []) + ms];
    } else {
      assert m1 == m;
    }
  }

  /** What one complete append does to the totals that loading sees. */
  lemma StoredTotals(d: Disk, p: Place, s: string, a: string, ms: seq<Message>, s1: string, a1: string)
    requires Filed(d) && Fits(d, p, s, a) && Attributed(ms)
    ensures var d1 := Stored(d, p, s, a, ms, 3);
      && Total(OfSession(d1, d1.lines.Keys, s1)) ==
         Total(OfSession(d, d.lines.Keys, s1)) + (if s1 == s then multiset(ms) else multiset{})
      && Total(OfAgent(d1, d1.lines.Keys, s1, a1)) ==
         Total(OfAgent(d, d.lines.Keys, s1, a1)) + (if s1 == s && a1 == a then multiset(ms) else multiset{})
  {
    var d1 := Stored(d, p, s, a, ms, 3);
    StoredFiled(d, p, s, a, ms);
    FiledReadsBack(d, s1, a1);
    FiledReadsBack(d1, s1, a1);
    forall q { StoredAttribution(d, p, s, a, ms, q); }
    hide Filed, Fits, SessionOf, AgentOf, OfSession, OfAgent, LinesOfSession, LinesOfAgent, Total, Attributed;
    SessionLinesGrow(d, d1, p, s, a, ms, s1);
    AgentLinesGrow(d, d1, p, s, a, ms, s1, a1);
  }

  lemma IncreasingAppend(h: seq<Message>, ms: seq<Message>)
    requires Increasing(h) && Increasing(ms) && Follows(ms, h)
    ensures Increasing(h + ms)
  {
  }

  lemma SessionsAgree(d: Disk, p: Place, h: Histories, s: string, a: string, ms: seq<Message>)
    requires Filed(d) && Fits(d, p, s, a) && Attributed(ms) && ms != []
    requires CollectsSessions(d, d.lines.Keys, h)
    ensures var d1 := Stored(d, p, s, a, ms, 3); CollectsSessions(d1, d1.lines.Keys, Extended(h, s, ms))
  {
    var d1 := Stored(d, p, s, a, ms, 3);
    SessionsGrow(h, s, ms);
    forall s1 ensures multiset(HistoryOf(Extended(h, s, ms), s1)) == Total(OfSession(d1, d1.lines.Keys, s1)) {
      StoredTotals(d, p, s, a, ms, s1, a);
      hide OfSession, Total, Filed, Fits, Stored, HistoryOf, Extended;
    }
    hide OfSession, Total, Filed, Fits;
  }

  lemma AgentsAgree(d: Disk, p: Place, ah: AgentHistories, s: string, a: string, ms: seq<Message>)
    requires Filed(d) && Fits(d, p, s, a) && Attributed(ms) && ms != []
    requires CollectsAgents(d, d.lines.Keys, ah)
    ensures var d1 := Stored(d, p, s, a, ms, 3); CollectsAgents(d1, d1.lines.Keys, AgentExtended(ah, s, a, ms))
  {
    var d1 := Stored(d, p, s, a, ms, 3);
    AgentExtendedMeans(ah, s, a, ms);
    forall s1, a1
      ensures multiset(AgentHistoryOf(AgentExtended(ah, s, a, ms), s1, a1)) == Total(OfAgent(d1, d1.lines.Keys, s1, a1))
    {
      StoredTotals(d, p, s, a, ms, s1, a1);
      hide OfAgent, Total, Filed, Fits, Stored, AgentHistoryOf, AgentExtended, NoEmpties;
    }
    hide OfAgent, Total, Filed, Fits, AgentHistoryOf, AgentExtended, NoEmpties;
  }

  lemma AppendAgrees(b: Books, op: Append)
    requires Agrees(b) && WellPlaced(b, op) && op.budget >= 3
    ensures Agrees(Appended(b, op))
  {
    var ms := Prepared(op);
    if ms != [] {
      var s, a, p := Trim(op.target.session), Trim(op.target.agent), PlaceOf(op.target);
      PreparedSound(op);
      TrimmedName(op.target.session);
      TrimmedName(op.target.agent);
      assert Appended(b, op) == Books(Published(b.memory, s, a, p, ms), Stored(b.disk, p, s, a, ms, 3));
      hide Trim, Prepared;
      PublishedAgrees(b, p, s, a, ms);
    }
  }

  lemma PublishedAgrees(b: Books, p: Place, s: string, a: string, ms: seq<Message>)
    requires Agrees(b) && Fits(b.disk, p, s, a) && Attributed(ms) && ms != []
    requires Increasing(ms) && Follows(ms, HistoryOf(b.memory.histories, s))
    ensures Agrees(Books(Published(b.memory, s, a, p, ms), Stored(b.disk, p, s, a, ms, 3)))
  {
    var m, m1 := b.memory, Published(b.memory, s, a, p, ms);
    StoredFiled(b.disk, p, s, a, ms);
    SessionsAgree(b.disk, p, m.histories, s, a, ms);
    AgentsAgree(b.disk, p, m.agents, s, a, ms);
    hide Filed, Fits, CollectsSessions, OfAgent, Total, Stored;
    AgentExtendedMeans(m.agents, s, a, ms);
    hide AgentExtended, AgentHistoryOf, NoEmpties;
    TimesAgree(m, m1, s, a, ms);
  }

  lemma TimesAgree(m: Memory, m1: Memory, s: string, a: string, ms: seq<Message>)
    requires Increasing(ms) && Follows(ms, HistoryOf(m.histories, s))
    requires m1.histories == Extended(m.histories, s, ms)
    requires forall s1, a1 ::
      (AgentHistoryOf(m1.agents, s1, a1) == AgentHistoryOf(m.agents, s1, a1) + if s1 == s && a1 == a then ms else [])
    requires forall s1 :: Increasing(HistoryOf(m.histories, s1))
    requires forall s1, a1 :: Increasing(AgentHistoryOf(m.agents, s1, a1))
    requires forall s1, a1 :: forall x | x in AgentHistoryOf(m.agents, s1, a1) :: x in HistoryOf(m.histories, s1)
    ensures forall s1 :: Increasing(HistoryOf(m1.histories, s1))
    ensures forall s1, a1 :: Increasing(AgentHistoryOf(m1.agents, s1, a1))
    ensures forall s1, a1 :: forall x | x in AgentHistoryOf(m1.agents, s1, a1) :: x in HistoryOf(m1.histories, s1)
  {
    IncreasingAppend(HistoryOf(m.histories, s), ms);
    SessionsGrow(m.histories, s, ms);
    forall s1 ensures Increasing(HistoryOf(m1.histories, s1)) {
      assert HistoryOf(m.histories, s1) + [] == HistoryOf(m.histories, s1);
    }
    forall s1, a1 ensures Increasing(AgentHistoryOf(m1.agents, s1, a1)) {
      if s1 == s && a1 == a {
        assert Follows(ms, AgentHistoryOf(m.agents, s, a));
        IncreasingAppend(AgentHistoryOf(m.agents, s, a), ms);
      } else {
        assert AgentHistoryOf(m.agents, s1, a1) + [] == AgentHistoryOf(m.agents, s1, a1);
      }
    }
  }

  lemma HistorySame(mine: seq<Message>, loaded: seq<Message>)
    requires Increasing(mine) && Sorted(loaded) && multiset(mine) == multiset(loaded)
    ensures loaded == mine
  {
    TimedSame(mine, loaded);
    OrderUnique(mine, loaded);
  }

  lemma AgreedLoads(b: Books, h: Histories, ah: AgentHistories)
    requires Agrees(b) && Loads(b.disk, h, ah)
    ensures h == b.memory.histories && ah == b.memory.agents
  {
    var m := b.memory;
    hide OfSession, OfAgent, Total, Filed, Increasing, Sorted;
    EmptySorted();
    forall s ensures HistoryOf(h, s) == HistoryOf(m.histories, s) && (s in h <==> s in m.histories) {
      HistorySame(HistoryOf(m.histories, s), HistoryOf(h, s));
    }
    assert h == m.histories;
    forall s, a ensures AgentHistoryOf(ah, s, a) == AgentHistoryOf(m.agents, s, a) {
      HistorySame(AgentHistoryOf(m.agents, s, a), AgentHistoryOf(ah, s, a));
    }
    AgentsSame(ah, m.agents);
  }

  lemma EmptySorted()
    ensures Sorted([])
  {
  }

  lemma AgentsSame(x: AgentHistories, y: AgentHistories)
    requires NoEmpties(x) && NoEmpties(y)
    requires forall s, a :: AgentHistoryOf(x, s, a) == AgentHistoryOf(y, s, a)
    ensures x == y
  {
    forall s ensures s in x <==> s in y {
      if s in x { var a :| a in x[s]; assert AgentHistoryOf(x, s, a) != []; }
      if s in y { var a :| a in y[s]; assert AgentHistoryOf(y, s, a) != []; }
    }
    forall s | s in x ensures x[s] == y[s] {
      forall a ensures a in x[s] <==> a in y[s] {
        assert AgentHistoryOf(x, s, a) == AgentHistoryOf(y, s, a);
      }
      forall a | a in x[s] ensures x[s][a] == y[s][a] {
        assert AgentHistoryOf(x, s, a) == AgentHistoryOf(y, s, a);
      }
    }
  }

  lemma StepAgrees(b: Books, step: SessionStep)
    requires Agrees(b) && StepWellPlaced(b, step)
    ensures Agrees(NextBooks(b, step))
  {
    match step {
      case DoAppend(op) =>
        hide Agrees, WellPlaced;
        AppendAgrees(b, op);
      case Restart(m) =>
        AgreedLoads(b, m.histories, m.agents);
        hide Filed, CollectsSessions, CollectsAgents, Increasing;
    }
  }

  /** Without failed writes, with directories of their own and time moving on, memory and
      disk agree over any appends and restarts. */
  lemma {:induction false} RunsAgree(b: Books, steps: seq<SessionStep>)
    requires Agrees(b) && AllWellPlaced(b, steps)
    ensures Agrees(RunBooks(b, steps))
    decreases |steps|
  {
    hide NextBooks, Agrees, StepWellPlaced;
    if steps != [] {
      StepAgrees(b, steps[0]);
      RunsAgree(NextBooks(b, steps[0]), steps[1..]);
    }
  }

  /** Loading the disk of such a run gives back both history maps, exactly. */
  lemma ReloadRebuilds(b: Books, steps: seq<SessionStep>, h: Histories, ah: AgentHistories)
    requires Agrees(b) && AllWellPlaced(b, steps)
    requires Loads(RunBooks(b, steps).disk, h, ah)
    ensures h == RunBooks(b, steps).memory.histories && ah == RunBooks(b, steps).memory.agents
  {
    RunsAgree(b, steps);
    hide RunBooks, AllWellPlaced;
    AgreedLoads(RunBooks(b, steps), h, ah);
  }

  /** Every agent's recorded message count is the number of its stored lines. */
  lemma CountsMatch(b: Books, steps: seq<SessionStep>, p: Place)
    requires Agrees(b) && AllWellPlaced(b, steps)
    ensures var d := RunBooks(b, steps).disk; CountAt(d, p) == |LinesAt(d, p)|
  {
    RunsAgree(b, steps);
    hide RunBooks, AllWellPlaced;
  }

  lemma EmptyAgrees()
    ensures Agrees(EMPTY) && Backed(EMPTY)
  {
    CollectsNothing(EMPTY.disk);
    assert EMPTY.disk.lines.Keys == {};
    hide Total, CollectsSessions, CollectsAgents;
  }

  /** From the empty store, with no premise on the starting state. */
  lemma SessionsFromEmpty(steps: seq<SessionStep>)
    ensures AllPossible(EMPTY, steps) ==> Backed(RunBooks(EMPTY, steps))
    ensures AllWellPlaced(EMPTY, steps) ==> Agrees(RunBooks(EMPTY, steps))
  {
    EmptyAgrees();
    hide Agrees, Backed;
    if AllPossible(EMPTY, steps) { RunsBacked(EMPTY, steps); }
    if AllWellPlaced(EMPTY, steps) { RunsAgree(EMPTY, steps); }
  }

  // ----- What a cut append leaves to a reload -----

  lemma SameReading(d: Disk, d1: Disk, s: string, a: string)
    requires d1.lines == d.lines
    requires forall q | q in d.lines :: SessionOf(d1, q) == SessionOf(d, q) && ReadAt(d1, q) == ReadAt(d, q)
    ensures OfSession(d1, d1.lines.Keys, s) == OfSession(d, d.lines.Keys, s)
    ensures (forall q | q in d.lines :: AgentOf(d1, q) == AgentOf(d, q)) ==>
      OfAgent(d1, d1.lines.Keys, s, a) == OfAgent(d, d.lines.Keys, s, a)
  {
    hide SessionOf, AgentOf, ReadAt;
  }

  /** An append cut before its lines changes nothing a reload can see. */
  lemma EarlyCutAgrees(b: Books, op: Append)
    requires Agrees(b) && WellPlaced(b, op) && op.budget <= 1
    ensures Agrees(Appended(b, op))
  {
    hide Prepared, Trim, Agrees;
    if Prepared(op) != [] {
      MetaAgrees(b, PlaceOf(op.target), Trim(op.target.session), op.budget);
    }
  }

  lemma MetaAgrees(b: Books, p: Place, s: string, budget: nat)
    requires Agrees(b) && (p.path in b.disk.sessions ==> b.disk.sessions[p.path] == s)
    ensures Agrees(Books(b.memory, b.disk.(sessions := b.disk.sessions[p.path := s])))
    ensures Agrees(Books(b.memory, b.disk))
  {
    var d, d1 := b.disk, b.disk.(sessions := b.disk.sessions[p.path := s]);
    forall q | q in d.lines
      ensures SessionOf(d1, q) == SessionOf(d, q) && ReadAt(d1, q) == ReadAt(d, q) && AgentOf(d1, q) == AgentOf(d, q)
    {
      assert q.path in d.sessions;
      hide Trim, Blank;
    }
    hide ReadAt, SessionOf, AgentOf, OfSession, OfAgent, Total;
    forall s1, a1
      ensures OfSession(d1, d1.lines.Keys, s1) == OfSession(d, d.lines.Keys, s1)
      ensures OfAgent(d1, d1.lines.Keys, s1, a1) == OfAgent(d, d.lines.Keys, s1, a1)
    {
      SameReading(d, d1, s1, a1);
    }
    SameCollections(d, d1, b.memory);
    assert Filed(d1);
    hide Filed, CollectsSessions, CollectsAgents, Increasing, HistoryOf, AgentHistoryOf;
  }

  lemma SameCollections(d: Disk, d1: Disk, m: Memory)
    requires d1.lines == d.lines
    requires forall s1 :: OfSession(d1, d1.lines.Keys, s1) == OfSession(d, d.lines.Keys, s1)
    requires forall s1, a1 :: OfAgent(d1, d1.lines.Keys, s1, a1) == OfAgent(d, d.lines.Keys, s1, a1)
    requires CollectsSessions(d, d.lines.Keys, m.histories) && CollectsAgents(d, d.lines.Keys, m.agents)
    ensures CollectsSessions(d1, d1.lines.Keys, m.histories) && CollectsAgents(d1, d1.lines.Keys, m.agents)
  {
    hide OfSession, OfAgent, Total, HistoryOf, AgentHistoryOf;
  }

  /** The lines written without the agent meta already count for the session. */
  lemma HalfStoredTotals(d: Disk, p: Place, s: string, a: string, ms: seq<Message>, s1: string)
    requires Filed(d) && Fits(d, p, s, a) && Attributed(ms)
    ensures var d2 := Stored(d, p, s, a, ms, 2);
      Total(OfSession(d2, d2.lines.Keys, s1)) ==
      Total(OfSession(d, d.lines.Keys, s1)) + (if s1 == s then multiset(ms) else multiset{})
  {
    var d2, d3 := Stored(d, p, s, a, ms, 2), Stored(d, p, s, a, ms, 3);
    hide Fits, Attributed, ReadAt, Total, OfSession;
    StoredFiled(d, p, s, a, ms);
    assert d2.lines == d3.lines && d2.sessions == d3.sessions;
    forall q | q in d2.lines ensures ReadAt(d2, q) == ReadAt(d3, q) && SessionOf(d2, q) == SessionOf(d3, q) {
      ReadsBack(d2, q);
      ReadsBack(d3, q);
    }
    hide SessionOf, Filed, Stored;
    SameReading(d3, d2, s1, a);
    StoredTotals(d, p, s, a, ms, s1, a);
  }

  lemma HalfStoredShows(b: Books, op: Append, h: Histories, ah: AgentHistories, s1: string)
    requires Agrees(b) && WellPlaced(b, op) && op.budget == 2 && Prepared(op) != []
    requires Loads(Appended(b, op).disk, h, ah)
    ensures multiset(HistoryOf(h, s1)) ==
      multiset(HistoryOf(b.memory.histories, s1)) +
      if s1 == Trim(op.target.session) then multiset(Prepared(op)) else multiset{}
  {
    var ms, p := Prepared(op), PlaceOf(op.target);
    var s, a := Trim(op.target.session), Trim(op.target.agent);
    PreparedSound(op);
    TrimmedName(op.target.session);
    TrimmedName(op.target.agent);
    assert Appended(b, op).disk == Stored(b.disk, p, s, a, ms, 2);
    hide Prepared, Trim, Blank;
    assert Fits(b.disk, p, s, a);
    HalfStoredTotals(b.disk, p, s, a, ms, s1);
    hide Filed, Fits, WellPlaced, Appended, Stored, OfSession, Total, CollectsAgents, Sorted, HistoryOf;
  }

  /** Exactly when a reload shows more than was published: the append's lines were written
      and its agent meta was not. Then it shows the unpublished messages, once each. */
  lemma ReloadAfterCut(b: Books, op: Append, h: Histories, ah: AgentHistories)
    requires Agrees(b) && WellPlaced(b, op) && Loads(Appended(b, op).disk, h, ah)
    ensures var m := Appended(b, op).memory;
      && (h == m.histories <==> op.budget != 2 || Prepared(op) == [])
      && (op.budget == 2 && Prepared(op) != [] ==>
            forall s1 ::
              (multiset(HistoryOf(h, s1)) ==
               multiset(HistoryOf(m.histories, s1)) +
               if s1 == Trim(op.target.session) then multiset(Prepared(op)) else multiset{}))
  {
    if op.budget != 2 || Prepared(op) == [] {
      if op.budget >= 3 {
        AppendAgrees(b, op);
      } else if op.budget <= 1 {
        EarlyCutAgrees(b, op);
      } else {
        assert Appended(b, op) == b;
      }
      hide Agrees, WellPlaced, Loads, Appended, Prepared, Trim;
      AgreedLoads(Appended(b, op), h, ah);
    } else {
      assert Appended(b, op).memory == b.memory;
      hide Agrees, Loads, WellPlaced, Appended;
      forall s1
        ensures multiset(HistoryOf(h, s1)) ==
          multiset(HistoryOf(b.memory.histories, s1)) +
          if s1 == Trim(op.target.session) then multiset(Prepared(op)) else multiset{}
      {
        HalfStoredShows(b, op, h, ah, s1);
      }
      var s := Trim(op.target.session);
      assert |multiset(HistoryOf(h, s))| == |multiset(HistoryOf(b.memory.histories, s))| + |multiset(Prepared(op))|;
    }
  }

  /** Retrying such an append stores its messages a second time; memory holds them once. */
  lemma RetryStoresTwice(b: Books, op: Append, retry: Append)
    requires op.budget == 2 && retry.budget >= 3 && Prepared(op) != []
    requires retry.target == op.target && Prepared(retry) == Prepared(op)
    ensures var b2 := Appended(Appended(b, op), retry);
      var s, p := Trim(op.target.session), PlaceOf(op.target);
      && LinesAt(b2.disk, p) == LinesAt(b.disk, p) + Prepared(op) + Prepared(op)
      && HistoryOf(b2.memory.histories, s) == HistoryOf(b.memory.histories, s) + Prepared(op)
  {
    hide Prepared, Trim;
  }

  // ----- What an append stores, field by field -----

  /** A message as stored: stamped where the caller left fields blank, and trimmed. */
  predicate StoredForm(m: Message, stored: Message, t: Target, time: nat) {
    && stored.role == Trim(m.role) && stored.content == Trim(m.content) && stored.rest == m.rest
    && stored.kind == (if Trim(m.kind) == "" then "message" else Trim(m.kind))
    && stored.agentId == (if Trim(m.agentId) == "" then Trim(t.agent) else Trim(m.agentId))
    && stored.runId == (if Trim(m.runId) == "" then Trim(t.run) else Trim(m.runId))
    && stored.createdAt == (if m.createdAt == 0 then time else m.createdAt)
  }

  /** `picked` are the places of the messages that have a role and a content. */
  predicate Picks(ms: seq<Message>, picked: seq<nat>) {
    && (forall k | 0 <= k < |picked| :: picked[k] < |ms| && !Blank(ms[picked[k]].role) && !Blank(ms[picked[k]].content))
    && (forall k, l | 0 <= k < l < |picked| :: picked[k] < picked[l])
    && (forall i | 0 <= i < |ms| && !Blank(ms[i].role) && !Blank(ms[i].content) :: i in picked)
  }

  /** The stored messages are the picked ones in stored form. */
  predicate StoredAs(t: Target, now: nat, ms: seq<Message>, picked: seq<nat>, stored: seq<Message>) {
    && Picks(ms, picked) && |stored| == |picked|
    && forall k | 0 <= k < |picked| :: StoredForm(ms[picked[k]], stored[k], t, now + picked[k])
  }

  lemma StoredAsNext(t: Target, now: nat, ms: seq<Message>, m: Message, picked: seq<nat>, stored: seq<Message>,
      s: Message)
    requires StoredAs(t, now, ms, picked, stored) && StoredForm(m, s, t, now + |ms|)
    ensures if Blank(m.role) || Blank(m.content) then StoredAs(t, now, ms + [m], picked, stored)
            else StoredAs(t, now, ms + [m], picked + [|ms|], stored + [s])
  {
    hide Blank, StoredForm;
    var all := ms + [m];
    assert forall i | 0 <= i < |ms| :: all[i] == ms[i];
    assert all[|ms|] == m;
    if !(Blank(m.role) || Blank(m.content)) {
      var more := picked + [|ms|];
      assert forall i | 0 <= i < |ms| && i in picked :: i in more;
      assert |ms| in more;
    }
  }

  lemma {:induction false} CompactPicks(t: Target, now: nat, ms: seq<Message>) returns (picked: seq<nat>)
    ensures StoredAs(t, now, ms, picked, Compact(Stamped(t, now, ms)))
  {
    picked := [];
    if ms != [] {
      hide Trim, Stamped, Compact, Cleaned, Stamp, Blank, StoredAs, StoredForm, Kept;
      var n := |ms| - 1;
      var before := CompactPicks(t, now, ms[..n]);
      var stored, m := Compact(Stamped(t, now, ms[..n])), Cleaned(Stamp(t, now, n, ms[n]));
      StampedLast(t, now, ms);
      CleanedForm(t, now + n, n, ms[n], now);
      StoredAsNext(t, now, ms[..n], ms[n], before, stored, m);
      SplitLast(ms);
      if Blank(ms[n].role) || Blank(ms[n].content) {
        assert stored + [] == stored;
        picked := before;
      } else {
        picked := before + [n];
      }
    }
  }

  lemma StampedLast(t: Target, now: nat, ms: seq<Message>)
    requires ms != []
    ensures var n := |ms| - 1; var m := Cleaned(Stamp(t, now, n, ms[n]));
      Compact(Stamped(t, now, ms)) == Compact(Stamped(t, now, ms[..n])) + if Kept(m) then [m] else []
  {
    var n := |ms| - 1;
    hide Trim, Cleaned, Stamp;
    assert Stamped(t, now, ms)[..n] == Stamped(t, now, ms[..n]);
  }

  lemma CleanedForm(t: Target, time: nat, i: nat, m: Message, now: nat)
    requires time == now + i
    ensures StoredForm(m, Cleaned(Stamp(t, now, i, m)), t, time)
    ensures Kept(Cleaned(Stamp(t, now, i, m))) <==> !Blank(m.role) && !Blank(m.content)
  {
    TrimBlank(m.role);
    TrimBlank(m.content);
    TrimBlank(m.agentId);
    TrimBlank(m.runId);
    TrimIdempotent(t.agent);
    TrimIdempotent(t.run);
    hide Trim, Blank;
  }

  /** An append with a session and an agent stores exactly its messages that have a role and
      a content, in order and in stored form; without either it stores nothing. */
  lemma PreparedExactly(op: Append) returns (picked: seq<nat>)
    ensures Blank(op.target.session) || Blank(op.target.agent) ==> Prepared(op) == []
    ensures !Blank(op.target.session) && !Blank(op.target.agent) ==>
      && Picks(op.messages, picked) && |Prepared(op)| == |picked|
      && forall k | 0 <= k < |picked| ::
           StoredForm(op.messages[picked[k]], Prepared(op)[k], op.target, op.now + picked[k])
  {
    TrimBlank(op.target.session);
    TrimBlank(op.target.agent);
    picked := CompactPicks(op.target, op.now, op.messages);
    hide Trim, Blank, Stamped, Compact, StoredForm;
  }

  /** A complete append adds its messages to the session, to the agent and to the directory,
      and counts them; nothing else changes. */
  lemma AppendExactly(b: Books, op: Append)
    requires Prepared(op) != [] && op.budget >= 3
    ensures var b1 := Appended(b, op); var ms := Prepared(op);
      var s, a, p := Trim(op.target.session), Trim(op.target.agent), Place(op.target.path, op.target.folder);
      && b1.memory.histories == b.memory.histories[s := HistoryOf(b.memory.histories, s) + ms]
      && (forall s1, a1 ::
            (AgentHistoryOf(b1.memory.agents, s1, a1) ==
             AgentHistoryOf(b.memory.agents, s1, a1) + if s1 == s && a1 == a then ms else []))
      && b1.disk.sessions == b.disk.sessions[p.path := s]
      && b1.disk.lines == b.disk.lines[p := LinesAt(b.disk, p) + ms]
      && b1.disk.metas == b.disk.metas[p := AgentMeta(a, CountAt(b.disk, p) + |ms|)]
  {
    hide Prepared, Trim;
  }
}
