/** Session histories in memory and on disk: messages, appends and what can be read back
    (session/manager.go, session/file_store.go). */
module Session {
  import opened Common
  import opened Text

  /** `createdAt == 0` is the zero time; `rest` are the fields no rule looks at. */
  datatype Message = Message(
    role: string, kind: string, content: string, agentId: string, runId: string, createdAt: nat, rest: string)

  /** One turn's target. `path` and `folder` are the directories computed for its
      conversation and its agent. */
  datatype Target = Target(session: string, agent: string, run: string, path: string, folder: string)

  datatype Place = Place(path: string, folder: string)

  datatype AgentMeta = AgentMeta(agentId: string, count: nat)

  datatype Disk = Disk(
    sessions: map<string, string>,
    metas: map<Place, AgentMeta>,
    lines: map<Place, seq<Message>>)

  type Histories = map<string, seq<Message>>
  type AgentHistories = map<string, map<string, seq<Message>>>

  /** Whose turn appended a message, and the directory it went to. */
  datatype Owner = Owner(agent: string, place: Place)

  type Owners = map<string, seq<Owner>>

  /** `owners` logs the owner of every message of a session, one by one. */
  datatype Memory = Memory(histories: Histories, agents: AgentHistories, owners: Owners)

  // ----- Normalising messages -----

  const KIND_MESSAGE := "message"

  function Cleaned(m: Message): Message {
    m.(role := Trim(m.role),
       kind := if Trim(m.kind) == "" then KIND_MESSAGE else Trim(m.kind),
       content := Trim(m.content),
       agentId := Trim(m.agentId),
       runId := Trim(m.runId))
  }

  predicate Kept(m: Message) {
    m.role != "" && m.content != ""
  }

  function Compact(ms: seq<Message>): seq<Message> {
    if ms == [] then []
    else
      var m := Cleaned(ms[|ms| - 1]);
      Compact(ms[..|ms| - 1]) + if Kept(m) then [m] else []
  }

  function Stamp(t: Target, now: nat, i: nat, m: Message): Message {
    m.(createdAt := if m.createdAt == 0 then now + i else m.createdAt,
       agentId := if Blank(m.agentId) then Trim(t.agent) else m.agentId,
       runId := if Blank(m.runId) then Trim(t.run) else m.runId)
  }

  function Stamped(t: Target, now: nat, ms: seq<Message>): seq<Message> {
    seq(|ms|, i requires 0 <= i < |ms| => Stamp(t, now, i, ms[i]))
  }

  lemma TrimFixed(s: string)
    requires s != "" && !IsSpace(s[0]) && !IsSpace(s[|s| - 1])
    ensures Trim(s) == s
  {
  }

  lemma CleanedTwice(m: Message)
    ensures Cleaned(Cleaned(m)) == Cleaned(m)
  {
    TrimIdempotent(m.role);
    TrimIdempotent(m.kind);
    TrimIdempotent(m.content);
    TrimIdempotent(m.agentId);
    TrimIdempotent(m.runId);
    TrimFixed(KIND_MESSAGE);
    hide Trim;
  }

  /** The store may compact again what the manager compacted. */
  lemma {:induction false} CompactTwice(ms: seq<Message>)
    ensures Compact(Compact(ms)) == Compact(ms)
  {
    hide Cleaned;
    if ms != [] {
      var n := |ms| - 1;
      var m := Cleaned(ms[n]);
      CompactTwice(ms[..n]);
      CleanedTwice(ms[n]);
      if Kept(m) { assert (Compact(ms[..n]) + [m])[..|Compact(ms[..n])|] == Compact(ms[..n]); }
      else { assert Compact(ms[..n]) + [] == Compact(ms[..n]); }
    }
  }

  lemma {:induction false} CompactMembers(ms: seq<Message>)
    ensures forall m | m in Compact(ms) :: Kept(m) && exists i | 0 <= i < |ms| :: m == Cleaned(ms[i])
  {
    hide Cleaned, Kept;
    if ms != [] {
      var n := |ms| - 1;
      CompactMembers(ms[..n]);
      forall m | m in Compact(ms) ensures Kept(m) && exists i | 0 <= i < |ms| :: m == Cleaned(ms[i]) {
        if m in Compact(ms[..n]) {
          var i :| 0 <= i < n && m == Cleaned(ms[..n][i]);
          assert ms[..n][i] == ms[i];
        }
      }
    }
  }

  // ----- Append -----

  function HistoryOf(h: Histories, s: string): seq<Message> {
    if s in h then h[s] else []
  }

  function AgentHistoryOf(ah: AgentHistories, s: string, a: string): seq<Message> {
    if s in ah && a in ah[s] then ah[s][a] else []
  }

  function Extended(h: Histories, s: string, ms: seq<Message>): Histories {
    h[s := HistoryOf(h, s) + ms]
  }

  function AgentExtended(ah: AgentHistories, s: string, a: string, ms: seq<Message>): AgentHistories {
    ah[s := (if s in ah then ah[s] else map[])[a := AgentHistoryOf(ah, s, a) + ms]]
  }

  function OwnersOf(owners: Owners, s: string): seq<Owner> {
    if s in owners then owners[s] else []
  }

  function Owned(owners: Owners, s: string, o: Owner, n: nat): Owners {
    owners[s := OwnersOf(owners, s) + seq(n, i => o)]
  }

  function Published(m: Memory, s: string, a: string, p: Place, ms: seq<Message>): Memory {
    Memory(Extended(m.histories, s, ms), AgentExtended(m.agents, s, a, ms), Owned(m.owners, s, Owner(a, p), |ms|))
  }

  function LinesAt(d: Disk, p: Place): seq<Message> {
    if p in d.lines then d.lines[p] else []
  }

  function CountAt(d: Disk, p: Place): nat {
    if p in d.metas then d.metas[p].count else 0
  }

  /** The store's three writes: conversation meta, message lines, agent meta. The first
      `budget` of them happen. */
  function Stored(d: Disk, p: Place, s: string, a: string, ms: seq<Message>, budget: nat): Disk {
    Disk(if budget >= 1 then d.sessions[p.path := s] else d.sessions,
         if budget >= 3 then d.metas[p := AgentMeta(a, CountAt(d, p) + |ms|)] else d.metas,
         if budget >= 2 then d.lines[p := LinesAt(d, p) + ms] else d.lines)
  }

  datatype Books = Books(memory: Memory, disk: Disk)

  datatype Append = Append(target: Target, messages: seq<Message>, now: nat, budget: nat)

  function Prepared(op: Append): seq<Message> {
    if Trim(op.target.session) == "" || Trim(op.target.agent) == "" then []
    else Compact(Stamped(op.target, op.now, op.messages))
  }

  function PlaceOf(t: Target): Place {
    Place(t.path, t.folder)
  }

  function Appended(b: Books, op: Append): Books {
    var ms := Prepared(op);
    if ms == [] then b
    else
      var s, a, p := Trim(op.target.session), Trim(op.target.agent), PlaceOf(op.target);
      Books(if op.budget >= 3 then Published(b.memory, s, a, p, ms) else b.memory,
            Stored(b.disk, p, s, a, ms, op.budget))
  }

  const EMPTY := Books(Memory(map[], map[], map[]), Disk(map[], map[], map[]))

  // ----- Totals over directories -----

  ghost function Total(m: map<Place, seq<Message>>): multiset<Message>
    decreases |m|
  {
    if m == map[] then multiset{} else var p :| p in m; multiset(m[p]) + Total(m - {p})
  }

  lemma {:induction false} TotalStep(m: map<Place, seq<Message>>, p: Place)
    requires p in m
    ensures Total(m) == multiset(m[p]) + Total(m - {p})
    decreases |m|
  {
    var q :| q in m && Total(m) == multiset(m[q]) + Total(m - {q});
    if q != p {
      TotalStep(m - {q}, p);
      TotalStep(m - {p}, q);
      assert m - {q} - {p} == m - {p} - {q};
    }
  }

  /** Adding lines in one place adds them to the total. */
  lemma TotalExtended(m: map<Place, seq<Message>>, p: Place, ms: seq<Message>)
    ensures Total(m[p := (if p in m then m[p] else []) + ms]) == Total(m) + multiset(ms)
  {
    var m1 := m[p := (if p in m then m[p] else []) + ms];
    TotalStep(m1, p);
    assert m1 - {p} == m - {p};
    if p in m { TotalStep(m, p); } else { assert m - {p} == m && [] + ms == ms; }
  }

  // ----- Reading the disk back -----

  function SessionOf(d: Disk, p: Place): Option<string> {
    if p.path in d.sessions && !Blank(d.sessions[p.path]) then Some(d.sessions[p.path]) else None
  }

  function AgentOf(d: Disk, p: Place): string {
    if p in d.metas && !Blank(d.metas[p].agentId) then Trim(d.metas[p].agentId) else p.folder
  }

  /** Lines without an agent are attributed to their directory's agent. */
  function ReadAt(d: Disk, p: Place): seq<Message>
    requires p in d.lines
  {
    seq(|d.lines[p]|, i requires 0 <= i < |d.lines[p]| =>
      var m := d.lines[p][i]; if m.agentId == "" then m.(agentId := AgentOf(d, p)) else m)
  }

  function OfSession(d: Disk, places: set<Place>, s: string): map<Place, seq<Message>>
    requires places <= d.lines.Keys
  {
    map p | p in places && SessionOf(d, p) == Some(s) :: ReadAt(d, p)
  }

  function OfAgent(d: Disk, places: set<Place>, s: string, a: string): map<Place, seq<Message>>
    requires places <= d.lines.Keys
  {
    map p | p in places && SessionOf(d, p) == Some(s) && AgentOf(d, p) == a :: ReadAt(d, p)
  }

  predicate Earlier(a: Message, b: Message) {
    a.createdAt != 0 && b.createdAt != 0 && a.createdAt < b.createdAt
  }

  function Inserted(sorted: seq<Message>, m: Message): (r: seq<Message>)
    ensures multiset(r) == multiset(sorted) + multiset{m}
  {
    if sorted != [] && Earlier(m, sorted[|sorted| - 1]) then
      assert sorted == sorted[..|sorted| - 1] + [sorted[|sorted| - 1]];
      Inserted(sorted[..|sorted| - 1], m) + [sorted[|sorted| - 1]]
    else sorted + [m]
  }

  /** The stable sort by time. */
  function SortByTime(ms: seq<Message>): (r: seq<Message>)
    ensures multiset(r) == multiset(ms)
  {
    if ms == [] then []
    else
      assert ms == ms[..|ms| - 1] + [ms[|ms| - 1]];
      Inserted(SortByTime(ms[..|ms| - 1]), ms[|ms| - 1])
  }

  predicate Timed(ms: seq<Message>) {
    forall i | 0 <= i < |ms| :: ms[i].createdAt > 0
  }

  predicate InOrder(ms: seq<Message>) {
    forall i, j | 0 <= i < j < |ms| :: ms[i].createdAt <= ms[j].createdAt
  }

  predicate Increasing(ms: seq<Message>) {
    && Timed(ms)
    && forall i, j | 0 <= i < j < |ms| :: ms[i].createdAt < ms[j].createdAt
  }

  lemma SameMembers(a: seq<Message>, b: multiset<Message>, i: nat)
    requires multiset(a) == b && i < |a|
    ensures a[i] in b
  {
  }

  lemma {:induction false} InsertedInOrder(sorted: seq<Message>, m: Message)
    requires Timed(sorted) && InOrder(sorted) && m.createdAt > 0
    ensures Timed(Inserted(sorted, m)) && InOrder(Inserted(sorted, m))
  {
    var n := |sorted| - 1;
    if sorted != [] && Earlier(m, sorted[n]) {
      var r := Inserted(sorted[..n], m);
      InsertedInOrder(sorted[..n], m);
      forall i | 0 <= i < |r| ensures r[i].createdAt <= sorted[n].createdAt {
        SameMembers(r, multiset(sorted[..n]) + multiset{m}, i);
        if r[i] != m { assert r[i] in sorted[..n]; }
      }
    }
  }

  lemma {:induction false} SortedInOrder(ms: seq<Message>)
    requires Timed(ms)
    ensures Timed(SortByTime(ms)) && InOrder(SortByTime(ms))
  {
    if ms != [] {
      SortedInOrder(ms[..|ms| - 1]);
      InsertedInOrder(SortByTime(ms[..|ms| - 1]), ms[|ms| - 1]);
    }
  }

  lemma LatestSame(a: seq<Message>, b: seq<Message>)
    requires Increasing(a) && InOrder(b) && multiset(a) == multiset(b) && a != []
    ensures |a| == |b| && a[|a| - 1] == b[|b| - 1]
  {
    assert |a| == |multiset(a)| == |b|;
    var n := |a| - 1;
    SameMembers(a, multiset(b), n);
    SameMembers(b, multiset(a), n);
    var i :| 0 <= i < |b| && b[i] == a[n];
    var j :| 0 <= j < |a| && a[j] == b[n];
  }

  lemma WithoutLast(a: seq<Message>)
    requires a != []
    ensures multiset(a[..|a| - 1]) == multiset(a) - multiset{a[|a| - 1]}
    ensures a == a[..|a| - 1] + [a[|a| - 1]]
  {
    assert a == a[..|a| - 1] + [a[|a| - 1]];
  }

  /** There is one way to put distinctly timed messages in order. */
  lemma {:induction false} OrderUnique(a: seq<Message>, b: seq<Message>)
    requires Increasing(a) && InOrder(b) && multiset(a) == multiset(b)
    ensures a == b
  {
    if a == [] {
      assert |multiset(b)| == 0;
    } else {
      var n := |a| - 1;
      LatestSame(a, b);
      WithoutLast(a);
      WithoutLast(b);
      assert Increasing(a[..n]) && InOrder(b[..n]);
      hide Increasing, InOrder;
      OrderUnique(a[..n], b[..n]);
    }
  }
}
