/** The session file store and the manager over it (session/file_store.go,
    session/manager.go). */
module SessionStore {
  import opened Common
  import opened Text
  import opened Session

  // ----- Where a history's messages come from -----

  datatype Sieve = ByAgent(agent: string) | ByPlace(place: Place)

  predicate Passes(x: Sieve, o: Owner) {
    match x
    case ByAgent(a) => o.agent == a
    case ByPlace(p) => o.place == p
  }

  /** The messages of a history whose owner passes. */
  function Picked(h: seq<Message>, owners: seq<Owner>, x: Sieve): seq<Message>
    requires |h| == |owners|
  {
    if h == [] then []
    else
      var n := |h| - 1;
      Picked(h[..n], owners[..n], x) + if Passes(x, owners[n]) then [h[n]] else []
  }

  lemma PickedSnoc(h: seq<Message>, owners: seq<Owner>, m: Message, o: Owner, x: Sieve)
    requires |h| == |owners|
    ensures Picked(h + [m], owners + [o], x) == Picked(h, owners, x) + if Passes(x, o) then [m] else []
  {
    assert (h + [m])[..|h|] == h && (owners + [o])[..|h|] == owners;
  }

  lemma {:induction false} PickedAppend(h: seq<Message>, owners: seq<Owner>, ms: seq<Message>, o: Owner, x: Sieve)
    requires |h| == |owners|
    ensures Picked(h + ms, owners + seq(|ms|, i => o), x) == Picked(h, owners, x) + if Passes(x, o) then ms else []
  {
    hide Picked, Passes;
    if ms == [] {
      assert h + ms == h && owners + seq(0, i => o) == owners;
      assert Picked(h, owners, x) + [] == Picked(h, owners, x);
    } else {
      var n := |ms| - 1;
      PickedAppend(h, owners, ms[..n], o, x);
      PickedSnoc(h + ms[..n], owners + seq(n, i => o), ms[n], o, x);
      assert h + ms[..n] + [ms[n]] == h + ms;
      assert owners + seq(n, i => o) + [o] == owners + seq(|ms|, i => o);
      assert ms[..n] + [ms[n]] == ms;
    }
  }

  lemma {:induction false} PickedMember(h: seq<Message>, owners: seq<Owner>, x: Sieve, m: Message)
    requires |h| == |owners| && m in Picked(h, owners, x)
    ensures m in h
  {
    if h != [] {
      var n := |h| - 1;
      if m in Picked(h[..n], owners[..n], x) { PickedMember(h[..n], owners[..n], x, m); }
    }
  }

  /** How owners move when their message is sorted in. */
  function OwnersInserted(sorted: seq<Message>, owners: seq<Owner>, m: Message, o: Owner): (r: seq<Owner>)
    requires |sorted| == |owners|
    ensures |r| == |owners| + 1
  {
    if sorted != [] && Earlier(m, sorted[|sorted| - 1]) then
      OwnersInserted(sorted[..|sorted| - 1], owners[..|sorted| - 1], m, o) + [owners[|sorted| - 1]]
    else owners + [o]
  }

  function OwnersByTime(ms: seq<Message>, owners: seq<Owner>): (r: seq<Owner>)
    requires |ms| == |owners|
    ensures |r| == |owners|
  {
    if ms == [] then []
    else
      var n := |ms| - 1;
      SortedSize(ms[..n]);
      OwnersInserted(SortByTime(ms[..n]), OwnersByTime(ms[..n], owners[..n]), ms[n], owners[n])
  }

  lemma SortedSize(ms: seq<Message>)
    ensures |SortByTime(ms)| == |ms|
  {
    assert |SortByTime(ms)| == |multiset(SortByTime(ms))| == |multiset(ms)| == |ms|;
  }

  lemma InsertedBefore(sorted: seq<Message>, last: Message, m: Message)
    requires Earlier(m, last)
    ensures Inserted(sorted + [last], m) == Inserted(sorted, m) + [last]
  {
    assert (sorted + [last])[..|sorted|] == sorted;
  }

  lemma PickedNone(sorted: seq<Message>, owners: seq<Owner>, m: Message, x: Sieve)
    requires |sorted| == |owners| && InOrder(sorted)
    requires sorted == [] || !Earlier(m, sorted[|sorted| - 1])
    requires m.createdAt > 0 && Timed(sorted)
    ensures var picked := Picked(sorted, owners, x); picked == [] || !Earlier(m, picked[|picked| - 1])
  {
    var picked := Picked(sorted, owners, x);
    if picked != [] {
      PickedMember(sorted, owners, x, picked[|picked| - 1]);
      hide Picked;
      var i :| 0 <= i < |sorted| && sorted[i] == picked[|picked| - 1];
    }
  }

  lemma OwnersInsertedBefore(sorted: seq<Message>, owners: seq<Owner>, last: Message, lastOwner: Owner,
      m: Message, o: Owner)
    requires |sorted| == |owners| && Earlier(m, last)
    ensures OwnersInserted(sorted + [last], owners + [lastOwner], m, o) ==
      OwnersInserted(sorted, owners, m, o) + [lastOwner]
  {
    assert (sorted + [last])[..|sorted|] == sorted && (owners + [lastOwner])[..|owners|] == owners;
  }

  /** Sorting a message in and picking commute. */
  predicate Commutes(sorted: seq<Message>, owners: seq<Owner>, m: Message, o: Owner, x: Sieve)
    requires |sorted| == |owners|
  {
    && |Inserted(sorted, m)| == |OwnersInserted(sorted, owners, m, o)|
    && Picked(Inserted(sorted, m), OwnersInserted(sorted, owners, m, o), x) ==
       if Passes(x, o) then Inserted(Picked(sorted, owners, x), m) else Picked(sorted, owners, x)
  }

  lemma CommutesBefore(sorted: seq<Message>, owners: seq<Owner>, last: Message, lastOwner: Owner,
      m: Message, o: Owner, x: Sieve)
    requires |sorted| == |owners| && Earlier(m, last) && Commutes(sorted, owners, m, o, x)
    ensures Commutes(sorted + [last], owners + [lastOwner], m, o, x)
  {
    hide Earlier, Passes, Picked, Inserted, OwnersInserted;
    InsertedBefore(sorted, last, m);
    OwnersInsertedBefore(sorted, owners, last, lastOwner, m, o);
    InsertedBefore(Picked(sorted, owners, x), last, m);
    PickedSnoc(sorted, owners, last, lastOwner, x);
    PickedSnoc(Inserted(sorted, m), OwnersInserted(sorted, owners, m, o), last, lastOwner, x);
    var picked := Picked(sorted, owners, x);
    assert picked + [] == picked && Inserted(picked, m) + [] == Inserted(picked, m);
  }

  lemma InsertedAfter(sorted: seq<Message>, m: Message)
    requires sorted == [] || !Earlier(m, sorted[|sorted| - 1])
    ensures Inserted(sorted, m) == sorted + [m]
  {
  }

  lemma OwnersInsertedAfter(sorted: seq<Message>, owners: seq<Owner>, m: Message, o: Owner)
    requires |sorted| == |owners| && (sorted == [] || !Earlier(m, sorted[|sorted| - 1]))
    ensures OwnersInserted(sorted, owners, m, o) == owners + [o]
  {
  }

  lemma CommutesAfter(sorted: seq<Message>, owners: seq<Owner>, m: Message, o: Owner, x: Sieve)
    requires |sorted| == |owners| && Timed(sorted) && InOrder(sorted) && m.createdAt > 0
    requires sorted == [] || !Earlier(m, sorted[|sorted| - 1])
    ensures Commutes(sorted, owners, m, o, x)
  {
    hide Passes, Picked, Timed, InOrder;
    PickedNone(sorted, owners, m, x);
    InsertedAfter(sorted, m);
    OwnersInsertedAfter(sorted, owners, m, o);
    InsertedAfter(Picked(sorted, owners, x), m);
    hide Earlier, Inserted, OwnersInserted;
    PickedSnoc(sorted, owners, m, o, x);
    assert Picked(sorted, owners, x) + [] == Picked(sorted, owners, x);
  }

  lemma {:induction false} PickedInserted(sorted: seq<Message>, owners: seq<Owner>, m: Message, o: Owner, x: Sieve)
    requires |sorted| == |owners| && Timed(sorted) && InOrder(sorted) && m.createdAt > 0
    ensures Commutes(sorted, owners, m, o, x)
  {
    hide Commutes;
    if sorted != [] && Earlier(m, sorted[|sorted| - 1]) {
      var n := |sorted| - 1;
      assert Timed(sorted[..n]) && InOrder(sorted[..n]);
      hide Timed, InOrder;
      PickedInserted(sorted[..n], owners[..n], m, o, x);
      CommutesBefore(sorted[..n], owners[..n], sorted[n], owners[n], m, o, x);
      SplitLast(sorted);
      SplitLast(owners);
    } else {
      CommutesAfter(sorted, owners, m, o, x);
    }
  }

  lemma SortedSnoc(ms: seq<Message>, m: Message)
    ensures SortByTime(ms + [m]) == Inserted(SortByTime(ms), m)
  {
    assert (ms + [m])[..|ms|] == ms;
  }

  lemma OwnersByTimeSnoc(ms: seq<Message>, owners: seq<Owner>, m: Message, o: Owner)
    requires |ms| == |owners|
    ensures |SortByTime(ms)| == |ms|
    ensures OwnersByTime(ms + [m], owners + [o]) == OwnersInserted(SortByTime(ms), OwnersByTime(ms, owners), m, o)
  {
    SortedSize(ms);
    assert (ms + [m])[..|ms|] == ms && (owners + [o])[..|owners|] == owners;
  }

  predicate SortsPicked(ms: seq<Message>, owners: seq<Owner>, x: Sieve)
    requires |ms| == |owners|
  {
    && |SortByTime(ms)| == |ms|
    && Picked(SortByTime(ms), OwnersByTime(ms, owners), x) == SortByTime(Picked(ms, owners, x))
  }

  lemma SortsPickedSnoc(ms: seq<Message>, owners: seq<Owner>, m: Message, o: Owner, x: Sieve)
    requires |ms| == |owners| && Timed(ms) && m.createdAt > 0 && SortsPicked(ms, owners, x)
    ensures SortsPicked(ms + [m], owners + [o], x)
  {
    hide Inserted, OwnersInserted, OwnersByTime, Timed, InOrder, Passes, Picked, SortByTime;
    SortedSize(ms + [m]);
    SortedInOrder(ms);
    PickedInserted(SortByTime(ms), OwnersByTime(ms, owners), m, o, x);
    assert Picked(ms, owners, x) + [] == Picked(ms, owners, x);
    SortedSnoc(ms, m);
    OwnersByTimeSnoc(ms, owners, m, o);
    PickedSnoc(ms, owners, m, o, x);
    SortedSnoc(Picked(ms, owners, x), m);
  }

  /** Sorting and picking commute on timed histories. */
  lemma {:induction false} PickedSorted(ms: seq<Message>, owners: seq<Owner>, x: Sieve)
    requires |ms| == |owners| && Timed(ms)
    ensures SortsPicked(ms, owners, x)
  {
    if ms != [] {
      var n := |ms| - 1;
      assert Timed(ms[..n]) && ms[n].createdAt > 0;
      hide SortsPicked, Timed;
      PickedSorted(ms[..n], owners[..n], x);
      SortsPickedSnoc(ms[..n], owners[..n], ms[n], owners[n], x);
      SplitLast(ms);
      SplitLast(owners);
    }
  }

  /** A session history interleaves the histories of its agents. */
  predicate FromAgents(m: Memory, s: string, a: string) {
    && |OwnersOf(m.owners, s)| == |HistoryOf(m.histories, s)|
    && Picked(HistoryOf(m.histories, s), OwnersOf(m.owners, s), ByAgent(a)) == AgentHistoryOf(m.agents, s, a)
  }

  /** What a session history owes to a directory is among the directory's lines. */
  predicate FromPlaces(d: Disk, m: Memory, s: string, p: Place) {
    && |OwnersOf(m.owners, s)| == |HistoryOf(m.histories, s)|
    && multiset(Picked(HistoryOf(m.histories, s), OwnersOf(m.owners, s), ByPlace(p))) <= multiset(LinesAt(d, p))
  }

  ghost predicate Provenance(d: Disk, m: Memory) {
    && (forall s, a :: FromAgents(m, s, a))
    && (forall s, p :: FromPlaces(d, m, s, p))
  }

  predicate Attributed(ms: seq<Message>) {
    forall i | 0 <= i < |ms| :: ms[i].agentId != ""
  }

  /** Every stored line has its time and its agent. */
  predicate LinesSound(d: Disk) {
    forall p | p in d.lines :: Timed(d.lines[p]) && Attributed(d.lines[p])
  }

  lemma ReadsBack(d: Disk, p: Place)
    requires p in d.lines && Attributed(d.lines[p])
    ensures ReadAt(d, p) == d.lines[p]
  {
  }

  // What reading some of the directories has collected, per session and per agent: exactly
  // their messages, with no empty entries.

  ghost predicate CollectsSessions(d: Disk, places: set<Place>, h: Histories) {
    && places <= d.lines.Keys
    && (forall s :: multiset(HistoryOf(h, s)) == Total(OfSession(d, places, s)))
    && (forall s | s in h :: h[s] != [])
  }

  ghost predicate CollectsAgents(d: Disk, places: set<Place>, ah: AgentHistories) {
    && places <= d.lines.Keys
    && (forall s, a :: multiset(AgentHistoryOf(ah, s, a)) == Total(OfAgent(d, places, s, a)))
    && NoEmpties(ah)
  }

  predicate NoEmpties(ah: AgentHistories) {
    && (forall s | s in ah :: ah[s] != map[])
    && (forall s, a | s in ah && a in ah[s] :: ah[s][a] != [])
  }

  lemma AgentExtendedMeans(ah: AgentHistories, s: string, a: string, ms: seq<Message>)
    requires NoEmpties(ah) && ms != []
    ensures NoEmpties(AgentExtended(ah, s, a, ms))
    ensures forall s1, a1 ::
      (AgentHistoryOf(AgentExtended(ah, s, a, ms), s1, a1) ==
       AgentHistoryOf(ah, s1, a1) + if s1 == s && a1 == a then ms else [])
  {
    var ah1 := AgentExtended(ah, s, a, ms);
    assert a in ah1[s];
    forall s1, a1 | s1 in ah1 && a1 in ah1[s1] ensures ah1[s1][a1] != [] {
      if s1 == s && a1 != a { assert a1 in ah[s]; }
    }
  }

  lemma CollectsNothing(d: Disk)
    ensures CollectsSessions(d, {}, map[]) && CollectsAgents(d, {}, map[])
  {
    forall s ensures OfSession(d, {}, s) == map[] {}
    forall s, a ensures OfAgent(d, {}, s, a) == map[] {}
  }

  predicate Sorted(ms: seq<Message>) {
    Timed(ms) ==> InOrder(ms)
  }

  /** What loading makes of a disk; histories of timed messages come out in time order. */
  ghost predicate Loads(d: Disk, h: Histories, ah: AgentHistories) {
    && CollectsSessions(d, d.lines.Keys, h)
    && CollectsAgents(d, d.lines.Keys, ah)
    && (forall s | s in h :: Sorted(h[s]))
    && (forall s, a | s in ah && a in ah[s] :: Sorted(ah[s][a]))
  }

  lemma SessionsGrow(h: Histories, s: string, ms: seq<Message>)
    ensures forall s1 :: HistoryOf(Extended(h, s, ms), s1) == HistoryOf(h, s1) + if s1 == s then ms else []
  {
  }

  // ----- What loading collects, with its owners -----

  /** What the pick should be once the directories in `done` were read. */
  function Expected(d: Disk, done: set<Place>, ah: AgentHistories, s: string, x: Sieve): seq<Message> {
    match x
    case ByAgent(a) => AgentHistoryOf(ah, s, a)
    case ByPlace(p) => if p in done && p in d.lines && SessionOf(d, p) == Some(s) then ReadAt(d, p) else []
  }

  predicate CollectedFrom(d: Disk, done: set<Place>, m: Memory, s: string, x: Sieve) {
    && |OwnersOf(m.owners, s)| == |HistoryOf(m.histories, s)|
    && Picked(HistoryOf(m.histories, s), OwnersOf(m.owners, s), x) == Expected(d, done, m.agents, s, x)
    && Timed(HistoryOf(m.histories, s))
  }

  ghost predicate Traced(d: Disk, done: set<Place>, m: Memory) {
    forall s, x :: CollectedFrom(d, done, m, s, x)
  }

  /** Reading one more directory. */
  function Collected(d: Disk, m: Memory, p: Place): Memory
    requires p in d.lines
  {
    if SessionOf(d, p).Some? && ReadAt(d, p) != []
    then Published(m, SessionOf(d, p).value, AgentOf(d, p), p, ReadAt(d, p)) else m
  }

  lemma TracedNext(d: Disk, done: set<Place>, m: Memory, p: Place)
    requires LinesSound(d) && Traced(d, done, m) && p in d.lines && p !in done
    ensures Traced(d, done + {p}, Collected(d, m, p))
  {
    ReadsBack(d, p);
    assert Timed(ReadAt(d, p));
    forall s, x ensures CollectedFrom(d, done + {p}, Collected(d, m, p), s, x) {
      assert CollectedFrom(d, done, m, s, x);
      hide LinesSound, ReadAt, Traced, Collected, CollectedFrom;
      CollectedNext(d, done, m, p, s, x);
    }
  }

  lemma CollectedNext(d: Disk, done: set<Place>, m: Memory, p: Place, s: string, x: Sieve)
    requires p in d.lines && p !in done && Timed(ReadAt(d, p)) && CollectedFrom(d, done, m, s, x)
    ensures CollectedFrom(d, done + {p}, Collected(d, m, p), s, x)
  {
    hide Picked, Published, SessionOf, ReadAt, AgentOf;
    var ms := ReadAt(d, p);
    if SessionOf(d, p).Some? && ms != [] {
      PublishedPicked(m, SessionOf(d, p).value, AgentOf(d, p), p, ms, s, x);
      hide AgentHistoryOf, HistoryOf, OwnersOf;
      var m1 := Collected(d, m, p);
      assert m1 == Published(m, SessionOf(d, p).value, AgentOf(d, p), p, ms);
      assert Expected(d, done + {p}, m1.agents, s, x) ==
        Expected(d, done, m.agents, s, x) +
        if SessionOf(d, p) == Some(s) && Passes(x, Owner(AgentOf(d, p), p)) then ms else [];
    }
  }

  /** What publishing adds to a pick. */
  lemma PublishedPicked(m: Memory, s: string, a: string, p: Place, ms: seq<Message>, s1: string, x: Sieve)
    requires |OwnersOf(m.owners, s1)| == |HistoryOf(m.histories, s1)|
    ensures var m1 := Published(m, s, a, p, ms); var h1, os1 := HistoryOf(m1.histories, s1), OwnersOf(m1.owners, s1);
      && |os1| == |h1|
      && h1 == HistoryOf(m.histories, s1) + (if s1 == s then ms else [])
      && Picked(h1, os1, x) ==
         Picked(HistoryOf(m.histories, s1), OwnersOf(m.owners, s1), x) +
         (if s1 == s && Passes(x, Owner(a, p)) then ms else [])
      && forall a1 ::
           (AgentHistoryOf(m1.agents, s1, a1) ==
            AgentHistoryOf(m.agents, s1, a1) + (if s1 == s && a1 == a then ms else []))
  {
    if s1 == s { PickedAppend(HistoryOf(m.histories, s), OwnersOf(m.owners, s), ms, Owner(a, p), x); }
    hide Picked, Passes;
    forall a1 { AgentExtendedAt(m.agents, s, a, ms, s1, a1); }
    hide AgentExtended, AgentHistoryOf;
  }

  lemma AgentExtendedAt(ah: AgentHistories, s: string, a: string, ms: seq<Message>, s1: string, a1: string)
    ensures AgentHistoryOf(AgentExtended(ah, s, a, ms), s1, a1) ==
      AgentHistoryOf(ah, s1, a1) + if s1 == s && a1 == a then ms else []
  {
  }

  /** The owners of the sorted histories. */
  ghost function OwnersSorted(h: Histories, owners: Owners): Owners
    requires forall s | s in h :: |OwnersOf(owners, s)| == |h[s]|
  {
    map s | s in h :: OwnersByTime(h[s], OwnersOf(owners, s))
  }

  lemma TracedSorted(d: Disk, m: Memory)
    requires LinesSound(d) && Traced(d, d.lines.Keys, m)
    ensures forall s | s in m.histories :: |OwnersOf(m.owners, s)| == |m.histories[s]|
    ensures var os := OwnersSorted(m.histories, m.owners);
      Provenance(d, Memory(SessionsSorted(m.histories), AgentsSorted(m.agents), os))
  {
    forall s | s in m.histories ensures |OwnersOf(m.owners, s)| == |m.histories[s]| {
      assert CollectedFrom(d, d.lines.Keys, m, s, ByAgent(""));
    }
    var m1 := Memory(SessionsSorted(m.histories), AgentsSorted(m.agents), OwnersSorted(m.histories, m.owners));
    hide LinesSound, CollectedFrom, FromAgents, FromPlaces, SessionsSorted, AgentsSorted, OwnersSorted;
    forall s, a ensures FromAgents(m1, s, a) {
      assert CollectedFrom(d, d.lines.Keys, m, s, ByAgent(a));
      AgentsTraced(d, m, m1, s, a);
    }
    forall s, p ensures FromPlaces(d, m1, s, p) {
      assert CollectedFrom(d, d.lines.Keys, m, s, ByPlace(p));
      PlacesTraced(d, m, m1, s, p);
    }
  }

  lemma AgentsTraced(d: Disk, m: Memory, m1: Memory, s: string, a: string)
    requires CollectedFrom(d, d.lines.Keys, m, s, ByAgent(a))
    requires forall s | s in m.histories :: |OwnersOf(m.owners, s)| == |m.histories[s]|
    requires m1.histories == SessionsSorted(m.histories) && m1.owners == OwnersSorted(m.histories, m.owners)
    requires m1.agents == AgentsSorted(m.agents)
    ensures FromAgents(m1, s, a)
  {
    hide Picked, SortByTime, SessionsSorted, AgentsSorted, OwnersSorted, AgentHistoryOf, HistoryOf, OwnersOf, Timed;
    SortedPick(m, m1, s, ByAgent(a));
    SortedAgents(m.agents, s, a);
  }

  lemma PlacesTraced(d: Disk, m: Memory, m1: Memory, s: string, p: Place)
    requires LinesSound(d) && CollectedFrom(d, d.lines.Keys, m, s, ByPlace(p))
    requires forall s | s in m.histories :: |OwnersOf(m.owners, s)| == |m.histories[s]|
    requires m1.histories == SessionsSorted(m.histories) && m1.owners == OwnersSorted(m.histories, m.owners)
    ensures FromPlaces(d, m1, s, p)
  {
    if p in d.lines { ReadsBack(d, p); }
    hide LinesSound, ReadAt, SessionOf;
    hide Picked, SortByTime, SessionsSorted, OwnersSorted, HistoryOf, OwnersOf, Timed;
    SortedPick(m, m1, s, ByPlace(p));
  }

  lemma SortedAgents(ah: AgentHistories, s: string, a: string)
    ensures AgentHistoryOf(AgentsSorted(ah), s, a) == SortByTime(AgentHistoryOf(ah, s, a))
  {
    hide Inserted;
  }

  lemma SortedPick(m: Memory, m1: Memory, s: string, x: Sieve)
    requires forall s | s in m.histories :: |OwnersOf(m.owners, s)| == |m.histories[s]|
    requires |OwnersOf(m.owners, s)| == |HistoryOf(m.histories, s)| && Timed(HistoryOf(m.histories, s))
    requires m1.histories == SessionsSorted(m.histories) && m1.owners == OwnersSorted(m.histories, m.owners)
    ensures |OwnersOf(m1.owners, s)| == |HistoryOf(m1.histories, s)|
    ensures Picked(HistoryOf(m1.histories, s), OwnersOf(m1.owners, s), x) ==
      SortByTime(Picked(HistoryOf(m.histories, s), OwnersOf(m.owners, s), x))
  {
    if s in m.histories {
      PickedSorted(m.histories[s], OwnersOf(m.owners, s), x);
    }
    hide Inserted, OwnersInserted, Timed;
  }

  // ----- The file store and the manager -----

  class FileStore {
    var disk: Disk

    constructor ()
      ensures disk == EMPTY.disk
    {
      disk := EMPTY.disk;
    }

    /** Persists compacted messages; `ok` only if all three writes happened. */
    method AppendAgentMessages(t: Target, messages: seq<Message>, budget: nat) returns (ok: bool)
      modifies this
      ensures var ms := Compact(messages);
        if ms == [] then ok && disk == old(disk)
        else
          && (ok <==> budget >= 3)
          && disk == Stored(old(disk), Place(t.path, t.folder), Trim(t.session), Trim(t.agent), ms, budget)
    {
      var ms := Compact(messages);
      if |ms| == 0 { return true; }
      var p := Place(t.path, t.folder);
      if budget == 0 { return false; }
      disk := disk.(sessions := disk.sessions[p.path := Trim(t.session)]);
      if budget == 1 { return false; }
      disk := disk.(lines := disk.lines[p := LinesAt(disk, p) + ms]);
      if budget == 2 { return false; }
      disk := disk.(metas := disk.metas[p := AgentMeta(Trim(t.agent), CountAt(disk, p) + |ms|)]);
      return true;
    }

    /** `owners` says which directory each loaded message was read from. */
    method LoadHistories() returns (h: Histories, ah: AgentHistories, ghost owners: Owners)
      ensures Loads(disk, h, ah)
      ensures LinesSound(disk) ==> Provenance(disk, Memory(h, ah, owners))
    {
      hide OfSession, OfAgent, Total, SessionOf, AgentOf, ReadAt, LinesSound, Provenance;
      CollectsNothing(disk);
      owners := map[];
      var combined: Histories := map[];
      var byAgent: AgentHistories := map[];
      var todo := disk.lines.Keys;
      ghost var done: set<Place> := {};
      while todo != {}
        invariant todo !! done && todo + done == disk.lines.Keys
        invariant CollectsSessions(disk, done, combined) && CollectsAgents(disk, done, byAgent)
        invariant LinesSound(disk) ==> Traced(disk, done, Memory(combined, byAgent, owners))
        decreases todo
      {
        var p :| p in todo;
        var ms := ReadAt(disk, p);
        SessionsNext(disk, done, combined, p);
        AgentsNext(disk, done, byAgent, p);
        if LinesSound(disk) { TracedNext(disk, done, Memory(combined, byAgent, owners), p); }
        todo, done := todo - {p}, done + {p};
        match SessionOf(disk, p) {
          case None =>
          case Some(s) =>
            if |ms| > 0 {
              combined := Extended(combined, s, ms);
              byAgent := AgentExtended(byAgent, s, AgentOf(disk, p), ms);
              owners := Owned(owners, s, Owner(AgentOf(disk, p), p), |ms|);
            }
        }
      }
      assert done == disk.lines.Keys;
      SessionsSortedWell(disk, done, combined);
      AgentsSortedWell(disk, done, byAgent);
      h := SessionsSorted(combined);
      ah := AgentsSorted(byAgent);
      if LinesSound(disk) {
        TracedSorted(disk, Memory(combined, byAgent, owners));
        owners := OwnersSorted(combined, owners);
      }
    }
  }

  lemma OfSessionNext(d: Disk, done: set<Place>, p: Place, s: string)
    requires done <= d.lines.Keys && p in d.lines && p !in done
    ensures Total(OfSession(d, done + {p}, s)) ==
      Total(OfSession(d, done, s)) + if SessionOf(d, p) == Some(s) then multiset(ReadAt(d, p)) else multiset{}
  {
    var m, m1 := OfSession(d, done, s), OfSession(d, done + {p}, s);
    if SessionOf(d, p) == Some(s) {
      assert [] + ReadAt(d, p) == ReadAt(d, p);
      assert m1 == m[p := [] + ReadAt(d, p)];
      TotalExtended(m, p, ReadAt(d, p));
    } else {
      assert m1 == m;
    }
  }

  lemma OfAgentNext(d: Disk, done: set<Place>, p: Place, s: string, a: string)
    requires done <= d.lines.Keys && p in d.lines && p !in done
    ensures Total(OfAgent(d, done + {p}, s, a)) == Total(OfAgent(d, done, s, a)) +
      if SessionOf(d, p) == Some(s) && AgentOf(d, p) == a then multiset(ReadAt(d, p)) else multiset{}
  {
    var m, m1 := OfAgent(d, done, s, a), OfAgent(d, done + {p}, s, a);
    if SessionOf(d, p) == Some(s) && AgentOf(d, p) == a {
      assert [] + ReadAt(d, p) == ReadAt(d, p);
      assert m1 == m[p := [] + ReadAt(d, p)];
      TotalExtended(m, p, ReadAt(d, p));
    } else {
      assert m1 == m;
    }
  }

  lemma SessionsNext(d: Disk, done: set<Place>, h: Histories, p: Place)
    requires CollectsSessions(d, done, h) && p in d.lines && p !in done
    ensures CollectsSessions(d, done + {p},
              if SessionOf(d, p).Some? && ReadAt(d, p) != []
              then Extended(h, SessionOf(d, p).value, ReadAt(d, p)) else h)
  {
    hide OfSession, Total, SessionOf, ReadAt, HistoryOf;
    var ms := ReadAt(d, p);
    var h1 := if SessionOf(d, p).Some? && ms != [] then Extended(h, SessionOf(d, p).value, ms) else h;
    assert forall s | s in h1 :: h1[s] != [];
    hide Extended;
    forall s ensures multiset(HistoryOf(h1, s)) == Total(OfSession(d, done + {p}, s)) {
      OfSessionNext(d, done, p, s);
      if SessionOf(d, p).Some? { SessionsGrow(h, SessionOf(d, p).value, ms); }
      assert HistoryOf(h, s) + [] == HistoryOf(h, s);
    }
  }

  lemma AgentsNext(d: Disk, done: set<Place>, ah: AgentHistories, p: Place)
    requires CollectsAgents(d, done, ah) && p in d.lines && p !in done
    ensures CollectsAgents(d, done + {p},
              if SessionOf(d, p).Some? && ReadAt(d, p) != []
              then AgentExtended(ah, SessionOf(d, p).value, AgentOf(d, p), ReadAt(d, p)) else ah)
  {
    var ms := ReadAt(d, p);
    forall s, a
      ensures Total(OfAgent(d, done + {p}, s, a)) == Total(OfAgent(d, done, s, a)) +
        if SessionOf(d, p) == Some(s) && AgentOf(d, p) == a then multiset(ms) else multiset{}
    {
      OfAgentNext(d, done, p, s, a);
    }
    if SessionOf(d, p).Some? && ms != [] { AgentExtendedMeans(ah, SessionOf(d, p).value, AgentOf(d, p), ms); }
    hide OfAgent, Total, SessionOf, AgentOf, ReadAt, AgentHistoryOf, AgentExtended, NoEmpties;
  }

  lemma SortsWell(ms: seq<Message>)
    ensures Sorted(SortByTime(ms))
    ensures SortByTime(ms) == [] <==> ms == []
  {
    TimedSame(SortByTime(ms), ms);
    if Timed(ms) { SortedInOrder(ms); }
    assert |SortByTime(ms)| == |multiset(SortByTime(ms))| == |ms|;
  }

  function SessionsSorted(h: Histories): Histories {
    map s | s in h :: SortByTime(h[s])
  }

  function AgentsSorted(ah: AgentHistories): AgentHistories {
    map s | s in ah :: map a | a in ah[s] :: SortByTime(ah[s][a])
  }

  lemma SessionsSortedWell(d: Disk, places: set<Place>, h: Histories)
    requires CollectsSessions(d, places, h)
    ensures CollectsSessions(d, places, SessionsSorted(h))
    ensures forall s | s in h :: Sorted(SessionsSorted(h)[s])
  {
    hide OfSession, Total, SortByTime, Sorted;
    forall s | s in h ensures Sorted(SessionsSorted(h)[s]) && SessionsSorted(h)[s] != [] { SortsWell(h[s]); }
    forall s ensures multiset(HistoryOf(SessionsSorted(h), s)) == multiset(HistoryOf(h, s)) {}
  }

  lemma AgentsSortedFull(ah: AgentHistories)
    requires NoEmpties(ah)
    ensures NoEmpties(AgentsSorted(ah))
  {
    hide SortByTime;
    var ah1 := AgentsSorted(ah);
    forall s, a | s in ah && a in ah[s] ensures ah1[s][a] != [] { SortsWell(ah[s][a]); }
    forall s | s in ah1 ensures ah1[s] != map[] { var a :| a in ah[s]; assert a in ah1[s]; }
  }

  lemma AgentsSortedWell(d: Disk, places: set<Place>, ah: AgentHistories)
    requires CollectsAgents(d, places, ah)
    ensures CollectsAgents(d, places, AgentsSorted(ah))
    ensures forall s, a | s in ah && a in ah[s] :: Sorted(AgentsSorted(ah)[s][a])
  {
    hide OfAgent, Total, SortByTime, Sorted;
    var ah1 := AgentsSorted(ah);
    AgentsSortedFull(ah);
    forall s, a | s in ah && a in ah[s] ensures Sorted(ah1[s][a]) { SortsWell(ah[s][a]); }
    forall s, a ensures multiset(AgentHistoryOf(ah1, s, a)) == multiset(AgentHistoryOf(ah, s, a)) {}
    hide AgentHistoryOf, NoEmpties, AgentsSorted;
  }

  lemma TimedSame(a: seq<Message>, b: seq<Message>)
    requires multiset(a) == multiset(b)
    ensures Timed(a) ==> Timed(b)
  {
    if Timed(a) {
      forall i | 0 <= i < |b| ensures b[i].createdAt > 0 {
        SameMembers(b, multiset(a), i);
      }
    }
  }

  /** What a manager knows after it has loaded the disk. */
  ghost predicate Restored(d: Disk, m: Memory) {
    Loads(d, m.histories, m.agents) && (LinesSound(d) ==> Provenance(d, m))
  }

  class Manager {
    const store: FileStore
    var histories: Histories
    var agentHistories: AgentHistories
    ghost var owners: Owners

    ghost function Here(): Books
      reads this, store
    {
      Books(Memory(histories, agentHistories, owners), store.disk)
    }

    /** `NewManagerWithStore`: starts from what the disk holds. */
    constructor (store: FileStore)
      ensures this.store == store && Restored(store.disk, Here().memory)
    {
      this.store := store;
      var h, ah, os := store.LoadHistories();
      histories, agentHistories, owners := h, ah, os;
    }

    /** Persists first, publishes after. */
    method AppendAgentMessages(t: Target, messages: seq<Message>, now: nat, budget: nat) returns (ok: bool)
      modifies this, store
      ensures Here() == Appended(old(Here()), Append(t, messages, now, budget))
      ensures ok <==> budget >= 3 || Prepared(Append(t, messages, now, budget)) == []
    {
      if Trim(t.session) == "" || Trim(t.agent) == "" { return true; }
      var stamped := messages;
      for i := 0 to |messages|
        invariant |stamped| == |messages|
        invariant forall j | 0 <= j < i :: stamped[j] == Stamp(t, now, j, messages[j])
        invariant forall j | i <= j < |messages| :: stamped[j] == messages[j]
      {
        stamped := stamped[i := Stamp(t, now, i, messages[i])];
      }
      assert stamped == Stamped(t, now, messages);
      var ms := Compact(stamped);
      CompactTwice(stamped);
      if |ms| == 0 { return true; }
      ok := store.AppendAgentMessages(t, ms, budget);
      if !ok { return; }
      var s, a := Trim(t.session), Trim(t.agent);
      histories := Extended(histories, s, ms);
      agentHistories := AgentExtended(agentHistories, s, a, ms);
      owners := Owned(owners, s, Owner(a, PlaceOf(t)), |ms|);
    }
  }
}
