/** TTL de-duplication of messages and the Observe path built on it
    (channelrunner/dedupe/dedupe.go, channelrunner/ingest/ingest.go). */
module Dedupe {
  import opened Text

  datatype Status = Processing | Completed

  datatype Entry = Entry(status: Status, expiresAt: int)

  type Entries = map<string, Entry>

  const HOUR := 3600

  /** `file` is what was last saved. */
  datatype Deduper = Deduper(ttl: int, entries: Entries, file: Entries)

  function Unexpired(entries: Entries, now: int): Entries {
    map k | k in entries && entries[k].expiresAt > now :: entries[k]
  }

  function Held(d: Deduper, entries: Entries, saved: bool): Deduper {
    d.(entries := entries, file := if saved then entries else d.file)
  }

  /** A save may fail; the caller is not told. */
  datatype Call =
    | DoBegin(key: string, now: int, saved: bool)
    | DoComplete(key: string, now: int, saved: bool)
    | DoForget(key: string, saved: bool)
    | Restart(now: int)

  predicate Admits(d: Deduper, key: string, now: int) {
    Trim(key) == "" || Trim(key) !in Unexpired(d.entries, now)
  }

  function AfterCall(d: Deduper, call: Call): Deduper {
    match call
    case DoBegin(key, now, saved) =>
      if Trim(key) == "" then d
      else
        var left := Unexpired(d.entries, now);
        Held(d, if Trim(key) in left then left else left[Trim(key) := Entry(Processing, now + d.ttl)], saved)
    case DoComplete(key, now, saved) =>
      if Trim(key) == "" then d else Held(d, d.entries[Trim(key) := Entry(Completed, now + d.ttl)], saved)
    case DoForget(key, saved) =>
      if Trim(key) == "" then d else Held(d, d.entries - {Trim(key)}, saved)
    case Restart(now) =>
      d.(entries := map k | k in d.file && k != "" && d.file[k].expiresAt > now :: d.file[k])
  }

  class MessageDeduper {
    const ttl: int
    var entries: Entries
    var file: Entries

    /** `New`: `saved` is what the file holds. */
    constructor (ttl: int, saved: Entries, now: int)
      ensures this.ttl == if ttl <= 0 then HOUR else ttl
      ensures View() == AfterCall(Deduper(this.ttl, map[], saved), Restart(now))
    {
      this.ttl := if ttl <= 0 then HOUR else ttl;
      entries := map k | k in saved && k != "" && saved[k].expiresAt > now :: saved[k];
      file := saved;
    }

    function View(): Deduper
      reads this
    {
      Deduper(ttl, entries, file)
    }

    method Prune(now: int)
      modifies this`entries
      ensures entries == Unexpired(old(entries), now)
    {
      var todo := entries.Keys;
      while todo != {}
        invariant todo <= old(entries).Keys
        invariant entries ==
          map k | k in old(entries) && (k in todo || old(entries)[k].expiresAt > now) :: old(entries)[k]
        decreases todo
      {
        var key :| key in todo;
        todo := todo - {key};
        if entries[key].expiresAt <= now { entries := entries - {key}; }
      }
    }

    method Persist(saved: bool)
      modifies this`file
      ensures file == if saved then entries else old(file)
    {
      if saved { file := entries; }
    }

    method Begin(key: string, now: int, saved: bool) returns (admitted: bool)
      modifies this
      ensures View() == AfterCall(old(View()), DoBegin(key, now, saved))
      ensures admitted <==> Admits(old(View()), key, now)
    {
      var k := Trim(key);
      if k == "" { return true; }
      Prune(now);
      if k in entries {
        Persist(saved);
        return false;
      }
      entries := entries[k := Entry(Processing, now + ttl)];
      Persist(saved);
      return true;
    }

    method Complete(key: string, now: int, saved: bool)
      modifies this
      ensures View() == AfterCall(old(View()), DoComplete(key, now, saved))
    {
      var k := Trim(key);
      if k == "" { return; }
      entries := entries[k := Entry(Completed, now + ttl)];
      Persist(saved);
    }

    method Forget(key: string, saved: bool)
      modifies this
      ensures View() == AfterCall(old(View()), DoForget(key, saved))
    {
      var k := Trim(key);
      if k == "" { return; }
      entries := entries - {k};
      Persist(saved);
    }
  }

  // ----- Two admissions of one key -----

  /** What a run did to one key. */
  datatype Mark = Began(key: string, at: int) | Forgot(key: string)

  function MarksOf(d: Deduper, call: Call): seq<Mark> {
    match call
    case DoBegin(key, now, _) => if Trim(key) != "" && Admits(d, key, now) then [Began(Trim(key), now)] else []
    case DoForget(key, _) => if Trim(key) == "" then [] else [Forgot(Trim(key))]
    case _ => []
  }

  datatype Run = Run(deduper: Deduper, clock: int, marks: seq<Mark>)

  function TimeOf(call: Call, clock: int): int {
    if call.DoForget? then clock else call.now
  }

  function RunCall(r: Run, call: Call): Run {
    Run(AfterCall(r.deduper, call), TimeOf(call, r.clock), r.marks + MarksOf(r.deduper, call))
  }

  function RunCalls(r: Run, calls: seq<Call>): Run
    decreases |calls|
  {
    if calls == [] then r else RunCalls(RunCall(r, calls[0]), calls[1..])
  }

  predicate Live(entries: Entries, key: string, now: int) {
    key in entries && entries[key].expiresAt > now
  }

  /** The file holds every live entry, for at least as long. */
  predicate BackedUp(d: Deduper, now: int) {
    forall k | k in d.entries && k != "" && Live(d.entries, k, now) ::
      k in d.file && d.file[k].expiresAt >= d.entries[k].expiresAt
  }

  /** Exactly when a restart forgets nothing, now or later. */
  lemma RestartKeepsExactly(d: Deduper, now: int)
    ensures BackedUp(d, now) <==>
      forall k, t | k != "" && t >= now && Live(d.entries, k, t) :: Live(AfterCall(d, Restart(now)).entries, k, t)
  {
    var d1 := AfterCall(d, Restart(now));
    if forall k, t | k != "" && t >= now && Live(d.entries, k, t) :: Live(d1.entries, k, t) {
      forall k | k != "" && Live(d.entries, k, now)
        ensures k in d.file && d.file[k].expiresAt >= d.entries[k].expiresAt
      {
        assert Live(d.entries, k, d.entries[k].expiresAt - 1);
        assert Live(d1.entries, k, d.entries[k].expiresAt - 1);
      }
    }
  }

  /** Clocks do not run backwards, and a restart finds every live entry in the file. Saves
      may fail at will otherwise. */
  predicate Timely(r: Run, calls: seq<Call>)
    decreases |calls|
  {
    calls == [] ||
    (r.clock <= TimeOf(calls[0], r.clock) && (calls[0].Restart? ==> BackedUp(r.deduper, calls[0].now))
     && Timely(RunCall(r, calls[0]), calls[1..]))
  }

  predicate Covers(entries: Entries, ttl: int, clock: int, key: string, at: int) {
    clock >= at + ttl || (key in entries && entries[key].expiresAt >= at + ttl)
  }

  /** An admission at `at` still stands: its entry is live, or a whole ttl has passed. */
  predicate Stands(d: Deduper, clock: int, key: string, at: int) {
    at <= clock && Covers(d.entries, d.ttl, clock, key, at)
  }

  predicate Apart(marks: seq<Mark>, ttl: int, i: nat, j: nat)
    requires i < j < |marks|
  {
    marks[i].Began? && marks[j].Began? && marks[i].key == marks[j].key ==>
      marks[j].at - marks[i].at >= ttl || exists m | i < m < j :: marks[m] == Forgot(marks[i].key)
  }

  predicate ForgottenAfter(marks: seq<Mark>, i: nat)
    requires i < |marks| && marks[i].Began?
  {
    exists m | i < m < |marks| :: marks[m] == Forgot(marks[i].key)
  }

  /** Two admissions of one key are a ttl apart or separated by a Forget. */
  predicate Spaced(r: Run) {
    && (forall i, j | 0 <= i < j < |r.marks| :: Apart(r.marks, r.deduper.ttl, i, j))
    && (forall i | 0 <= i < |r.marks| && r.marks[i].Began? ::
          && r.marks[i].key != ""
          && (ForgottenAfter(r.marks, i) || Stands(r.deduper, r.clock, r.marks[i].key, r.marks[i].at)))
  }

  lemma StandsOn(d: Deduper, call: Call, clock: int, key: string, at: int)
    requires Stands(d, clock, key, at) && clock <= TimeOf(call, clock) && key != ""
    requires call.DoForget? ==> Trim(call.key) != key
    requires call.Restart? ==> BackedUp(d, call.now)
    ensures Stands(AfterCall(d, call), TimeOf(call, clock), key, at)
  {
    hide Trim;
  }

  /** A standing admission admits no second Begin before its ttl is over. */
  lemma AdmittedLate(d: Deduper, clock: int, key: string, at: int, now: int)
    requires Stands(d, clock, Trim(key), at) && clock <= now && Trim(key) != "" && Admits(d, key, now)
    ensures now - at >= d.ttl
  {
  }

  lemma CallSpaced(r: Run, call: Call)
    requires Spaced(r) && r.clock <= TimeOf(call, r.clock) && r.deduper.ttl > 0
    requires call.Restart? ==> BackedUp(r.deduper, call.now)
    ensures Spaced(RunCall(r, call)) && RunCall(r, call).deduper.ttl == r.deduper.ttl
  {
    hide Trim;
    var r1 := RunCall(r, call);
    var n := |r.marks|;
    forall i | 0 <= i < |r1.marks| && r1.marks[i].Began?
      ensures r1.marks[i].key != ""
      ensures ForgottenAfter(r1.marks, i) || Stands(r1.deduper, r1.clock, r1.marks[i].key, r1.marks[i].at)
    {
      if i < n && !ForgottenAfter(r1.marks, i) {
        StillUnforgotten(r.marks, r1.marks, i);
        assert call.DoForget? && Trim(call.key) != "" ==> r1.marks[n] == Forgot(Trim(call.key));
        StandsOn(r.deduper, call, r.clock, r1.marks[i].key, r1.marks[i].at);
      }
    }
    forall i, j | 0 <= i < j < |r1.marks| ensures Apart(r1.marks, r1.deduper.ttl, i, j) {
      if j < n {
        StillApart(r.marks, r1.marks, r.deduper.ttl, i, j);
      } else if r1.marks[i].Began? && r1.marks[j].Began? && r1.marks[i].key == r1.marks[j].key {
        MarkApart(r, call, i);
      }
    }
  }

  lemma StillUnforgotten(marks: seq<Mark>, marks1: seq<Mark>, i: nat)
    requires marks <= marks1 && i < |marks| && marks[i].Began? && !ForgottenAfter(marks1, i)
    ensures !ForgottenAfter(marks, i)
  {
    forall m | i < m < |marks| ensures marks[m] != Forgot(marks[i].key) { assert marks1[m] == marks[m]; }
  }

  lemma StillApart(marks: seq<Mark>, marks1: seq<Mark>, ttl: int, i: nat, j: nat)
    requires marks <= marks1 && i < j < |marks| && Apart(marks, ttl, i, j)
    ensures Apart(marks1, ttl, i, j)
  {
    if exists m | i < m < j :: marks[m] == Forgot(marks[i].key) {
      var m :| i < m < j && marks[m] == Forgot(marks[i].key);
      assert marks1[m] == Forgot(marks[i].key);
    }
  }

  lemma MarkApart(r: Run, call: Call, i: nat)
    requires Spaced(r) && r.clock <= TimeOf(call, r.clock) && i < |r.marks|
    requires var marks := RunCall(r, call).marks;
      |marks| == |r.marks| + 1 && marks[i].Began? && marks[|r.marks|].Began? && marks[i].key == marks[|r.marks|].key
    ensures Apart(RunCall(r, call).marks, r.deduper.ttl, i, |r.marks|)
  {
    hide Trim;
    var marks := RunCall(r, call).marks;
    if ForgottenAfter(r.marks, i) {
      var m :| i < m < |r.marks| && r.marks[m] == Forgot(r.marks[i].key);
      assert marks[m] == Forgot(marks[i].key);
    } else {
      AdmittedLate(r.deduper, r.clock, call.key, r.marks[i].at, call.now);
    }
  }

  /** Two successful Begins of one non-empty key are at least a ttl apart or separated by
      a Forget, over any run of calls and restarts, whichever saves fail, provided a restart
      finds the live entries in the file. */
  lemma {:induction false} BeginsSpaced(r: Run, calls: seq<Call>)
    requires Spaced(r) && r.deduper.ttl > 0 && Timely(r, calls)
    ensures Spaced(RunCalls(r, calls))
    decreases |calls|
  {
    if calls != [] {
      CallSpaced(r, calls[0]);
      BeginsSpaced(RunCall(r, calls[0]), calls[1..]);
    }
  }

  predicate InClockOrder(clock: int, calls: seq<Call>)
    decreases |calls|
  {
    calls == [] || (clock <= TimeOf(calls[0], clock) && InClockOrder(TimeOf(calls[0], clock), calls[1..]))
  }

  /** Every save before the last restart succeeded. */
  predicate SavedBeforeRestarts(calls: seq<Call>) {
    forall i, j | 0 <= i < j < |calls| && calls[j].Restart? && !calls[i].Restart? :: calls[i].saved
  }

  predicate Restarts(calls: seq<Call>) {
    exists j | 0 <= j < |calls| :: calls[j].Restart?
  }

  /** The file holds every entry. */
  predicate AllBackedUp(d: Deduper) {
    forall k | k in d.entries :: k in d.file && d.file[k].expiresAt >= d.entries[k].expiresAt
  }

  lemma SaveBacksUp(d: Deduper, call: Call)
    requires AllBackedUp(d) && (call.Restart? || call.saved)
    ensures AllBackedUp(AfterCall(d, call))
  {
    hide Trim;
  }

  /** In particular: without restarts whatever the saves do, and with restarts if each
      save before the last of them succeeded. */
  lemma {:induction false} SavedRunsTimely(r: Run, calls: seq<Call>)
    requires InClockOrder(r.clock, calls) && SavedBeforeRestarts(calls)
    requires Restarts(calls) ==> AllBackedUp(r.deduper)
    ensures Timely(r, calls)
    decreases |calls|
  {
    if calls != [] {
      var rest := calls[1..];
      assert forall i | 0 <= i < |rest| :: rest[i] == calls[i + 1];
      if Restarts(rest) {
        var j :| 0 <= j < |rest| && rest[j].Restart?;
        assert calls[j + 1].Restart?;
        SaveBacksUp(r.deduper, calls[0]);
      }
      hide AfterCall, MarksOf;
      if calls[0].Restart? { assert Restarts(calls); }
      SavedRunsTimely(RunCall(r, calls[0]), rest);
    }
  }

  /** The condition is needed: an admission whose save failed is forgotten by a restart. */
  lemma LostSaveRepeats(r: Run, key: string, now: int)
    requires Trim(key) != "" && Admits(r.deduper, key, now) && Trim(key) !in r.deduper.file
    ensures RunCalls(r, [DoBegin(key, now, false), Restart(now), DoBegin(key, now, true)]).marks ==
      r.marks + [Began(Trim(key), now), Began(Trim(key), now)]
  {
    hide Trim;
    var calls := [DoBegin(key, now, false), Restart(now), DoBegin(key, now, true)];
    assert calls[1..] == [Restart(now), DoBegin(key, now, true)] && calls[1..][1..] == [DoBegin(key, now, true)];
    assert calls[1..][1..][1..] == [];
    var r1 := RunCall(r, calls[0]);
    var r2 := RunCall(r1, Restart(now));
    var r3 := RunCall(r2, DoBegin(key, now, true));
    assert r2.marks == r.marks + [Began(Trim(key), now)];
    assert RunCalls(r3, []) == r3;
    assert RunCalls(r2, calls[1..][1..]) == r3;
    assert RunCalls(r1, calls[1..]) == r3;
  }

  // ----- Exactly when a key is admitted -----

  /** The key's entry was last renewed at some time and not forgotten since. */
  datatype Touch = Renewed(at: int) | Dropped

  /** What a call does to one key. */
  function TouchOf(d: Deduper, call: Call, key: string): seq<Touch> {
    match call
    case DoBegin(k, now, _) => if Trim(k) == key && Admits(d, k, now) then [Renewed(now)] else []
    case DoComplete(k, now, _) => if Trim(k) == key then [Renewed(now)] else []
    case DoForget(k, _) => if Trim(k) == key then [Dropped] else []
    case Restart(_) => []
  }

  function Touches(r: Run, calls: seq<Call>, key: string): seq<Touch>
    decreases |calls|
  {
    if calls == [] then [] else TouchOf(r.deduper, calls[0], key) + Touches(RunCall(r, calls[0]), calls[1..], key)
  }

  /** The latest touch leaves nothing live at `now`. */
  predicate Expired(touches: seq<Touch>, ttl: int, now: int) {
    touches == [] || touches[|touches| - 1] == Dropped || touches[|touches| - 1].at + ttl <= now
  }

  /** The entry of the key says what its latest touch left. */
  ghost predicate Reflects(d: Deduper, clock: int, key: string, touches: seq<Touch>) {
    && (touches != [] && touches[|touches| - 1].Renewed? ==> touches[|touches| - 1].at <= clock)
    && forall now | now >= clock :: (Live(d.entries, key, now) <==> !Expired(touches, d.ttl, now))
  }

  lemma CallReflects(d: Deduper, clock: int, call: Call, key: string, touches: seq<Touch>)
    requires Reflects(d, clock, key, touches) && clock <= TimeOf(call, clock) && key != "" && !call.Restart?
    requires d.ttl > 0
    ensures Reflects(AfterCall(d, call), TimeOf(call, clock), key, touches + TouchOf(d, call, key))
  {
    hide Trim;
    assert touches + [] == touches;
    if call.DoBegin? && Trim(call.key) == key && !Admits(d, call.key, call.now) {
      assert Live(d.entries, key, call.now);
    }
  }

  lemma {:induction false} RunReflects(r: Run, calls: seq<Call>, key: string, touches: seq<Touch>)
    requires Reflects(r.deduper, r.clock, key, touches) && key != "" && r.deduper.ttl > 0
    requires InClockOrder(r.clock, calls) && !Restarts(calls)
    ensures var last := RunCalls(r, calls); Reflects(last.deduper, last.clock, key, touches + Touches(r, calls, key))
    ensures RunCalls(r, calls).deduper.ttl == r.deduper.ttl
    decreases |calls|
  {
    hide Reflects, TouchOf, MarksOf, Restarts, InClockOrder, AfterCall;
    if calls == [] {
      assert touches + [] == touches;
    } else {
      InOrderLater(r.clock, calls);
      var r1, t := RunCall(r, calls[0]), TouchOf(r.deduper, calls[0], key);
      CallReflects(r.deduper, r.clock, calls[0], key, touches);
      SameTtl(r.deduper, calls[0]);
      assert r1.deduper == AfterCall(r.deduper, calls[0]) && r1.clock == TimeOf(calls[0], r.clock);
      hide RunCall, TimeOf;
      RunReflects(r1, calls[1..], key, touches + t);
      assert touches + (t + Touches(r1, calls[1..], key)) == touches + t + Touches(r1, calls[1..], key);
    }
  }

  lemma SameTtl(d: Deduper, call: Call)
    ensures AfterCall(d, call).ttl == d.ttl
  {
  }

  lemma InOrderLater(clock: int, calls: seq<Call>)
    requires calls != [] && InClockOrder(clock, calls) && !Restarts(calls)
    ensures !Restarts(calls[1..]) && !calls[0].Restart?
    ensures clock <= TimeOf(calls[0], clock) && InClockOrder(TimeOf(calls[0], clock), calls[1..])
  {
    assert forall j | 0 <= j < |calls[1..]| :: calls[1..][j] == calls[j + 1];
  }

  /** Over any run of calls of a fresh deduper, a Begin is admitted exactly if its key is
      blank, or was never renewed, or was forgotten since, or was renewed a ttl ago. */
  lemma AdmittedExactly(ttl: int, clock: int, calls: seq<Call>, key: string, now: int)
    requires ttl > 0 && InClockOrder(clock, calls) && !Restarts(calls)
    ensures var r := Run(Deduper(ttl, map[], map[]), clock, []);
      var last := RunCalls(r, calls);
      now >= last.clock ==>
        (Admits(last.deduper, key, now) <==> Trim(key) == "" || Expired(Touches(r, calls, Trim(key)), ttl, now))
  {
    hide Trim, InClockOrder, Restarts, Touches, RunCalls;
    var r := Run(Deduper(ttl, map[], map[]), clock, []);
    if Trim(key) != "" {
      RunReflects(r, calls, Trim(key), []);
      assert [] + Touches(r, calls, Trim(key)) == Touches(r, calls, Trim(key));
      var last := RunCalls(r, calls);
      assert Admits(last.deduper, key, now) <==> !Live(last.deduper.entries, Trim(key), now);
    }
  }

  // ----- Observe -----

  datatype Decision = Reject | Observed | Dispatch

  datatype AddressTarget = Agent | Owner | Other

  /** What the gate looks at; the three authorities are arbitrary. */
  datatype Input = Input(
    chatType: string, mentioned: bool, addressedTo: seq<AddressTarget>,
    isBind: bool, allowed: bool, isOwner: bool)

  predicate Addressed(input: Input) {
    input.chatType != "group" || input.mentioned || exists t | t in input.addressedTo :: t == Agent || t == Owner
  }

  function Gate(input: Input): Decision {
    if !Addressed(input) then (if input.allowed || input.isOwner then Observed else Reject)
    else if input.isBind || input.allowed || input.isOwner then Dispatch
    else Reject
  }

  /** One Observe call: `guarded` says a deduper and a key are given; the two flags say
      whether the deduper's saves succeed. */
  datatype Observation = Observation(
    input: Input, guarded: bool, key: string, beginAt: int, persistAt: int, endAt: int, persists: bool,
    beginSaved: bool, endSaved: bool)

  datatype Persisted = Persisted(input: Input, key: string, at: int)

  datatype Inbox = Inbox(deduper: Deduper, persisted: seq<Persisted>)

  function Observe(b: Inbox, o: Observation): Inbox {
    var begun := AfterCall(b.deduper, DoBegin(o.key, o.beginAt, o.beginSaved));
    if Gate(o.input) != Observed then b
    else if o.guarded && !Admits(b.deduper, o.key, o.beginAt) then b.(deduper := begun)
    else
      var stored := Persisted(o.input, if o.guarded then Trim(o.key) else "", o.persistAt);
      var persisted := b.persisted + if o.persists then [stored] else [];
      if !o.guarded then Inbox(b.deduper, persisted)
      else
        var end := if o.persists then DoComplete(o.key, o.endAt, o.endSaved) else DoForget(o.key, o.endSaved);
        Inbox(AfterCall(begun, end), persisted)
  }

  class Ingest {
    var persisted: seq<Persisted>

    constructor ()
      ensures persisted == []
    {
      persisted := [];
    }

    method HasKnownAddressTarget(targets: seq<AddressTarget>) returns (known: bool)
      ensures known <==> exists t | t in targets :: t == Agent || t == Owner
    {
      for i := 0 to |targets|
        invariant forall j | 0 <= j < i :: targets[j] == Other
      {
        if targets[i] == Agent || targets[i] == Owner {
          assert targets[i] in targets;
          return true;
        }
      }
      return false;
    }

    /** `Observe`: the deferred call completes or forgets the key. */
    method ObserveMessage(o: Observation, deduper: MessageDeduper?)
      requires o.guarded <==> deduper != null && o.key != ""
      modifies this, deduper
      ensures deduper != null ==>
        Inbox(deduper.View(), persisted) == Observe(Inbox(old(deduper.View()), old(persisted)), o)
      ensures deduper == null ==> forall d :: Inbox(d, persisted) == Observe(Inbox(d, old(persisted)), o)
    {
      if Gate(o.input) != Observed { return; }
      if o.guarded {
        var admitted := deduper.Begin(o.key, o.beginAt, o.beginSaved);
        if !admitted { return; }
      }
      if o.persists {
        persisted := persisted + [Persisted(o.input, if o.guarded then Trim(o.key) else "", o.persistAt)];
      }
      if o.guarded {
        if o.persists { deduper.Complete(o.key, o.endAt, o.endSaved); } else { deduper.Forget(o.key, o.endSaved); }
      }
    }
  }

  datatype InboxStep = Message(observation: Observation) | Reboot(now: int)

  function InboxNext(b: Inbox, step: InboxStep): Inbox {
    match step
    case Message(o) => Observe(b, o)
    case Reboot(now) => b.(deduper := AfterCall(b.deduper, Restart(now)))
  }

  function InboxRun(b: Inbox, steps: seq<InboxStep>): Inbox
    decreases |steps|
  {
    if steps == [] then b else InboxRun(InboxNext(b, steps[0]), steps[1..])
  }

  function EndOf(clock: int, steps: seq<InboxStep>): int {
    if steps == [] then clock
    else match steps[|steps| - 1]
      case Message(o) => o.endAt
      case Reboot(now) => now
  }

  /** Clocks do not run backwards and a restart finds the live entries in the file. */
  predicate OnTime(b: Inbox, clock: int, step: InboxStep) {
    match step
    case Message(o) => clock <= o.beginAt <= o.persistAt <= o.endAt
    case Reboot(now) => clock <= now && BackedUp(b.deduper, now)
  }

  predicate InTime(b: Inbox, clock: int, steps: seq<InboxStep>)
    decreases |steps|
  {
    steps == [] || (OnTime(b, clock, steps[0]) && InTime(InboxNext(b, steps[0]), EndOf(clock, steps[..1]), steps[1..]))
  }

  /** Guarded persists of one key are a ttl apart, and only authorised, unaddressed group
      messages are persisted. */
  predicate Screened(b: Inbox, clock: int) {
    && (forall i, j | 0 <= i < j < |b.persisted| && b.persisted[i].key == b.persisted[j].key != "" ::
          b.persisted[j].at - b.persisted[i].at >= b.deduper.ttl)
    && (forall i | 0 <= i < |b.persisted| && b.persisted[i].key != "" ::
          Stands(b.deduper, clock, b.persisted[i].key, b.persisted[i].at))
    && (forall i | 0 <= i < |b.persisted| ::
          !Addressed(b.persisted[i].input) && (b.persisted[i].input.allowed || b.persisted[i].input.isOwner))
  }

  /** Begin and then Complete or Forget keep what stands, and let in no early repeat. */
  lemma GuardedStands(d: Deduper, o: Observation, clock: int, key: string, at: int)
    requires Stands(d, clock, key, at) && key != "" && clock <= o.beginAt <= o.persistAt <= o.endAt
    ensures var d1 := AfterCall(d, DoBegin(o.key, o.beginAt, o.beginSaved));
      && Stands(d1, o.endAt, key, at)
      && Stands(AfterCall(d1, DoComplete(o.key, o.endAt, o.endSaved)), o.endAt, key, at)
      && (Admits(d, o.key, o.beginAt) ==> Stands(AfterCall(d1, DoForget(o.key, o.endSaved)), o.endAt, key, at))
      && (Admits(d, o.key, o.beginAt) && Trim(o.key) == key ==> o.persistAt - at >= d.ttl)
  {
    hide Trim;
    StandsOn(d, DoBegin(o.key, o.beginAt, o.beginSaved), clock, key, at);
    var d1 := AfterCall(d, DoBegin(o.key, o.beginAt, o.beginSaved));
    StandsOn(d1, DoComplete(o.key, o.endAt, o.endSaved), o.beginAt, key, at);
  }

  lemma ObserveScreened(b: Inbox, o: Observation, clock: int)
    requires Screened(b, clock) && b.deduper.ttl > 0 && clock <= o.beginAt <= o.persistAt <= o.endAt
    ensures Screened(Observe(b, o), o.endAt) && Observe(b, o).deduper.ttl == b.deduper.ttl
  {
    forall i | 0 <= i < |b.persisted| && b.persisted[i].key != ""
      ensures Stands(Observe(b, o).deduper, o.endAt, b.persisted[i].key, b.persisted[i].at)
      ensures o.guarded && Admits(b.deduper, o.key, o.beginAt) && Trim(o.key) == b.persisted[i].key ==>
        o.persistAt - b.persisted[i].at >= b.deduper.ttl
    {
      GuardedStands(b.deduper, o, clock, b.persisted[i].key, b.persisted[i].at);
    }
    hide Trim;
  }

  lemma RebootScreened(b: Inbox, clock: int, now: int)
    requires Screened(b, clock) && clock <= now && BackedUp(b.deduper, now)
    ensures Screened(InboxNext(b, Reboot(now)), now)
  {
    forall i | 0 <= i < |b.persisted| && b.persisted[i].key != ""
      ensures Stands(InboxNext(b, Reboot(now)).deduper, now, b.persisted[i].key, b.persisted[i].at)
    {
      StandsOn(b.deduper, Restart(now), clock, b.persisted[i].key, b.persisted[i].at);
    }
  }

  /** Over any run of Observe calls and restarts, whichever saves fail: two successful
      persists of one de-duplication key are at least a ttl apart, and no unauthorised
      message is ever persisted. */
  lemma {:induction false} PersistsSpaced(b: Inbox, clock: int, steps: seq<InboxStep>)
    requires Screened(b, clock) && b.deduper.ttl > 0 && InTime(b, clock, steps)
    ensures Screened(InboxRun(b, steps), EndOf(clock, steps))
    decreases |steps|
  {
    if steps != [] {
      match steps[0] {
        case Message(o) => ObserveScreened(b, o, clock);
        case Reboot(now) => RebootScreened(b, clock, now);
      }
      hide Screened, InboxNext, OnTime;
      PersistsSpaced(InboxNext(b, steps[0]), EndOf(clock, steps[..1]), steps[1..]);
    }
  }

  /** A message is persisted exactly if it addresses neither agent nor owner in a group, its
      sender is allowed or the owner, its key is admitted, and the store accepts it. */
  lemma PersistedExactly(b: Inbox, o: Observation)
    ensures var b1 := Observe(b, o);
      var observable := o.input.chatType == "group" && !o.input.mentioned && Agent !in o.input.addressedTo
        && Owner !in o.input.addressedTo && (o.input.allowed || o.input.isOwner);
      b1.persisted ==
        if observable && (o.guarded ==> Admits(b.deduper, o.key, o.beginAt)) && o.persists
        then b.persisted + [Persisted(o.input, if o.guarded then Trim(o.key) else "", o.persistAt)]
        else b.persisted
  {
    hide Trim, Admits, AfterCall;
  }

  /** What the gate decides. */
  lemma GateExactly(input: Input)
    ensures var open := input.chatType == "group" && !input.mentioned && Agent !in input.addressedTo
        && Owner !in input.addressedTo;
      && (Gate(input) == Observed <==> open && (input.allowed || input.isOwner))
      && (Gate(input) == Dispatch <==> !open && (input.isBind || input.allowed || input.isOwner))
  {
  }

  /** A failed persist leaves its key admissible at any later time. */
  lemma FailedPersistAdmits(b: Inbox, o: Observation, now: int)
    requires Gate(o.input) == Observed && o.guarded && Admits(b.deduper, o.key, o.beginAt)
    ensures !o.persists ==> Admits(Observe(b, o).deduper, o.key, now)
    ensures o.persists && Trim(o.key) != "" ==>
      (Admits(Observe(b, o).deduper, o.key, now) <==> now >= o.endAt + b.deduper.ttl)
  {
    hide Trim;
  }
}
