/** Spawn slots with once-only release (runtime/spawn_turn.go, runtime/delegation.go) and
    the registry of child cancel functions (channelrunner/progress). */
module Spawn {
  import opened Common
  import opened Text

  // ----- Slots -----

  datatype Handle = Handle(parent: string, released: bool)

  datatype Policy = Policy(maxDepth: int, maxOutstanding: int, maxParallel: int)

  /** `active` are the counters; `handles` every slot ever handed out. */
  datatype Slots = Slots(active: map<string, nat>, handles: seq<Handle>)

  function ActiveOf(active: map<string, nat>, parent: string): nat {
    if parent in active then active[parent] else 0
  }

  function Reserved(s: Slots, parent: string, maxParallel: int): Slots {
    if ActiveOf(s.active, parent) >= maxParallel then s
    else Slots(s.active[parent := ActiveOf(s.active, parent) + 1], s.handles + [Handle(parent, false)])
  }

  function Freed(active: map<string, nat>, parent: string): map<string, nat> {
    if ActiveOf(active, parent) <= 1 then active - {parent} else active[parent := active[parent] - 1]
  }

  function Released(s: Slots, h: nat): Slots {
    if h >= |s.handles| || s.handles[h].released then s
    else Slots(Freed(s.active, s.handles[h].parent), s.handles[h := Handle(s.handles[h].parent, true)])
  }

  class SlotTable {
    var activeChildren: map<string, nat>
    var handles: seq<Handle>

    constructor ()
      ensures View() == Slots(map[], [])
    {
      activeChildren, handles := map[], [];
    }

    function View(): Slots
      reads this
    {
      Slots(activeChildren, handles)
    }

    method ReserveChildSlot(parent: string, maxParallel: int) returns (active: nat, ok: bool)
      modifies this
      ensures View() == Reserved(old(View()), parent, maxParallel)
      ensures active == ActiveOf(old(activeChildren), parent) && (ok <==> active < maxParallel)
    {
      active := ActiveOf(activeChildren, parent);
      if active >= maxParallel { return active, false; }
      activeChildren := activeChildren[parent := active + 1];
      handles := handles + [Handle(parent, false)];
      return active, true;
    }

    method ReleaseChildSlot(parent: string)
      modifies this`activeChildren
      ensures activeChildren == Freed(old(activeChildren), parent)
    {
      var active := ActiveOf(activeChildren, parent);
      if active <= 1 {
        activeChildren := activeChildren - {parent};
        return;
      }
      activeChildren := activeChildren[parent := active - 1];
    }

    /** The guardrails; the handle stands for the release callback. */
    method EvaluateSpawnGuardrails(policy: Policy, parent: string, parentDepth: int) returns (handle: Option<nat>)
      modifies this
      ensures var admitted := parentDepth + 1 <= policy.maxDepth
          && ActiveOf(old(activeChildren), Trim(parent)) < policy.maxOutstanding
          && ActiveOf(old(activeChildren), parent) < policy.maxParallel;
        && View() == (if admitted then Reserved(old(View()), parent, policy.maxParallel) else old(View()))
        && handle == if admitted then Some(|old(handles)|) else None
    {
      if parentDepth + 1 > policy.maxDepth { return None; }
      if ActiveOf(activeChildren, Trim(parent)) >= policy.maxOutstanding { return None; }
      var _, ok := ReserveChildSlot(parent, policy.maxParallel);
      return if ok then Some(|handles| - 1) else None;
    }

    /** Calls a release callback; only the first call counts. */
    method Release(handle: nat)
      requires handle < |handles|
      modifies this
      ensures View() == Released(old(View()), handle)
    {
      if handles[handle].released { return; }
      handles := handles[handle := handles[handle].(released := true)];
      ReleaseChildSlot(handles[handle].parent);
    }
  }

  datatype SlotStep = Reserve(parent: string) | Release(handle: nat)

  /** Slots still held by children of a parent. */
  function Unreleased(handles: seq<Handle>, parent: string): nat {
    if handles == [] then 0
    else
      var last := handles[|handles| - 1];
      Unreleased(handles[..|handles| - 1], parent) + if last == Handle(parent, false) then 1 else 0
  }

  lemma {:induction false} ReleasedOnce(handles: seq<Handle>, h: nat, parent: string)
    requires h < |handles| && !handles[h].released
    ensures var handles1 := handles[h := Handle(handles[h].parent, true)];
      Unreleased(handles1, parent) == Unreleased(handles, parent) - if handles[h].parent == parent then 1 else 0
  {
    var n := |handles| - 1;
    var handles1 := handles[h := Handle(handles[h].parent, true)];
    if h < n {
      ReleasedOnce(handles[..n], h, parent);
      assert handles1[..n] == handles[..n][h := Handle(handles[h].parent, true)];
    } else {
      assert handles1[..n] == handles[..n];
    }
  }

  /** The counters are the held slots and respect the parallelism limit. */
  ghost predicate Balanced(s: Slots, limit: string -> int) {
    && (forall p :: ActiveOf(s.active, p) == Unreleased(s.handles, p))
    && (forall p | p in s.active :: 0 < s.active[p] <= limit(p))
  }

  function SlotNext(s: Slots, step: SlotStep, limit: string -> int): Slots {
    match step
    case Reserve(parent) => Reserved(s, parent, limit(parent))
    case Release(h) => Released(s, h)
  }

  function SlotRun(s: Slots, steps: seq<SlotStep>, limit: string -> int): Slots
    decreases |steps|
  {
    if steps == [] then s else SlotRun(SlotNext(s, steps[0], limit), steps[1..], limit)
  }

  lemma SlotNextBalanced(s: Slots, step: SlotStep, limit: string -> int)
    requires Balanced(s, limit)
    ensures Balanced(SlotNext(s, step, limit), limit)
  {
    var s1 := SlotNext(s, step, limit);
    match step {
      case Reserve(parent) =>
        if s1 != s { assert s1.handles[..|s.handles|] == s.handles; }
      case Release(h) =>
        if s1 != s {
          forall p ensures ActiveOf(s1.active, p) == Unreleased(s1.handles, p) {
            ReleasedOnce(s.handles, h, p);
            ReleasedOnce(s.handles, h, s.handles[h].parent);
          }
        }
    }
  }

  /** Under any interleaving of reservations, releases and repeated releases, a parent's
      counter is the number of its unreleased slots and at most its limit. */
  lemma {:induction false} SlotsBalanced(s: Slots, steps: seq<SlotStep>, limit: string -> int)
    requires Balanced(s, limit)
    ensures Balanced(SlotRun(s, steps, limit), limit)
    decreases |steps|
  {
    if steps != [] {
      SlotNextBalanced(s, steps[0], limit);
      SlotsBalanced(SlotNext(s, steps[0], limit), steps[1..], limit);
    }
  }

  /** A slot is handed out exactly while fewer than the limit are counted. */
  lemma ReservesExactly(s: Slots, parent: string, maxParallel: int)
    ensures var s1 := Reserved(s, parent, maxParallel);
      var active := if parent in s.active then s.active[parent] else 0;
      if active < maxParallel then
        s1.handles == s.handles + [Handle(parent, false)] && s1.active == s.active[parent := active + 1]
      else s1 == s
  {
  }

  /** The first release of a handle gives its slot back, and only that one. */
  lemma ReleasesExactly(s: Slots, h: nat, limit: string -> int)
    requires Balanced(s, limit) && h < |s.handles|
    ensures var s1 := Released(s, h); var parent := s.handles[h].parent;
      if s.handles[h].released then s1 == s
      else
        && s1.handles == s.handles[h := Handle(parent, true)]
        && ActiveOf(s.active, parent) >= 1 && ActiveOf(s1.active, parent) == ActiveOf(s.active, parent) - 1
        && forall p | p != parent :: ActiveOf(s1.active, p) == ActiveOf(s.active, p)
  {
    if !s.handles[h].released {
      var parent := s.handles[h].parent;
      ReleasedOnce(s.handles, h, parent);
      assert ActiveOf(s.active, parent) == Unreleased(s.handles, parent);
    }
  }

  // ----- Cancel registry -----

  datatype Entry = Entry(token: nat, child: string)

  datatype CancelEvent =
    | Registered(key: string, entry: Entry)
    | Unregistered(token: nat)
    | Cleared(key: string)

  /** Registered under the key, not unregistered since, and the key not reset since. */
  predicate IsLive(log: seq<CancelEvent>, key: string, e: Entry) {
    exists i | 0 <= i < |log| ::
      && log[i] == Registered(key, e)
      && forall j | i < j < |log| :: log[j] != Unregistered(e.token) && log[j] != Cleared(key)
  }

  lemma LiveNext(log: seq<CancelEvent>, event: CancelEvent, key: string, e: Entry)
    ensures IsLive(log + [event], key, e) <==>
      event == Registered(key, e) || (IsLive(log, key, e) && event != Unregistered(e.token) && event != Cleared(key))
  {
    var log1 := log + [event];
    if event == Registered(key, e) { assert log1[|log|] == Registered(key, e); }
    if IsLive(log, key, e) && event != Unregistered(e.token) && event != Cleared(key) {
      var i :| 0 <= i < |log| && log[i] == Registered(key, e)
        && forall j | i < j < |log| :: log[j] != Unregistered(e.token) && log[j] != Cleared(key);
      assert log1[i] == Registered(key, e);
    }
    if IsLive(log1, key, e) && event != Registered(key, e) {
      var i :| 0 <= i < |log1| && log1[i] == Registered(key, e)
        && forall j | i < j < |log1| :: log1[j] != Unregistered(e.token) && log1[j] != Cleared(key);
      assert log[i] == Registered(key, e);
      assert log1[|log|] == event;
      forall j | i < j < |log| ensures log[j] != Unregistered(e.token) && log[j] != Cleared(key) {
        assert log[j] == log1[j];
      }
    }
  }

  type Cancels = map<string, seq<Entry>>

  function At(cancels: Cancels, key: string): seq<Entry> {
    if key in cancels then cancels[key] else []
  }

  predicate Distinct(s: seq<Entry>) {
    forall i, j | 0 <= i < j < |s| :: s[i].token != s[j].token
  }

  /** The entries of a key are exactly its live children, each once. */
  ghost predicate MirrorsAt(cancels: Cancels, log: seq<CancelEvent>, key: string) {
    Distinct(At(cancels, key)) && forall e :: e in At(cancels, key) <==> IsLive(log, key, e)
  }

  ghost predicate Mirrors(cancels: Cancels, log: seq<CancelEvent>) {
    forall key :: MirrorsAt(cancels, log, key)
  }

  predicate WasRegistered(log: seq<CancelEvent>, key: string, token: nat) {
    exists i | 0 <= i < |log| :: log[i].Registered? && log[i].key == key && log[i].entry.token == token
  }

  predicate Registers(e: CancelEvent, token: nat) {
    e.Registered? && e.entry.token == token
  }

  predicate Unused(log: seq<CancelEvent>, token: nat) {
    forall i | 0 <= i < |log| :: !Registers(log[i], token)
  }

  /** A token registers one child at most, drawn tokens none yet. */
  predicate TokensUnique(log: seq<CancelEvent>, drawn: set<nat>, last: nat) {
    && (forall t | t in drawn :: t <= last && Unused(log, t))
    && (forall i | 0 <= i < |log| && log[i].Registered? :: log[i].entry.token <= last)
    && (forall i, j | 0 <= i < j < |log| && log[i].Registered? :: !Registers(log[j], log[i].entry.token))
  }

  lemma LiveWasRegistered(log: seq<CancelEvent>, drawn: set<nat>, last: nat, key: string, token: nat)
    requires TokensUnique(log, drawn, last) && WasRegistered(log, key, token)
    ensures forall k, e | IsLive(log, k, e) && e.token == token :: k == key
  {
    var i :| 0 <= i < |log| && log[i].Registered? && log[i].key == key && log[i].entry.token == token;
    forall k, e | IsLive(log, k, e) && e.token == token ensures k == key {
      var j :| 0 <= j < |log| && log[j] == Registered(k, e);
      assert Registers(log[i], token) && Registers(log[j], token);
    }
  }

  function Added(cancels: Cancels, key: string, e: Entry): Cancels {
    cancels[key := At(cancels, key) + [e]]
  }

  /** The entry with the token taken out; no empty entry lists are kept. */
  function Removed(cancels: Cancels, key: string, token: nat): Cancels {
    var left := WithoutToken(At(cancels, key), token);
    if left == [] then cancels - {key} else cancels[key := left]
  }

  function WithoutToken(s: seq<Entry>, token: nat): seq<Entry> {
    if s == [] then [] else if s[0].token == token then s[1..] else [s[0]] + WithoutToken(s[1..], token)
  }

  lemma {:induction false} WithoutTokenMembers(s: seq<Entry>, token: nat, e: Entry)
    requires Distinct(s)
    ensures e in WithoutToken(s, token) <==> e in s && e.token != token
  {
    if s != [] {
      SplitMember(s, e);
      if s[0].token == token {
        if e in s[1..] { assert s[0].token != e.token; }
      } else {
        WithoutTokenMembers(s[1..], token, e);
        var rest := WithoutToken(s[1..], token);
        hide WithoutToken;
        SplitMember([s[0]] + rest, e);
        assert ([s[0]] + rest)[1..] == rest;
      }
    }
  }

  lemma SplitMember(s: seq<Entry>, e: Entry)
    requires s != []
    ensures e in s <==> e == s[0] || e in s[1..]
  {
    assert s == [s[0]] + s[1..];
  }

  lemma {:induction false} WithoutTokenMeans(s: seq<Entry>, token: nat)
    requires Distinct(s)
    ensures Distinct(WithoutToken(s, token))
    ensures forall e :: e in WithoutToken(s, token) <==> e in s && e.token != token
  {
    forall e ensures e in WithoutToken(s, token) <==> e in s && e.token != token {
      WithoutTokenMembers(s, token, e);
    }
    if s != [] && s[0].token != token {
      WithoutTokenMeans(s[1..], token);
      var rest := WithoutToken(s[1..], token);
      forall i | 0 <= i < |rest| ensures s[0].token != rest[i].token {
        assert rest[i] in rest;
        WithoutTokenMembers(s[1..], token, rest[i]);
      }
      assert WithoutToken(s, token) == [s[0]] + rest;
      hide WithoutToken;
    }
  }

  lemma {:induction false} WithoutTokenAt(s: seq<Entry>, i: nat)
    requires i < |s| && forall j | 0 <= j < i :: s[j].token != s[i].token
    ensures WithoutToken(s, s[i].token) == s[..i] + s[i + 1..]
  {
    if i > 0 {
      WithoutTokenAt(s[1..], i - 1);
      assert s[1..][..i - 1] == s[1..i] && s[..i] == [s[0]] + s[1..i];
    }
  }

  lemma {:induction false} WithoutTokenAbsent(s: seq<Entry>, token: nat)
    requires forall e | e in s :: e.token != token
    ensures WithoutToken(s, token) == s
  {
    if s != [] { WithoutTokenAbsent(s[1..], token); }
  }

  lemma AddedMirrors(cancels: Cancels, log: seq<CancelEvent>, key: string, e: Entry)
    requires Mirrors(cancels, log) && Unused(log, e.token)
    ensures Mirrors(Added(cancels, key, e), log + [Registered(key, e)])
  {
    LiveTokens(log, e.token);
    forall k ensures MirrorsAt(Added(cancels, key, e), log + [Registered(key, e)], k) {
      assert MirrorsAt(cancels, log, k);
      forall x { LiveNext(log, Registered(key, e), k, x); }
      assert forall x | x in At(cancels, k) :: x.token != e.token;
      hide IsLive, Unused, Mirrors, Distinct;
      AddedAt(cancels, key, e, k);
      DistinctSnoc(At(cancels, k), e);
      hide At, Added;
    }
  }

  lemma AddedAt(cancels: Cancels, key: string, e: Entry, k: string)
    ensures At(Added(cancels, key, e), k) == if k == key then At(cancels, k) + [e] else At(cancels, k)
  {
  }

  lemma DistinctSnoc(s: seq<Entry>, e: Entry)
    requires Distinct(s) && forall x | x in s :: x.token != e.token
    ensures Distinct(s + [e])
  {
  }

  lemma RemovedAt(cancels: Cancels, key: string, token: nat, k: string)
    ensures At(Removed(cancels, key, token), k) ==
      if k == key then WithoutToken(At(cancels, k), token) else At(cancels, k)
  {
  }

  lemma RemovedMirrors(cancels: Cancels, log: seq<CancelEvent>, key: string, token: nat)
    requires Mirrors(cancels, log)
    requires forall k, e | IsLive(log, k, e) && e.token == token :: k == key
    ensures Mirrors(Removed(cancels, key, token), log + [Unregistered(token)])
  {
    forall k ensures MirrorsAt(Removed(cancels, key, token), log + [Unregistered(token)], k) {
      assert MirrorsAt(cancels, log, k);
      forall x { LiveNext(log, Unregistered(token), k, x); }
      hide IsLive, WithoutToken, Distinct;
      RemovedAt(cancels, key, token, k);
      WithoutTokenMeans(At(cancels, k), token);
      hide At, Removed;
    }
  }

  lemma ClearedMirrors(cancels: Cancels, log: seq<CancelEvent>, key: string)
    requires Mirrors(cancels, log)
    ensures Mirrors(cancels - {key}, log + [Cleared(key)])
  {
    forall k ensures MirrorsAt(cancels - {key}, log + [Cleared(key)], k) {
      assert MirrorsAt(cancels, log, k);
      forall x { LiveNext(log, Cleared(key), k, x); }
      hide IsLive;
    }
  }

  lemma TokenUsed(log: seq<CancelEvent>, drawn: set<nat>, last: nat, key: string, e: Entry)
    requires TokensUnique(log, drawn, last) && e.token in drawn
    ensures TokensUnique(log + [Registered(key, e)], drawn - {e.token}, last)
  {
  }

  lemma OthersUnique(log: seq<CancelEvent>, drawn: set<nat>, last: nat, event: CancelEvent)
    requires TokensUnique(log, drawn, last) && !event.Registered?
    ensures TokensUnique(log + [event], drawn, last)
  {
  }

  class ChildCancelRegistry {
    var cancels: Cancels
    var lastToken: nat
    ghost var drawn: set<nat>
    ghost var log: seq<CancelEvent>

    ghost predicate Valid()
      reads this
    {
      Mirrors(cancels, log) && TokensUnique(log, drawn, lastToken)
    }

    constructor ()
      ensures Valid() && log == [] && drawn == {}
    {
      cancels, lastToken, drawn, log := map[], 0, {}, [];
    }

    /** The atomic counter; other calls may come between this and `Add`. */
    method DrawToken() returns (token: nat)
      requires Valid()
      modifies this
      ensures Valid() && drawn == old(drawn) + {token} && token !in old(drawn)
      ensures log == old(log) && cancels == old(cancels)
    {
      hide Mirrors;
      lastToken := lastToken + 1;
      token := lastToken;
      drawn := drawn + {token};
      assert Unused(log, token);
    }

    /** The append under the lock. */
    method Add(key: string, child: string, token: nat)
      requires Valid() && token in drawn
      modifies this
      ensures Valid() && log == old(log) + [Registered(key, Entry(token, child))] && drawn == old(drawn) - {token}
      ensures cancels == Added(old(cancels), key, Entry(token, child))
    {
      AddedMirrors(cancels, log, key, Entry(token, child));
      TokenUsed(log, drawn, lastToken, key, Entry(token, child));
      hide Mirrors, TokensUnique;
      cancels := cancels[key := At(cancels, key) + [Entry(token, child)]];
      log := log + [Registered(key, Entry(token, child))];
      drawn := drawn - {token};
    }

    method Register(key: string, child: string) returns (token: nat)
      requires Valid()
      modifies this
      ensures Valid() && log == old(log) + [Registered(key, Entry(token, child))] && drawn == old(drawn)
      ensures cancels == Added(old(cancels), key, Entry(token, child))
    {
      token := DrawToken();
      Add(key, child, token);
      assert drawn == old(drawn);
    }

    /** What an unregister handle does when first called; later calls do nothing. */
    method Remove(key: string, token: nat)
      requires Valid() && WasRegistered(log, key, token)
      modifies this
      ensures Valid() && log == old(log) + [Unregistered(token)] && drawn == old(drawn)
      ensures cancels == Removed(old(cancels), key, token)
    {
      LiveWasRegistered(log, drawn, lastToken, key, token);
      OthersUnique(log, drawn, lastToken, Unregistered(token));
      RemovedMirrors(cancels, log, key, token);
      hide Mirrors, IsLive, TokensUnique, WasRegistered;
      var s := At(cancels, key);
      var i := 0;
      while i < |s| && s[i].token != token
        invariant i <= |s| && forall j | 0 <= j < i :: s[j].token != token
      {
        i := i + 1;
      }
      if i < |s| {
        WithoutTokenAt(s, i);
        cancels := cancels[key := s[..i] + s[i + 1..]];
      } else {
        WithoutTokenAbsent(s, token);
      }
      if |At(cancels, key)| == 0 { cancels := cancels - {key}; }
      assert cancels == Removed(old(cancels), key, token);
      log := log + [Unregistered(token)];
    }

    /** Cancels exactly the live children of the key, leaving them registered. */
    method CancelAll(key: string) returns (canceled: seq<string>)
      requires Valid()
      ensures |canceled| == |At(cancels, key)|
      ensures forall child :: child in canceled <==> exists e: Entry :: IsLive(log, key, e) && e.child == child
    {
      var funcs := At(cancels, key);
      canceled := [];
      for i := 0 to |funcs|
        invariant canceled == Children(funcs[..i])
      {
        canceled := canceled + [funcs[i].child];
        assert funcs[..i + 1][..i] == funcs[..i];
      }
      assert funcs[..|funcs|] == funcs;
      CanceledLive(cancels, log, key);
    }

    method Reset(key: string)
      requires Valid()
      modifies this
      ensures Valid() && log == old(log) + [Cleared(key)] && cancels == old(cancels) - {key} && drawn == old(drawn)
    {
      ClearedMirrors(cancels, log, key);
      OthersUnique(log, drawn, lastToken, Cleared(key));
      hide Mirrors, TokensUnique;
      cancels := cancels - {key};
      log := log + [Cleared(key)];
    }
  }

  lemma CanceledLive(cancels: Cancels, log: seq<CancelEvent>, key: string)
    requires Mirrors(cancels, log)
    ensures forall child ::
      (child in Children(At(cancels, key)) <==> exists e: Entry :: IsLive(log, key, e) && e.child == child)
  {
    var s := At(cancels, key);
    assert MirrorsAt(cancels, log, key);
    hide IsLive;
    forall child ensures child in Children(s) <==> exists e: Entry :: IsLive(log, key, e) && e.child == child {
      if child in Children(s) {
        var i :| 0 <= i < |s| && s[i].child == child;
        assert IsLive(log, key, s[i]);
      }
      if e: Entry :| IsLive(log, key, e) && e.child == child {
        var i :| 0 <= i < |s| && s[i] == e;
        assert Children(s)[i] == child;
      }
    }
  }

  function Children(s: seq<Entry>): seq<string> {
    seq(|s|, i requires 0 <= i < |s| => s[i].child)
  }

  lemma LiveTokens(log: seq<CancelEvent>, token: nat)
    requires Unused(log, token)
    ensures forall key, e | IsLive(log, key, e) :: e.token != token
  {
    forall key, e | IsLive(log, key, e) ensures e.token != token {
      var i :| 0 <= i < |log| && log[i] == Registered(key, e);
      assert !Registers(log[i], token);
    }
  }

  /** A stale unregister: once its key was reset, the handle's removal leaves every live
      entry of every key in place, also those registered since. */
  lemma StaleUnregister(log: seq<CancelEvent>, key: string, e: Entry, since: seq<CancelEvent>, k: string, other: Entry)
    requires forall i | 0 <= i < |since| && since[i].Registered? :: since[i].entry.token != e.token
    requires forall i | 0 <= i < |log| && log[i].Registered? && log[i].entry.token == e.token ::
      log[i] == Registered(key, e)
    ensures var whole := log + [Cleared(key)] + since;
      IsLive(whole, k, other) <==> IsLive(whole + [Unregistered(e.token)], k, other)
  {
    var whole := log + [Cleared(key)] + since;
    LiveNext(whole, Unregistered(e.token), k, other);
    if IsLive(whole, k, other) {
      var i :| 0 <= i < |whole| && whole[i] == Registered(k, other)
        && forall j | i < j < |whole| :: whole[j] != Unregistered(other.token) && whole[j] != Cleared(k);
      if i < |log| {
        assert whole[i] == log[i];
        assert whole[|log|] == Cleared(key);
      } else {
        assert whole[i] == since[i - |log| - 1];
      }
    }
  }
}
