/** Progress towards the chat: what may be sent, the priority queue of ChatContext and
    the text queue of IMEventRenderer (channelrunner/progress). */
module Progress {
  import opened Common

  datatype Priority = Droppable | Critical

  /** `final` marks an AssistantFinal; `body` is what only rendering looks at. */
  datatype Event = Event(kind: string, turn: string, parent: string, priority: Priority, final: bool, body: string)

  /** Rendering and the quota table are arbitrary. */
  datatype Rules = Rules(render: Event -> Option<string>, limit: bool -> int)

  const WAITING := "human.requested"
  const CAPACITY: nat := 256

  predicate IsChild(e: Event) {
    e.parent != "" && e.parent != e.turn
  }

  predicate IsWaiting(e: Event) {
    e.kind == WAITING
  }

  // ----- Governance: quota and de-duplication -----

  datatype Tally = Tally(parentSent: nat, childSent: nat, seen: set<string>)

  datatype Send = Send(event: Event, text: string)

  const NOTHING_SENT := Tally(0, 0, {})

  function Key(e: Event, text: string): string {
    e.kind + "|" + text
  }

  function SentIn(t: Tally, child: bool): nat {
    if child then t.childSent else t.parentSent
  }

  predicate QuotaReached(rules: Rules, t: Tally, e: Event) {
    !IsWaiting(e) && 0 < rules.limit(IsChild(e)) <= SentIn(t, IsChild(e))
  }

  predicate Passes(rules: Rules, t: Tally, e: Event) {
    rules.render(e).Some? && !QuotaReached(rules, t, e) && Key(e, rules.render(e).value) !in t.seen
  }

  function Counted(t: Tally, e: Event, text: string): Tally {
    Tally(t.parentSent + (if !IsWaiting(e) && !IsChild(e) then 1 else 0),
          t.childSent + (if !IsWaiting(e) && IsChild(e) then 1 else 0),
          t.seen + {Key(e, text)})
  }

  datatype Feed = Feed(tally: Tally, sends: seq<Send>)

  function Governed(rules: Rules, f: Feed, e: Event): Feed {
    if !Passes(rules, f.tally, e) then f
    else
      var text := rules.render(e).value;
      Feed(Counted(f.tally, e, text), f.sends + [Send(e, text)])
  }

  /** What a stream of events makes the chat see. */
  function GovernAll(rules: Rules, events: seq<Event>): Feed {
    if events == [] then Feed(NOTHING_SENT, [])
    else Governed(rules, GovernAll(rules, events[..|events| - 1]), events[|events| - 1])
  }

  lemma GovernNext(rules: Rules, events: seq<Event>, e: Event)
    ensures GovernAll(rules, events + [e]) == Governed(rules, GovernAll(rules, events), e)
  {
    assert (events + [e])[..|events|] == events;
  }

  function Texts(sends: seq<Send>): seq<string> {
    seq(|sends|, i requires 0 <= i < |sends| => sends[i].text)
  }

  /** Sends that count against a bucket. */
  function Charged(sends: seq<Send>, child: bool): nat {
    if sends == [] then 0
    else
      var last := sends[|sends| - 1].event;
      Charged(sends[..|sends| - 1], child) + if IsChild(last) == child && !IsWaiting(last) then 1 else 0
  }

  predicate NoRepeats(sends: seq<Send>) {
    forall i, j | 0 <= i < j < |sends| ::
      !(sends[i].event.kind == sends[j].event.kind && sends[i].text == sends[j].text)
  }

  ghost predicate WellGoverned(rules: Rules, f: Feed) {
    && (forall child :: Charged(f.sends, child) == SentIn(f.tally, child))
    && (forall child | rules.limit(child) > 0 :: Charged(f.sends, child) <= rules.limit(child))
    && (forall k :: k in f.tally.seen <==> exists i | 0 <= i < |f.sends| :: Key(f.sends[i].event, f.sends[i].text) == k)
    && (forall i, j | 0 <= i < j < |f.sends| ::
          Key(f.sends[i].event, f.sends[i].text) != Key(f.sends[j].event, f.sends[j].text))
  }

  lemma GovernedWell(rules: Rules, f: Feed, e: Event)
    requires WellGoverned(rules, f)
    ensures WellGoverned(rules, Governed(rules, f, e))
  {
    var f1 := Governed(rules, f, e);
    if f1 != f {
      var n := |f.sends|;
      assert f1.sends[..n] == f.sends;
      forall k
        ensures k in f1.tally.seen <==>
          exists i | 0 <= i < |f1.sends| :: Key(f1.sends[i].event, f1.sends[i].text) == k
      {
        if k == Key(e, f1.sends[n].text) { assert Key(f1.sends[n].event, f1.sends[n].text) == k; }
        else if k in f.tally.seen {
          var i :| 0 <= i < |f.sends| && Key(f.sends[i].event, f.sends[i].text) == k;
          assert f1.sends[i] == f.sends[i];
        }
      }
    }
  }

  lemma {:induction false} GovernAllWell(rules: Rules, events: seq<Event>)
    ensures WellGoverned(rules, GovernAll(rules, events))
  {
    if events != [] {
      GovernAllWell(rules, events[..|events| - 1]);
      GovernedWell(rules, GovernAll(rules, events[..|events| - 1]), events[|events| - 1]);
    }
  }

  /** A positive quota bounds the progress sent per bucket and no kind and text are
      sent together twice. */
  lemma QuotaAndDedupHold(rules: Rules, events: seq<Event>)
    ensures var sends := GovernAll(rules, events).sends;
      && NoRepeats(sends)
      && forall child | rules.limit(child) > 0 :: Charged(sends, child) <= rules.limit(child)
  {
    GovernAllWell(rules, events);
  }

  /** How many events other than requests for a human were sent for the child turns, or
      for the user's own turn. */
  function ProgressSent(sends: seq<Send>, child: bool): nat {
    if sends == [] then 0
    else
      var last := sends[|sends| - 1].event;
      ProgressSent(sends[..|sends| - 1], child) +
      if last.kind != "human.requested" && (last.parent != "" && last.parent != last.turn) == child then 1 else 0
  }

  lemma {:induction false} ChargedSpelled(sends: seq<Send>, child: bool)
    ensures Charged(sends, child) == ProgressSent(sends, child)
  {
    if sends != [] { ChargedSpelled(sends[..|sends| - 1], child); }
  }

  predicate SentBefore(sends: seq<Send>, kind: string, text: string) {
    exists i | 0 <= i < |sends| :: sends[i].event.kind + "|" + sends[i].text == kind + "|" + text
  }

  /** Exactly when an event is shown: it renders, its kind and text were not sent before,
      and it asks for a human or its bucket is without quota or still below it. */
  lemma ShownExactly(rules: Rules, events: seq<Event>, e: Event)
    ensures var before, after := GovernAll(rules, events).sends, GovernAll(rules, events + [e]).sends;
      var child := e.parent != "" && e.parent != e.turn;
      if rules.render(e).Some? && !SentBefore(before, e.kind, rules.render(e).value)
         && (e.kind == "human.requested" || rules.limit(child) <= 0 || ProgressSent(before, child) < rules.limit(child))
      then after == before + [Send(e, rules.render(e).value)]
      else after == before
  {
    var f := GovernAll(rules, events);
    GovernNext(rules, events, e);
    GovernAllWell(rules, events);
    ChargedSpelled(f.sends, IsChild(e));
    hide GovernAll, Charged, ProgressSent;
  }

  /** For kinds without a bar the key tells kind and text apart. */
  lemma {:induction false} KeyTells(kind: string, text: string, kind1: string, text1: string)
    requires '|' !in kind && '|' !in kind1 && kind + "|" + text == kind1 + "|" + text1
    ensures kind == kind1 && text == text1
  {
    var key := kind + "|" + text;
    assert key[|kind|] == '|' && key[|kind1|] == '|';
    assert forall i | 0 <= i < |kind| :: key[i] == kind[i] && kind[i] in kind;
    assert forall i | 0 <= i < |kind1| :: key[i] == kind1[i] && kind1[i] in kind1;
    assert kind == key[..|kind|] && kind1 == key[..|kind1|];
    assert text == key[|kind| + 1..] && text1 == key[|kind1| + 1..];
  }

  predicate Shown(sends: seq<Send>, k: string) {
    exists i | 0 <= i < |sends| :: Key(sends[i].event, sends[i].text) == k
  }

  /** A request for a human is exempt from the quotas: once it renders, it is shown. */
  lemma {:induction false} WaitingIsShown(rules: Rules, events: seq<Event>, e: Event)
    requires e in events && IsWaiting(e) && rules.render(e).Some?
    ensures Shown(GovernAll(rules, events).sends, Key(e, rules.render(e).value))
  {
    var n := |events| - 1;
    var f, f1 := GovernAll(rules, events[..n]), GovernAll(rules, events);
    var k := Key(e, rules.render(e).value);
    GovernAllWell(rules, events[..n]);
    if e == events[n] {
      if k !in f.tally.seen {
        assert Key(f1.sends[|f.sends|].event, f1.sends[|f.sends|].text) == k;
      }
    } else {
      WaitingIsShown(rules, events[..n], e);
    }
    if Shown(f.sends, k) {
      var i :| 0 <= i < |f.sends| && Key(f.sends[i].event, f.sends[i].text) == k;
      assert f1.sends[i] == f.sends[i];
    }
  }

  // ----- The priority queue -----

  predicate Lower(a: Priority, b: Priority) {
    a == Droppable && b == Critical
  }

  /** The first queued event of lower priority, or the length of the queue. */
  function FirstLower(q: seq<Event>, p: Priority): (i: nat)
    ensures i <= |q|
    ensures i < |q| ==> Lower(q[i].priority, p)
    ensures forall j | 0 <= j < i :: !Lower(q[j].priority, p)
  {
    if q == [] || Lower(q[0].priority, p) then 0 else 1 + FirstLower(q[1..], p)
  }

  function Without(q: seq<Event>, i: nat): seq<Event>
    requires i < |q|
  {
    q[..i] + q[i + 1..]
  }

  /** A chat context. `inFlight` are the events whose Deliver has passed the drain check
      and not yet taken the queue lock; `accepted` and `dispatched` log what entered and
      left the queue. */
  datatype Chat = Chat(
    queue: seq<Event>,
    closed: bool,
    drained: bool,
    inFlight: multiset<Event>,
    accepted: seq<Event>,
    dispatched: seq<Event>,
    feed: Feed)

  const NEW_CHAT := Chat([], false, false, multiset{}, [], [], Feed(NOTHING_SENT, []))

  datatype ChatStep = Begin(event: Event) | Enqueue(event: Event) | Dequeue | Close

  function Pushed(c: Chat, e: Event): Chat {
    if |c.queue| < CAPACITY then c.(queue := c.queue + [e], accepted := c.accepted + [e])
    else
      var i := FirstLower(c.queue, e.priority);
      if i == |c.queue| then c else c.(queue := Without(c.queue, i) + [e], accepted := c.accepted + [e])
  }

  function ChatNext(rules: Rules, c: Chat, step: ChatStep): Chat {
    match step
    case Begin(e) =>
      if c.drained then c
      else if e.final then c.(drained := true)
      else c.(inFlight := c.inFlight + multiset{e})
    case Enqueue(e) =>
      if e !in c.inFlight then c
      else
        var c1 := c.(inFlight := c.inFlight - multiset{e});
        if c.closed then c1 else Pushed(c1, e)
    case Dequeue =>
      if c.queue == [] then c
      else
        c.(queue := c.queue[1..], dispatched := c.dispatched + [c.queue[0]],
           feed := Governed(rules, c.feed, c.queue[0]))
    case Close => c.(closed := true)
  }

  function RunChat(rules: Rules, c: Chat, steps: seq<ChatStep>): Chat
    decreases |steps|
  {
    if steps == [] then c else RunChat(rules, ChatNext(rules, c, steps[0]), steps[1..])
  }

  /** `a` is `b` with some elements left out. */
  predicate Subsequence(a: seq<Event>, b: seq<Event>) {
    a == [] || (b != [] &&
      ((a[|a| - 1] == b[|b| - 1] && Subsequence(a[..|a| - 1], b[..|b| - 1])) || Subsequence(a, b[..|b| - 1])))
  }

  lemma SubsequenceSnoc(a: seq<Event>, b: seq<Event>, e: Event)
    requires Subsequence(a, b)
    ensures Subsequence(a + [e], b + [e])
  {
    assert (a + [e])[..|a|] == a && (b + [e])[..|b|] == b;
  }

  lemma WithoutSnoc(a: seq<Event>, i: nat)
    requires i < |a| - 1
    ensures Without(a[..|a| - 1], i) + [a[|a| - 1]] == Without(a, i)
  {
  }

  lemma SubsequenceSkip(a: seq<Event>, b: seq<Event>)
    requires b != [] && Subsequence(a, b[..|b| - 1])
    ensures Subsequence(a, b)
  {
  }

  lemma {:induction false} SubsequenceDrop(a: seq<Event>, b: seq<Event>, i: nat)
    requires Subsequence(a, b) && i < |a|
    ensures Subsequence(Without(a, i), b)
    decreases |b|
  {
    var a1, b1 := a[..|a| - 1], b[..|b| - 1];
    assert b == b1 + [b[|b| - 1]];
    assert Subsequence(a, b1) || (a[|a| - 1] == b[|b| - 1] && Subsequence(a1, b1));
    hide Subsequence;
    if Subsequence(a, b1) {
      SubsequenceDrop(a, b1, i);
      SubsequenceSkip(Without(a, i), b);
    } else if i == |a| - 1 {
      assert Without(a, i) == a1;
      SubsequenceSkip(a1, b);
    } else {
      SubsequenceDrop(a1, b1, i);
      SubsequenceSnoc(Without(a1, i), b1, a[|a| - 1]);
      WithoutSnoc(a, i);
    }
  }

  function CriticalOf(s: seq<Event>): seq<Event> {
    if s == [] then []
    else CriticalOf(s[..|s| - 1]) + if s[|s| - 1].priority == Critical then [s[|s| - 1]] else []
  }

  lemma {:induction false} CriticalAppend(a: seq<Event>, b: seq<Event>)
    ensures CriticalOf(a + b) == CriticalOf(a) + CriticalOf(b)
  {
    if b == [] {
      assert a + b == a;
    } else {
      assert (a + b)[..|a + b| - 1] == a + b[..|b| - 1];
      CriticalAppend(a, b[..|b| - 1]);
    }
  }

  lemma CriticalMiddle(a: seq<Event>, e: Event, b: seq<Event>)
    requires e.priority == Droppable
    ensures CriticalOf(a + [e] + b) == CriticalOf(a + b)
  {
    assert (a + [e])[..|a|] == a;
    assert CriticalOf(a + [e]) == CriticalOf(a) + [] == CriticalOf(a);
    hide CriticalOf;
    CriticalAppend(a + [e], b);
    CriticalAppend(a, b);
  }

  lemma CriticalWithout(s: seq<Event>, i: nat)
    requires i < |s| && s[i].priority == Droppable
    ensures CriticalOf(Without(s, i)) == CriticalOf(s)
  {
    hide CriticalOf;
    CriticalMiddle(s[..i], s[i], s[i + 1..]);
    assert s == s[..i] + [s[i]] + s[i + 1..];
  }

  predicate ChatSound(rules: Rules, c: Chat) {
    && |c.queue| <= CAPACITY
    && Subsequence(c.dispatched + c.queue, c.accepted)
    && CriticalOf(c.dispatched + c.queue) == CriticalOf(c.accepted)
    && c.feed == GovernAll(rules, c.dispatched)
  }

  lemma AppendedSound(rules: Rules, c: Chat, e: Event)
    requires ChatSound(rules, c) && |c.queue| < CAPACITY
    ensures ChatSound(rules, c.(queue := c.queue + [e], accepted := c.accepted + [e]))
  {
    var all := c.dispatched + c.queue;
    hide Subsequence, CriticalOf, GovernAll;
    assert c.dispatched + (c.queue + [e]) == all + [e];
    SubsequenceSnoc(all, c.accepted, e);
    CriticalAppend(all, [e]);
    CriticalAppend(c.accepted, [e]);
  }

  lemma EvictedSound(rules: Rules, c: Chat, i: nat)
    requires ChatSound(rules, c) && i < |c.queue| && c.queue[i].priority == Droppable
    ensures ChatSound(rules, c.(queue := Without(c.queue, i)))
  {
    var all, k := c.dispatched + c.queue, |c.dispatched| + i;
    hide Subsequence, CriticalOf, GovernAll;
    assert c.dispatched + Without(c.queue, i) == Without(all, k);
    SubsequenceDrop(all, c.accepted, k);
    CriticalWithout(all, k);
  }

  lemma PushedSound(rules: Rules, c: Chat, e: Event)
    requires ChatSound(rules, c)
    ensures ChatSound(rules, Pushed(c, e))
  {
    var i := FirstLower(c.queue, e.priority);
    if |c.queue| < CAPACITY {
      AppendedSound(rules, c, e);
    } else if i < |c.queue| {
      EvictedSound(rules, c, i);
      hide ChatSound;
      AppendedSound(rules, c.(queue := Without(c.queue, i)), e);
    }
  }

  lemma ChatNextSound(rules: Rules, c: Chat, step: ChatStep)
    requires ChatSound(rules, c)
    ensures ChatSound(rules, ChatNext(rules, c, step))
  {
    match step {
      case Enqueue(e) =>
        if e in c.inFlight { PushedSound(rules, c.(inFlight := c.inFlight - multiset{e}), e); }
        hide Subsequence, CriticalOf, GovernAll, Pushed;
      case Dequeue => DequeuedSound(rules, c);
      case _ =>
    }
  }

  lemma DequeuedSound(rules: Rules, c: Chat)
    requires ChatSound(rules, c)
    ensures ChatSound(rules, ChatNext(rules, c, Dequeue))
  {
    hide Subsequence, CriticalOf, Governed, GovernAll;
    if c.queue != [] {
      assert c.dispatched + [c.queue[0]] + c.queue[1..] == c.dispatched + c.queue;
      GovernNext(rules, c.dispatched, c.queue[0]);
    }
  }

  /** For every interleaving of deliveries and dequeues: the queue is bounded, what was
      and will be dispatched is what was accepted, in order, minus evicted events none
      of which is critical, and the chat sees exactly the governed dispatched events. */
  lemma {:induction false} ChatRunsSound(rules: Rules, c: Chat, steps: seq<ChatStep>)
    requires ChatSound(rules, c)
    ensures ChatSound(rules, RunChat(rules, c, steps))
    decreases |steps|
  {
    if steps != [] {
      ChatNextSound(rules, c, steps[0]);
      ChatRunsSound(rules, ChatNext(rules, c, steps[0]), steps[1..]);
    }
  }

  /** Every chat starts sound, so all of this holds of every chat. */
  lemma ChatsSound(rules: Rules, steps: seq<ChatStep>)
    ensures ChatSound(rules, RunChat(rules, NEW_CHAT, steps))
  {
    assert ChatSound(rules, NEW_CHAT);
    ChatRunsSound(rules, NEW_CHAT, steps);
  }

  /** When an open queue turns an event away. */
  lemma TurnedAwayExactly(rules: Rules, c: Chat, e: Event)
    requires ChatSound(rules, c) && e in c.inFlight && !c.closed
    ensures ChatNext(rules, c, Enqueue(e)).accepted == c.accepted <==>
      |c.queue| == CAPACITY && (e.priority == Critical ==> forall q | q in c.queue :: q.priority == Critical)
    ensures var q := ChatNext(rules, c, Enqueue(e)).queue; q != c.queue ==> q != [] && q[|q| - 1] == e
  {
    var c1 := ChatNext(rules, c, Enqueue(e));
    assert c1.accepted == c.accepted || |c1.accepted| == |c.accepted| + 1;
    if |c.queue| == CAPACITY && e.priority == Critical && FirstLower(c.queue, Critical) < |c.queue| {
      assert c.queue[FirstLower(c.queue, Critical)] in c.queue;
    }
  }

  /** Nothing whose Deliver starts after the drain flag is set is ever dispatched: later
      dispatches come out of the queue or were in flight then. */
  lemma {:induction false} NothingAfterFinal(rules: Rules, c: Chat, steps: seq<ChatStep>)
    requires c.drained
    ensures var last := RunChat(rules, c, steps);
      && last.drained
      && multiset(last.dispatched) + multiset(last.queue) + last.inFlight
           <= multiset(c.dispatched) + multiset(c.queue) + c.inFlight
    decreases |steps|
  {
    if steps != [] {
      var c1 := ChatNext(rules, c, steps[0]);
      DrainedStep(rules, c, steps[0]);
      NothingAfterFinal(rules, c1, steps[1..]);
    }
  }

  lemma EvictedFewer(q: seq<Event>, i: nat)
    requires i < |q|
    ensures multiset(Without(q, i)) <= multiset(q)
  {
    assert q == q[..i] + [q[i]] + q[i + 1..];
  }

  lemma PushedFewer(c: Chat, e: Event)
    ensures multiset(Pushed(c, e).queue) <= multiset(c.queue) + multiset{e}
  {
    var i := FirstLower(c.queue, e.priority);
    if i < |c.queue| { EvictedFewer(c.queue, i); }
  }

  lemma FewerTogether(d: multiset<Event>, q: multiset<Event>, q1: multiset<Event>, f: multiset<Event>, e: Event)
    requires q1 <= q + multiset{e} && e in f
    ensures d + q1 + (f - multiset{e}) <= d + q + f
    ensures d + q + (f - multiset{e}) <= d + q + f
  {
  }

  lemma DrainedStep(rules: Rules, c: Chat, step: ChatStep)
    requires c.drained
    ensures var c1 := ChatNext(rules, c, step);
      && c1.drained
      && multiset(c1.dispatched) + multiset(c1.queue) + c1.inFlight
           <= multiset(c.dispatched) + multiset(c.queue) + c.inFlight
  {
    match step {
      case Enqueue(e) =>
        var c1 := c.(inFlight := c.inFlight - multiset{e});
        PushedFewer(c1, e);
        if e in c.inFlight {
          FewerTogether(multiset(c.dispatched), multiset(c.queue), multiset(Pushed(c1, e).queue), c.inFlight, e);
        }
      case Dequeue => if c.queue != [] { assert c.queue == [c.queue[0]] + c.queue[1..]; }
      case _ =>
    }
  }

  /** `ChatContext`: the queue is a slice the methods reassign. */
  class ChatContext {
    const rules: Rules
    var queue: seq<Event>
    var queueClosed: bool
    var drained: bool
    var parentProgressSent: nat
    var childProgressSent: nat
    var dedup: set<string>
    var sends: seq<Send>
    ghost var inFlight: multiset<Event>
    ghost var accepted: seq<Event>
    ghost var dispatched: seq<Event>

    ghost function View(): Chat
      reads this
    {
      Chat(queue, queueClosed, drained, inFlight, accepted, dispatched,
           Feed(Tally(parentProgressSent, childProgressSent, dedup), sends))
    }

    constructor (rules: Rules)
      ensures View() == NEW_CHAT && this.rules == rules
    {
      this.rules := rules;
      queue, queueClosed, drained := [], false, false;
      parentProgressSent, childProgressSent, dedup, sends := 0, 0, {}, [];
      inFlight, accepted, dispatched := multiset{}, [], [];
    }

    /** The part of Deliver under the state lock. */
    method CheckDrained(e: Event) returns (passed: bool)
      modifies this
      ensures View() == ChatNext(rules, old(View()), Begin(e))
      ensures passed <==> !old(drained) && !e.final
    {
      if drained { return false; }
      if e.final {
        drained := true;
        return false;
      }
      inFlight := inFlight + multiset{e};
      return true;
    }

    /** The part of Deliver under the queue lock. */
    method Push(e: Event) returns (kept: bool)
      requires e in inFlight
      modifies this
      ensures View() == ChatNext(rules, old(View()), Enqueue(e))
      ensures kept <==> |accepted| > |old(accepted)|
    {
      hide FirstLower, Without, Governed;
      inFlight := inFlight - multiset{e};
      if queueClosed { return false; }
      if |queue| >= CAPACITY {
        var evicted := EvictFor(e);
        if !evicted { return false; }
      }
      queue := queue + [e];
      accepted := accepted + [e];
      return true;
    }

    method EvictFor(incoming: Event) returns (evicted: bool)
      modifies this`queue
      ensures var i := FirstLower(old(queue), incoming.priority);
        && (evicted <==> i < |old(queue)|)
        && queue == if evicted then Without(old(queue), i) else old(queue)
    {
      for i := 0 to |queue|
        invariant queue == old(queue) && i <= FirstLower(queue, incoming.priority)
      {
        if Lower(queue[i].priority, incoming.priority) {
          queue := queue[..i] + queue[i + 1..];
          return true;
        }
      }
      return false;
    }

    method Deliver(e: Event)
      modifies this
      ensures var begun := ChatNext(rules, old(View()), Begin(e));
        View() == if old(drained) || e.final then begun else ChatNext(rules, begun, Enqueue(e))
    {
      var passed := CheckDrained(e);
      if passed {
        var _ := Push(e);
      }
    }

    /** One turn of the send loop. */
    method SendNext() returns (more: bool)
      modifies this
      ensures View() == ChatNext(rules, old(View()), Dequeue)
      ensures more <==> old(queue) != []
    {
      if |queue| == 0 { return false; }
      var e := queue[0];
      queue := queue[1..];
      dispatched := dispatched + [e];
      Dispatch(e);
      return true;
    }

    method Dispatch(e: Event)
      modifies this`parentProgressSent, this`childProgressSent, this`dedup, this`sends
      ensures View().feed == Governed(rules, old(View().feed), e)
    {
      var text := rules.render(e);
      if text.None? { return; }
      var waiting, child := IsWaiting(e), IsChild(e);
      var limit := rules.limit(child);
      var sent := parentProgressSent;
      if child { sent := childProgressSent; }
      if !waiting && limit > 0 && sent >= limit { return; }
      var key := Key(e, text.value);
      if key in dedup { return; }
      dedup := dedup + {key};
      if !waiting {
        if child { childProgressSent := childProgressSent + 1; } else { parentProgressSent := parentProgressSent + 1; }
      }
      sends := sends + [Send(e, text.value)];
    }

    /** Closes the queue; the send loop delivers what is left. */
    method Stop()
      modifies this
      ensures queueClosed && queue == [] && dispatched == old(dispatched) + old(queue)
      ensures old(View().feed) == GovernAll(rules, old(dispatched)) ==> View().feed == GovernAll(rules, dispatched)
    {
      queueClosed := true;
      hide GovernAll, Governed, ChatNext;
      while |queue| > 0
        invariant queueClosed && dispatched + queue == old(dispatched) + old(queue)
        invariant old(View().feed) == GovernAll(rules, old(dispatched)) ==> View().feed == GovernAll(rules, dispatched)
        decreases |queue|
      {
        TurnMeans(rules, View());
        var _ := SendNext();
      }
    }
  }

  // ----- The text queue -----

  /** An IM renderer. `inFlight` are the texts that passed governance under the one lock
      and are not yet queued under the other; `dropped` found the queue closed; `delivered`
      logs the events it was given. */
  datatype Renderer = Renderer(
    feed: Feed, inFlight: multiset<string>, queue: seq<string>, done: bool, sent: seq<string>,
    dropped: multiset<string>, delivered: seq<Event>)

  const NEW_RENDERER := Renderer(Feed(NOTHING_SENT, []), multiset{}, [], false, [], multiset{}, [])

  datatype RenderStep = Govern(event: Event) | Place(text: string) | SendText | Finish

  function RawGoverned(rules: Rules, r: Renderer, e: Event): Renderer {
    var f := Governed(rules, r.feed, e);
    r.(feed := f, delivered := r.delivered + [e],
       inFlight := r.inFlight + if Passes(rules, r.feed.tally, e) then multiset{rules.render(e).value} else multiset{})
  }

  function TextPlaced(r: Renderer, text: string): Renderer {
    if text !in r.inFlight then r
    else if r.done then r.(inFlight := r.inFlight - multiset{text}, dropped := r.dropped + multiset{text})
    else r.(inFlight := r.inFlight - multiset{text}, queue := r.queue + [text])
  }

  /** One whole DeliverRaw. */
  function RawDelivered(rules: Rules, r: Renderer, e: Event): Renderer {
    var r1 := RawGoverned(rules, r, e);
    if Passes(rules, r.feed.tally, e) then TextPlaced(r1, rules.render(e).value) else r1
  }

  function TextSent(r: Renderer): Renderer {
    if r.queue == [] then r else r.(queue := r.queue[1..], sent := r.sent + [r.queue[0]])
  }

  class IMEventRenderer {
    const rules: Rules
    var parentProgressSent: nat
    var childProgressSent: nat
    var dedup: set<string>
    var queue: seq<string>
    var queueDone: bool
    var sent: seq<string>
    ghost var inFlight: multiset<string>
    ghost var dropped: multiset<string>
    ghost var passed: seq<Send>
    ghost var delivered: seq<Event>

    ghost function View(): Renderer
      reads this
    {
      Renderer(Feed(Tally(parentProgressSent, childProgressSent, dedup), passed),
               inFlight, queue, queueDone, sent, dropped, delivered)
    }

    constructor (rules: Rules)
      ensures View() == NEW_RENDERER && this.rules == rules
    {
      this.rules := rules;
      parentProgressSent, childProgressSent, dedup := 0, 0, {};
      queue, queueDone, sent, passed, delivered := [], false, [], [], [];
      inFlight, dropped := multiset{}, multiset{};
    }

    /** The part of DeliverRaw under the state lock. */
    method GovernRaw(e: Event) returns (text: Option<string>)
      modifies this
      ensures View() == RawGoverned(rules, old(View()), e)
      ensures text == if Passes(rules, old(View()).feed.tally, e) then rules.render(e) else None
    {
      text := Rule(e);
      delivered := delivered + [e];
      if text.Some? { inFlight := inFlight + multiset{text.value}; }
    }

    /** Render, quota, de-duplication and counters. */
    method Rule(e: Event) returns (text: Option<string>)
      modifies this`parentProgressSent, this`childProgressSent, this`dedup, this`passed
      ensures View().feed == Governed(rules, old(View().feed), e)
      ensures text == if Passes(rules, old(View()).feed.tally, e) then rules.render(e) else None
    {
      text := rules.render(e);
      if text.None? { return; }
      var waiting, child := IsWaiting(e), IsChild(e);
      var limit := rules.limit(child);
      var count := parentProgressSent;
      if child { count := childProgressSent; }
      if !waiting && limit > 0 && count >= limit { return None; }
      var key := Key(e, text.value);
      if key in dedup { return None; }
      dedup := dedup + {key};
      if !waiting {
        if child { childProgressSent := childProgressSent + 1; } else { parentProgressSent := parentProgressSent + 1; }
      }
      passed := passed + [Send(e, text.value)];
    }

    /** The part of DeliverRaw under the queue lock. */
    method PlaceText(text: string)
      requires text in inFlight
      modifies this
      ensures View() == TextPlaced(old(View()), text)
    {
      inFlight := inFlight - multiset{text};
      if queueDone {
        dropped := dropped + multiset{text};
        return;
      }
      queue := queue + [text];
    }

    method DeliverRaw(e: Event)
      modifies this
      ensures View() == RawDelivered(rules, old(View()), e)
    {
      var text := GovernRaw(e);
      if text.Some? { PlaceText(text.value); }
    }

    method SendNext() returns (more: bool)
      modifies this
      ensures View() == TextSent(old(View()))
      ensures more <==> old(queue) != []
    {
      if |queue| == 0 { return false; }
      sent := sent + [queue[0]];
      queue := queue[1..];
      return true;
    }

    /** Closes the queue; the send loop flushes what is left, in order. */
    method Stop()
      modifies this
      ensures queueDone && queue == [] && sent == old(sent) + old(queue)
      ensures View().feed == old(View().feed) && delivered == old(delivered)
    {
      queueDone := true;
      while |queue| > 0
        invariant queueDone && sent + queue == old(sent) + old(queue)
        invariant View().feed == old(View().feed) && delivered == old(delivered)
        decreases |queue|
      {
        var _ := SendNext();
      }
    }
  }

  function RenderNext(rules: Rules, r: Renderer, step: RenderStep): Renderer {
    match step
    case Govern(e) => RawGoverned(rules, r, e)
    case Place(text) => TextPlaced(r, text)
    case SendText => TextSent(r)
    case Finish => r.(done := true)
  }

  function RunRenderer(rules: Rules, r: Renderer, steps: seq<RenderStep>): Renderer
    decreases |steps|
  {
    if steps == [] then r else RunRenderer(rules, RenderNext(rules, r, steps[0]), steps[1..])
  }

  /** Every text that passed governance is sent, queued, in flight or dropped at the end,
      exactly once. */
  predicate Conserved(rules: Rules, r: Renderer) {
    && r.feed == GovernAll(rules, r.delivered)
    && multiset(Texts(r.feed.sends)) == multiset(r.sent) + multiset(r.queue) + r.inFlight + r.dropped
    && (r.dropped != multiset{} ==> r.done)
  }

  lemma GovernConserved(rules: Rules, r: Renderer, e: Event)
    requires Conserved(rules, r)
    ensures Conserved(rules, RawGoverned(rules, r, e))
  {
    GovernNext(rules, r.delivered, e);
    if Passes(rules, r.feed.tally, e) { TextsSnoc(r.feed.sends, Send(e, rules.render(e).value)); }
    hide GovernAll, Texts, Passes;
  }

  lemma PlaceConserved(rules: Rules, r: Renderer, text: string)
    requires Conserved(rules, r)
    ensures Conserved(rules, TextPlaced(r, text))
  {
    hide GovernAll, Texts;
    if text in r.inFlight { assert r.inFlight == r.inFlight - multiset{text} + multiset{text}; }
  }

  lemma SendConserved(rules: Rules, r: Renderer)
    requires Conserved(rules, r)
    ensures Conserved(rules, TextSent(r))
  {
    hide GovernAll, Texts;
    if r.queue != [] { assert r.queue == [r.queue[0]] + r.queue[1..]; }
  }

  lemma RenderNextConserved(rules: Rules, r: Renderer, step: RenderStep)
    requires Conserved(rules, r)
    ensures Conserved(rules, RenderNext(rules, r, step))
  {
    match step {
      case Govern(e) => GovernConserved(rules, r, e);
      case Place(text) => PlaceConserved(rules, r, text);
      case SendText => SendConserved(rules, r);
      case Finish =>
    }
  }

  /** For concurrent DeliverRaw calls too, whose texts may overtake each other between the
      two locks: nothing governed is lost or sent twice, and nothing else is sent. */
  lemma {:induction false} RendererConserves(rules: Rules, r: Renderer, steps: seq<RenderStep>)
    requires Conserved(rules, r)
    ensures Conserved(rules, RunRenderer(rules, r, steps))
    decreases |steps|
  {
    hide Conserved, RenderNext;
    if steps != [] {
      RenderNextConserved(rules, r, steps[0]);
      RendererConserves(rules, RenderNext(rules, r, steps[0]), steps[1..]);
    }
  }

  // ----- The two pipelines agree -----

  /** An event arrives, or a send loop takes a turn. */
  datatype Beat = Arrive(event: Event) | Turn

  function ChatBeats(rules: Rules, beats: seq<Beat>): Chat {
    if beats == [] then NEW_CHAT
    else
      var c := ChatBeats(rules, beats[..|beats| - 1]);
      match beats[|beats| - 1]
      case Arrive(e) => ChatNext(rules, ChatNext(rules, c, Begin(e)), Enqueue(e))
      case Turn => ChatNext(rules, c, Dequeue)
  }

  function RendererBeats(rules: Rules, beats: seq<Beat>): Renderer {
    if beats == [] then NEW_RENDERER
    else
      var r := RendererBeats(rules, beats[..|beats| - 1]);
      match beats[|beats| - 1]
      case Arrive(e) => RawDelivered(rules, r, e)
      case Turn => TextSent(r)
  }

  function Arrivals(beats: seq<Beat>): seq<Event> {
    if beats == [] then []
    else Arrivals(beats[..|beats| - 1]) + if beats[|beats| - 1].Arrive? then [beats[|beats| - 1].event] else []
  }

  /** No AssistantFinal among the arrivals and room for each of them. */
  predicate NeverOverflows(rules: Rules, beats: seq<Beat>) {
    forall i | 0 <= i < |beats| && beats[i].Arrive? ::
      !beats[i].event.final && |ChatBeats(rules, beats[..i]).queue| < CAPACITY
  }

  lemma ArriveRoomy(rules: Rules, c: Chat, e: Event)
    requires !c.drained && !c.closed && !e.final && |c.queue| < CAPACITY
    ensures ChatNext(rules, ChatNext(rules, c, Begin(e)), Enqueue(e))
      == c.(queue := c.queue + [e], accepted := c.accepted + [e])
  {
    assert c.inFlight + multiset{e} - multiset{e} == c.inFlight;
  }

  lemma RoomyPrefix(rules: Rules, beats: seq<Beat>, n: nat)
    requires NeverOverflows(rules, beats) && |beats| == n + 1
    ensures NeverOverflows(rules, beats[..n])
    ensures beats[n].Arrive? ==> !beats[n].event.final && |ChatBeats(rules, beats[..n]).queue| < CAPACITY
  {
    hide ChatBeats;
    assert forall i | 0 <= i < n :: beats[..n][..i] == beats[..i];
  }

  lemma TurnMeans(rules: Rules, c: Chat)
    ensures var c1 := ChatNext(rules, c, Dequeue);
      && c1.dispatched + c1.queue == c.dispatched + c.queue
      && (c.feed == GovernAll(rules, c.dispatched) ==> c1.feed == GovernAll(rules, c1.dispatched))
      && c1.closed == c.closed && c1.drained == c.drained
      && (c.queue != [] ==> |c1.queue| < |c.queue|)
  {
    hide Governed, GovernAll;
    if c.queue != [] { GovernNext(rules, c.dispatched, c.queue[0]); }
  }

  lemma {:induction false} ChatBeatsMeans(rules: Rules, beats: seq<Beat>)
    requires NeverOverflows(rules, beats)
    ensures var c := ChatBeats(rules, beats);
      && !c.closed && !c.drained
      && c.dispatched + c.queue == Arrivals(beats)
      && c.feed == GovernAll(rules, c.dispatched)
  {
    if beats != [] {
      var n := |beats| - 1;
      var c := ChatBeats(rules, beats[..n]);
      RoomyPrefix(rules, beats, n);
      ChatBeatsMeans(rules, beats[..n]);
      hide Governed, GovernAll, NeverOverflows, ChatNext;
      match beats[n] {
        case Arrive(e) => ArriveRoomy(rules, c, e);
        case Turn => TurnMeans(rules, c);
      }
    }
  }

  lemma TextsSnoc(sends: seq<Send>, s: Send)
    ensures Texts(sends + [s]) == Texts(sends) + [s.text]
  {
  }

  lemma {:induction false} RendererBeatsMeans(rules: Rules, beats: seq<Beat>)
    ensures var r := RendererBeats(rules, beats);
      && !r.done && r.inFlight == multiset{} && r.feed == GovernAll(rules, Arrivals(beats))
      && r.sent + r.queue == Texts(r.feed.sends)
  {
    if beats != [] {
      var n := |beats| - 1;
      RendererBeatsMeans(rules, beats[..n]);
      assert Arrivals(beats[..n]) + [] == Arrivals(beats[..n]);
      var r := RendererBeats(rules, beats[..n]);
      if beats[n].Arrive? {
        var e := beats[n].event;
        assert Arrivals(beats) == Arrivals(beats[..n]) + [e];
        GovernNext(rules, Arrivals(beats[..n]), e);
        assert RendererBeats(rules, beats) == RawDelivered(rules, r, e);
        if Passes(rules, r.feed.tally, e) { TextsSnoc(r.feed.sends, Send(e, rules.render(e).value)); }
      }
    }
  }

  /** One pipeline governs when it takes an event out, the other before it puts the text
      in, and their send loops run at their own pace; fed the same events and flushed,
      they have sent the same texts in the same order. */
  lemma PipelinesAgree(rules: Rules, a: seq<Beat>, b: seq<Beat>)
    requires NeverOverflows(rules, a) && Arrivals(a) == Arrivals(b)
    requires ChatBeats(rules, a).queue == [] && RendererBeats(rules, b).queue == []
    ensures RendererBeats(rules, b).sent == Texts(ChatBeats(rules, a).feed.sends)
  {
    ChatBeatsMeans(rules, a);
    RendererBeatsMeans(rules, b);
    var c, r := ChatBeats(rules, a), RendererBeats(rules, b);
    assert c.dispatched + c.queue == c.dispatched && r.sent + r.queue == r.sent;
  }
}
