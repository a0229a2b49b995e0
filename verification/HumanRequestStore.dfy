/** The store of one workspace: request files, response files and the operations on
    them (humanrequest/store.go, interaction_store.go). */
module HumanRequestStore {
  import opened Common
  import opened Text
  import opened HumanRequest
  import opened HumanRequestHistory

  /** The files of one workspace, request files and response files by id. */
  datatype Disk = Disk(requests: map<string, Request>, responses: map<string, Response>)

  // ----- Listing, newest first -----

  predicate Before(a: Request, b: Request) {
    a.createdAt > b.createdAt || (a.createdAt == b.createdAt && Less(a.id, b.id))
  }

  lemma BeforeTransitive(a: Request, b: Request, c: Request)
    requires Before(a, b) && Before(b, c)
    ensures Before(a, c)
  {
    if a.createdAt == b.createdAt == c.createdAt { LessTransitive(a.id, b.id, c.id); }
  }

  lemma BeforeTotal(a: Request, b: Request)
    ensures a.id == b.id || Before(a, b) || Before(b, a)
    ensures !Before(a, a)
  {
    LessTotal(a.id, b.id);
    LessTotal(a.id, a.id);
  }

  /** Sorted with no two entries of equal rank. */
  predicate Ordered(s: seq<Request>) {
    forall i, j | 0 <= i < j < |s| :: Before(s[i], s[j])
  }

  function Insert(s: seq<Request>, r: Request): (t: seq<Request>)
    ensures multiset(t) == multiset(s) + multiset{r}
  {
    if s == [] then [r]
    else if Before(r, s[0]) then [r] + s
    else
      assert s == [s[0]] + s[1..];
      [s[0]] + Insert(s[1..], r)
  }

  lemma {:induction false} InsertOrdered(s: seq<Request>, r: Request)
    requires Ordered(s) && forall i | 0 <= i < |s| :: s[i].id != r.id
    ensures Ordered(Insert(s, r))
  {
    if s != [] {
      BeforeTotal(r, s[0]);
      if Before(r, s[0]) {
        forall i | 0 <= i < |s| ensures Before(r, s[i]) {
          if i > 0 { BeforeTransitive(r, s[0], s[i]); }
        }
      } else {
        var rest := Insert(s[1..], r);
        InsertOrdered(s[1..], r);
        forall i | 0 <= i < |rest| ensures Before(s[0], rest[i]) {
          assert rest[i] in multiset(rest);
          assert rest[i] in multiset(s[1..]) + multiset{r};
          if rest[i] != r { assert rest[i] in s[1..]; }
        }
      }
    }
  }

  // ----- What every store state satisfies -----

  predicate SoundRequest(r: Request) {
    Sound(r, r.delivery.status != DeliveryNone)
  }

  /** Both are open and carry the same complete duplicate key. */
  predicate Twins(a: Request, b: Request) {
    && a.status == Pending && b.status == Pending
    && a.runId != "" && a.toolCallId != "" && a.dedupeKey != ""
    && a.runId == b.runId && a.toolCallId == b.toolCallId && a.dedupeKey == b.dedupeKey
  }

  predicate AllSound(d: Disk) {
    forall id | id in d.requests :: d.requests[id].id == id && SoundRequest(d.requests[id])
  }

  predicate NoTwins(d: Disk) {
    forall i, j | i in d.requests && j in d.requests && i != j :: !Twins(d.requests[i], d.requests[j])
  }

  /** The response file of every answered request is there, with the same content. */
  predicate ResponsesFiled(d: Disk) {
    forall id | id in d.requests && d.requests[id].response.Some? ::
      var a := d.requests[id].response.value; a.id in d.responses && d.responses[a.id] == a
  }

  predicate Consistent(d: Disk) {
    AllSound(d) && NoTwins(d) && ResponsesFiled(d)
  }

  // ----- Operations as sequences of writes -----

  datatype StoreOp =
    | DoCreate(input: CreateInput, id: string, correlation: string, now: int)
    | DoEvent(id: string, event: Event)

  predicate Duplicate(r: Request, input: CreateInput) {
    && r.status == Pending
    && input.dedupeKey != "" && input.runId != "" && input.toolCallId != ""
    && r.runId == input.runId && r.toolCallId == input.toolCallId && r.dedupeKey == input.dedupeKey
  }

  function CreateWrites(d: Disk, input: CreateInput, id: string, correlation: string, now: int): seq<Disk> {
    if !ValidCreate(input) || (exists i | i in d.requests :: Duplicate(d.requests[i], input)) then []
    else [d.(requests := d.requests[id := NewRequest(input, id, correlation, now)])]
  }

  /** A response is filed before the request that refers to it. */
  function EventWrites(d: Disk, id: string, e: Event): seq<Disk> {
    if id !in d.requests || !ChangeOf(d.requests[id], e).Changed? then []
    else
      var r := After(d.requests[id], e);
      if e.Respond? then
        var filed := d.(responses := d.responses[e.responseId := r.response.value]);
        [filed, filed.(requests := d.requests[id := r])]
      else [d.(requests := d.requests[id := r])]
  }

  function StoreWrites(d: Disk, op: StoreOp): seq<Disk> {
    match op
    case DoCreate(input, id, correlation, now) => CreateWrites(d, input, id, correlation, now)
    case DoEvent(id, e) => EventWrites(d, id, e)
  }

  function CutDisk(d: Disk, writes: seq<Disk>, done: nat): Disk {
    if done == 0 || writes == [] then d else writes[Min(done, |writes|) - 1]
  }

  /** Generated ids are new. */
  predicate Fresh(d: Disk, op: StoreOp) {
    match op
    case DoCreate(_, id, _, _) => id !in d.requests
    case DoEvent(_, e) => e.Respond? ==> e.responseId !in d.responses
  }

  lemma CreateConsistent(d: Disk, input: CreateInput, id: string, correlation: string, now: int)
    requires Consistent(d) && id !in d.requests
    ensures forall w | w in CreateWrites(d, input, id, correlation, now) :: Consistent(w)
  {
    var r := NewRequest(input, id, correlation, now);
    if ValidCreate(input) && !(exists i | i in d.requests :: Duplicate(d.requests[i], input)) {
      NewRequestSound(input, id, correlation, now);
      hide AllSound, ResponsesFiled, SoundRequest, NoTwins, Duplicate, ValidCreate;
      CreatedTwinless(d, input, id, r);
      CreatedConsistent(d, id, r);
    }
  }

  lemma NewRequestSound(input: CreateInput, id: string, correlation: string, now: int)
    ensures SoundRequest(NewRequest(input, id, correlation, now))
  {
    CreatedSound(input, id, correlation, now);
    hide Sound;
  }

  lemma CreatedConsistent(d: Disk, id: string, r: Request)
    requires Consistent(d) && r.id == id && SoundRequest(r) && r.response.None?
    requires NoTwins(d.(requests := d.requests[id := r]))
    ensures Consistent(d.(requests := d.requests[id := r]))
  {
    hide SoundRequest, NoTwins;
  }

  lemma CreatedTwinless(d: Disk, input: CreateInput, id: string, r: Request)
    requires NoTwins(d) && forall i | i in d.requests :: !Duplicate(d.requests[i], input)
    requires r.runId == input.runId && r.toolCallId == input.toolCallId && r.dedupeKey == input.dedupeKey
    ensures NoTwins(d.(requests := d.requests[id := r]))
  {
    var w := d.(requests := d.requests[id := r]);
    forall i, j | i in w.requests && j in w.requests && i != j ensures !Twins(w.requests[i], w.requests[j]) {
      if i == id { assert !Duplicate(d.requests[j], input); }
      else if j == id { assert !Duplicate(d.requests[i], input); }
      else { assert !Twins(d.requests[i], d.requests[j]); }
    }
  }

  lemma EventKeepsTwinless(d: Disk, id: string, e: Event)
    requires NoTwins(d) && id in d.requests && Lifecycle(d.requests[id])
    ensures NoTwins(d.(requests := d.requests[id := After(d.requests[id], e)]))
  {
    EventStable(d.requests[id], e);
    var w := d.(requests := d.requests[id := After(d.requests[id], e)]);
    forall i, j | i in w.requests && j in w.requests && i != j ensures !Twins(w.requests[i], w.requests[j]) {
      assert !Twins(d.requests[i], d.requests[j]);
    }
  }

  lemma EventKeepsSound(r: Request, e: Event)
    requires SoundRequest(r)
    ensures SoundRequest(After(r, e)) && After(r, e).id == r.id
  {
    EventSound(r, e, r.delivery.status != DeliveryNone);
    EventStable(r, e);
  }

  predicate Extends(d: Disk, w: Disk) {
    forall a | a in d.responses :: a in w.responses && w.responses[a] == d.responses[a]
  }

  lemma ReplacedConsistent(d: Disk, w: Disk, id: string, r: Request)
    requires Consistent(d) && id in d.requests && w.requests == d.requests[id := r]
    requires r.id == id && SoundRequest(r) && NoTwins(w) && Extends(d, w)
    requires r.response.Some? ==>
      r.response.value.id in w.responses && w.responses[r.response.value.id] == r.response.value
    ensures Consistent(w)
  {
  }

  lemma FiledConsistent(d: Disk, id: string, r: Request, a: Response)
    requires Consistent(d) && id in d.requests && a.id !in d.responses
    requires r.id == id && SoundRequest(r) && r.response == Some(a)
    requires NoTwins(d.(requests := d.requests[id := r]))
    ensures var filed := d.(responses := d.responses[a.id := a]);
      Consistent(filed) && Consistent(filed.(requests := d.requests[id := r]))
  {
    var filed := d.(responses := d.responses[a.id := a]);
    assert Extends(d, filed);
    ReplacedConsistent(d, filed.(requests := d.requests[id := r]), id, r);
  }

  lemma ResponseOf(r: Request, e: Event)
    requires ChangeOf(r, e).Changed?
    ensures e.Respond? ==> After(r, e).response.Some? && After(r, e).response.value.id == e.responseId
    ensures !e.Respond? ==> After(r, e).response == r.response
  {
  }

  lemma EventConsistent(d: Disk, id: string, e: Event)
    requires Consistent(d) && Fresh(d, DoEvent(id, e))
    ensures forall w | w in EventWrites(d, id, e) :: Consistent(w)
  {
    if id in d.requests && ChangeOf(d.requests[id], e).Changed? {
      var r := After(d.requests[id], e);
      EventKeepsSound(d.requests[id], e);
      EventKeepsTwinless(d, id, e);
      ResponseOf(d.requests[id], e);
      if e.Respond? {
        FiledConsistent(d, id, r, r.response.value);
      } else {
        ReplacedConsistent(d, d.(requests := d.requests[id := r]), id, r);
      }
    }
  }

  /** Consistency holds at every point a crash can leave the files. */
  lemma StoreOpConsistent(d: Disk, op: StoreOp, done: nat)
    requires Consistent(d) && Fresh(d, op)
    ensures Consistent(CutDisk(d, StoreWrites(d, op), done))
  {
    match op {
      case DoCreate(input, id, correlation, now) => CreateConsistent(d, input, id, correlation, now);
      case DoEvent(id, e) => EventConsistent(d, id, e);
    }
    var writes := StoreWrites(d, op);
    if done > 0 && writes != [] { assert CutDisk(d, writes, done) in writes; }
  }

  /** A sequence of operations, each with the number of its writes that survive. */
  function RunStore(d: Disk, ops: seq<(StoreOp, nat)>): Disk
    decreases |ops|
  {
    if ops == [] then d
    else RunStore(CutDisk(d, StoreWrites(d, ops[0].0), ops[0].1), ops[1..])
  }

  predicate AllFresh(d: Disk, ops: seq<(StoreOp, nat)>)
    decreases |ops|
  {
    ops == [] ||
    (Fresh(d, ops[0].0) && AllFresh(CutDisk(d, StoreWrites(d, ops[0].0), ops[0].1), ops[1..]))
  }

  /** Over every sequence of operations with crashes and failed writes anywhere: each
      request is sound, no two open requests are twins, every answer is on file. */
  lemma {:induction false} StoreStaysConsistent(d: Disk, ops: seq<(StoreOp, nat)>)
    requires Consistent(d) && AllFresh(d, ops)
    ensures Consistent(RunStore(d, ops))
    decreases |ops|
  {
    if ops != [] {
      StoreOpConsistent(d, ops[0].0, ops[0].1);
      StoreStaysConsistent(CutDisk(d, StoreWrites(d, ops[0].0), ops[0].1), ops[1..]);
    }
  }

  // ----- Bulk recovery -----

  predicate Keyed(m: map<string, Request>) {
    forall id | id in m :: m[id].id == id
  }

  predicate Interrupted(r: Request) {
    r.resume.status == ResumeRunning
  }

  function RecoveredOne(r: Request, now: int): Request {
    After(r, Recover(now))
  }

  /** The request files after recovering the listed ones; `writable` says whose file
      can be written. */
  function RecoverEach(m: map<string, Request>, list: seq<Request>, writable: set<string>, now: int)
    : map<string, Request>
  {
    if list == [] then m
    else
      var r := list[|list| - 1];
      var m1 := RecoverEach(m, list[..|list| - 1], writable, now);
      if Interrupted(r) && r.id in writable then m1[r.id := RecoveredOne(r, now)] else m1
  }

  predicate Listed(m: map<string, Request>, list: seq<Request>) {
    forall r | r in list :: r.id in m && m[r.id] == r
  }

  predicate DistinctIds(list: seq<Request>) {
    forall i, j | 0 <= i < j < |list| :: list[i].id != list[j].id
  }

  lemma OrderedDistinct(m: map<string, Request>, list: seq<Request>)
    requires Ordered(list) && Listed(m, list)
    ensures DistinctIds(list)
  {
    forall i, j | 0 <= i < j < |list| ensures list[i].id != list[j].id {
      assert Before(list[i], list[j]);
      BeforeTotal(list[i], list[i]);
    }
  }

  predicate InList(list: seq<Request>, id: string) {
    exists r | r in list :: r.id == id
  }

  predicate Rewritten(r: Request, list: seq<Request>, writable: set<string>) {
    InList(list, r.id) && Interrupted(r) && r.id in writable
  }

  function Outcome(r: Request, list: seq<Request>, writable: set<string>, now: int): Request {
    if Rewritten(r, list, writable) then RecoveredOne(r, now) else r
  }

  lemma InListSnoc(front: seq<Request>, r: Request, id: string)
    ensures InList(front + [r], id) <==> InList(front, id) || id == r.id
  {
    if InList(front, id) {
      var x :| x in front && x.id == id;
      assert x in front + [r];
    }
    assert r in front + [r];
  }

  /** Exactly the listed, interrupted and writable requests are rewritten. */
  lemma {:induction false} RecoverEachMeans(
      m: map<string, Request>, list: seq<Request>, writable: set<string>, now: int)
    requires Listed(m, list) && Keyed(m)
    ensures RecoverEach(m, list, writable, now).Keys == m.Keys
    ensures forall id | id in m :: RecoverEach(m, list, writable, now)[id] == Outcome(m[id], list, writable, now)
  {
    if list != [] {
      var front, r := list[..|list| - 1], list[|list| - 1];
      assert list == front + [r];
      RecoverEachMeans(m, front, writable, now);
      forall id | id in m
        ensures RecoverEach(m, list, writable, now)[id] == Outcome(m[id], list, writable, now)
      {
        InListSnoc(front, r, id);
      }
    }
  }

  /** The ids of the requests recovery rewrites. */
  function RecoveredIds(list: seq<Request>, writable: set<string>): set<string> {
    if list == [] then {}
    else
      var r := list[|list| - 1];
      RecoveredIds(list[..|list| - 1], writable) + if Interrupted(r) && r.id in writable then {r.id} else {}
  }

  lemma {:induction false} RecoveredIdsMean(list: seq<Request>, writable: set<string>)
    ensures forall id | id in RecoveredIds(list, writable) :: exists i | 0 <= i < |list| :: list[i].id == id
    ensures forall i | 0 <= i < |list| && Interrupted(list[i]) && list[i].id in writable ::
      list[i].id in RecoveredIds(list, writable)
    ensures RecoveredIds(list, writable) <= writable
  {
    if list != [] {
      RecoveredIdsMean(list[..|list| - 1], writable);
    }
  }

  /** The running requests whose file could not be written, in order. */
  function UnwrittenIds(list: seq<Request>, writable: set<string>): seq<string> {
    if list == [] then []
    else
      var r := list[|list| - 1];
      UnwrittenIds(list[..|list| - 1], writable) + if Interrupted(r) && r.id !in writable then [r.id] else []
  }

  lemma UnwrittenStep(list: seq<Request>, writable: set<string>, k: nat)
    requires k < |list|
    ensures UnwrittenIds(list[..k + 1], writable) ==
      UnwrittenIds(list[..k], writable) + if Interrupted(list[k]) && list[k].id !in writable then [list[k].id] else []
  {
    assert list[..k + 1][..k] == list[..k];
  }

  /** Reported are exactly the running requests whose file could not be written; none of
      them is counted. */
  lemma {:induction false} UnwrittenIdsMean(list: seq<Request>, writable: set<string>)
    ensures forall id :: id in UnwrittenIds(list, writable) <==>
      exists r | r in list :: r.id == id && Interrupted(r) && id !in writable
    ensures forall id | id in UnwrittenIds(list, writable) :: id !in RecoveredIds(list, writable)
  {
    RecoveredIdsMean(list, writable);
    if list != [] {
      var n := |list| - 1;
      UnwrittenIdsMean(list[..n], writable);
      SplitLast(list);
    }
  }

  lemma RecoverEachStep(m: map<string, Request>, list: seq<Request>, writable: set<string>, now: int, k: nat)
    requires k < |list|
    ensures var m1 := RecoverEach(m, list[..k], writable, now);
      RecoverEach(m, list[..k + 1], writable, now) ==
      if Interrupted(list[k]) && list[k].id in writable then m1[list[k].id := RecoveredOne(list[k], now)] else m1
  {
    assert list[..k + 1][..k] == list[..k];
  }

  lemma RecoveredIdsStep(list: seq<Request>, writable: set<string>, k: nat)
    requires k < |list| && DistinctIds(list)
    ensures |RecoveredIds(list[..k + 1], writable)| == |RecoveredIds(list[..k], writable)|
      + if Interrupted(list[k]) && list[k].id in writable then 1 else 0
  {
    assert list[..k + 1][..k] == list[..k];
    RecoveredIdsMean(list[..k], writable);
    assert list[k].id !in RecoveredIds(list[..k], writable);
  }

  /** Recovery keeps the store consistent whichever files cannot be written. */
  lemma RecoveryConsistent(d: Disk, list: seq<Request>, writable: set<string>, now: int)
    requires Consistent(d) && Listed(d.requests, list) && Keyed(d.requests)
    ensures Consistent(d.(requests := RecoverEach(d.requests, list, writable, now)))
  {
    RecoverEachMeans(d.requests, list, writable, now);
    var w := d.(requests := RecoverEach(d.requests, list, writable, now));
    forall id | id in d.requests
      ensures w.requests[id].id == id && SoundRequest(w.requests[id])
      ensures SameIdentity(d.requests[id], w.requests[id])
      ensures w.requests[id].status == d.requests[id].status && w.requests[id].response == d.requests[id].response
    {
      EventSound(d.requests[id], Recover(now), d.requests[id].delivery.status != DeliveryNone);
      EventStable(d.requests[id], Recover(now));
    }
    forall i, j | i in w.requests && j in w.requests && i != j ensures !Twins(w.requests[i], w.requests[j]) {
      assert !Twins(d.requests[i], d.requests[j]);
    }
  }

  // ----- The store itself -----

  predicate Carries(m: map<string, Request>, id: string, token: string) {
    id in m && m[id].correlation == token
  }

  predicate Shared(m: map<string, Request>, token: string) {
    exists a, b | a in m && b in m :: a != b && Carries(m, a, token) && Carries(m, b, token)
  }

  predicate Unique(m: map<string, Request>, token: string) {
    !Shared(m, token) && exists a | a in m :: Carries(m, a, token)
  }

  datatype Reply = Ok(request: Request) | Err(error: StoreError)

  /** What the caller of a one-request operation receives. */
  function ReplyTo(r: Request, change: Change, writable: bool): Reply {
    match change
    case Changed(r1) => if writable then Ok(r1) else Err(WriteFailed)
    case Same => Ok(r)
    case Refused(e) => Err(e)
  }

  /** `writes` and `budget` count file writes: the first `budget` of an operation
      succeed. */
  class Store {
    var requests: map<string, Request>
    var responses: map<string, Response>

    constructor (d: Disk)
      ensures Contents() == d
    {
      requests, responses := d.requests, d.responses;
    }

    function Contents(): Disk
      reads this
    {
      Disk(requests, responses)
    }

    /** Every request satisfying `keep`, newest first. */
    method List(keep: Request -> bool) returns (out: seq<Request>)
      requires Keyed(requests)
      ensures Ordered(out) && Listed(requests, out)
      ensures forall id | id in requests && keep(requests[id]) :: InList(out, id)
      ensures forall r | r in out :: keep(r)
    {
      out := [];
      var todo := requests.Keys;
      while todo != {}
        invariant todo <= requests.Keys
        invariant Ordered(out) && Listed(requests, out)
        invariant forall r | r in out :: keep(r) && r.id !in todo
        invariant forall id | id in requests && keep(requests[id]) :: id in todo || InList(out, id)
        decreases todo
      {
        var id :| id in todo;
        todo := todo - {id};
        var r := requests[id];
        if keep(r) {
          InsertOrdered(out, r);
          InsertMembers(out, r);
          assert r in Insert(out, r);
          out := Insert(out, r);
        }
      }
    }

    method Create(input: CreateInput, id: string, correlation: string, now: int, budget: nat) returns (reply: Reply)
      requires Keyed(requests) && id !in requests
      modifies this
      ensures Contents() == CutDisk(old(Contents()), CreateWrites(old(Contents()), input, id, correlation, now), budget)
      ensures !ValidCreate(input) ==> reply == Err(Validation)
      ensures ValidCreate(input) && (exists i | i in old(requests) :: Duplicate(old(requests)[i], input)) ==>
        reply.Ok? && reply.request in old(requests).Values && Duplicate(reply.request, input)
      ensures ValidCreate(input) && !(exists i | i in old(requests) :: Duplicate(old(requests)[i], input)) ==>
        reply == if budget > 0 then Ok(NewRequest(input, id, correlation, now)) else Err(WriteFailed)
    {
      if !ValidCreate(input) { return Err(Validation); }
      var twins := List((r: Request) => Duplicate(r, input));
      if |twins| > 0 {
        assert twins[0].id in requests;
        return Ok(twins[0]);
      }
      assert forall i :: !InList(twins, i);
      if budget == 0 { return Err(WriteFailed); }
      requests := requests[id := NewRequest(input, id, correlation, now)];
      return Ok(NewRequest(input, id, correlation, now));
    }

    method RecordDelivery(id: string, attempt: DeliveryAttempt, now: int, budget: nat) returns (reply: Reply)
      modifies this
      ensures Contents() == CutDisk(old(Contents()), EventWrites(old(Contents()), id, Deliver(attempt, now)), budget)
      ensures reply == if id !in old(requests) then Err(NotFound)
        else ReplyTo(old(requests)[id], Delivered(old(requests)[id], attempt, now), budget > 0)
    {
      if id !in requests { return Err(NotFound); }
      var rec := new RequestRecord(requests[id]);
      var err := rec.ApplyDeliveryAttempt(attempt, now);
      if err.Some? { return Err(err.value); }
      if budget == 0 { return Err(WriteFailed); }
      requests := requests[id := rec.Data()];
      return Ok(rec.Data());
    }

    method FailDelivery(id: string, attempt: DeliveryAttempt, now: int, budget: nat) returns (reply: Reply)
      modifies this
      ensures Contents() == CutDisk(old(Contents()), EventWrites(old(Contents()), id, Abandon(attempt, now)), budget)
      ensures reply == if id !in old(requests) then Err(NotFound)
        else ReplyTo(old(requests)[id], DeliveryAbandoned(old(requests)[id], attempt, now), budget > 0)
    {
      if id !in requests { return Err(NotFound); }
      var rec := new RequestRecord(requests[id]);
      var err := rec.ApplyTerminalDeliveryFailure(attempt, now);
      if err.Some? { return Err(err.value); }
      if budget == 0 { return Err(WriteFailed); }
      requests := requests[id := rec.Data()];
      return Ok(rec.Data());
    }

    /** `Resolve` without an envelope, `ResolveExact` with one. */
    method Resolve(id: string, input: ResolveInput, exact: Option<Envelope>, responseId: string, now: int, budget: nat)
      returns (reply: Reply)
      modifies this
      ensures Contents() == CutDisk(old(Contents()),
                EventWrites(old(Contents()), id, Respond(input, exact, responseId, now)), budget)
      ensures reply == if id !in old(requests) then Err(NotFound)
        else ReplyTo(old(requests)[id], Answered(old(requests)[id], input, exact, responseId, now), budget > 1)
    {
      if id !in requests { return Err(NotFound); }
      var rec := new RequestRecord(requests[id]);
      var changed, err := rec.ApplyResponse(input, exact, responseId, now);
      if err.Some? { return Err(err.value); }
      if !changed { return Ok(rec.Data()); }
      if budget == 0 { return Err(WriteFailed); }
      responses := responses[responseId := rec.response.value];
      if budget == 1 { return Err(WriteFailed); }
      requests := requests[id := rec.Data()];
      return Ok(rec.Data());
    }

    method ClaimResume(id: string, now: int, budget: nat) returns (claimed: bool, reply: Reply)
      modifies this
      ensures Contents() == CutDisk(old(Contents()), EventWrites(old(Contents()), id, Claim(now)), budget)
      ensures reply == if id !in old(requests) then Err(NotFound)
        else ReplyTo(old(requests)[id], Claimed(old(requests)[id], now), budget > 0)
      ensures claimed <==> id in old(requests) && Claimed(old(requests)[id], now).Changed? && budget > 0
    {
      if id !in requests { return false, Err(NotFound); }
      var rec := new RequestRecord(requests[id]);
      var err;
      claimed, err := rec.ApplyResumeClaim(now);
      if err.Some? { return false, Err(err.value); }
      if !claimed { return false, Ok(rec.Data()); }
      if budget == 0 { return false, Err(WriteFailed); }
      requests := requests[id := rec.Data()];
      return true, Ok(rec.Data());
    }

    /** `CompleteResume` for an empty failure, `FailResume` otherwise. */
    method FinishResume(id: string, failure: string, now: int, budget: nat) returns (reply: Reply)
      modifies this
      ensures Contents() == CutDisk(old(Contents()), EventWrites(old(Contents()), id, Finish(failure, now)), budget)
      ensures reply == if id !in old(requests) then Err(NotFound)
        else ReplyTo(old(requests)[id], Finished(old(requests)[id], failure, now), budget > 0)
    {
      if id !in requests { return Err(NotFound); }
      var rec := new RequestRecord(requests[id]);
      var changed, err := rec.ApplyResumeFinish(failure, now);
      if err.Some? { return Err(err.value); }
      if !changed { return Ok(rec.Data()); }
      if budget == 0 { return Err(WriteFailed); }
      requests := requests[id := rec.Data()];
      return Ok(rec.Data());
    }

    /** `ListResumable`: answered requests whose resume work is pending or failed. */
    method ListResumable() returns (out: seq<Request>)
      requires Keyed(requests)
      ensures Ordered(out) && Listed(requests, out)
      ensures forall id | id in requests :: InList(out, id) <==>
        requests[id].status == Resolved && requests[id].resume.status in {ResumePending, ResumeFailed}
    {
      out := List((r: Request) =>
        r.status == Resolved && (r.resume.status == ResumePending || r.resume.status == ResumeFailed));
      forall id | id in requests && InList(out, id)
        ensures requests[id].status == Resolved && requests[id].resume.status in {ResumePending, ResumeFailed}
      {
        var r :| r in out && r.id == id;
      }
    }

    /** `FindByCorrelation`: the one request carrying the token, if it is the only one. */
    method FindByCorrelation(token: string) returns (reply: Reply)
      requires Keyed(requests)
      ensures reply.Ok? ==> reply.request.id in requests && requests[reply.request.id] == reply.request
      ensures reply.Ok? <==> token != "" && Unique(requests, token)
      ensures reply.Ok? ==> reply.request.correlation == token
      ensures reply == Err(Conflict) <==> token != "" && Shared(requests, token)
    {
      if token == "" { return Err(Validation); }
      var all := List((r: Request) => true);
      OrderedDistinct(requests, all);
      var matched := -1;
      for i := 0 to |all|
        invariant -1 <= matched < i
        invariant matched >= 0 ==> all[matched].correlation == token
        invariant forall j | 0 <= j < i && all[j].correlation == token :: j == matched
      {
        if all[i].correlation == token {
          if matched >= 0 {
            var a, b := all[matched].id, all[i].id;
            assert Carries(requests, a, token) && Carries(requests, b, token);
            return Err(Conflict);
          }
          matched := i;
        }
      }
      forall id | Carries(requests, id, token)
        ensures matched >= 0 && id == all[matched].id
      {
        assert InList(all, id);
        var r :| r in all && r.id == id;
        var j :| 0 <= j < |all| && all[j] == r;
        assert all[j].correlation == token;
      }
      if matched < 0 { return Err(NotFound); }
      assert Carries(requests, all[matched].id, token);
      return Ok(all[matched]);
    }

    /** `recoverInterruptedRequests`: a failed write skips its request, a canceled
        context stops the loop after `upTo` requests. The count is exactly what was
        persisted; the returned error joins the requests that could not be written and the
        cancellation. */
    method RecoverListed(list: seq<Request>, now: int, writable: set<string>, upTo: nat)
      returns (count: nat, failures: seq<string>, canceled: bool)
      requires Listed(requests, list) && DistinctIds(list)
      modifies this
      ensures var seen := list[..Min(upTo, |list|)];
        && requests == RecoverEach(old(requests), seen, writable, now)
        && count == |RecoveredIds(seen, writable)|
        && failures == UnwrittenIds(seen, writable)
      ensures canceled <==> upTo < |list|
      ensures responses == old(responses)
    {
      count, failures, canceled := 0, [], false;
      assert RecoverEach(requests, list[..0], writable, now) == requests && RecoveredIds(list[..0], writable) == {};
      assert list[..|list|] == list;
      hide RecoverEach, RecoveredIds, Listed;
      for i := 0 to |list|
        invariant i <= upTo && !canceled
        invariant failures == UnwrittenIds(list[..i], writable)
        invariant responses == old(responses)
        invariant requests == RecoverEach(old(requests), list[..i], writable, now)
        invariant count == |RecoveredIds(list[..i], writable)|
      {
        if i == upTo {
          canceled := true;
          return;
        }
        RecoverEachStep(old(requests), list, writable, now, i);
        UnwrittenStep(list, writable, i);
        RecoveredIdsStep(list, writable, i);
        var recovered, failed := RecoverAndPersist(list[i], now, list[i].id in writable);
        if recovered { count := count + 1; }
        if failed { failures := failures + [list[i].id]; }
      }
    }

    /** The transition of one listed request and its write. */
    method RecoverAndPersist(r: Request, now: int, ok: bool) returns (recovered: bool, failed: bool)
      modifies this`requests
      ensures recovered == (Interrupted(r) && ok) && failed == (Interrupted(r) && !ok)
      ensures requests == if recovered then old(requests)[r.id := RecoveredOne(r, now)] else old(requests)
    {
      var rec := new RequestRecord(r);
      var changed := rec.RecoverInterruptedResume(now);
      if !changed { return false, false; }
      if !ok { return false, true; }
      requests := requests[r.id := rec.Data()];
      return true, false;
    }

    /** `RecoverInterruptedResumes`, run once at startup; `all` is what it looks at. */
    method RecoverInterruptedResumes(now: int, writable: set<string>, upTo: nat)
      returns (count: nat, failures: seq<string>, canceled: bool, ghost all: seq<Request>)
      requires Keyed(requests)
      modifies this
      ensures Listed(old(requests), all)
      ensures forall id | id in old(requests) && old(requests)[id].status == Resolved :: InList(all, id)
      ensures var seen := all[..Min(upTo, |all|)];
        && requests == RecoverEach(old(requests), seen, writable, now)
        && count == |RecoveredIds(seen, writable)|
        && failures == UnwrittenIds(seen, writable)
      ensures canceled <==> upTo < |all|
      ensures responses == old(responses)
    {
      var list := List((r: Request) => r.status == Resolved);
      all := list;
      OrderedDistinct(requests, list);
      count, failures, canceled := RecoverListed(list, now, writable, upTo);
    }
  }

  lemma InsertMembers(s: seq<Request>, r: Request)
    ensures forall x :: x in Insert(s, r) <==> x == r || x in s
  {
    forall x ensures x in Insert(s, r) <==> x == r || x in s {
      assert x in multiset(Insert(s, r)) <==> x in multiset(s) + multiset{r};
    }
  }

  lemma RecoveredStops(r: Request, now: int)
    ensures !Interrupted(RecoveredOne(r, now))
    ensures !Interrupted(r) ==> RecoveredOne(r, now) == r
  {
  }

  /** With every file writable and no cancellation, recovery leaves nothing running;
      whatever happens, requests that were not running, or whose file cannot be
      written, stay as they were. */
  lemma RecoveryComplete(m: map<string, Request>, list: seq<Request>, writable: set<string>, now: int)
    requires Listed(m, list) && Keyed(m)
    requires forall id | id in m && Interrupted(m[id]) :: m[id].status == Resolved
    requires forall id | id in m && m[id].status == Resolved :: InList(list, id)
    ensures var out := RecoverEach(m, list, writable, now);
      && out.Keys == m.Keys
      && (m.Keys <= writable ==> forall id | id in m :: !Interrupted(out[id]))
      && (forall id | id in m && (!Interrupted(m[id]) || id !in writable) :: out[id] == m[id])
  {
    RecoverEachMeans(m, list, writable, now);
    forall id | id in m
      ensures m.Keys <= writable ==> !Interrupted(RecoverEach(m, list, writable, now)[id])
    {
      RecoveredStops(m[id], now);
    }
  }
}
