/** What every history of one human request keeps. */
module HumanRequestHistory {
  import opened Common
  import opened HumanRequest
  import opened Text

  // ----- Events on one request -----

  datatype Event =
    | Deliver(attempt: DeliveryAttempt, now: int)
    | Abandon(attempt: DeliveryAttempt, now: int)
    | Respond(input: ResolveInput, exact: Option<Envelope>, responseId: string, now: int)
    | Claim(now: int)
    | Finish(failure: string, now: int)
    | Recover(now: int)

  function ChangeOf(r: Request, e: Event): Change {
    match e
    case Deliver(attempt, now) => Delivered(r, attempt, now)
    case Abandon(attempt, now) => DeliveryAbandoned(r, attempt, now)
    case Respond(input, exact, responseId, now) => Answered(r, input, exact, responseId, now)
    case Claim(now) => Claimed(r, now)
    case Finish(failure, now) => Finished(r, failure, now)
    case Recover(now) => Recovered(r, now)
  }

  function After(r: Request, e: Event): Request {
    match ChangeOf(r, e)
    case Changed(r1) => r1
    case _ => r
  }

  function AfterAll(r: Request, events: seq<Event>): Request
    decreases |events|
  {
    if events == [] then r else AfterAll(After(r, events[0]), events[1..])
  }

  // ----- Lifecycle -----

  predicate Lifecycle(r: Request) {
    && (r.status == Resolved <==> r.response.Some?)
    && match r.status
       case Pending => r.resume == WAITING && r.resolvedAt.None?
       case Resolved => r.resume.status in {ResumePending, ResumeRunning, ResumeCompleted, ResumeFailed}
       case Failed => r.delivery.status == DeliveryFailed && r.resume == NO_RESUME
  }

  // ----- The audit log read back -----

  datatype ReplayedAnswer = ReplayedAnswer(kind: ResponseKind, actor: string, message: string, time: int)

  /** Everything the log determines about a request. */
  datatype History = History(
    status: RequestStatus,
    delivery: DeliveryStatus,
    deliveryAttempts: nat,
    deliveryError: string,
    lastAttempt: Option<int>,
    resume: ResumeStatus,
    resumeAttempts: nat,
    resumeError: string,
    resumeStarted: Option<int>,
    resumeEnded: Option<int>,
    answer: Option<ReplayedAnswer>,
    answeredAt: Option<int>)

  function Observed(r: Request): History {
    History(r.status, r.delivery.status, r.delivery.attempts, r.delivery.lastError, r.delivery.lastAttempt,
            r.resume.status, r.resume.attempts, r.resume.lastError, r.resume.startedAt, r.resume.completedAt,
            match r.response
              case None => None
              case Some(a) => Some(ReplayedAnswer(a.kind, a.actor, a.message, a.createdAt)),
            r.resolvedAt)
  }

  function Replay(h: History, rec: AuditRecord, deliveryRequired: bool): History {
    match rec.action
    case ActCreated =>
      History(Pending, if deliveryRequired then DeliveryPending else DeliveryNone, 0, "", None,
              ResumeWaiting, 0, "", None, None, None, None)
    case ActDeliveryFailed =>
      h.(delivery := DeliveryFailed, deliveryAttempts := h.deliveryAttempts + 1, deliveryError := rec.message,
         lastAttempt := Some(rec.time))
    case ActDeliverySent =>
      h.(delivery := DeliverySent, deliveryAttempts := h.deliveryAttempts + 1, deliveryError := "",
         lastAttempt := Some(rec.time))
    case ActFailed =>
      h.(status := Failed, resume := ResumeUnset, resumeAttempts := 0, resumeError := "",
         resumeStarted := None, resumeEnded := None)
    case ActResolved =>
      h.(status := Resolved, resume := ResumePending, resumeError := "", answeredAt := Some(rec.time),
         answer := match rec.signal
                   case None => h.answer
                   case Some(kind) => Some(ReplayedAnswer(kind, rec.actor, rec.message, rec.time)))
    case ActResumeStarted =>
      h.(resume := ResumeRunning, resumeAttempts := h.resumeAttempts + 1, resumeError := "",
         resumeStarted := Some(rec.time), resumeEnded := None)
    case ActResumeFailed =>
      h.(resume := ResumeFailed, resumeError := rec.message, resumeEnded := None)
    case ActResumeCompleted =>
      h.(resume := ResumeCompleted, resumeError := "", resumeEnded := Some(rec.time))
    case ActResumeRecovered =>
      h.(resume := ResumeFailed, resumeError := rec.message, resumeEnded := None)
  }

  const BLANK_HISTORY := History(Pending, DeliveryNone, 0, "", None, ResumeUnset, 0, "", None, None, None, None)

  function Fold(audit: seq<AuditRecord>, deliveryRequired: bool): History {
    if audit == [] then BLANK_HISTORY
    else Replay(Fold(audit[..|audit| - 1], deliveryRequired), audit[|audit| - 1], deliveryRequired)
  }

  lemma FoldAppend(audit: seq<AuditRecord>, rec: AuditRecord, deliveryRequired: bool)
    ensures Fold(audit + [rec], deliveryRequired) == Replay(Fold(audit, deliveryRequired), rec, deliveryRequired)
  {
    assert (audit + [rec])[..|audit|] == audit;
  }

  predicate Faithful(r: Request, deliveryRequired: bool) {
    Fold(r.audit, deliveryRequired) == Observed(r)
  }

  // ----- Counting resume work -----

  function Occurrences(audit: seq<AuditRecord>, action: Action): nat {
    if audit == [] then 0
    else Occurrences(audit[..|audit| - 1], action) + if audit[|audit| - 1].action == action then 1 else 0
  }

  lemma OccurrencesAppend(audit: seq<AuditRecord>, rec: AuditRecord, action: Action)
    ensures Occurrences(audit + [rec], action) == Occurrences(audit, action) + if rec.action == action then 1 else 0
  {
    assert (audit + [rec])[..|audit|] == audit;
  }

  /** Started work is completed, failed, recovered or still held by one claimant. */
  predicate ClaimsBalance(r: Request) {
    && Occurrences(r.audit, ActResumeStarted)
       == Occurrences(r.audit, ActResumeCompleted) + Occurrences(r.audit, ActResumeFailed)
          + Occurrences(r.audit, ActResumeRecovered) + (if r.resume.status == ResumeRunning then 1 else 0)
    && Occurrences(r.audit, ActResumeCompleted) == (if r.resume.status == ResumeCompleted then 1 else 0)
  }

  // ----- One event -----

  predicate Sound(r: Request, deliveryRequired: bool) {
    Lifecycle(r) && Faithful(r, deliveryRequired) && ClaimsBalance(r)
  }

  lemma CreatedSound(input: CreateInput, id: string, correlation: string, now: int)
    ensures Sound(NewRequest(input, id, correlation, now), input.deliveryRequired)
  {
    var r := NewRequest(input, id, correlation, now);
    assert r.audit[..0] == [];
  }

  /** `r1` records one more line and agrees with replaying it. */
  lemma Recorded(r: Request, r1: Request, rec: AuditRecord, deliveryRequired: bool)
    requires Sound(r, deliveryRequired) && r1.audit == r.audit + [rec]
    requires Lifecycle(r1) && Observed(r1) == Replay(Observed(r), rec, deliveryRequired)
    requires rec.action in {ActCreated, ActDeliveryFailed, ActDeliverySent, ActFailed, ActResolved} ==>
      r.resume.status !in {ResumeRunning, ResumeCompleted} && r1.resume.status !in {ResumeRunning, ResumeCompleted}
    requires rec.action == ActResumeStarted ==>
      r.resume.status !in {ResumeRunning, ResumeCompleted} && r1.resume.status == ResumeRunning
    requires rec.action in {ActResumeFailed, ActResumeRecovered} ==>
      r.resume.status == ResumeRunning && r1.resume.status == ResumeFailed
    requires rec.action == ActResumeCompleted ==>
      r.resume.status == ResumeRunning && r1.resume.status == ResumeCompleted
    ensures Sound(r1, deliveryRequired)
  {
    FoldAppend(r.audit, rec, deliveryRequired);
    OccurrencesAppend(r.audit, rec, ActResumeStarted);
    OccurrencesAppend(r.audit, rec, ActResumeFailed);
    OccurrencesAppend(r.audit, rec, ActResumeRecovered);
    OccurrencesAppend(r.audit, rec, ActResumeCompleted);
  }

  lemma DeliveredSound(r: Request, attempt: DeliveryAttempt, now: int, required: bool)
    requires Sound(r, required) && Delivered(r, attempt, now).Changed?
    ensures Sound(Delivered(r, attempt, now).request, required)
  {
    var r1 := Delivered(r, attempt, now).request;
    Recorded(r, r1, r1.audit[|r.audit|], required);
  }

  lemma AbandonedSound(r: Request, attempt: DeliveryAttempt, now: int, required: bool)
    requires Sound(r, required) && DeliveryAbandoned(r, attempt, now).Changed?
    ensures Sound(DeliveryAbandoned(r, attempt, now).request, required)
  {
    DeliveredSound(r, attempt, now, required);
    var r1 := Delivered(r, attempt, now).request;
    Recorded(r1, DeliveryAbandoned(r, attempt, now).request, Note(now, ActFailed, attempt.error), required);
  }

  /** The request invariant survives every event, accepted or refused. */
  lemma EventSound(r: Request, e: Event, required: bool)
    requires Sound(r, required)
    ensures Sound(After(r, e), required)
  {
    if ChangeOf(r, e).Changed? {
      hide Sound;
      match e {
        case Deliver(attempt, now) => DeliveredSound(r, attempt, now, required);
        case Abandon(attempt, now) => AbandonedSound(r, attempt, now, required);
        case Respond(_, _, _, _) => AnsweredSound(r, e, required);
        case _ => ResumedSound(r, e, required);
      }
    }
  }

  lemma AnsweredSound(r: Request, e: Event, required: bool)
    requires Sound(r, required) && e.Respond? && ChangeOf(r, e).Changed?
    ensures Sound(After(r, e), required)
  {
    hide Fold, ClaimsBalance, ExactError;
    Recorded(r, After(r, e), After(r, e).audit[|r.audit|], required);
  }

  lemma ResumedSound(r: Request, e: Event, required: bool)
    requires Sound(r, required) && (e.Claim? || e.Finish? || e.Recover?) && ChangeOf(r, e).Changed?
    ensures Sound(After(r, e), required)
  {
    hide Fold, ClaimsBalance, Faithful;
    Recorded(r, After(r, e), After(r, e).audit[|r.audit|], required);
  }

  /** Lifecycle, faithful log and balanced claims after every history. */
  lemma {:induction false} HistorySound(r: Request, events: seq<Event>, required: bool)
    requires Sound(r, required)
    ensures Sound(AfterAll(r, events), required)
    decreases |events|
  {
    if events != [] {
      EventSound(r, events[0], required);
      HistorySound(After(r, events[0]), events[1..], required);
    }
  }

  // ----- What never changes -----

  /** The log only grows, and grows exactly when the request changes. */
  lemma LogAppendOnly(r: Request, e: Event)
    ensures r.audit <= After(r, e).audit
    ensures ChangeOf(r, e).Changed? <==> |r.audit| < |After(r, e).audit|
    ensures !ChangeOf(r, e).Changed? ==> After(r, e) == r
  {
  }

  predicate SameIdentity(a: Request, b: Request) {
    a.(status := b.status, delivery := b.delivery, resume := b.resume,
       resolvedAt := b.resolvedAt, response := b.response, audit := b.audit) == b
  }

  /** An exact answer agrees with every non-empty authority field on record. */
  predicate AnswerAuthorized(r: Request) {
    && r.response.Some?
    && Matches(r.responder.entrypointId, r.response.value.entrypointId)
    && Matches(r.responder.senderId, r.response.value.actor)
    && Matches(r.responder.senderIdType, r.response.value.actorIdType)
    && Matches(r.delivery.messageId, r.response.value.deliveryMessageId)
  }

  lemma EventStable(r: Request, e: Event)
    requires Lifecycle(r)
    ensures SameIdentity(r, After(r, e))
    ensures r.audit <= After(r, e).audit
    ensures r.response.Some? ==> After(r, e).response == r.response && After(r, e).delivery == r.delivery
    ensures r.status != Pending ==> After(r, e).status == r.status
    ensures After(r, e).delivery.status == DeliveryNone <==> r.delivery.status == DeliveryNone
    ensures r.resume.status == ResumeCompleted || r.status == Failed ==> After(r, e) == r
  {
  }

  /** First answer wins: a recorded answer, its authority and the delivery receipt stay;
      a completed or failed request is frozen; the log is never edited. */
  lemma {:induction false} HistoryStable(r: Request, events: seq<Event>, required: bool)
    requires Sound(r, required)
    ensures var last := AfterAll(r, events);
      && SameIdentity(r, last)
      && r.audit <= last.audit
      && (r.response.Some? ==> last.response == r.response && last.delivery == r.delivery)
      && (AnswerAuthorized(r) ==> AnswerAuthorized(last))
      && (r.resume.status == ResumeCompleted || r.status == Failed ==> last == r)
    decreases |events|
  {
    if events != [] {
      EventStable(r, events[0]);
      EventSound(r, events[0], required);
      HistoryStable(After(r, events[0]), events[1..], required);
    }
  }

  /** An accepted exact response, first or repeated, carries the recorded authority; a
      repeat and a refusal leave the request as it was. */
  lemma ExactResponseAuthorized(r: Request, input: ResolveInput, exact: Envelope, responseId: string, now: int)
    requires Lifecycle(r)
    requires !Answered(r, input, Some(exact), responseId, now).Refused?
    ensures AnswerAuthorized(After(r, Respond(input, Some(exact), responseId, now)))
    ensures exact.correlation == r.correlation && !ExpiredAt(r, now)
    ensures r.response.Some? ==> After(r, Respond(input, Some(exact), responseId, now)) == r
  {
  }

  /** Of the claims made since the last finish or recovery, one is granted. */
  lemma ClaimsExclude(r: Request, now: int, later: int)
    requires Claimed(r, now).Changed?
    ensures Claimed(Claimed(r, now).request, later) == Same
    ensures forall failure :: failure != "" ==>
      Finished(Claimed(r, now).request, failure, later).Changed?
    ensures Recovered(Claimed(r, now).request, later).Changed?
  {
  }

  /** The first answer wins for good: whatever happens afterwards, repeating it under its
      idempotency key changes nothing and is accepted (an exact one until the request
      expires), and no answer is ever recorded over it. */
  lemma FirstAnswerWins(r: Request, input: ResolveInput, exact: Option<Envelope>, responseId: string, now: int,
      events: seq<Event>, retryId: string, later: int, required: bool)
    requires Sound(r, required) && Answered(r, input, exact, responseId, now).Changed?
    ensures var last := AfterAll(After(r, Respond(input, exact, responseId, now)), events);
      && last.response == Some(NewResponse(r, input, exact, responseId, now))
      && (input.idempotencyKey != "" ==>
            Answered(last, input, exact, retryId, later) ==
            (if exact.Some? && ExpiredAt(r, later) then Refused(Expired) else Same))
      && forall other, envelope :: !Answered(last, other, envelope, retryId, later).Changed?
  {
    var e := Respond(input, exact, responseId, now);
    AnsweredAtOnce(r, input, exact, responseId, now);
    EventSound(r, e, required);
    hide Sound, After, AfterAll, Answered, AnswerAuthorized;
    HistorySound(After(r, e), events, required);
    HistoryStable(After(r, e), events, required);
    LaterAnswers(r, AfterAll(After(r, e), events), input, exact, responseId, now, retryId, later, required);
  }

  lemma AnsweredAtOnce(r: Request, input: ResolveInput, exact: Option<Envelope>, responseId: string, now: int)
    requires Answered(r, input, exact, responseId, now).Changed?
    ensures var r1 := After(r, Respond(input, exact, responseId, now));
      && SameIdentity(r, r1) && r1.delivery == r.delivery
      && r1.response == Some(NewResponse(r, input, exact, responseId, now))
    ensures exact.Some? ==> Authorized(r, input, exact.value)
    ensures !(input.kind == Answer && Blank(input.message))
  {
  }

  /** What a request that carries this answer says to later ones. */
  lemma LaterAnswers(r: Request, last: Request, input: ResolveInput, exact: Option<Envelope>, responseId: string,
      now: int, retryId: string, later: int, required: bool)
    requires Sound(last, required) && SameIdentity(r, last) && last.delivery == r.delivery
    requires last.response == Some(NewResponse(r, input, exact, responseId, now))
    requires exact.Some? ==> Authorized(r, input, exact.value)
    requires !(input.kind == Answer && Blank(input.message))
    ensures input.idempotencyKey != "" ==>
      Answered(last, input, exact, retryId, later) ==
      (if exact.Some? && ExpiredAt(r, later) then Refused(Expired) else Same)
    ensures forall other, envelope :: !Answered(last, other, envelope, retryId, later).Changed?
  {
    hide Faithful, ClaimsBalance;
  }
}
