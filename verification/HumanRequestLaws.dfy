/** Exactly when each operation on a human request is accepted and what it records, field
    by field (humanrequest/store.go, interaction_store.go). */
module HumanRequestLaws {
  import opened Common
  import opened Text
  import opened HumanRequest
  import opened HumanRequestHistory
  import opened HumanRequestStore

  // ----- Answers -----

  /** Every authority field on record that is not empty is matched. */
  predicate Authority(r: Request, input: ResolveInput, exact: Envelope) {
    && exact.correlation != "" && exact.correlation == r.correlation
    && (r.responder.entrypointId != "" ==> exact.entrypointId == r.responder.entrypointId)
    && (r.responder.senderId != "" ==> input.actor == r.responder.senderId)
    && (r.responder.senderIdType != "" ==> exact.senderIdType == r.responder.senderIdType)
    && (r.delivery.messageId != "" ==> exact.deliveryMessageId == r.delivery.messageId)
  }

  /** The answer repeats the recorded one under its idempotency key. */
  predicate Repeats(r: Request, input: ResolveInput, exact: Option<Envelope>) {
    && r.response.Some?
    && var a := r.response.value;
      && input.idempotencyKey != "" && a.idempotencyKey == input.idempotencyKey
      && a.kind == input.kind && a.actor == input.actor && a.message == input.message
      && (exact.Some? ==>
            && a.actorIdType == exact.value.senderIdType
            && a.entrypointId == exact.value.entrypointId
            && a.deliveryMessageId == exact.value.deliveryMessageId)
  }

  predicate Admissible(r: Request, input: ResolveInput, exact: Option<Envelope>, now: int) {
    && (input.kind == Answer ==> !Blank(input.message))
    && (exact.Some? ==> Authority(r, input, exact.value) && (r.expiresAt.Some? ==> now <= r.expiresAt.value))
  }

  /** An answer is recorded exactly if it is admissible and the request is pending; an
      admissible repeat changes nothing; the rest is refused, and with which error. */
  lemma AnswerExactly(r: Request, input: ResolveInput, exact: Option<Envelope>, responseId: string, now: int)
    ensures var c := Answered(r, input, exact, responseId, now);
      && (c.Changed? <==> r.status == Pending && Admissible(r, input, exact, now))
      && (c.Same? <==> r.status != Pending && Admissible(r, input, exact, now) && Repeats(r, input, exact))
      && (c == Refused(Validation) <==> input.kind == Answer && Blank(input.message))
      && (c == Refused(Expired) <==>
            && (input.kind == Answer ==> !Blank(input.message))
            && exact.Some? && Authority(r, input, exact.value) && r.expiresAt.Some? && now > r.expiresAt.value)
      && (c.Refused? ==> c.error in {Validation, Expired, Conflict})
  {
  }

  /** What an accepted answer records: its own content, the envelope's authority, and the
      resume work now pending. Nothing else changes. */
  lemma AnswerRecorded(r: Request, input: ResolveInput, exact: Option<Envelope>, responseId: string, now: int)
    requires Lifecycle(r) && Answered(r, input, exact, responseId, now).Changed?
    ensures var r1 := Answered(r, input, exact, responseId, now).request;
      && r1 == r.(status := r1.status, resolvedAt := r1.resolvedAt, response := r1.response, resume := r1.resume,
                  audit := r1.audit)
      && r1.status == Resolved && r1.resolvedAt == Some(now)
      && r1.resume == ResumeState(ResumePending, 0, "", None, None)
      && r1.audit == r.audit + [AuditRecord(now, ActResolved, input.actor, Some(input.kind), input.message)]
      && r1.response.Some?
      && var a := r1.response.value;
        && a.id == responseId && a.requestId == r.id && a.createdAt == now
        && a.kind == input.kind && a.actor == input.actor && a.message == input.message
        && a.idempotencyKey == input.idempotencyKey
        && (exact.None? ==> a.actorIdType == "" && a.entrypointId == "" && a.deliveryMessageId == "")
        && (exact.Some? ==>
              && a.actorIdType == exact.value.senderIdType
              && a.entrypointId == exact.value.entrypointId
              && a.deliveryMessageId == exact.value.deliveryMessageId)
  {
  }

  // ----- Deliveries -----

  /** A delivery attempt names either the message it sent or why it failed, on a pending
      request whose delivery is still open. */
  predicate Deliverable(r: Request, attempt: DeliveryAttempt) {
    && (attempt.messageId == "") != (attempt.error == "")
    && r.status == Pending && (r.delivery.status == DeliveryPending || r.delivery.status == DeliveryFailed)
  }

  lemma DeliveryExactly(r: Request, attempt: DeliveryAttempt, now: int)
    ensures var c := Delivered(r, attempt, now);
      && (c.Changed? <==> Deliverable(r, attempt)) && !c.Same?
      && (c == Refused(Validation) <==> (attempt.messageId == "") == (attempt.error == ""))
      && (c.Refused? ==> c.error in {Validation, Conflict})
      && (c.Changed? ==>
            && c.request == r.(delivery := c.request.delivery, audit := c.request.audit)
            && var d := c.request.delivery;
              && d.attempts == r.delivery.attempts + 1 && d.lastAttempt == Some(now)
              && (attempt.messageId != "" ==>
                    && d.status == DeliverySent && d.messageId == attempt.messageId && d.lastError == ""
                    && d.deliveredAt == Some(now))
              && (attempt.error != "" ==>
                    && d.status == DeliveryFailed && d.lastError == attempt.error
                    && d.messageId == r.delivery.messageId && d.deliveredAt == r.delivery.deliveredAt))
  {
  }

  /** Giving up a delivery fails the request and takes its resume work away. */
  lemma AbandonExactly(r: Request, attempt: DeliveryAttempt, now: int)
    ensures var c := DeliveryAbandoned(r, attempt, now);
      && (c.Changed? <==> Deliverable(r, attempt) && attempt.error != "") && !c.Same?
      && (c.Changed? ==>
            && c.request == r.(status := Failed, delivery := c.request.delivery,
                               resume := ResumeState(ResumeUnset, 0, "", None, None), audit := c.request.audit)
            && c.request.delivery == Delivered(r, attempt, now).request.delivery
            && c.request.delivery.status == DeliveryFailed && c.request.delivery.lastError == attempt.error)
      && (c == Refused(Conflict) ==> r.status != Pending || r.delivery.status !in {DeliveryPending, DeliveryFailed})
      && (c == Refused(Validation) ==> attempt.error == "" || attempt.messageId != "")
  {
  }

  // ----- Resume work -----

  /** A claim is granted exactly to answered requests whose work is pending or failed; work
      under way or done is reported as such. */
  lemma ClaimExactly(r: Request, now: int)
    ensures var c := Claimed(r, now);
      && (c.Changed? <==> r.status == Resolved && r.response.Some? && r.resume.status in {ResumePending, ResumeFailed})
      && (c.Same? <==> r.status == Resolved && r.response.Some? && r.resume.status in {ResumeRunning, ResumeCompleted})
      && (c.Refused? ==> c.error == Conflict)
      && (c.Changed? ==>
            && c.request == r.(resume := c.request.resume, audit := c.request.audit)
            && c.request.resume == ResumeState(ResumeRunning, r.resume.attempts + 1, "", Some(now), None))
  {
  }

  lemma FinishExactly(r: Request, failure: string, now: int)
    ensures var c := Finished(r, failure, now);
      && (c.Changed? <==> r.resume.status == ResumeRunning)
      && (c.Same? <==> failure == "" && r.resume.status == ResumeCompleted)
      && (c.Refused? ==> c.error == Conflict)
      && (c.Changed? ==>
            && c.request == r.(resume := c.request.resume, audit := c.request.audit)
            && c.request.resume.attempts == r.resume.attempts && c.request.resume.startedAt == r.resume.startedAt
            && (failure == "" ==>
                  c.request.resume.status == ResumeCompleted && c.request.resume.lastError == ""
                  && c.request.resume.completedAt == Some(now))
            && (failure != "" ==>
                  c.request.resume.status == ResumeFailed && c.request.resume.lastError == failure
                  && c.request.resume.completedAt == None))
  {
  }

  lemma RecoverExactly(r: Request, now: int)
    ensures var c := Recovered(r, now);
      && (c.Changed? <==> r.resume.status == ResumeRunning) && !c.Refused?
      && (c.Changed? ==>
            && c.request == r.(resume := c.request.resume, audit := c.request.audit)
            && c.request.resume == r.resume.(status := ResumeFailed, completedAt := None,
                                             lastError := "resume interrupted before completion"))
  {
  }

  // ----- Creation -----

  /** What a created request holds: everything asked for, nothing answered yet. */
  lemma CreatedExactly(input: CreateInput, id: string, correlation: string, now: int)
    ensures var r := NewRequest(input, id, correlation, now);
      && r.id == id && r.correlation == correlation && r.createdAt == now
      && r.runId == input.runId && r.toolCallId == input.toolCallId && r.dedupeKey == input.dedupeKey
      && r.source == input.source && r.flowRunId == input.flowRunId
      && r.responder == input.responder && r.expiresAt == input.expiresAt
      && r.status == Pending && r.response == None && r.resolvedAt == None
      && r.resume == ResumeState(ResumeWaiting, 0, "", None, None)
      && r.delivery == Delivery(if input.deliveryRequired then DeliveryPending else DeliveryNone, "", 0, "", None, None)
      && r.audit == [AuditRecord(now, ActCreated, "", None, "")]
    ensures ValidCreate(input) <==>
      && !Blank(input.runId)
      && (input.responder.typ == Owner ==>
            input.responder.entrypointId != "" && input.responder.senderId != "" && input.responder.senderIdType != "")
  {
  }

  /** The same open work item: pending, with an equal and complete duplicate key. */
  predicate SameWork(r: Request, input: CreateInput) {
    && r.status == Pending && input.dedupeKey != "" && input.runId != "" && input.toolCallId != ""
    && r.runId == input.runId && r.toolCallId == input.toolCallId && r.dedupeKey == input.dedupeKey
  }

  /** A create writes exactly one new request, unless it is invalid or repeats open work. */
  lemma CreateStores(d: Disk, input: CreateInput, id: string, correlation: string, now: int, budget: nat)
    ensures var d1 := CutDisk(d, CreateWrites(d, input, id, correlation, now), budget);
      && d1.responses == d.responses
      && d1.requests ==
         if ValidCreate(input) && budget > 0 && !(exists i | i in d.requests :: SameWork(d.requests[i], input))
         then d.requests[id := NewRequest(input, id, correlation, now)] else d.requests
  {
    assert forall i | i in d.requests :: SameWork(d.requests[i], input) <==> Duplicate(d.requests[i], input);
    hide NewRequest, ValidCreate;
  }

  /** An event reaches the files exactly if it changes the request and its writes happen; an
      answer takes two, the response first. No other file changes. */
  lemma EventStores(d: Disk, id: string, e: Event, budget: nat)
    ensures var d1 := CutDisk(d, EventWrites(d, id, e), budget);
      var changes := id in d.requests && ChangeOf(d.requests[id], e).Changed?;
      && d1.requests ==
         (if changes && budget >= (if e.Respond? then 2 else 1)
          then d.requests[id := ChangeOf(d.requests[id], e).request] else d.requests)
      && d1.responses ==
         (if changes && e.Respond? && budget >= 1
          then d.responses[e.responseId := ChangeOf(d.requests[id], e).request.response.value] else d.responses)
  {
    if id in d.requests && ChangeOf(d.requests[id], e).Changed? { ResponseOf(d.requests[id], e); }
    hide ChangeOf;
  }

  // ----- Listing -----

  /** Newest first; requests of the same time by id. */
  lemma NewestFirst(s: seq<Request>, i: nat, j: nat)
    requires Ordered(s) && i < j < |s|
    ensures s[i].createdAt >= s[j].createdAt
    ensures s[i].createdAt == s[j].createdAt ==> Less(s[i].id, s[j].id)
  {
    assert Before(s[i], s[j]);
  }
}
