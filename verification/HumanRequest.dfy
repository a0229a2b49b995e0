/** One human request: three coupled machines (request, delivery, resume) and an
    append-only audit log (humanrequest/types.go, store.go, interaction_store.go). */
module HumanRequest {
  import opened Common
  import opened Text

  datatype RequestStatus = Pending | Resolved | Failed

  datatype DeliveryStatus = DeliveryNone | DeliveryPending | DeliverySent | DeliveryFailed

  datatype Delivery = Delivery(
    status: DeliveryStatus,
    messageId: string,
    attempts: nat,
    lastError: string,
    lastAttempt: Option<int>,
    deliveredAt: Option<int>)

  /** `ResumeUnset` is the empty status of a zero `ResumeState`. */
  datatype ResumeStatus = ResumeUnset | ResumeWaiting | ResumePending | ResumeRunning | ResumeCompleted | ResumeFailed

  datatype ResumeState = ResumeState(
    status: ResumeStatus,
    attempts: nat,
    lastError: string,
    startedAt: Option<int>,
    completedAt: Option<int>)

  datatype ResponderType = CurrentSender | Owner

  datatype Responder = Responder(typ: ResponderType, entrypointId: string, senderId: string, senderIdType: string)

  datatype ResponseKind = Approve | Deny | Cancel | Answer

  datatype Response = Response(
    id: string,
    requestId: string,
    kind: ResponseKind,
    actor: string,
    actorIdType: string,
    entrypointId: string,
    deliveryMessageId: string,
    message: string,
    idempotencyKey: string,
    createdAt: int)

  datatype Action =
    | ActCreated | ActDeliveryFailed | ActDeliverySent | ActFailed | ActResolved
    | ActResumeStarted | ActResumeFailed | ActResumeCompleted | ActResumeRecovered

  datatype AuditRecord = AuditRecord(
    time: int,
    action: Action,
    actor: string,
    signal: Option<ResponseKind>,
    message: string)

  /** The persisted request: what one request file holds. */
  datatype Request = Request(
    id: string,
    runId: string,
    toolCallId: string,
    dedupeKey: string,
    source: string,
    flowRunId: string,
    responder: Responder,
    correlation: string,
    expiresAt: Option<int>,
    createdAt: int,
    status: RequestStatus,
    delivery: Delivery,
    resume: ResumeState,
    resolvedAt: Option<int>,
    response: Option<Response>,
    audit: seq<AuditRecord>)

  datatype StoreError = Validation | NotFound | Conflict | Expired | WriteFailed

  const NO_RESUME := ResumeState(ResumeUnset, 0, "", None, None)
  const WAITING := ResumeState(ResumeWaiting, 0, "", None, None)
  const INTERRUPTED := "resume interrupted before completion"

  function Note(time: int, action: Action, message: string): AuditRecord {
    AuditRecord(time, action, "", None, message)
  }

  // ----- Creation -----

  datatype CreateInput = CreateInput(
    runId: string,
    toolCallId: string,
    dedupeKey: string,
    source: string,
    flowRunId: string,
    responder: Responder,
    expiresAt: Option<int>,
    deliveryRequired: bool)

  predicate ValidCreate(input: CreateInput) {
    && !Blank(input.runId)
    && (input.responder.typ == Owner ==>
          input.responder.entrypointId != "" && input.responder.senderId != "" && input.responder.senderIdType != "")
  }

  function NewRequest(input: CreateInput, id: string, correlation: string, now: int): Request {
    Request(id, input.runId, input.toolCallId, input.dedupeKey, input.source, input.flowRunId,
            input.responder, correlation, input.expiresAt, now, Pending,
            Delivery(if input.deliveryRequired then DeliveryPending else DeliveryNone, "", 0, "", None, None),
            WAITING, None, None, [Note(now, ActCreated, "")])
  }

  // ----- The transition tables as functions -----

  /** The outcome of a transition: a changed request, nothing to do, or a refusal. */
  datatype Change = Changed(request: Request) | Same | Refused(error: StoreError)

  datatype DeliveryAttempt = DeliveryAttempt(messageId: string, error: string)

  function Delivered(r: Request, attempt: DeliveryAttempt, now: int): Change {
    if (attempt.messageId == "") == (attempt.error == "") then Refused(Validation)
    else if r.status != Pending then Refused(Conflict)
    else if r.delivery.status != DeliveryPending && r.delivery.status != DeliveryFailed then Refused(Conflict)
    else
      var d := r.delivery.(attempts := r.delivery.attempts + 1, lastAttempt := Some(now));
      if attempt.error != "" then
        Changed(r.(delivery := d.(status := DeliveryFailed, lastError := attempt.error),
                   audit := r.audit + [Note(now, ActDeliveryFailed, attempt.error)]))
      else
        Changed(r.(delivery := d.(status := DeliverySent, messageId := attempt.messageId, lastError := "",
                                  deliveredAt := Some(now)),
                   audit := r.audit + [Note(now, ActDeliverySent, "")]))
  }

  function DeliveryAbandoned(r: Request, attempt: DeliveryAttempt, now: int): Change {
    if r.status != Pending then Refused(Conflict)
    else if attempt.error == "" || attempt.messageId != "" then Refused(Validation)
    else match Delivered(r, attempt, now)
      case Changed(r1) =>
        Changed(r1.(status := Failed, resume := NO_RESUME, audit := r1.audit + [Note(now, ActFailed, attempt.error)]))
      case other => other
  }

  function Claimed(r: Request, now: int): Change {
    if r.status != Resolved || r.response.None? then Refused(Conflict)
    else match r.resume.status
      case ResumeRunning => Same
      case ResumeCompleted => Same
      case ResumeUnset => Refused(Conflict)
      case ResumeWaiting => Refused(Conflict)
      case _ =>
        Changed(r.(resume := ResumeState(ResumeRunning, r.resume.attempts + 1, "", Some(now), None),
                   audit := r.audit + [Note(now, ActResumeStarted, "")]))
  }

  /** `failure == ""` reports success. */
  function Finished(r: Request, failure: string, now: int): Change {
    if failure == "" && r.resume.status == ResumeCompleted then Same
    else if r.resume.status != ResumeRunning then Refused(Conflict)
    else if failure != "" then
      Changed(r.(resume := r.resume.(status := ResumeFailed, lastError := failure, completedAt := None),
                 audit := r.audit + [Note(now, ActResumeFailed, failure)]))
    else
      Changed(r.(resume := r.resume.(status := ResumeCompleted, lastError := "", completedAt := Some(now)),
                 audit := r.audit + [Note(now, ActResumeCompleted, "")]))
  }

  function Recovered(r: Request, now: int): Change {
    if r.resume.status != ResumeRunning then Same
    else
      Changed(r.(resume := r.resume.(status := ResumeFailed, lastError := INTERRUPTED, completedAt := None),
                 audit := r.audit + [Note(now, ActResumeRecovered, INTERRUPTED)]))
  }

  // ----- Responses -----

  datatype ResolveInput = ResolveInput(kind: ResponseKind, actor: string, message: string, idempotencyKey: string)

  /** The authority an exact response carries besides its content. */
  datatype Envelope = Envelope(
    correlation: string, entrypointId: string, senderIdType: string, deliveryMessageId: string)

  /** A non-empty persisted value must be matched; an empty one admits anything. */
  predicate Matches(persisted: string, given: string) {
    persisted == "" || given == persisted
  }

  predicate Authorized(r: Request, input: ResolveInput, exact: Envelope) {
    && exact.correlation != "" && exact.correlation == r.correlation
    && Matches(r.responder.entrypointId, exact.entrypointId)
    && Matches(r.responder.senderId, input.actor)
    && Matches(r.responder.senderIdType, exact.senderIdType)
    && Matches(r.delivery.messageId, exact.deliveryMessageId)
  }

  predicate ExpiredAt(r: Request, now: int) {
    r.expiresAt.Some? && now > r.expiresAt.value
  }

  function ExactError(r: Request, input: ResolveInput, exact: Envelope, now: int): Option<StoreError> {
    if !Authorized(r, input, exact) then Some(Conflict)
    else if ExpiredAt(r, now) then Some(Expired)
    else None
  }

  predicate SameRetry(existing: Option<Response>, input: ResolveInput, exact: Option<Envelope>) {
    && existing.Some?
    && input.idempotencyKey != ""
    && existing.value.idempotencyKey == input.idempotencyKey
    && existing.value.kind == input.kind
    && existing.value.actor == input.actor
    && existing.value.message == input.message
    && (exact.Some? ==>
          && existing.value.actorIdType == exact.value.senderIdType
          && existing.value.entrypointId == exact.value.entrypointId
          && existing.value.deliveryMessageId == exact.value.deliveryMessageId)
  }

  function NewResponse(r: Request, input: ResolveInput, exact: Option<Envelope>, responseId: string, now: int)
    : Response
  {
    Response(responseId, r.id, input.kind, input.actor,
             if exact.Some? then exact.value.senderIdType else "",
             if exact.Some? then exact.value.entrypointId else "",
             if exact.Some? then exact.value.deliveryMessageId else "",
             input.message, input.idempotencyKey, now)
  }

  function Answered(r: Request, input: ResolveInput, exact: Option<Envelope>, responseId: string, now: int): Change {
    if input.kind == Answer && Blank(input.message) then Refused(Validation)
    else if exact.Some? && ExactError(r, input, exact.value, now).Some? then
      Refused(ExactError(r, input, exact.value, now).value)
    else if r.status != Pending then
      if SameRetry(r.response, input, exact) then Same else Refused(Conflict)
    else
      Changed(r.(status := Resolved,
                 resolvedAt := Some(now),
                 response := Some(NewResponse(r, input, exact, responseId, now)),
                 resume := if r.resume.status == ResumeWaiting
                           then r.resume.(status := ResumePending, lastError := "") else r.resume,
                 audit := r.audit + [AuditRecord(now, ActResolved, input.actor, Some(input.kind), input.message)]))
  }

  // ----- The same transitions on a loaded request, in place -----

  class RequestRecord {
    const base: Request
    var status: RequestStatus
    var delivery: Delivery
    var resume: ResumeState
    var resolvedAt: Option<int>
    var response: Option<Response>
    var audit: seq<AuditRecord>

    constructor (r: Request)
      ensures Data() == r
    {
      base := r;
      status, delivery, resume := r.status, r.delivery, r.resume;
      resolvedAt, response, audit := r.resolvedAt, r.response, r.audit;
    }

    function Data(): Request
      reads this
    {
      base.(status := status, delivery := delivery, resume := resume,
            resolvedAt := resolvedAt, response := response, audit := audit)
    }

    method ApplyDeliveryAttempt(attempt: DeliveryAttempt, now: int) returns (err: Option<StoreError>)
      modifies this
      ensures match Delivered(old(Data()), attempt, now)
        case Changed(r) => err == None && Data() == r
        case Refused(e) => err == Some(e) && Data() == old(Data())
        case Same => false
    {
      if (attempt.messageId == "") == (attempt.error == "") { return Some(Validation); }
      if status != Pending { return Some(Conflict); }
      if delivery.status != DeliveryPending && delivery.status != DeliveryFailed { return Some(Conflict); }
      delivery := delivery.(attempts := delivery.attempts + 1, lastAttempt := Some(now));
      if attempt.error != "" {
        delivery := delivery.(status := DeliveryFailed, lastError := attempt.error);
        audit := audit + [Note(now, ActDeliveryFailed, attempt.error)];
        return None;
      }
      delivery := delivery.(status := DeliverySent, messageId := attempt.messageId, lastError := "",
                            deliveredAt := Some(now));
      audit := audit + [Note(now, ActDeliverySent, "")];
      return None;
    }

    method ApplyTerminalDeliveryFailure(attempt: DeliveryAttempt, now: int) returns (err: Option<StoreError>)
      modifies this
      ensures match DeliveryAbandoned(old(Data()), attempt, now)
        case Changed(r) => err == None && Data() == r
        case Refused(e) => err == Some(e) && Data() == old(Data())
        case Same => false
    {
      if status != Pending { return Some(Conflict); }
      if attempt.error == "" || attempt.messageId != "" { return Some(Validation); }
      err := ApplyDeliveryAttempt(attempt, now);
      if err.Some? { return; }
      status := Failed;
      resume := NO_RESUME;
      audit := audit + [Note(now, ActFailed, attempt.error)];
    }

    method ApplyResumeClaim(now: int) returns (claimed: bool, err: Option<StoreError>)
      modifies this
      ensures match Claimed(old(Data()), now)
        case Changed(r) => claimed && err == None && Data() == r
        case Same => !claimed && err == None && Data() == old(Data())
        case Refused(e) => !claimed && err == Some(e) && Data() == old(Data())
    {
      if status != Resolved || response.None? { return false, Some(Conflict); }
      match resume.status {
        case ResumePending =>
        case ResumeFailed =>
        case ResumeRunning => return false, None;
        case ResumeCompleted => return false, None;
        case _ => return false, Some(Conflict);
      }
      resume := resume.(status := ResumeRunning, attempts := resume.attempts + 1,
                        startedAt := Some(now), completedAt := None, lastError := "");
      audit := audit + [Note(now, ActResumeStarted, "")];
      return true, None;
    }

    method ApplyResumeFinish(failure: string, now: int) returns (changed: bool, err: Option<StoreError>)
      modifies this
      ensures match Finished(old(Data()), failure, now)
        case Changed(r) => changed && err == None && Data() == r
        case Same => !changed && err == None && Data() == old(Data())
        case Refused(e) => !changed && err == Some(e) && Data() == old(Data())
    {
      if failure == "" && resume.status == ResumeCompleted { return false, None; }
      if resume.status != ResumeRunning { return false, Some(Conflict); }
      if failure != "" {
        resume := resume.(status := ResumeFailed, lastError := failure, completedAt := None);
        audit := audit + [Note(now, ActResumeFailed, failure)];
        return true, None;
      }
      resume := resume.(status := ResumeCompleted, lastError := "", completedAt := Some(now));
      audit := audit + [Note(now, ActResumeCompleted, "")];
      return true, None;
    }

    method RecoverInterruptedResume(now: int) returns (changed: bool)
      modifies this
      ensures match Recovered(old(Data()), now)
        case Changed(r) => changed && Data() == r
        case _ => !changed && Data() == old(Data())
    {
      if resume.status != ResumeRunning { return false; }
      resume := resume.(status := ResumeFailed, lastError := INTERRUPTED, completedAt := None);
      audit := audit + [Note(now, ActResumeRecovered, INTERRUPTED)];
      return true;
    }

    /** The part of `resolve` between the load and the two writes. */
    method ApplyResponse(input: ResolveInput, exact: Option<Envelope>, responseId: string, now: int)
      returns (changed: bool, err: Option<StoreError>)
      modifies this
      ensures match Answered(old(Data()), input, exact, responseId, now)
        case Changed(r) => changed && err == None && Data() == r
        case Same => !changed && err == None && Data() == old(Data())
        case Refused(e) => !changed && err == Some(e) && Data() == old(Data())
    {
      if input.kind == Answer && Blank(input.message) { return false, Some(Validation); }
      if exact.Some? {
        err := ExactError(Data(), input, exact.value, now);
        if err.Some? { return false, err; }
      }
      if status != Pending {
        if SameRetry(response, input, exact) { return false, None; }
        return false, Some(Conflict);
      }
      response := Some(NewResponse(Data(), input, exact, responseId, now));
      status := Resolved;
      resolvedAt := Some(now);
      if resume.status == ResumeWaiting {
        resume := resume.(status := ResumePending, lastError := "");
      }
      audit := audit + [AuditRecord(now, ActResolved, input.actor, Some(input.kind), input.message)];
      return true, None;
    }
  }
}
