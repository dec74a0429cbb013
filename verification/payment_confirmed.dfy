/** The `PaymentConfirmed` handler: inbox dedup, inbox record, idempotent
    job creation keyed by `OsId`, and the `ExecutionStarted` outbox event.
    Each step saves separately, so the steps are modelled in the order the
    handler runs them, with no unit of work around them. */
module PaymentConfirmed {
  import opened Common
  import opened Domain
  import opened Inbox
  import opened Outbox
  import opened Store

  datatype PaymentConfirmedEvent = PaymentConfirmedEvent(
    eventId: string,
    osId: string,
    paymentId: string,
    amount: real,
    status: string,
    correlationId: string)

  /** `FirstOrDefaultAsync(j => j.OsId == osId) != null`: some job, in any status. */
  predicate HasJobFor(jobs: seq<ExecutionJob>, osId: string) {
    exists k :: 0 <= k < |jobs| && jobs[k].osId == osId
  }

  /** The job the handler creates. */
  function NewJob(id: Guid, evt: PaymentConfirmedEvent, now: Instant): ExecutionJob {
    ExecutionJob(id, evt.osId, Queued, 1, None, now, None, None, evt.correlationId)
  }

  /** The `ExecutionStarted` payload: `{OsId, CorrelationId, JobId, Status, CreatedAt}`. */
  function StartedPayload(job: ExecutionJob): Payload {
    Object(NoProps.(
      osId := Some(Str(job.osId)),
      correlationId := Some(Str(job.correlationId)),
      jobId := Some(Str(GuidText(job.id))),
      status := Some(Str("Queued")),
      createdAt := Some(Str(NatText(job.createdAt)))))
  }

  /** What one call of `HandleAsync` does to the store. */
  function Handle(s: DbState, evt: PaymentConfirmedEvent, now: Instant): DbState {
    if IsDuplicate(s.inbox, evt.eventId) then s
    else
      var recorded := s.(
        inbox := s.inbox + [InboxEvent(s.nextGuid, evt.eventId, "PaymentConfirmed", now)],
        nextGuid := s.nextGuid + 1);
      if HasJobFor(recorded.jobs, evt.osId) then recorded
      else
        var job := NewJob(recorded.nextGuid, evt, now);
        var started := OutboxEvent(job.id + 1, "ExecutionStarted", StartedPayload(job), now, false, None);
        recorded.(jobs := recorded.jobs + [job], outbox := recorded.outbox + [started], nextGuid := job.id + 2)
  }

  /** `PaymentConfirmedHandler.HandleAsync`, step by step against the store. */
  method HandleAsync(db: ExecutionDb, evt: PaymentConfirmedEvent, now: Instant)
    requires db.Valid()
    modifies db
    ensures db.Valid()
    ensures db.State() == Handle(old(db.State()), evt, now)
  {
    if IsDuplicate(db.inbox, evt.eventId) {
      return;
    }
    var inboxId := db.NewGuid();
    db.AddInboxEvent(InboxEvent(inboxId, evt.eventId, "PaymentConfirmed", now));
    if HasJobFor(db.jobs, evt.osId) {
      return;
    }
    var jobId := db.NewGuid();
    var job := NewJob(jobId, evt, now);
    db.AddJob(job);
    var outboxId := db.NewGuid();
    db.AddOutboxEvent(OutboxEvent(outboxId, "ExecutionStarted", StartedPayload(job), now, false, None));
  }

  /** Every `OsId` has at most one job. */
  predicate OneJobPerOs(jobs: seq<ExecutionJob>) {
    forall i, j :: 0 <= i < j < |jobs| ==> jobs[i].osId != jobs[j].osId
  }

  /** A duplicate event id leaves inbox, jobs and outbox exactly as they were. */
  lemma DuplicateIsIgnored(s: DbState, evt: PaymentConfirmedEvent, now: Instant)
    requires IsDuplicate(s.inbox, evt.eventId)
    ensures Handle(s, evt, now) == s
  {
  }

  /** A new event id is recorded once, with type "PaymentConfirmed"; the job
      table and outbox change only when no job exists for the `OsId`, and
      then by exactly one job (Queued, attempt 1, created now, with the
      event's `OsId` and `CorrelationId` and no update, finish or error) and
      one unpublished `ExecutionStarted` row created now, carrying its
      `OsId`, `CorrelationId`, `JobId`, status and `CreatedAt`. */
  lemma NewEventEffects(s: DbState, evt: PaymentConfirmedEvent, now: Instant)
    requires !IsDuplicate(s.inbox, evt.eventId)
    ensures var r := Handle(s, evt, now);
      && |r.inbox| == |s.inbox| + 1 && r.inbox[..|s.inbox|] == s.inbox
      && r.inbox[|s.inbox|].eventId == evt.eventId
      && r.inbox[|s.inbox|].eventType == "PaymentConfirmed"
      && IsDuplicate(r.inbox, evt.eventId)
    ensures var r := Handle(s, evt, now);
      HasJobFor(s.jobs, evt.osId) ==> r.jobs == s.jobs && r.outbox == s.outbox
    ensures var r := Handle(s, evt, now);
      !HasJobFor(s.jobs, evt.osId) ==>
        && |r.jobs| == |s.jobs| + 1 && r.jobs[..|s.jobs|] == s.jobs
        && var job := r.jobs[|s.jobs|];
        && job == ExecutionJob(job.id, evt.osId, Queued, 1, None, now, None, None, evt.correlationId)
        && |r.outbox| == |s.outbox| + 1 && r.outbox[..|s.outbox|] == s.outbox
        && var started := r.outbox[|s.outbox|];
        && started.eventType == "ExecutionStarted" && !started.published
        && started.publishedAt.None? && started.createdAt == now
        && started.payload.Object?
        && started.payload.props.osId == Some(Str(evt.osId))
        && started.payload.props.correlationId == Some(Str(evt.correlationId))
        && started.payload.props.jobId == Some(Str(GuidText(job.id)))
        && started.payload.props.status == Some(Str(StatusName(job.status)))
        && started.payload.props.createdAt == Some(Str(NatText(job.createdAt)))
  {
    var recorded := InboxEvent(s.nextGuid, evt.eventId, "PaymentConfirmed", now);
    DuplicateAfterAdd(s.inbox, recorded, evt.eventId);
    assert (s.inbox + [recorded])[..|s.inbox|] == s.inbox;
  }

  /** Handling the same event twice has the effect of handling it once:
      no second job, no second outbox row, no second inbox row. */
  lemma Idempotent(s: DbState, evt: PaymentConfirmedEvent, now: Instant, later: Instant)
    ensures Handle(Handle(s, evt, now), evt, later) == Handle(s, evt, now)
  {
    if !IsDuplicate(s.inbox, evt.eventId) {
      NewEventEffects(s, evt, now);
    }
  }

  /** If every `OsId` had at most one job before the call, that still holds. */
  lemma {:induction false} KeepsOneJobPerOs(s: DbState, evt: PaymentConfirmedEvent, now: Instant)
    requires OneJobPerOs(s.jobs)
    ensures OneJobPerOs(Handle(s, evt, now).jobs)
  {
    var r := Handle(s, evt, now);
    if r.jobs != s.jobs {
      assert !HasJobFor(s.jobs, evt.osId);
      assert r.jobs == s.jobs + [r.jobs[|s.jobs|]] && r.jobs[|s.jobs|].osId == evt.osId;
      forall i, j | 0 <= i < j < |r.jobs| ensures r.jobs[i].osId != r.jobs[j].osId {
        if j == |s.jobs| {
          assert r.jobs[i] == s.jobs[i];
        } else {
          assert r.jobs[i] == s.jobs[i] && r.jobs[j] == s.jobs[j];
        }
      }
    }
  }

  /** The handler keeps the store's key invariant. */
  lemma KeepsWf(s: DbState, evt: PaymentConfirmedEvent, now: Instant)
    requires Wf(s)
    ensures Wf(Handle(s, evt, now))
  {
    var r := Handle(s, evt, now);
    if |r.outbox| != |s.outbox| {
      assert r.outbox == s.outbox + [r.outbox[|s.outbox|]];
      assert r.outbox[|s.outbox|].id == s.nextGuid + 2;
    }
  }
}
