/** The `OsCanceled` handler: inbox dedup, inbox record, lookup of the first
    non-terminal job for the `OsId`, its cancellation in place, and the
    `ExecutionCanceled` outbox event. Each step saves separately. */
module OsCanceled {
  import opened Common
  import opened Domain
  import opened Inbox
  import opened Outbox
  import opened Store

  datatype OsCanceledEvent = OsCanceledEvent(
    eventId: string,
    osId: string,
    reason: string,
    correlationId: string)

  /** The lookup predicate: same `OsId`, status not Finished, Failed or Canceled. */
  predicate Cancelable(job: ExecutionJob, osId: string) {
    job.osId == osId && !IsTerminal(job.status)
  }

  /** `FirstOrDefaultAsync(Cancelable)`: the position of the first match. */
  function FindCancelable(jobs: seq<ExecutionJob>, osId: string): (r: Option<nat>)
    ensures r.Some? ==> r.value < |jobs| && Cancelable(jobs[r.value], osId)
    ensures r.Some? ==> forall k :: 0 <= k < r.value ==> !Cancelable(jobs[k], osId)
    ensures r.None? ==> forall k :: 0 <= k < |jobs| ==> !Cancelable(jobs[k], osId)
  {
    if jobs == [] then None
    else if Cancelable(jobs[0], osId) then Some(0)
    else match FindCancelable(jobs[1..], osId)
      case None => None
      case Some(k) => Some(k + 1)
  }

  /** The job after cancellation. The error text is the handler's own
      Portuguese prefix followed by the reason. */
  function CanceledJob(job: ExecutionJob, evt: OsCanceledEvent, now: Instant): ExecutionJob {
    job.(status := Canceled, updatedAt := Some(now), lastError := Some("Cancelado: " + evt.reason))
  }

  /** The `ExecutionCanceled` payload: `{OsId, CorrelationId, JobId, Status,
      Reason, CanceledAt}`, ids taken from the event, `CanceledAt` from the
      job's new `UpdatedAt`. */
  function CanceledPayload(evt: OsCanceledEvent, job: ExecutionJob): Payload {
    Object(NoProps.(
      osId := Some(Str(evt.osId)),
      correlationId := Some(Str(evt.correlationId)),
      jobId := Some(Str(GuidText(job.id))),
      status := Some(Str("Canceled")),
      reason := Some(Str(evt.reason)),
      canceledAt := Some(if job.updatedAt.Some? then Str(NatText(job.updatedAt.value)) else Null)))
  }

  /** What one call of `HandleAsync` does to the store. */
  function Handle(s: DbState, evt: OsCanceledEvent, now: Instant): DbState {
    if IsDuplicate(s.inbox, evt.eventId) then s
    else
      var recorded := s.(
        inbox := s.inbox + [InboxEvent(s.nextGuid, evt.eventId, "OsCanceled", now)],
        nextGuid := s.nextGuid + 1);
      match FindCancelable(recorded.jobs, evt.osId)
      case None => recorded
      case Some(i) =>
        var job := CanceledJob(recorded.jobs[i], evt, now);
        var canceled := OutboxEvent(recorded.nextGuid, "ExecutionCanceled", CanceledPayload(evt, job), now, false, None);
        recorded.(jobs := recorded.jobs[i := job], outbox := recorded.outbox + [canceled], nextGuid := recorded.nextGuid + 1)
  }

  /** `OsCanceledHandler.HandleAsync`, step by step against the store. */
  method HandleAsync(db: ExecutionDb, evt: OsCanceledEvent, now: Instant)
    requires db.Valid()
    modifies db
    ensures db.Valid()
    ensures db.State() == Handle(old(db.State()), evt, now)
  {
    if IsDuplicate(db.inbox, evt.eventId) {
      return;
    }
    var inboxId := db.NewGuid();
    db.AddInboxEvent(InboxEvent(inboxId, evt.eventId, "OsCanceled", now));
    var found := FindCancelable(db.jobs, evt.osId);
    if found.None? {
      return;
    }
    var i := found.value;
    var job := CanceledJob(db.jobs[i], evt, now);
    db.SetJob(i, job);
    var outboxId := db.NewGuid();
    db.AddOutboxEvent(OutboxEvent(outboxId, "ExecutionCanceled", CanceledPayload(evt, job), now, false, None));
  }

  /** Every `OsId` has at most one job that is not terminal. */
  predicate OneActiveJobPerOs(jobs: seq<ExecutionJob>) {
    forall i, j :: 0 <= i < j < |jobs| && jobs[i].osId == jobs[j].osId ==>
      IsTerminal(jobs[i].status) || IsTerminal(jobs[j].status)
  }

  /** A duplicate event id writes nothing and leaves every job as it was. */
  lemma DuplicateIsIgnored(s: DbState, evt: OsCanceledEvent, now: Instant)
    requires IsDuplicate(s.inbox, evt.eventId)
    ensures Handle(s, evt, now) == s
  {
  }

  /** A new event id is recorded exactly once, with type "OsCanceled". */
  lemma RecordsInbox(s: DbState, evt: OsCanceledEvent, now: Instant)
    requires !IsDuplicate(s.inbox, evt.eventId)
    ensures var r := Handle(s, evt, now);
      && |r.inbox| == |s.inbox| + 1 && r.inbox[..|s.inbox|] == s.inbox
      && r.inbox[|s.inbox|].eventId == evt.eventId
      && r.inbox[|s.inbox|].eventType == "OsCanceled"
  {
    var recorded := InboxEvent(s.nextGuid, evt.eventId, "OsCanceled", now);
    assert (s.inbox + [recorded])[..|s.inbox|] == s.inbox;
  }

  /** With no cancelable job for the `OsId` (none exists, or every one is
      Finished, Failed or Canceled) no job changes and nothing is enqueued. */
  lemma NoTargetNoChange(s: DbState, evt: OsCanceledEvent, now: Instant)
    requires forall k :: 0 <= k < |s.jobs| ==> !Cancelable(s.jobs[k], evt.osId)
    ensures Handle(s, evt, now).jobs == s.jobs
    ensures Handle(s, evt, now).outbox == s.outbox
  {
  }

  /** The first cancelable job is the only one that changes: it becomes
      Canceled with `UpdatedAt = now` and `LastError = "Cancelado: " + Reason`,
      every other field kept, and exactly one unpublished `ExecutionCanceled`
      row is appended whose `OsId` and `CorrelationId` are the event's,
      whose `JobId` is that job's and whose `CanceledAt` is its new
      `UpdatedAt`. */
  lemma CancelsFirstTarget(s: DbState, evt: OsCanceledEvent, now: Instant, i: nat)
    requires !IsDuplicate(s.inbox, evt.eventId)
    requires i < |s.jobs| && Cancelable(s.jobs[i], evt.osId)
    requires forall k :: 0 <= k < i ==> !Cancelable(s.jobs[k], evt.osId)
    ensures var r := Handle(s, evt, now);
      && |r.jobs| == |s.jobs|
      && (forall k :: 0 <= k < |s.jobs| && k != i ==> r.jobs[k] == s.jobs[k])
      && r.jobs[i] == s.jobs[i].(status := Canceled, updatedAt := Some(now), lastError := Some("Cancelado: " + evt.reason))
    ensures var r := Handle(s, evt, now);
      && |r.outbox| == |s.outbox| + 1 && r.outbox[..|s.outbox|] == s.outbox
      && var canceled := r.outbox[|s.outbox|];
      && canceled.eventType == "ExecutionCanceled" && !canceled.published
      && canceled.payload.Object?
      && canceled.payload.props.osId == Some(Str(evt.osId))
      && canceled.payload.props.correlationId == Some(Str(evt.correlationId))
      && canceled.payload.props.jobId == Some(Str(GuidText(s.jobs[i].id)))
      && canceled.payload.props.status == Some(Str(StatusName(Canceled)))
      && canceled.payload.props.reason == Some(Str(evt.reason))
      && canceled.payload.props.canceledAt == Some(Str(NatText(r.jobs[i].updatedAt.value)))
  {
    var found := FindCancelable(s.jobs, evt.osId);
    assert found == Some(i);
    var job := CanceledJob(s.jobs[i], evt, now);
    var canceled := OutboxEvent(s.nextGuid + 1, "ExecutionCanceled", CanceledPayload(evt, job), now, false, None);
    assert Handle(s, evt, now).outbox == s.outbox + [canceled];
    assert (s.outbox + [canceled])[..|s.outbox|] == s.outbox;
  }

  /** Canceling the same event twice has the effect of canceling it once. */
  lemma Idempotent(s: DbState, evt: OsCanceledEvent, now: Instant, later: Instant)
    ensures Handle(Handle(s, evt, now), evt, later) == Handle(s, evt, now)
  {
    if !IsDuplicate(s.inbox, evt.eventId) {
      var recorded := InboxEvent(s.nextGuid, evt.eventId, "OsCanceled", now);
      DuplicateAfterAdd(s.inbox, recorded, evt.eventId);
    }
  }

  /** Cancellation never adds a non-terminal job, so at most one active job
      per `OsId` stays true; no `OsId` changes either. */
  lemma {:induction false} KeepsOneActiveJobPerOs(s: DbState, evt: OsCanceledEvent, now: Instant)
    requires OneActiveJobPerOs(s.jobs)
    ensures OneActiveJobPerOs(Handle(s, evt, now).jobs)
    ensures |Handle(s, evt, now).jobs| == |s.jobs|
    ensures forall k :: 0 <= k < |s.jobs| ==> Handle(s, evt, now).jobs[k].osId == s.jobs[k].osId
  {
    var r := Handle(s, evt, now);
    if r.jobs != s.jobs {
      var i := FindCancelable(s.jobs, evt.osId).value;
      assert r.jobs == s.jobs[i := CanceledJob(s.jobs[i], evt, now)];
      forall a, b | 0 <= a < b < |r.jobs| && r.jobs[a].osId == r.jobs[b].osId
        ensures IsTerminal(r.jobs[a].status) || IsTerminal(r.jobs[b].status)
      {
        if a != i && b != i {
          assert r.jobs[a] == s.jobs[a] && r.jobs[b] == s.jobs[b];
        }
      }
    }
  }

  /** The handler keeps the store's key invariant. */
  lemma KeepsWf(s: DbState, evt: OsCanceledEvent, now: Instant)
    requires Wf(s)
    ensures Wf(Handle(s, evt, now))
  {
    var r := Handle(s, evt, now);
    if |r.outbox| != |s.outbox| {
      assert r.outbox == s.outbox + [r.outbox[|s.outbox|]];
      assert r.outbox[|s.outbox|].id == s.nextGuid + 1;
    }
  }
}
