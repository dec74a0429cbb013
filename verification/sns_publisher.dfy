/** The outbox publisher: one pass over the unpublished events, in list
    order, publishing each to the output topic and marking it published only
    after the publish call has returned. The polling loop, its delay and the
    pass-level catch are outside the model; the topic client is a failure
    oracle `fails`, the set of outbox ids whose publish call throws. */
module Publisher {
  import opened Common
  import opened Domain
  import opened Outbox
  import opened Store
  import PaymentConfirmed
  import OsCanceled
  import ExecutionWorker

  /** The placeholder for an id the payload does not supply. */
  const Unknown := "unknown"

  /** The ids written to the log line for one event. */
  datatype LogIds = LogIds(correlationId: string, entityId: string)

  /** The value a log id takes from one property read: the string itself,
      or "unknown" for JSON null. */
  function LogText(read: StringRead): string
    requires read.Got?
  {
    read.s.GetOr(Unknown)
  }

  /** The ids extracted from a payload for logging. A payload that does not
      parse as an object leaves both "unknown". `CorrelationId` is read
      first; JSON null gives "unknown", and if reading it throws, the
      extraction stops with both still "unknown". The entity id is `OsId` when present, otherwise (only on the
      success path, `jobIdFallback`) `JobId`; if that read throws, the
      entity id stays "unknown". */
  function ExtractLogIds(payload: Payload, jobIdFallback: bool): (r: LogIds)
    ensures payload.Unparseable? ==> r == LogIds(Unknown, Unknown)
    ensures r.correlationId
      == if payload.Object? && payload.props.correlationId.Some? && payload.props.correlationId.value.Str?
         then payload.props.correlationId.value.s else Unknown
    ensures payload.Object? && payload.props.correlationId.Some?
            && !(payload.props.correlationId.value.Str? || payload.props.correlationId.value.Null?)
      ==> r == LogIds(Unknown, Unknown)
    ensures payload.Object? && (payload.props.correlationId.None?
                                || payload.props.correlationId.value.Str? || payload.props.correlationId.value.Null?)
      ==> r.entityId
          == if payload.props.osId.Some?
             then (if payload.props.osId.value.Str? then payload.props.osId.value.s else Unknown)
             else if jobIdFallback && payload.props.jobId.Some? && payload.props.jobId.value.Str?
             then payload.props.jobId.value.s else Unknown
  {
    match payload
    case Unparseable(_) => LogIds(Unknown, Unknown)
    case Object(p) =>
      var corr := if p.correlationId.Some? then GetString(p.correlationId.value) else Got(Some(Unknown));
      if corr.Threw? then LogIds(Unknown, Unknown)
      else
        var entity :=
          if p.osId.Some? then GetString(p.osId.value)
          else if jobIdFallback && p.jobId.Some? then GetString(p.jobId.value)
          else Got(None);
        LogIds(LogText(corr), if entity.Threw? then Unknown else LogText(entity))
  }

  /** The publish request built for one outbox row: the stored payload as
      the message body, and the `EventType`, `EventId`, `CorrelationId` and
      `PublishedAt` attributes. */
  datatype PublishRequest = PublishRequest(
    topicArn: string,
    message: Payload,
    eventType: string,
    eventId: string,
    correlationId: string,
    publishedAt: Instant)

  function Request(e: OutboxEvent, topic: string, now: Instant): (r: PublishRequest)
    ensures r.topicArn == topic && r.message == e.payload && r.eventType == e.eventType && r.publishedAt == now
    ensures r.eventId == GuidText(e.id)
    ensures r.correlationId
      == if e.payload.Object? && e.payload.props.correlationId.Some? && e.payload.props.correlationId.value.Str?
         then e.payload.props.correlationId.value.s else Unknown
  {
    PublishRequest(topic, e.payload, e.eventType, GuidText(e.id), ExtractLogIds(e.payload, true).correlationId, now)
  }

  /** What one `PublishEventAsync` call reports: the request sent and the
      success log ids, or the error log ids. */
  datatype Outcome = Published(request: PublishRequest, ids: LogIds) | Errored(ids: LogIds)

  /** `PublishEventAsync`: build the request, publish it, then mark the row.
      A publish that throws is caught, and the row is left unpublished. */
  method PublishEventAsync(db: ExecutionDb, e: OutboxEvent, topic: string, now: Instant, fails: set<Guid>)
    returns (outcome: Outcome)
    requires db.Valid()
    modifies db`outbox
    ensures db.Valid()
    ensures e.id !in fails ==>
      && outcome == Published(Request(e, topic, now), ExtractLogIds(e.payload, true))
      && db.outbox == MarkPublished(old(db.outbox), e.id, now)
    ensures e.id in fails ==>
      && outcome == Errored(ExtractLogIds(e.payload, false))
      && db.outbox == old(db.outbox)
  {
    var ids := ExtractLogIds(e.payload, true);
    var request := PublishRequest(topic, e.payload, e.eventType, GuidText(e.id), ids.correlationId, now);
    if e.id in fails {
      outcome := Errored(ExtractLogIds(e.payload, false));
      return;
    }
    db.MarkAsPublished(e.id, now);
    outcome := Published(request, ids);
  }

  /** The outbox after the first `i` events of `pending` were attempted:
      each one whose publish succeeded is marked, in list order. */
  function MarkedUpTo(rows: seq<OutboxEvent>, pending: seq<OutboxEvent>, i: nat, fails: set<Guid>, now: Instant): seq<OutboxEvent>
    requires i <= |pending|
  {
    if i == 0 then rows
    else
      var prev := MarkedUpTo(rows, pending, i - 1, fails, now);
      if pending[i - 1].id in fails then prev else MarkPublished(prev, pending[i - 1].id, now)
  }

  /** The requests sent for the first `i` events of `pending`, in list order. */
  function SentUpTo(pending: seq<OutboxEvent>, i: nat, fails: set<Guid>, topic: string, now: Instant): seq<PublishRequest>
    requires i <= |pending|
  {
    if i == 0 then []
    else
      var prev := SentUpTo(pending, i - 1, fails, topic, now);
      if pending[i - 1].id in fails then prev else prev + [Request(pending[i - 1], topic, now)]
  }

  /** The ids of the first `i` events of `pending` whose publish succeeded. */
  function SucceededIds(pending: seq<OutboxEvent>, i: nat, fails: set<Guid>): set<Guid>
    requires i <= |pending|
  {
    set k | 0 <= k < i && pending[k].id !in fails :: pending[k].id
  }

  /** One pass of the publisher over `GetUnpublishedEventsAsync`'s list. */
  method PublishPending(db: ExecutionDb, topic: string, now: Instant, fails: set<Guid>)
    returns (sent: seq<PublishRequest>)
    requires db.Valid()
    modifies db`outbox
    ensures db.Valid()
    ensures var pending := Unpublished(old(db.outbox));
      && db.outbox == MarkedUpTo(old(db.outbox), pending, |pending|, fails, now)
      && sent == SentUpTo(pending, |pending|, fails, topic, now)
  {
    var pending := Unpublished(db.outbox);
    ghost var rows := db.outbox;
    sent := [];
    var i := 0;
    while i < |pending|
      invariant i <= |pending|
      invariant db.Valid()
      invariant db.outbox == MarkedUpTo(rows, pending, i, fails, now)
      invariant sent == SentUpTo(pending, i, fails, topic, now)
    {
      var outcome := PublishEventAsync(db, pending[i], topic, now, fails);
      if outcome.Published? {
        sent := sent + [outcome.request];
      }
      i := i + 1;
    }
  }

  /** Publishing marks exactly the events whose publish call returned: the
      unpublished ids shrink by those ids and by nothing else, and the
      primary key still holds. */
  lemma {:induction false} MarkedUpToIds(rows: seq<OutboxEvent>, pending: seq<OutboxEvent>, i: nat, fails: set<Guid>, now: Instant)
    requires i <= |pending| && UniqueIds(rows)
    ensures UniqueIds(MarkedUpTo(rows, pending, i, fails, now))
    ensures UnpublishedIds(MarkedUpTo(rows, pending, i, fails, now)) == UnpublishedIds(rows) - SucceededIds(pending, i, fails)
  {
    if i > 0 {
      var prev := MarkedUpTo(rows, pending, i - 1, fails, now);
      MarkedUpToIds(rows, pending, i - 1, fails, now);
      var id := pending[i - 1].id;
      if id !in fails {
        MarkRemovesId(prev, id, now);
        assert SucceededIds(pending, i, fails) == SucceededIds(pending, i - 1, fails) + {id};
      } else {
        assert SucceededIds(pending, i, fails) == SucceededIds(pending, i - 1, fails);
      }
    }
  }

  /** The requests sent are exactly those for the attempted events whose
      publish did not throw, each built from its own row. */
  lemma {:induction false} SentUpToContents(pending: seq<OutboxEvent>, i: nat, fails: set<Guid>, topic: string, now: Instant)
    requires i <= |pending|
    ensures forall k :: 0 <= k < i && pending[k].id !in fails ==>
      Request(pending[k], topic, now) in SentUpTo(pending, i, fails, topic, now)
    ensures forall r :: r in SentUpTo(pending, i, fails, topic, now) ==>
      exists k :: 0 <= k < i && pending[k].id !in fails && r == Request(pending[k], topic, now)
  {
    if i > 0 {
      SentUpToContents(pending, i - 1, fails, topic, now);
    }
  }

  /** The events of one pass whose publish succeeds are exactly the
      unpublished rows outside the failure oracle. */
  lemma PassSucceeds(rows: seq<OutboxEvent>, fails: set<Guid>)
    ensures SucceededIds(Unpublished(rows), |Unpublished(rows)|, fails) == UnpublishedIds(rows) - fails
  {
    var pending := Unpublished(rows);
    var n := |pending|;
    forall id | id in UnpublishedIds(rows) - fails ensures id in SucceededIds(pending, n, fails) {
      var j :| 0 <= j < |rows| && !rows[j].published && rows[j].id == id;
      assert rows[j] in pending;
      var k :| 0 <= k < n && pending[k] == rows[j];
    }
    forall id | id in SucceededIds(pending, n, fails) ensures id in UnpublishedIds(rows) - fails {
      var k :| 0 <= k < n && pending[k].id !in fails && pending[k].id == id;
      assert pending[k] in rows;
      var j :| 0 <= j < |rows| && rows[j] == pending[k];
    }
  }

  /** One pass: the unpublished set shrinks exactly by the events that were
      successfully published, so exactly the unpublished events whose
      publish threw remain unpublished; and every event that became
      published had its request sent first, carrying that row's id as
      `EventId`. */
  lemma PublishPass(s: DbState, topic: string, now: Instant, fails: set<Guid>)
    requires Wf(s)
    ensures var pending := Unpublished(s.outbox);
      var after := MarkedUpTo(s.outbox, pending, |pending|, fails, now);
      && UniqueIds(after)
      && UnpublishedIds(after) == UnpublishedIds(s.outbox) * fails
      && (forall id :: id in UnpublishedIds(s.outbox) && id !in UnpublishedIds(after) ==>
            exists r :: r in SentUpTo(pending, |pending|, fails, topic, now) && r.eventId == GuidText(id))
  {
    var pending := Unpublished(s.outbox);
    var n := |pending|;
    MarkedUpToIds(s.outbox, pending, n, fails, now);
    PassSucceeds(s.outbox, fails);
    SentUpToContents(pending, n, fails, topic, now);
    forall id | id in UnpublishedIds(s.outbox) && id !in UnpublishedIds(MarkedUpTo(s.outbox, pending, n, fails, now))
      ensures exists r :: r in SentUpTo(pending, n, fails, topic, now) && r.eventId == GuidText(id)
    {
      assert id in SucceededIds(pending, n, fails);
      var k :| 0 <= k < n && pending[k].id !in fails && pending[k].id == id;
      assert Request(pending[k], topic, now).eventId == GuidText(id);
    }
  }

  /** The `EventId` attribute identifies the outbox row: two requests with
      the same `EventId` come from rows with the same id, so a consumer that
      deduplicates on `EventId` sees a republished row as a duplicate. */
  lemma EventIdIdentifiesRow(a: OutboxEvent, b: OutboxEvent, topic: string, now: Instant, later: Instant)
    ensures Request(a, topic, now).eventId == Request(b, topic, later).eventId <==> a.id == b.id
  {
    if GuidText(a.id) == GuidText(b.id) {
      NatTextInjective(a.id, b.id);
    }
  }

  /** The payloads the service writes carry their ids through publishing:
      the `CorrelationId` attribute is the job's correlation id and the
      logged entity id is the `OsId`, on the success path and on the error
      path alike. */
  lemma CorrelationPropagates(job: ExecutionJob, evt: OsCanceled.OsCanceledEvent, now: Instant, fallback: bool)
    ensures ExtractLogIds(PaymentConfirmed.StartedPayload(job), fallback) == LogIds(job.correlationId, job.osId)
    ensures ExtractLogIds(ExecutionWorker.TransitionPayload(job, now), fallback) == LogIds(job.correlationId, job.osId)
    ensures ExtractLogIds(OsCanceled.CanceledPayload(evt, job), fallback) == LogIds(evt.correlationId, evt.osId)
  {
  }

  /** Without an `OsId`, the success path logs the `JobId` as entity id and
      the error path logs "unknown". */
  lemma EntityFallsBackToJobId(p: Props, c: string, j: string)
    requires p.correlationId == Some(Str(c)) && p.osId.None? && p.jobId == Some(Str(j))
    ensures ExtractLogIds(Object(p), true) == LogIds(c, j)
    ensures ExtractLogIds(Object(p), false) == LogIds(c, Unknown)
  {
  }
}
