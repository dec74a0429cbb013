/** The inbound queue consumer: one batch of received messages, processed one
    at a time in receive order, each deleted from the queue after processing.
    Processing a message decodes the notification envelope, parses the
    payload, resolves `EventId`, `CorrelationId` and `EventType`, and routes
    the event to at most one handler. Every exception inside processing is
    caught, so a message whose processing failed is deleted all the same. */
module Consumer {
  import opened Common
  import opened Domain
  import opened Inbox
  import opened Store
  import PaymentConfirmed
  import OsCanceled

  /** The decoded message body: a notification envelope, the JSON literal
      `null`, or text that does not decode as an envelope. In an envelope,
      `topicArn` is `None` when the property is null or absent, and
      `attributes` is `None` when `MessageAttributes` is JSON null (an
      absent property gives the empty dictionary). */
  datatype Body =
    | Envelope(message: Payload, topicArn: Option<string>, attributes: Option<map<string, string>>)
    | NullEnvelope
    | Malformed

  datatype Message = Message(body: Body, receiptHandle: string)

  /** `TopicArn.Split(':').Last()`: the text after the last ':' (all of it
      when there is none). */
  function LastSegment(arn: string): (r: string)
    ensures |r| <= |arn| && arn[|arn| - |r|..] == r
    ensures ':' !in r
    ensures |r| < |arn| ==> arn[|arn| - |r| - 1] == ':'
  {
    if arn == [] then []
    else if arn[|arn| - 1] == ':' then []
    else LastSegment(arn[..|arn| - 1]) + [arn[|arn| - 1]]
  }

  /** How many Guids the resolution draws: one for a missing `EventId`,
      then one for a missing `CorrelationId`. */
  function Draws(attrs: map<string, string>): nat {
    (if "EventId" in attrs then 0 else 1) + (if "CorrelationId" in attrs then 0 else 1)
  }

  /** The `EventId` attribute, or the text of the first Guid drawn. */
  function ResolveEventId(attrs: map<string, string>, g: Guid): string {
    if "EventId" in attrs then attrs["EventId"] else GuidText(g)
  }

  /** The `CorrelationId` attribute, or the text of the Guid drawn after
      the event id's. */
  function ResolveCorrelationId(attrs: map<string, string>, g: Guid): string {
    if "CorrelationId" in attrs then attrs["CorrelationId"]
    else GuidText(g + if "EventId" in attrs then 0 else 1)
  }

  /** The `EventType` attribute, or the last segment of the topic ARN;
      `None` when neither exists (the split of a null ARN throws). */
  function ResolveEventType(attrs: map<string, string>, topicArn: Option<string>): Option<string> {
    if "EventType" in attrs then Some(attrs["EventType"])
    else if topicArn.Some? then Some(LastSegment(topicArn.value))
    else None
  }

  /** `GetProperty(name).GetString()` on a payload property: `None` when the
      property is missing, holds a non-string or holds null. */
  function ReadString(v: Option<JsonValue>): Option<string> {
    if v.Some? && v.value.Str? then Some(v.value.s) else None
  }

  /** `GetProperty(name).GetDecimal()`: `None` when the property is missing
      or is not a number. */
  function ReadDecimal(v: Option<JsonValue>): Option<real> {
    if v.None? then None
    else match v.value
      case Num(x) => Some(x)
      case Int(n) => Some(n as real)
      case _ => None
  }

  /** Where a message goes: the payment handler, the cancel handler, or none. */
  datatype Route =
    | ToPayment(payment: PaymentConfirmed.PaymentConfirmedEvent)
    | ToCancel(cancel: OsCanceled.OsCanceledEvent)
    | NoHandler

  /** The routing decision on the resolved type. A payload read that throws
      is caught, so no handler runs. */
  function RouteFor(eventType: string, p: Props, eventId: string, correlationId: string): (r: Route)
    ensures r.ToPayment? <==> && eventType == "PaymentConfirmed"
                              && ReadString(p.osId).Some? && ReadString(p.paymentId).Some?
                              && ReadDecimal(p.amount).Some? && ReadString(p.status).Some?
    ensures r.ToPayment? ==> && r.payment.eventId == eventId && r.payment.correlationId == correlationId
                             && Some(r.payment.osId) == ReadString(p.osId)
                             && Some(r.payment.paymentId) == ReadString(p.paymentId)
                             && Some(r.payment.amount) == ReadDecimal(p.amount)
                             && Some(r.payment.status) == ReadString(p.status)
    ensures r.ToCancel? <==> eventType == "OsCanceled" && ReadString(p.osId).Some? && ReadString(p.reason).Some?
    ensures r.ToCancel? ==> && r.cancel.eventId == eventId && r.cancel.correlationId == correlationId
                            && Some(r.cancel.osId) == ReadString(p.osId) && Some(r.cancel.reason) == ReadString(p.reason)
  {
    if eventType == "PaymentConfirmed" then
      var osId := ReadString(p.osId);
      var paymentId := ReadString(p.paymentId);
      var amount := ReadDecimal(p.amount);
      var status := ReadString(p.status);
      if osId.Some? && paymentId.Some? && amount.Some? && status.Some?
      then ToPayment(PaymentConfirmed.PaymentConfirmedEvent(eventId, osId.value, paymentId.value, amount.value, status.value, correlationId))
      else NoHandler
    else if eventType == "OsCanceled" then
      var osId := ReadString(p.osId);
      var reason := ReadString(p.reason);
      if osId.Some? && reason.Some?
      then ToCancel(OsCanceled.OsCanceledEvent(eventId, osId.value, reason.value, correlationId))
      else NoHandler
    else NoHandler
  }

  /** What `ProcessMessageAsync` does to the store. Nothing happens for a
      null or malformed envelope, an unparseable payload (parsed before any
      attribute is read) or null attributes; otherwise the missing ids are
      drawn, and a resolved type routes to at most one handler. */
  function Process(s: DbState, body: Body, now: Instant): DbState {
    if !body.Envelope? || body.message.Unparseable? || body.attributes.None? then s
    else
      var attrs := body.attributes.value;
      var g := s.nextGuid;
      var drawn := s.(nextGuid := g + Draws(attrs));
      var eventType := ResolveEventType(attrs, body.topicArn);
      if eventType.None? then drawn
      else Dispatch(drawn, RouteFor(eventType.value, body.message.props, ResolveEventId(attrs, g), ResolveCorrelationId(attrs, g)), now)
  }

  /** The handler a route calls, if any. */
  function Dispatch(s: DbState, route: Route, now: Instant): DbState {
    match route
    case ToPayment(e) => PaymentConfirmed.Handle(s, e, now)
    case ToCancel(e) => OsCanceled.Handle(s, e, now)
    case NoHandler => s
  }

  /** `ProcessMessageAsync`, step by step against the store. */
  method ProcessMessageAsync(db: ExecutionDb, body: Body, now: Instant)
    requires db.Valid()
    modifies db
    ensures db.Valid()
    ensures db.State() == Process(old(db.State()), body, now)
  {
    if !body.Envelope? || body.message.Unparseable? || body.attributes.None? {
      return;
    }
    ghost var s0 := db.State();
    var attrs := body.attributes.value;
    var eventId, correlationId := ResolveIds(db, attrs);
    var eventType;
    if "EventType" in attrs {
      eventType := attrs["EventType"];
    } else if body.topicArn.Some? {
      eventType := LastSegment(body.topicArn.value);
    } else {
      return;
    }
    var route := RouteFor(eventType, body.message.props, eventId, correlationId);
    ghost var drawn := db.State();
    assert drawn == s0.(nextGuid := s0.nextGuid + Draws(attrs));
    ProcessRoutes(s0, body, now, eventType);
    assert Process(s0, body, now) == Dispatch(drawn, route, now);
    DispatchAsync(db, route, now);
  }

  /** A message whose type resolves is handed to the route for that type,
      after the missing ids are drawn. */
  lemma ProcessRoutes(s: DbState, body: Body, now: Instant, eventType: string)
    requires body.Envelope? && body.message.Object? && body.attributes.Some?
    requires ResolveEventType(body.attributes.value, body.topicArn) == Some(eventType)
    ensures var attrs := body.attributes.value;
      Process(s, body, now)
        == Dispatch(s.(nextGuid := s.nextGuid + Draws(attrs)),
                    RouteFor(eventType, body.message.props, ResolveEventId(attrs, s.nextGuid), ResolveCorrelationId(attrs, s.nextGuid)),
                    now)
  {
  }

  /** The id resolution at the head of `ProcessMessageAsync`: each missing
      attribute draws a Guid, the event id's first. */
  method ResolveIds(db: ExecutionDb, attrs: map<string, string>) returns (eventId: string, correlationId: string)
    requires db.Valid()
    modifies db
    ensures db.Valid()
    ensures eventId == ResolveEventId(attrs, old(db.nextGuid))
    ensures correlationId == ResolveCorrelationId(attrs, old(db.nextGuid))
    ensures db.State() == old(db.State()).(nextGuid := old(db.nextGuid) + Draws(attrs))
  {
    if "EventId" in attrs {
      eventId := attrs["EventId"];
    } else {
      var drawn := db.NewGuid();
      eventId := GuidText(drawn);
    }
    if "CorrelationId" in attrs {
      correlationId := attrs["CorrelationId"];
    } else {
      var drawn := db.NewGuid();
      correlationId := GuidText(drawn);
    }
  }

  /** Calls the handler the route names, if any. */
  method DispatchAsync(db: ExecutionDb, route: Route, now: Instant)
    requires db.Valid()
    modifies db
    ensures db.Valid()
    ensures db.State() == Dispatch(old(db.State()), route, now)
  {
    match route {
      case ToPayment(e) => PaymentConfirmed.HandleAsync(db, e, now);
      case ToCancel(e) => OsCanceled.HandleAsync(db, e, now);
      case NoHandler =>
    }
  }

  /** The store after the first `i` messages of a batch were processed, in
      receive order. */
  function ProcessedUpTo(s: DbState, msgs: seq<Message>, i: nat, now: Instant): DbState
    requires i <= |msgs|
  {
    if i == 0 then s else Process(ProcessedUpTo(s, msgs, i - 1, now), msgs[i - 1].body, now)
  }

  /** How many messages of the batch are processed: all of them, or up to
      and including the first whose delete throws, which ends the batch. */
  function Reached(msgs: seq<Message>, deleteFails: set<nat>, i: nat): (n: nat)
    requires i <= |msgs|
    ensures i <= n <= |msgs|
    ensures forall k :: i <= k < n - 1 ==> k !in deleteFails
    ensures n < |msgs| ==> n > i && n - 1 in deleteFails
    decreases |msgs| - i
  {
    if i == |msgs| then i
    else if i in deleteFails then i + 1
    else Reached(msgs, deleteFails, i + 1)
  }

  /** One batch: each message is processed, then deleted; a delete that
      throws is caught outside the loop, so the batch stops there. */
  method ConsumeBatch(db: ExecutionDb, msgs: seq<Message>, now: Instant, deleteFails: set<nat>)
    returns (deleted: seq<string>)
    requires db.Valid()
    modifies db
    ensures db.Valid()
    ensures var n := Reached(msgs, deleteFails, 0);
      && db.State() == ProcessedUpTo(old(db.State()), msgs, n, now)
      && |deleted| == (if n > 0 && n - 1 in deleteFails then n - 1 else n)
      && forall k :: 0 <= k < |deleted| ==> deleted[k] == msgs[k].receiptHandle
  {
    ghost var s0 := db.State();
    deleted := [];
    var i := 0;
    while i < |msgs|
      invariant i <= |msgs| && |deleted| == i
      invariant forall k :: 0 <= k < i ==> k !in deleteFails && deleted[k] == msgs[k].receiptHandle
      invariant Reached(msgs, deleteFails, 0) == Reached(msgs, deleteFails, i)
      invariant db.Valid() && db.State() == ProcessedUpTo(s0, msgs, i, now)
    {
      ProcessMessageAsync(db, msgs[i].body, now);
      if i in deleteFails {
        return;
      }
      deleted := deleted + [msgs[i].receiptHandle];
      i := i + 1;
    }
  }

  /** Without a failing delete, every message of the batch is processed and
      deleted, in receive order, whatever its processing did. */
  lemma AllDeleted(msgs: seq<Message>, deleteFails: set<nat>)
    requires forall k :: 0 <= k < |msgs| ==> k !in deleteFails
    ensures Reached(msgs, deleteFails, 0) == |msgs|
  {
  }

  /** A message that never reaches a handler leaves the job, inbox and
      outbox tables as they were: a null or malformed envelope, an
      unparseable payload, no resolvable type, an unknown type, or a payload
      read that throws. */
  lemma NoHandlerNoChange(s: DbState, body: Body, now: Instant)
    requires
      || !body.Envelope? || body.message.Unparseable? || body.attributes.None?
      || ResolveEventType(body.attributes.value, body.topicArn).None?
      || RouteFor(ResolveEventType(body.attributes.value, body.topicArn).value, body.message.props,
                  ResolveEventId(body.attributes.value, s.nextGuid),
                  ResolveCorrelationId(body.attributes.value, s.nextGuid)).NoHandler?
    ensures var r := Process(s, body, now);
      r.jobs == s.jobs && r.inbox == s.inbox && r.outbox == s.outbox
  {
  }

  /** A type other than "PaymentConfirmed" and "OsCanceled" calls no
      handler; those two call their own handler and only it. */
  lemma RoutesByType(eventType: string, p: Props, eventId: string, correlationId: string)
    ensures var r := RouteFor(eventType, p, eventId, correlationId);
      && (r.ToPayment? ==> eventType == "PaymentConfirmed")
      && (r.ToCancel? ==> eventType == "OsCanceled")
      && (eventType != "PaymentConfirmed" && eventType != "OsCanceled" ==> r.NoHandler?)
  {
  }

  /** With every payload read successful, the payment handler gets `OsId`,
      `PaymentId`, `Amount` and `Status` from the payload and the resolved
      ids. */
  lemma PaymentFields(p: Props, eventId: string, correlationId: string,
                      osId: string, paymentId: string, amount: real, status: string)
    requires p.osId == Some(Str(osId)) && p.paymentId == Some(Str(paymentId))
    requires p.amount == Some(Num(amount)) && p.status == Some(Str(status))
    ensures RouteFor("PaymentConfirmed", p, eventId, correlationId)
      == ToPayment(PaymentConfirmed.PaymentConfirmedEvent(eventId, osId, paymentId, amount, status, correlationId))
  {
  }

  /** With both reads successful, the cancel handler gets `OsId` and
      `Reason` from the payload and the resolved ids. */
  lemma CancelFields(p: Props, eventId: string, correlationId: string, osId: string, reason: string)
    requires p.osId == Some(Str(osId)) && p.reason == Some(Str(reason))
    ensures RouteFor("OsCanceled", p, eventId, correlationId)
      == ToCancel(OsCanceled.OsCanceledEvent(eventId, osId, reason, correlationId))
  {
  }

  /** Attribute resolution: a present attribute is used as is; a missing
      `EventId` or `CorrelationId` gets a freshly drawn Guid, the two drawn
      ids differ, and a missing `EventType` comes from the ARN. */
  lemma Resolution(attrs: map<string, string>, topicArn: Option<string>, g: Guid)
    ensures "EventId" in attrs ==> ResolveEventId(attrs, g) == attrs["EventId"]
    ensures "CorrelationId" in attrs ==> ResolveCorrelationId(attrs, g) == attrs["CorrelationId"]
    ensures "EventId" !in attrs && "CorrelationId" !in attrs ==>
      ResolveEventId(attrs, g) != ResolveCorrelationId(attrs, g)
    ensures "EventType" !in attrs && topicArn.Some? ==>
      ResolveEventType(attrs, topicArn) == Some(LastSegment(topicArn.value))
  {
    if "EventId" !in attrs && "CorrelationId" !in attrs && GuidText(g) == GuidText(g + 1) {
      NatTextInjective(g, g + 1);
    }
  }

  /** The event id a handler route carries. */
  function EventIdOf(route: Route): string
    requires !route.NoHandler?
  {
    if route.ToPayment? then route.payment.eventId else route.cancel.eventId
  }

  /** Whether a handler is called does not depend on the resolved ids, and
      the handler gets the resolved event id. */
  lemma RouteIgnoresIds(eventType: string, p: Props, eventId: string, correlationId: string,
                        eventId': string, correlationId': string)
    ensures var r := RouteFor(eventType, p, eventId, correlationId);
      var r' := RouteFor(eventType, p, eventId', correlationId');
      && r.ToPayment? == r'.ToPayment? && r.ToCancel? == r'.ToCancel?
      && (!r.NoHandler? ==> EventIdOf(r) == eventId)
  {
  }

  /** Either handler leaves its event id in the inbox. */
  lemma DispatchRecords(s: DbState, route: Route, now: Instant)
    requires !route.NoHandler?
    ensures IsDuplicate(Dispatch(s, route, now).inbox, EventIdOf(route))
  {
    if IsDuplicate(s.inbox, EventIdOf(route)) {
      if route.ToPayment? {
        PaymentConfirmed.DuplicateIsIgnored(s, route.payment, now);
      } else {
        OsCanceled.DuplicateIsIgnored(s, route.cancel, now);
      }
    } else if route.ToPayment? {
      PaymentConfirmed.NewEventEffects(s, route.payment, now);
    } else {
      OsCanceled.RecordsInbox(s, route.cancel, now);
      var r := Dispatch(s, route, now);
      assert r.inbox[|s.inbox|].eventId == EventIdOf(route);
    }
  }

  /** Either handler ignores an event id already in the inbox. */
  lemma DispatchDuplicate(s: DbState, route: Route, now: Instant)
    requires !route.NoHandler? && IsDuplicate(s.inbox, EventIdOf(route))
    ensures Dispatch(s, route, now) == s
  {
    if route.ToPayment? {
      PaymentConfirmed.DuplicateIsIgnored(s, route.payment, now);
    } else {
      OsCanceled.DuplicateIsIgnored(s, route.cancel, now);
    }
  }

  /** Redelivery of a message that carries an `EventId` attribute changes no
      table: the first delivery that reached a handler recorded the id in
      the inbox, so the handler sees a duplicate the second time. */
  lemma RedeliveryIsHarmless(s: DbState, body: Body, now: Instant, later: Instant)
    requires body.Envelope? && body.attributes.Some? && "EventId" in body.attributes.value
    ensures var once := Process(s, body, now);
      var twice := Process(once, body, later);
      twice.jobs == once.jobs && twice.inbox == once.inbox && twice.outbox == once.outbox
  {
    var once := Process(s, body, now);
    if body.message.Object? {
      var attrs := body.attributes.value;
      var eventType := ResolveEventType(attrs, body.topicArn);
      if eventType.Some? {
        var eventId := attrs["EventId"];
        var drawn := s.(nextGuid := s.nextGuid + Draws(attrs));
        var first := RouteFor(eventType.value, body.message.props, eventId, ResolveCorrelationId(attrs, s.nextGuid));
        var second := RouteFor(eventType.value, body.message.props, eventId, ResolveCorrelationId(attrs, once.nextGuid));
        RouteIgnoresIds(eventType.value, body.message.props, eventId, ResolveCorrelationId(attrs, s.nextGuid),
                        eventId, ResolveCorrelationId(attrs, once.nextGuid));
        if !first.NoHandler? {
          assert once == Dispatch(drawn, first, now);
          DispatchRecords(drawn, first, now);
          DispatchDuplicate(once.(nextGuid := once.nextGuid + Draws(attrs)), second, later);
        }
      }
    }
  }
}
