/** The inbox ledger: one row per inbound event that a handler accepted.
    `IsDuplicate` is the existence query the handlers run first; the append
    itself is `Store.ExecutionDb.AddInboxEvent`. */
module Inbox {
  import opened Common

  datatype InboxEvent = InboxEvent(id: Guid, eventId: string, eventType: string, receivedAt: Instant)

  /** `AnyAsync(e => e.EventId == eventId)`: scans the rows for the event id. */
  function IsDuplicate(rows: seq<InboxEvent>, eventId: string): (r: bool)
    ensures r <==> exists i :: 0 <= i < |rows| && rows[i].eventId == eventId
  {
    if rows == [] then false
    else rows[0].eventId == eventId || IsDuplicate(rows[1..], eventId)
  }

  /** On an empty inbox no event is a duplicate. */
  lemma EmptyInboxHasNoDuplicates(eventId: string)
    ensures !IsDuplicate([], eventId)
  {
  }

  /** After appending a row, its event id is a duplicate, whether or not it
      was one before; any other id keeps its previous answer. The append does
      no check of its own, so a row may repeat an id already present. */
  lemma {:induction false} DuplicateAfterAdd(rows: seq<InboxEvent>, e: InboxEvent, eventId: string)
    ensures IsDuplicate(rows + [e], e.eventId)
    ensures IsDuplicate(rows + [e], eventId) <==> IsDuplicate(rows, eventId) || eventId == e.eventId
  {
    assert (rows + [e])[|rows|] == e;
    if IsDuplicate(rows, eventId) {
      var i :| 0 <= i < |rows| && rows[i].eventId == eventId;
      assert (rows + [e])[i] == rows[i];
    }
    if IsDuplicate(rows + [e], eventId) && eventId != e.eventId {
      var i :| 0 <= i < |rows + [e]| && (rows + [e])[i].eventId == eventId;
      assert i < |rows| && rows[i] == (rows + [e])[i];
    }
  }
}
