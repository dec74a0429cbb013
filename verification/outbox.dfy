/** The outbox ledger: outbound events waiting for the publisher. The pure
    queries over the table live here; the appends and the in-place mark are
    methods of `Store.ExecutionDb`. */
module Outbox {
  import opened Common

  datatype OutboxEvent = OutboxEvent(
    id: Guid,
    eventType: string,
    payload: Payload,
    createdAt: Instant,
    published: bool,
    publishedAt: Option<Instant>)

  /** The primary key: no two rows share an id, so `FindAsync(id)` names at most one row. */
  predicate UniqueIds(rows: seq<OutboxEvent>) {
    forall i, j :: 0 <= i < j < |rows| ==> rows[i].id != rows[j].id
  }

  /** `Where(e => !e.Published)`: the rows still to publish, in table order. */
  function Unpublished(rows: seq<OutboxEvent>): (r: seq<OutboxEvent>)
    ensures |r| <= |rows|
    ensures forall e :: e in r <==> e in rows && !e.published
  {
    if rows == [] then []
    else (if rows[0].published then [] else [rows[0]]) + Unpublished(rows[1..])
  }

  /** The ids of the unpublished rows. */
  function UnpublishedIds(rows: seq<OutboxEvent>): set<Guid> {
    set k | 0 <= k < |rows| && !rows[k].published :: rows[k].id
  }

  /** `FindAsync(id)`: the position of a row with that id, if any. */
  function FindRow(rows: seq<OutboxEvent>, id: Guid): (r: Option<nat>)
    ensures r.Some? ==> r.value < |rows| && rows[r.value].id == id
    ensures r.None? ==> forall k :: 0 <= k < |rows| ==> rows[k].id != id
  {
    if rows == [] then None
    else if rows[0].id == id then Some(0)
    else match FindRow(rows[1..], id)
      case None => None
      case Some(k) => Some(k + 1)
  }

  /** The row after `MarkAsPublishedAsync` has found it. */
  function Marked(e: OutboxEvent, now: Instant): OutboxEvent {
    e.(published := true, publishedAt := Some(now))
  }

  /** `MarkAsPublishedAsync(id)`: the row with that id becomes published at
      `now`; every other row is left as it was. */
  function MarkPublished(rows: seq<OutboxEvent>, id: Guid, now: Instant): (r: seq<OutboxEvent>)
    ensures |r| == |rows|
    ensures forall k :: 0 <= k < |rows| ==>
      r[k] == if rows[k].id == id then Marked(rows[k], now) else rows[k]
  {
    if rows == [] then []
    else [if rows[0].id == id then Marked(rows[0], now) else rows[0]] + MarkPublished(rows[1..], id, now)
  }

  /** The unpublished view distributes over concatenation, so it keeps
      insertion order: rows appended later come later in the list. */
  lemma {:induction false} UnpublishedConcat(a: seq<OutboxEvent>, b: seq<OutboxEvent>)
    ensures Unpublished(a + b) == Unpublished(a) + Unpublished(b)
  {
    if a != [] {
      assert (a + b)[0] == a[0];
      assert (a + b)[1..] == a[1..] + b;
      UnpublishedConcat(a[1..], b);
    } else {
      assert a + b == b;
    }
  }

  /** Appending a row extends the unpublished list by that row exactly when
      it is unpublished; the stored `Published` flag is kept as given. */
  lemma UnpublishedAfterAdd(rows: seq<OutboxEvent>, e: OutboxEvent)
    ensures Unpublished(rows + [e]) == Unpublished(rows) + (if e.published then [] else [e])
  {
    UnpublishedConcat(rows, [e]);
    assert Unpublished([e]) == (if e.published then [] else [e]) + Unpublished([]);
  }

  /** Marking an id that no row has changes nothing. */
  lemma MarkUnknownIsNoOp(rows: seq<OutboxEvent>, id: Guid, now: Instant)
    requires forall k :: 0 <= k < |rows| ==> rows[k].id != id
    ensures MarkPublished(rows, id, now) == rows
  {
  }

  /** Marking one unpublished row shrinks the unpublished list by exactly one,
      and that id never reappears in it; marking any other id leaves the
      unpublished list's length as it was. */
  lemma {:induction false} MarkShrinksUnpublished(rows: seq<OutboxEvent>, id: Guid, now: Instant)
    requires UniqueIds(rows)
    ensures |Unpublished(MarkPublished(rows, id, now))|
            == |Unpublished(rows)| - (if id in UnpublishedIds(rows) then 1 else 0)
    ensures forall e :: e in Unpublished(MarkPublished(rows, id, now)) ==> e.id != id
  {
    if rows != [] {
      var tail := rows[1..];
      UniqueTail(rows);
      UnpublishedIdsCons(rows);
      MarkShrinksUnpublished(tail, id, now);
      var m := MarkPublished(rows, id, now);
      assert m[1..] == MarkPublished(tail, id, now);
      if rows[0].id == id {
        assert id !in UnpublishedIds(tail) by {
          forall k | 0 <= k < |tail| ensures tail[k].id != id {
            assert tail[k] == rows[k + 1];
          }
        }
      }
    }
  }

  /** Marking keeps every id and removes exactly the marked id from the
      unpublished ids; the primary key still holds afterwards. */
  lemma MarkRemovesId(rows: seq<OutboxEvent>, id: Guid, now: Instant)
    requires UniqueIds(rows)
    ensures UniqueIds(MarkPublished(rows, id, now))
    ensures UnpublishedIds(MarkPublished(rows, id, now)) == UnpublishedIds(rows) - {id}
  {
    var m := MarkPublished(rows, id, now);
    assert forall k :: 0 <= k < |rows| ==> m[k].id == rows[k].id;
    forall g | g in UnpublishedIds(rows) - {id} ensures g in UnpublishedIds(m) {
      var k :| 0 <= k < |rows| && !rows[k].published && rows[k].id == g;
      assert !m[k].published;
    }
  }

  lemma UniqueTail(rows: seq<OutboxEvent>)
    requires rows != [] && UniqueIds(rows)
    ensures UniqueIds(rows[1..])
  {
    var tail := rows[1..];
    forall i, j | 0 <= i < j < |tail| ensures tail[i].id != tail[j].id {
      assert tail[i] == rows[i + 1] && tail[j] == rows[j + 1];
    }
  }

  lemma UnpublishedIdsCons(rows: seq<OutboxEvent>)
    requires rows != []
    ensures UnpublishedIds(rows) == (if rows[0].published then {} else {rows[0].id}) + UnpublishedIds(rows[1..])
  {
    var tail := rows[1..];
    forall g | g in UnpublishedIds(rows)
      ensures g in (if rows[0].published then {} else {rows[0].id}) + UnpublishedIds(tail)
    {
      var k :| 0 <= k < |rows| && !rows[k].published && rows[k].id == g;
      if k > 0 { assert tail[k - 1] == rows[k]; }
    }
    forall g | g in UnpublishedIds(tail) ensures g in UnpublishedIds(rows) {
      var k :| 0 <= k < |tail| && !tail[k].published && tail[k].id == g;
      assert rows[k + 1] == tail[k];
    }
  }
}
