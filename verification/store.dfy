/** The shared store of the Execution Service: the jobs, inbox and outbox
    tables and the Guid generator. The inbox and outbox services are thin
    wrappers over this one context, so their writes are its methods here;
    every write saves at once, as each `SaveChangesAsync` call does. */
module Store {
  import opened Common
  import opened Domain
  import opened Inbox
  import opened Outbox

  /** A snapshot of the store, the value the specification functions work on. */
  datatype DbState = DbState(
    jobs: seq<ExecutionJob>,
    inbox: seq<InboxEvent>,
    outbox: seq<OutboxEvent>,
    nextGuid: Guid)

  /** The outbox primary key holds, and every outbox id was drawn before
      `nextGuid`, so the next draw is a fresh key. */
  predicate Wf(s: DbState) {
    && UniqueIds(s.outbox)
    && forall k :: 0 <= k < |s.outbox| ==> s.outbox[k].id < s.nextGuid
  }

  class ExecutionDb {
    var jobs: seq<ExecutionJob>
    var inbox: seq<InboxEvent>
    var outbox: seq<OutboxEvent>
    var nextGuid: Guid

    function State(): DbState
      reads this
    {
      DbState(jobs, inbox, outbox, nextGuid)
    }

    predicate Valid()
      reads this
    {
      Wf(State())
    }

    constructor ()
      ensures Valid() && State() == DbState([], [], [], 0)
    {
      jobs, inbox, outbox, nextGuid := [], [], [], 0;
    }

    /** `Guid.NewGuid()`: a value never drawn before. */
    method NewGuid() returns (g: Guid)
      requires Valid()
      modifies this`nextGuid
      ensures Valid()
      ensures g == old(nextGuid) && nextGuid == g + 1
    {
      g := nextGuid;
      nextGuid := nextGuid + 1;
    }

    /** `InboxService.AddEventAsync`: appends the row as given, with no
        duplicate check of its own. */
    method AddInboxEvent(e: InboxEvent)
      requires Valid()
      modifies this`inbox
      ensures Valid()
      ensures inbox == old(inbox) + [e]
    {
      inbox := inbox + [e];
    }

    /** `OutboxService.AddEventAsync`: appends the row exactly as given,
        `Published` flag included. The id must be a fresh key. */
    method AddOutboxEvent(e: OutboxEvent)
      requires Valid()
      requires e.id < nextGuid
      requires forall k :: 0 <= k < |outbox| ==> outbox[k].id != e.id
      modifies this`outbox
      ensures Valid()
      ensures outbox == old(outbox) + [e]
    {
      outbox := outbox + [e];
    }

    /** `OutboxService.MarkAsPublishedAsync`: finds the row by key and sets
        `Published` and `PublishedAt`; an unknown id is silently ignored. */
    method MarkAsPublished(id: Guid, now: Instant)
      requires Valid()
      modifies this`outbox
      ensures Valid()
      ensures outbox == MarkPublished(old(outbox), id, now)
    {
      var found := FindRow(outbox, id);
      if found.Some? {
        var k := found.value;
        outbox := outbox[k := Marked(outbox[k], now)];
      }
      assert forall i :: 0 <= i < |outbox| ==> outbox[i] == MarkPublished(old(outbox), id, now)[i];
    }

    /** `ExecutionJobs.AddAsync` followed by a save. */
    method AddJob(j: ExecutionJob)
      modifies this`jobs
      ensures jobs == old(jobs) + [j]
    {
      jobs := jobs + [j];
    }

    /** The save of a tracked job whose fields were assigned in place. */
    method SetJob(i: nat, j: ExecutionJob)
      requires i < |jobs|
      modifies this`jobs
      ensures jobs == old(jobs)[i := j]
    {
      jobs := jobs[i := j];
    }
  }
}
