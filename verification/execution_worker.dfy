/** One sweep of the execution worker: every job in Queued, Diagnosing or
    Repairing moves exactly one step along the happy path, each move enqueues
    a progress or finish event, and a move whose enqueue fails leaves the job
    Failed with the error text. The polling loop, its delay and the
    sweep-level catch are outside the model; only the body of one sweep is
    modelled. */
module ExecutionWorker {
  import opened Common
  import opened Domain
  import opened Outbox
  import opened Store
  import opened OsCanceled

  /** The failure oracle: the job at table position k has its enqueue throw
      with message `errs[k]`; every other enqueue succeeds. */
  function ErrorAt(errs: map<nat, string>, k: nat): Option<string> {
    if k in errs then Some(errs[k]) else None
  }

  /** The job fields assigned before the enqueue: status, `UpdatedAt`, and
      `FinishedAt` when the new status is Finished. */
  function Transitioned(job: ExecutionJob, newStatus: ExecutionStatus, now: Instant): ExecutionJob {
    job.(status := newStatus, updatedAt := Some(now),
         finishedAt := if newStatus == Finished then Some(now) else job.finishedAt)
  }

  /** The catch branch: the job is marked Failed with the exception message. */
  function FailedJob(job: ExecutionJob, message: string, now: Instant): ExecutionJob {
    job.(status := Failed, lastError := Some(message), updatedAt := Some(now))
  }

  /** `ExecutionFinished` carries `{OsId, CorrelationId, JobId, Status,
      FinishedAt, DurationSeconds}`; `ExecutionProgressed` carries `{OsId,
      CorrelationId, JobId, Status, UpdatedAt}` with the new status's name.
      `job` is the row just transitioned at `now`, so its `FinishedAt` (for
      Finished) and its `UpdatedAt` are both `now`. */
  function TransitionPayload(job: ExecutionJob, now: Instant): Payload {
    if job.status == Finished then
      Object(NoProps.(
        osId := Some(Str(job.osId)),
        correlationId := Some(Str(job.correlationId)),
        jobId := Some(Str(GuidText(job.id))),
        status := Some(Str("Finished")),
        finishedAt := Some(Str(NatText(now))),
        durationSeconds := Some(Int(now - job.createdAt))))
    else
      Object(NoProps.(
        osId := Some(Str(job.osId)),
        correlationId := Some(Str(job.correlationId)),
        jobId := Some(Str(GuidText(job.id))),
        status := Some(Str(StatusName(job.status))),
        updatedAt := Some(Str(NatText(now)))))
  }

  /** The outbox row one successful transition enqueues. */
  function TransitionEvent(job: ExecutionJob, id: Guid, now: Instant): OutboxEvent {
    OutboxEvent(id, if job.status == Finished then "ExecutionFinished" else "ExecutionProgressed",
                TransitionPayload(job, now), now, false, None)
  }

  /** What the sweep leaves in one job row. */
  function StepJob(job: ExecutionJob, now: Instant, err: Option<string>): ExecutionJob {
    if !IsActive(job.status) then job
    else
      var moved := Transitioned(job, Successor(job.status), now);
      if err.Some? then FailedJob(moved, err.value, now) else moved
  }

  /** The event one job's step enqueues: none for a job the sweep skips or
      whose enqueue fails. */
  function StepEvents(job: ExecutionJob, now: Instant, err: Option<string>, id: Guid): seq<OutboxEvent> {
    if IsActive(job.status) && err.None? then [JobEvent(job, id, now)] else []
  }

  /** The event of a selected job whose move succeeds. */
  function JobEvent(job: ExecutionJob, id: Guid, now: Instant): OutboxEvent
    requires IsActive(job.status)
  {
    TransitionEvent(Transitioned(job, Successor(job.status), now), id, now)
  }

  /** `TransitionToAsync`: assign the new status and times, then enqueue;
      a failed enqueue turns the job Failed instead. The event's Guid is
      drawn before the enqueue is attempted. */
  method TransitionToAsync(db: ExecutionDb, i: nat, newStatus: ExecutionStatus, now: Instant, err: Option<string>)
    requires db.Valid() && i < |db.jobs|
    modifies db
    ensures db.Valid()
    ensures var moved := Transitioned(old(db.jobs[i]), newStatus, now);
      && db.jobs == old(db.jobs)[i := if err.Some? then FailedJob(moved, err.value, now) else moved]
      && db.outbox == old(db.outbox) + (if err.None? then [TransitionEvent(moved, old(db.nextGuid), now)] else [])
    ensures db.inbox == old(db.inbox) && db.nextGuid == old(db.nextGuid) + 1
  {
    var job := Transitioned(db.jobs[i], newStatus, now);
    db.SetJob(i, job);
    var outboxId := db.NewGuid();
    if err.None? {
      db.AddOutboxEvent(TransitionEvent(job, outboxId, now));
    } else {
      db.SetJob(i, FailedJob(job, err.value, now));
    }
  }

  /** What one iteration of the sweep does to the store: row `i` moves one
      step if it is selected, one Guid is drawn for it, and its event is
      appended unless the enqueue fails. */
  function Advance(s: DbState, i: nat, now: Instant, err: Option<string>): DbState
    requires i < |s.jobs|
  {
    var job := s.jobs[i];
    s.(jobs := s.jobs[i := StepJob(job, now, err)],
       outbox := s.outbox + StepEvents(job, now, err, s.nextGuid),
       nextGuid := s.nextGuid + if IsActive(job.status) then 1 else 0)
  }

  /** One iteration of the sweep: the `if` chain on the job's status. */
  method AdvanceJob(db: ExecutionDb, i: nat, now: Instant, err: Option<string>)
    requires db.Valid() && i < |db.jobs|
    modifies db
    ensures db.Valid()
    ensures db.State() == Advance(old(db.State()), i, now, err)
  {
    var job := db.jobs[i];
    if job.status == Queued {
      TransitionToAsync(db, i, Diagnosing, now, err);
    } else if job.status == Diagnosing {
      TransitionToAsync(db, i, Repairing, now, err);
    } else if job.status == Repairing {
      TransitionToAsync(db, i, Finished, now, err);
    } else {
      assert db.jobs == db.jobs[i := job] && db.outbox == db.outbox + [];
    }
  }

  /** The job table after the sweep has visited the first `i` rows. */
  function SweptJobs(jobs: seq<ExecutionJob>, i: nat, now: Instant, errs: map<nat, string>): (r: seq<ExecutionJob>)
    requires i <= |jobs|
    ensures |r| == |jobs|
  {
    if i == 0 then jobs
    else SweptJobs(jobs, i - 1, now, errs)[i - 1 := StepJob(jobs[i - 1], now, ErrorAt(errs, i - 1))]
  }

  /** The number of jobs among the first `i` rows that the sweep selects,
      which is the number of Guids it draws for them. */
  function ActiveCount(jobs: seq<ExecutionJob>, i: nat): nat
    requires i <= |jobs|
  {
    if i == 0 then 0
    else ActiveCount(jobs, i - 1) + if IsActive(jobs[i - 1].status) then 1 else 0
  }

  /** The rows among the first `i` whose step adds an event: the selected
      rows whose enqueue succeeds, in table order. */
  function Emitting(jobs: seq<ExecutionJob>, i: nat, errs: map<nat, string>): (r: seq<nat>)
    requires i <= |jobs|
    ensures |r| <= i
    ensures forall q :: 0 <= q < |r| ==> r[q] < i && IsActive(jobs[r[q]].status) && r[q] !in errs
  {
    if i == 0 then []
    else Emitting(jobs, i - 1, errs) + if IsActive(jobs[i - 1].status) && i - 1 !in errs then [i - 1] else []
  }

  /** The event the sweep enqueues for the selected row `k`: Guids are drawn
      in table order, one per selected row, starting at `firstId`. */
  function EventOf(jobs: seq<ExecutionJob>, k: nat, now: Instant, firstId: Guid): OutboxEvent
    requires k < |jobs| && IsActive(jobs[k].status)
  {
    JobEvent(jobs[k], firstId + ActiveCount(jobs, k), now)
  }

  /** The outbox after the sweep has visited the first `i` rows: `rows`
      followed by the events of the emitting rows, in table order. */
  function SweptOutbox(jobs: seq<ExecutionJob>, rows: seq<OutboxEvent>, i: nat, now: Instant, errs: map<nat, string>, firstId: Guid): seq<OutboxEvent>
    requires i <= |jobs|
  {
    var ks := Emitting(jobs, i, errs);
    rows + seq(|ks|, q requires 0 <= q < |ks| => EventOf(jobs, ks[q], now, firstId))
  }

  /** The store after the sweep's loop has visited the first `i` rows: one
      `Advance` per row, in table order. */
  function SweepUpTo(s: DbState, i: nat, now: Instant, errs: map<nat, string>): (r: DbState)
    requires i <= |s.jobs|
    ensures |r.jobs| == |s.jobs|
  {
    if i == 0 then s
    else Advance(SweepUpTo(s, i - 1, now, errs), i - 1, now, ErrorAt(errs, i - 1))
  }

  /** The same store in closed form: the visited rows stepped, the events of
      the emitting rows appended, one Guid drawn per selected row. */
  function SweptState(s: DbState, i: nat, now: Instant, errs: map<nat, string>): DbState
    requires i <= |s.jobs|
  {
    s.(jobs := SweptJobs(s.jobs, i, now, errs),
       outbox := SweptOutbox(s.jobs, s.outbox, i, now, errs, s.nextGuid),
       nextGuid := s.nextGuid + ActiveCount(s.jobs, i))
  }

  /** What one whole sweep does to the store. */
  function Sweep(s: DbState, now: Instant, errs: map<nat, string>): DbState {
    SweptState(s, |s.jobs|, now, errs)
  }

  /** The loop's specification and the closed form agree after every row. */
  lemma {:induction false} SweepUpToIs(s: DbState, i: nat, now: Instant, errs: map<nat, string>)
    requires i <= |s.jobs|
    ensures SweepUpTo(s, i, now, errs) == SweptState(s, i, now, errs)
  {
    if i > 0 {
      SweepUpToIs(s, i - 1, now, errs);
      SweepStep(s, i - 1, now, errs);
      assert SweepUpTo(s, i, now, errs) == Advance(SweptState(s, i - 1, now, errs), i - 1, now, ErrorAt(errs, i - 1));
    }
  }

  /** One more iteration extends the sweep by one row. */
  lemma SweepStep(s: DbState, i: nat, now: Instant, errs: map<nat, string>)
    requires i < |s.jobs|
    ensures Advance(SweptState(s, i, now, errs), i, now, ErrorAt(errs, i)) == SweptState(s, i + 1, now, errs)
  {
    NotYetSwept(s.jobs, i, now, errs);
    SweepStepJobs(s, i, now, errs);
    SweepStepOutbox(s, i, now, errs);
  }

  lemma SweepStepJobs(s: DbState, i: nat, now: Instant, errs: map<nat, string>)
    requires i < |s.jobs|
    requires SweptJobs(s.jobs, i, now, errs)[i] == s.jobs[i]
    ensures Advance(SweptState(s, i, now, errs), i, now, ErrorAt(errs, i)).jobs == SweptState(s, i + 1, now, errs).jobs
  {
  }

  lemma SweepStepOutbox(s: DbState, i: nat, now: Instant, errs: map<nat, string>)
    requires i < |s.jobs|
    requires SweptJobs(s.jobs, i, now, errs)[i] == s.jobs[i]
    ensures Advance(SweptState(s, i, now, errs), i, now, ErrorAt(errs, i)).outbox == SweptState(s, i + 1, now, errs).outbox
  {
    AdvanceOutbox(SweptState(s, i, now, errs), i, now, ErrorAt(errs, i));
    SweptStateOutbox(s, i, now, errs);
  }

  /** One iteration appends the events of the visited row's step. */
  lemma AdvanceOutbox(t: DbState, i: nat, now: Instant, err: Option<string>)
    requires i < |t.jobs|
    ensures Advance(t, i, now, err).outbox == t.outbox + StepEvents(t.jobs[i], now, err, t.nextGuid)
  {
  }

  /** The specification of the first `i + 1` rows extends that of the first
      `i` by the step of row `i`, with the Guid drawn next. */
  lemma SweptStateOutbox(s: DbState, i: nat, now: Instant, errs: map<nat, string>)
    requires i < |s.jobs|
    ensures SweptState(s, i + 1, now, errs).outbox
      == SweptState(s, i, now, errs).outbox + StepEvents(s.jobs[i], now, ErrorAt(errs, i), SweptState(s, i, now, errs).nextGuid)
  {
    SweptStateFields(s, i, now, errs);
    SweptStateFields(s, i + 1, now, errs);
    SweptOutboxStep(s.jobs, s.outbox, i, now, errs, s.nextGuid);
  }

  /** The outbox and Guid counter of the specification after `i` rows. */
  lemma SweptStateFields(s: DbState, i: nat, now: Instant, errs: map<nat, string>)
    requires i <= |s.jobs|
    ensures SweptState(s, i, now, errs).outbox == SweptOutbox(s.jobs, s.outbox, i, now, errs, s.nextGuid)
    ensures SweptState(s, i, now, errs).nextGuid == s.nextGuid + ActiveCount(s.jobs, i)
  {
  }

  /** Visiting one more row appends exactly the events of its step, with
      the next Guid. */
  lemma SweptOutboxStep(jobs: seq<ExecutionJob>, rows: seq<OutboxEvent>, i: nat, now: Instant, errs: map<nat, string>, firstId: Guid)
    requires i < |jobs|
    ensures SweptOutbox(jobs, rows, i + 1, now, errs, firstId)
      == SweptOutbox(jobs, rows, i, now, errs, firstId) + StepEvents(jobs[i], now, ErrorAt(errs, i), firstId + ActiveCount(jobs, i))
  {
    if IsActive(jobs[i].status) && i !in errs {
      SweptOutboxEmit(jobs, rows, i, now, errs, firstId);
    } else {
      assert Emitting(jobs, i + 1, errs) == Emitting(jobs, i, errs);
    }
  }

  /** A visited row whose step succeeds appends its own event. */
  lemma SweptOutboxEmit(jobs: seq<ExecutionJob>, rows: seq<OutboxEvent>, i: nat, now: Instant, errs: map<nat, string>, firstId: Guid)
    requires i < |jobs| && IsActive(jobs[i].status) && i !in errs
    ensures SweptOutbox(jobs, rows, i + 1, now, errs, firstId)
      == SweptOutbox(jobs, rows, i, now, errs, firstId) + [EventOf(jobs, i, now, firstId)]
  {
    var ks := Emitting(jobs, i, errs);
    var ks' := Emitting(jobs, i + 1, errs);
    var a := SweptOutbox(jobs, rows, i + 1, now, errs, firstId);
    var b := SweptOutbox(jobs, rows, i, now, errs, firstId) + [EventOf(jobs, i, now, firstId)];
    assert ks' == ks + [i];
    forall q | 0 <= q < |a| ensures a[q] == b[q] {
      if q >= |rows| + |ks| {
        assert ks'[q - |rows|] == i;
      } else if q >= |rows| {
        assert ks'[q - |rows|] == ks[q - |rows|];
      }
    }
  }

  /** One iteration of the loop, stated against the loop's specification. */
  method SweepRow(db: ExecutionDb, ghost s0: DbState, i: nat, now: Instant, errs: map<nat, string>)
    requires i < |s0.jobs|
    requires db.Valid() && db.State() == SweepUpTo(s0, i, now, errs)
    modifies db
    ensures db.Valid() && db.State() == SweepUpTo(s0, i + 1, now, errs)
  {
    AdvanceJob(db, i, now, ErrorAt(errs, i));
  }

  /** The body of one sweep: each selected job, in table order, moves one step. */
  method ExecuteSweep(db: ExecutionDb, now: Instant, errs: map<nat, string>)
    requires db.Valid()
    modifies db
    ensures db.Valid()
    ensures db.State() == Sweep(old(db.State()), now, errs)
  {
    ghost var s0 := db.State();
    var i := 0;
    while i < |db.jobs|
      invariant i <= |s0.jobs| == |db.jobs|
      invariant db.Valid() && db.State() == SweepUpTo(s0, i, now, errs)
    {
      SweepRow(db, s0, i, now, errs);
      i := i + 1;
    }
    SweepUpToIs(s0, i, now, errs);
  }

  /** After the first `i` rows: those rows are stepped, the rest untouched. */
  lemma {:induction false} SweptJobsAt(jobs: seq<ExecutionJob>, i: nat, now: Instant, errs: map<nat, string>)
    requires i <= |jobs|
    ensures forall k :: 0 <= k < |jobs| ==>
      SweptJobs(jobs, i, now, errs)[k] == if k < i then StepJob(jobs[k], now, ErrorAt(errs, k)) else jobs[k]
  {
    if i > 0 {
      SweptJobsAt(jobs, i - 1, now, errs);
    }
  }

  /** The row the next iteration visits is still as the sweep found it. */
  lemma NotYetSwept(jobs: seq<ExecutionJob>, i: nat, now: Instant, errs: map<nat, string>)
    requires i < |jobs|
    ensures SweptJobs(jobs, i, now, errs)[i] == jobs[i]
  {
    SweptJobsAt(jobs, i, now, errs);
  }

  /** Per job: Finished, Failed and Canceled rows are untouched; a selected
      row advances exactly one step (no skip, no backward move) and gets
      `UpdatedAt = now`, plus `FinishedAt = now` when it reaches Finished;
      when its enqueue fails it ends Failed with the error message instead.
      Identity, `OsId` and creation time never change. */
  lemma OneStepPerJob(s: DbState, now: Instant, errs: map<nat, string>, k: nat)
    requires k < |s.jobs|
    ensures var old_ := s.jobs[k]; var new_ := Sweep(s, now, errs).jobs[k];
      && new_.id == old_.id && new_.osId == old_.osId && new_.createdAt == old_.createdAt
      && (!IsActive(old_.status) ==> new_ == old_)
      && (IsActive(old_.status) && k !in errs ==>
            && new_.status == Successor(old_.status)
            && PathRank(new_.status) == PathRank(old_.status) + 1
            && new_.updatedAt == Some(now)
            && (new_.status == Finished ==> new_.finishedAt == Some(now)))
      && (IsActive(old_.status) && k in errs ==>
            new_.status == Failed && new_.lastError == Some(errs[k]) && new_.updatedAt == Some(now))
  {
    SweptJobsAt(s.jobs, |s.jobs|, now, errs);
    if IsActive(s.jobs[k].status) {
      HappyPath(s.jobs[k].status);
    }
  }

  /** A sweep never turns a terminal job active again, so at most one
      non-terminal job per `OsId` stays true. */
  lemma KeepsOneActiveJobPerOs(s: DbState, now: Instant, errs: map<nat, string>)
    requires OneActiveJobPerOs(s.jobs)
    ensures OneActiveJobPerOs(Sweep(s, now, errs).jobs)
  {
    var r := Sweep(s, now, errs).jobs;
    forall a, b | 0 <= a < b < |r| && r[a].osId == r[b].osId
      ensures IsTerminal(r[a].status) || IsTerminal(r[b].status)
    {
      OneStepPerJob(s, now, errs, a);
      OneStepPerJob(s, now, errs, b);
    }
  }


  /** The positions among the first `i` rows that the sweep selects and
      whose move succeeds. */
  function Succeeding(jobs: seq<ExecutionJob>, i: nat, errs: map<nat, string>): set<nat>
    requires i <= |jobs|
  {
    set k: nat | k < i && IsActive(jobs[k].status) && k !in errs
  }

  /** Growth of the succeeding set by one row. */
  lemma SucceedingStep(jobs: seq<ExecutionJob>, i: nat, errs: map<nat, string>)
    requires 0 < i <= |jobs|
    ensures |Succeeding(jobs, i, errs)|
      == |Succeeding(jobs, i - 1, errs)| + if IsActive(jobs[i - 1].status) && i - 1 !in errs then 1 else 0
  {
    var prev := Succeeding(jobs, i - 1, errs);
    var extra := if IsActive(jobs[i - 1].status) && i - 1 !in errs then {i - 1} else {};
    forall k | k in Succeeding(jobs, i, errs) ensures k in prev + extra {
    }
    assert Succeeding(jobs, i, errs) == prev + extra;
    assert i - 1 !in prev;
  }

  /** The emitting rows are exactly as many as the selected rows whose
      enqueue succeeds. */
  lemma {:induction false} EmittingIsSize(jobs: seq<ExecutionJob>, i: nat, errs: map<nat, string>)
    requires i <= |jobs|
    ensures |Emitting(jobs, i, errs)| == |Succeeding(jobs, i, errs)|
  {
    if i == 0 {
      assert Succeeding(jobs, i, errs) == {};
    } else {
      EmittingIsSize(jobs, i - 1, errs);
      SucceedingStep(jobs, i, errs);
    }
  }

  /** Visiting more rows keeps the emitting rows found so far, in place. */
  lemma {:induction false} EmittingPrefix(jobs: seq<ExecutionJob>, a: nat, b: nat, errs: map<nat, string>)
    requires a <= b <= |jobs|
    ensures var ka := Emitting(jobs, a, errs);
      |ka| <= |Emitting(jobs, b, errs)| && ka == Emitting(jobs, b, errs)[..|ka|]
  {
    if a < b {
      EmittingPrefix(jobs, a, b - 1, errs);
      var ka := Emitting(jobs, a, errs);
      var prev := Emitting(jobs, b - 1, errs);
      assert Emitting(jobs, b, errs)[..|ka|] == prev[..|ka|];
    }
  }

  /** Each selected row whose enqueue succeeds is an emitting row, at the
      position that counts the emitting rows before it. */
  lemma EmittingAt(jobs: seq<ExecutionJob>, k: nat, i: nat, errs: map<nat, string>)
    requires k < i <= |jobs| && IsActive(jobs[k].status) && k !in errs
    ensures var p := |Emitting(jobs, k, errs)|;
      p < |Emitting(jobs, i, errs)| && Emitting(jobs, i, errs)[p] == k
  {
    EmittingPrefix(jobs, k + 1, i, errs);
  }

  /** Conversely, each emitting row sits at the position that counts the
      emitting rows before it. */
  lemma {:induction false} EmittingOwner(jobs: seq<ExecutionJob>, i: nat, errs: map<nat, string>, q: nat)
    requires i <= |jobs| && q < |Emitting(jobs, i, errs)|
    ensures q == |Emitting(jobs, Emitting(jobs, i, errs)[q], errs)|
  {
    if i > 0 {
      var prev := Emitting(jobs, i - 1, errs);
      if q < |prev| {
        EmittingOwner(jobs, i - 1, errs, q);
        assert Emitting(jobs, i, errs)[q] == prev[q];
      }
    }
  }

  /** Emitting rows come in table order. */
  lemma {:induction false} EmittingIncreasing(jobs: seq<ExecutionJob>, i: nat, errs: map<nat, string>)
    requires i <= |jobs|
    ensures forall a, b :: 0 <= a < b < |Emitting(jobs, i, errs)| ==> Emitting(jobs, i, errs)[a] < Emitting(jobs, i, errs)[b]
  {
    if i > 0 {
      EmittingIncreasing(jobs, i - 1, errs);
      var prev := Emitting(jobs, i - 1, errs);
      var ks := Emitting(jobs, i, errs);
      forall a, b | 0 <= a < b < |ks| ensures ks[a] < ks[b] {
        assert ks[a] == prev[a];
        if b < |prev| {
          assert ks[b] == prev[b];
        } else {
          assert ks[b] == i - 1;
          assert prev[a] < i - 1;
        }
      }
    }
  }

  /** A selected row draws its Guid before every row visited after it. */
  lemma {:induction false} ActiveCountGrows(jobs: seq<ExecutionJob>, a: nat, b: nat)
    requires a < b <= |jobs| && IsActive(jobs[a].status)
    ensures ActiveCount(jobs, a) < ActiveCount(jobs, b)
  {
    if a < b - 1 {
      ActiveCountGrows(jobs, a, b - 1);
    }
  }

  /** The number of events enqueued in a sweep equals the number of
      selected jobs whose transition did not fail; rows already in the
      outbox stay where they were. */
  lemma EventCount(s: DbState, now: Instant, errs: map<nat, string>)
    ensures var r := Sweep(s, now, errs);
      && |r.outbox| == |s.outbox| + |set k: nat | k < |s.jobs| && IsActive(s.jobs[k].status) && k !in errs|
      && forall k :: 0 <= k < |s.outbox| ==> r.outbox[k] == s.outbox[k]
  {
    EmittingIsSize(s.jobs, |s.jobs|, errs);
  }

  /** An event of the kinds a sweep enqueues: unpublished, and either
      `ExecutionFinished` with status "Finished" or `ExecutionProgressed`
      with the name of the intermediate status just entered. */
  predicate IsTransitionEvent(e: OutboxEvent) {
    && !e.published && e.payload.Object?
    && var status := e.payload.props.status;
    || (e.eventType == "ExecutionFinished" && status == Some(Str("Finished")))
    || (e.eventType == "ExecutionProgressed" && (status == Some(Str("Diagnosing")) || status == Some(Str("Repairing"))))
  }

  /** The event the worker enqueues when it moves `job` one step at `now`:
      unpublished, created at `now`, `ExecutionFinished` when the step
      reaches Finished and `ExecutionProgressed` otherwise, with the job's
      `OsId`, `CorrelationId` and `JobId`, the name of the status entered,
      and `FinishedAt` and `DurationSeconds` (finish) or `UpdatedAt`
      (progress) taken from `now`. */
  predicate EventFor(e: OutboxEvent, job: ExecutionJob, now: Instant) {
    && IsActive(job.status)
    && var next := Successor(job.status);
    && !e.published && e.publishedAt.None? && e.createdAt == now
    && e.eventType == (if next == Finished then "ExecutionFinished" else "ExecutionProgressed")
    && e.payload.Object?
    && var p := e.payload.props;
    && p.osId == Some(Str(job.osId))
    && p.correlationId == Some(Str(job.correlationId))
    && p.jobId == Some(Str(GuidText(job.id)))
    && p.status == Some(Str(StatusName(next)))
    && if next == Finished
       then p.finishedAt == Some(Str(NatText(now))) && p.durationSeconds == Some(Int(now - job.createdAt))
       else p.updatedAt == Some(Str(NatText(now)))
  }

  /** The event built for a selected job carries the Guid given and is that
      job's transition event, so one of the kinds a sweep enqueues. */
  lemma JobEventFor(e: OutboxEvent, job: ExecutionJob, id: Guid, now: Instant)
    requires IsActive(job.status) && e == JobEvent(job, id, now)
    ensures e.id == id && EventFor(e, job, now) && IsTransitionEvent(e)
  {
    HappyPath(job.status);
  }

  /** A step enqueues one event exactly when the job is selected and its
      enqueue succeeds, and that event is the job's own transition event,
      carrying the Guid drawn for it. */
  lemma StepEventKind(job: ExecutionJob, now: Instant, err: Option<string>, id: Guid)
    ensures |StepEvents(job, now, err, id)| == if IsActive(job.status) && err.None? then 1 else 0
    ensures forall e :: e in StepEvents(job, now, err, id) ==> e.id == id && EventFor(e, job, now)
  {
    if IsActive(job.status) {
      JobEventFor(JobEvent(job, id, now), job, id, now);
    }
  }

  /** The rows of `r` from position `from` on are transition events with
      ids in `[lo, hi)`, increasing along the table. */
  predicate AddedEvents(r: seq<OutboxEvent>, from: nat, lo: nat, hi: nat) {
    && from <= |r|
    && (forall k :: from <= k < |r| ==> lo <= r[k].id < hi && IsTransitionEvent(r[k]))
    && (forall a, b :: from <= a < b < |r| ==> r[a].id < r[b].id)
  }

  /** Each row the sweep adds is the transition event of its emitting row,
      with the Guid drawn for that row. */
  lemma SweptRow(jobs: seq<ExecutionJob>, rows: seq<OutboxEvent>, i: nat, now: Instant, errs: map<nat, string>, firstId: Guid, p: nat)
    requires i <= |jobs| && |rows| <= p < |SweptOutbox(jobs, rows, i, now, errs, firstId)|
    ensures var k := Emitting(jobs, i, errs)[p - |rows|];
      var e := SweptOutbox(jobs, rows, i, now, errs, firstId)[p];
      && k < i && IsActive(jobs[k].status) && k !in errs
      && e.id == firstId + ActiveCount(jobs, k) && EventFor(e, jobs[k], now) && IsTransitionEvent(e)
  {
    var k := Emitting(jobs, i, errs)[p - |rows|];
    JobEventFor(SweptOutbox(jobs, rows, i, now, errs, firstId)[p], jobs[k], firstId + ActiveCount(jobs, k), now);
  }

  /** The rows the sweep adds are transition events carrying the Guids
      drawn, in increasing order, so no two share an id. */
  lemma SweptOutboxAdded(jobs: seq<ExecutionJob>, rows: seq<OutboxEvent>, i: nat, now: Instant, errs: map<nat, string>, firstId: Guid)
    requires i <= |jobs|
    ensures AddedEvents(SweptOutbox(jobs, rows, i, now, errs, firstId), |rows|, firstId, firstId + ActiveCount(jobs, i))
  {
    var r := SweptOutbox(jobs, rows, i, now, errs, firstId);
    var ks := Emitting(jobs, i, errs);
    forall p | |rows| <= p < |r| ensures firstId <= r[p].id < firstId + ActiveCount(jobs, i) && IsTransitionEvent(r[p]) {
      SweptRow(jobs, rows, i, now, errs, firstId, p);
      ActiveCountGrows(jobs, ks[p - |rows|], i);
    }
    EmittingIncreasing(jobs, i, errs);
    forall a, b | |rows| <= a < b < |r| ensures r[a].id < r[b].id {
      SweptRow(jobs, rows, i, now, errs, firstId, a);
      SweptRow(jobs, rows, i, now, errs, firstId, b);
      assert ks[a - |rows|] < ks[b - |rows|];
      ActiveCountGrows(jobs, ks[a - |rows|], ks[b - |rows|]);
    }
  }

  /** Each visited job whose step succeeds has its row among the added
      ones, at the position that counts the succeeding jobs before it. */
  lemma SweptJobRow(jobs: seq<ExecutionJob>, rows: seq<OutboxEvent>, i: nat, now: Instant, errs: map<nat, string>, firstId: Guid, k: nat)
    requires k < i <= |jobs| && IsActive(jobs[k].status) && k !in errs
    ensures var r := SweptOutbox(jobs, rows, i, now, errs, firstId);
      var p := |rows| + |Emitting(jobs, k, errs)|;
      && p < |r| && r[p].id == firstId + ActiveCount(jobs, k) && EventFor(r[p], jobs[k], now)
  {
    EmittingAt(jobs, k, i, errs);
    SweptRow(jobs, rows, i, now, errs, firstId, |rows| + |Emitting(jobs, k, errs)|);
  }

  /** Per job: each job whose step succeeds has one added row, at the
      position that counts the succeeding jobs before it (so jobs visited
      later have rows further on). That row carries the Guid drawn for the
      job and is its transition event: its ids, the status entered, the
      matching event type. */
  lemma SweepEventOfJob(s: DbState, now: Instant, errs: map<nat, string>, k: nat)
    requires k < |s.jobs| && IsActive(s.jobs[k].status) && k !in errs
    ensures var r := Sweep(s, now, errs).outbox;
      var p := |s.outbox| + |Emitting(s.jobs, k, errs)|;
      && p < |r| && r[p].id == s.nextGuid + ActiveCount(s.jobs, k) && EventFor(r[p], s.jobs[k], now)
  {
    SweptJobRow(s.jobs, s.outbox, |s.jobs|, now, errs, s.nextGuid, k);
  }

  /** Rows of jobs visited earlier come earlier: two succeeding jobs never
      share a row position. */
  lemma JobRowsInOrder(jobs: seq<ExecutionJob>, errs: map<nat, string>, a: nat, b: nat)
    requires a < b <= |jobs| && IsActive(jobs[a].status) && a !in errs
    ensures |Emitting(jobs, a, errs)| < |Emitting(jobs, b, errs)|
  {
    EmittingAt(jobs, a, b, errs);
  }

  /** Every added row is the transition event of a visited job whose step
      succeeded, at that job's position, with that job's Guid. */
  lemma SweptRowOwner(jobs: seq<ExecutionJob>, rows: seq<OutboxEvent>, i: nat, now: Instant, errs: map<nat, string>, firstId: Guid, p: nat)
    requires i <= |jobs| && |rows| <= p < |SweptOutbox(jobs, rows, i, now, errs, firstId)|
    ensures exists k :: && 0 <= k < i && IsActive(jobs[k].status) && k !in errs
                        && p == |rows| + |Emitting(jobs, k, errs)|
                        && SweptOutbox(jobs, rows, i, now, errs, firstId)[p].id == firstId + ActiveCount(jobs, k)
                        && EventFor(SweptOutbox(jobs, rows, i, now, errs, firstId)[p], jobs[k], now)
  {
    var k := Emitting(jobs, i, errs)[p - |rows|];
    var e := SweptOutbox(jobs, rows, i, now, errs, firstId)[p];
    SweptRow(jobs, rows, i, now, errs, firstId, p);
    EmittingOwner(jobs, i, errs, p - |rows|);
    assert && 0 <= k < i && IsActive(jobs[k].status) && k !in errs
           && p == |rows| + |Emitting(jobs, k, errs)|
           && e.id == firstId + ActiveCount(jobs, k) && EventFor(e, jobs[k], now);
  }

  /** Per row: every row a sweep adds is the transition event of a job whose
      step succeeded, at that job's position, with that job's Guid. */
  lemma SweepRowOwner(s: DbState, now: Instant, errs: map<nat, string>, p: nat)
    requires |s.outbox| <= p < |Sweep(s, now, errs).outbox|
    ensures exists k :: && 0 <= k < |s.jobs| && IsActive(s.jobs[k].status) && k !in errs
                        && p == |s.outbox| + |Emitting(s.jobs, k, errs)|
                        && Sweep(s, now, errs).outbox[p].id == s.nextGuid + ActiveCount(s.jobs, k)
                        && EventFor(Sweep(s, now, errs).outbox[p], s.jobs[k], now)
  {
    SweptRowOwner(s.jobs, s.outbox, |s.jobs|, now, errs, s.nextGuid, p);
  }

  /** A sweep keeps the store's key invariant: the rows it adds have
      distinct ids never used before, all below the next Guid. */
  lemma KeepsWf(s: DbState, now: Instant, errs: map<nat, string>)
    requires Wf(s)
    ensures Wf(Sweep(s, now, errs))
  {
    var hi := s.nextGuid + ActiveCount(s.jobs, |s.jobs|);
    var r := SweptOutbox(s.jobs, s.outbox, |s.jobs|, now, errs, s.nextGuid);
    SweptOutboxAdded(s.jobs, s.outbox, |s.jobs|, now, errs, s.nextGuid);
    forall k | 0 <= k < |r| ensures r[k].id < hi {
      if k < |s.outbox| {
        assert r[k] == s.outbox[k];
      }
    }
    forall a, b | 0 <= a < b < |r| ensures r[a].id != r[b].id {
      if b < |s.outbox| {
        assert r[a] == s.outbox[a] && r[b] == s.outbox[b];
      } else if a < |s.outbox| {
        assert r[a] == s.outbox[a];
      }
    }
  }
}
