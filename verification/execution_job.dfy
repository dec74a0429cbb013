/** The execution job and its six-valued status: the state space of the job
    state machine driven by the worker and the cancel handler. */
module Domain {
  import opened Common

  datatype ExecutionStatus = Queued | Diagnosing | Repairing | Finished | Failed | Canceled

  /** Every status, in declaration order. */
  const AllStatuses: seq<ExecutionStatus> :=
    [Queued, Diagnosing, Repairing, Finished, Failed, Canceled]

  /** A job row. `updatedAt`, `finishedAt` and `lastError` are the nullable columns. */
  datatype ExecutionJob = ExecutionJob(
    id: Guid,
    osId: string,
    status: ExecutionStatus,
    attempt: int,
    lastError: Option<string>,
    createdAt: Instant,
    updatedAt: Option<Instant>,
    finishedAt: Option<Instant>,
    correlationId: string)

  /** Finished, Failed and Canceled: no worker step or cancellation applies. */
  predicate IsTerminal(s: ExecutionStatus) {
    s == Finished || s == Failed || s == Canceled
  }

  /** The statuses the worker selects in a sweep. */
  predicate IsActive(s: ExecutionStatus) {
    s == Queued || s == Diagnosing || s == Repairing
  }

  /** The one forward step the worker applies to an active status. */
  function Successor(s: ExecutionStatus): ExecutionStatus
    requires IsActive(s)
  {
    match s
    case Queued => Diagnosing
    case Diagnosing => Repairing
    case Repairing => Finished
  }

  /** Position on the happy path Queued, Diagnosing, Repairing, Finished. */
  function PathRank(s: ExecutionStatus): nat
    requires !(s == Failed || s == Canceled)
  {
    match s
    case Queued => 0
    case Diagnosing => 1
    case Repairing => 2
    case Finished => 3
  }

  /** `ExecutionStatus.ToString()`, the status name written into payloads. */
  function StatusName(s: ExecutionStatus): string {
    match s
    case Queued => "Queued"
    case Diagnosing => "Diagnosing"
    case Repairing => "Repairing"
    case Finished => "Finished"
    case Failed => "Failed"
    case Canceled => "Canceled"
  }

  /** The status type has exactly six values, all distinct, and every one is
      either active or terminal, never both. */
  lemma SixStatuses(s: ExecutionStatus)
    ensures |AllStatuses| == 6 && s in AllStatuses
    ensures forall i, j :: 0 <= i < j < |AllStatuses| ==> AllStatuses[i] != AllStatuses[j]
    ensures IsActive(s) != IsTerminal(s)
  {
  }

  /** Distinct statuses have distinct names, so a payload's status text
      identifies the status. */
  lemma StatusNameInjective(s: ExecutionStatus, t: ExecutionStatus)
    ensures StatusName(s) == StatusName(t) ==> s == t
  {
    if s != t {
      match s
      case Queued => assert StatusName(s)[0] == 'Q';
      case Diagnosing => assert StatusName(s)[0] == 'D';
      case Repairing => assert StatusName(s)[0] == 'R';
      case Finished => assert StatusName(s)[..2] == "Fi";
      case Failed => assert StatusName(s)[..2] == "Fa";
      case Canceled => assert StatusName(s)[0] == 'C';
    }
  }

  /** The happy path: each worker step moves exactly one position forward,
      and Finished is reached from Queued in exactly three steps. */
  lemma HappyPath(s: ExecutionStatus)
    requires IsActive(s)
    ensures !(Successor(s) == Failed || Successor(s) == Canceled)
    ensures PathRank(Successor(s)) == PathRank(s) + 1
    ensures Successor(Successor(Successor(Queued))) == Finished
    ensures IsTerminal(Successor(s)) <==> s == Repairing
  {
  }
}
