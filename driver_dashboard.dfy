/** The driver's dashboard: the status update merged into the job list, the
    status filter, the action offered for each status, and when the
    "No assigned deliveries." message shows. */
module DriverDashboard {
  import opened Js
  import opened Jobs

  const Pending: string := "pending"
  const InProgress: string := "in-progress"
  const Completed: string := "completed"

  const EmptyMessage: string := "No assigned deliveries."

  /** The Actions cell of a row. */
  datatype ActionCell = UpdateButton(caption: string, next: string) | DeliveredBadge | NoAction

  /** The action offered for a status: start a pending delivery, finish one
      in progress, a badge for a completed one, nothing for any other status. */
  function ActionFor(status: string): (a: ActionCell)
    ensures a.UpdateButton? <==> status == Pending || status == InProgress
    ensures a == DeliveredBadge <==> status == Completed
    ensures a == NoAction <==> status != Pending && status != InProgress && status != Completed
  {
    if status == Pending then UpdateButton("Start Delivery", InProgress)
    else if status == InProgress then UpdateButton("Mark Delivered", Completed)
    else if status == Completed then DeliveredBadge
    else NoAction
  }

  /** The status an offered button moves a job to, if a button is offered. */
  function NextStatus(status: string): (r: Option<string>)
    ensures r.Some? <==> status == Pending || status == InProgress
    ensures r.Some? ==> r.value == (if status == Pending then InProgress else Completed)
  {
    match ActionFor(status)
    case UpdateButton(_, next) => Some(next)
    case _ => None
  }

  /** The position of a status on the driver's path; others are off it. */
  function Rank(status: string): int {
    if status == Pending then 0 else if status == InProgress then 1 else if status == Completed then 2 else -1
  }

  /** Every offered update moves a job one step forward on the path. */
  lemma OfferedActionAdvances(status: string)
    requires NextStatus(status).Some?
    ensures Rank(NextStatus(status).value) == Rank(status) + 1
  {
  }

  /** The status after pressing the offered button `n` times. */
  function Run(status: string, n: nat): string
    decreases n
  {
    if n == 0 then status
    else match NextStatus(status)
      case Some(next) => Run(next, n - 1)
      case None => status
  }

  /** From "pending" the offered actions reach "completed" after exactly two
      updates, and no further update is ever offered. */
  lemma {:induction false} PendingCompletesInTwo(n: nat)
    ensures Run(Pending, 1) == InProgress
    ensures n >= 2 ==> Run(Pending, n) == Completed
    ensures NextStatus(Completed).None? && ActionFor(Completed) == DeliveredBadge
  {
    if n >= 2 {
      CompletedStays(n - 2);
      assert Run(Pending, n) == Run(InProgress, n - 1) == Run(Completed, n - 2);
    }
  }

  lemma CompletedStays(n: nat)
    ensures Run(Completed, n) == Completed
  {
  }

  /** Whether the "No assigned deliveries." message shows in place of the
      table. */
  predicate ShowsEmptyMessage(loading: bool, error: string, filtered: seq<Job>) {
    !loading && !Truthy(error) && |filtered| == 0
  }

  class Dashboard {
    var jobs: seq<Job>
    var loading: bool
    var error: string
    var filter: string

    /** The dashboard once the assigned jobs have loaded. */
    constructor (jobs: seq<Job>)
      ensures this.jobs == jobs && !loading && error == "" && filter == AllStatuses
    {
      this.jobs := jobs;
      loading := false;
      error := "";
      filter := AllStatuses;
    }

    /** The rows the table shows: a job is kept exactly when the filter is
        "all" or the job has the filter's status. */
    function FilteredJobs(): (r: seq<Job>)
      reads this
      ensures forall j :: j in r <==> j in jobs && Shown(filter, j)
    {
      FilterByStatus(jobs, filter)
    }

    /** The empty message shows only after loading, without an error, and
        when no job passes the filter; with the filter "all" that means no
        job at all. */
    lemma EmptyMessageRule()
      ensures ShowsEmptyMessage(loading, error, FilteredJobs()) ==> !loading && error == ""
      ensures filter == AllStatuses ==>
                (ShowsEmptyMessage(loading, error, FilteredJobs()) <==> !loading && error == "" && jobs == [])
    {
      if filter == AllStatuses {
        FilterAllIsIdentity(jobs);
      }
    }

    /** `updateStatus`: once the server accepts, the jobs with that id take
        the new status and nothing else changes; a refusal leaves the list. */
    method UpdateStatus(jobId: string, newStatus: string, accepted: bool)
      modifies this`jobs
      ensures accepted ==> jobs == UpdateWhere(old(jobs), jobId, SetStatus(newStatus))
      ensures !accepted ==> jobs == old(jobs)
    {
      if accepted {
        jobs := UpdateWhere(jobs, jobId, SetStatus(newStatus));
      }
    }
  }
}
