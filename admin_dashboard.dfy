/** The administrator's dashboard: the pending driver and truck choices per
    job, the assignment request and how its confirmation is merged into the
    job list, the status filter, and the "online" rule of the fleet map. */
module AdminDashboard {
  import opened Js
  import opened Jobs

  /** Which of a row's two selects changed. */
  datatype Field = DriverField | TruckField

  /** One entry of `assignments`: the choice made in each select, missing
      until that select is changed. */
  datatype Selection = Selection(driver: Option<string>, truck: Option<string>)

  const NoSelection: Selection := Selection(None, None)

  /** `{ ...prev[jobId], [type]: value }`: the changed select takes the value,
      the other keeps its choice. */
  function WithChoice(sel: Selection, field: Field, value: string): (r: Selection)
    ensures field == DriverField ==> r.driver == Some(value) && r.truck == sel.truck
    ensures field == TruckField ==> r.truck == Some(value) && r.driver == sel.driver
  {
    match field
    case DriverField => sel.(driver := Some(value))
    case TruckField => sel.(truck := Some(value))
  }

  /** The body of `PUT /api/jobs/:jobId/assign`. */
  datatype AssignRequest = AssignRequest(jobId: string, driverId: string, truckId: string)

  /** What `handleAssign` sends for a job: nothing unless both selects of
      that job have a non-empty pending choice, and then exactly those. */
  function RequestFor(assignments: map<string, Selection>, jobId: string): (r: Option<AssignRequest>)
    ensures r.Some? <==> jobId in assignments
                         && TruthyOpt(assignments[jobId].driver) && TruthyOpt(assignments[jobId].truck)
    ensures r.Some? ==> r.value == AssignRequest(jobId, assignments[jobId].driver.value, assignments[jobId].truck.value)
  {
    if jobId in assignments && TruthyOpt(assignments[jobId].driver) && TruthyOpt(assignments[jobId].truck)
    then Some(AssignRequest(jobId, assignments[jobId].driver.value, assignments[jobId].truck.value))
    else None
  }

  /** The patch a confirmed request applies: the roster entries with the
      chosen ids, or none where the roster has no such entry. */
  function AssignmentPatch(drivers: seq<Driver>, trucks: seq<Truck>, request: AssignRequest): Patch {
    Assign(FirstWithId(drivers, DriverId, request.driverId), FirstWithId(trucks, TruckId, request.truckId))
  }

  /** The pending choice of one select for a job, if any. */
  function Pending(assignments: map<string, Selection>, jobId: string, field: Field): Option<string> {
    if jobId !in assignments then None
    else if field == DriverField then assignments[jobId].driver
    else assignments[jobId].truck
  }

  /** The id the job currently has for one select, if any. */
  function Current(job: Job, field: Field): Option<string> {
    if field == DriverField then (if job.driver.Some? then Some(job.driver.value.id) else None)
    else (if job.truck.Some? then Some(job.truck.value.id) else None)
  }

  /** The value a row's select shows: `assigned.x || job.x?._id || ""`. */
  function Displayed(assignments: map<string, Selection>, job: Job, field: Field): (r: string)
    ensures TruthyOpt(Pending(assignments, job.id, field)) ==> r == Pending(assignments, job.id, field).value
    ensures !TruthyOpt(Pending(assignments, job.id, field)) ==> r == OrElse(Current(job, field), "")
    ensures !Truthy(r) <==> !TruthyOpt(Pending(assignments, job.id, field)) && !TruthyOpt(Current(job, field))
  {
    OrElse(Pending(assignments, job.id, field), OrElse(Current(job, field), ""))
  }

  /** Whether a row's Assign button is disabled. */
  predicate AssignDisabled(assignments: map<string, Selection>, assigningJobId: Option<string>, job: Job) {
    || !Truthy(Displayed(assignments, job, DriverField))
    || !Truthy(Displayed(assignments, job, TruckField))
    || assigningJobId == Some(job.id)
  }

  /** While a job's assignment is in flight its button is disabled, and a
      job whose request would be sent has its button enabled otherwise. */
  lemma AssignButtonState(assignments: map<string, Selection>, assigningJobId: Option<string>, job: Job)
    ensures assigningJobId == Some(job.id) ==> AssignDisabled(assignments, assigningJobId, job)
    ensures RequestFor(assignments, job.id).Some? && assigningJobId != Some(job.id) ==>
              !AssignDisabled(assignments, assigningJobId, job)
  {
  }

  /** The converse fails: the button is also enabled by the job's current
      driver and truck, which the handler does not read. A job already
      assigned driver "d1" and truck "t1", with only a new truck chosen,
      shows an enabled button whose click sends nothing. */
  lemma EnabledButtonMaySendNothing()
    ensures var job := Job("j1", "A St", "B St", "Box", "Ann", "5551234", "a@b.co",
                           Some(Driver("d1", "dan")), Some(Truck("t1", "CA 1")), "pending");
            var assignments := map["j1" := Selection(None, Some("t2"))];
            && !AssignDisabled(assignments, None, job)
            && RequestFor(assignments, job.id).None?
  {
  }

  /** The request as evidently intended: the driver and truck the row's
      selects show, so that a job keeps its current driver or truck for the
      select that was not changed. Wherever the handler as written sends a
      request, this one is the same. */
  function DisplayedRequest(assignments: map<string, Selection>, job: Job): (r: Option<AssignRequest>)
    ensures r.Some? <==> Truthy(Displayed(assignments, job, DriverField)) && Truthy(Displayed(assignments, job, TruckField))
    ensures r.Some? ==> r.value == AssignRequest(job.id, Displayed(assignments, job, DriverField), Displayed(assignments, job, TruckField))
    ensures RequestFor(assignments, job.id).Some? ==> r == RequestFor(assignments, job.id)
  {
    var driver := Displayed(assignments, job, DriverField);
    var truck := Displayed(assignments, job, TruckField);
    if Truthy(driver) && Truthy(truck) then Some(AssignRequest(job.id, driver, truck)) else None
  }

  /** With that request, the Assign button and the handler agree: every
      click on an enabled button sends a request. */
  lemma EnabledButtonSendsDisplayed(assignments: map<string, Selection>, assigningJobId: Option<string>, job: Job)
    ensures !AssignDisabled(assignments, assigningJobId, job) ==> DisplayedRequest(assignments, job).Some?
    ensures DisplayedRequest(assignments, job).None? ==> AssignDisabled(assignments, assigningJobId, job)
  {
  }

  /** The `isOnline` threshold: ten minutes, in milliseconds. */
  const OnlineWindowMs: int := 10 * 60 * 1000

  /** A driver is online when a last-update time exists and is less than the
      window before `now`; both are milliseconds since the epoch. */
  predicate IsOnline(lastUpdate: Option<int>, now: int) {
    lastUpdate.Some? && now - lastUpdate.value < OnlineWindowMs
  }

  /** Online status only lapses as time passes: online at a later moment
      means online at every earlier one, and ten minutes after the last
      update a driver is offline. */
  lemma OnlineLapses(lastUpdate: Option<int>, earlier: int, later: int)
    requires earlier <= later
    ensures IsOnline(lastUpdate, later) ==> IsOnline(lastUpdate, earlier)
    ensures lastUpdate.Some? && later >= lastUpdate.value + OnlineWindowMs ==> !IsOnline(lastUpdate, later)
  {
  }

  class Dashboard {
    var jobs: seq<Job>
    var drivers: seq<Driver>
    var trucks: seq<Truck>
    var assignments: map<string, Selection>
    var assigningJobId: Option<string>
    var statusFilter: string

    /** The dashboard once the job list and both rosters have loaded. */
    constructor (jobs: seq<Job>, drivers: seq<Driver>, trucks: seq<Truck>)
      ensures this.jobs == jobs && this.drivers == drivers && this.trucks == trucks
      ensures assignments == map[] && assigningJobId == None && statusFilter == AllStatuses
    {
      this.jobs, this.drivers, this.trucks := jobs, drivers, trucks;
      assignments := map[];
      assigningJobId := None;
      statusFilter := AllStatuses;
    }

    /** The rows the table shows. */
    function FilteredJobs(): (r: seq<Job>)
      reads this
      ensures forall j :: j in r <==> j in jobs && Shown(statusFilter, j)
    {
      FilterByStatus(jobs, statusFilter)
    }

    /** `handleSelectChange`: the job's entry records the new choice and
        keeps its other choice; every other entry is unchanged. */
    method HandleSelectChange(jobId: string, field: Field, value: string)
      modifies this`assignments
      ensures jobId in assignments
      ensures field == DriverField ==>
                assignments[jobId].driver == Some(value) && assignments[jobId].truck == old(Pending(assignments, jobId, TruckField))
      ensures field == TruckField ==>
                assignments[jobId].truck == Some(value) && assignments[jobId].driver == old(Pending(assignments, jobId, DriverField))
      ensures forall k :: k != jobId ==> (k in assignments <==> k in old(assignments))
      ensures forall k :: k != jobId && k in assignments ==> assignments[k] == old(assignments)[k]
    {
      var previous := if jobId in assignments then assignments[jobId] else NoSelection;
      assignments := assignments[jobId := WithChoice(previous, field, value)];
    }

    /** `handleAssign` up to its request: without both choices nothing
        happens; otherwise the job is marked as being assigned and the
        request with the pending choices goes out. */
    method BeginAssign(jobId: string) returns (request: Option<AssignRequest>)
      modifies this`assigningJobId
      ensures request == RequestFor(assignments, jobId)
      ensures request.Some? ==> assigningJobId == Some(jobId)
      ensures request.None? ==> unchanged(this)
    {
      request := RequestFor(assignments, jobId);
      if request.Some? {
        assigningJobId := Some(jobId);
      }
    }

    /** `handleAssign` after the server answered `request`. On acceptance
        the job takes the chosen roster entries and its pending choices are
        dropped; on refusal the list and the choices stay. Either way no
        job is being assigned afterwards. */
    method FinishAssign(request: AssignRequest, accepted: bool)
      modifies this`jobs, this`assignments, this`assigningJobId
      ensures accepted ==> jobs == UpdateWhere(old(jobs), request.jobId, AssignmentPatch(drivers, trucks, request))
      ensures accepted ==> assignments == old(assignments) - {request.jobId}
      ensures !accepted ==> jobs == old(jobs) && assignments == old(assignments)
      ensures assigningJobId == None
    {
      if accepted {
        jobs := UpdateWhere(jobs, request.jobId, AssignmentPatch(drivers, trucks, request));
        assignments := assignments - {request.jobId};
      }
      assigningJobId := None;
    }
  }
}
