/** The job records the two dashboards hold, and the two list operations
    they share: keeping the jobs a status filter shows, and replacing the
    jobs with a given id after the server confirmed a change. */
module Jobs {
  import opened Js

  datatype Driver = Driver(id: string, username: string)
  datatype Truck = Truck(id: string, plateNumber: string)

  datatype Job = Job(
    id: string,
    pickup: string,
    delivery: string,
    packageDetails: string,
    customerName: string,
    phone: string,
    email: string,
    driver: Option<Driver>,
    truck: Option<Truck>,
    status: string)

  /** The filter value that shows every job. */
  const AllStatuses: string := "all"

  /** Whether a job passes the status filter. */
  predicate Shown(filter: string, job: Job) {
    filter == AllStatuses || job.status == filter
  }

  /** `jobs.filter(...)` with the status filter: exactly the jobs the filter
      shows, in their original order. */
  function FilterByStatus(jobs: seq<Job>, filter: string): (r: seq<Job>)
    ensures |r| <= |jobs|
    ensures forall j :: j in r <==> j in jobs && Shown(filter, j)
  {
    if jobs == [] then []
    else (if Shown(filter, jobs[0]) then [jobs[0]] else []) + FilterByStatus(jobs[1..], filter)
  }

  /** Filtering distributes over concatenation, so relative order is kept:
      with the one-element case this determines the filter completely. */
  lemma {:induction false} FilterAppend(a: seq<Job>, b: seq<Job>, filter: string)
    ensures FilterByStatus(a + b, filter) == FilterByStatus(a, filter) + FilterByStatus(b, filter)
  {
    if a == [] {
      assert a + b == b;
    } else {
      assert (a + b)[1..] == a[1..] + b;
      FilterAppend(a[1..], b, filter);
    }
  }

  /** The filter "all" shows the whole list unchanged. */
  lemma {:induction false} FilterAllIsIdentity(jobs: seq<Job>)
    ensures FilterByStatus(jobs, AllStatuses) == jobs
  {
    if jobs != [] {
      FilterAllIsIdentity(jobs[1..]);
    }
  }

  /** A filter other than "all" that no job's status equals leaves the
      list empty. */
  lemma {:induction false} FilterNoneMatch(jobs: seq<Job>, filter: string)
    requires filter != AllStatuses
    requires forall i :: 0 <= i < |jobs| ==> jobs[i].status != filter
    ensures FilterByStatus(jobs, filter) == []
  {
    if jobs != [] {
      FilterNoneMatch(jobs[1..], filter);
    }
  }

  /** The first element of `xs` whose id is `id`, as `Array.prototype.find`
      returns it. */
  function FirstWithId<T>(xs: seq<T>, idOf: T -> string, id: string): (r: Option<T>)
    ensures r.None? <==> forall k :: 0 <= k < |xs| ==> idOf(xs[k]) != id
    ensures r.Some? ==> exists k :: 0 <= k < |xs| && xs[k] == r.value && idOf(xs[k]) == id
                                    && forall m :: 0 <= m < k ==> idOf(xs[m]) != id
  {
    if xs == [] then None
    else if idOf(xs[0]) == id then Some(xs[0])
    else
      var r := FirstWithId(xs[1..], idOf, id);
      assert r.Some? ==> exists k :: 0 <= k < |xs| && xs[k] == r.value && idOf(xs[k]) == id
                                    && forall m :: 0 <= m < k ==> idOf(xs[m]) != id by {
        if r.Some? {
          var k :| 0 <= k < |xs| - 1 && xs[1..][k] == r.value && idOf(xs[1..][k]) == id
                   && forall m :: 0 <= m < k ==> idOf(xs[1..][m]) != id;
          assert forall m :: 0 <= m < k + 1 ==> idOf(xs[m]) != id by {
            forall m | 0 <= m < k + 1 ensures idOf(xs[m]) != id {
              if m > 0 { assert xs[m] == xs[1..][m - 1]; }
            }
          }
        }
      }
      r
  }

  function DriverId(d: Driver): string { d.id }
  function TruckId(t: Truck): string { t.id }

  /** A change the server confirmed for one job. */
  datatype Patch =
    | Assign(driver: Option<Driver>, truck: Option<Truck>)
    | SetStatus(status: string)

  /** The fields that neither kind of patch touches. */
  predicate SameDetails(a: Job, b: Job) {
    && a.id == b.id && a.pickup == b.pickup && a.delivery == b.delivery
    && a.packageDetails == b.packageDetails && a.customerName == b.customerName
    && a.phone == b.phone && a.email == b.email
  }

  /** `{ ...job, driver, truck }` or `{ ...job, status }`: the patched fields
      take the new values and every other field is kept. */
  function Apply(job: Job, patch: Patch): (r: Job)
    ensures SameDetails(job, r)
    ensures patch.Assign? ==> r.driver == patch.driver && r.truck == patch.truck && r.status == job.status
    ensures patch.SetStatus? ==> r.status == patch.status && r.driver == job.driver && r.truck == job.truck
  {
    match patch
    case Assign(d, t) => job.(driver := d, truck := t)
    case SetStatus(s) => job.(status := s)
  }

  /** `jobs.map(job => job._id === id ? patched : job)`: the same length and
      order, the jobs with that id patched and every other job unchanged. */
  function UpdateWhere(jobs: seq<Job>, id: string, patch: Patch): (r: seq<Job>)
    ensures |r| == |jobs|
    ensures forall i :: 0 <= i < |jobs| ==>
              r[i] == if jobs[i].id == id then Apply(jobs[i], patch) else jobs[i]
  {
    if jobs == [] then []
    else [if jobs[0].id == id then Apply(jobs[0], patch) else jobs[0]] + UpdateWhere(jobs[1..], id, patch)
  }

  /** A patch for an id no job has changes nothing. */
  lemma UpdateAbsentId(jobs: seq<Job>, id: string, patch: Patch)
    requires forall i :: 0 <= i < |jobs| ==> jobs[i].id != id
    ensures UpdateWhere(jobs, id, patch) == jobs
  {
  }
}
