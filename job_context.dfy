/** The process-wide job state: the job list, the cached application list,
    and the loading and error flags, refreshed from the mock API. */
module JobContext {
  import opened Wrappers
  import opened Types
  import opened MockApi

  const FetchJobsFailed := "Failed to fetch jobs. Please try again later."
  const OutsideProvider := "useJobContext must be used within a JobProvider"

  /** The cached application list after a reload from `slot`: the stored list
      when it can be read, the previous cache when reading fails. */
  function Reload(applied: seq<JobApplication>, slot: Slot): seq<JobApplication> {
    match Load(slot)
    case Ok(applications) => applications
    case Err(_) => applied
  }

  /** Reloading twice from an unchanged store is reloading once. */
  lemma RefreshIdempotent(applied: seq<JobApplication>, slot: Slot)
    ensures Reload(Reload(applied, slot), slot) == Reload(applied, slot)
  {
  }

  /** After a write of `applications`, a reload sees exactly that list. */
  lemma ReloadReadsYourWrites(applied: seq<JobApplication>, applications: seq<JobApplication>)
    ensures Reload(applied, Stored(applications)) == applications
  {
  }

  /** The context's cache is the same whether a malformed read rejects (and
      the rejection is swallowed) or, as written, never settles: in both
      cases the previous cache stays. */
  lemma PendingReadKeepsCache(applied: seq<JobApplication>, slot: Slot)
    ensures GetApplicationsAsWritten(slot).StaysPending? ==> Reload(applied, slot) == applied
    ensures GetApplicationsAsWritten(slot).Resolves? ==> Reload(applied, slot) == GetApplicationsAsWritten(slot).value
  {
  }

  class JobProvider {
    const api: Api
    var jobs: seq<Job>
    var appliedJobs: seq<JobApplication>
    var loading: bool
    var error: Option<string>

    constructor (api: Api)
      ensures this.api == api
      ensures jobs == [] && appliedJobs == [] && loading && error == None
    {
      this.api := api;
      jobs := [];
      appliedJobs := [];
      loading := true;
      error := None;
    }

    /** Applies the settled jobs request: the jobs and a cleared error on
        success, the fixed message and the old jobs on failure; loading ends
        either way. */
    method FetchJobs(response: Result<seq<Job>>)
      modifies this
      ensures response.Ok? ==> jobs == response.value && error == None
      ensures response.Err? ==> jobs == old(jobs) && error == Some(FetchJobsFailed)
      ensures !loading
      ensures appliedJobs == old(appliedJobs)
    {
      loading := true;
      match response {
        case Ok(jobsData) =>
          jobs := jobsData;
          error := None;
        case Err(_) =>
          error := Some(FetchJobsFailed);
      }
      loading := false;
    }

    /** Reloads the application list from the store; a failure is swallowed
        and leaves the cache as it was. Nothing else changes. */
    method FetchApplications()
      modifies this
      ensures appliedJobs == Reload(old(appliedJobs), api.slot)
      ensures Load(api.slot).Ok? ==> appliedJobs == Load(api.slot).value
      ensures Load(api.slot).Err? ==> appliedJobs == old(appliedJobs)
      ensures jobs == old(jobs) && loading == old(loading) && error == old(error)
    {
      var applications := api.GetApplications();
      if applications.Ok? {
        appliedJobs := applications.value;
      }
    }

    /** The mount effect: both fetches, run one after the other. */
    method Mount(jobsResponse: Result<seq<Job>>)
      modifies this
      ensures jobsResponse.Ok? ==> jobs == jobsResponse.value && error == None
      ensures jobsResponse.Err? ==> jobs == old(jobs) && error == Some(FetchJobsFailed)
      ensures !loading
      ensures appliedJobs == Reload(old(appliedJobs), api.slot)
    {
      FetchJobs(jobsResponse);
      FetchApplications();
    }

    /** Submits, then reloads: the caller gets the created record and the
        cache is the store, ending in that record. A failed submit is passed
        on and nothing is reloaded. */
    method ApplyForJob(input: ApplicationInput, now: nat, appliedAt: string)
      returns (r: Result<JobApplication>)
      modifies this, api
      ensures r.Ok? <==> Load(old(api.slot)).Ok?
      ensures r.Err? ==> api.slot == old(api.slot) && appliedJobs == old(appliedJobs)
      ensures r.Ok? ==> r.value == NewApplication(input, now, appliedAt)
      ensures r.Ok? ==> api.slot == Stored(Load(old(api.slot)).value + [r.value])
      ensures r.Ok? ==> appliedJobs == Load(old(api.slot)).value + [r.value]
      ensures r.Ok? ==> appliedJobs[|appliedJobs| - 1] == r.value
      ensures jobs == old(jobs) && loading == old(loading) && error == old(error)
    {
      r := api.SubmitApplication(input, now, appliedAt);
      if r.Err? {
        return;
      }
      FetchApplications();
    }

    method RefreshApplications()
      modifies this
      ensures appliedJobs == Reload(old(appliedJobs), api.slot)
      ensures jobs == old(jobs) && loading == old(loading) && error == old(error)
    {
      FetchApplications();
    }
  }

  /** The context hook: the enclosing provider, or an error outside one. */
  function UseJobContext(provider: Option<JobProvider>): (r: Result<JobProvider>)
    ensures r.Ok? <==> provider.Some?
    ensures r.Ok? ==> r.value == provider.value
    ensures r.Err? ==> r.message == OutsideProvider
  {
    match provider
    case Some(p) => Ok(p)
    case None => Err(OutsideProvider)
  }
}
