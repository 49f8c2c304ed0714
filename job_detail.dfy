/** The job detail view: fetching the job named by the route, choosing what
    to render, and showing or hiding the application form. */
module JobDetail {
  import opened Wrappers
  import opened Types

  const JobNotFound := "Job not found"
  const LoadFailed := "Failed to load job details"

  /** What the view renders. */
  datatype DetailScreen = Spinner | ErrorPanel(message: string) | Details(job: Job)

  /** A string-or-null that reads as true: present and non-empty. */
  predicate Truthy(e: Option<string>) {
    e.Some? && e.value != ""
  }

  /** The spinner while loading; otherwise the error panel when there is an
      error or no job, showing the error or else "Job not found"; otherwise
      the job itself. */
  function Screen(loading: bool, error: Option<string>, job: Option<Job>): (v: DetailScreen)
    ensures v.Spinner? <==> loading
    ensures v.ErrorPanel? <==> !loading && (Truthy(error) || job.None?)
    ensures v.ErrorPanel? ==> v.message == if Truthy(error) then error.value else JobNotFound
    ensures v.Details? ==> job == Some(v.job) && !Truthy(error)
  {
    if loading then Spinner
    else if Truthy(error) || job.None? then ErrorPanel(if Truthy(error) then error.value else JobNotFound)
    else Details(job.value)
  }

  class JobDetailView {
    const routeId: Option<string>
    var job: Option<Job>
    var loading: bool
    var error: Option<string>
    var showApplicationForm: bool

    constructor (routeId: Option<string>)
      ensures this.routeId == routeId
      ensures job == None && loading && error == None && !showApplicationForm
    {
      this.routeId := routeId;
      job := None;
      loading := true;
      error := None;
      showApplicationForm := false;
    }

    /** Looks up the routed job with `getJob` (the job request, settled).
        Without a route id (absent or empty) nothing happens; otherwise loading ends, and the
        job or one of the two messages is recorded. */
    method FetchJob(getJob: string -> Result<Option<Job>>)
      modifies this
      ensures !Truthy(routeId) ==> job == old(job) && loading == old(loading) && error == old(error)
      ensures Truthy(routeId) ==> !loading
      ensures Truthy(routeId) && getJob(routeId.value).Err? ==>
        error == Some(LoadFailed) && job == old(job)
      ensures Truthy(routeId) && getJob(routeId.value) == Ok(None) ==>
        error == Some(JobNotFound) && job == old(job)
      ensures Truthy(routeId) && getJob(routeId.value).Ok? && getJob(routeId.value).value.Some? ==>
        job == getJob(routeId.value).value && error == None
      ensures showApplicationForm == old(showApplicationForm)
    {
      if !Truthy(routeId) {
        return;
      }
      loading := true;
      var jobData := getJob(routeId.value);
      match jobData {
        case Err(_) =>
          error := Some(LoadFailed);
        case Ok(None) =>
          error := Some(JobNotFound);
        case Ok(Some(j)) =>
          job := Some(j);
          error := None;
      }
      loading := false;
    }

    /** The Apply button opens the form. */
    method OpenApplicationForm()
      modifies this
      ensures showApplicationForm
      ensures job == old(job) && loading == old(loading) && error == old(error)
    {
      showApplicationForm := true;
    }

    /** The close button and the form's cancel both hide it. */
    method CloseApplicationForm()
      modifies this
      ensures !showApplicationForm
      ensures job == old(job) && loading == old(loading) && error == old(error)
    {
      showApplicationForm := false;
    }
  }

  /** Once a fetch has found a job, the view shows that job. */
  lemma FoundJobIsShown(j: Job)
    ensures Screen(false, None, Some(j)) == Details(j)
  {
  }

  /** A lookup that finds nothing leaves the error panel with "Job not found",
      whatever job was shown before. */
  lemma MissingJobShowsNotFound(previous: Option<Job>)
    ensures Screen(false, Some(JobNotFound), previous) == ErrorPanel(JobNotFound)
  {
  }
}
