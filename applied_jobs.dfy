/** The applied-jobs view: looks up the job of every application and shows
    each application with its job. */
module AppliedJobs {
  import opened Wrappers
  import opened Types
  import opened JobContext

  /** The job ids the applications refer to. */
  function JobIds(applications: seq<JobApplication>): set<string> {
    if applications == [] then {}
    else JobIds(applications[..|applications| - 1]) + {applications[|applications| - 1].jobId}
  }

  /** An id is among the job ids exactly when some application refers to it. */
  lemma {:induction false} JobIdsMembership(applications: seq<JobApplication>, id: string)
    ensures id in JobIds(applications) <==> exists i :: 0 <= i < |applications| && applications[i].jobId == id
  {
    if applications != [] {
      var init := applications[..|applications| - 1];
      JobIdsMembership(init, id);
      if i :| 0 <= i < |init| && init[i].jobId == id {
        assert applications[i].jobId == id;
      }
    }
  }

  /** The recorded outcome of one lookup: the job or null, and null when the
      lookup fails. */
  function LookupOutcome(r: Result<Option<Job>>): Option<Job> {
    match r
    case Ok(job) => job
    case Err(_) => None
  }

  /** Fills a fresh dictionary with one entry per application's job id. */
  method BuildDetails(applications: seq<JobApplication>, getJob: string -> Result<Option<Job>>)
    returns (details: map<string, Option<Job>>)
    ensures details.Keys == JobIds(applications)
    ensures forall id :: id in details ==> details[id] == LookupOutcome(getJob(id))
  {
    details := map[];
    var i := 0;
    while i < |applications|
      invariant 0 <= i <= |applications|
      invariant details.Keys == JobIds(applications[..i])
      invariant forall id :: id in details ==> details[id] == LookupOutcome(getJob(id))
    {
      var jobId := applications[i].jobId;
      var job := getJob(jobId);
      match job {
        case Ok(found) =>
          details := details[jobId := found];
        case Err(_) =>
          details := details[jobId := None];
      }
      assert applications[..i + 1][..i] == applications[..i];
      i := i + 1;
    }
    assert applications[..i] == applications;
  }

  /** Each application paired with its entry in the dictionary (an id with no
      entry reads as no job), in list order. */
  function Cards(applications: seq<JobApplication>, details: map<string, Option<Job>>)
    : (cards: seq<(JobApplication, Option<Job>)>)
    ensures |cards| == |applications|
    ensures forall i :: 0 <= i < |applications| ==>
      cards[i].0 == applications[i] &&
      cards[i].1 == if applications[i].jobId in details then details[applications[i].jobId] else None
  {
    if applications == [] then []
    else
      var id := applications[0].jobId;
      [(applications[0], if id in details then details[id] else None)] + Cards(applications[1..], details)
  }

  /** What the view renders. */
  datatype AppliedScreen = Spinner | NoApplications | CardList(cards: seq<(JobApplication, Option<Job>)>)

  function Screen(loading: bool, applications: seq<JobApplication>, details: map<string, Option<Job>>)
    : (v: AppliedScreen)
    ensures v.Spinner? <==> loading
    ensures v.NoApplications? <==> !loading && applications == []
    ensures v.CardList? ==> v.cards == Cards(applications, details)
  {
    if loading then Spinner
    else if applications == [] then NoApplications
    else CardList(Cards(applications, details))
  }

  /** With the dictionary that BuildDetails produces, every card shows the
      lookup result for its own application's job id. */
  lemma CardsShowLookups(applications: seq<JobApplication>, details: map<string, Option<Job>>,
                         getJob: string -> Result<Option<Job>>, i: nat)
    requires details.Keys == JobIds(applications)
    requires forall id :: id in details ==> details[id] == LookupOutcome(getJob(id))
    requires i < |applications|
    ensures Cards(applications, details)[i].1 == LookupOutcome(getJob(applications[i].jobId))
  {
    JobIdsMembership(applications, applications[i].jobId);
  }

  class AppliedJobsView {
    const context: JobProvider
    var jobDetails: map<string, Option<Job>>
    var loading: bool

    constructor (context: JobProvider)
      ensures this.context == context
      ensures jobDetails == map[] && loading
    {
      this.context := context;
      jobDetails := map[];
      loading := true;
    }

    /** The mount effect: reload the context's applications from the store. */
    method RefreshOnMount()
      modifies context
      ensures context.appliedJobs == Reload(old(context.appliedJobs), context.api.slot)
      ensures jobDetails == old(jobDetails) && loading == old(loading)
    {
      context.RefreshApplications();
    }

    /** The effect run whenever the application list changes: with no
        applications only loading ends; otherwise the dictionary is rebuilt
        from scratch and replaces the old one. */
    method SyncJobDetails(getJob: string -> Result<Option<Job>>)
      modifies this
      ensures !loading
      ensures context.appliedJobs == [] ==> jobDetails == old(jobDetails)
      ensures context.appliedJobs != [] ==> jobDetails.Keys == JobIds(context.appliedJobs)
      ensures context.appliedJobs != [] ==>
        forall id :: id in jobDetails ==> jobDetails[id] == LookupOutcome(getJob(id))
    {
      if |context.appliedJobs| > 0 {
        loading := true;
        var details := BuildDetails(context.appliedJobs, getJob);
        jobDetails := details;
        loading := false;
      } else {
        loading := false;
      }
    }
  }
}
