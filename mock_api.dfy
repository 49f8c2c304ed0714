/** The mock backend: a read-only job catalog and an application store kept
    in one persisted key-value slot. Latency timers are immediate steps. */
module MockApi {
  import opened Wrappers
  import opened Types

  /** The storage slot `job_applications`: never written (or holding an empty string, which is
      falsy), holding a serialised application list, or holding text that
      does not parse as one. */
  datatype Slot = Absent | Stored(applications: seq<JobApplication>) | Malformed

  const MalformedStorage := "stored applications are not valid JSON"

  /** Reading the slot: an absent slot is an empty list; unparsable text is a
      failure (parsing is not guarded, so the error escapes). */
  function Load(slot: Slot): Result<seq<JobApplication>> {
    match slot
    case Absent => Ok([])
    case Stored(applications) => Ok(applications)
    case Malformed => Err(MalformedStorage)
  }

  /** The first job of the catalog with the given id, if any. */
  function FindJob(catalog: seq<Job>, id: string): (r: Option<Job>)
    ensures r.None? <==> forall i :: 0 <= i < |catalog| ==> catalog[i].id != id
    ensures r.Some? ==> exists i :: 0 <= i < |catalog| && catalog[i] == r.value && FirstWithId(catalog, id, i)
  {
    if catalog == [] then None
    else if catalog[0].id == id then
      assert FirstWithId(catalog, id, 0);
      Some(catalog[0])
    else
      var r := FindJob(catalog[1..], id);
      assert r.Some? ==> exists i :: 0 <= i < |catalog| && catalog[i] == r.value && FirstWithId(catalog, id, i) by {
        if r.Some? {
          var i :| 0 <= i < |catalog| - 1 && catalog[1..][i] == r.value && FirstWithId(catalog[1..], id, i);
          assert FirstWithId(catalog, id, i + 1);
        }
      }
      r
  }

  /** Index `i` holds the first job whose id is `id`. */
  ghost predicate FirstWithId(catalog: seq<Job>, id: string, i: int) {
    0 <= i < |catalog| && catalog[i].id == id && forall j :: 0 <= j < i ==> catalog[j].id != id
  }

  /** Every catalog job is found by its own id when ids are distinct. */
  lemma {:induction false} FindJobOfCatalogJob(catalog: seq<Job>, k: nat)
    requires k < |catalog|
    requires forall i, j :: 0 <= i < j < |catalog| ==> catalog[i].id != catalog[j].id
    ensures FindJob(catalog, catalog[k].id) == Some(catalog[k])
  {
    if k > 0 {
      FindJobOfCatalogJob(catalog[1..], k - 1);
    }
  }

  function DigitChar(d: nat): (c: char)
    requires d < 10
    ensures '0' <= c <= '9'
  {
    ('0' as int + d) as char
  }

  ghost predicate AllDigits(s: string) {
    forall i :: 0 <= i < |s| ==> '0' <= s[i] <= '9'
  }

  /** `n.toString()` for a non-negative integer: decimal digits, no leading zero. */
  function DecimalString(n: nat): (s: string)
    ensures |s| >= 1 && AllDigits(s)
    ensures s[0] == '0' ==> n == 0
  {
    if n < 10 then [DigitChar(n)] else DecimalString(n / 10) + [DigitChar(n % 10)]
  }

  /** The number a string of decimal digits denotes. */
  function DecimalValue(s: string): nat
    requires AllDigits(s)
  {
    if s == [] then 0 else DecimalValue(s[..|s| - 1]) * 10 + (s[|s| - 1] as int - '0' as int)
  }

  /** Reading back the decimal string of a clock value gives that value. */
  lemma {:induction false} DecimalRoundTrip(n: nat)
    ensures DecimalValue(DecimalString(n)) == n
  {
    if n >= 10 {
      DecimalRoundTrip(n / 10);
      var s := DecimalString(n);
      assert s[..|s| - 1] == DecimalString(n / 10);
    }
  }

  /** Submissions at different clock values get different ids. */
  lemma DistinctClocksGiveDistinctIds(a: nat, b: nat)
    requires a != b
    ensures DecimalString(a) != DecimalString(b)
  {
    DecimalRoundTrip(a);
    DecimalRoundTrip(b);
  }

  /** The record a submission creates from its input, the clock reading and the timestamp. */
  function NewApplication(input: ApplicationInput, now: nat, appliedAt: string): (a: JobApplication)
    ensures InputOf(a) == input
    ensures a.status == Pending && a.appliedAt == appliedAt
    ensures a.id == DecimalString(now) && a.id != ""
  {
    JobApplication(DecimalString(now), input.jobId, input.fullName, input.email, input.phone,
                   input.resume, input.coverLetter, Pending, appliedAt)
  }

  /** The mock API object: a fixed catalog and the persisted application slot. */
  class Api {
    const catalog: seq<Job>
    var slot: Slot

    constructor (catalog: seq<Job>, slot: Slot)
      ensures this.catalog == catalog && this.slot == slot
    {
      this.catalog := catalog;
      this.slot := slot;
    }

    /** Reads the stored list: empty when the slot is absent, failing when it is malformed. */
    method GetStoredApplications() returns (r: Result<seq<JobApplication>>)
      ensures slot.Absent? ==> r == Ok([])
      ensures slot.Stored? ==> r == Ok(slot.applications)
      ensures slot.Malformed? <==> r.Err?
      ensures r == Load(slot)
    {
      r := Load(slot);
    }

    /** Overwrites the whole slot with the given list. */
    method StoreApplications(applications: seq<JobApplication>)
      modifies this
      ensures slot == Stored(applications)
      ensures Load(slot) == Ok(applications)
    {
      slot := Stored(applications);
    }

    /** Resolves with the whole catalog, in catalog order. */
    method GetJobs() returns (jobs: Result<seq<Job>>)
      ensures jobs == Ok(catalog)
    {
      jobs := Ok(catalog);
    }

    /** Resolves with the first catalog job with that id, or null; never rejects. */
    method GetJob(id: string) returns (job: Result<Option<Job>>)
      ensures job.Ok? && job.value == FindJob(catalog, id)
    {
      job := Ok(FindJob(catalog, id));
    }

    /** Resolves with the stored list; a malformed slot rejects (the corrected
        behaviour; see `GetApplicationsAsWritten` for the code as written). */
    method GetApplications() returns (r: Result<seq<JobApplication>>)
      ensures r == Load(slot)
      ensures r.Err? <==> slot.Malformed?
      ensures slot.Absent? ==> r == Ok([])
    {
      r := GetStoredApplications();
    }

    /** Loads the list, appends a new Pending record and overwrites the slot. */
    method SubmitApplication(input: ApplicationInput, now: nat, appliedAt: string)
      returns (r: Result<JobApplication>)
      modifies this
      ensures r.Ok? <==> Load(old(slot)).Ok?
      ensures r.Err? ==> slot == old(slot)
      ensures r.Ok? ==> r.value == NewApplication(input, now, appliedAt)
      ensures r.Ok? ==> slot == Stored(Load(old(slot)).value + [r.value])
    {
      var loaded := GetStoredApplications();
      if loaded.Err? {
        return Err(loaded.message);
      }
      var applications := loaded.value;
      var newApplication := NewApplication(input, now, appliedAt);
      applications := applications + [newApplication];
      StoreApplications(applications);
      r := Ok(newApplication);
    }
  }

  /** How a timer-wrapped request ends when its callback may throw: the
      promise resolves, or the exception escapes the timer callback (the
      promise executor has already returned) and the promise stays pending. */
  datatype TimerOutcome<T> = Resolves(value: T) | StaysPending

  /** `submitApplication` as written: the storage read throws inside the
      timer callback, so a malformed slot leaves the promise pending instead
      of rejecting it; a readable slot resolves with the new record. */
  function SubmitAsWritten(slot: Slot, input: ApplicationInput, now: nat, appliedAt: string)
    : (o: TimerOutcome<JobApplication>)
    ensures o.StaysPending? <==> slot.Malformed?
    ensures o.Resolves? ==> o.value == NewApplication(input, now, appliedAt)
  {
    match Load(slot)
    case Ok(_) => Resolves(NewApplication(input, now, appliedAt))
    case Err(_) => StaysPending
  }

  /** The discrepancy: on a malformed slot the written code never settles, so
      no caller's rejection handler can run, while on every readable slot it
      agrees with the rejecting submit. */
  lemma MalformedSubmitNeverSettles(input: ApplicationInput, now: nat, appliedAt: string, slot: Slot)
    ensures SubmitAsWritten(Malformed, input, now, appliedAt) == StaysPending
    ensures Load(Malformed).Err?
    ensures Load(slot).Ok? ==> SubmitAsWritten(slot, input, now, appliedAt) == Resolves(NewApplication(input, now, appliedAt))
  {
  }

  /** `getApplications` as written: the storage read runs inside the timer
      callback, so a malformed slot leaves the promise pending instead of
      rejecting it; a readable slot resolves with the stored list. */
  function GetApplicationsAsWritten(slot: Slot): (o: TimerOutcome<seq<JobApplication>>)
    ensures o.StaysPending? <==> slot.Malformed?
    ensures slot.Absent? ==> o == Resolves([])
    ensures slot.Stored? ==> o == Resolves(slot.applications)
  {
    match Load(slot)
    case Ok(applications) => Resolves(applications)
    case Err(_) => StaysPending
  }

  /** The discrepancy for reads: on a malformed slot the written request never
      settles while the corrected one rejects; on every readable slot both
      deliver the same list. */
  lemma MalformedReadNeverSettles(slot: Slot)
    ensures GetApplicationsAsWritten(Malformed) == StaysPending
    ensures Load(Malformed).Err?
    ensures Load(slot).Ok? <==> GetApplicationsAsWritten(slot).Resolves?
    ensures Load(slot).Ok? ==> GetApplicationsAsWritten(slot) == Resolves(Load(slot).value)
  {
  }

  /** What a successful submission leaves in the slot: the old list, in order,
      with the new record as its last element. */
  lemma SubmissionAppends(before: seq<JobApplication>, a: JobApplication)
    ensures var after := Load(Stored(before + [a])).value;
      |after| == |before| + 1 && after[..|before|] == before && after[|before|] == a
  {
  }

  /** Storing a list and then reading it gives the same list back. */
  lemma StoreThenLoad(applications: seq<JobApplication>)
    ensures Load(Stored(applications)) == Ok(applications)
  {
  }
}
