/** The records of the job board: jobs in the catalog, applications in the
    store, and the user profile type. */
module Types {
  import opened Wrappers

  datatype JobType = FullTime | PartTime | Contract | Internship

  datatype ApplicationStatus = Pending | Reviewed | Rejected | Accepted

  /** The nested company record of a job: exactly these three fields. */
  datatype Company = Company(name: string, logo: string, location: string)

  datatype Job = Job(
    id: string,
    title: string,
    company: Company,
    jobType: JobType,
    category: string,
    minSalary: int,
    maxSalary: int,
    posted: string,
    description: string,
    requirements: seq<string>,
    responsibilities: seq<string>)

  /** A submitted application; `coverLetter` is its only optional field. */
  datatype JobApplication = JobApplication(
    id: string,
    jobId: string,
    fullName: string,
    email: string,
    phone: string,
    resume: string,
    coverLetter: Option<string>,
    status: ApplicationStatus,
    appliedAt: string)

  /** What a caller submits: an application without `id`, `status` and `appliedAt`. */
  datatype ApplicationInput = ApplicationInput(
    jobId: string,
    fullName: string,
    email: string,
    phone: string,
    resume: string,
    coverLetter: Option<string>)

  datatype User = User(id: string, name: string, email: string, applications: seq<JobApplication>)

  /** The caller-supplied part of an application (the fields not generated on submit). */
  function InputOf(a: JobApplication): ApplicationInput {
    ApplicationInput(a.jobId, a.fullName, a.email, a.phone, a.resume, a.coverLetter)
  }

  /** The string literal a job type is written as. */
  function JobTypeName(t: JobType): string {
    match t
    case FullTime => "Full-time"
    case PartTime => "Part-time"
    case Contract => "Contract"
    case Internship => "Internship"
  }

  function ParseJobType(name: string): (t: Option<JobType>)
    ensures t.Some? <==> name in {"Full-time", "Part-time", "Contract", "Internship"}
  {
    if name == "Full-time" then Some(FullTime)
    else if name == "Part-time" then Some(PartTime)
    else if name == "Contract" then Some(Contract)
    else if name == "Internship" then Some(Internship)
    else None
  }

  /** The string literal an application status is written as. */
  function StatusName(s: ApplicationStatus): string {
    match s
    case Pending => "Pending"
    case Reviewed => "Reviewed"
    case Rejected => "Rejected"
    case Accepted => "Accepted"
  }

  function ParseStatus(name: string): (s: Option<ApplicationStatus>)
    ensures s.Some? <==> name in {"Pending", "Reviewed", "Rejected", "Accepted"}
  {
    if name == "Pending" then Some(Pending)
    else if name == "Reviewed" then Some(Reviewed)
    else if name == "Rejected" then Some(Rejected)
    else if name == "Accepted" then Some(Accepted)
    else None
  }

  /** The four job-type literals and the enumeration are in one-to-one correspondence. */
  lemma JobTypeNamesRoundTrip(t: JobType, name: string)
    ensures ParseJobType(JobTypeName(t)) == Some(t)
    ensures ParseJobType(name) == Some(t) <==> JobTypeName(t) == name
  {
  }

  /** The four status literals and the enumeration are in one-to-one correspondence. */
  lemma StatusNamesRoundTrip(s: ApplicationStatus, name: string)
    ensures ParseStatus(StatusName(s)) == Some(s)
    ensures ParseStatus(name) == Some(s) <==> StatusName(s) == name
  {
  }
}
