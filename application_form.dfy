/** The application form: field-level validation (required fields and the
    email shape `\S+@\S+\.\S+`), clearing errors on edit, and the submit gate. */
module ApplicationForm {
  import opened Wrappers
  import opened Types
  import opened Text
  import opened MockApi
  import opened JobContext

  const FullNameRequired := "Full name is required"
  const EmailRequired := "Email is required"
  const EmailInvalid := "Email is invalid"
  const PhoneRequired := "Phone number is required"
  const ResumeRequired := "Resume link is required"
  const SubmitFailed := "Failed to submit application. Please try again."

  datatype Field = FullName | Email | Phone | Resume | CoverLetter

  /** A key of the error dictionary: a field's input name, or "form" for the
      whole-form submit error. */
  datatype ErrorKey = On(field: Field) | WholeForm

  /** The input name of a field, which is also its key in the error dictionary. */
  function FieldKey(f: Field): string {
    match f
    case FullName => "fullName"
    case Email => "email"
    case Phone => "phone"
    case Resume => "resume"
    case CoverLetter => "coverLetter"
  }

  /** The string an error key stands for; distinct keys are distinct strings. */
  function KeyName(k: ErrorKey): string {
    match k
    case On(f) => FieldKey(f)
    case WholeForm => "form"
  }

  /** Keying the error dictionary by `ErrorKey` loses nothing: different keys
      name different entries of the string-keyed dictionary. */
  lemma KeyNamesDistinct(k1: ErrorKey, k2: ErrorKey)
    ensures KeyName(k1) == KeyName(k2) <==> k1 == k2
  {
  }

  datatype FormData = FormData(fullName: string, email: string, phone: string, resume: string, coverLetter: string)

  const EmptyForm := FormData("", "", "", "", "")

  function FieldValue(form: FormData, f: Field): string {
    match f
    case FullName => form.fullName
    case Email => form.email
    case Phone => form.phone
    case Resume => form.resume
    case CoverLetter => form.coverLetter
  }

  /** The form with one field replaced. */
  function WithField(form: FormData, f: Field, value: string): (r: FormData)
    ensures FieldValue(r, f) == value
    ensures forall g :: g != f ==> FieldValue(r, g) == FieldValue(form, g)
  {
    match f
    case FullName => form.(fullName := value)
    case Email => form.(email := value)
    case Phone => form.(phone := value)
    case Resume => form.(resume := value)
    case CoverLetter => form.(coverLetter := value)
  }

  // ---------------------------------------------------------------------
  // The email pattern \S+@\S+\.\S+, searched anywhere in the string.

  predicate NonSpaceRange(s: string, lo: int, hi: int)
    requires 0 <= lo <= hi <= |s|
  {
    forall k :: lo <= k < hi ==> !IsSpace(s[k])
  }

  /** s[i..j] is one match of the pattern, with its '@' at p and its '.' at q. */
  ghost predicate MatchSpan(s: string, i: int, p: int, q: int, j: int) {
    0 <= i < p && p + 1 < q && q + 1 < j <= |s| &&
    s[p] == '@' && s[q] == '.' &&
    NonSpaceRange(s, i, p) && NonSpaceRange(s, p + 1, q) && NonSpaceRange(s, q + 1, j)
  }

  /** The unanchored regular expression finds a match somewhere in s. */
  ghost predicate EmailPatternMatches(s: string) {
    exists i, p, q, j :: MatchSpan(s, i, p, q, j)
  }

  /** An '@' at p with a non-whitespace character just before it. */
  predicate AtCandidate(s: string, p: int) {
    0 < p < |s| && s[p] == '@' && !IsSpace(s[p - 1])
  }

  /** The local form of a match: an '@' at p and a '.' at q, each with a
      non-whitespace neighbour outside, and only non-whitespace between. */
  ghost predicate EmailShapeAt(s: string, p: int, q: int) {
    AtCandidate(s, p) && p + 2 <= q && q + 1 < |s| && s[q] == '.' && !IsSpace(s[q + 1]) &&
    NonSpaceRange(s, p + 1, q)
  }

  /** A match exists exactly when the local shape occurs. */
  lemma EmailPatternIffShape(s: string)
    ensures EmailPatternMatches(s) <==> exists p, q :: EmailShapeAt(s, p, q)
  {
    if EmailPatternMatches(s) {
      var i, p, q, j :| MatchSpan(s, i, p, q, j);
      assert !IsSpace(s[p - 1]);
      assert !IsSpace(s[q + 1]);
      assert EmailShapeAt(s, p, q);
    }
    if p, q :| EmailShapeAt(s, p, q) {
      assert MatchSpan(s, p - 1, p, q, q + 2);
    }
  }

  /** `/\S+@\S+\.\S+/.test(s)`, as one left-to-right scan that remembers the
      earliest usable '@' since the last whitespace. */
  method TestEmailPattern(s: string) returns (found: bool)
    ensures found <==> EmailPatternMatches(s)
  {
    EmailPatternIffShape(s);
    var at := -1;
    var k := 0;
    while k < |s|
      invariant 0 <= k <= |s|
      invariant forall p, q :: q < k ==> !EmailShapeAt(s, p, q)
      invariant at == -1 || (AtCandidate(s, at) && at < k && NonSpaceRange(s, at + 1, k))
      invariant forall p :: 0 <= p < k && AtCandidate(s, p) && NonSpaceRange(s, p + 1, k) ==> 0 <= at <= p
    {
      if IsSpace(s[k]) {
        at := -1;
      } else {
        if s[k] == '.' && 0 <= at && at + 2 <= k && k + 1 < |s| && !IsSpace(s[k + 1]) {
          assert EmailShapeAt(s, at, k);
          return true;
        }
        if s[k] == '@' && at == -1 && 0 < k && !IsSpace(s[k - 1]) {
          at := k;
        }
      }
      k := k + 1;
    }
    return false;
  }

  // ---------------------------------------------------------------------
  // Validation rules.

  /** The error dictionary validation computes for a form, key by key. */
  ghost function FormErrors(form: FormData): map<ErrorKey, string> {
    var e0: map<ErrorKey, string> := map[];
    var e1 := if Trim(form.fullName) == "" then e0[On(FullName) := FullNameRequired] else e0;
    var e2 := if Trim(form.email) == "" then e1[On(Email) := EmailRequired]
              else if !EmailPatternMatches(form.email) then e1[On(Email) := EmailInvalid]
              else e1;
    var e3 := if Trim(form.phone) == "" then e2[On(Phone) := PhoneRequired] else e2;
    if Trim(form.resume) == "" then e3[On(Resume) := ResumeRequired] else e3
  }

  /** The message a required field gets when it is empty after trimming. */
  function RequiredMessage(f: Field): string {
    match f
    case FullName => FullNameRequired
    case Email => EmailRequired
    case Phone => PhoneRequired
    case Resume => ResumeRequired
    case CoverLetter => ""
  }

  /** fullName, phone and resume each get their own required message, under
      their own key, exactly when they are all whitespace. */
  lemma RequiredFieldRule(form: FormData, f: Field)
    requires f == FullName || f == Phone || f == Resume
    ensures var e := FormErrors(form);
      && (On(f) in e <==> IsBlank(FieldValue(form, f)))
      && (On(f) in e ==> e[On(f)] == RequiredMessage(f))
  {
    TrimEmptyIffBlank(FieldValue(form, f));
  }

  /** The email gets "required" when it is all whitespace, otherwise
      "invalid" exactly when the pattern finds no match; never both. */
  lemma EmailRule(form: FormData)
    ensures var e := FormErrors(form);
      && (On(Email) in e <==> IsBlank(form.email) || !EmailPatternMatches(form.email))
      && (IsBlank(form.email) ==> e[On(Email)] == EmailRequired)
      && (!IsBlank(form.email) && !EmailPatternMatches(form.email) ==> e[On(Email)] == EmailInvalid)
  {
    TrimEmptyIffBlank(form.email);
  }

  /** Only the four checked fields can carry an error: never the cover
      letter, never the whole-form key. */
  lemma ErrorKeysChecked(form: FormData)
    ensures FormErrors(form).Keys <= {On(FullName), On(Email), On(Phone), On(Resume)}
    ensures On(CoverLetter) !in FormErrors(form) && WholeForm !in FormErrors(form)
  {
  }

  /** A form passes exactly when every required field has a non-whitespace
      character and the email contains a match of the pattern. */
  lemma FormValidIff(form: FormData)
    ensures FormErrors(form) == map[] <==>
      !IsBlank(form.fullName) && !IsBlank(form.email) && !IsBlank(form.phone) &&
      !IsBlank(form.resume) && EmailPatternMatches(form.email)
  {
    RequiredFieldRule(form, FullName);
    RequiredFieldRule(form, Phone);
    RequiredFieldRule(form, Resume);
    EmailRule(form);
    ErrorKeysChecked(form);
    var e := FormErrors(form);
    if e != map[] {
      var k :| k in e;
    }
  }

  /** The payload sent on submit: the job's id and the raw, untrimmed fields. */
  function SubmissionPayload(jobId: string, form: FormData): ApplicationInput {
    ApplicationInput(jobId, form.fullName, form.email, form.phone, form.resume, Some(form.coverLetter))
  }

  /** The input handed to the submit call keeps every form field exactly as typed. */
  lemma PayloadKeepsRawFields(jobId: string, form: FormData)
    ensures var p := SubmissionPayload(jobId, form);
      p.jobId == jobId && p.coverLetter == Some(form.coverLetter) &&
      forall f :: f != CoverLetter ==> PayloadValue(p, f) == FieldValue(form, f)
  {
  }

  function PayloadValue(p: ApplicationInput, f: Field): string
    requires f != CoverLetter
  {
    match f
    case FullName => p.fullName
    case Email => p.email
    case Phone => p.phone
    case Resume => p.resume
  }

  class JobApplicationForm {
    const job: Job
    const context: JobProvider
    var formData: FormData
    var errors: map<ErrorKey, string>
    var isSubmitting: bool
    var submitSuccess: bool

    constructor (job: Job, context: JobProvider)
      ensures this.job == job && this.context == context
      ensures formData == EmptyForm && errors == map[] && !isSubmitting && !submitSuccess
    {
      this.job := job;
      this.context := context;
      formData := EmptyForm;
      errors := map[];
      isSubmitting := false;
      submitSuccess := false;
    }

    /** Records an edit; a set error on that field is removed, every other key kept. */
    method HandleChange(f: Field, value: string)
      modifies this
      ensures formData == WithField(old(formData), f, value)
      ensures On(f) in old(errors) && old(errors)[On(f)] != "" ==> errors == old(errors) - {On(f)}
      ensures !(On(f) in old(errors) && old(errors)[On(f)] != "") ==> errors == old(errors)
      ensures forall k :: k != On(f) ==> (k in errors <==> k in old(errors))
      ensures forall k :: k != On(f) && k in errors ==> errors[k] == old(errors)[k]
      ensures isSubmitting == old(isSubmitting) && submitSuccess == old(submitSuccess)
    {
      formData := WithField(formData, f, value);
      var name := On(f);
      if name in errors && errors[name] != "" {
        var newErrors := errors;
        newErrors := newErrors - {name};
        errors := newErrors;
      }
    }

    /** Computes the error dictionary, replaces `errors` with it, and reports
        whether it is empty. */
    method ValidateForm() returns (valid: bool)
      modifies this
      ensures errors == FormErrors(formData)
      ensures valid <==> errors == map[]
      ensures formData == old(formData)
      ensures isSubmitting == old(isSubmitting) && submitSuccess == old(submitSuccess)
    {
      var newErrors: map<ErrorKey, string> := map[];
      if Trim(formData.fullName) == "" {
        newErrors := newErrors[On(FullName) := FullNameRequired];
      }
      if Trim(formData.email) == "" {
        newErrors := newErrors[On(Email) := EmailRequired];
      } else {
        var shaped := TestEmailPattern(formData.email);
        if !shaped {
          newErrors := newErrors[On(Email) := EmailInvalid];
        }
      }
      if Trim(formData.phone) == "" {
        newErrors := newErrors[On(Phone) := PhoneRequired];
      }
      if Trim(formData.resume) == "" {
        newErrors := newErrors[On(Resume) := ResumeRequired];
      }
      errors := newErrors;
      valid := |newErrors| == 0;
    }

    /** Validates; only a valid form is submitted, with the raw fields. On
        success the form reports it, on failure `errors` becomes the single
        whole-form message; `isSubmitting` is false afterwards. */
    method HandleSubmit(now: nat, appliedAt: string)
      modifies this, context, context.api
      ensures formData == old(formData)
      ensures FormErrors(old(formData)) != map[] ==>
        && errors == FormErrors(old(formData))
        && context.api.slot == old(context.api.slot)
        && context.appliedJobs == old(context.appliedJobs)
        && isSubmitting == old(isSubmitting) && submitSuccess == old(submitSuccess)
      ensures FormErrors(old(formData)) == map[] ==>
        var sent := NewApplication(SubmissionPayload(job.id, old(formData)), now, appliedAt);
        var stored := Load(old(context.api.slot));
        && !isSubmitting
        && (stored.Ok? ==>
              && context.api.slot == Stored(stored.value + [sent])
              && context.appliedJobs == stored.value + [sent]
              && submitSuccess && errors == map[])
        && (stored.Err? ==>
              && context.api.slot == old(context.api.slot)
              && context.appliedJobs == old(context.appliedJobs)
              && submitSuccess == old(submitSuccess)
              && errors == map[WholeForm := SubmitFailed])
      ensures context.jobs == old(context.jobs) && context.loading == old(context.loading)
      ensures context.error == old(context.error)
    {
      var valid := ValidateForm();
      if !valid {
        return;
      }
      isSubmitting := true;
      var outcome := context.ApplyForJob(SubmissionPayload(job.id, formData), now, appliedAt);
      if outcome.Ok? {
        submitSuccess := true;
      } else {
        errors := map[WholeForm := SubmitFailed];
      }
      isSubmitting := false;
    }
  }
}
