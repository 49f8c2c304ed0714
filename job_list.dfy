/** The job list's search: a job is kept when the lower-cased search term
    occurs in its lower-cased title, company name or category. */
module JobList {
  import opened Types
  import opened Text

  /** The search predicate applied to one job. */
  predicate MatchesSearch(job: Job, term: string) {
    var t := ToLower(term);
    Includes(ToLower(job.title), t) || Includes(ToLower(job.company.name), t) ||
    Includes(ToLower(job.category), t)
  }

  /** The jobs that match, in their original order. */
  function FilterJobs(jobs: seq<Job>, term: string): (r: seq<Job>)
    ensures |r| <= |jobs|
    ensures forall j :: j in r <==> j in jobs && MatchesSearch(j, term)
  {
    if jobs == [] then []
    else (if MatchesSearch(jobs[0], term) then [jobs[0]] else []) + FilterJobs(jobs[1..], term)
  }

  /** Every matching job is kept as often as it occurs, and no other job is:
      with `FilterIsSubsequence` this fixes the result, and so the count shown. */
  lemma {:induction false} FilterKeepsMultiplicity(jobs: seq<Job>, term: string)
    ensures forall j ::
              multiset(FilterJobs(jobs, term))[j] == (if MatchesSearch(j, term) then multiset(jobs)[j] else 0)
  {
    if jobs != [] {
      FilterKeepsMultiplicity(jobs[1..], term);
      assert jobs == [jobs[0]] + jobs[1..];
      assert multiset(jobs) == multiset([jobs[0]]) + multiset(jobs[1..]);
    }
  }

  /** `a` is `b` with some elements left out, the rest in the same order. */
  ghost predicate IsSubsequence<T>(a: seq<T>, b: seq<T>)
    decreases |b|
  {
    a == [] || (b != [] && ((a[0] == b[0] && IsSubsequence(a[1..], b[1..])) || IsSubsequence(a, b[1..])))
  }

  /** The filtered list is an order-preserving subsequence of the jobs. */
  lemma {:induction false} FilterIsSubsequence(jobs: seq<Job>, term: string)
    ensures IsSubsequence(FilterJobs(jobs, term), jobs)
  {
    if jobs != [] {
      FilterIsSubsequence(jobs[1..], term);
      var r := FilterJobs(jobs, term);
      if MatchesSearch(jobs[0], term) {
        assert r[1..] == FilterJobs(jobs[1..], term);
      } else {
        assert r == FilterJobs(jobs[1..], term);
      }
    }
  }

  /** An empty search term keeps every job. */
  lemma {:induction false} EmptyTermKeepsAll(jobs: seq<Job>)
    ensures FilterJobs(jobs, "") == jobs
  {
    if jobs != [] {
      IncludesEmpty(ToLower(jobs[0].title));
      assert ToLower("") == "";
      EmptyTermKeepsAll(jobs[1..]);
      assert [jobs[0]] + jobs[1..] == jobs;
    }
  }

  /** Terms that differ only in letter case select the same jobs. */
  lemma {:induction false} CaseInsensitive(jobs: seq<Job>, t1: string, t2: string)
    requires ToLower(t1) == ToLower(t2)
    ensures FilterJobs(jobs, t1) == FilterJobs(jobs, t2)
  {
    if jobs != [] {
      CaseInsensitive(jobs[1..], t1, t2);
    }
  }

  /** A job that matches a longer term matches every term inside it. */
  lemma MatchNarrows(job: Job, t: string, t2: string)
    requires Includes(t2, t)
    requires MatchesSearch(job, t2)
    ensures MatchesSearch(job, t)
  {
    IncludesToLower(t2, t);
    var lt, lt2 := ToLower(t), ToLower(t2);
    if Includes(ToLower(job.title), lt2) {
      IncludesTransitive(ToLower(job.title), lt2, lt);
    } else if Includes(ToLower(job.company.name), lt2) {
      IncludesTransitive(ToLower(job.company.name), lt2, lt);
    } else {
      IncludesTransitive(ToLower(job.category), lt2, lt);
    }
  }

  /** Every subsequence of `b` is one of `[x] + b`. */
  lemma SubsequenceOfCons<T>(a: seq<T>, x: T, b: seq<T>)
    requires IsSubsequence(a, b)
    ensures IsSubsequence(a, [x] + b)
  {
    assert ([x] + b)[1..] == b;
  }

  /** Typing more narrows the result: if `t` occurs in `t2`, the jobs found
      for `t2` are a subsequence of those found for `t`. */
  lemma {:induction false} LongerTermNarrows(jobs: seq<Job>, t: string, t2: string)
    requires Includes(t2, t)
    ensures IsSubsequence(FilterJobs(jobs, t2), FilterJobs(jobs, t))
  {
    if jobs != [] {
      LongerTermNarrows(jobs[1..], t, t2);
      var a, b := FilterJobs(jobs, t2), FilterJobs(jobs, t);
      var a', b' := FilterJobs(jobs[1..], t2), FilterJobs(jobs[1..], t);
      if MatchesSearch(jobs[0], t2) {
        MatchNarrows(jobs[0], t, t2);
        assert a == [jobs[0]] + a' && b == [jobs[0]] + b';
        assert a[1..] == a' && b[1..] == b';
      } else if MatchesSearch(jobs[0], t) {
        assert a == a' && b == [jobs[0]] + b';
        SubsequenceOfCons(a', jobs[0], b');
      } else {
        assert a == a' && b == b';
      }
    }
  }

  /** The noun of the result count: singular for exactly one match. */
  function ResultNoun(count: nat): (noun: string)
    ensures noun == "job" <==> count == 1
    ensures noun == "job" || noun == "jobs"
  {
    if count == 1 then "job" else "jobs"
  }
}
