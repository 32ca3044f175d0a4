/**
 The current Jenkins integration: list the jobs, poll the last build of every
 job that is not disabled, count the outcomes and reduce them to one
 `RemoteStatus`.

 The network is an input: `listing` is the answer to the job-list request and
 `poll(name)` the answer to the last-build request for the job called `name`.
 */
module JenkinsIntegration {
  import opened Results
  import opened Counting
  import opened JenkinsResponse
  import opened Remote

  type SubResult = Result<JenkinsBuildStatus, NetworkError>

  /** Answers to last-build requests, keyed by job name. */
  type Poller = string -> Result<JenkinsBuildResult, NetworkError>

  predicate IsEnabled(job: JenkinsJob) {
    job.color != Disabled && job.color != DisabledAnime
  }

  predicate IsDisabled(job: JenkinsJob) {
    !IsEnabled(job)
  }

  /** The jobs that are polled, in listing order. */
  function EnabledJobs(jobs: seq<JenkinsJob>): (r: seq<JenkinsJob>)
    ensures forall j :: j in r <==> j in jobs && IsEnabled(j)
    ensures |r| + Count(jobs, IsDisabled) == |jobs|
  {
    CountComplement(jobs, IsEnabled, IsDisabled);
    Filter(jobs, IsEnabled)
  }

  /** Every enabled job is polled as often as it is listed; no disabled job is polled. */
  lemma EnabledJobsMultiset(jobs: seq<JenkinsJob>)
    ensures forall j :: multiset(EnabledJobs(jobs))[j] == if IsEnabled(j) then multiset(jobs)[j] else 0
  {
    FilterMultiset(jobs, IsEnabled);
  }

  /** The source unwraps `result` of a finished build, so such an answer must carry one. */
  predicate Unwrappable(answer: Result<JenkinsBuildResult, NetworkError>) {
    answer.Ok? && !answer.value.building ==> answer.value.buildResult.Some?
  }

  /** Every enabled job's answer can be unwrapped. */
  predicate PollsUnwrappable(jobs: seq<JenkinsJob>, poll: Poller) {
    forall j :: j in jobs && IsEnabled(j) ==> Unwrappable(poll(j.name))
  }

  /** The sub-result of one job: `Building` while it runs, else its result; a failed request stays an error. */
  function JobResult(answer: Result<JenkinsBuildResult, NetworkError>): (r: SubResult)
    requires Unwrappable(answer)
    ensures r.Err? <==> answer.Err?
    ensures answer.Err? ==> r.error == answer.error
    ensures answer.Ok? && answer.value.building ==> r == Ok(Building)
    ensures answer.Ok? && !answer.value.building ==> Some(r.value) == answer.value.buildResult
  {
    match answer
    case Err(e) => Err(e)
    case Ok(build) =>
      if build.building then Ok(Building) else Ok(build.buildResult.value)
  }

  /** The sub-results of the enabled jobs, one per job, in order. */
  function PollJobs(jobs: seq<JenkinsJob>, poll: Poller): (results: seq<SubResult>)
    requires PollsUnwrappable(jobs, poll)
    ensures |results| + Count(jobs, IsDisabled) == |jobs|
    ensures forall i :: 0 <= i < |results| ==> results[i] == JobResult(poll(EnabledJobs(jobs)[i].name))
  {
    var enabled := EnabledJobs(jobs);
    seq(|enabled|, i requires 0 <= i < |enabled| => JobResult(poll(enabled[i].name)))
  }

  /** `get_status_internal`: no sub-poll when the listing fails, otherwise one per enabled job. */
  function GetStatusInternal(listing: Result<seq<JenkinsJob>, NetworkError>, poll: Poller)
    : (r: Result<seq<SubResult>, NetworkError>)
    requires listing.Ok? ==> PollsUnwrappable(listing.value, poll)
    ensures listing.Err? ==> r == Err(listing.error)
    ensures listing.Ok? ==> r.Ok? && |r.value| + Count(listing.value, IsDisabled) == |listing.value|
    ensures listing.Ok? ==> forall i :: 0 <= i < |r.value| ==>
      r.value[i] == JobResult(poll(EnabledJobs(listing.value)[i].name))
  {
    match listing
    case Err(e) => Err(e)
    case Ok(jobs) => Ok(PollJobs(jobs, poll))
  }

  predicate IsSuccess(s: JenkinsBuildStatus) {
    s == Success
  }

  predicate IsFailing(s: JenkinsBuildStatus) {
    s == Failure || s == Unstable
  }

  predicate IsIndeterminate(s: JenkinsBuildStatus) {
    s != Failure && s != Unstable && s != Success
  }

  predicate IsBuilding(s: JenkinsBuildStatus) {
    s == Building
  }

  /** S, F, N and P of one poll. */
  datatype Counts = Counts(successes: nat, failures: nat, indeterminate: nat, inProgress: nat)

  /**
   Counts the sub-results: successes, failures or unstable builds, everything
   else retrieved plus everything not retrieved, and running builds.
   */
  function TallyResults(results: seq<SubResult>): (c: Counts)
    ensures c.successes + c.failures + c.indeterminate == |results|
    ensures c.inProgress <= c.indeterminate
  {
    var retrieved := Oks(results);
    OksErrsPartition(results);
    CountThreeWay(retrieved, IsSuccess, IsFailing, IsIndeterminate);
    CountMono(retrieved, IsBuilding, IsIndeterminate);
    Counts(
      successes := Count(retrieved, IsSuccess),
      failures := Count(retrieved, IsFailing),
      indeterminate := Count(retrieved, IsIndeterminate) + |Errs(results)|,
      inProgress := Count(retrieved, IsBuilding))
  }

  /** The branching of `get_status` over the counts; its two branches for F > 0 agree. */
  function Verdict(c: Counts): (r: RemoteStatus)
    ensures r != Unknown
    ensures r == InProgress <==> c.successes > 0 && c.failures == 0 && c.inProgress > 0
    ensures r == Passing <==>
      c.successes > 0 && c.failures == 0 && c.inProgress == 0 && c.successes > c.indeterminate
    ensures r == Failing <==>
      c.successes == 0 || c.failures > 0 || (c.inProgress == 0 && c.successes <= c.indeterminate)
  {
    if c.successes <= 0 then Failing
    else if c.failures == 0 then
      if c.inProgress > 0 then InProgress
      else if c.successes > c.indeterminate then Passing
      else Failing
    else if c.successes > c.failures then Failing
    else Failing
  }

  /** `get_status`: `Unknown` exactly when the job listing could not be retrieved. */
  function GetStatus(listing: Result<seq<JenkinsJob>, NetworkError>, poll: Poller): (r: RemoteStatus)
    requires listing.Ok? ==> PollsUnwrappable(listing.value, poll)
    ensures r == Unknown <==> listing.Err?
  {
    match GetStatusInternal(listing, poll)
    case Err(_) => Unknown
    case Ok(results) => Verdict(TallyResults(results))
  }

  /** The counts as multiplicities: an independent description of what `TallyResults` counts. */
  lemma TallyMultiset(results: seq<SubResult>)
    ensures TallyResults(results).successes == multiset(results)[Ok(Success)]
    ensures TallyResults(results).failures == multiset(results)[Ok(Failure)] + multiset(results)[Ok(Unstable)]
    ensures TallyResults(results).inProgress == multiset(results)[Ok(Building)]
  {
    var retrieved := Oks(results);
    OksMultiset(results);
    CountValue(retrieved, IsSuccess, Success);
    CountValue(retrieved, IsBuilding, Building);
    CountFailing(retrieved);
  }

  lemma {:induction false} CountFailing(s: seq<JenkinsBuildStatus>)
    ensures Count(s, IsFailing) == multiset(s)[Failure] + multiset(s)[Unstable]
  {
    if |s| > 0 {
      CountFailing(s[1..]);
      assert s == [s[0]] + s[1..];
      assert multiset(s) == multiset{s[0]} + multiset(s[1..]);
    }
  }

  /** The order in which Jenkins lists the jobs does not change the counts. */
  lemma TallyOrderIndependent(a: seq<SubResult>, b: seq<SubResult>)
    requires multiset(a) == multiset(b)
    ensures TallyResults(a) == TallyResults(b)
  {
    OksPermutation(a, b);
    var ra, rb := Oks(a), Oks(b);
    CountPermutation(ra, rb, IsSuccess);
    CountPermutation(ra, rb, IsFailing);
    CountPermutation(ra, rb, IsIndeterminate);
    CountPermutation(ra, rb, IsBuilding);
    assert |a| == |multiset(a)| == |multiset(b)| == |b|;
    assert |ra| == |multiset(ra)| == |multiset(rb)| == |rb|;
    OksErrsPartition(a);
    OksErrsPartition(b);
  }

  /** Conservative failure: one more failed or unstable job forces `Failing`, whatever the others did. */
  lemma AddingFailureForcesFailing(results: seq<SubResult>, f: JenkinsBuildStatus)
    requires IsFailing(f)
    ensures TallyResults(results + [Ok(f)]).failures > 0
    ensures Verdict(TallyResults(results + [Ok(f)])) == Failing
  {
    OksConcat(results, [Ok(f)]);
    var last: seq<SubResult> := [Ok(f)];
    assert Oks(last) == [f];
    CountConcat(Oks(results), [f], IsFailing);
  }

  /** No failure among the counts means no enabled job answered with a failed or unstable build. */
  lemma NoFailuresMeansNoFailedJob(jobs: seq<JenkinsJob>, poll: Poller)
    requires PollsUnwrappable(jobs, poll)
    requires TallyResults(PollJobs(jobs, poll)).failures == 0
    ensures forall j :: j in jobs && IsEnabled(j) && poll(j.name).Ok? ==> !IsFailing(JobResult(poll(j.name)).value)
  {
    var results := PollJobs(jobs, poll);
    var enabled := EnabledJobs(jobs);
    CountZero(Oks(results), IsFailing);
    forall j | j in jobs && IsEnabled(j) && poll(j.name).Ok?
      ensures !IsFailing(JobResult(poll(j.name)).value)
    {
      assert j in enabled;
      var k :| 0 <= k < |enabled| && enabled[k] == j;
      assert results[k] == JobResult(poll(j.name));
      assert results[k] in results;
    }
  }

  /** `Passing` means the listing was retrieved and no enabled job reported a failed or unstable build. */
  lemma PassingMeansNoFailedJob(listing: Result<seq<JenkinsJob>, NetworkError>, poll: Poller)
    requires listing.Ok? ==> PollsUnwrappable(listing.value, poll)
    requires GetStatus(listing, poll) == Passing
    ensures listing.Ok?
    ensures forall j :: j in listing.value && IsEnabled(j) && poll(j.name).Ok? ==>
      !IsFailing(JobResult(poll(j.name)).value)
  {
    NoFailuresMeansNoFailedJob(listing.value, poll);
  }

  /** With no sub-poll retrieved (or nothing to poll) there is no success, so the verdict is `Failing`. */
  lemma NothingRetrievedIsFailing(jobs: seq<JenkinsJob>, poll: Poller)
    requires PollsUnwrappable(jobs, poll)
    requires forall j :: j in jobs && IsEnabled(j) ==> poll(j.name).Err?
    ensures TallyResults(PollJobs(jobs, poll)).successes == 0
    ensures GetStatus(Ok(jobs), poll) == Failing
  {
    var results := PollJobs(jobs, poll);
    var enabled := EnabledJobs(jobs);
    assert forall i :: 0 <= i < |results| ==> results[i].Err? by {
      forall i | 0 <= i < |results| ensures results[i].Err? {
        assert enabled[i] in enabled;
      }
    }
    OksAllFailed(results);
  }

  /** A listing whose last polled job failed or was unstable is `Failing`. */
  lemma PolledFailureIsFailing(jobs: seq<JenkinsJob>, poll: Poller, before: seq<SubResult>, f: JenkinsBuildStatus)
    requires PollsUnwrappable(jobs, poll)
    requires IsFailing(f)
    requires PollJobs(jobs, poll) == before + [Ok(f)]
    ensures GetStatus(Ok(jobs), poll) == Failing
  {
    AddingFailureForcesFailing(before, f);
  }

  /** Three enabled jobs, "c" coloured red. */
  function ThreeJobs(): seq<JenkinsJob> {
    [JenkinsJob("a", "", Blue), JenkinsJob("b", "", Blue), JenkinsJob("c", "", Red)]
  }

  /** Finished last builds: "c" failed, every other job succeeded. */
  function OneFailurePoll(): Poller {
    name => Ok(JenkinsBuildResult(false, Some(if name == "c" then Failure else Success)))
  }

  lemma ThreeJobsEnabled()
    ensures EnabledJobs(ThreeJobs()) == ThreeJobs()
  {
    FilterAll(ThreeJobs(), IsEnabled);
  }

  lemma ThreeJobsPolled()
    ensures PollsUnwrappable(ThreeJobs(), OneFailurePoll())
    ensures PollJobs(ThreeJobs(), OneFailurePoll()) == [Ok(Success), Ok(Success), Ok(Failure)]
  {
    ThreeJobsEnabled();
    var results := PollJobs(ThreeJobs(), OneFailurePoll());
    assert results[0] == Ok(Success);
    assert results[1] == Ok(Success);
    assert results[2] == Ok(Failure);
  }

  /** Three enabled jobs answering Success, Success and Failure give `Failing`. */
  lemma TwoSuccessesOneFailureIsFailing()
    ensures PollsUnwrappable(ThreeJobs(), OneFailurePoll())
    ensures GetStatus(Ok(ThreeJobs()), OneFailurePoll()) == Failing
  {
    ThreeJobsPolled();
    var before: seq<SubResult> := [Ok(Success), Ok(Success)];
    assert before + [Ok(Failure)] == [Ok(Success), Ok(Success), Ok(Failure)];
    PolledFailureIsFailing(ThreeJobs(), OneFailurePoll(), before, Failure);
  }

}
