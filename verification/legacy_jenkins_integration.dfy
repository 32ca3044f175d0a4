/**
 The older Jenkins integration. It lists and polls the jobs exactly as the
 current one does and counts them the same way, but drives the LED directly:
 each combination of counts selects one LED command. It does not look at the
 number of running builds.
 */
module LegacyJenkinsIntegration {
  import opened Results
  import opened Led
  import opened Remote
  import opened JenkinsResponse
  import J = JenkinsIntegration

  /** The branching of `update_led` over the counts. */
  function LegacyCommand(c: J.Counts): (cmd: LedCommand)
    ensures cmd == Glow(BLUE) <==>
      c.successes == 0 && (c.indeterminate > c.failures || c.failures == 0)
    ensures cmd == Blink(RED) <==>
      (c.successes == 0 && 0 < c.failures && c.indeterminate <= c.failures) || 0 < c.successes <= c.failures
    ensures cmd == Solid(GREEN) <==> 0 < c.successes && c.failures == 0 && c.successes > c.indeterminate
    ensures cmd == Glow(TEAL) <==> 0 < c.successes && c.failures == 0 && c.successes <= c.indeterminate
    ensures cmd == Glow(YELLOW) <==> 0 < c.failures < c.successes
    ensures cmd in {Glow(BLUE), Blink(RED), Solid(GREEN), Glow(TEAL), Glow(YELLOW)}
  {
    if c.successes <= 0 then
      if c.indeterminate > c.failures || c.failures == 0 then Glow(BLUE) else Blink(RED)
    else if c.failures == 0 then
      if c.successes > c.indeterminate then Solid(GREEN) else Glow(TEAL)
    else if c.successes > c.failures then Glow(YELLOW)
    else Blink(RED)
  }

  /** `update_led`: a failed listing glows blue; otherwise the counts of the enabled jobs decide. */
  function UpdateLed(listing: Result<seq<JenkinsJob>, NetworkError>, poll: J.Poller): (cmd: LedCommand)
    requires listing.Ok? ==> J.PollsUnwrappable(listing.value, poll)
    ensures listing.Err? ==> cmd == Glow(BLUE)
    ensures cmd != Glow(PURPLE)
  {
    match J.GetStatusInternal(listing, poll)
    case Err(_) => Glow(BLUE)
    case Ok(results) => LegacyCommand(J.TallyResults(results))
  }

  /** Every enabled job is counted once, as a success, a failure or an indeterminate result. */
  lemma TallyCoversEnabledJobs(jobs: seq<JenkinsJob>, poll: J.Poller)
    requires J.PollsUnwrappable(jobs, poll)
    ensures var c := J.TallyResults(J.PollJobs(jobs, poll));
      c.successes + c.failures + c.indeterminate == |J.EnabledJobs(jobs)|
  {
  }

  /** Steady green means the listing was retrieved and no enabled job reported a failed or unstable build. */
  lemma GreenMeansNoFailedJob(listing: Result<seq<JenkinsJob>, NetworkError>, poll: J.Poller)
    requires listing.Ok? ==> J.PollsUnwrappable(listing.value, poll)
    requires UpdateLed(listing, poll) == Solid(GREEN)
    ensures listing.Ok?
    ensures forall j :: j in listing.value && J.IsEnabled(j) && poll(j.name).Ok? ==>
      !J.IsFailing(J.JobResult(poll(j.name)).value)
  {
    J.NoFailuresMeansNoFailedJob(listing.value, poll);
  }

  /** Where the current revision reports `Passing`, the older one showed steady green. */
  lemma PassingWasGreen(listing: Result<seq<JenkinsJob>, NetworkError>, poll: J.Poller)
    requires listing.Ok? ==> J.PollsUnwrappable(listing.value, poll)
    ensures J.GetStatus(listing, poll) == Passing ==> UpdateLed(listing, poll) == Solid(GREEN)
  {
  }

  /**
   Steady green in the older revision is `Passing` or, when some build is
   still running, `InProgress` in the current one.
   */
  lemma GreenIsPassingOrInProgress(listing: Result<seq<JenkinsJob>, NetworkError>, poll: J.Poller)
    requires listing.Ok? ==> J.PollsUnwrappable(listing.value, poll)
    ensures UpdateLed(listing, poll) == Solid(GREEN) ==> J.GetStatus(listing, poll) in {Passing, InProgress}
  {
  }

  /**
   The revisions disagree when nothing succeeds: a single enabled job whose
   last-build request fails is `Failing` now but glowed blue before.
   */
  lemma RevisionsDisagreeWhenNothingSucceeds(e: NetworkError)
    ensures J.GetStatus(Ok([JenkinsJob("a", "", Blue)]), _ => Err(e)) == Failing
    ensures UpdateLed(Ok([JenkinsJob("a", "", Blue)]), _ => Err(e)) == Glow(BLUE)
  {
  }
}
