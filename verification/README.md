# rusty-build-light: result-aggregation rules

rusty-build-light polls build services and shows their health on an RGB LED.
Each poll collects per-job or per-platform outcomes and reduces them to one
verdict. This project models the three reduction rules as pure Dafny
functions over sequences of outcomes and proves what each verdict means.

- **Jenkins, current revision** (`src/integrations/jenkins_integration.rs`).
  Disabled jobs are dropped. Every other job's last build becomes a
  `JenkinsBuildStatus`, or an error when it could not be fetched. The
  sub-results are counted as successes S, failures or unstable builds F,
  indeterminate N (everything else, including unfetched) and building P.
  The counts decide a `RemoteStatus`. A failed job listing gives `Unknown`.
- **Jenkins, older revision** (`src/jenkins_integration.rs`). It fetches and
  counts the same way, but it picks an LED command (`Solid`, `Blink` or
  `Glow` of a named colour) from S, F and N.
- **Unity Cloud** (`src/integrations/unity_cloud_integration.rs`). It fetches
  the latest build of the iOS and the Android target. It classifies each as
  passing, failing or other, and picks an LED command.

Every network answer is an input. The job listing is a
`Result<seq<JenkinsJob>, NetworkError>`. The last-build answers come from a
function `poll` from job name to `Result<JenkinsBuildResult, NetworkError>`;
the request URL depends only on the job name. The two Unity answers are
`Result<seq<UnityBuild>, NetworkError>` values. A `NetworkError` keeps only
the message of the failure.

Files: `results.dfy` (Result/Option and the ok/error partition),
`counting.dfy` (filter and count), `led.dfy` (colours and LED commands),
`remote_status.dfy`, `jenkins_response.dfy`, `jenkins_integration.dfy`,
`legacy_jenkins_integration.dfy`, `unity_cloud_response.dfy` and
`unity_cloud_integration.dfy`.

The two Jenkins revisions disagree when no job succeeded. The current one
returns `Failing` whenever S = 0. The older one glows blue when N > F or
F = 0. Unity glows teal when one platform succeeded and the other failed.

The older Jenkins revision does not compile against the response types
defined in `src/jenkins_response.rs`. There the job colour is a `String`, the
build result is not optional, and there is no `Building` variant. The model
gives the older revision the current response types, which is what its code
is written against.

## Model

| member | source | states |
|---|---|---|
| Results.Oks | src/integrations/jenkins_integration.rs:104-110 | the retrieved values are exactly those carried by successful sub-results |
| Results.Errs | src/integrations/unity_cloud_integration.rs:94-102 | the errors kept are exactly those carried by failed results |
| Results.OksErrsPartition | src/integrations/jenkins_integration.rs:104-113 | every result is either retrieved or not retrieved: the two counts add up to the total |
| Results.OksPermutation | src/integrations/jenkins_integration.rs:104-110 | reordering the results only reorders the retrieved values |
| Counting.Count | src/integrations/jenkins_integration.rs:114-136 | the `.filter(..).count()` behind S, F, N and P (and Unity's three counts at src/integrations/unity_cloud_integration.rs:108-119): at most the length; with CountValue it is the multiplicity of the value counted, with CountThreeWay three exclusive and exhaustive predicates add up to the length, with CountPermutation it does not depend on order |
| Counting.CountValue | src/integrations/jenkins_integration.rs:128-136 | counting the elements equal to one value gives that value's multiplicity |
| Counting.CountThreeWay | src/integrations/jenkins_integration.rs:114-131 | counts of three predicates of which every element satisfies exactly one add up to the length |
| Counting.Filter | src/integrations/jenkins_integration.rs:49-55 | the filter keeps exactly the elements that satisfy the predicate, and as many as the predicate counts |
| Counting.FilterMultiset | src/integrations/jenkins_integration.rs:49-55 | every element that passes the filter is kept as often as it occurs; every other element is dropped |
| Counting.FilterConcat | src/integrations/jenkins_integration.rs:49-55 | filtering keeps the order: the filter of a concatenation is the concatenation of the filters |
| Counting.CountPermutation | src/integrations/jenkins_integration.rs:114-136 | a filter-and-count does not depend on the order of the elements |
| JenkinsIntegration.EnabledJobs | src/integrations/jenkins_integration.rs:49-55 | the polled jobs are exactly the listed jobs not coloured Disabled or DisabledAnime; polled plus disabled equals listed |
| JenkinsIntegration.EnabledJobsMultiset | src/integrations/jenkins_integration.rs:49-55 | every enabled job is polled as often as it is listed, and no disabled job is polled |
| JenkinsIntegration.JobResult | src/integrations/jenkins_integration.rs:67-80 | a running build becomes Building whatever its result field; a finished one becomes its result, which must be present; a failed request stays an error with its message |
| JenkinsIntegration.PollJobs | src/integrations/jenkins_integration.rs:49-82 | one sub-result per enabled job: the i-th is the answer for the i-th enabled job, and their number is the listed jobs minus the disabled ones |
| JenkinsIntegration.GetStatusInternal | src/integrations/jenkins_integration.rs:36-87 | a failed listing is passed on as the same error with no sub-poll; otherwise one sub-result per enabled job |
| JenkinsIntegration.TallyResults | src/integrations/jenkins_integration.rs:104-136 | successes, failures and indeterminates partition the sub-results (S + F + N = total), and building results are among the indeterminate (P <= N) |
| JenkinsIntegration.TallyMultiset | src/integrations/jenkins_integration.rs:114-136 | S is the number of Ok(Success), F the number of Ok(Failure) plus Ok(Unstable), P the number of Ok(Building) |
| JenkinsIntegration.TallyOrderIndependent | src/integrations/jenkins_integration.rs:104-136 | the counts depend only on which sub-results occur and how often |
| JenkinsIntegration.Verdict | src/integrations/jenkins_integration.rs:138-169 | never Unknown; InProgress iff S > 0, F = 0, P > 0; Passing iff S > 0, F = 0, P = 0 and S > N; Failing in every other case (S = 0, or F > 0, or P = 0 and S <= N) |
| JenkinsIntegration.GetStatus | src/integrations/jenkins_integration.rs:101-179 | Unknown exactly when the job listing could not be retrieved |
| JenkinsIntegration.AddingFailureForcesFailing | src/integrations/jenkins_integration.rs:141-166 | conservative failure: adding one failed or unstable sub-result to any poll makes F > 0 and the verdict Failing |
| JenkinsIntegration.PolledFailureIsFailing | src/integrations/jenkins_integration.rs:141-166 | a retrieved listing whose last polled job failed or was unstable gives Failing, whatever the earlier jobs answered |
| JenkinsIntegration.NoFailuresMeansNoFailedJob | src/integrations/jenkins_integration.rs:114-119 | F = 0 means no enabled job answered with a failed or unstable build |
| JenkinsIntegration.PassingMeansNoFailedJob | src/integrations/jenkins_integration.rs:146-158 | Passing means the listing was retrieved and no enabled job reported a failed or unstable build |
| JenkinsIntegration.NothingRetrievedIsFailing | src/integrations/jenkins_integration.rs:140-143 | when every enabled job's request fails, or no job is enabled, S = 0 and the verdict is Failing |
| JenkinsIntegration.TwoSuccessesOneFailureIsFailing | src/integrations/jenkins_integration.rs:104-166 | three jobs answering Success, Success and Failure give Failing |
| LegacyJenkinsIntegration.LegacyCommand | src/jenkins_integration.rs:110-137 | Glow(BLUE) iff S = 0 and (N > F or F = 0); Blink(RED) iff S = 0, F > 0, N <= F or 0 < S <= F; Solid(GREEN) iff S > 0, F = 0, S > N; Glow(TEAL) iff S > 0, F = 0, S <= N; Glow(YELLOW) iff 0 < F < S; always one of these five |
| LegacyJenkinsIntegration.UpdateLed | src/jenkins_integration.rs:82-148 | a failed job listing glows blue; the purple command is never chosen |
| LegacyJenkinsIntegration.TallyCoversEnabledJobs | src/jenkins_integration.rs:42-108 | every enabled job is counted exactly once as a success, a failure or an indeterminate result |
| LegacyJenkinsIntegration.GreenMeansNoFailedJob | src/jenkins_integration.rs:121-125 | steady green means the listing was retrieved and no enabled job reported a failed or unstable build |
| LegacyJenkinsIntegration.PassingWasGreen | src/jenkins_integration.rs:121-125 | where the current revision reports Passing, the older one shows steady green |
| LegacyJenkinsIntegration.GreenIsPassingOrInProgress | src/jenkins_integration.rs:121-125 | steady green in the older revision is Passing or InProgress in the current one |
| LegacyJenkinsIntegration.RevisionsDisagreeWhenNothingSucceeds | src/jenkins_integration.rs:110-117 | one enabled job whose request fails: the current revision says Failing, the older one glows blue |
| UnityCloudIntegration.GetPlatformStatus | src/integrations/unity_cloud_integration.rs:52-76 | a non-empty build list yields the first build's status; an empty list yields NoBuildsReturned; a transport error yields HttpError with its message |
| UnityCloudIntegration.GetStatus | src/integrations/unity_cloud_integration.rs:32-50 | exactly two results, the iOS platform first and Android second |
| UnityCloudIntegration.RetrievedCommand | src/integrations/unity_cloud_integration.rs:108-145 | the command is one of blue glow, steady green, red blink, teal glow or purple glow |
| UnityCloudIntegration.UpdateLed | src/integrations/unity_cloud_integration.rs:92-106 | if any platform was not retrieved the LED glows blue, whatever the other returned |
| UnityCloudIntegration.ClassesPartition | src/integrations/unity_cloud_integration.rs:108-119 | passing + failing + other = number of retrieved builds; other is every status but Success and Failure |
| UnityCloudIntegration.RetrievedCommandCases | src/integrations/unity_cloud_integration.rs:121-145 | Glow(BLUE) iff other > passing + failing; Solid(GREEN) iff passing > 0, failing = 0 and other <= passing; Blink(RED) iff failing > 0, passing = 0 and other <= failing; Glow(TEAL) iff both > 0; Glow(PURPLE) iff nothing was retrieved |
| UnityCloudIntegration.PurpleOnlyWithoutResults | src/integrations/unity_cloud_integration.rs:141-145 | the purple fallback is chosen exactly when there are no results at all |
| UnityCloudIntegration.TwoPlatformsNeverPurple | src/integrations/unity_cloud_integration.rs:49 | with the two results get_status returns, the purple fallback is unreachable |
| UnityCloudIntegration.EitherUnretrievedIsBlue | src/integrations/unity_cloud_integration.rs:104-106 | if either platform has no status the LED glows blue |
| UnityCloudIntegration.PlatformOrderIrrelevant | src/integrations/unity_cloud_integration.rs:108-145 | the command does not depend on the order of the platform results |
| UnityCloudIntegration.BothSucceededIsGreen | src/integrations/unity_cloud_integration.rs:127-130 | {Success, Success} gives Solid(GREEN) |
| UnityCloudIntegration.OneSucceededOneFailedIsTeal | src/integrations/unity_cloud_integration.rs:137-140 | {Success, Failure} gives Glow(TEAL) |
| UnityCloudIntegration.BothFailedIsRed | src/integrations/unity_cloud_integration.rs:132-135 | {Failure, Failure} gives Blink(RED) |

## Left out

- HTTP, authentication, URL formatting and JSON decoding (`src/network.rs`): every answer is an input value.
- The response headers returned next to each Unity status: the aggregation never reads them.
- GPIO, the blink thread and its stop channel (`src/pin.rs`), and the LED driver's colour intensities. A colour is a name and the LED is the command chosen.
- The 50-second sleep after each Unity poll, and all `info!`/`warn!` logging.
- `src/main.rs` (a price printer) and `build.rs` (build-time file copying): they hold no aggregation logic.
- The configuration, Coinbase and TeamCity wire structs.
- The counts are `usize` in the source and unbounded here. Each count is at most the number of results, which is the length of a `Vec`, so no count can overflow.
- JenkinsIntegration.JobResult: a finished build without a `result` makes the source panic on `unwrap`. The model makes a present result a precondition (`Unwrappable`) and does not model the panic.
- The same-name case: `poll` is a function of the job name, so two listed jobs with one name get the same answer. The source sends two identical requests, which could be answered differently.
