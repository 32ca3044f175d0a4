/**
 The parts of the Jenkins JSON API the integration reads: the job listing
 (`/api/json`) and the last build of one job (`/job/<name>/lastBuild/api/json`).
 */
module JenkinsResponse {
  import opened Results

  /**
   The `result` field of a build. `Building` is not a Jenkins value; the
   integration substitutes it for any build still running.
   */
  datatype JenkinsBuildStatus = Success | Failure | NotBuilt | Aborted | Unstable | Building

  /** The `color` of a job in the listing; the `*Anime` forms mean a build is running. */
  datatype JenkinsJobColor =
    | Red | RedAnime | Yellow | YellowAnime | Blue | BlueAnime | Grey | GreyAnime
    | Disabled | DisabledAnime | Aborted | Notbuilt | NobtuiltAnime

  datatype JenkinsJob = JenkinsJob(name: string, url: string, color: JenkinsJobColor)

  /** A last-build answer; `buildResult` is absent while Jenkins has no result to give. */
  datatype JenkinsBuildResult = JenkinsBuildResult(building: bool, buildResult: Option<JenkinsBuildStatus>)
}
