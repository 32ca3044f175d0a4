/** The part of a Unity Cloud Build answer the integration reads. */
module UnityCloudResponse {

  datatype UnityBuildStatus =
    | Queued | SentToBuilder | Started | Restarted | Success | Failure | Canceled | Unknown

  datatype UnityBuild = UnityBuild(buildStatus: UnityBuildStatus)
}
