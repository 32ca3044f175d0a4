/**
 The Unity Cloud integration: ask for the latest build of the iOS and the
 Android development targets, classify each as passing, failing or other,
 and choose an LED command.

 The network is an input: `ios` and `android` are the answers to the two
 build-list requests.
 */
module UnityCloudIntegration {
  import opened Results
  import opened Counting
  import opened Led
  import opened UnityCloudResponse

  /** Why a platform's status could not be retrieved. */
  datatype UnityRetrievalError = NoBuildsReturned | HttpError(httpErrorMessage: string)

  type PlatformResult = Result<UnityBuildStatus, UnityRetrievalError>

  /** `get_platform_status`: the status of the first build listed, or why there is none. */
  function GetPlatformStatus(response: Result<seq<UnityBuild>, NetworkError>): (r: PlatformResult)
    ensures r.Ok? <==> response.Ok? && |response.value| > 0
    ensures r.Ok? ==> r.value == response.value[0].buildStatus
    ensures r == Err(NoBuildsReturned) <==> response == Ok([])
    ensures response.Err? ==> r == Err(HttpError(response.error))
  {
    match response
    case Err(e) => Err(HttpError(e))
    case Ok(builds) =>
      if |builds| != 0 then Ok(builds[0].buildStatus) else Err(NoBuildsReturned)
  }

  /** `get_status`: exactly two results, iOS first and Android second. */
  function GetStatus(ios: Result<seq<UnityBuild>, NetworkError>, android: Result<seq<UnityBuild>, NetworkError>)
    : (r: seq<PlatformResult>)
    ensures |r| == 2
    ensures r[0] == GetPlatformStatus(ios) && r[1] == GetPlatformStatus(android)
  {
    [GetPlatformStatus(ios), GetPlatformStatus(android)]
  }

  predicate IsPassing(s: UnityBuildStatus) {
    s == Success
  }

  predicate IsFailing(s: UnityBuildStatus) {
    s == Failure
  }

  predicate IsOther(s: UnityBuildStatus) {
    s != Success && s != Failure
  }

  /** The branching of `update_led` once every platform was retrieved. */
  function RetrievedCommand(retrieved: seq<UnityBuildStatus>): (cmd: LedCommand)
    ensures cmd in {Glow(BLUE), Solid(GREEN), Blink(RED), Glow(TEAL), Glow(PURPLE)}
  {
    var passing := Count(retrieved, IsPassing);
    var failing := Count(retrieved, IsFailing);
    var other := Count(retrieved, IsOther);
    if other > passing + failing then Glow(BLUE)
    else if passing > 0 && failing == 0 then Solid(GREEN)
    else if passing == 0 && failing > 0 then Blink(RED)
    else if passing > 0 && failing > 0 then Glow(TEAL)
    else Glow(PURPLE)
  }

  /** `update_led`: any platform not retrieved glows blue, whatever the others returned. */
  function UpdateLed(results: seq<PlatformResult>): (cmd: LedCommand)
    ensures |Errs(results)| > 0 ==> cmd == Glow(BLUE)
  {
    if |Errs(results)| > 0 then Glow(BLUE)
    else RetrievedCommand(Oks(results))
  }

  /** Every retrieved build is passing, failing or other, and only one of them. */
  lemma ClassesPartition(retrieved: seq<UnityBuildStatus>)
    ensures Count(retrieved, IsPassing) + Count(retrieved, IsFailing) + Count(retrieved, IsOther) == |retrieved|
  {
  }

  /** Each LED command of a fully retrieved poll, stated through the class counts. */
  lemma RetrievedCommandCases(retrieved: seq<UnityBuildStatus>)
    ensures var passing, failing, other :=
      Count(retrieved, IsPassing), Count(retrieved, IsFailing), Count(retrieved, IsOther);
      && (RetrievedCommand(retrieved) == Glow(BLUE) <==> other > passing + failing)
      && (RetrievedCommand(retrieved) == Solid(GREEN) <==> other <= passing && passing > 0 && failing == 0)
      && (RetrievedCommand(retrieved) == Blink(RED) <==> other <= failing && passing == 0 && failing > 0)
      && (RetrievedCommand(retrieved) == Glow(TEAL) <==> other <= passing + failing && passing > 0 && failing > 0)
      && (RetrievedCommand(retrieved) == Glow(PURPLE) <==> |retrieved| == 0)
  {
  }

  /** The purple fallback is reached only when there are no results at all. */
  lemma PurpleOnlyWithoutResults(results: seq<PlatformResult>)
    ensures UpdateLed(results) == Glow(PURPLE) <==> |results| == 0
  {
  }

  /** The two platforms that `get_status` polls never lead to the purple fallback. */
  lemma TwoPlatformsNeverPurple(ios: Result<seq<UnityBuild>, NetworkError>, android: Result<seq<UnityBuild>, NetworkError>)
    ensures UpdateLed(GetStatus(ios, android)) != Glow(PURPLE)
  {
  }

  /** A platform without a status glows blue whatever the other returned. */
  lemma EitherUnretrievedIsBlue(ios: Result<seq<UnityBuild>, NetworkError>, android: Result<seq<UnityBuild>, NetworkError>)
    requires GetPlatformStatus(ios).Err? || GetPlatformStatus(android).Err?
    ensures UpdateLed(GetStatus(ios, android)) == Glow(BLUE)
  {
  }

  /** The order of the platforms does not change the command. */
  lemma PlatformOrderIrrelevant(s: seq<PlatformResult>, t: seq<PlatformResult>)
    requires multiset(s) == multiset(t)
    ensures UpdateLed(s) == UpdateLed(t)
  {
    OksPermutation(s, t);
    var os, ot := Oks(s), Oks(t);
    CountPermutation(os, ot, IsPassing);
    CountPermutation(os, ot, IsFailing);
    CountPermutation(os, ot, IsOther);
    assert |s| == |multiset(s)| == |multiset(t)| == |t|;
    assert |os| == |multiset(os)| == |multiset(ot)| == |ot|;
    OksErrsPartition(s);
    OksErrsPartition(t);
  }

  function LatestBuild(s: UnityBuildStatus): Result<seq<UnityBuild>, NetworkError> {
    Ok([UnityBuild(s)])
  }

  lemma BothSucceededIsGreen()
    ensures UpdateLed(GetStatus(LatestBuild(Success), LatestBuild(Success))) == Solid(GREEN)
  {
  }

  lemma OneSucceededOneFailedIsTeal()
    ensures UpdateLed(GetStatus(LatestBuild(Success), LatestBuild(Failure))) == Glow(TEAL)
  {
  }

  lemma BothFailedIsRed()
    ensures UpdateLed(GetStatus(LatestBuild(Failure), LatestBuild(Failure))) == Blink(RED)
  {
  }
}
