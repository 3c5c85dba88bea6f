/** The permission step at activity creation: which permissions the
    activity asks for on a given platform version, whether it has to ask
    at all, and whether the session goes on once the user has answered.
    The platform calls themselves (the permission check, the request
    launcher, the two-second delayed start) are not modelled; their
    results are parameters. */
module NavPermissions {

  datatype Permission = AccessFineLocation | PostNotifications

  /** The platform version code from which notifications need a runtime
      permission (Android 13, API level 33). */
  const TIRAMISU: int := 33

  /** The permissions the activity needs on platform version `sdkInt`. */
  function RequiredPermissions(sdkInt: int): (ps: seq<Permission>)
    ensures |ps| > 0 && ps[0] == AccessFineLocation
    ensures PostNotifications in ps <==> sdkInt >= TIRAMISU
    ensures forall i, j :: 0 <= i < j < |ps| ==> ps[i] != ps[j]
  {
    if sdkInt >= TIRAMISU then [AccessFineLocation, PostNotifications] else [AccessFineLocation]
  }

  /** What the activity does at creation, given the permissions the
      platform already reports as granted. */
  datatype StartStep = RequestPermissions(asked: seq<Permission>) | ProceedAfterDelay

  function StartStepFor(sdkInt: int, granted: set<Permission>): (st: StartStep)
    ensures st == ProceedAfterDelay <==> forall p :: p in RequiredPermissions(sdkInt) ==> p in granted
    ensures st.RequestPermissions? ==> st.asked == RequiredPermissions(sdkInt)
  {
    var ps := RequiredPermissions(sdkInt);
    if exists p :: p in ps && p !in granted then RequestPermissions(ps) else ProceedAfterDelay
  }

  /** What the request callback decides from the user's answers. */
  datatype SessionStep = InitializeNavigation | FinishActivity

  /** The session goes on exactly when fine location was granted; a
      permission missing from the answers counts as denied. */
  function AfterPermissionResults(results: map<Permission, bool>): (st: SessionStep)
    ensures st == InitializeNavigation <==> AccessFineLocation in results && results[AccessFineLocation]
  {
    if AccessFineLocation in results && results[AccessFineLocation] then InitializeNavigation else FinishActivity
  }

  /** The answer for notifications never changes the decision. */
  lemma NotificationAnswerIrrelevant(results: map<Permission, bool>, answer: bool)
    ensures AfterPermissionResults(results[PostNotifications := answer]) == AfterPermissionResults(results)
    ensures AfterPermissionResults(results - {PostNotifications}) == AfterPermissionResults(results)
  {
  }
}
