/** The two decision tables of the activity's engine callbacks: what the
    activity does when the engine reports a failed start-up, and what it
    does when a destination request resolves to a route status. Both are
    pure mappings; the notices are tags, not rendered text. */
module NavCallbacks {

  /** The start-up error code delivered to the engine listener's error
      callback. The engine defines it as an integer; the two codes the
      activity tests for are named, every other value is `OtherCode`.
      `OtherCode` never carries the integer value of either named code. */
  datatype InitErrorCode = NotAuthorized | TermsNotAccepted | OtherCode(code: int)

  /** The notice shown for a start-up error. `GenericInitNotice` is the
      "Error loading Navigation API: <code>" notice and carries the code
      that it prints. */
  datatype InitNotice = InvalidApiKeyNotice | TermsNotAcceptedNotice | GenericInitNotice(code: InitErrorCode)

  /** The status a pending route resolves to. The engine's enumeration has
      more values than the four the activity names; they are `OtherStatus`,
      which never stands for one of the four named statuses. */
  datatype RouteStatus = RouteOk | RouteCanceled | NoRouteFound | NetworkError | OtherStatus(ordinal: nat)

  /** What the activity does with a route status. `BeginGuidance` stands
      for the whole success branch: hide the toolbar, switch on voice
      guidance and start turn-by-turn guidance. `GuidanceErrorNotice` is
      the "Error starting guidance: <code>" notice and carries the status
      it prints. */
  datatype RouteOutcome = BeginGuidance | CancelledNotice | GuidanceErrorNotice(status: RouteStatus)

  /** The error callback: each of the two recognised codes has its own
      notice, every other code gets the generic notice naming the code. */
  function InitErrorNotice(e: InitErrorCode): (n: InitNotice)
    ensures n == InvalidApiKeyNotice <==> e == NotAuthorized
    ensures n == TermsNotAcceptedNotice <==> e == TermsNotAccepted
    ensures n.GenericInitNotice? <==> e.OtherCode?
    ensures n.GenericInitNotice? ==> n.code == e
  {
    match e
    case NotAuthorized => InvalidApiKeyNotice
    case TermsNotAccepted => TermsNotAcceptedNotice
    case OtherCode(_) => GenericInitNotice(e)
  }

  /** The route result listener. Only `RouteOk` starts guidance; a
      cancellation gets its own notice; no-route-found, network error and
      every other status get the error notice naming the status, and no
      guidance. */
  function RouteOutcomeFor(status: RouteStatus): (o: RouteOutcome)
    ensures o == BeginGuidance <==> status == RouteOk
    ensures o == CancelledNotice <==> status == RouteCanceled
    ensures o.GuidanceErrorNotice? <==> status != RouteOk && status != RouteCanceled
    ensures o.GuidanceErrorNotice? ==> o.status == status
  {
    match status
    case RouteOk => BeginGuidance
    case RouteCanceled => CancelledNotice
    case NoRouteFound => GuidanceErrorNotice(status)
    case NetworkError => GuidanceErrorNotice(status)
    case OtherStatus(_) => GuidanceErrorNotice(status)
  }

  /** The explicit no-route-found / network-error branch behaves exactly
      like the fall-through branch: whichever failing status arrives, the
      outcome depends on the status only through the code it prints. */
  lemma FailedRouteIsUniform(s1: RouteStatus, s2: RouteStatus)
    requires s1 != RouteOk && s1 != RouteCanceled
    requires s2 != RouteOk && s2 != RouteCanceled
    ensures RouteOutcomeFor(s1).GuidanceErrorNotice? && RouteOutcomeFor(s2).GuidanceErrorNotice?
    ensures RouteOutcomeFor(s1) == RouteOutcomeFor(s2) <==> s1 == s2
  {
  }
}
