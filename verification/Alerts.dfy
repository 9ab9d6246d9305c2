/** Alert rows and the scopes they belong to. A row's id is its position in the table. */
module Alerts {
  import opened Common
  import opened AlertTypes
  import opened Conditions

  datatype Status = Active | Acknowledged | Resolved

  datatype Alert = Alert(
    deploymentId: Option<nat>,
    projectId: Option<nat>,
    userId: Option<nat>,
    alertType: AlertType,
    severity: Severity,
    threshold: Option<real>,
    status: Status,
    triggeredAt: int,
    resolvedAt: Option<int>)

  datatype Scope = OfDeployment(id: nat) | OfProject(id: nat) | OfUser(id: nat) | PlatformWide

  /** The row filter of the repository's lookups for one scope. */
  predicate InScope(a: Alert, s: Scope) {
    match s
    case OfDeployment(d) => a.deploymentId == Some(d)
    case OfProject(p) => a.projectId == Some(p)
    case OfUser(u) => a.userId == Some(u)
    case PlatformWide => a.deploymentId.None? && a.projectId.None? && a.userId.None?
  }

  predicate AtMostOneScope(a: Alert) {
    (a.deploymentId.Some? ==> a.projectId.None? && a.userId.None?) &&
    (a.projectId.Some? ==> a.userId.None?)
  }

  function ScopeOf(a: Alert): Scope {
    if a.deploymentId.Some? then OfDeployment(a.deploymentId.value)
    else if a.projectId.Some? then OfProject(a.projectId.value)
    else if a.userId.Some? then OfUser(a.userId.value)
    else PlatformWide
  }

  /** A freshly raised alert. */
  function Opened(s: Scope, c: Condition, now: int): (a: Alert)
    ensures AtMostOneScope(a) && a.status.Active? && a.resolvedAt.None?
    ensures forall t :: InScope(a, t) <==> t == s
    ensures a.alertType == c.alertType && a.severity == c.severity && a.threshold == c.threshold
    ensures a.triggeredAt == now
  {
    Alert(if s.OfDeployment? then Some(s.id) else None,
          if s.OfProject? then Some(s.id) else None,
          if s.OfUser? then Some(s.id) else None,
          c.alertType, c.severity, c.threshold, Active, now, None)
  }

  function Closed(a: Alert, now: int): Alert {
    a.(status := Resolved, resolvedAt := Some(now))
  }

  lemma InScopeIsScopeOf(a: Alert, s: Scope)
    requires AtMostOneScope(a)
    ensures InScope(a, s) <==> ScopeOf(a) == s
  {
  }
}
