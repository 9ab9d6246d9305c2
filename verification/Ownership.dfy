/** Who an alert belongs to, computed independently in four places. */
module Ownership {
  import opened Common
  import opened Alerts

  /** The ownership data every computation reads: project of a deployment (through its
      microservice), owner of a project, and the users' flags. */
  datatype Directory = Directory(
    projectOf: nat -> nat,
    ownerOf: nat -> nat,
    isActive: nat -> bool,
    superusers: seq<nat>)

  datatype Viewer = Viewer(id: nat, isSuperuser: bool)

  /** How a request to change one row ends. */
  datatype Answer = Done | NotFound | Forbidden | Conflict

  predicate CanAccessProject(dir: Directory, project: nat, v: Viewer) {
    v.isSuperuser || dir.ownerOf(project) == v.id
  }

  /** The single-alert access check. */
  predicate CanAccess(dir: Directory, a: Alert, v: Viewer) {
    if v.isSuperuser then true
    else if a.deploymentId.Some? then CanAccessProject(dir, dir.projectOf(a.deploymentId.value), v)
    else if a.projectId.Some? then CanAccessProject(dir, a.projectId.value, v)
    else if a.userId.Some? then a.userId.value == v.id
    else false
  }

  /** The owner filter of the global listing: three outer joins, any of which may match. */
  predicate MatchesOwnerFilter(dir: Directory, a: Alert, ownerId: Option<nat>) {
    ownerId.None? ||
    (a.deploymentId.Some? && dir.ownerOf(dir.projectOf(a.deploymentId.value)) == ownerId.value) ||
    (a.projectId.Some? && dir.ownerOf(a.projectId.value) == ownerId.value) ||
    a.userId == Some(ownerId.value)
  }

  predicate Listed(dir: Directory, a: Alert, v: Viewer) {
    MatchesOwnerFilter(dir, a, if v.isSuperuser then None else Some(v.id))
  }

  /** The owner shown on the alert itself. */
  function OwnerUserId(dir: Directory, a: Alert): Option<nat> {
    if a.deploymentId.Some? then Some(dir.ownerOf(dir.projectOf(a.deploymentId.value)))
    else if a.projectId.Some? then Some(dir.ownerOf(a.projectId.value))
    else a.userId
  }

  function IfActive(dir: Directory, user: nat): seq<nat> {
    if dir.isActive(user) then [user] else []
  }

  /** Whom a notification goes to. */
  function Recipients(dir: Directory, a: Alert): seq<nat> {
    if a.deploymentId.Some? then IfActive(dir, dir.ownerOf(dir.projectOf(a.deploymentId.value)))
    else if a.projectId.Some? then IfActive(dir, dir.ownerOf(a.projectId.value))
    else if a.userId.Some? then IfActive(dir, a.userId.value)
    else dir.superusers
  }

  /** For an ordinary user, the listing, the access check, the displayed owner and (while the
      user is active) the notification recipient all single out the same alerts. Superusers see
      every alert, and are told about those that nobody owns. */
  lemma OwnershipAgrees(dir: Directory, a: Alert, v: Viewer)
    requires AtMostOneScope(a)
    ensures OwnerUserId(dir, a).None? ==> Recipients(dir, a) == dir.superusers
    ensures OwnerUserId(dir, a).Some? ==> |Recipients(dir, a)| <= 1
    ensures Listed(dir, a, v) <==> v.isSuperuser || OwnerUserId(dir, a) == Some(v.id)
    ensures CanAccess(dir, a, v) <==> v.isSuperuser || OwnerUserId(dir, a) == Some(v.id)
    ensures OwnerUserId(dir, a).Some? ==>
      (v.id in Recipients(dir, a) <==> OwnerUserId(dir, a) == Some(v.id) && dir.isActive(v.id))
  {
  }

  /** Every scope that is set on the row leads to the owner the row displays. */
  predicate ScopesShareOwner(dir: Directory, a: Alert) {
    (a.deploymentId.Some? && a.projectId.Some? ==>
      dir.ownerOf(a.projectId.value) == dir.ownerOf(dir.projectOf(a.deploymentId.value))) &&
    (a.userId.Some? && OwnerUserId(dir, a).Some? ==> a.userId == OwnerUserId(dir, a))
  }

  /** Nothing in the table forbids a row with several scopes. On such a row the listing and
      the access check agree for every ordinary user if and only if all its scopes lead to
      the same owner; otherwise someone is shown an alert they may not open. */
  lemma ListingMatchesAccess(dir: Directory, a: Alert)
    ensures (forall id :: Listed(dir, a, Viewer(id, false)) <==> CanAccess(dir, a, Viewer(id, false))) <==>
            ScopesShareOwner(dir, a)
  {
    if !ScopesShareOwner(dir, a) {
      var outsider :=
        if a.userId.Some? && a.userId != OwnerUserId(dir, a) then a.userId.value
        else dir.ownerOf(a.projectId.value);
      var v := Viewer(outsider, false);
      assert Listed(dir, a, v) && !CanAccess(dir, a, v);
    }
  }
}
