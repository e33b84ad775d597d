/** The grant rows of internal/model/permission.go that carry an expiry: a
    user's permission on a resource type, a permission on one file, and a
    role assigned to a user. All three expire by one shared rule. */
module Permissions {
  import opened Wrappers
  import opened GoTypes
  import Recycle

  /** `ExpiresAt != nil && ExpiresAt.Before(now)`: a row without an expiry
      never lapses; one with an expiry lapses strictly after it. */
  predicate GrantExpired(expiresAt: Option<Time>, now: Time)
  {
    expiresAt.Some? && expiresAt.value < now
  }

  datatype UserPermission = UserPermission(
    resourceType: string,
    resourceId: Option<nat>,
    action: string,
    allowed: bool,
    expiresAt: Option<Time>)
  {
    predicate IsExpired(now: Time) { GrantExpired(expiresAt, now) }
  }

  datatype FilePermission = FilePermission(
    fileId: nat,
    userId: Option<nat>,
    teamId: Option<nat>,
    action: string,
    allowed: bool,
    expiresAt: Option<Time>)
  {
    predicate IsExpired(now: Time) { GrantExpired(expiresAt, now) }
  }

  datatype UserRole = UserRole(userId: nat, roleId: nat, expiresAt: Option<Time>)
  {
    predicate IsExpired(now: Time) { GrantExpired(expiresAt, now) }
  }

  /** No expiry means never expired; at the expiry instant the grant is
      still live; once expired it stays expired. */
  lemma GrantExpiryRule(expiresAt: Option<Time>, now: Time, later: Time)
    requires now <= later
    ensures expiresAt.None? ==> !GrantExpired(expiresAt, now)
    ensures expiresAt.Some? ==> !GrantExpired(expiresAt, expiresAt.value)
    ensures expiresAt.Some? ==> GrantExpired(expiresAt, expiresAt.value + 1)
    ensures GrantExpired(expiresAt, now) ==> GrantExpired(expiresAt, later)
  {
  }

  /** The three row kinds decide expiry identically for the same expiry. */
  lemma RowKindsAgree(up: UserPermission, fp: FilePermission, ur: UserRole, now: Time)
    requires up.expiresAt == fp.expiresAt == ur.expiresAt
    ensures up.IsExpired(now) == fp.IsExpired(now) == ur.IsExpired(now)
  {
  }

  /** "ExpiresAt before now" for grants is the recycle bin's "now after
      ExpiresAt". */
  lemma GrantAndRecycleExpiryAgree(up: UserPermission, ri: Recycle.RecycleItem, now: Time)
    requires up.expiresAt == ri.ExpiresAt
    ensures up.IsExpired(now) == ri.IsExpired(now)
  {
  }
}
