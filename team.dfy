/** The team entities of internal/model/team.go: a team with its storage
    limit, and one user's membership in a team with its role. */
module Teams {
  import opened GoTypes

  const TeamStatusActive := "active"

  const RoleOwner := "owner"
  const RoleAdmin := "admin"
  const RoleMember := "member"
  const RoleViewer := "viewer"

  const MemberStatusActive := "active"
  const MemberStatusInvited := "invited"
  const MemberStatusInactive := "inactive"
  const MemberStatusLeft := "left"

  class Team {
    var Name: string
    var Status: string
    var StorageUsed: Int64
    var StorageLimit: Int64
    var MaxMembers: Int64
    var MemberCount: Int64

    predicate Defaulted()
      reads this
    {
      Status != "" && MaxMembers != 0 && StorageLimit != 0
    }

    /** The create hook: 50 members and 50 GiB (not the column defaults of
        100 members and 10 GiB, which this hook overrides). */
    method BeforeCreate()
      modifies this
      ensures Status == if old(Status) == "" then TeamStatusActive else old(Status)
      ensures MaxMembers == if old(MaxMembers) == 0 then 50 else old(MaxMembers)
      ensures StorageLimit == if old(StorageLimit) == 0 then 53687091200 else old(StorageLimit)
      ensures Name == old(Name) && StorageUsed == old(StorageUsed) && MemberCount == old(MemberCount)
      ensures old(Status) == "" ==> IsActive()
      ensures Defaulted()
      ensures old(Defaulted()) ==> unchanged(this)
    {
      if Status == "" {
        Status := TeamStatusActive;
      }
      if MaxMembers == 0 {
        MaxMembers := 50;
      }
      if StorageLimit == 0 {
        StorageLimit := 53687091200;
      }
    }

    predicate IsActive() reads this { Status == TeamStatusActive }
    predicate IsStorageExceeded() reads this { StorageUsed >= StorageLimit }

    /** `StorageLimit - StorageUsed` in int64 arithmetic. */
    function GetAvailableStorage(): (r: Int64)
      reads this
      ensures 0 <= StorageLimit && 0 <= StorageUsed ==> r + StorageUsed == StorageLimit
      ensures 0 <= StorageLimit && 0 <= StorageUsed ==> (r > 0 <==> !IsStorageExceeded())
    {
      Wrap64(StorageLimit - StorageUsed)
    }
  }

  class TeamMember {
    var Role: string
    var Status: string
    var Nickname: string

    predicate Defaulted()
      reads this
    {
      Role != "" && Status != ""
    }

    /** The create hook: an empty role becomes `member`, an empty status
        `active`. */
    method BeforeCreate()
      modifies this
      ensures Role == if old(Role) == "" then RoleMember else old(Role)
      ensures Status == if old(Status) == "" then MemberStatusActive else old(Status)
      ensures Nickname == old(Nickname)
      ensures old(Role) == "" ==> !IsAdmin()
      ensures Defaulted()
      ensures old(Defaulted()) ==> unchanged(this)
    {
      if Role == "" {
        Role := RoleMember;
      }
      if Status == "" {
        Status := MemberStatusActive;
      }
    }

    predicate IsOwner() reads this { Role == RoleOwner }
    predicate IsAdmin() reads this { Role == RoleAdmin || Role == RoleOwner }
    predicate IsActive() reads this { Status == MemberStatusActive }

    predicate CanManageTeam()
      reads this
    {
      IsActive() && (Role == RoleOwner || Role == RoleAdmin)
    }
  }

  /** Team quota boundary: equality is already exceeded. */
  lemma TeamStorageExceededAtLimit(t: Team)
    ensures t.StorageUsed == t.StorageLimit ==> t.IsStorageExceeded()
    ensures t.StorageUsed < t.StorageLimit ==> !t.IsStorageExceeded()
  {
  }

  /** Every owner is an admin; members and viewers are not. */
  lemma RoleHierarchy(tm: TeamMember)
    ensures tm.IsOwner() ==> tm.IsAdmin()
    ensures tm.Role == RoleMember || tm.Role == RoleViewer ==> !tm.IsAdmin()
  {
  }

  /** Managing a team takes an active admin-level member; an owner who is
      invited, inactive or has left cannot manage it. */
  lemma ManageIsActiveAdmin(tm: TeamMember)
    ensures tm.CanManageTeam() <==> tm.IsActive() && tm.IsAdmin()
    ensures tm.IsOwner() && tm.Status in {MemberStatusInvited, MemberStatusInactive, MemberStatusLeft} ==> !tm.CanManageTeam()
  {
  }
}
