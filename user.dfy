/** The account entity of internal/model/user.go: its create-time defaults,
    its role and status, its storage quota and its login lock. */
module Users {
  import opened Wrappers
  import opened GoTypes

  const TypeNormal := "normal"
  const TypeAdmin := "admin"
  const StatusActive := "active"

  /** 5 GiB. */
  const DefaultStorageQuota := 5368709120

  class User {
    var Username: string
    var UserType: string
    var Status: string
    var StorageQuota: Int64
    var UsedStorage: Int64
    var LockedUntil: Option<Time>

    predicate Defaulted()
      reads this
    {
      UserType != "" && Status != "" && StorageQuota != 0
    }

    /** The create hook. A user created with neither type nor status is an
        active non-admin. */
    method BeforeCreate()
      modifies this
      ensures UserType == if old(UserType) == "" then TypeNormal else old(UserType)
      ensures Status == if old(Status) == "" then StatusActive else old(Status)
      ensures StorageQuota == if old(StorageQuota) == 0 then DefaultStorageQuota else old(StorageQuota)
      ensures Username == old(Username) && UsedStorage == old(UsedStorage) && LockedUntil == old(LockedUntil)
      ensures old(Status) == "" ==> IsActive()
      ensures old(UserType) == "" ==> !IsAdmin()
      ensures Defaulted()
      ensures old(Defaulted()) ==> unchanged(this)
    {
      if UserType == "" {
        UserType := TypeNormal;
      }
      if Status == "" {
        Status := StatusActive;
      }
      if StorageQuota == 0 {
        StorageQuota := DefaultStorageQuota;
      }
    }

    predicate IsActive() reads this { Status == StatusActive }
    predicate IsAdmin() reads this { UserType == TypeAdmin }

    /** Usage that has reached the quota counts as exceeded. */
    predicate IsStorageExceeded() reads this { UsedStorage >= StorageQuota }

    /** `StorageQuota - UsedStorage` in int64 arithmetic. */
    function GetAvailableStorage(): (r: Int64)
      reads this
      ensures 0 <= StorageQuota && 0 <= UsedStorage ==> r + UsedStorage == StorageQuota
      ensures 0 <= StorageQuota && 0 <= UsedStorage ==> (r > 0 <==> !IsStorageExceeded())
    {
      Wrap64(StorageQuota - UsedStorage)
    }

    /** Locked while the lock's end lies strictly in the future. */
    predicate IsLocked(now: Time)
      reads this
    {
      LockedUntil.Some? && LockedUntil.value > now
    }
  }

  /** The quota test and its boundary: equality is already exceeded. */
  lemma StorageExceededAtQuota(u: User)
    ensures u.UsedStorage == u.StorageQuota ==> u.IsStorageExceeded()
    ensures u.UsedStorage < u.StorageQuota ==> !u.IsStorageExceeded()
  {
  }

  /** No lock end, no lock; a lock ends at its own instant and stays ended. */
  lemma LockExpires(u: User, now: Time, later: Time)
    requires now <= later
    ensures u.LockedUntil.None? ==> !u.IsLocked(now)
    ensures u.LockedUntil.Some? ==> !u.IsLocked(u.LockedUntil.value)
    ensures !u.IsLocked(now) ==> !u.IsLocked(later)
  {
  }

  lemma AdminIsNotNormal(u: User)
    ensures u.IsAdmin() ==> u.UserType != TypeNormal
  {
  }
}
