/** The recycle-bin entities of internal/model/recycle.go: one deleted file
    or folder (RecycleItem) and a user's bin settings (RecycleBin). */
module Recycle {
  import opened Wrappers
  import opened GoTypes

  const StatusDeleted := "deleted"
  const StatusRestored := "restored"
  const StatusPermanent := "permanent"

  const TypeFile := "file"
  const TypeFolder := "folder"

  /** Retention used when an item or a bin is created without one. */
  const DefaultAutoDeleteDays := 30

  class RecycleItem {
    var Status: string
    var Type: string
    var AutoDeleteDays: Int64
    var ExpiresAt: Option<Time>

    /** Every field the create hook fills is already filled. */
    predicate Defaulted()
      reads this
    {
      Status != "" && AutoDeleteDays != 0 && ExpiresAt.Some?
    }

    /** The create hook. The expiry is computed from the retention AFTER
        the retention has been defaulted, and an expiry set by the caller
        is kept. */
    method BeforeCreate(now: Time)
      modifies this
      ensures Status == if old(Status) == "" then StatusDeleted else old(Status)
      ensures AutoDeleteDays == if old(AutoDeleteDays) == 0 then DefaultAutoDeleteDays else old(AutoDeleteDays)
      ensures ExpiresAt == if old(ExpiresAt).None? then Some(AddDays(now, AutoDeleteDays)) else old(ExpiresAt)
      ensures Type == old(Type)
      ensures old(ExpiresAt).None? && old(AutoDeleteDays) == 0 ==> ExpiresAt == Some(now + 30 * SecondsPerDay)
      ensures Defaulted()
      ensures old(Defaulted()) ==> unchanged(this)
    {
      if Status == "" {
        Status := StatusDeleted;
      }
      if AutoDeleteDays == 0 {
        AutoDeleteDays := DefaultAutoDeleteDays;
      }
      if ExpiresAt.None? {
        ExpiresAt := Some(AddDays(now, AutoDeleteDays));
      }
    }

    predicate IsDeleted() reads this { Status == StatusDeleted }
    predicate IsRestored() reads this { Status == StatusRestored }
    predicate IsPermanentDeleted() reads this { Status == StatusPermanent }

    /** Expired once `now` is strictly after the expiry; never without one. */
    predicate IsExpired(now: Time)
      reads this
    {
      ExpiresAt.Some? && now > ExpiresAt.value
    }

    function CanRestore(now: Time): (r: bool)
      reads this
      ensures r ==> !IsRestored() && !IsPermanentDeleted()
      ensures r ==> ExpiresAt.None? || now <= ExpiresAt.value
    {
      IsDeleted() && !IsExpired(now)
    }

    predicate IsFile() reads this { Type == TypeFile }
    predicate IsFolder() reads this { Type == TypeFolder }

    /** The instant `notifyDays` days before expiry. */
    function GetNotifyDate(notifyDays: int): (r: Option<Time>)
      reads this
      ensures r.None? <==> ExpiresAt.None?
      ensures r.Some? ==> AddDays(r.value, notifyDays) == ExpiresAt.value
      ensures r.Some? && notifyDays >= 0 ==> r.value <= ExpiresAt.value
    {
      if ExpiresAt.None? then None else Some(AddDays(ExpiresAt.value, -notifyDays))
    }
  }

  class RecycleBin {
    var IsEnabled: bool
    var AutoDeleteDays: Int64
    var MaxStorageSize: Int64
    var CurrentStorageSize: Int64
    var MaxItemCount: Int64
    var CurrentItemCount: Int64
    var NotifyBeforeDelete: bool
    var NotifyDays: Int64

    predicate Defaulted()
      reads this
    {
      AutoDeleteDays != 0 && MaxStorageSize != 0 && MaxItemCount != 0 && NotifyDays != 0
    }

    /** The create hook: 30 days, 1 GiB, 1000 items and 7 days' notice
        replace zero values; nothing else is touched. */
    method BeforeCreate()
      modifies this
      ensures AutoDeleteDays == if old(AutoDeleteDays) == 0 then 30 else old(AutoDeleteDays)
      ensures MaxStorageSize == if old(MaxStorageSize) == 0 then 1073741824 else old(MaxStorageSize)
      ensures MaxItemCount == if old(MaxItemCount) == 0 then 1000 else old(MaxItemCount)
      ensures NotifyDays == if old(NotifyDays) == 0 then 7 else old(NotifyDays)
      ensures IsEnabled == old(IsEnabled) && NotifyBeforeDelete == old(NotifyBeforeDelete)
      ensures CurrentStorageSize == old(CurrentStorageSize) && CurrentItemCount == old(CurrentItemCount)
      ensures Defaulted()
      ensures old(Defaulted()) ==> unchanged(this)
    {
      if AutoDeleteDays == 0 {
        AutoDeleteDays := DefaultAutoDeleteDays;
      }
      if MaxStorageSize == 0 {
        MaxStorageSize := 1073741824;
      }
      if MaxItemCount == 0 {
        MaxItemCount := 1000;
      }
      if NotifyDays == 0 {
        NotifyDays := 7;
      }
    }

    predicate IsStorageFull() reads this { CurrentStorageSize >= MaxStorageSize }
    predicate IsItemCountFull() reads this { CurrentItemCount >= MaxItemCount }
  }

  /** An item with an expiry stays expired at every later instant, and is
      not yet expired at the expiry instant itself. */
  lemma ExpiryIsMonotone(ri: RecycleItem, now: Time, later: Time)
    requires now <= later
    ensures ri.IsExpired(now) ==> ri.IsExpired(later)
    ensures ri.ExpiresAt.Some? ==> !ri.IsExpired(ri.ExpiresAt.value)
    ensures ri.ExpiresAt.None? ==> !ri.IsExpired(now)
  {
  }

  /** Restorable exactly when still in the `deleted` state and not expired;
      a restored, permanently deleted or expired item never is. */
  lemma CanRestoreExactly(ri: RecycleItem, now: Time)
    ensures ri.CanRestore(now) <==> ri.Status == StatusDeleted && (ri.ExpiresAt.None? || now <= ri.ExpiresAt.value)
    ensures ri.IsRestored() || ri.IsPermanentDeleted() || ri.IsExpired(now) ==> !ri.CanRestore(now)
  {
  }

  /** Once an item can no longer be restored because it expired, it stays
      unrestorable. */
  lemma RestoreWindowCloses(ri: RecycleItem, now: Time, later: Time)
    requires now <= later && ri.IsExpired(now)
    ensures !ri.CanRestore(later)
  {
  }

  /** The status and type predicates are mutually exclusive. */
  lemma ItemPredicatesExclusive(ri: RecycleItem)
    ensures !(ri.IsDeleted() && ri.IsRestored())
    ensures !(ri.IsDeleted() && ri.IsPermanentDeleted())
    ensures !(ri.IsRestored() && ri.IsPermanentDeleted())
    ensures !(ri.IsFile() && ri.IsFolder())
  {
  }

  /** A bin is full at exactly its capacity, and a full bin stays full
      while its contents grow. */
  lemma BinFullAtCapacity(rb: RecycleBin)
    ensures rb.CurrentStorageSize == rb.MaxStorageSize ==> rb.IsStorageFull()
    ensures rb.CurrentStorageSize < rb.MaxStorageSize ==> !rb.IsStorageFull()
    ensures rb.CurrentItemCount == rb.MaxItemCount ==> rb.IsItemCountFull()
    ensures rb.CurrentItemCount < rb.MaxItemCount ==> !rb.IsItemCountFull()
  {
  }
}
