/** The file/folder entity of internal/model/file.go: its create-time
    defaults, its sharing window, its full path and its preview rule. */
module Files {
  import opened Wrappers
  import opened GoTypes
  import Recycle

  const StatusNormal := "normal"
  const StatusDeleted := "deleted"
  const StorageLocal := "local"
  const TypeFolder := "folder"

  class File {
    var Name: string
    var Path: string
    var FileType: string
    var Status: string
    var StorageType: string
    var Version: Int64
    var ShareToken: string
    var ShareExpiry: Option<Time>
    var CanPreview: bool

    predicate Defaulted()
      reads this
    {
      Status != "" && StorageType != "" && Version != 0
    }

    /** The create hook: an empty status becomes `normal`, an empty storage
        type `local`, version 0 becomes 1. */
    method BeforeCreate()
      modifies this
      ensures Status == if old(Status) == "" then StatusNormal else old(Status)
      ensures StorageType == if old(StorageType) == "" then StorageLocal else old(StorageType)
      ensures Version == if old(Version) == 0 then 1 else old(Version)
      ensures Name == old(Name) && Path == old(Path) && FileType == old(FileType)
      ensures ShareToken == old(ShareToken) && ShareExpiry == old(ShareExpiry) && CanPreview == old(CanPreview)
      ensures old(Status) == "" ==> !IsDeleted() && (CanPreview ==> CanPreviewFile())
      ensures Defaulted()
      ensures old(Defaulted()) ==> unchanged(this)
    {
      if Status == "" {
        Status := StatusNormal;
      }
      if StorageType == "" {
        StorageType := StorageLocal;
      }
      if Version == 0 {
        Version := 1;
      }
    }

    predicate IsFolder() reads this { FileType == TypeFolder }
    predicate IsDeleted() reads this { Status == StatusDeleted }

    /** Shared while it has a token and its share window, if any, has not
        ended. */
    predicate IsShared(now: Time)
      reads this
    {
      ShareToken != "" && (ShareExpiry.None? || ShareExpiry.value > now)
    }

    predicate IsShareExpired(now: Time)
      reads this
    {
      ShareExpiry.Some? && ShareExpiry.value < now
    }

    /** The path joined to the name with `/`, or the bare name at the root. */
    function GetFullPath(): (r: string)
      reads this
      ensures |r| >= |Name| && r[|r| - |Name|..] == Name
      ensures Path == "" ==> |r| == |Name|
      ensures Path != "" ==> |r| == |Path| + 1 + |Name| && r[..|Path|] == Path && r[|Path|] == '/'
    {
      if Path == "" then Name else Path + "/" + Name
    }

    predicate CanPreviewFile()
      reads this
    {
      CanPreview && !IsDeleted() && Status == StatusNormal
    }
  }

  /** A share is never both live and expired; at the expiry instant itself
      it is neither; a tokenless file is never shared. */
  lemma ShareStatesExclusive(f: File, now: Time)
    ensures !(f.IsShared(now) && f.IsShareExpired(now))
    ensures f.ShareExpiry.Some? ==> !f.IsShared(f.ShareExpiry.value) && !f.IsShareExpired(f.ShareExpiry.value)
    ensures f.ShareToken == "" ==> !f.IsShared(now)
  {
  }

  /** A share that has lapsed stays lapsed. */
  lemma ShareExpiryMonotone(f: File, now: Time, later: Time)
    requires now <= later
    ensures f.IsShareExpired(now) ==> f.IsShareExpired(later) && !f.IsShared(later)
  {
  }

  /** The deleted test in the preview rule is implied by the status test:
      previewable iff flagged and `normal`; deleted files never are. */
  lemma PreviewNeedsNormalStatus(f: File)
    ensures f.CanPreviewFile() <==> f.CanPreview && f.Status == StatusNormal
    ensures f.IsDeleted() ==> !f.CanPreviewFile()
  {
  }

  /** A file and its recycle-bin entry use the same `folder` tag, so they
      agree on being a folder. */
  lemma FolderTagMatchesRecycle(f: File, ri: Recycle.RecycleItem)
    requires f.FileType == ri.Type
    ensures f.IsFolder() == ri.IsFolder()
    ensures f.IsFolder() ==> !ri.IsFile()
  {
  }
}
