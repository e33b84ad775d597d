/** The configuration entities of internal/model/config.go: a key/value
    system setting (SystemConfig) and a storage back-end (StorageConfig). */
module StorageConfigs {
  import opened GoTypes

  const StatusActive := "active"
  const ProviderLocal := "local"

  class SystemConfig {
    var Key: string
    var Value: string
    var DataType: string
    var Status: string

    predicate Defaulted()
      reads this
    {
      Status != "" && DataType != ""
    }

    /** The create hook: an empty status becomes `active`, an empty data
        type `string`. */
    method BeforeCreate()
      modifies this
      ensures Status == if old(Status) == "" then StatusActive else old(Status)
      ensures DataType == if old(DataType) == "" then "string" else old(DataType)
      ensures Key == old(Key) && Value == old(Value)
      ensures old(Status) == "" ==> IsActive()
      ensures Defaulted()
      ensures old(Defaulted()) ==> unchanged(this)
    {
      if Status == "" {
        Status := StatusActive;
      }
      if DataType == "" {
        DataType := "string";
      }
    }

    predicate IsActive() reads this { Status == StatusActive }
  }

  class StorageConfig {
    var Provider: string
    var Status: string
    var BasePath: string
    var EnabledFlag: bool
    var MaxFileSize: Int64
    var UsedSize: Int64
    /** 0 means unlimited. */
    var QuotaSize: Int64
    var ChunkSize: Int64
    var SignatureExpiry: Int64
    var CacheExpiry: Int64
    var MonitorInterval: Int64

    predicate Defaulted()
      reads this
    {
      Status != "" && BasePath != "" && MaxFileSize != 0 && ChunkSize != 0
      && SignatureExpiry != 0 && CacheExpiry != 0 && MonitorInterval != 0
    }

    /** The create hook: seven zero or empty settings get their defaults
        (100 MiB files, 5 MiB chunks, one-hour signatures, one-day cache,
        five-minute monitoring); provider, quota, usage and the enabled flag
        are kept. */
    method BeforeCreate()
      modifies this
      ensures Status == if old(Status) == "" then StatusActive else old(Status)
      ensures BasePath == if old(BasePath) == "" then "/" else old(BasePath)
      ensures MaxFileSize == if old(MaxFileSize) == 0 then 104857600 else old(MaxFileSize)
      ensures ChunkSize == if old(ChunkSize) == 0 then 5242880 else old(ChunkSize)
      ensures SignatureExpiry == if old(SignatureExpiry) == 0 then 3600 else old(SignatureExpiry)
      ensures CacheExpiry == if old(CacheExpiry) == 0 then 86400 else old(CacheExpiry)
      ensures MonitorInterval == if old(MonitorInterval) == 0 then 300 else old(MonitorInterval)
      ensures Provider == old(Provider) && EnabledFlag == old(EnabledFlag)
      ensures UsedSize == old(UsedSize) && QuotaSize == old(QuotaSize)
      ensures Defaulted()
      ensures old(Defaulted()) ==> unchanged(this)
    {
      Status := if Status == "" then StatusActive else Status;
      BasePath := if BasePath == "" then "/" else BasePath;
      MaxFileSize := if MaxFileSize == 0 then 104857600 else MaxFileSize;
      ChunkSize := if ChunkSize == 0 then 5242880 else ChunkSize;
      SignatureExpiry := if SignatureExpiry == 0 then 3600 else SignatureExpiry;
      CacheExpiry := if CacheExpiry == 0 then 86400 else CacheExpiry;
      MonitorInterval := if MonitorInterval == 0 then 300 else MonitorInterval;
    }

    predicate IsActive() reads this { Status == StatusActive }
    predicate IsEnabled() reads this { EnabledFlag }
    predicate IsLocal() reads this { Provider == ProviderLocal }
    predicate IsCloudStorage() reads this { Provider != ProviderLocal }

    /** Exceeded only under a real (positive) quota that usage has reached. */
    function IsQuotaExceeded(): (r: bool)
      reads this
      ensures QuotaSize == 0 ==> !r
      ensures r ==> UsedSize >= QuotaSize
      ensures QuotaSize > 0 && UsedSize == QuotaSize ==> r
    {
      QuotaSize > 0 && UsedSize >= QuotaSize
    }

    /** Whether a file of `fileSize` bytes may be uploaded, with the quota
        sum taken exactly. */
    function CanUpload(fileSize: Int64): (r: bool)
      reads this
      ensures r ==> IsEnabled() && IsActive()
      ensures r ==> fileSize <= MaxFileSize
      ensures r && QuotaSize > 0 ==> UsedSize + fileSize <= QuotaSize
    {
      if !IsEnabled() || !IsActive() then false
      else if fileSize > MaxFileSize then false
      else if QuotaSize > 0 && UsedSize + fileSize > QuotaSize then false
      else true
    }

    /** The same check with the quota sum computed in `int64`, as the
        source writes it: `UsedSize+fileSize` wraps around past 2^63-1. */
    function CanUploadAsWritten(fileSize: Int64): (r: bool)
      reads this
      ensures r ==> IsEnabled() && IsActive() && fileSize <= MaxFileSize
    {
      if !IsEnabled() || !IsActive() then false
      else if fileSize > MaxFileSize then false
      else if QuotaSize > 0 && Wrap64(UsedSize + fileSize) > QuotaSize then false
      else true
    }
  }

  /** A disabled or non-active back-end accepts no upload of any size. */
  lemma UploadNeedsEnabledActive(sc: StorageConfig, fileSize: Int64)
    requires !sc.IsEnabled() || !sc.IsActive()
    ensures !sc.CanUpload(fileSize)
  {
  }

  /** Upload permission is exactly the three guards, and it is downward
      closed: a smaller non-negative file is accepted whenever a larger one
      is. */
  lemma CanUploadExactly(sc: StorageConfig, fileSize: Int64)
    ensures sc.CanUpload(fileSize) <==>
      sc.EnabledFlag && sc.Status == StatusActive && fileSize <= sc.MaxFileSize
      && (sc.QuotaSize <= 0 || sc.UsedSize + fileSize <= sc.QuotaSize)
  {
  }

  lemma CanUploadMonotone(sc: StorageConfig, smaller: Int64, larger: Int64)
    requires 0 <= smaller <= larger
    requires sc.CanUpload(larger)
    ensures sc.CanUpload(smaller)
  {
  }

  /** Without a quota, only the enabled, active and file-size guards apply. */
  lemma UnlimitedQuota(sc: StorageConfig, fileSize: Int64)
    requires sc.QuotaSize == 0
    ensures !sc.IsQuotaExceeded()
    ensures sc.CanUpload(fileSize) <==> sc.IsEnabled() && sc.IsActive() && fileSize <= sc.MaxFileSize
  {
  }

  lemma LocalIsNotCloud(sc: StorageConfig)
    ensures sc.IsLocal() != sc.IsCloudStorage()
  {
  }

  /** The int64 check agrees with the exact one whenever the sum fits. */
  lemma AsWrittenAgreesWithoutOverflow(sc: StorageConfig, fileSize: Int64)
    requires MinInt64 <= sc.UsedSize + fileSize <= MaxInt64
    ensures sc.CanUploadAsWritten(fileSize) == sc.CanUpload(fileSize)
  {
  }

  /** With usage at 2^62 bytes of an (almost) 2^63-byte quota, a 2^62-byte
      file overflows the sum to -2^63, so the source lets it through
      although it would exceed the quota. */
  lemma AsWrittenOverflowAdmitsOverQuota(sc: StorageConfig)
    requires sc.EnabledFlag && sc.Status == StatusActive
    requires sc.MaxFileSize == MaxInt64 && sc.QuotaSize == MaxInt64
    requires sc.UsedSize == 0x4000_0000_0000_0000
    ensures sc.UsedSize + 0x4000_0000_0000_0000 > sc.QuotaSize
    ensures sc.CanUploadAsWritten(0x4000_0000_0000_0000)
    ensures !sc.CanUpload(0x4000_0000_0000_0000)
  {
  }
}
