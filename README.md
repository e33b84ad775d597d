# ycg_cloud entity rules in Dafny

This project models the behaviour that the ycg_cloud file-storage backend
attaches to its GORM entities, and proves properties of it. The backend's
entities are users, teams and team members, files, recycle-bin items and
bins, storage back-ends, system settings, permission rows, conversations
and messages, and three kinds of log. Their behaviour is of three kinds:

- **create hooks** (`BeforeCreate`). These fill zero or empty fields with
  fixed defaults just before a row is inserted. Each hook is a method on a
  class that owns the fields it writes. Its contract gives the complete new
  state. It also proves idempotence: after the hook `Defaulted()` holds,
  and a second call on a `Defaulted()` object changes nothing.
- **predicates** on an entity: quota and capacity tests, time windows,
  roles, statuses and log classification. Each is a function that reads
  the object. A lemma states its boundaries, exclusivity, implications and
  monotonicity in time.
- **config validation** and the environment queries in
  `internal/utils/config.go`, plus the `joinColumns` loop of the
  migration code.

Modelling choices:

- An instant is an integer number of seconds (`GoTypes.Time`).
  `time.Now()` and `time.Since` become an explicit `now` parameter.
  `a.After(b)` is `a > b` and `a.Before(b)` is `a < b`.
  `AddDate(0, 0, d)` adds `d * 86400`.
- Go's `int` and `int64` fields have the type `GoTypes.Int64`. Where the
  source adds or subtracts them, the model wraps the result with `Wrap64`.
- Go fields that may be nil (`*time.Time`, `*uint`) and the nil-able global configuration are
  `Option` values.
- Typed string enumerations stay strings. A hook can then test for `""`,
  and a predicate can see values outside the enumeration, as in Go.
- Entities that the source updates in place are classes. Rows that are
  only read (permission rows, conversation members, the application
  configuration) are datatypes.

The predicates without a contract of their own are covered by the lemmas
listed below, for example `IsDeleted`, `IsExpired`, `IsLocked`,
`IsShared`, `CanRecall` and `CanManageTeam`.

## Model

| member | source | states |
|---|---|---|
| `GoTypes.Wrap64` | internal/model/config.go:308 | int64 wrap-around: identity inside the int64 range, congruent mod 2^64 to the exact value, and one wrap of 2^64 just above the range |
| `GoTypes.AddDays` | internal/model/recycle.go:160 | adding a non-negative number of days never moves an instant earlier, and adding a non-positive number never moves it later |
| `Recycle.RecycleItem.BeforeCreate` | internal/model/recycle.go:150-164 | empty status becomes `deleted` and retention 0 becomes 30. A missing expiry becomes now plus the already-defaulted retention, so now + 30 days when the retention was 0. An existing expiry is kept. The type is unchanged and the hook is idempotent |
| `Recycle.RecycleItem.CanRestore` | internal/model/recycle.go:205-207 | a restorable item is neither restored nor permanently deleted, and `now` is not past its expiry |
| `Recycle.RecycleItem.GetNotifyDate` | internal/model/recycle.go:251-257 | nil exactly when there is no expiry. Otherwise the notify date plus `notifyDays` days is the expiry, so it is at or before the expiry for `notifyDays >= 0` |
| `Recycle.RecycleBin.BeforeCreate` | internal/model/recycle.go:167-182 | only zero values are replaced: retention 30, 1073741824 bytes, 1000 items, 7 notify days. Flags and current counters are unchanged, and the hook is idempotent |
| `Recycle.ExpiryIsMonotone` | internal/model/recycle.go:199-202 | no expiry means never expired. At the expiry instant the item is not yet expired. Once expired it stays expired for every later `now` |
| `Recycle.CanRestoreExactly` | internal/model/recycle.go:205-207 | restorable iff status is `deleted` and `now` is at or before the expiry. Restored, permanent and expired items are never restorable |
| `Recycle.RestoreWindowCloses` | internal/model/recycle.go:200-207 | once expired, an item is unrestorable at every later instant |
| `Recycle.ItemPredicatesExclusive` | internal/model/recycle.go:185-217 | at most one of IsDeleted, IsRestored and IsPermanentDeleted holds, and IsFile and IsFolder never both hold |
| `Recycle.BinFullAtCapacity` | internal/model/recycle.go:220-227 | reaching the size or item limit exactly counts as full; staying below it does not |
| `StorageConfigs.SystemConfig.BeforeCreate` | internal/model/config.go:204-213 | empty status becomes `active` and empty data type becomes `string`. Key and value are unchanged, the setting is then active if it had no status, and the hook is idempotent |
| `StorageConfigs.StorageConfig.BeforeCreate` | internal/model/config.go:216-240 | the seven defaults (active, "/", 104857600, 5242880, 3600, 86400, 300) replace only zero or empty values. Provider, flag, usage and quota are unchanged, and the hook is idempotent |
| `StorageConfigs.StorageConfig.IsQuotaExceeded` | internal/model/config.go:295-298 | quota 0 (unlimited) is never exceeded, exceeded implies usage reached the quota, and usage equal to a positive quota is exceeded |
| `StorageConfigs.StorageConfig.CanUpload` | internal/model/config.go:300-312 | a permitted upload implies the back-end is enabled and active, the file is within the size limit, and under a positive quota usage plus the file fits the quota |
| `StorageConfigs.CanUploadExactly` | internal/model/config.go:301-311 | permitted iff enabled, active, within the size limit, and the quota is 0 or not overrun |
| `StorageConfigs.UploadNeedsEnabledActive` | internal/model/config.go:302-304 | a disabled or non-active back-end refuses every file size |
| `StorageConfigs.CanUploadMonotone` | internal/model/config.go:301-312 | if a file of size n may be uploaded, so may any size m with 0 <= m <= n |
| `StorageConfigs.UnlimitedQuota` | internal/model/config.go:115 | with quota 0 the quota is never exceeded and only the enabled, active and size guards decide |
| `StorageConfigs.LocalIsNotCloud` | internal/model/config.go:278-285 | IsLocal and IsCloudStorage are complements for every provider |
| `StorageConfigs.StorageConfig.CanUploadAsWritten` | internal/model/config.go:308 | the source's check with int64 addition still requires enabled, active and the size limit |
| `StorageConfigs.AsWrittenAgreesWithoutOverflow` | internal/model/config.go:308 | when usage plus file size fits in int64, the as-written and exact checks agree |
| `StorageConfigs.AsWrittenOverflowAdmitsOverQuota` | internal/model/config.go:308 | a concrete configuration where the int64 sum wraps: the source admits a file that overruns the quota and the exact check refuses it |
| `Users.User.BeforeCreate` | internal/model/user.go:77-89 | empty type becomes `normal`, empty status becomes `active` and quota 0 becomes 5368709120. Other fields are unchanged. A user created without type and status is active and not admin, and the hook is idempotent |
| `Users.User.GetAvailableStorage` | internal/model/user.go:106-109 | for non-negative quota and usage the result is quota minus usage, and it is positive iff storage is not exceeded |
| `Users.StorageExceededAtQuota` | internal/model/user.go:101-104 | usage equal to the quota is exceeded; usage below it is not |
| `Users.LockExpires` | internal/model/user.go:111-114 | no lock end means never locked. A user is not locked at the lock's own end instant, and once unlocked stays unlocked later |
| `Users.AdminIsNotNormal` | internal/model/user.go:92-99 | an admin is not a `normal` user |
| `Teams.Team.BeforeCreate` | internal/model/team.go:178-190 | empty status becomes `active`, member limit 0 becomes 50 and storage limit 0 becomes 53687091200. The hook values override the column defaults. Other fields are unchanged, and the hook is idempotent |
| `Teams.Team.GetAvailableStorage` | internal/model/team.go:209-217 | for non-negative limit and usage the result is limit minus usage, and it is positive iff the team is not exceeded |
| `Teams.TeamStorageExceededAtLimit` | internal/model/team.go:210-212 | usage equal to the limit is exceeded; usage below it is not |
| `Teams.TeamMember.BeforeCreate` | internal/model/team.go:193-202 | empty role becomes `member` and empty status becomes `active`, nothing else. A defaulted role is not admin, and the hook is idempotent |
| `Teams.RoleHierarchy` | internal/model/team.go:219-227 | owner implies admin; `member` and `viewer` are never admin |
| `Teams.ManageIsActiveAdmin` | internal/model/team.go:229-237 | CanManageTeam iff active and admin; an invited, inactive or departed owner cannot manage |
| `Permissions.GrantExpiryRule` | internal/model/permission.go:202-204 | never expired without an expiry. Not expired at the expiry instant, expired one second later, and once expired expired at every later `now` |
| `Permissions.RowKindsAgree` | internal/model/permission.go:202-214 | user permissions, file permissions and user roles with equal expiry agree on expiry at every instant |
| `Permissions.GrantAndRecycleExpiryAgree` | internal/model/permission.go:202-204 | the grant rule "expiry before now" equals the recycle rule "now after expiry" |
| `Files.File.BeforeCreate` | internal/model/file.go:106-118 | empty status becomes `normal`, empty storage type becomes `local` and version 0 becomes 1. Other fields are unchanged. A file created without status is not deleted, and the hook is idempotent |
| `Files.File.GetFullPath` | internal/model/file.go:140-146 | the result always ends with the name. At the root it is the name alone; otherwise it is the path, a `/`, then the name |
| `Files.ShareStatesExclusive` | internal/model/file.go:130-138 | shared and share-expired never both hold. Neither holds at the expiry instant, and a file without a token is never shared |
| `Files.ShareExpiryMonotone` | internal/model/file.go:131-138 | a lapsed share stays lapsed and unshared at every later instant |
| `Files.PreviewNeedsNormalStatus` | internal/model/file.go:148-151 | previewable iff the preview flag is set and the status is `normal`; a deleted file never is |
| `Files.FolderTagMatchesRecycle` | internal/model/file.go:121-123 | a file and a recycle item with the same type tag agree on being a folder |
| `Messages.Conversation.BeforeCreate` | internal/model/message.go:221-230 | empty status becomes `active` and member limit 0 becomes 100, nothing else. The hook is idempotent |
| `Messages.Message.BeforeCreate` | internal/model/message.go:233-239 | empty status becomes `sent`, nothing else. A message with a status is left unchanged |
| `Messages.ConversationKindsExclusive` | internal/model/message.go:246-259 | at most one of private, group and team conversation holds |
| `Messages.ManageIsAdmin` | internal/model/message.go:261-269 | CanManageConversation always equals IsAdmin |
| `Messages.RecallWindowRule` | internal/model/message.go:286-294 | a recallable message is not recalled. The window includes 120 s after sending and excludes 121 s, and once closed stays closed |
| `Logs.OperationLog.BeforeCreate` | internal/model/log.go:267-276 | empty level becomes `info` and empty status becomes `success`. A log created without a status is a success, a defaulted level is not an error, and the hook is idempotent |
| `Logs.SystemLog.BeforeCreate` | internal/model/log.go:279-285 | only an empty level is filled, with `info`, which is neither error nor warning |
| `Logs.SecurityLog.BeforeCreate` | internal/model/log.go:288-297 | empty severity becomes `warn` and empty status becomes `detected`. A log created without a severity is not critical |
| `Logs.ErrorLevelsAgree` | internal/model/log.go:304-332 | both log kinds treat exactly `error` and `fatal` as errors, and a system log is never both error and warning |
| `Logs.ThreatClassification` | internal/model/log.go:344-352 | high threat only for `high` or `critical`. A security log is critical iff its severity is `error` or `fatal` |
| `Logs.OperationKindsExclusive` | internal/model/log.go:309-322 | at most one of user, system and security operation holds |
| `AppConfig.FirstFailure` | internal/utils/config.go:141-152 | running ordered checks passes iff none fails. A failure reports the error of a failing check with no failing check before it |
| `AppConfig.FirstFailureSplit` | internal/utils/config.go:141-152 | running two check lists one after the other runs the second only when the first passes |
| `AppConfig.BasicConfigIsFirstFailure` | internal/utils/config.go:155-175 | the basic guard chain equals the first failure among its six checks, in source order |
| `AppConfig.ValidateBasicConfig` | internal/utils/config.go:155-175 | passes iff the app name is non-empty, the port is in 1..65535, the database host, user and name are non-empty, and the JWT secret is non-empty |
| `AppConfig.EarlierCheckWins` | internal/utils/config.go:159-164 | with a bad port and an empty database host, the port error is reported, by both the basic and the full validation |
| `AppConfig.Contains` | internal/utils/config.go:180-184 | the scan with early return finds a name iff it is in the list |
| `AppConfig.ValidateEnvType` | internal/utils/config.go:178-186 | accepts exactly `development`, `testing` and `production`, and otherwise reports the rejected value |
| `AppConfig.ValidateLogLevel` | internal/utils/config.go:189-197 | accepts exactly `debug`, `info`, `warn`, `error`, `fatal` and `panic`, and otherwise reports the rejected value |
| `AppConfig.ValidateConfig` | internal/utils/config.go:141-152 | the result is the first failure among basic, environment and log-level checks. It passes iff all three pass |
| `AppConfig.PanicLevelOutsideEnum` | internal/utils/config.go:190 | `panic` passes validation but is not a LogLevel value. Every LogLevel value passes, and the empty string is neither a valid environment nor a valid level |
| `AppConfig.EnvironmentQueries` | internal/utils/config.go:253-266 | without a configuration it is development and not production. The two never both hold, and production means `App.Env` is `production` |
| `Migrate.JoinEmptyAndSingle` | internal/model/migrate.go:113-122 | no columns give "", and one column gives itself |
| `Migrate.JoinSnoc` | internal/model/migrate.go:115-120 | appending a column to a non-empty list appends ", " and the column |
| `Migrate.JoinLength` | internal/model/migrate.go:113-122 | for n >= 1 columns the length is the sum of the column lengths plus 2(n-1) |
| `Migrate.JoinColumns` | internal/model/migrate.go:113-122 | the loop builds exactly the front-defined ", " join of the columns |

## Findings

| source | as written | input that shows it | evidently intended | confidence | as-written member | corrected member |
|---|---|---|---|---|---|---|
| internal/model/config.go:308 | `stc.UsedSize+fileSize` is computed in int64 and wraps past 2^63-1 | enabled, active; MaxFileSize = QuotaSize = 2^63-1; UsedSize = 2^62; fileSize = 2^62: the sum wraps to -2^63, so the upload is allowed although it overruns the quota | refuse any upload whose exact size sum exceeds a positive quota | medium, not executed (needs a size limit configured at 2^62 bytes or more) | `StorageConfigs.StorageConfig.CanUploadAsWritten` with `StorageConfigs.AsWrittenOverflowAdmitsOverQuota` | `StorageConfigs.StorageConfig.CanUpload` |

## Left out

- Persistence: GORM and JSON tags, foreign keys and cascades, `TableName`, `AutoMigrate`, `CreateIndexes`, `DropAllTables` and `ValidateModels` are database metadata or database calls.
- Struct fields that no modelled rule reads or writes: only the fields a hook or predicate touches are class fields.
- `GetUsagePercent`, `GetStorageUsagePercent` and `GetItemUsagePercent` compute floating-point percentages.
- One-field flag accessors: `IsSecret`, `IsReadonly`, `IsSystemConfig`, `IsDefault`, `ShouldNotifyBeforeDelete`, `IsBlocked`, `IsResolved`, `IsImportant`, `IsAudited`, `IsTextMessage`, `IsFileMessage` and `IsSystemMessage` each return a field or compare one constant, and no rule depends on them.
- Loading configuration: `InitConfig`, `loadEnvFile`, `bindEnvVars` and the `GetConfig*`/`SetConfig` lookups read files, the environment or viper.
- `GetDSN`, `GetRedisAddr` and `GetLogDir` only format strings or split paths over the global configuration.
- `main.go` and the `cmd/` programs are an HTTP server and connectivity programs.
- The wall clock: `time.Now()` and `time.Since` are the `now` parameter. Time has one-second resolution, and `AddDate` is whole days of 86400 seconds, without calendar or daylight-saving effects.
- Overflow of `time.Time` arithmetic is not modelled. Nor is the wrap of `-notifyDays` at the smallest int64 value in `GetNotifyDate`.
- Users.User.GetAvailableStorage: its link to IsStorageExceeded is proved only for non-negative quota and usage, where int64 subtraction cannot wrap. The result itself is modelled with the wrap.
- Teams.Team.GetAvailableStorage: its link to IsStorageExceeded is proved only for non-negative limit and usage, for the same reason.
- The error texts of the validators are not modelled; each failing check is one `ConfigError` value, and a rejected environment or level carries the rejected string.
