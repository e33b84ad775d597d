/** The audit entities of internal/model/log.go: operation, system and
    security logs, their create-time defaults and their classifications. */
module Logs {

  const LevelDebug := "debug"
  const LevelInfo := "info"
  const LevelWarn := "warn"
  const LevelError := "error"
  const LevelFatal := "fatal"

  /** The values of the `LogLevel` enumeration. */
  const LogLevels: seq<string> := [LevelDebug, LevelInfo, LevelWarn, LevelError, LevelFatal]

  const TypeUser := "user"
  const TypeSystem := "system"
  const TypeSecurity := "security"

  /** A level of `error` or `fatal`. */
  predicate IsErrorLevel(level: string)
  {
    level == LevelError || level == LevelFatal
  }

  class OperationLog {
    var Type: string
    var Level: string
    var Action: string
    var Status: string

    /** The create hook: an empty level becomes `info`, an empty status
        `success`; a log created without a status therefore counts as a
        success. */
    method BeforeCreate()
      modifies this
      ensures Level == if old(Level) == "" then LevelInfo else old(Level)
      ensures Status == if old(Status) == "" then "success" else old(Status)
      ensures Type == old(Type) && Action == old(Action)
      ensures old(Status) == "" ==> IsSuccess()
      ensures old(Level) == "" ==> !IsError()
      ensures Level != "" && Status != ""
      ensures old(Level) != "" && old(Status) != "" ==> unchanged(this)
    {
      if Level == "" {
        Level := LevelInfo;
      }
      if Status == "" {
        Status := "success";
      }
    }

    predicate IsSuccess() reads this { Status == "success" }
    predicate IsError() reads this { Level == LevelError || Level == LevelFatal }
    predicate IsUserOperation() reads this { Type == TypeUser }
    predicate IsSystemOperation() reads this { Type == TypeSystem }
    predicate IsSecurityOperation() reads this { Type == TypeSecurity }
  }

  class SystemLog {
    var Level: string
    var Module: string
    var Message: string

    /** The create hook: only an empty level is filled, with `info`. */
    method BeforeCreate()
      modifies this
      ensures Level == if old(Level) == "" then LevelInfo else old(Level)
      ensures Module == old(Module) && Message == old(Message)
      ensures old(Level) == "" ==> !IsError() && !IsWarning()
      ensures Level != ""
      ensures old(Level) != "" ==> unchanged(this)
    {
      if Level == "" {
        Level := LevelInfo;
      }
    }

    predicate IsError() reads this { Level == LevelError || Level == LevelFatal }
    predicate IsWarning() reads this { Level == LevelWarn }
  }

  class SecurityLog {
    var Severity: string
    var Status: string
    var ThreatLevel: string

    /** The create hook: an empty severity becomes `warn`, an empty status
        `detected`; a log created without a severity is not critical. */
    method BeforeCreate()
      modifies this
      ensures Severity == if old(Severity) == "" then LevelWarn else old(Severity)
      ensures Status == if old(Status) == "" then "detected" else old(Status)
      ensures ThreatLevel == old(ThreatLevel)
      ensures old(Severity) == "" ==> !IsCritical()
      ensures Severity != "" && Status != ""
      ensures old(Severity) != "" && old(Status) != "" ==> unchanged(this)
    {
      if Severity == "" {
        Severity := LevelWarn;
      }
      if Status == "" {
        Status := "detected";
      }
    }

    predicate IsHighThreat() reads this { ThreatLevel == "high" || ThreatLevel == "critical" }
    predicate IsCritical() reads this { Severity == LevelError || Severity == LevelFatal }
  }

  /** Operation and system logs classify errors by the same two levels, and
      a system log is never both an error and a warning. */
  lemma ErrorLevelsAgree(ol: OperationLog, sl: SystemLog)
    ensures ol.IsError() <==> IsErrorLevel(ol.Level)
    ensures sl.IsError() <==> IsErrorLevel(sl.Level)
    ensures !(sl.IsError() && sl.IsWarning())
    ensures ol.Level == sl.Level ==> ol.IsError() == sl.IsError()
  {
  }

  /** Only the two named threat levels are high; a security log is
      critical exactly at the error levels. */
  lemma ThreatClassification(sl: SecurityLog)
    ensures sl.IsHighThreat() ==> sl.ThreatLevel in {"high", "critical"}
    ensures sl.ThreatLevel in {"low", "medium", ""} ==> !sl.IsHighThreat()
    ensures sl.IsCritical() <==> IsErrorLevel(sl.Severity)
  {
  }

  /** At most one of the operation kinds holds. */
  lemma OperationKindsExclusive(ol: OperationLog)
    ensures !(ol.IsUserOperation() && ol.IsSystemOperation())
    ensures !(ol.IsUserOperation() && ol.IsSecurityOperation())
    ensures !(ol.IsSystemOperation() && ol.IsSecurityOperation())
  {
  }
}
