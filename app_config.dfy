/** Validation of the application configuration (internal/utils/config.go)
    and the environment queries on the global configuration, which this
    model passes in as an optional value instead of reading a singleton. */
module AppConfig {
  import opened Wrappers
  import opened GoTypes
  import Logs

  /** The sections of the configuration that validation reads. */
  datatype AppSection = AppSection(name: string, env: string)
  datatype ServerSection = ServerSection(host: string, port: Int64)
  datatype DatabaseSection = DatabaseSection(host: string, username: string, dbName: string)
  datatype JwtSection = JwtSection(secret: string)
  datatype LogSection = LogSection(level: string)
  datatype Config = Config(
    app: AppSection,
    server: ServerSection,
    database: DatabaseSection,
    jwt: JwtSection,
    log: LogSection)

  /** One error per check of the validator, in the order the checks run. */
  datatype ConfigError =
    | EmptyAppName
    | PortOutOfRange
    | EmptyDatabaseHost
    | EmptyDatabaseUsername
    | EmptyDatabaseName
    | EmptyJwtSecret
    | InvalidEnv(env: string)
    | InvalidLogLevel(level: string)

  datatype Outcome = Pass | Fail(error: ConfigError)

  const ValidEnvs: seq<string> := ["development", "testing", "production"]
  const ValidLogLevels: seq<string> := ["debug", "info", "warn", "error", "fatal", "panic"]

  /** One check: whether it fails, and the error it then reports. */
  datatype Check = Check(failed: bool, error: ConfigError)

  /** The outcome of running checks in order until the first failure. */
  function FirstFailure(checks: seq<Check>): (r: Outcome)
    ensures r == Pass <==> forall i :: 0 <= i < |checks| ==> !checks[i].failed
    ensures r.Fail? ==> exists i :: 0 <= i < |checks| && checks[i].failed && checks[i].error == r.error
                                    && (forall j :: 0 <= j < i ==> !checks[j].failed)
  {
    if |checks| == 0 then Pass
    else if checks[0].failed then Fail(checks[0].error)
    else
      var rest := FirstFailure(checks[1..]);
      assert forall i :: 1 <= i < |checks| ==> checks[i] == checks[1..][i - 1];
      rest
  }

  /** The checks of `validateBasicConfig`, in their order. */
  function BasicChecks(c: Config): seq<Check>
  {
    [ Check(c.app.name == "", EmptyAppName),
      Check(c.server.port <= 0 || c.server.port > 65535, PortOutOfRange),
      Check(c.database.host == "", EmptyDatabaseHost),
      Check(c.database.username == "", EmptyDatabaseUsername),
      Check(c.database.dbName == "", EmptyDatabaseName),
      Check(c.jwt.secret == "", EmptyJwtSecret) ]
  }

  /** All checks of `validateConfig`, in their order. */
  function ConfigChecks(c: Config): seq<Check>
  {
    BasicChecks(c) + [
      Check(c.app.env !in ValidEnvs, InvalidEnv(c.app.env)),
      Check(c.log.level !in ValidLogLevels, InvalidLogLevel(c.log.level)) ]
  }

  /** The guard chain of `validateBasicConfig`: application name, port in
      1..65535, database host, user and name, and JWT secret. */
  function ValidateBasicConfig(c: Config): (r: Outcome)
    ensures r == Pass <==>
      c.app.name != "" && 1 <= c.server.port <= 65535 && c.database.host != ""
      && c.database.username != "" && c.database.dbName != "" && c.jwt.secret != ""
  {
    if c.app.name == "" then Fail(EmptyAppName)
    else if c.server.port <= 0 || c.server.port > 65535 then Fail(PortOutOfRange)
    else if c.database.host == "" then Fail(EmptyDatabaseHost)
    else if c.database.username == "" then Fail(EmptyDatabaseUsername)
    else if c.database.dbName == "" then Fail(EmptyDatabaseName)
    else if c.jwt.secret == "" then Fail(EmptyJwtSecret)
    else Pass
  }

  /** The guard chain is the first failure among the basic checks. */
  lemma BasicConfigIsFirstFailure(c: Config)
    ensures ValidateBasicConfig(c) == FirstFailure(BasicChecks(c))
  {
    var cs := BasicChecks(c);
    assert cs[1..][1..][1..][1..][1..][1..] == [];
    assert FirstFailure(cs[1..][1..][1..][1..][1..]) == if c.jwt.secret == "" then Fail(EmptyJwtSecret) else Pass;
    assert FirstFailure(cs[1..][1..][1..]) ==
      if c.database.username == "" then Fail(EmptyDatabaseUsername)
      else FirstFailure(cs[1..][1..][1..][1..]);
    assert FirstFailure(cs[1..]) ==
      if c.server.port <= 0 || c.server.port > 65535 then Fail(PortOutOfRange)
      else FirstFailure(cs[1..][1..]);
  }

  /** The source's scan over a list of allowed names, returning at the
      first match. */
  method Contains(allowed: seq<string>, s: string) returns (found: bool)
    ensures found <==> s in allowed
  {
    var i := 0;
    while i < |allowed|
      invariant 0 <= i <= |allowed|
      invariant s !in allowed[..i]
    {
      if s == allowed[i] {
        return true;
      }
      i := i + 1;
    }
    return false;
  }

  /** Accepts exactly `development`, `testing` and `production`. */
  method ValidateEnvType(env: string) returns (r: Outcome)
    ensures r == Pass <==> env in ValidEnvs
    ensures r != Pass ==> r == Fail(InvalidEnv(env))
  {
    var ok := Contains(ValidEnvs, env);
    r := if ok then Pass else Fail(InvalidEnv(env));
  }

  /** Accepts exactly `debug`, `info`, `warn`, `error`, `fatal` and `panic`. */
  method ValidateLogLevel(level: string) returns (r: Outcome)
    ensures r == Pass <==> level in ValidLogLevels
    ensures r != Pass ==> r == Fail(InvalidLogLevel(level))
  {
    var ok := Contains(ValidLogLevels, level);
    r := if ok then Pass else Fail(InvalidLogLevel(level));
  }

  /** Basic checks, then the environment, then the log level; the first
      failure is reported. */
  method ValidateConfig(c: Config) returns (r: Outcome)
    ensures r == FirstFailure(ConfigChecks(c))
    ensures r == Pass <==> ValidateBasicConfig(c) == Pass && c.app.env in ValidEnvs && c.log.level in ValidLogLevels
  {
    var checks := ConfigChecks(c);
    BasicConfigIsFirstFailure(c);
    FirstFailureSplit(BasicChecks(c), checks[6..]);
    assert checks == BasicChecks(c) + checks[6..];
    r := ValidateBasicConfig(c);
    if r != Pass {
      return;
    }
    r := ValidateEnvType(c.app.env);
    if r != Pass {
      return;
    }
    r := ValidateLogLevel(c.log.level);
  }

  /** Running a concatenation of checks runs the first part, and the second
      only if the first passes. */
  lemma {:induction false} FirstFailureSplit(first: seq<Check>, second: seq<Check>)
    ensures FirstFailure(first + second) ==
      if FirstFailure(first) == Pass then FirstFailure(second) else FirstFailure(first)
  {
    if |first| > 0 {
      assert (first + second)[0] == first[0];
      assert (first + second)[1..] == first[1..] + second;
      FirstFailureSplit(first[1..], second);
    } else {
      assert first + second == second;
    }
  }

  /** With both a bad port and an empty database host, the port error is
      the one reported, because the port is checked first. */
  lemma EarlierCheckWins(c: Config)
    requires c.app.name != ""
    requires c.server.port <= 0 || c.server.port > 65535
    requires c.database.host == ""
    ensures ValidateBasicConfig(c) == Fail(PortOutOfRange)
    ensures FirstFailure(ConfigChecks(c)) == Fail(PortOutOfRange)
  {
  }

  /** `panic` passes validation although it is not a value of the log
      level enumeration, and the empty string is never a valid environment. */
  lemma PanicLevelOutsideEnum()
    ensures "panic" in ValidLogLevels && "panic" !in Logs.LogLevels
    ensures "" !in ValidEnvs && "" !in ValidLogLevels
    ensures forall l :: l in Logs.LogLevels ==> l in ValidLogLevels
  {
  }

  /** `IsProduction`: false without a configuration. */
  predicate IsProduction(global: Option<Config>)
  {
    global.Some? && global.value.app.env == "production"
  }

  /** `IsDevelopment`: true without a configuration. */
  predicate IsDevelopment(global: Option<Config>)
  {
    global.None? || global.value.app.env == "development"
  }

  lemma EnvironmentQueries(global: Option<Config>)
    ensures global.None? ==> !IsProduction(global) && IsDevelopment(global)
    ensures !(IsProduction(global) && IsDevelopment(global))
    ensures global.Some? ==> (IsProduction(global) <==> global.value.app.env == "production")
  {
  }
}
