/**
 * internal/config: the configuration record, its default values, the check
 * `Load` applies after decoding, and the environment predicates.
 * Durations are whole seconds.
 */
module Config {
  import opened Wrappers

  datatype AppConfig = AppConfig(name: string, version: string, secret: string, env: string)

  datatype ServerConfig = ServerConfig(listen: string, readTimeout: int, writeTimeout: int, idleTimeout: int)

  datatype MySQLConfig = MySQLConfig(dsn: string, maxOpenConns: int, maxIdleConns: int, connMaxLifetime: int)

  datatype CheckConfig = CheckConfig(interval: int, timeout: int, maxConcurrent: int, retryTimes: int)

  datatype Threshold = Threshold(cpu: real, memory: real, disk: real, loadAvg: real)

  datatype AlertConfig = AlertConfig(enabled: bool, cooldown: int, threshold: Threshold)

  datatype MailConfig = MailConfig(
    enabled: bool, host: string, port: int, user: string, pass: string, to: string, subjectPrefix: string)

  datatype LLMConfig = LLMConfig(
    enabled: bool, apiUrl: string, model: string, temperature: real, timeout: int, maxTokens: int)

  datatype LogConfig = LogConfig(
    level: string, format: string, output: string, maxSize: string, maxBackups: int, maxAge: string)

  datatype JWTConfig = JWTConfig(secret: string, expireHours: int)

  datatype Config = Config(
    app: AppConfig,
    server: ServerConfig,
    mysql: MySQLConfig,
    check: CheckConfig,
    alert: AlertConfig,
    mail: MailConfig,
    llm: LLMConfig,
    log: LogConfig,
    jwt: JWTConfig)
  {
    predicate IsDevelopment() {
      app.env == "development"
    }

    predicate IsProduction() {
      app.env == "production"
    }
  }

  const Minute := 60

  const DsnMissing := "MySQL DSN 不能为空"
  const ListenMissing := "服务器监听地址不能为空"

  /**
   * The configuration decoded from an empty file: every key setDefaults
   * names, and Go's zero value for the others (the DSN, the mail account,
   * the LLM endpoint).
   */
  function Defaults(): (c: Config)
    ensures c.check.interval == 5 * Minute && c.check.maxConcurrent == 10 && c.check.retryTimes == 3
    ensures c.alert.enabled && c.alert.cooldown == 5 * Minute
    ensures !c.mail.enabled && c.mail.port == 994
    ensures c.IsDevelopment() && !c.IsProduction()
    ensures Validate(c) == Some(DsnMissing)
  {
    Config(
      AppConfig("Cyber Inspector", "2.0.0", "cyber-inspector-secret", "development"),
      ServerConfig(":8080", 10, 10, 60),
      MySQLConfig("", 50, 10, 5 * Minute),
      CheckConfig(5 * Minute, 30, 10, 3),
      AlertConfig(true, 5 * Minute, Threshold(85.0, 90.0, 90.0, 5.0)),
      MailConfig(false, "", 994, "", "", "", "[Cyber Inspector]"),
      LLMConfig(false, "", "", 0.0, 30, 2000),
      LogConfig("info", "json", "stdout", "100MB", 5, "30d"),
      JWTConfig("change-me", 24))
  }

  /** validateConfig: the error it returns, or None. The DSN is checked before the listen address. */
  function Validate(c: Config): (err: Option<string>)
    ensures err.None? <==> c.mysql.dsn != "" && c.server.listen != ""
    ensures c.mysql.dsn == "" ==> err == Some(DsnMissing)
    ensures c.mysql.dsn != "" && c.server.listen == "" ==> err == Some(ListenMissing)
  {
    if c.mysql.dsn == "" then Some(DsnMissing)
    else if c.server.listen == "" then Some(ListenMissing)
    else None
  }

  /** No configuration is both a development and a production one. */
  lemma EnvironmentsExclusive(c: Config)
    ensures !(c.IsDevelopment() && c.IsProduction())
  {
  }
}
