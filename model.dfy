/**
 * The records and enumerations of internal/model: nodes (agents), inspection
 * records, alerts and users. Time is an integer number of seconds, and the
 * zero value of Go's time.Time is the instant ZeroTime.
 */
module Model {
  import opened Wrappers

  type Time = int

  /** Go's zero time.Time{} (what `IsZero` recognises). */
  const ZeroTime: Time := 0

  /** AgentStatus: "online", "offline", "unknown". */
  datatype AgentStatus = Online | Offline | Unknown

  /**
   * InspectionLevel. The column is a Go string, so besides the three named
   * levels a decoded analysis can leave it empty (Unset) or set it to any
   * other text.
   */
  datatype Level = OK | Warning | Critical | Unset | Other(text: string)
  {
    /** The string the level is stored and formatted as. */
    function Text(): string {
      match this
      case OK => "OK"
      case Warning => "WARNING"
      case Critical => "CRITICAL"
      case Unset => ""
      case Other(t) => t
    }

    /** An Other level never spells one of the named ones. */
    predicate Valid() {
      Other? ==> text != "OK" && text != "WARNING" && text != "CRITICAL" && text != ""
    }
  }

  /** The level a string holds once it is decoded into an InspectionLevel. */
  function LevelOf(s: string): (l: Level)
    ensures l.Valid()
    ensures l.Text() == s
  {
    if s == "OK" then OK
    else if s == "WARNING" then Warning
    else if s == "CRITICAL" then Critical
    else if s == "" then Unset
    else Other(s)
  }

  /** Levels and their strings are in one-to-one correspondence. */
  lemma LevelOfText(l: Level)
    requires l.Valid()
    ensures LevelOf(l.Text()) == l
  {
  }

  /** AlertStatus: "pending", "processing", "resolved", "ignored". */
  datatype AlertStatus = Pending | Processing | Resolved | Ignored

  /** UserRole: "admin" or "user". */
  datatype UserRole = Admin | RegularUser
  {
    function Text(): string {
      match this
      case Admin => "admin"
      case RegularUser => "user"
    }
  }

  /** A node of the fleet inventory (CreatedAt/UpdatedAt are left to the database). */
  datatype Agent = Agent(
    id: nat,
    name: string,
    ip: string,
    url: string,
    enabled: bool,
    checkInterval: int,
    apiKey: string,
    status: AgentStatus,
    lastCheckAt: Option<Time>)

  /** The numeric columns of an inspection record; all zero unless parsed. */
  datatype Metrics = Metrics(
    cpuUsed: real,
    memoryUsed: real,
    diskUsed: real,
    loadAvg: real,
    pingLoss: real,
    journalErr1h: int,
    processCount: int,
    tcpConnections: int)

  const ZeroMetrics := Metrics(0.0, 0.0, 0.0, 0.0, 0.0, 0, 0, 0)

  /** One inspection record; `id` is 0 until the database assigns one. */
  datatype Inspection = Inspection(
    id: nat,
    agentId: nat,
    hostname: string,
    ip: string,
    rawData: string,
    analysis: string,
    alert: bool,
    level: Level,
    metrics: Metrics)

  /** One alert record; `id` and `createdAt` are assigned by the database on insert. */
  datatype Alert = Alert(
    id: nat,
    agentId: nat,
    inspectionId: nat,
    level: Level,
    title: string,
    summary: string,
    details: string,
    solution: string,
    status: AlertStatus,
    notified: bool,
    resolvedAt: Option<Time>,
    createdAt: Time)

  /** A console user; `password` holds a bcrypt hash (or, while debugging, plain text). */
  datatype User = User(
    id: nat,
    username: string,
    password: string,
    role: UserRole,
    enabled: bool)
}
