/**
 * internal/service/checker.go: one inspection cycle, run sequentially. Each
 * active node is pulled with retries; the results are saved; a CRITICAL
 * inspection raises an alert, subject to the global switch and a per
 * (node, level) cooldown, and the alert is mailed when mail is configured;
 * the node is then marked online.
 *
 * The database, the node transport, the analysis decoder, the mail
 * transport and the clock are collaborators: the first four are oracles in
 * `Env`, and the clock is a parameter `now` read once per cycle. What the
 * checker asks of the database and of the mail transport is recorded, in
 * order, as the `calls` trace of a Checker object.
 */
module Checker {
  import opened Wrappers
  import opened Strings
  import opened Model
  import opened Config
  import opened Client
  import opened Mailer

  /** The members processAlert decodes from an inspection's analysis document. */
  datatype Analysis = Analysis(summary: string, details: seq<string>, plan: string)

  /** What the database assigns to an alert on insert: its id and creation time. */
  datatype Stored = Stored(id: nat, createdAt: Time)

  /**
   * The checker's collaborators. `network(agent, i)` is what the transport
   * does on the i-th GET of a node in a cycle; `saveInspection` yields the
   * id the database assigns; `formatTime` renders a time as
   * "2006-01-02 15:04:05".
   */
  datatype Env = Env(
    inventory: Result<seq<Agent>, string>,
    network: (Agent, nat) -> Transport,
    codec: Codec,
    analysis: string -> Option<Analysis>,
    saveInspection: Inspection -> Result<nat, string>,
    createAlert: Alert -> Result<Stored, string>,
    sendOne: (Sender, string, string) -> Option<string>,
    formatTime: Time -> string)

  /** One request to the database or the mail transport. */
  datatype Call =
    | SaveInspection(inspection: Inspection)
    | UpdateAgentStatus(agentId: nat, status: AgentStatus)
    | CreateAlert(alert: Alert)
    | SendOne(recipient: string, message: string)
    | UpdateAlertStatus(alertId: nat, alertStatus: AlertStatus)

  /** InspectionResult without its duration: the node, and what the retry loop left. */
  datatype CheckResult = CheckResult(agent: Agent, inspection: Option<Inspection>, error: Option<string>)

  /** The effect of a step: the cooldown table afterwards and the calls made, in order. */
  datatype Effect = Effect(table: map<string, Time>, calls: seq<Call>)

  /** The effect of sendAlertMail: whether the alert was marked notified, and the calls made. */
  datatype Mailing = Mailing(notified: bool, calls: seq<Call>)

  function Max0(n: int): nat {
    if n > 0 then n else 0
  }

  // ---------------------------------------------------------------------------
  // Retry loop

  /** The outcome of the i-th Pull of a node in this cycle (attempts count from 0). */
  function Attempt(env: Env, agent: Agent, i: nat): Result<Inspection, string> {
    Pull(agent, env.network(agent, i), env.codec)
  }

  /** The back-off sleeps, in seconds, after the first n failed attempts: 1, 2, ..., n. */
  function Ramp(n: nat): (s: seq<int>)
    ensures |s| == n
    ensures forall k :: 0 <= k < n ==> s[k] == k + 1
  {
    if n == 0 then [] else Ramp(n - 1) + [n]
  }

  /**
   * What checkAgent's loop leaves for a node: the first of the RetryTimes
   * attempts that returned no error supplies the inspection, and the error of
   * the attempt before it, if any, stays in the result; when every attempt
   * failed (or none was made) there is no inspection and the error is the
   * last attempt's.
   */
  predicate Retried(conf: Config, env: Env, r: CheckResult)
    ensures Retried(conf, env, r) && r.inspection.Some? ==> conf.check.retryTimes > 0
    ensures Retried(conf, env, r) && r.inspection.None? && conf.check.retryTimes > 0 ==> r.error.Some?
  {
    var n := Max0(conf.check.retryTimes);
    if r.inspection.None? then
      && (forall k :: 0 <= k < n ==> Attempt(env, r.agent, k).Failure?)
      && r.error == (if n == 0 then None else Some(Attempt(env, r.agent, n - 1).error))
    else
      exists a :: 0 <= a < n && Attempt(env, r.agent, a) == Success(r.inspection.value)
        && (forall k :: 0 <= k < a ==> Attempt(env, r.agent, k).Failure?)
        && r.error == (if a == 0 then None else Some(Attempt(env, r.agent, a - 1).error))
  }

  /** The attempt that supplied a result's inspection witnesses `Retried`. */
  lemma RetriedAt(conf: Config, env: Env, r: CheckResult, a: nat)
    requires r.inspection.Some? && a < Max0(conf.check.retryTimes)
    requires Attempt(env, r.agent, a) == Success(r.inspection.value)
    requires forall k :: 0 <= k < a ==> Attempt(env, r.agent, k).Failure?
    requires r.error == if a == 0 then None else Some(Attempt(env, r.agent, a - 1).error)
    ensures Retried(conf, env, r)
  {
  }

  /**
   * A node whose first read fails and whose second GET fails outright (so
   * Pull yields the synthetic unreachable record) comes out of the retry
   * loop holding both that record and the first error, and processResults
   * counts it as failed and neither saves nor alerts it.
   */
  lemma RecoveredResultDropped(conf: Config, env: Env, table: map<string, Time>, agent: Agent, now: Time, r: CheckResult)
    requires conf.check.retryTimes >= 2
    requires env.network(agent, 0).ReadFailed? && env.network(agent, 1).GetFailed?
    requires r.agent == agent && r.inspection.Some? && Retried(conf, env, r)
    ensures r.inspection.value.level == Critical && r.inspection.value.analysis == UnreachableAnalysis
    ensures r.error == Some(env.network(agent, 0).cause)
    ensures ResultStep(conf, env, table, r, now) == Effect(table, []) && Failures([r]) == 1
  {
    var a :| 0 <= a < Max0(conf.check.retryTimes) && Attempt(env, r.agent, a) == Success(r.inspection.value)
      && (forall k :: 0 <= k < a ==> Attempt(env, r.agent, k).Failure?)
      && r.error == (if a == 0 then None else Some(Attempt(env, r.agent, a - 1).error));
    assert Attempt(env, agent, 0).Failure?;
    assert Attempt(env, agent, 1).Success?;
    assert a == 1;
    assert [r][..0] == [];
  }

  // ---------------------------------------------------------------------------
  // Cooldown table

  /** The table key `fmt.Sprintf("%d-%s", agentID, level)`. */
  function CooldownKey(agentId: nat, level: Level): (key: string)
    ensures HasPrefix(key, Decimal(agentId) + "-")
    ensures key[|Decimal(agentId)| + 1..] == level.Text()
  {
    Decimal(agentId) + "-" + level.Text()
  }

  /** Distinct (node, level) pairs have distinct keys, so they never share a cooldown. */
  lemma CooldownKeyInjective(a1: nat, l1: Level, a2: nat, l2: Level)
    requires l1.Valid() && l2.Valid()
    requires CooldownKey(a1, l1) == CooldownKey(a2, l2)
    ensures a1 == a2 && l1 == l2
  {
    var d1, d2 := Decimal(a1), Decimal(a2);
    var k := CooldownKey(a1, l1);
    DigitsThenDash(k, d1);
    DigitsThenDash(k, d2);
    if |d1| < |d2| {
      assert false;
    } else if |d2| < |d1| {
      assert false;
    }
    assert d1 == k[..|d1|] == d2;
    DecimalInjective(a1, a2);
    assert l1.Text() == k[|d1| + 1..] == l2.Text();
    LevelOfText(l1);
    LevelOfText(l2);
  }

  /** A key that starts with a rendering and a dash has digits up to the dash. */
  lemma DigitsThenDash(k: string, d: string)
    ensures HasPrefix(k, d + "-") && (forall i :: 0 <= i < |d| ==> IsDigit(d[i])) ==>
      k[|d|] == '-' && forall i :: 0 <= i < |d| ==> IsDigit(k[i])
  {
    if HasPrefix(k, d + "-") {
      assert forall i :: 0 <= i <= |d| ==> k[i] == (d + "-")[i];
    }
  }

  /** canSendAlert's test: no earlier alert under the key, or the cooldown has fully elapsed. */
  predicate Ready(table: map<string, Time>, key: string, now: Time, cooldown: int)
    ensures key !in table ==> Ready(table, key, now, cooldown)
    ensures key in table ==> (Ready(table, key, now, cooldown) <==> table[key] + cooldown <= now)
  {
    key !in table || now - table[key] >= cooldown
  }

  /**
   * Taking the slot of one (node, level) pair leaves every other pair's
   * decision as it was.
   */
  lemma CooldownIndependent(table: map<string, Time>, a1: nat, l1: Level, a2: nat, l2: Level,
                            taken: Time, now: Time, cooldown: int)
    requires l1.Valid() && l2.Valid() && (a1, l1) != (a2, l2)
    ensures var t := table[CooldownKey(a1, l1) := taken];
      Ready(t, CooldownKey(a2, l2), now, cooldown) == Ready(table, CooldownKey(a2, l2), now, cooldown)
  {
    if CooldownKey(a1, l1) == CooldownKey(a2, l2) {
      CooldownKeyInjective(a1, l1, a2, l2);
    }
  }

  /**
   * canSendAlert asked for one key at each of the given instants, in order:
   * the table afterwards and the instants at which it said yes.
   */
  function Replay(table: map<string, Time>, key: string, times: seq<Time>, cooldown: int): (map<string, Time>, seq<Time>)
    decreases |times|
  {
    if times == [] then (table, [])
    else
      var granted := Ready(table, key, times[0], cooldown);
      var rest := Replay(if granted then table[key := times[0]] else table, key, times[1..], cooldown);
      (rest.0, if granted then [times[0]] + rest.1 else rest.1)
  }

  /**
   * The cooldown's promise: granted alerts for one key are at least
   * `cooldown` apart, and at least `cooldown` after the one the table already
   * held; the first request for a fresh key is granted; the table ends up
   * holding the last grant, or is untouched when nothing was granted.
   */
  lemma {:induction false} ReplaySpacing(table: map<string, Time>, key: string, times: seq<Time>, cooldown: int)
    decreases |times|
    ensures var (after, grants) := Replay(table, key, times, cooldown);
      && (forall k :: 0 <= k < |grants| - 1 ==> grants[k + 1] - grants[k] >= cooldown)
      && (key in table && grants != [] ==> grants[0] - table[key] >= cooldown)
      && (key !in table && times != [] ==> grants != [] && grants[0] == times[0])
      && (grants == [] ==> after == table)
      && (grants != [] ==> key in after && after[key] == grants[|grants| - 1])
      && (forall k :: k != key ==> (k in after <==> k in table) && (k in table ==> after[k] == table[k]))
  {
    if times != [] {
      var granted := Ready(table, key, times[0], cooldown);
      var next := if granted then table[key := times[0]] else table;
      ReplaySpacing(next, key, times[1..], cooldown);
    }
  }

  // ---------------------------------------------------------------------------
  // Alert contents

  /** The summary an alert has when its analysis does not decode. */
  function DefaultSummary(name: string, level: Level): string {
    "节点 " + name + " 出现 " + level.Text() + " 级别告警"
  }

  /**
   * The alert processAlert inserts. A decoded analysis replaces the summary
   * (even by an empty one) and supplies the solution, and its first detail
   * if it has any. The status column takes its database default, pending.
   */
  function BuildAlert(insp: Inspection, agent: Agent, analysis: Option<Analysis>): (a: Alert)
    ensures a.agentId == agent.id && a.inspectionId == insp.id && a.level == insp.level
    ensures a.title == agent.name + " - " + insp.level.Text()
    ensures analysis.None? ==> a.summary == DefaultSummary(agent.name, insp.level) && a.details == "" && a.solution == ""
    ensures analysis.Some? ==> a.summary == analysis.value.summary && a.solution == analysis.value.plan
    ensures analysis.Some? && analysis.value.details != [] ==> a.details == analysis.value.details[0]
    ensures analysis.Some? && analysis.value.details == [] ==> a.details == ""
    ensures a.id == 0 && a.status == Pending && !a.notified && a.resolvedAt.None?
  {
    var a := Alert(0, agent.id, insp.id, insp.level, agent.name + " - " + insp.level.Text(),
                   DefaultSummary(agent.name, insp.level), "", "", Pending, false, None, 0);
    match analysis
    case None => a
    case Some(an) =>
      a.(summary := an.summary, solution := an.plan, details := if an.details != [] then an.details[0] else "")
  }

  /** The mail subject: prefix, level and node name. */
  function Subject(prefix: string, level: Level, name: string): (s: string)
    ensures HasPrefix(s, prefix + " " + level.Text())
    ensures |s| >= |name| + 3 && s[|s| - |name| - 3..] == " - " + name
  {
    prefix + " " + level.Text() + " - " + name
  }

  /** The mail body: node, IP, level, alert time, summary and solution, one per line. */
  function AlertBody(agent: Agent, alert: Alert, when: string): (b: string)
    ensures HasPrefix(b, "【Cyber Inspector 告警】\n\n节点：" + agent.name + "\nIP地址：" + agent.ip)
    ensures |b| >= 9 && b[|b| - 9..] == "\n\n请及时处理！\n"
  {
    "【Cyber Inspector 告警】\n\n节点：" + agent.name
    + "\nIP地址：" + agent.ip
    + "\n告警级别：" + alert.level.Text()
    + "\n告警时间：" + when
    + "\n告警摘要：" + alert.summary
    + "\n解决方案：" + alert.solution
    + "\n\n请及时处理！\n"
  }

  /**
   * With a prefix and a node name free of line breaks, the subject of a
   * CRITICAL alert keeps the message's header block intact, so a reader of
   * the mail finds exactly the alert body.
   */
  lemma AlertMailReadable(prefix: string, agent: Agent, alert: Alert, when: string)
    requires '\r' !in prefix && '\n' !in prefix && '\r' !in agent.name && '\n' !in agent.name
    requires alert.level == Critical
    ensures var body := AlertBody(agent, alert, when);
      BodyOf(Message(Subject(prefix, alert.level, agent.name), body)) == Some(body)
  {
    var subject := Subject(prefix, alert.level, agent.name);
    assert subject == prefix + (" " + "CRITICAL" + " - ") + agent.name;
    assert '\r' !in " " + "CRITICAL" + " - " && '\n' !in " " + "CRITICAL" + " - ";
    MessageBody(subject, AlertBody(agent, alert, when));
  }

  // ---------------------------------------------------------------------------
  // Mailing an alert

  /** One SendOne call per recipient, in order, each with the same message. */
  function SendCalls(rs: seq<string>, message: string): (c: seq<Call>)
    ensures |c| == |rs|
    ensures forall k :: 0 <= k < |rs| ==> c[k] == SendOne(rs[k], message)
  {
    if rs == [] then [] else SendCalls(rs[..|rs| - 1], message) + [SendOne(rs[|rs| - 1], message)]
  }

  /** The Sender sendAlertMail builds from the mail settings. */
  function MailSender(conf: Config): Sender {
    NewSender(conf.mail.host, conf.mail.port, conf.mail.user, conf.mail.pass, conf.mail.to)
  }

  /** The message sendAlertMail hands to Send for an inserted alert. */
  function AlertMessage(conf: Config, env: Env, alert: Alert, agent: Agent): string {
    Message(Subject(conf.mail.subjectPrefix, alert.level, agent.name),
            AlertBody(agent, alert, env.formatTime(alert.createdAt)))
  }

  /**
   * sendAlertMail: Send's recipient loop, then, if Send reported no error,
   * the alert is marked notified and its status is written back as pending.
   */
  function MailStep(conf: Config, env: Env, alert: Alert, agent: Agent): (m: Mailing)
    ensures forall k :: 0 <= k < |m.calls| ==> m.calls[k].SendOne? || m.calls[k] == UpdateAlertStatus(alert.id, Pending)
  {
    var message := AlertMessage(conf, env, alert, agent);
    var o := Deliver(MailSender(conf), Recipients(conf.mail.to), message, env.sendOne);
    Mailing(o.err.None?, MailCalls(o.attempted, message, alert.id, o.err.None?))
  }

  /** The sends to the recipients tried, then the pending write-back if all of them accepted. */
  function MailCalls(attempted: seq<string>, message: string, alertId: nat, delivered: bool): (c: seq<Call>)
    ensures forall k :: 0 <= k < |c| ==> c[k].SendOne? || c[k] == UpdateAlertStatus(alertId, Pending)
  {
    SendCalls(attempted, message) + (if delivered then [UpdateAlertStatus(alertId, Pending)] else [])
  }

  /**
   * An alert is marked notified exactly when every recipient accepted the
   * mail; then every recipient was sent the same message, in order, and the
   * status write-back (pending, not a notified column) comes last. Otherwise
   * the recipients up to the refusing one were tried and nothing is written.
   */
  lemma MailStepNotified(conf: Config, env: Env, alert: Alert, agent: Agent)
    ensures var m := MailStep(conf, env, alert, agent);
      var message := AlertMessage(conf, env, alert, agent);
      var rs := Recipients(conf.mail.to);
      && (m.notified <==> forall k :: 0 <= k < |rs| ==> env.sendOne(MailSender(conf), rs[k], message).None?)
      && (m.notified ==> m.calls == SendCalls(rs, message) + [UpdateAlertStatus(alert.id, Pending)])
      && (!m.notified ==> 0 < |m.calls| <= |rs| && m.calls == SendCalls(rs[..|m.calls|], message))
  {
    var message := AlertMessage(conf, env, alert, agent);
    var rs := Recipients(conf.mail.to);
    var o := Deliver(MailSender(conf), rs, message, env.sendOne);
    var m := MailStep(conf, env, alert, agent);
    assert m == Mailing(o.err.None?, MailCalls(o.attempted, message, alert.id, o.err.None?));
    DeliverStopsAtFirstFailure(MailSender(conf), rs, message, env.sendOne);
    if o.err.Some? {
      assert m.calls == SendCalls(o.attempted, message);
    }
  }

  // ---------------------------------------------------------------------------
  // Alert decision

  /**
   * processAlert: the global switch, then the CRITICAL-only gate, then the
   * cooldown (whose slot is taken before the alert is inserted), then the
   * insert, then the mail when mail is enabled with a host.
   */
  function AlertStep(conf: Config, env: Env, table: map<string, Time>, insp: Inspection, agent: Agent, now: Time): (e: Effect)
    ensures !conf.alert.enabled || insp.level != Critical ==> e == Effect(table, [])
    ensures e.calls != [] <==>
      conf.alert.enabled && insp.level == Critical && Ready(table, CooldownKey(agent.id, Critical), now, conf.alert.cooldown)
    ensures e.calls == [] ==> e.table == table
    ensures e.calls != [] ==>
      && e.table == table[CooldownKey(agent.id, Critical) := now]
      && e.calls[0] == CreateAlert(BuildAlert(insp, agent, env.analysis(insp.analysis)))
    ensures env.createAlert(BuildAlert(insp, agent, env.analysis(insp.analysis))).Failure? || !conf.mail.enabled || conf.mail.host == "" ==>
      |e.calls| <= 1
    ensures forall k :: 1 <= k < |e.calls| ==> e.calls[k].SendOne? || e.calls[k].UpdateAlertStatus?
    ensures var alert := BuildAlert(insp, agent, env.analysis(insp.analysis));
      e.calls != [] && env.createAlert(alert).Success? && conf.mail.enabled && conf.mail.host != "" ==>
        var stored := env.createAlert(alert).value;
        e.calls[1..] == MailStep(conf, env, alert.(id := stored.id, createdAt := stored.createdAt), agent).calls
  {
    if !conf.alert.enabled || insp.level != Critical then Effect(table, [])
    else
      var key := CooldownKey(agent.id, insp.level);
      if !Ready(table, key, now, conf.alert.cooldown) then Effect(table, [])
      else
        Effect(table[key := now], Raise(conf, env, BuildAlert(insp, agent, env.analysis(insp.analysis)), agent))
  }

  /**
   * The insert of an alert that passed the gates, then, if the insert
   * succeeded and mail is enabled with a host, the mail of the stored alert
   * (with the id and creation time the database assigned).
   */
  function Raise(conf: Config, env: Env, alert: Alert, agent: Agent): (c: seq<Call>)
    ensures c != [] && c[0] == CreateAlert(alert)
    ensures env.createAlert(alert).Failure? || !conf.mail.enabled || conf.mail.host == "" ==> c == [CreateAlert(alert)]
    ensures env.createAlert(alert).Success? && conf.mail.enabled && conf.mail.host != "" ==>
      var stored := env.createAlert(alert).value;
      c[1..] == MailStep(conf, env, alert.(id := stored.id, createdAt := stored.createdAt), agent).calls
    ensures forall k :: 1 <= k < |c| ==> c[k].SendOne? || c[k].UpdateAlertStatus?
  {
    match env.createAlert(alert)
    case Failure(_) => [CreateAlert(alert)]
    case Success(stored) =>
      if conf.mail.enabled && conf.mail.host != "" then
        [CreateAlert(alert)] + MailStep(conf, env, alert.(id := stored.id, createdAt := stored.createdAt), agent).calls
      else [CreateAlert(alert)]
  }

  // ---------------------------------------------------------------------------
  // Result aggregation

  /**
   * processResults on one result: an error result is skipped; otherwise the
   * inspection is saved, and only if that succeeds is the alert decided (on
   * the record with its assigned id) and the node marked online. A result
   * with no inspection at all (no attempt was made) has nothing to save.
   */
  function ResultStep(conf: Config, env: Env, table: map<string, Time>, r: CheckResult, now: Time): (e: Effect)
    ensures r.error.Some? || r.inspection.None? ==> e == Effect(table, [])
    ensures r.error.None? && r.inspection.Some? && env.saveInspection(r.inspection.value).Failure? ==>
      e == Effect(table, [SaveInspection(r.inspection.value)])
    ensures r.error.None? && r.inspection.Some? && env.saveInspection(r.inspection.value).Success? ==>
      var insp := r.inspection.value;
      var a := AlertStep(conf, env, table, insp.(id := env.saveInspection(insp).value), r.agent, now);
      e == Effect(a.table, [SaveInspection(insp)] + a.calls + [UpdateAgentStatus(r.agent.id, Online)])
  {
    if r.error.Some? || r.inspection.None? then Effect(table, [])
    else
      var insp := r.inspection.value;
      match env.saveInspection(insp)
      case Failure(_) => Effect(table, [SaveInspection(insp)])
      case Success(id) =>
        var a := AlertStep(conf, env, table, insp.(id := id), r.agent, now);
        Effect(a.table, [SaveInspection(insp)] + a.calls + [UpdateAgentStatus(r.agent.id, Online)])
  }

  /**
   * The order within one result's step: the save comes first, the node is
   * marked online last exactly when the save succeeded, and no other call
   * saves anything.
   */
  lemma ResultStepShape(conf: Config, env: Env, table: map<string, Time>, r: CheckResult, now: Time)
    ensures var e := ResultStep(conf, env, table, r, now);
      && (r.error.None? && r.inspection.Some? ==> e.calls != [] && e.calls[0] == SaveInspection(r.inspection.value))
      && ((e.calls != [] && e.calls[|e.calls| - 1] == UpdateAgentStatus(r.agent.id, Online)) <==>
            r.error.None? && r.inspection.Some? && env.saveInspection(r.inspection.value).Success?)
      && (forall k :: 1 <= k < |e.calls| ==> !e.calls[k].SaveInspection?)
  {
    var e := ResultStep(conf, env, table, r, now);
    if r.error.None? && r.inspection.Some? && env.saveInspection(r.inspection.value).Success? {
      var insp := r.inspection.value;
      var a := AlertStep(conf, env, table, insp.(id := env.saveInspection(insp).value), r.agent, now);
      assert forall k :: 1 <= k <= |a.calls| ==> e.calls[k] == a.calls[k - 1];
    }
  }

  /** processResults over a whole cycle's results, in order. */
  function Process(conf: Config, env: Env, table: map<string, Time>, results: seq<CheckResult>, now: Time): (e: Effect)
    ensures forall k :: k in table ==> k in e.table
    ensures forall k :: k in e.table ==> e.table[k] == now || (k in table && e.table[k] == table[k])
  {
    if results == [] then Effect(table, [])
    else
      var before := Process(conf, env, table, results[..|results| - 1], now);
      var step := ResultStep(conf, env, before.table, results[|results| - 1], now);
      Effect(step.table, before.calls + step.calls)
  }

  /** Processing one more result extends the run by that result's step. */
  lemma ProcessSnoc(conf: Config, env: Env, table: map<string, Time>, results: seq<CheckResult>, i: nat, now: Time)
    requires i < |results|
    ensures var before := Process(conf, env, table, results[..i], now);
      var step := ResultStep(conf, env, before.table, results[i], now);
      Process(conf, env, table, results[..i + 1], now) == Effect(step.table, before.calls + step.calls)
    ensures Failures(results[..i + 1]) == Failures(results[..i]) + if results[i].error.Some? then 1 else 0
  {
    assert results[..i + 1][..i] == results[..i];
  }

  /**
   * Concatenation of call traces is associative. Stating it as a lemma lets
   * the methods below regroup their traces cheaply; it adds no fact of its own.
   */
  lemma Associative(a: seq<Call>, b: seq<Call>, c: seq<Call>)
    ensures (a + b) + c == a + (b + c)
  {
  }

  /** How many results carry an error (the failed count). */
  function Failures(results: seq<CheckResult>): (n: nat)
    ensures n <= |results|
  {
    if results == [] then 0
    else Failures(results[..|results| - 1]) + (if results[|results| - 1].error.Some? then 1 else 0)
  }

  /** The inspections written by a run of calls, in order. */
  function Saves(calls: seq<Call>): seq<Inspection> {
    if calls == [] then []
    else Saves(calls[..|calls| - 1]) + (if calls[|calls| - 1].SaveInspection? then [calls[|calls| - 1].inspection] else [])
  }

  /** The inspections of the results that carry one and no error, in order. */
  function Clean(results: seq<CheckResult>): seq<Inspection> {
    if results == [] then []
    else
      var r := results[|results| - 1];
      Clean(results[..|results| - 1]) + (if r.error.None? && r.inspection.Some? then [r.inspection.value] else [])
  }

  lemma {:induction false} SavesAppend(a: seq<Call>, b: seq<Call>)
    ensures Saves(a + b) == Saves(a) + Saves(b)
    decreases |b|
  {
    if b != [] {
      SavesAppend(a, b[..|b| - 1]);
      assert (a + b)[..|a + b| - 1] == a + b[..|b| - 1];
    } else {
      assert a + b == a;
    }
  }

  /** A result step saves its inspection if it has one and no error, and nothing else. */
  lemma {:induction false} ResultStepSaves(conf: Config, env: Env, table: map<string, Time>, r: CheckResult, now: Time)
    ensures Saves(ResultStep(conf, env, table, r, now).calls) ==
      if r.error.None? && r.inspection.Some? then [r.inspection.value] else []
  {
    var e := ResultStep(conf, env, table, r, now);
    ResultStepShape(conf, env, table, r, now);
    if e.calls != [] {
      assert e.calls == [e.calls[0]] + e.calls[1..];
      SavesAppend([e.calls[0]], e.calls[1..]);
      assert [e.calls[0]][..0] == [];
      NoSaves(e.calls[1..]);
    }
  }

  lemma {:induction false} NoSaves(c: seq<Call>)
    requires forall k :: 0 <= k < |c| ==> !c[k].SaveInspection?
    ensures Saves(c) == []
  {
    if c != [] {
      NoSaves(c[..|c| - 1]);
    }
  }

  /**
   * Over a cycle, exactly the inspections of the error-free results are
   * saved, in result order; a result that carries an error is never saved,
   * whatever it holds.
   */
  lemma {:induction false} ProcessSavesClean(conf: Config, env: Env, table: map<string, Time>, results: seq<CheckResult>, now: Time)
    ensures Saves(Process(conf, env, table, results, now).calls) == Clean(results)
  {
    if results != [] {
      var init := results[..|results| - 1];
      var before := Process(conf, env, table, init, now);
      ProcessSavesClean(conf, env, table, init, now);
      SavesAppend(before.calls, ResultStep(conf, env, before.table, results[|results| - 1], now).calls);
      ResultStepSaves(conf, env, before.table, results[|results| - 1], now);
    }
  }

  // ---------------------------------------------------------------------------
  // The service

  /**
   * The Checker service: the process-wide alert cooldown table and the
   * requests made so far to the database and the mail transport.
   */
  class Checker {
    const conf: Config
    var alertCooldown: map<string, Time>
    var calls: seq<Call>

    constructor (conf: Config)
      ensures this.conf == conf
      ensures alertCooldown == map[] && calls == []
    {
      this.conf := conf;
      alertCooldown := map[];
      calls := [];
    }

    /**
     * canSendAlert: atomically, refuse while the key's last alert is less
     * than the cooldown ago; otherwise take the slot at `now` and accept.
     * No other key changes.
     */
    method CanSendAlert(agentId: nat, level: Level, now: Time) returns (ok: bool)
      modifies this
      ensures ok == Ready(old(alertCooldown), CooldownKey(agentId, level), now, conf.alert.cooldown)
      ensures alertCooldown == if ok then old(alertCooldown)[CooldownKey(agentId, level) := now] else old(alertCooldown)
      ensures calls == old(calls)
    {
      var key := CooldownKey(agentId, level);
      if key in alertCooldown && now - alertCooldown[key] < conf.alert.cooldown {
        return false;
      }
      alertCooldown := alertCooldown[key := now];
      ok := true;
    }

    /**
     * checkAgent: up to RetryTimes Pulls, stopping at the first that returns
     * no error, sleeping i+1 seconds after a failed attempt i unless it was
     * the last. The error of a failed attempt stays in the result even when
     * a later attempt succeeds. A failed GET is not an error, so an
     * unreachable node is pulled once and yields a CRITICAL record.
     */
    method CheckAgent(env: Env, agent: Agent) returns (r: CheckResult, attempts: nat, sleeps: seq<int>)
      ensures r.agent == agent
      ensures attempts <= Max0(conf.check.retryTimes)
      ensures attempts == 0 <==> conf.check.retryTimes <= 0
      ensures forall k :: 0 <= k < attempts - 1 ==> Attempt(env, agent, k).Failure?
      ensures r.inspection.Some? <==> attempts > 0 && Attempt(env, agent, attempts - 1).Success?
      ensures r.inspection.Some? ==> r.inspection.value == Attempt(env, agent, attempts - 1).value
      ensures r.inspection.None? ==> attempts == Max0(conf.check.retryTimes)
      ensures r.inspection.None? && attempts > 0 ==> r.error == Some(Attempt(env, agent, attempts - 1).error)
      ensures r.inspection.Some? ==> r.error == if attempts >= 2 then Some(Attempt(env, agent, attempts - 2).error) else None
      ensures attempts == 0 ==> r.error.None?
      ensures sleeps == if attempts == 0 then [] else Ramp(attempts - 1)
      ensures conf.check.retryTimes > 0 && env.network(agent, 0).GetFailed? ==>
        && attempts == 1 && r.error.None? && r.inspection.Some?
        && r.inspection.value.level == Critical && r.inspection.value.analysis == UnreachableAnalysis
      ensures Retried(conf, env, r)
    {
      r := CheckResult(agent, None, None);
      attempts := 0;
      sleeps := [];
      var i := 0;
      while i < conf.check.retryTimes
        invariant 0 <= i <= Max0(conf.check.retryTimes)
        invariant attempts == i && r.agent == agent && r.inspection.None?
        invariant forall k :: 0 <= k < i ==> Attempt(env, agent, k).Failure?
        invariant r.error == if i == 0 then None else Some(Attempt(env, agent, i - 1).error)
        invariant sleeps == if i == 0 then [] else Ramp(if i < conf.check.retryTimes then i else i - 1)
        decreases conf.check.retryTimes - i
      {
        var pulled := Attempt(env, agent, i);
        attempts := i + 1;
        if pulled.Success? {
          r := r.(inspection := Some(pulled.value));
          break;
        }
        r := r.(error := Some(pulled.error));
        if i < conf.check.retryTimes - 1 {
          sleeps := sleeps + [i + 1];
        }
        i := i + 1;
      }
      if conf.check.retryTimes > 0 && env.network(agent, 0).GetFailed? {
        assert Attempt(env, agent, 0).Success?;
      }
      if r.inspection.Some? {
        RetriedAt(conf, env, r, attempts - 1);
      }
    }

    /**
     * checkAgent with the evidently intended error handling: a successful
     * attempt clears the errors of the attempts before it, so the result
     * carries an error exactly when it carries no inspection.
     */
    method CheckAgentClearing(env: Env, agent: Agent) returns (r: CheckResult, attempts: nat, sleeps: seq<int>)
      ensures r.agent == agent
      ensures attempts <= Max0(conf.check.retryTimes)
      ensures attempts == 0 <==> conf.check.retryTimes <= 0
      ensures forall k :: 0 <= k < attempts - 1 ==> Attempt(env, agent, k).Failure?
      ensures r.inspection.Some? <==> attempts > 0 && Attempt(env, agent, attempts - 1).Success?
      ensures r.inspection.Some? ==> r.inspection.value == Attempt(env, agent, attempts - 1).value
      ensures r.error.Some? <==> attempts > 0 && r.inspection.None?
      ensures r.error.Some? ==> r.error.value == Attempt(env, agent, attempts - 1).error
      ensures r.inspection.None? ==> attempts == Max0(conf.check.retryTimes)
      ensures sleeps == if attempts == 0 then [] else Ramp(attempts - 1)
      ensures conf.check.retryTimes > 0 && env.network(agent, 0).GetFailed? ==>
        && attempts == 1 && r.error.None? && r.inspection.Some?
        && r.inspection.value.level == Critical && r.inspection.value.analysis == UnreachableAnalysis
    {
      r := CheckResult(agent, None, None);
      attempts := 0;
      sleeps := [];
      var i := 0;
      while i < conf.check.retryTimes
        invariant 0 <= i <= Max0(conf.check.retryTimes)
        invariant attempts == i && r.agent == agent && r.inspection.None?
        invariant forall k :: 0 <= k < i ==> Attempt(env, agent, k).Failure?
        invariant r.error == if i == 0 then None else Some(Attempt(env, agent, i - 1).error)
        invariant sleeps == if i == 0 then [] else Ramp(if i < conf.check.retryTimes then i else i - 1)
        decreases conf.check.retryTimes - i
      {
        var pulled := Attempt(env, agent, i);
        attempts := i + 1;
        if pulled.Success? {
          r := r.(inspection := Some(pulled.value), error := None);
          break;
        }
        r := r.(error := Some(pulled.error));
        if i < conf.check.retryTimes - 1 {
          sleeps := sleeps + [i + 1];
        }
        i := i + 1;
      }
      if conf.check.retryTimes > 0 && env.network(agent, 0).GetFailed? {
        assert Attempt(env, agent, 0).Success?;
      }
    }

    /**
     * sendAlertMail: build the sender, subject and body, call Send; on
     * success mark the alert notified (in memory only) and write its status
     * back as pending.
     */
    method SendAlertMail(env: Env, alert: Alert, agent: Agent) returns (sent: Alert)
      modifies this
      ensures var m := MailStep(conf, env, alert, agent);
        && sent == alert.(notified := alert.notified || m.notified)
        && calls == old(calls) + m.calls
      ensures alertCooldown == old(alertCooldown)
    {
      var sender := NewSender(conf.mail.host, conf.mail.port, conf.mail.user, conf.mail.pass, conf.mail.to);
      var subject := Subject(conf.mail.subjectPrefix, alert.level, agent.name);
      var body := AlertBody(agent, alert, env.formatTime(alert.createdAt));
      var err, attempted := sender.Send(subject, body, env.sendOne);
      var sends := SendCalls(attempted, Message(subject, body));
      calls := calls + sends;
      sent := alert;
      if err.None? {
        sent := sent.(notified := true);
        calls := calls + [UpdateAlertStatus(alert.id, Pending)];
        Associative(old(calls), sends, [UpdateAlertStatus(alert.id, Pending)]);
      } else {
        assert sends + [] == sends;
      }
    }

    /** processAlert, with its early returns. */
    method ProcessAlert(env: Env, insp: Inspection, agent: Agent, now: Time)
      modifies this
      ensures var e := AlertStep(conf, env, old(alertCooldown), insp, agent, now);
        alertCooldown == e.table && calls == old(calls) + e.calls
    {
      if !conf.alert.enabled {
        return;
      }
      if insp.level != Critical {
        return;
      }
      var ok := CanSendAlert(agent.id, insp.level, now);
      if !ok {
        return;
      }
      var alert := BuildAlert(insp, agent, env.analysis(insp.analysis));
      calls := calls + [CreateAlert(alert)];
      var created := env.createAlert(alert);
      if created.Failure? {
        return;
      }
      ghost var inserted := alert;
      alert := alert.(id := created.value.id, createdAt := created.value.createdAt);
      if conf.mail.enabled && conf.mail.host != "" {
        var _ := SendAlertMail(env, alert, agent);
        Associative(old(calls), [CreateAlert(inserted)], MailStep(conf, env, alert, agent).calls);
      } else {
        assert [CreateAlert(inserted)] + [] == [CreateAlert(inserted)];
      }
    }

    /**
     * The body of processResults' loop for a result without an error: save
     * the inspection, and only when saving succeeds decide its alert (on the
     * record with its assigned id) and mark its node online.
     */
    method Handle(env: Env, r: CheckResult, now: Time)
      requires r.error.None?
      modifies this
      ensures var e := ResultStep(conf, env, old(alertCooldown), r, now);
        alertCooldown == e.table && calls == old(calls) + e.calls
    {
      if r.inspection.None? {
        return;
      }
      var insp := r.inspection.value;
      calls := calls + [SaveInspection(insp)];
      var saved := env.saveInspection(insp);
      if saved.Failure? {
        return;
      }
      ProcessAlert(env, insp.(id := saved.value), r.agent, now);
      calls := calls + [UpdateAgentStatus(r.agent.id, Online)];
      ghost var a := AlertStep(conf, env, old(alertCooldown), insp.(id := saved.value), r.agent, now);
      Associative(old(calls), [SaveInspection(insp)], a.calls);
      Associative(old(calls), [SaveInspection(insp)] + a.calls, [UpdateAgentStatus(r.agent.id, Online)]);
    }

    /**
     * processResults: count each result as failed (it carries an error) or
     * succeeded, and handle each succeeded one.
     */
    method ProcessResults(env: Env, results: seq<CheckResult>, now: Time) returns (success: nat, failed: nat)
      modifies this
      ensures success + failed == |results| && failed == Failures(results)
      ensures var e := Process(conf, env, old(alertCooldown), results, now);
        alertCooldown == e.table && calls == old(calls) + e.calls
    {
      success, failed := 0, 0;
      ghost var e := Effect(alertCooldown, []);
      var i := 0;
      while i < |results|
        invariant 0 <= i <= |results|
        invariant success + failed == i && failed == Failures(results[..i])
        invariant e == Process(conf, env, old(alertCooldown), results[..i], now)
        invariant alertCooldown == e.table && calls == old(calls) + e.calls
      {
        var r := results[i];
        ProcessSnoc(conf, env, old(alertCooldown), results, i, now);
        ghost var step := ResultStep(conf, env, e.table, r, now);
        ghost var start := calls;
        if r.error.Some? {
          failed := failed + 1;
        } else {
          success := success + 1;
          Handle(env, r, now);
        }
        assert calls == start + step.calls;
        Associative(old(calls), e.calls, step.calls);
        e := Effect(step.table, e.calls + step.calls);
        i := i + 1;
      }
      assert results[..i] == results;
    }

    /**
     * batchCheck, sequentialised: list the active nodes; stop if that fails
     * or there are none; otherwise check every node, in inventory order, and
     * process the results.
     */
    method BatchCheck(env: Env, now: Time) returns (results: seq<CheckResult>, success: nat, failed: nat)
      modifies this
      ensures env.inventory.Failure? || env.inventory.value == [] ==>
        results == [] && calls == old(calls) && alertCooldown == old(alertCooldown)
      ensures env.inventory.Success? ==> |results| == |env.inventory.value|
      ensures forall k :: 0 <= k < |results| ==> results[k].agent == env.inventory.value[k] && Retried(conf, env, results[k])
      ensures success + failed == |results| && failed == Failures(results)
      ensures var e := Process(conf, env, old(alertCooldown), results, now);
        alertCooldown == e.table && calls == old(calls) + e.calls
    {
      results := [];
      success, failed := 0, 0;
      if env.inventory.Failure? {
        return;
      }
      var agents := env.inventory.value;
      if |agents| == 0 {
        return;
      }
      var i := 0;
      while i < |agents|
        invariant 0 <= i <= |agents| && |results| == i
        invariant forall k :: 0 <= k < i ==> results[k].agent == agents[k] && Retried(conf, env, results[k])
        invariant calls == old(calls) && alertCooldown == old(alertCooldown)
      {
        var r, _, _ := CheckAgent(env, agents[i]);
        results := results + [r];
        i := i + 1;
      }
      success, failed := ProcessResults(env, results, now);
    }
  }
}
