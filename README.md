# Cyber Inspector: the inspection-and-alert pipeline, modelled in Dafny

Cyber Inspector is a master service that watches a fleet of nodes. Each node
runs an agent. In every inspection cycle the master does the following:

- lists the enabled nodes;
- pulls each node's `/inspect` report, retrying on failure;
- classifies the report into an inspection record;
- saves the record;
- raises an alert for a CRITICAL record, unless the alert switch is off or a
  per-(node, level) cooldown is still running;
- mails the alert when mail is configured;
- marks the node online.

Around this pipeline sit a few other pieces: the mail sender, the HTTP
authentication guards, three repository helpers, and the configuration check.

This project models those pieces and proves what they promise. They run
sequentially, with one clock reading per cycle. Every collaborator is a
function-valued parameter or record field:

- the node transport;
- the JSON decoders;
- the database;
- bcrypt and JWT parsing;
- the SMTP exchange;
- time formatting.

The files:

| file | module | models |
|---|---|---|
| `wrappers.dfy` | `Wrappers` | `Option` and `Result` |
| `strings.dfy` | `Strings` | Go's `strings.TrimSpace`, `strings.Split`, `strings.HasPrefix` and `%d`, with their properties |
| `model.dfy` | `Model` | the records and enumerations of `internal/model`; the inspection level includes the empty level and any other text a decoded document can carry |
| `config.dfy` | `Config` | the configuration record, its defaults, `validateConfig`, and `IsDevelopment`/`IsProduction` |
| `client.dfy` | `Client` | `Pull`: what one GET of a node becomes |
| `mailer.dfy` | `Mailer` | `NewSender`, the message layout, the recipient list, and `Send`'s loop that stops at the first refusal |
| `middleware.dfy` | `Middleware` | `AuthMiddleware` and `AdminMiddleware`, as verdicts on a request context |
| `repository.dfy` | `Repository` | `CheckPassword`; `CreateAgent` and `InitAdminUser` as methods of a `Repository` object that holds the `users` and `agents` tables |
| `checker.dfy` | `Checker` | the cooldown table, alert contents, mail step and result aggregation as functions; the `Checker` service as a class |

The `Checker` class holds three fields:

- `conf`, the configuration, fixed when the service is built;
- the process-wide `alertCooldown` map, which persists from one cycle to the next;
- the `calls` trace of requests made to the database and the mail transport.

The outside world is not a field. Each method takes an `Env`: the node
inventory, the transport result of each attempt, and the answers of the
database, the analysis decoder and the mail server. So each `BatchCheck`
on the same service can see a different inventory and different answers,
while the cooldown table carries over. That is what lets a node that
goes CRITICAL, then OK, then CRITICAL again be modelled.

Its methods `CanSendAlert`, `CheckAgent`, `SendAlertMail`, `ProcessAlert`,
`ProcessResults` and `BatchCheck` follow the source step by step. Each is
proved against a specification function (`Ready`, `Retried`, `MailStep`,
`AlertStep`, `ResultStep`, `Process`). Lemmas then prove the following about
those functions:

- the cooldown spacing;
- key independence;
- that the mail reaches every recipient or stops at the first refusal;
- which inspections get saved.

Time is whole seconds. Go's zero `time.Time` is the instant 0.

## Model

| member | source | states |
|---|---|---|
| Strings.TrimSpace | internal/mailer/mailer.go:42 | the trimmed text is no longer than the input (it is the slice between the leading and the trailing white space; see TrimSpaceInfix) |
| Strings.SkipSpacesStops | internal/mailer/mailer.go:42 | the forward scan passes only white space and stops at the end or at a non-space character |
| Strings.BackSpacesStops | internal/mailer/mailer.go:42 | the backward scan passes only white space and stops at its lower bound or after a non-space character |
| Strings.TrimSpaceInfix | internal/mailer/mailer.go:42 | `TrimSpace(s)` is `s[start..stop]` with only white space before `start` and after `stop`, and no white space at either end of the result |
| Strings.TrimSpaceEnds | internal/mailer/mailer.go:42 | a trimmed text is empty or starts and ends with a non-space character |
| Strings.TrimSpaceEmpty | internal/mailer/mailer.go:42-45 | the trimmed text is empty exactly when the input is all white space (so such a recipient is skipped) |
| Strings.TrimSpaceOfTrimmed | internal/mailer/mailer.go:42 | a text without white space at its ends is left unchanged |
| Strings.TrimSpaceIdempotent | internal/mailer/mailer.go:42 | trimming twice is trimming once |
| Strings.Split | internal/mailer/mailer.go:38 | `strings.Split` gives at least one part, and no part contains the separator |
| Strings.JoinSplit | internal/mailer/mailer.go:38 | joining the parts with the separator gives back the input |
| Strings.SplitJoin | internal/mailer/mailer.go:38 | splitting a join of separator-free parts gives back those parts |
| Strings.SplitNoSeparator | internal/mailer/mailer.go:38 | a text without the separator splits into itself alone |
| Strings.SplitAfterPiece | internal/mailer/mailer.go:38 | a separator-free piece followed by the separator splits off as the first part |
| Strings.Decimal | internal/service/checker.go:250 | the `%d` rendering of a number is non-empty and made of decimal digits |
| Strings.DecimalRoundTrip | internal/service/checker.go:250 | reading back the rendering gives the number |
| Strings.DecimalInjective | internal/service/checker.go:250 | distinct numbers render differently |
| Model.LevelOf | internal/model/agent.go:36-42 | decoding a string into an inspection level yields a well-formed level whose text is that string |
| Model.LevelOfText | internal/model/agent.go:36-42 | levels and their strings correspond one to one |
| Config.Defaults | internal/config/config.go:132-178 | defaults: check interval 5m, max_concurrent 10, retry_times 3; alerts on with a 5m cooldown; mail off on port 994; env "development", so IsDevelopment and not IsProduction; the DSN has no default, so validation fails with the DSN error |
| Config.Validate | internal/config/config.go:181-189 | no error exactly when both DSN and listen address are set; an empty DSN is reported first, whatever the listen address; a set DSN with an empty listen address reports the listen error |
| Config.EnvironmentsExclusive | internal/config/config.go:191-199 | no configuration is both development and production |
| Client.MetricsOf | internal/agent/client.go:92-105 | metrics stay zero unless raw_data decodes, and the disk, journal, process and connection columns are never filled |
| Client.Pull | internal/agent/client.go:29-108 | the only error is a failed body read, and it carries the read's error; a failed GET yields the synthetic CRITICAL "Agent unreachable" record (alert set, hostname = node name, zero metrics), an undecodable envelope the "bad response format" one; every record has the node's id and IP; a decoded envelope gives the reported hostname, raw data and analysis verbatim, and the analysis' alert and level (the level decoded as `LevelOf` does, so a decoded "CRITICAL" is the Critical level), or false and the empty level when it does not decode; every record's level is well-formed, as the cooldown lemmas require |
| Client.PullIgnoresStatus | internal/agent/client.go:47-62 | the HTTP status code never changes the outcome |
| Mailer.NewSender | internal/mailer/mailer.go:20-28 | host, port, user, password and recipient list are stored as given |
| Mailer.Sender.Send | internal/mailer/mailer.go:31-53 | Send tries exactly the recipients the reference loop `Deliver` tries on the recipient list of `To`, in order, with the one message, and returns its error |
| Mailer.Sender.SendParts | internal/mailer/mailer.go:38-50 | the loop over the split parts (trim, skip empty, try, stop on failure) ends in the outcome of its accumulator specification |
| Mailer.ScanDelivers | internal/mailer/mailer.go:41-50 | the part-by-part loop tries, after those already tried, the recipients `Deliver` tries among the remaining parts |
| Mailer.KeepStepAt | internal/mailer/mailer.go:42-45 | one part contributes its trimmed text to the recipients, or nothing when that is empty |
| Mailer.Message | internal/mailer/mailer.go:33-35 | the message starts with the Subject header line, CRLF-terminated, and ends with the body |
| Mailer.BlankLineFrom | internal/mailer/mailer.go:33-35 | a found empty line (CRLF CRLF) lies at or after the start position, within the message |
| Mailer.BlankLineFirst | internal/mailer/mailer.go:33-35 | the search finds the first empty line |
| Mailer.MessageBody | internal/mailer/mailer.go:33-35 | with a subject free of line breaks, the part of the message after the first empty line is exactly the body (the Subject and Content-Type header lines, CRLF-terminated, then an empty line) |
| Mailer.HeaderCarriageReturn | internal/mailer/mailer.go:33-35 | the header block carries only the carriage returns that end its two lines |
| Mailer.NoBlankLineBefore | internal/mailer/mailer.go:33-35 | no empty line starts inside the header block |
| Mailer.Part | internal/mailer/mailer.go:42-45 | a part contributes at most one recipient, its trimmed text, with no white space at the ends |
| Mailer.Keep | internal/mailer/mailer.go:41-45 | keeping the non-empty trimmed parts gives no more recipients than parts, each one trimmed and non-empty |
| Mailer.Recipients | internal/mailer/mailer.go:38-45 | the recipients are trimmed, non-empty, and no more than the comma-separated parts of `To` |
| Mailer.RecipientsOfList | internal/mailer/mailer.go:38-45 | a comma-joined list of trimmed, comma-free addresses yields exactly those addresses |
| Mailer.KeepTrimmed | internal/mailer/mailer.go:42-45 | already-trimmed, non-empty parts are all kept as they are |
| Mailer.NoRecipients | internal/mailer/mailer.go:38-52 | `To` = "" and `To` = " , " name no recipient, so nothing is sent and Send succeeds |
| Mailer.Deliver | internal/mailer/mailer.go:41-52 | the recipients tried are a prefix of the list; a failure names the last recipient tried; success means all of them were tried |
| Mailer.DeliverStopsAtFirstFailure | internal/mailer/mailer.go:41-52 | the recipients tried are a prefix of the list; all but the last tried accepted; success exactly when every recipient accepted, and then all were tried; otherwise the error names the last recipient tried and its failure |
| Middleware.BearerToken | internal/handler/middleware.go:25-26 | a token is taken exactly when the header is longer than 7 and starts with "Bearer " (case-sensitive); it is then non-empty and the header is the prefix plus the token |
| Middleware.BearerRoundTrip | internal/handler/middleware.go:25-26 | "Bearer " + t yields t back exactly when t is non-empty |
| Middleware.BearerRejects | internal/handler/middleware.go:25-32 | a bare "Bearer " and a lower-case "bearer" scheme are rejected |
| Middleware.Authenticate | internal/handler/middleware.go:13-51 | an empty header aborts 401 "未提供访问令牌" without calling ParseToken; a non-Bearer header aborts 401 "无效的访问令牌" without calling it; the Bearer token is what ParseToken receives; its failure aborts 401 "无效的访问令牌"; every abort leaves the context as it was; the request goes on exactly when the token parses, with user_id, username and role set from the claims |
| Middleware.AuthenticatedContext | internal/handler/middleware.go:45-49 | an authenticated context has the three claim keys added, every other key unchanged, and the role stored with type `model.UserRole` |
| Middleware.AdminMiddleware | internal/handler/middleware.go:54-63 | as written: the request goes on exactly when the stored role equals the string "admin" (same dynamic type), otherwise 403 "需要管理员权限" |
| Middleware.AdminMiddlewareRefusesEveryToken | internal/handler/middleware.go:48-57 | after AuthMiddleware, the as-written admin check refuses every request, administrators included |
| Middleware.AdminTokenRefused | internal/handler/middleware.go:48-57 | a concrete administrator's request "Bearer t0k3n" authenticates and is then refused with 403 |
| Middleware.AdminGate | internal/handler/middleware.go:56-57 | intended check: the request goes on exactly when the stored role is the `model.UserRole` "admin" |
| Middleware.AdminGateAfterAuthentication | internal/handler/middleware.go:46-62 | with the intended check, an authenticated request goes on exactly when its token's role is "admin" |
| Repository.Utf8Len | internal/repository/repository.go:260 | Go's `len` of a string counts its UTF-8 bytes: at least one and at most four per character |
| Repository.AsciiUtf8Len | internal/repository/repository.go:260 | on ASCII text, the byte length is the character count |
| Repository.WideUtf8Len | internal/repository/repository.go:260 | text with no ASCII character takes at least two bytes per character |
| Repository.CheckPassword | internal/repository/repository.go:258-266 | a hash whose UTF-8 length is not 60 bytes, or that does not start with "$2", is compared as plain text; a 60-byte "$2" hash is decided by bcrypt alone |
| Repository.WideHashComparedAsText | internal/repository/repository.go:260-261 | a "$2" hash of 60 characters, 58 of them Chinese, is 176 bytes long, so it takes the plain-text branch and accepts itself whatever bcrypt says |
| Repository.HashIsNotAPassword | internal/repository/repository.go:260-265 | a bcrypt-shaped hash (60 bytes, "$2") typed in as the password is accepted only if bcrypt accepts it |
| Repository.StoredLastCheck | internal/repository/repository.go:91-93 | a present zero last-check time becomes absent, anything else is kept, and the stored value is never the zero time |
| Repository.StoredLastCheckIdempotent | internal/repository/repository.go:91-93 | normalising twice is normalising once |
| Repository.AdminCount | internal/repository/repository.go:232 | the administrator count is at most the number of users and is zero exactly when no user is an administrator |
| Repository.AdminCountAppend | internal/repository/repository.go:232-253 | adding a user adds one to the count exactly when the user is an administrator |
| Repository.InitAdmin | internal/repository/repository.go:229-254 | every error leaves the users table as it was; the table changes only by appending the one new administrator (the given name, the hashed password), which needs a successful hash; with no error there is an administrator afterwards |
| Repository.InitAdminFailureChangesNothing | internal/repository/repository.go:229-253 | every error leaves the users table as it was; a failed COUNT is returned as is |
| Repository.InitAdminCreatesOne | internal/repository/repository.go:240-253 | with no administrator and no failure, exactly one user is appended: the given name, the hashed password, role admin, enabled |
| Repository.InitAdminIdempotent | internal/repository/repository.go:236-238 | after a successful run there is an administrator, and any further run changes nothing and returns no error |
| Repository.Repository.CreateAgent | internal/repository/repository.go:89-96 | the agent written (and left in the caller's hands) has its zero last-check time replaced by none; the table grows by it only when the insert succeeds; users are untouched |
| Repository.Repository.InitAdminUser | internal/repository/repository.go:229-254 | the step-by-step method leaves the users table and returns the error that InitAdmin specifies; agents are untouched |
| Checker.Ramp | internal/service/checker.go:146-148 | the back-off sleeps after n failed attempts are 1, 2, ..., n seconds: linear, not exponential |
| Checker.RecoveredResultDropped | internal/service/checker.go:137-163 | a node whose first read fails and whose second GET fails comes out holding the unreachable record and the first error; processResults then neither saves nor alerts it and counts it failed |
| Checker.Retried | internal/service/checker.go:137-149 | the outcome of the retry loop: with no inspection, every one of the RetryTimes attempts failed and the error is the last one's; otherwise some attempt succeeded after only failures, and the error is the one before it (as written, never cleared); an inspection implies RetryTimes > 0, and no inspection after at least one attempt implies an error |
| Checker.CooldownKey | internal/service/checker.go:250 | the key is the node id's decimal rendering, a dash, then the level's text |
| Checker.CooldownKeyInjective | internal/service/checker.go:250 | distinct (node id, level) pairs give distinct "%d-%s" keys |
| Checker.Ready | internal/service/checker.go:255-259 | an alert may go out when the key has no entry, or when its entry is at least the cooldown before `now` |
| Checker.CooldownIndependent | internal/service/checker.go:249-263 | taking one pair's cooldown slot never changes another pair's decision |
| Checker.ReplaySpacing | internal/service/checker.go:249-263 | over any run of requests for one key, granted alerts are at least the cooldown apart and at least the cooldown after the stored one; the first request on a fresh key is granted; the table ends holding the last grant, or unchanged; other keys never change |
| Checker.BuildAlert | internal/service/checker.go:210-230 | title "name - level"; summary "节点 name 出现 level 级别告警" unless the analysis decodes, in which case its summary (even empty) and plan are taken, and its first detail when the list is non-empty; the node, record and level of the inspection; pending, not notified, unresolved |
| Checker.Subject | internal/service/checker.go:275-279 | the subject starts with the prefix, a space and the level, and ends with " - " and the node name |
| Checker.AlertBody | internal/service/checker.go:281-298 | the body starts with the banner, the node name and its IP address, and ends with the closing request "请及时处理！" on its own line |
| Checker.AlertMailReadable | internal/service/checker.go:275-298 | with a subject prefix and node name free of line breaks, a CRITICAL alert's mail carries exactly the alert body after its header block |
| Checker.SendCalls | internal/mailer/mailer.go:41-47 | one sendOne call per recipient, in order, each with the same message |
| Checker.MailStep | internal/service/checker.go:300-309 | mailing an alert makes only sendOne calls and, at most, the pending-status write-back of that alert |
| Checker.MailStepNotified | internal/service/checker.go:300-309 | an alert is marked notified exactly when every recipient accepted; then each recipient got the message in order and the status is written back as pending; otherwise a non-empty prefix of the recipients was tried and nothing is written |
| Checker.AlertStep | internal/service/checker.go:189-243 | alerting off or a non-CRITICAL level: nothing happens and the cooldown is untouched; otherwise an alert is inserted exactly when the cooldown allows, and then the slot is taken at `now` before the insert; a failed insert or mail off/no host: no mail; an inserted alert with mail on and a host is mailed exactly as MailStep says, under the id and creation time the database assigned; later calls are mail calls only |
| Checker.Raise | internal/service/checker.go:232-242 | the insert comes first; a failed insert, or mail off or without a host, ends there; otherwise the mail of the stored alert follows |
| Checker.ResultStep | internal/service/checker.go:158-177 | an error result or one without an inspection does nothing; a failed save makes only the save, runs no alert step and leaves the cooldown table alone; a successful save is followed by the alert step on the record with its assigned id, whose table is the new table, and then the online update |
| Checker.ResultStepShape | internal/service/checker.go:165-177 | within one result's step, the save comes first, the node is marked online last exactly when the save succeeded, and nothing else is saved |
| Checker.Process | internal/service/checker.go:155-186 | processing a cycle's results never removes a cooldown entry, and every entry afterwards is either as it was or set to `now` |
| Checker.ResultStepSaves | internal/service/checker.go:158-171 | one result saves its inspection when it has one and no error, and nothing otherwise |
| Checker.ProcessSavesClean | internal/service/checker.go:155-181 | over a cycle, exactly the inspections of error-free results are saved, in order |
| Checker.Checker.CanSendAlert | internal/service/checker.go:249-263 | refuses, changing nothing, while the key's last alert is less than the cooldown ago; otherwise sets the key to `now` and accepts; no other key and no call changes |
| Checker.Checker.CheckAgent | internal/service/checker.go:123-152 | at most RetryTimes pulls, none when it is not positive; stops at the first pull without error; sleeps 1..k seconds, none after the last attempt; the inspection is the last attempt's when it succeeded; the error of an earlier failed attempt stays in the result; a failed GET is pulled once and gives the CRITICAL unreachable record without error; the result satisfies `Retried` |
| Checker.Checker.CheckAgentClearing | internal/service/checker.go:137-149 | intended retry loop: at most RetryTimes pulls, none when it is not positive; stops at the first success, after only failures; with no inspection, all RetryTimes attempts were made; sleeps 1..k seconds; a failed GET is pulled once and gives the CRITICAL unreachable record; the result carries an error exactly when no attempt succeeded, and then it is the last attempt's |
| Checker.Checker.SendAlertMail | internal/service/checker.go:266-310 | the calls made are MailStep's, and the alert is marked notified (in memory only) exactly when MailStep says so; the cooldown table is untouched |
| Checker.Checker.ProcessAlert | internal/service/checker.go:189-243 | the cooldown table and calls change exactly as AlertStep says |
| Checker.Checker.Handle | internal/service/checker.go:165-177 | for an error-free result, the table and calls change exactly as ResultStep says |
| Checker.Checker.ProcessResults | internal/service/checker.go:155-186 | success + failed is the number of results, failed counts the error results, and the table and calls change as Process says |
| Checker.Checker.BatchCheck | internal/service/checker.go:79-112 | an inventory failure or empty inventory dispatches nothing and changes nothing; otherwise each node yields exactly one result, in inventory order, which is its retry loop's outcome (`Retried`); success + failed equals the number of nodes, and the results are processed as Process says |

## Left out

- Concurrency is not modelled: goroutines, the WaitGroup, the semaphore of `max_concurrent` (so `max_concurrent` has no effect: where checker.go's cycle never completes because `max_concurrent` is 0, which makes the semaphore an unbuffered channel every node blocks on, or panics because it is negative, which `validateConfig` does not reject, the model's cycle still terminates), the mutex, the ticker, `Start`, `Stop` and the public `BatchCheck` trigger. A cycle is one sequential loop over the nodes, and the cooldown table is single-threaded.
- Results are processed in inventory order. Go's channel delivers them in completion order.
- The wall clock is not modelled. `now` is read once per cycle and passed to every cooldown check; the sleeps are recorded, not performed. Durations and the elapsed-time log are left out.
- All logging is left out.
- `fmt.Sscanf` float parsing is the `scanFloat` oracle.
- Every `json.Unmarshal` is an oracle that gives the whole struct or nothing. Go's partial filling of fields before an error is not modelled.
- GORM is abstract. `saveInspection` and `createAlert` are oracles that yield the assigned id (and, for alerts, the creation time). The errors of `UpdateAgentStatus` and `UpdateAlertStatus` are ignored by checker.go and are not modelled.
- A result with no inspection (RetryTimes ≤ 0) is modelled as writing nothing. checker.go passes a nil record to `SaveInspection`, which GORM rejects.
- Database column defaults are not modelled, except an alert's status, which is pending. An inspection with the empty level is stored by the database as "OK"; the model keeps the level as pulled.
- Strings are sequences of Unicode characters. A Go string holding invalid UTF-8 is not modelled; `Repository.Utf8Len` gives Go's byte length for valid text.
- `Checker.Checker.SendAlertMail` keeps the `alert.Notified` update in the returned alert; checker.go updates the caller's alert in place.
- `Mailer.Sender.Send` also returns `attempted`, the recipients passed to `sendOne`. Its error is `SendError(recipient, cause)` instead of the formatted text "发送给 … 失败: …".
- SMTP over TLS (`sendOne`), bcrypt, JWT signing and `ParseToken` are oracles.
- Gin's JSON response body is not modelled; a handler returns a verdict and the new context.
- `Repository.Repository.CreateAgent` returns the normalised agent as `stored` instead of updating the caller's record in place.
- The repository's queries, other than the three helpers and the calls the checker makes, are not part of this model.
- Configuration loading is not modelled: viper, the file, environment variables, and duration parsing (durations are whole seconds). The alert thresholds are carried but never read.
- The time format "2006-01-02 15:04:05" is the `formatTime` oracle.
- Checker.Checker.CheckAgent: the retry outcome is specified, but the measured `Duration` is not.
- Not part of this model: the LLM call and the agent script, the HTTP handlers, bootstrap wiring, the ping route and the commented-out JWT handler.

## Findings

| source | as written | input that shows it | evidently intended | confidence | as-written member | corrected member |
|---|---|---|---|---|---|---|
| internal/handler/middleware.go:48-57 | AuthMiddleware stores the role as a `model.UserRole`. AdminMiddleware compares that interface value with the untyped constant "admin", which becomes a `string`. Interface values with different dynamic types are never equal, so every authenticated request is refused with 403. | header "Bearer t0k3n" whose claims carry role "admin" | let administrators through: compare with `model.RoleAdmin` | high; not executed. Latent: bootstrap.go:165-186 mounts no route behind AdminMiddleware | Middleware.AdminMiddleware, Middleware.AdminMiddlewareRefusesEveryToken, Middleware.AdminTokenRefused | Middleware.AdminGate, Middleware.AdminGateAfterAuthentication |
| internal/service/checker.go:137-163 | `result.Error` is set on each failed attempt and never cleared. A node that recovers on a retry keeps the stale error, and processResults counts it as failed and drops its inspection unsaved. | RetryTimes 3; the first GET's body read fails; the second GET fails outright, giving the unreachable CRITICAL record | a successful attempt clears the error, so the record is saved and alerted | medium; not executed | Checker.Checker.CheckAgent, Checker.RecoveredResultDropped | Checker.Checker.CheckAgentClearing |

`Checker.Checker.BatchCheck` keeps the as-written retry loop, because it models the cycle the code runs. `CheckAgentClearing` carries the intended contract on its own: a result holds an error exactly when it holds no inspection.

Where the code and its comments differ, the model follows the code:

- The back-off is linear (`Ramp`), although a comment calls it exponential.
- An unreachable node is not retried: a failed GET is not an error.
- The cooldown slot is taken before the alert is inserted.
- A mailed alert's notified flag is not written to the database; only status "pending" is.
