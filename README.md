# Webhook email route of mail-notifier, in Dafny

This project models `src/routes/email.routes.ts` of mail-notifier, the
Express router through which monitoring events become emails:

- **POST `/webhook/email`** destructures the payload and defaults `eventType`
  to `INFO` only when it is absent. It then makes three checks: subject and
  content present, `eventType` an `EventType` value, `impactLevel` an
  `ImpactLevel` value. Each failing check writes its own 400. None of these
  branches returns. The handler then hands one callback to `setImmediate` and
  writes a 202 that echoes the resolved `eventType`.
- **The background callback** picks one of four send methods of the mail
  service with a `switch` on `eventType`. It passes the same eight payload
  fields to whichever one it picks. A send that throws is caught and logged,
  never reported to the caller.
- **GET `/webhook/email/status`** turns the mail service's connection probe
  into a 200, 503 or 500 response.

Files:

- `js.dfy`, module `Js`: JSON values, JavaScript truthiness, `includes` over
  string enum values, and `join`, with lemmas that locate every value and
  separator in a joined string.
- `webhook.dfy`, module `Webhook`: the payload, the responses, the three checks,
  the send-method selection, and the status mapping, all as functions. Two
  functions give the writes and the tasks of one POST as the code does it:
  `PostWrites` and `PostTasks`. Two more give them for a handler that returns
  after its first 400: `FixedPostWrites` and `FixedPostTasks`.
- `properties.dfy`, module `Properties`: lemmas that relate these functions.
- `router.dfy`, module `Router`: class `EmailRouter`, the handlers as step-by-step
  methods over a log of response writes, a FIFO queue of scheduled tasks, a log
  of every call of a send method and a log of background log lines. Each method's
  `ensures` ties the new state to the `Webhook` functions.

Modelling choices:

- A number is the value JavaScript's parser gives it: `1e-400` is `0`
  (falsy), not a tiny non-zero real.
- A payload field is an `Option<Json>`. `None` is `undefined`. This keeps
  `null` apart from an absent field: a `null` `eventType` is falsy, so it
  passes the enum check. It is not replaced by `INFO`, falls to `sendInfo`,
  and is echoed as `null` in the 202.
- `EventType` is taken to be a string enum with values `"ERROR"`, `"WARNING"`,
  `"SUCCESS"` and `"INFO"`, declared in that order. The order fixes the list in
  the 400 details. `ImpactLevel`'s values are a parameter of the router, in
  declaration order. No property depends on them being distinct.
- The response is a recorder that accepts every write. This is an assumption
  about the framework: Express itself refuses a second write after headers are
  sent, and that refusal is not modelled.
- A `req.body` that cannot be destructured (`undefined` or `null`) is the only
  way the synchronous path throws under that assumption. It is the input
  `NotDestructurable(message)`, which leads to the 500 of the catch block.
- The mail service, its connection probe and `setImmediate` are outside the
  model. What a send or the probe did is a parameter: `Delivery` or `Probe`.
  Running a queued task is a separate method called later.

None of the three 400 branches at lines 27-52 returns. So, under the
recorder assumption above, a payload that fails a check gets its 400, is still
handed to `setImmediate`, and is then answered with a 202 as well. Under
Express's refusal of a second write, a payload that fails two or more checks
throws at its second 400 (line 36 or 46), before line 55. It is then never
scheduled, and no 202 follows any 400. `PostTasks` and
`RejectedPayloadStillScheduled` hold only under the recorder assumption. A handler that returned after its first 400
would schedule no send for it. The model keeps the code as written and sets
the returning handler beside it (see Findings).

## Model

| member | source | states |
|---|---|---|
| `Js.JoinAt` | src/routes/email.routes.ts:38-40 | `join(", ")` puts the i-th value, unchanged, at its offset: the lengths of the earlier values, each plus one separator |
| `Js.OffsetNext` | src/routes/email.routes.ts:38-40 | the next value starts exactly one value and one separator after the current one |
| `Js.JoinSeparatorAt` | src/routes/email.routes.ts:48-50 | right after each value but the last, the joined string holds the separator |
| `Js.TruthyIsNotFalsy` | src/routes/email.routes.ts:27 | a parsed JSON value is truthy exactly when it is not `null`, `false`, `0` or `""` |
| `Js.IncludesIsListed` | src/routes/email.routes.ts:35 | `includes` holds exactly when the value is a string equal to one of the listed values |
| `Js.JoinEnds` | src/routes/email.routes.ts:38-40 | `join` of no values is `""`; otherwise the result starts with the first value and ends with the last |
| `Js.JoinLength` | src/routes/email.routes.ts:48-50 | the joined string ends exactly after the last value, so it holds nothing but the values and separators |
| `Webhook.ResolvedEventType` | src/routes/email.routes.ts:18 | a present event type is kept exactly as it came, whatever its value; an absent one resolves to one that passes the check and selects `sendInfo`; a falsy resolved value is always the payload's own |
| `Webhook.MissingRequired` | src/routes/email.routes.ts:27 | the subject/content check fails exactly when either field is absent or one of the falsy values |
| `Webhook.InvalidEventType` | src/routes/email.routes.ts:35 | the eventType check fails exactly when the value is truthy and is not the string value of any `EventType` member |
| `Webhook.InvalidImpactLevel` | src/routes/email.routes.ts:45 | the impactLevel check fails exactly when the field is present, truthy, and not the string of any `ImpactLevel` value |
| `Webhook.Rejections` | src/routes/email.routes.ts:26-52 | at most three 400s, strictly in check order (so none twice); none exactly when all three checks pass; the missing-fields 400 first when that check fails |
| `Webhook.ArgsOf` | src/routes/email.routes.ts:60-68 | the argument object carries the payload's eight fields unchanged |
| `Webhook.TaskFor` | src/routes/email.routes.ts:55-108 | the queued task calls the method its resolved event type selects and carries the payload's arguments |
| `Webhook.SelectSendMethod` | src/routes/email.routes.ts:58-108 | `sendErrorAlert`, `sendSuccessNotification` and `sendWarning` are chosen exactly for the strings `ERROR`, `SUCCESS` and `WARNING`; every other value, every falsy one included, goes to `sendInfo` |
| `Webhook.Outcome` | src/routes/email.routes.ts:109-112 | a resolved send logs the event type and subject when both convert to strings; a thrown send logs its error; a conversion that throws (an object with its own `toString` member) logs the `TypeError` |
| `Webhook.PostWrites` | src/routes/email.routes.ts:12-127 | one to four writes; an undestructurable body gets only the 500 with the error's message; otherwise the writes are exactly `Rejections` followed by the 202 echoing the resolved event type; a single write exactly when no check fails |
| `Webhook.PostTasks` | src/routes/email.routes.ts:55-113 | a destructured body schedules exactly one task, whatever the checks said, carrying the payload's fields; an undestructurable one schedules none |
| `Webhook.FixedPostWrites` | src/routes/email.routes.ts:27-52 | with a return after each 400 there is exactly one write, a 400 whenever a check fails |
| `Webhook.FixedPostTasks` | src/routes/email.routes.ts:27-55 | with a return after each 400 a task is scheduled exactly when the body passes all three checks |
| `Webhook.StatusResponse` | src/routes/email.routes.ts:130-153 | probe true gives 200 `operational`, false gives 503 `unavailable`, a rejection gives 500 `error` carrying its message |
| `Properties.PresentEventTypeIsKept` | src/routes/email.routes.ts:18-116 | a present `eventType` selects the task's send method and is echoed in the 202 unchanged; `"WARNING"`, `"ERROR"` and `"SUCCESS"` reach `sendWarning`, `sendErrorAlert` and `sendSuccessNotification` |
| `Properties.AbsentEventTypeIsInfo` | src/routes/email.routes.ts:18 | an absent `eventType` resolves to `INFO`, passes the check, goes to `sendInfo` and is echoed as `INFO` in the 202 |
| `Properties.FalsyEventTypeNeverRejected` | src/routes/email.routes.ts:35-42 | a falsy `eventType` never draws the eventType 400, is sent with `sendInfo` and is echoed unchanged |
| `Properties.FalsyImpactLevelNeverRejected` | src/routes/email.routes.ts:45-52 | a falsy `impactLevel` never draws the impactLevel 400 |
| `Properties.TaskCarriesPayload` | src/routes/email.routes.ts:58-108 | the scheduled task uses the method chosen by the resolved event type and passes the eight payload fields unchanged |
| `Properties.RejectionsAreFailingChecks` | src/routes/email.routes.ts:27-52 | each of the three 400s is among the writes exactly when its own check fails, whatever the other checks found |
| `Properties.ImpactLevelDetailsWithNoValues` | src/routes/email.routes.ts:48-50 | with no `ImpactLevel` values, the details are the prefix alone |
| `Properties.SubjectWithOwnToStringLogsFailure` | src/routes/email.routes.ts:109-111 | a subject object with its own `toString` is still sent with `sendInfo`, but its success message throws and the task logs a failure |
| `Properties.MissingFieldsWrittenFirst` | src/routes/email.routes.ts:27-32 | a missing or empty subject or content makes the first write the 400 `Missing required fields` / `Subject and content are required` |
| `Properties.EventTypeDetailsListEveryValue` | src/routes/email.routes.ts:35-42 | the eventType 400 details are `Event type must be one of: ` followed by every `EventType` value in order, separated by `, `, and nothing more |
| `Properties.ImpactLevelDetailsListEveryValue` | src/routes/email.routes.ts:45-52 | the impactLevel 400 details are `Impact level must be one of: ` followed by every `ImpactLevel` value in order, separated by `, `, and nothing more |
| `Properties.JoinListsEveryValue` | src/routes/email.routes.ts:38-50 | a prefix followed by a `, `-join holds each value at its offset, separators between values, and ends at the last value |
| `Properties.RejectedPayloadStillScheduled` | src/routes/email.routes.ts:27-55 | a payload that fails a check still gets a 202 after its first 400, and its task is still scheduled |
| `Properties.MissingSubjectIsStillSent` | src/routes/email.routes.ts:27-119 | a payload with content and no subject gets the 400 and then a 202 echoing `INFO`, and one task for `sendInfo` |
| `Properties.FixedIsFirstWriteOfAsWritten` | src/routes/email.routes.ts:27-119 | the corrected handler's only write is the first write of the handler as written; it schedules the same task when all checks pass and none otherwise |
| `Properties.FixedNeverSchedulesInvalid` | src/routes/email.routes.ts:27-55 | in the corrected handler, a payload that fails a check gets a 400 and schedules no send |
| `Router.EmailRouter.constructor` | src/routes/email.routes.ts:8-9 | a new router has no writes, no queued tasks, no calls and no log lines |
| `Router.EmailRouter.Write` | src/routes/email.routes.ts:28-31 | one `res.status().json()` appends one response and changes nothing else |
| `Router.EmailRouter.HandlePost` | src/routes/email.routes.ts:12-127 | appends `PostWrites` to the response log and `PostTasks` to the queue; calls no send method and adds no background log line |
| `Router.EmailRouter.WriteRejections` | src/routes/email.routes.ts:26-52 | the three checks append exactly `Rejections` to the response log and change nothing else |
| `Router.EmailRouter.HandlePostFixed` | src/routes/email.routes.ts:26-52 | the same handler with a return after each 400: appends `FixedPostWrites` and `FixedPostTasks` |
| `Router.EmailRouter.RunNext` | src/routes/email.routes.ts:55-113 | runs the oldest queued task, if any: one call of its send method with its arguments, one log line as `Outcome` gives it, no response write |
| `Router.EmailRouter.HandleStatus` | src/routes/email.routes.ts:130-153 | appends exactly `StatusResponse(probe)` to the response log |
| `Router.PostTwice` | src/routes/email.routes.ts:55 | posting the same payload twice queues two identical tasks: nothing is deduplicated |

## Left out

- `src/index.ts` and `src/app.ts`: process start-up, `express.json`, mounting under `/api`, `app.listen`. The `/health` route only returns a clock timestamp.
- `MonitoringEmailService` (`src/services/email.service`) is not part of this model. That covers its templates, subject decoration, credential resolution, default recipient, SMTP, and what `verifyConnection` checks. The four send methods and the probe are opaque calls whose outcome is an input.
- What Express does with a second write after headers are sent, and so what the catch block at lines 120-126 does then. The response is modelled as a recorder that accepts every write.
- The timing of `setImmediate` and any interleaving of requests. Queued tasks run in FIFO order when `RunNext` is called.
- The exact text of `console.log` and `console.error` output. A log line is a record of the values it prints.
- Two calls are not recorded: the `verifyConnection` call of the status route at line 132, and the catch block's `console.error` at line 121. `calls` holds only send-method calls, and `log` holds only the lines of background tasks.
- A number literal too large for a double parses to `Infinity`, which `JNum` cannot hold. It would be truthy and never a string, so it would pass and fail the same checks as a large finite number. Only the echo in the 202 differs, where `res.json` writes it as `null`.
- A thrown value that is not an `Error` (whose `.message` would be `undefined`) is not modelled. Errors always carry a string message.

## Findings

| source | as written | input that shows it | evidently intended | confidence | as-written member | corrected member |
|---|---|---|---|---|---|---|
| src/routes/email.routes.ts:27-52 | the three 400 branches do not `return`, so a rejected payload is still sent in the background and a 202 write follows the 400 | a payload with `content` and no `subject` | return after the first 400, with no send scheduled | high; not executed | `Properties.MissingSubjectIsStillSent` | `Properties.FixedNeverSchedulesInvalid` |
