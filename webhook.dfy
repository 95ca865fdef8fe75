/** The stateless half of `src/routes/email.routes.ts`: the checks the POST
    `/webhook/email` handler makes on its payload, the responses it writes,
    the send method its background task selects, and the mapping of the
    connection probe to the GET `/webhook/email/status` response. The handler
    itself, which writes responses and schedules tasks one step at a time, is
    the class `Router.EmailRouter`; its contracts are stated with the functions
    below. */
module Webhook {
  import opened Js

  /** The members of `EventType` that the dispatch switch names. */
  datatype EventType = ERROR | WARNING | SUCCESS | INFO {
    /** The string value of the enum member. */
    function Value(): string {
      match this
      case ERROR => "ERROR"
      case WARNING => "WARNING"
      case SUCCESS => "SUCCESS"
      case INFO => "INFO"
    }
  }

  /** `Object.values(EventType)`, in declaration order. */
  const EventTypeValues: seq<string> :=
    [ERROR.Value(), WARNING.Value(), SUCCESS.Value(), INFO.Value()]

  /** The fields the handler destructures from `req.body`; any other field of
      the body is ignored. `None` is a field that is absent (`undefined`). */
  datatype Payload = Payload(
    to: Option<Json>,
    subject: Option<Json>,
    content: Option<Json>,
    eventType: Option<Json>,
    impactLevel: Option<Json>,
    sourceApplication: Option<Json>,
    metadata: Option<Json>,
    attachments: Option<Json>,
    customCredentials: Option<Json>)

  /** `req.body` as the handler receives it: an object it can destructure, or
      one (`undefined`, `null`) whose destructuring throws a `TypeError` with
      the given message. */
  datatype RequestBody = Parsed(payload: Payload) | NotDestructurable(message: string)

  /** The JSON body of a response. */
  datatype ResponseBody =
    | ErrorBody(error: string, details: string)
    | AcceptedBody(message: string, eventType: Json)
    | StatusBody(status: string, message: string)

  /** One `res.status(code).json(body)` call. */
  datatype Response = Response(code: int, body: ResponseBody)

  // ---------------------------------------------------------------------------
  // Validation

  /** `eventType = EventType.INFO` in the destructuring: the default applies
      only when the field is `undefined`, not when it is `null`, `""` or any
      other falsy value. */
  function ResolvedEventType(p: Payload): (eventType: Json)
    ensures p.eventType.None? ==> !InvalidEventType(eventType) && SelectSendMethod(eventType) == SendInfo
    ensures p.eventType.Some? ==> eventType == p.eventType.value
    ensures !Truthy(eventType) ==> p.eventType == Some(eventType)
  {
    match p.eventType
    case None => JStr(INFO.Value())
    case Some(v) => v
  }

  /** `!subject || !content`: either field is absent or one of the falsy values. */
  predicate MissingRequired(p: Payload)
    ensures MissingRequired(p) <==>
              p.subject.None? || p.subject.value in FalsyValues ||
              p.content.None? || p.content.value in FalsyValues
  {
    !TruthyField(p.subject) || !TruthyField(p.content)
  }

  /** `eventType && !Object.values(EventType).includes(eventType)`. */
  predicate InvalidEventType(eventType: Json)
    ensures InvalidEventType(eventType) <==>
              eventType !in FalsyValues && forall e: EventType :: eventType != JStr(e.Value())
  {
    Truthy(eventType) && !Includes(EventTypeValues, eventType)
  }

  /** `impactLevel && !Object.values(ImpactLevel).includes(impactLevel)`. */
  predicate InvalidImpactLevel(impactLevel: Option<Json>, impactLevels: seq<string>)
    ensures InvalidImpactLevel(impactLevel, impactLevels) <==>
              impactLevel.Some? && impactLevel.value !in FalsyValues &&
              forall i :: 0 <= i < |impactLevels| ==> impactLevel.value != JStr(impactLevels[i])
  {
    TruthyField(impactLevel) && !Includes(impactLevels, impactLevel.value)
  }

  const EventTypePrefix: string := "Event type must be one of: "
  const ImpactLevelPrefix: string := "Impact level must be one of: "
  const Separator: string := ", "

  const MissingFieldsResponse: Response :=
    Response(400, ErrorBody("Missing required fields", "Subject and content are required"))

  const InvalidEventTypeResponse: Response :=
    Response(400, ErrorBody("Invalid eventType", EventTypePrefix + Join(EventTypeValues, Separator)))

  function InvalidImpactLevelResponse(impactLevels: seq<string>): Response {
    Response(400, ErrorBody("Invalid impactLevel", ImpactLevelPrefix + Join(impactLevels, Separator)))
  }

  function AcceptedResponse(eventType: Json): Response {
    Response(202, AcceptedBody("Email will be sent in the background", eventType))
  }

  /** The catch block of the POST handler: `(error as Error).message`. */
  function InternalErrorResponse(message: string): Response {
    Response(500, ErrorBody("Internal server error", message))
  }

  /** The position of a 400 among the three checks: 0 for missing fields, 1
      for the event type, 2 for the impact level. */
  function CheckRank(r: Response, impactLevels: seq<string>): int {
    if r == MissingFieldsResponse then 0
    else if r == InvalidEventTypeResponse then 1
    else if r == InvalidImpactLevelResponse(impactLevels) then 2
    else 3
  }

  /** The 400 writes of the three checks, in the order the handler makes
      them. None of the three branches returns, so every failing check
      writes its own response, and only failing checks write one. */
  function Rejections(p: Payload, impactLevels: seq<string>): (w: seq<Response>)
    ensures |w| <= 3
    ensures forall i, j :: 0 <= i < j < |w| ==> CheckRank(w[i], impactLevels) < CheckRank(w[j], impactLevels)
    ensures w == [] <==>
              !MissingRequired(p) && !InvalidEventType(ResolvedEventType(p)) &&
              !InvalidImpactLevel(p.impactLevel, impactLevels)
    ensures MissingRequired(p) ==> w[0] == MissingFieldsResponse
    ensures !MissingRequired(p) && InvalidEventType(ResolvedEventType(p)) ==> w[0] == InvalidEventTypeResponse
    ensures forall i :: 0 <= i < |w| ==>
              w[i] in {MissingFieldsResponse, InvalidEventTypeResponse, InvalidImpactLevelResponse(impactLevels)}
  {
    (if MissingRequired(p) then [MissingFieldsResponse] else []) +
    (if InvalidEventType(ResolvedEventType(p)) then [InvalidEventTypeResponse] else []) +
    (if InvalidImpactLevel(p.impactLevel, impactLevels) then [InvalidImpactLevelResponse(impactLevels)] else [])
  }

  // ---------------------------------------------------------------------------
  // Dispatch

  /** The four send methods of `MonitoringEmailService`. */
  datatype SendMethod = SendErrorAlert | SendSuccessNotification | SendWarning | SendInfo

  /** The `switch (eventType)` of the background task. `switch` compares with
      `===`, so only the exact string values select the first three cases;
      everything else, `INFO` included, falls to `sendInfo`. */
  function SelectSendMethod(eventType: Json): (m: SendMethod)
    ensures m == SendErrorAlert <==> eventType == JStr(ERROR.Value())
    ensures m == SendSuccessNotification <==> eventType == JStr(SUCCESS.Value())
    ensures m == SendWarning <==> eventType == JStr(WARNING.Value())
    ensures !Truthy(eventType) ==> m == SendInfo
  {
    if eventType == JStr(ERROR.Value()) then SendErrorAlert
    else if eventType == JStr(SUCCESS.Value()) then SendSuccessNotification
    else if eventType == JStr(WARNING.Value()) then SendWarning
    else SendInfo
  }

  /** The object literal every case of the switch passes to its send method. */
  datatype EmailArgs = EmailArgs(
    to: Option<Json>,
    subject: Option<Json>,
    content: Option<Json>,
    impactLevel: Option<Json>,
    sourceApplication: Option<Json>,
    metadata: Option<Json>,
    attachments: Option<Json>,
    customCredentials: Option<Json>)

  function ArgsOf(p: Payload): (a: EmailArgs)
    ensures a.to == p.to && a.subject == p.subject && a.content == p.content
    ensures a.impactLevel == p.impactLevel && a.sourceApplication == p.sourceApplication
    ensures a.metadata == p.metadata && a.attachments == p.attachments
    ensures a.customCredentials == p.customCredentials
  {
    EmailArgs(p.to, p.subject, p.content, p.impactLevel, p.sourceApplication,
              p.metadata, p.attachments, p.customCredentials)
  }

  /** The callback handed to `setImmediate`: the send method it will call, the
      arguments it will pass, and the resolved event type it logs. */
  datatype Task = Task(handler: SendMethod, args: EmailArgs, eventType: Json)

  function TaskFor(p: Payload): (t: Task)
    ensures t.handler == SelectSendMethod(t.eventType)
    ensures t.eventType == ResolvedEventType(p) && t.args == ArgsOf(p)
  {
    var eventType := ResolvedEventType(p);
    Task(SelectSendMethod(eventType), ArgsOf(p), eventType)
  }

  /** What the awaited send method did. */
  datatype Delivery = Delivered | Threw(error: string)

  /** One invocation of a send method of the mail service. */
  datatype Call = Call(handler: SendMethod, args: EmailArgs)

  /** The line a task logs: `console.log` of the event type and subject after
      a send that resolved, `console.error` of the error after one that threw
      or after a success message that could not be built. */
  datatype LogRecord = Sent(eventType: Json, subject: Option<Json>) | Failed(error: string)

  function CallOf(t: Task): Call {
    Call(t.handler, t.args)
  }

  /** The log line of running task `t` when its send ends in `d`. After a
      send that resolved, the success message still converts the event type
      and the subject to strings, which throws for an object with its own
      `toString` member. Every failure is caught inside the task and goes to
      the log only. */
  function Outcome(t: Task, d: Delivery): (r: LogRecord)
    ensures r.Sent? <==> d == Delivered && Stringable(t.eventType) && StringableField(t.args.subject)
    ensures r.Sent? ==> r.eventType == t.eventType && r.subject == t.args.subject
    ensures d.Threw? ==> r == Failed(d.error)
    ensures d == Delivered && !r.Sent? ==> r == Failed(ToPrimitiveError)
  {
    match d
    case Delivered =>
      if Stringable(t.eventType) && StringableField(t.args.subject) then Sent(t.eventType, t.args.subject)
      else Failed(ToPrimitiveError)
    case Threw(e) => Failed(e)
  }

  // ---------------------------------------------------------------------------
  // The POST handler as written

  /** Every response write of one POST request, in order. */
  function PostWrites(body: RequestBody, impactLevels: seq<string>): (w: seq<Response>)
    ensures 1 <= |w| <= 4
    ensures body.NotDestructurable? ==> w == [InternalErrorResponse(body.message)]
    ensures body.Parsed? ==> w[..|w| - 1] == Rejections(body.payload, impactLevels)
    ensures body.Parsed? ==>
              w[|w| - 1] == AcceptedResponse(ResolvedEventType(body.payload)) &&
              (forall i :: 0 <= i < |w| - 1 ==> w[i].code == 400) &&
              (|w| == 1 <==> Rejections(body.payload, impactLevels) == [])
  {
    match body
    case NotDestructurable(m) => [InternalErrorResponse(m)]
    case Parsed(p) => Rejections(p, impactLevels) + [AcceptedResponse(ResolvedEventType(p))]
  }

  /** Every task one POST request hands to `setImmediate`: exactly one whenever
      the body can be destructured, whether or not a check failed. */
  function PostTasks(body: RequestBody): (ts: seq<Task>)
    ensures body.Parsed? <==> |ts| == 1
    ensures body.NotDestructurable? <==> ts == []
    ensures body.Parsed? ==> ts[0].args == ArgsOf(body.payload)
  {
    match body
    case NotDestructurable(_) => []
    case Parsed(p) => [TaskFor(p)]
  }

  // ---------------------------------------------------------------------------
  // The POST handler with a return after the first 400

  /** The writes of the handler when each 400 branch ends with `return`. */
  function FixedPostWrites(body: RequestBody, impactLevels: seq<string>): (w: seq<Response>)
    ensures |w| == 1
    ensures body.Parsed? && Rejections(body.payload, impactLevels) != [] ==> w[0].code == 400
  {
    match body
    case NotDestructurable(m) => [InternalErrorResponse(m)]
    case Parsed(p) =>
      var rejections := Rejections(p, impactLevels);
      if rejections != [] then [rejections[0]] else [AcceptedResponse(ResolvedEventType(p))]
  }

  /** The tasks of the handler when each 400 branch ends with `return`: only a
      payload that passes all three checks is sent. */
  function FixedPostTasks(body: RequestBody, impactLevels: seq<string>): (ts: seq<Task>)
    ensures |ts| <= 1
    ensures |ts| == 1 <==> body.Parsed? && Rejections(body.payload, impactLevels) == []
  {
    match body
    case NotDestructurable(_) => []
    case Parsed(p) => if Rejections(p, impactLevels) == [] then [TaskFor(p)] else []
  }

  // ---------------------------------------------------------------------------
  // The status route

  /** What `await emailService.verifyConnection()` did. */
  datatype Probe = Resolved(connected: bool) | Rejected(message: string)

  /** The single response of GET `/webhook/email/status`. */
  function StatusResponse(probe: Probe): (r: Response)
    ensures r.body.StatusBody?
    ensures r.code == 200 <==> probe == Resolved(true)
    ensures r.code == 503 <==> probe == Resolved(false)
    ensures r.code == 500 <==> probe.Rejected?
    ensures r.body.status == (if probe.Rejected? then "error"
                              else if probe.connected then "operational" else "unavailable")
    ensures probe.Rejected? ==> r.body.message == probe.message
  {
    match probe
    case Resolved(true) => Response(200, StatusBody("operational", "Email service is connected and operational"))
    case Resolved(false) => Response(503, StatusBody("unavailable", "Email service is not connected"))
    case Rejected(m) => Response(500, StatusBody("error", m))
  }
}
