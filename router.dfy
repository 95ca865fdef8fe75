/** The two route handlers of `src/routes/email.routes.ts` as they run: each
    POST writes its responses one `res.status().json()` at a time and hands
    one callback to `setImmediate`; the event loop later runs the queued
    callbacks in order, each calling one send method of the mail service. */
module Router {
  import opened Js
  import opened Webhook

  class EmailRouter {
    /** `Object.values(ImpactLevel)`. */
    const impactLevels: seq<string>
    /** Every response write, in the order the handlers made them. The
        response is a recorder that accepts every write. */
    var responses: seq<Response>
    /** The callbacks handed to `setImmediate` that have not run yet. */
    var queue: seq<Task>
    /** Every call of a send method of the mail service, in order. */
    var calls: seq<Call>
    /** Every line the background tasks logged. */
    var log: seq<LogRecord>

    constructor (impactLevels: seq<string>)
      ensures this.impactLevels == impactLevels
      ensures responses == [] && queue == [] && calls == [] && log == []
    {
      this.impactLevels := impactLevels;
      responses, queue, calls, log := [], [], [], [];
    }

    /** `res.status(response.code).json(response.body)`. */
    method Write(response: Response)
      modifies this
      ensures responses == old(responses) + [response]
      ensures queue == old(queue) && calls == old(calls) && log == old(log)
    {
      responses := responses + [response];
    }

    /** POST `/webhook/email`, as written: none of the three 400 branches
        returns, so the task is scheduled and the 202 written after them. */
    method HandlePost(body: RequestBody)
      modifies this
      ensures responses == old(responses) + PostWrites(body, impactLevels)
      ensures queue == old(queue) + PostTasks(body)
      ensures calls == old(calls) && log == old(log)
    {
      if body.NotDestructurable? {
        Write(InternalErrorResponse(body.message));
        return;
      }
      var p := body.payload;
      var eventType := ResolvedEventType(p);
      WriteRejections(p);
      queue := queue + [Task(SelectSendMethod(eventType), ArgsOf(p), eventType)];
      Write(AcceptedResponse(eventType));
    }

    /** Lines 26-52: the three checks in order, each writing its 400 when it
        fails and carrying on either way. */
    method WriteRejections(p: Payload)
      modifies this
      ensures responses == old(responses) + Rejections(p, impactLevels)
      ensures queue == old(queue) && calls == old(calls) && log == old(log)
    {
      var missing := MissingRequired(p);
      var badEventType := InvalidEventType(ResolvedEventType(p));
      var badImpactLevel := InvalidImpactLevel(p.impactLevel, impactLevels);
      ghost var before := responses;
      if missing {
        Write(MissingFieldsResponse);
      }
      ghost var afterFirst := responses;
      if badEventType {
        Write(InvalidEventTypeResponse);
      }
      ghost var afterSecond := responses;
      if badImpactLevel {
        Write(InvalidImpactLevelResponse(impactLevels));
      }
      assert afterFirst == before + (if missing then [MissingFieldsResponse] else []);
      assert afterSecond == afterFirst + (if badEventType then [InvalidEventTypeResponse] else []);
    }

    /** POST `/webhook/email` with a `return` after each 400: at most one
        write, and no task for a payload that fails a check. */
    method HandlePostFixed(body: RequestBody)
      modifies this
      ensures responses == old(responses) + FixedPostWrites(body, impactLevels)
      ensures queue == old(queue) + FixedPostTasks(body, impactLevels)
      ensures calls == old(calls) && log == old(log)
    {
      if body.NotDestructurable? {
        Write(InternalErrorResponse(body.message));
        return;
      }
      var p := body.payload;
      var eventType := ResolvedEventType(p);
      if MissingRequired(p) {
        Write(MissingFieldsResponse);
        return;
      }
      if InvalidEventType(eventType) {
        Write(InvalidEventTypeResponse);
        return;
      }
      if InvalidImpactLevel(p.impactLevel, impactLevels) {
        Write(InvalidImpactLevelResponse(impactLevels));
        return;
      }
      queue := queue + [Task(SelectSendMethod(eventType), ArgsOf(p), eventType)];
      Write(AcceptedResponse(eventType));
    }

    /** The event loop runs the oldest queued callback, whose send ends in
        `delivery`: one call into the mail service and one log line, and no
        response write whatever the outcome. */
    method RunNext(delivery: Delivery) returns (ran: bool)
      modifies this
      ensures ran <==> old(queue) != []
      ensures ran ==> queue == old(queue)[1..] &&
                      calls == old(calls) + [CallOf(old(queue)[0])] &&
                      log == old(log) + [Outcome(old(queue)[0], delivery)]
      ensures !ran ==> queue == old(queue) && calls == old(calls) && log == old(log)
      ensures responses == old(responses)
    {
      if queue == [] {
        return false;
      }
      var task := queue[0];
      queue := queue[1..];
      calls := calls + [Call(task.handler, task.args)];
      match delivery {
        case Delivered =>
          if Stringable(task.eventType) && StringableField(task.args.subject) {
            log := log + [Sent(task.eventType, task.args.subject)];
          } else {
            log := log + [Failed(ToPrimitiveError)];
          }
        case Threw(e) =>
          log := log + [Failed(e)];
      }
      ran := true;
    }

    /** GET `/webhook/email/status`: one write, chosen by the probe. */
    method HandleStatus(probe: Probe)
      modifies this
      ensures responses == old(responses) + [StatusResponse(probe)]
      ensures queue == old(queue) && calls == old(calls) && log == old(log)
    {
      match probe
      case Resolved(connected) =>
        if connected {
          Write(Response(200, StatusBody("operational", "Email service is connected and operational")));
        } else {
          Write(Response(503, StatusBody("unavailable", "Email service is not connected")));
        }
      case Rejected(m) =>
        Write(Response(500, StatusBody("error", m)));
    }
  }

  /** Posting the same payload twice schedules two sends: nothing is
      deduplicated. */
  method PostTwice(router: EmailRouter, p: Payload)
    modifies router
    ensures router.queue == old(router.queue) + [TaskFor(p), TaskFor(p)]
  {
    router.HandlePost(Parsed(p));
    router.HandlePost(Parsed(p));
  }
}
