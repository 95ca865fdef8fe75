/** Properties of the POST and GET handlers of `src/routes/email.routes.ts`
    that relate several of the functions of `Webhook`: the `INFO` default,
    the lists in the 400 details, what a falsy field escapes, and how the
    handler as written differs from one that returns after its first 400. */
module Properties {
  import opened Js
  import opened Webhook

  /** An absent `eventType` resolves to `INFO`: it passes the enum check, the
      task calls `sendInfo`, and the 202 echoes `"INFO"`. */
  lemma AbsentEventTypeIsInfo(p: Payload, impactLevels: seq<string>)
    requires p.eventType.None?
    ensures ResolvedEventType(p) == JStr("INFO")
    ensures !InvalidEventType(ResolvedEventType(p))
    ensures PostTasks(Parsed(p))[0].handler == SendInfo
    ensures var w := PostWrites(Parsed(p), impactLevels);
            w[|w| - 1] == Response(202, AcceptedBody("Email will be sent in the background", JStr("INFO")))
  {
  }

  /** A present `eventType` is kept as it came: the task calls the send method
      it selects, and the 202 echoes it. A `"WARNING"` goes to `sendWarning`,
      an `"ERROR"` to `sendErrorAlert` and a `"SUCCESS"` to
      `sendSuccessNotification`. */
  lemma PresentEventTypeIsKept(p: Payload, impactLevels: seq<string>, v: Json)
    requires p.eventType == Some(v)
    ensures PostTasks(Parsed(p))[0].handler == SelectSendMethod(v)
    ensures var w := PostWrites(Parsed(p), impactLevels);
            w[|w| - 1] == Response(202, AcceptedBody("Email will be sent in the background", v))
    ensures v == JStr("WARNING") ==> PostTasks(Parsed(p))[0].handler == SendWarning
    ensures v == JStr("ERROR") ==> PostTasks(Parsed(p))[0].handler == SendErrorAlert
    ensures v == JStr("SUCCESS") ==> PostTasks(Parsed(p))[0].handler == SendSuccessNotification
  {
    assert ResolvedEventType(p) == v;
    assert PostTasks(Parsed(p))[0] == TaskFor(p);
  }

  /** A falsy `eventType` (`null`, `""`, `0`, `false`) is never rejected, is not
      replaced by the default, and is sent with `sendInfo`; the 202 echoes it
      as it came. */
  lemma FalsyEventTypeNeverRejected(p: Payload, impactLevels: seq<string>)
    requires p.eventType.Some? && !Truthy(p.eventType.value)
    ensures InvalidEventTypeResponse !in PostWrites(Parsed(p), impactLevels)
    ensures PostTasks(Parsed(p))[0].handler == SendInfo
    ensures var w := PostWrites(Parsed(p), impactLevels);
            w[|w| - 1].body == AcceptedBody("Email will be sent in the background", p.eventType.value)
  {
  }

  /** A falsy `impactLevel` is never rejected, whatever the enum holds. */
  lemma FalsyImpactLevelNeverRejected(p: Payload, impactLevels: seq<string>)
    requires !TruthyField(p.impactLevel)
    ensures InvalidImpactLevelResponse(impactLevels) !in PostWrites(Parsed(p), impactLevels)
  {
  }

  /** The one task of a POST calls the send method the resolved event type
      selects, and passes it the eight fields of the payload unchanged. */
  lemma TaskCarriesPayload(p: Payload)
    ensures var t := PostTasks(Parsed(p))[0];
            t.handler == SelectSendMethod(ResolvedEventType(p)) &&
            t.eventType == ResolvedEventType(p) &&
            t.args.to == p.to && t.args.subject == p.subject && t.args.content == p.content &&
            t.args.impactLevel == p.impactLevel && t.args.sourceApplication == p.sourceApplication &&
            t.args.metadata == p.metadata && t.args.attachments == p.attachments &&
            t.args.customCredentials == p.customCredentials
  {
  }

  /** Each check writes its 400 exactly when it fails, whatever the other
      two checks found. */
  lemma RejectionsAreFailingChecks(p: Payload, impactLevels: seq<string>)
    ensures var w := Rejections(p, impactLevels);
            (MissingFieldsResponse in w <==> MissingRequired(p)) &&
            (InvalidEventTypeResponse in w <==> InvalidEventType(ResolvedEventType(p))) &&
            (InvalidImpactLevelResponse(impactLevels) in w <==> InvalidImpactLevel(p.impactLevel, impactLevels))
  {
  }

  /** With no values, the impactLevel 400 details are the prefix alone. */
  lemma ImpactLevelDetailsWithNoValues()
    ensures InvalidImpactLevelResponse([]).body.details == "Impact level must be one of: "
  {
  }

  /** A payload without a truthy subject or content gets the missing-fields
      400 as its first response. */
  lemma MissingFieldsWrittenFirst(p: Payload, impactLevels: seq<string>)
    requires !TruthyField(p.subject) || !TruthyField(p.content)
    ensures PostWrites(Parsed(p), impactLevels)[0] ==
            Response(400, ErrorBody("Missing required fields", "Subject and content are required"))
  {
  }

  /** The details of the eventType 400 are its prefix followed by
      `EventTypeValues[i]` at the offset `Join` puts it, a separator after
      every value but the last, and nothing after the last one. */
  lemma {:induction false} EventTypeDetailsListEveryValue(i: nat)
    requires i < |EventTypeValues|
    ensures var details := InvalidEventTypeResponse.body.details;
            var at := |EventTypePrefix| + Offset(EventTypeValues, Separator, i);
            details[..|EventTypePrefix|] == "Event type must be one of: " &&
            at + |EventTypeValues[i]| <= |details| &&
            details[at..at + |EventTypeValues[i]|] == EventTypeValues[i] &&
            (i + 1 < |EventTypeValues| ==> at + |EventTypeValues[i]| + 2 <= |details| && details[at + |EventTypeValues[i]|..at + |EventTypeValues[i]| + 2] == ", ") &&
            (i + 1 == |EventTypeValues| ==> at + |EventTypeValues[i]| == |details|)
  {
    JoinListsEveryValue(EventTypePrefix, EventTypeValues, i);
  }

  /** The same for the impactLevel 400, whatever the values of `ImpactLevel`. */
  lemma {:induction false} ImpactLevelDetailsListEveryValue(impactLevels: seq<string>, i: nat)
    requires i < |impactLevels|
    ensures var details := InvalidImpactLevelResponse(impactLevels).body.details;
            var at := |ImpactLevelPrefix| + Offset(impactLevels, Separator, i);
            details[..|ImpactLevelPrefix|] == "Impact level must be one of: " &&
            at + |impactLevels[i]| <= |details| &&
            details[at..at + |impactLevels[i]|] == impactLevels[i] &&
            (i + 1 < |impactLevels| ==> at + |impactLevels[i]| + 2 <= |details| && details[at + |impactLevels[i]|..at + |impactLevels[i]| + 2] == ", ") &&
            (i + 1 == |impactLevels| ==> at + |impactLevels[i]| == |details|)
  {
    JoinListsEveryValue(ImpactLevelPrefix, impactLevels, i);
  }

  /** `prefix + values.join(", ")`, read at the `i`-th value. */
  lemma {:induction false} JoinListsEveryValue(prefix: string, values: seq<string>, i: nat)
    requires i < |values|
    ensures var s := prefix + Join(values, Separator);
            var at := |prefix| + Offset(values, Separator, i);
            s[..|prefix|] == prefix &&
            at + |values[i]| <= |s| &&
            s[at..at + |values[i]|] == values[i] &&
            (i + 1 < |values| ==> at + |values[i]| + 2 <= |s| && s[at + |values[i]|..at + |values[i]| + 2] == Separator) &&
            (i + 1 == |values| ==> at + |values[i]| == |s|)
  {
    var joined := Join(values, Separator);
    var s := prefix + joined;
    var o := Offset(values, Separator, i);
    JoinAt(values, Separator, i);
    assert s[|prefix| + o..|prefix| + o + |values[i]|] == joined[o..o + |values[i]|];
    if i + 1 < |values| {
      JoinSeparatorAt(values, Separator, i);
      assert s[|prefix| + o + |values[i]|..|prefix| + o + |values[i]| + 2] ==
             joined[o + |values[i]|..o + |values[i]| + 2];
    } else {
      JoinLength(values, Separator);
    }
  }

  /** Each check that fails writes its 400 and the handler carries on: the task
      is still scheduled and the 202 is still written after the 400. */
  lemma RejectedPayloadStillScheduled(p: Payload, impactLevels: seq<string>)
    requires Rejections(p, impactLevels) != []
    ensures var w := PostWrites(Parsed(p), impactLevels);
            |w| >= 2 && w[0].code == 400 && w[|w| - 1].code == 202
    ensures PostTasks(Parsed(p)) == [TaskFor(p)]
  {
  }

  /** A payload with no subject: a 400 and then a 202, and a task for `sendInfo`. */
  lemma MissingSubjectIsStillSent(content: string, impactLevels: seq<string>)
    requires content != ""
    ensures var p := Payload(None, None, Some(JStr(content)), None, None, None, None, None, None);
            PostWrites(Parsed(p), impactLevels) == [MissingFieldsResponse, AcceptedResponse(JStr("INFO"))] &&
            PostTasks(Parsed(p)) == [Task(SendInfo, ArgsOf(p), JStr("INFO"))]
  {
  }

  /** A subject that is an object with its own `toString` member: the send
      is made and resolves, but building the success message throws, so the
      task logs a failure. */
  lemma SubjectWithOwnToStringLogsFailure(content: string)
    ensures var p := Payload(None, Some(JObj([("toString", JNum(1.0))])), Some(JStr(content)),
                             None, None, None, None, None, None);
            var t := PostTasks(Parsed(p))[0];
            CallOf(t) == Call(SendInfo, ArgsOf(p)) &&
            Outcome(t, Delivered) == Failed("Cannot convert object to primitive value")
  {
    var subject := JObj([("toString", JNum(1.0))]);
    assert subject.members[0].0 == "toString";
    assert !Stringable(subject);
  }

  /** The handler that returns after its first 400 writes exactly the first
      write of the handler as written, and schedules the same task only when
      no check fails. */
  lemma FixedIsFirstWriteOfAsWritten(body: RequestBody, impactLevels: seq<string>)
    ensures FixedPostWrites(body, impactLevels) == PostWrites(body, impactLevels)[..1]
    ensures FixedPostTasks(body, impactLevels) ==
            if body.Parsed? && Rejections(body.payload, impactLevels) == [] then PostTasks(body) else []
  {
  }

  /** With the return, a payload that fails a check schedules no send. */
  lemma FixedNeverSchedulesInvalid(p: Payload, impactLevels: seq<string>)
    requires MissingRequired(p) || InvalidEventType(ResolvedEventType(p)) ||
             InvalidImpactLevel(p.impactLevel, impactLevels)
    ensures FixedPostTasks(Parsed(p), impactLevels) == []
    ensures FixedPostWrites(Parsed(p), impactLevels)[0].code == 400
  {
  }
}
