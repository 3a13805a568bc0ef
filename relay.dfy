/**
 * The event processing of index.js: an SNS record is routed by keyword to
 * one of three formatters, the message is given the configured default
 * channel, and the webhook's HTTP status decides whether the invocation
 * succeeds or fails (a failure makes Lambda retry it).
 */
module Relay {
  import opened Wrappers
  import opened Strings
  import opened Js
  import opened Slack
  import opened Sns
  import CloudWatchAlert
  import EcsTask
  import DefaultHandler

  const CloudWatchNotifications: string := "CloudWatchNotifications"

  const EcsNotifications: string := "ecs"

  /** The subject `processEvent` matches against: `Sns.Subject || 'no subject'`. */
  function SubjectForMatching(subject: Option<string>): (s: string)
    ensures subject.None? || subject == Some("") ==> s == "no subject"
    ensures subject.Some? && subject.value != "" ==> s == subject.value
  {
    match subject
    case Some(text) => if text != "" then text else "no subject"
    case None => "no subject"
  }

  /** Which formatter `processEvent` chooses. */
  datatype Route = CloudWatchRoute | EcsRoute | CatchAllRoute

  /** The keyword occurs in the subscription ARN, the subject, or the message. */
  ghost predicate MentionsCloudWatch(rec: SnsRecord)
  {
    || Contains(rec.eventSubscriptionArn, CloudWatchNotifications)
    || Contains(SubjectForMatching(rec.subject), CloudWatchNotifications)
    || Contains(rec.message, CloudWatchNotifications)
  }

  /** `ecs` occurs in the subscription ARN, the topic ARN, or the message. */
  ghost predicate MentionsEcs(rec: SnsRecord)
  {
    || Contains(rec.eventSubscriptionArn, EcsNotifications)
    || Contains(rec.topicArn, EcsNotifications)
    || Contains(rec.message, EcsNotifications)
  }

  /**
   * The `if … else if … else` of `processEvent`, with its `indexOf(…) > -1`
   * tests: CloudWatch first, then ECS, then the catch-all.
   */
  function Classify(rec: SnsRecord): (r: Route)
    ensures r == CloudWatchRoute <==> MentionsCloudWatch(rec)
    ensures r == EcsRoute <==> !MentionsCloudWatch(rec) && MentionsEcs(rec)
    ensures r == CatchAllRoute <==> !MentionsCloudWatch(rec) && !MentionsEcs(rec)
  {
    var subject := SubjectForMatching(rec.subject);
    if IndexOf(rec.eventSubscriptionArn, CloudWatchNotifications) > -1
      || IndexOf(subject, CloudWatchNotifications) > -1
      || IndexOf(rec.message, CloudWatchNotifications) > -1
    then CloudWatchRoute
    else if IndexOf(rec.eventSubscriptionArn, EcsNotifications) > -1
      || IndexOf(rec.topicArn, EcsNotifications) > -1
      || IndexOf(rec.message, EcsNotifications) > -1
    then EcsRoute
    else CatchAllRoute
  }

  /**
   * The match is a plain substring test: any message with `ecs` anywhere in
   * it, inside a longer word included, goes to the ECS formatter unless the
   * CloudWatch keyword occurs too, in which case CloudWatch wins.
   */
  lemma EcsAnywhereInMessage(rec: SnsRecord, before: string, after: string)
    requires rec.message == before + EcsNotifications + after
    ensures Classify(rec) == (if MentionsCloudWatch(rec) then CloudWatchRoute else EcsRoute)
  {
    assert OccursAt(EcsNotifications, EcsNotifications, 0);
    ContainsInConcat(before, EcsNotifications, after, EcsNotifications);
  }

  /**
   * The topic ARN is only consulted for `ecs`, and the subject only for the
   * CloudWatch keyword; a missing subject and an empty one route alike.
   */
  lemma RouteInputs(rec: SnsRecord, topicArn: string, subject: Option<string>)
    ensures (Classify(rec) == CloudWatchRoute) == (Classify(rec.(topicArn := topicArn)) == CloudWatchRoute)
    ensures !MentionsCloudWatch(rec) && !MentionsCloudWatch(rec.(subject := subject))
      ==> Classify(rec) == Classify(rec.(subject := subject))
    ensures Classify(rec.(subject := None)) == Classify(rec.(subject := Some("")))
  {
  }

  /**
   * `handleCloudWatch`: the handler file's alarm message with index.js's own
   * link and the default channel.
   */
  function HandleCloudWatch(slackChannel: Option<string>, rec: SnsRecord, alarm: CloudWatchAlert.AlarmMessage,
                            encodeUri: string -> string): (m: Message)
    ensures m.channel == slackChannel && m.text == Bold(CloudWatchAlert.Subject)
    ensures |m.attachments| == 1 && m.attachments[0].ts == rec.timestamp
    ensures m.attachments[0].color == CloudWatchAlert.AlarmColor(alarm.newStateValue)
    ensures m.attachments[0].fields == CloudWatchAlert.AlarmFields(alarm,
      CloudWatchAlert.AlarmLink(CloudWatchAlert.Region(rec.eventSubscriptionArn), encodeUri(alarm.alarmName)))
  {
    var region := CloudWatchAlert.Region(rec.eventSubscriptionArn);
    var link := CloudWatchAlert.AlarmLink(region, encodeUri(alarm.alarmName));
    WithDefaultChannel(slackChannel, Message(None, Bold(CloudWatchAlert.Subject),
      [Attachment(CloudWatchAlert.AlarmColor(alarm.newStateValue), CloudWatchAlert.AlarmFields(alarm, link), rec.timestamp)]))
  }

  /**
   * The two copies of the alarm formatter agree on everything but the
   * channel and the last field, the link.
   */
  lemma CloudWatchCopiesAgree(slackChannel: Option<string>, rec: SnsRecord, alarm: CloudWatchAlert.AlarmMessage,
                              encodeUri: string -> string)
    ensures var here, there := HandleCloudWatch(slackChannel, rec, alarm, encodeUri),
                               CloudWatchAlert.Format(rec, alarm, encodeUri);
      && here.text == there.text
      && here.attachments[0].color == there.attachments[0].color
      && here.attachments[0].ts == there.attachments[0].ts
      && here.attachments[0].fields[..6] == there.attachments[0].fields[..6]
      && here.attachments[0].fields[6] != there.attachments[0].fields[6]
  {
    var region := CloudWatchAlert.Region(rec.eventSubscriptionArn);
    var encoded := encodeUri(alarm.alarmName);
    var link, handlerLink := CloudWatchAlert.AlarmLink(region, encoded), CloudWatchAlert.HandlerAlarmLink(region, encoded);
    var prefix := CloudWatchAlert.AlarmPage(region) + ['#'] + CloudWatchAlert.AlarmFilter;
    assert link[|prefix|] == ';';
    CloudWatchAlert.FragmentPiecesHaveNoSeparators();
    assert |link| == |handlerLink| + 1;
  }

  /** `handleEcsTaskNotification`: the handler file's ECS message with the default channel. */
  function HandleEcsTaskNotification(slackChannel: Option<string>, rec: SnsRecord, event: EcsTask.EcsEvent): (m: Message)
    ensures m.channel == slackChannel
    ensures m.text == EcsTask.Format(rec, event).text && m.attachments == EcsTask.Format(rec, event).attachments
  {
    WithDefaultChannel(slackChannel, EcsTask.Format(rec, event))
  }

  /**
   * What `handleCatchAll` returns: the generic message for the raw message
   * string (not parsed as JSON), with the default channel.
   */
  function CatchAllMessage(slackChannel: Option<string>, rec: SnsRecord, stringify: JsValue -> string): (m: Message)
    ensures m.channel == slackChannel && m.text == Bold(Render(DefaultHandler.SubjectValue(rec.subject)))
    ensures |m.attachments| == 1 && m.attachments[0].color == Warning && m.attachments[0].ts == rec.timestamp
    ensures Titles(m.attachments[0].fields) == ["Message", "Description"]
    ensures Values(m.attachments[0].fields)
      == [DefaultHandler.SubjectValue(rec.subject),
          JString(DefaultHandler.Description(ForInEntries(JString(rec.message)), stringify))]
    ensures Shorts(m.attachments[0].fields) == [false, false]
  {
    var message := JString(rec.message);
    WithDefaultChannel(slackChannel,
      DefaultHandler.Formatted(rec.subject, rec.timestamp, message,
        DefaultHandler.Description(ForInEntries(message), stringify)))
  }

  /** `handleCatchAll`, whose description loop is `DefaultHandler.Describe`. */
  method HandleCatchAll(slackChannel: Option<string>, rec: SnsRecord, stringify: JsValue -> string)
    returns (m: Message)
    ensures m == CatchAllMessage(slackChannel, rec, stringify)
  {
    var generic := DefaultHandler.Format(rec.subject, rec.timestamp, JString(rec.message), stringify);
    m := WithDefaultChannel(slackChannel, generic);
  }

  /**
   * The catch-all message is always `warning`, and its description lists
   * the message string one character per line, each under its index.
   */
  lemma CatchAllListsCharacters(slackChannel: Option<string>, rec: SnsRecord, stringify: JsValue -> string)
    requires '\n' !in rec.message
    ensures var m := CatchAllMessage(slackChannel, rec, stringify);
      && m.attachments[0].color == Warning
      && m.attachments[0].fields[1].value.JString?
      && var lines := Split(m.attachments[0].fields[1].value.s, '\n');
         |lines| == |rec.message| + 1
         && forall i :: 0 <= i < |rec.message| ==> lines[i + 1] == NatToString(i) + ": " + [rec.message[i]]
  {
    DefaultHandler.StringMessageLines(rec.message, stringify);
    var m := CatchAllMessage(slackChannel, rec, stringify);
    assert Values(m.attachments[0].fields)[1] == m.attachments[0].fields[1].value;
  }

  /**
   * The calls into code this model does not include: `JSON.parse` of the
   * message for each of the two typed formatters, `JSON.stringify` and
   * `encodeURIComponent`.
   */
  datatype Externals = Externals(
    parseAlarm: string -> CloudWatchAlert.AlarmMessage,
    parseEcs: string -> EcsTask.EcsEvent,
    stringify: JsValue -> string,
    encodeUri: string -> string)

  /**
   * The message `processEvent` posts for `rec`: whichever formatter is
   * chosen, it carries the default channel and exactly one attachment.
   */
  function SlackMessage(slackChannel: Option<string>, rec: SnsRecord, ext: Externals): (m: Message)
    ensures m.channel == slackChannel
    ensures |m.attachments| == 1
  {
    match Classify(rec)
    case CloudWatchRoute => HandleCloudWatch(slackChannel, rec, ext.parseAlarm(rec.message), ext.encodeUri)
    case EcsRoute => HandleEcsTaskNotification(slackChannel, rec, ext.parseEcs(rec.message))
    case CatchAllRoute => CatchAllMessage(slackChannel, rec, ext.stringify)
  }

  /** The first half of `processEvent`: choose a formatter and build the message. */
  method BuildMessage(slackChannel: Option<string>, rec: SnsRecord, ext: Externals) returns (m: Message)
    ensures m == SlackMessage(slackChannel, rec, ext)
  {
    var subject := SubjectForMatching(rec.subject);
    if IndexOf(rec.eventSubscriptionArn, CloudWatchNotifications) > -1
      || IndexOf(subject, CloudWatchNotifications) > -1
      || IndexOf(rec.message, CloudWatchNotifications) > -1
    {
      m := HandleCloudWatch(slackChannel, rec, ext.parseAlarm(rec.message), ext.encodeUri);
    } else if IndexOf(rec.eventSubscriptionArn, EcsNotifications) > -1
      || IndexOf(rec.topicArn, EcsNotifications) > -1
      || IndexOf(rec.message, EcsNotifications) > -1
    {
      m := HandleEcsTaskNotification(slackChannel, rec, ext.parseEcs(rec.message));
    } else {
      m := HandleCatchAll(slackChannel, rec, ext.stringify);
    }
  }

  /** The status code and message of the webhook's response. */
  datatype Response = Response(statusCode: int, statusMessage: string)

  /** The argument the Lambda callback receives: `null`, or an error that makes Lambda retry. */
  datatype Completion = Succeeded | Failed(error: string)

  const ServerErrorPrefix: string := "Server error when processing message: "

  /**
   * The response callback: below 400 the message was delivered; from 400 to
   * 499 the request itself was bad, so the error is only logged and the
   * invocation succeeds (no retry); from 500 the invocation fails.
   */
  function Complete(response: Response): (c: Completion)
    ensures c.Failed? <==> response.statusCode >= 500
  {
    if response.statusCode < 400 then Succeeded
    else if response.statusCode < 500 then Succeeded
    else Failed(ServerErrorPrefix + IntToString(response.statusCode) + " - " + response.statusMessage)
  }

  /**
   * A server error names the status code: after the fixed prefix come the
   * code's decimal digits, which read back as the code, then ` - ` and the
   * status message.
   */
  lemma ServerErrorNamesStatus(response: Response)
    requires response.statusCode >= 500
    ensures var e := Complete(response).error;
      var digits := NatToString(response.statusCode);
      && e == ServerErrorPrefix + digits + " - " + response.statusMessage
      && (forall i :: 0 <= i < |digits| ==> '0' <= digits[i] <= '9')
      && ParseDigits(digits) == response.statusCode
  {
    NatToStringRoundTrip(response.statusCode);
  }

  /**
   * `processEvent`: build the message, post it to `hookUrl`, and complete
   * with what the webhook's `response` calls for. The post is returned as the
   * URL and the body it carries.
   */
  method ProcessEvent(slackChannel: Option<string>, hookUrl: string, rec: SnsRecord, ext: Externals, response: Response)
    returns (post: (string, Message), completion: Completion)
    ensures post == (hookUrl, SlackMessage(slackChannel, rec, ext))
    ensures completion == Complete(response)
  {
    var m := BuildMessage(slackChannel, rec, ext);
    post := (hookUrl, m);
    completion := Complete(response);
  }
}
