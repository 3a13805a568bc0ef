/**
 * The CloudWatch alarm formatter of handlers/cloudwatchAlertHandler.js: an
 * alarm state change becomes a message with a colour chosen by the new
 * state, a trigger sentence, and a link to the alarm in the console.
 */
module CloudWatchAlert {
  import opened Wrappers
  import opened Strings
  import opened Js
  import opened Slack
  import opened Sns

  /**
   * `message.Trigger`. Numbers (threshold, periods) are held as the text the
   * template literal prints for them.
   */
  datatype Trigger = Trigger(
    metricName: string,
    statistic: string,
    comparisonOperator: string,
    threshold: string,
    evaluationPeriods: string,
    period: string)

  /** The decoded alarm notification (`JSON.parse(Sns.Message)`). */
  datatype AlarmMessage = AlarmMessage(
    alarmName: string,
    alarmDescription: string,
    newStateReason: string,
    oldStateValue: string,
    newStateValue: string,
    trigger: Trigger)

  const Subject: string := "AWS CloudWatch Notification"

  const AlarmTitles: seq<string> :=
    ["Alarm Name", "Alarm Description", "Alarm Reason", "Trigger", "Old State", "Current State", "Link to Alarm"]

  const AlarmShorts: seq<bool> := [true, false, false, false, true, true, false]

  /** The `switch (newState)`: a firing alarm is red, a cleared one green, anything else amber. */
  function AlarmColor(newState: string): (c: Color)
    ensures c == Danger <==> newState == "ALARM"
    ensures c == Good <==> newState == "OK"
    ensures c == Warning <==> newState != "ALARM" && newState != "OK"
  {
    match newState
    case "ALARM" => Danger
    case "OK" => Good
    case _ => Warning
  }

  /** `EventSubscriptionArn.split(":")[3]`: the region field of the ARN, or `undefined`. */
  function Region(eventSubscriptionArn: string): (r: JsValue)
    ensures r == JUndefined || (r.JString? && ':' !in r.s)
  {
    match NthField(eventSubscriptionArn, ':', 3)
    case Some(region) => JString(region)
    case None => JUndefined
  }

  /** The region is the fourth colon-separated field of the ARN. */
  lemma RegionIsFourthField(fields: seq<string>)
    requires |fields| >= 4
    requires SeparatorFree(fields, ':')
    ensures Region(Join(fields, ':')) == JString(fields[3])
  {
    NthFieldOfJoin(fields, ':', 3);
  }

  /** An ARN with fewer than four fields has no region, and the link says `undefined`. */
  lemma RegionOfShortArn(fields: seq<string>)
    requires 1 <= |fields| < 4
    requires SeparatorFree(fields, ':')
    ensures Region(Join(fields, ':')) == JUndefined
    ensures Render(Region(Join(fields, ':'))) == "undefined"
  {
    SplitJoin(fields, ':');
  }

  /** The words of the trigger sentence, in order. */
  function TriggerWords(t: Trigger): seq<string>
  {
    [t.statistic, t.metricName, t.comparisonOperator, t.threshold, "for",
     t.evaluationPeriods, "period(s)", "of", t.period, "seconds."]
  }

  /**
   * The `Trigger` field value: the template
   * `<statistic> <metric> <operator> <threshold> for <periods> period(s) of <period> seconds.`,
   * which is its ten words with a single space between each two.
   */
  function TriggerSentence(t: Trigger): string
  {
    Join(TriggerWords(t), ' ')
  }

  /**
   * Splitting the sentence at spaces gives back the statistic, metric,
   * operator, threshold and periods in their places, when none of them holds
   * a space.
   */
  lemma TriggerSentenceWords(t: Trigger)
    requires SeparatorFree(TriggerWords(t), ' ')
    ensures Split(TriggerSentence(t), ' ') == TriggerWords(t)
  {
    SplitJoin(TriggerWords(t), ' ');
  }

  /** The console's CloudWatch page in `region`, up to the fragment. */
  function AlarmPage(region: JsValue): string
  {
    "https://console.aws.amazon.com/cloudwatch/home?region=" + Render(region)
  }

  /** The first fragment parameter of both links. */
  const AlarmFilter: string := "alarm:alarmFilter=ANY"

  /** The `name=<encoded alarm name>` parameter. */
  function NameParameter(encodedName: string): string
  {
    "name=" + encodedName
  }

  lemma FragmentPiecesHaveNoSeparators()
    ensures '#' !in AlarmFilter && ';' !in AlarmFilter
    ensures '#' !in "name=" && ';' !in "name="
  {
    assert forall i | 0 <= i < |AlarmFilter| :: AlarmFilter[i] != ';' && AlarmFilter[i] != '#';
  }

  /**
   * The link to the alarm as index.js builds it: the page, then the fragment
   * `alarm:alarmFilter=ANY;name=<encoded alarm name>`.
   */
  function AlarmLink(region: JsValue, encodedName: string): string
  {
    AlarmPage(region) + ['#'] + AlarmFilter + [';'] + NameParameter(encodedName)
  }

  /** The handler's link: the same pieces with no `;` between the two parameters. */
  function HandlerAlarmLink(region: JsValue, encodedName: string): string
  {
    AlarmPage(region) + ['#'] + AlarmFilter + NameParameter(encodedName)
  }

  /** The text after the last `#` of a link: its fragment, when the parts after it have no `#`. */
  function Fragment(link: string): string
  {
    LastSegment(link, '#')
  }

  /**
   * The fragment of the link is the alarm filter followed by a separate
   * `name` parameter holding the encoded alarm name.
   */
  lemma AlarmLinkNamesAlarm(region: JsValue, encodedName: string)
    requires '#' !in encodedName && ';' !in encodedName
    ensures Split(Fragment(AlarmLink(region, encodedName)), ';') == [AlarmFilter, NameParameter(encodedName)]
  {
    var name := NameParameter(encodedName);
    var fragment := AlarmFilter + [';'] + name;
    FragmentPiecesHaveNoSeparators();
    assert '#' !in fragment;
    assert AlarmLink(region, encodedName) == AlarmPage(region) + ['#'] + fragment;
    LastSegmentAfterSeparator(AlarmPage(region), fragment, '#');
    SplitConcat(AlarmFilter, name, ';');
    SingleSegment(AlarmFilter, ';');
    SingleSegment(name, ';');
  }

  /**
   * In the handler's link the fragment is one `;`-separated parameter only:
   * the alarm filter swallows the name, so the console is given the filter
   * `ANYname=<name>` and no `name` parameter.
   */
  lemma HandlerLinkHasNoNameParameter(region: JsValue, encodedName: string)
    requires '#' !in encodedName && ';' !in encodedName
    ensures Split(Fragment(HandlerAlarmLink(region, encodedName)), ';') == [AlarmFilter + NameParameter(encodedName)]
  {
    var fragment := AlarmFilter + NameParameter(encodedName);
    FragmentPiecesHaveNoSeparators();
    assert '#' !in fragment && ';' !in fragment;
    assert HandlerAlarmLink(region, encodedName) == AlarmPage(region) + ['#'] + fragment;
    LastSegmentAfterSeparator(AlarmPage(region), fragment, '#');
    SingleSegment(fragment, ';');
  }

  /**
   * The seven alarm fields, shared by both copies of the formatter, which
   * differ only in `link`.
   */
  function AlarmFields(alarm: AlarmMessage, link: string): (fields: seq<Field>)
    ensures Titles(fields) == AlarmTitles
    ensures Shorts(fields) == AlarmShorts
    ensures Values(fields) == [
      JString(alarm.alarmName), JString(alarm.alarmDescription), JString(alarm.newStateReason),
      JString(TriggerSentence(alarm.trigger)), JString(alarm.oldStateValue), JString(alarm.newStateValue),
      JString(link)]
  {
    [ Field("Alarm Name", JString(alarm.alarmName), true),
      Field("Alarm Description", JString(alarm.alarmDescription), false),
      Field("Alarm Reason", JString(alarm.newStateReason), false),
      Field("Trigger", JString(TriggerSentence(alarm.trigger)), false),
      Field("Old State", JString(alarm.oldStateValue), true),
      Field("Current State", JString(alarm.newStateValue), true),
      Field("Link to Alarm", JString(link), false) ]
  }

  /**
   * The exported formatter, with the handler's own link. `alarm` is the decoded `Sns.Message` and
   * `encodeUri` stands for `encodeURIComponent`.
   */
  function Format(rec: SnsRecord, alarm: AlarmMessage, encodeUri: string -> string): (m: Message)
    ensures m.channel.None?
    ensures m.text == Bold(Subject)
    ensures |m.attachments| == 1
    ensures m.attachments[0].color == AlarmColor(alarm.newStateValue)
    ensures m.attachments[0].fields
      == AlarmFields(alarm, HandlerAlarmLink(Region(rec.eventSubscriptionArn), encodeUri(alarm.alarmName)))
    ensures m.attachments[0].ts == rec.timestamp
  {
    var region := Region(rec.eventSubscriptionArn);
    var link := HandlerAlarmLink(region, encodeUri(alarm.alarmName));
    Message(None, Bold(Subject), [Attachment(AlarmColor(alarm.newStateValue), AlarmFields(alarm, link), rec.timestamp)])
  }
}
