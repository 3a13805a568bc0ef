/**
 * The scheduled-rule formatter of handlers/scheduledEventHandler.js. The
 * handler as written has two defects (see the findings in README.md): its
 * emptiness test on `detail` can never succeed, and it stores the `pop`
 * method itself instead of the rule name. `FormatAsWritten` models the code
 * as it stands; `Format` is the evidently intended formatter.
 */
module ScheduledEvent {
  import opened Wrappers
  import opened Strings
  import opened Js
  import opened Slack
  import opened Console

  /**
   * A scheduled CloudWatch Events notification: `detail-type`, the
   * `resources` ARNs, the region, and the properties of the `detail` object
   * in enumeration order.
   */
  datatype ScheduledEvent = ScheduledEvent(
    detailType: string,
    resources: seq<string>,
    region: string,
    detail: seq<(string, JsValue)>)

  const FourTitles: seq<string> := ["Event Name", "Couldwatch Rule", "Environment", "Link"]

  const FourShorts: seq<bool> := [false, true, true, false]

  /** `resources.length > 0 ? resources[0] : ''`. */
  function EventArn(resources: seq<string>): (arn: string)
    ensures |resources| > 0 ==> arn == resources[0]
    ensures |resources| == 0 ==> arn == ""
  {
    if |resources| > 0 then resources[0] else ""
  }

  /**
   * `eventArn.split('/').pop` as written: the call parentheses are missing,
   * so the value is the array's `pop` method, whatever the ARN.
   */
  function RuleNameAsWritten(eventArn: string): JsValue
  {
    var _ := Split(eventArn, '/');
    JFunction("pop")
  }

  /** `eventArn.split('/').pop()`: the rule name after the last `/` of the ARN. */
  function RuleName(eventArn: string): string
  {
    LastSegment(eventArn, '/')
  }

  /** `Object.keys(detail) === 0` as written: an array compared with a number. */
  predicate DetailIsEmptyAsWritten(detail: seq<(string, JsValue)>)
  {
    StrictEquals(Keys(detail), JNumber("0"))
  }

  /** `Object.keys(detail).length === 0`: the test the branch is evidently meant to make. */
  predicate DetailIsEmpty(detail: seq<(string, JsValue)>)
  {
    |Keys(detail).items| == 0
  }

  /** `const { key = '' } = detail`: the property, or `''` when it is absent or `undefined`. */
  function DetailOrEmpty(detail: seq<(string, JsValue)>, key: string): (v: JsValue)
    ensures Lookup(detail, key).None? || Lookup(detail, key).value.JUndefined? ==> v == JString("")
    ensures Lookup(detail, key).Some? && !Lookup(detail, key).value.JUndefined? ==> v == Lookup(detail, key).value
    ensures !v.JUndefined?
  {
    match Lookup(detail, key)
    case Some(JUndefined) => JString("")
    case Some(v) => v
    case None => JString("")
  }

  /** `home?region=<region>#logsV2:log-groups`: the log groups page of the region's CloudWatch console. */
  function LogsPage(region: string): string
  {
    "home?region=" + region + "#logsV2:log-groups"
  }

  /**
   * The link to the Lambda function's log group,
   * `https://<region>.console.aws.amazon.com/cloudwatch/home?region=<region>#logsV2:log-groups/log-group/<lambdaName>`.
   */
  function LogGroupLink(region: string, lambdaName: JsValue): string
  {
    "https://" + ConsoleHost(region) + "/cloudwatch/" + LogsPage(region) + "/log-group/" + Render(lambdaName)
  }

  /**
   * Read as a path, the link is the region's console host, then the
   * CloudWatch log groups page for the same region, then the log group named
   * after the Lambda function.
   */
  lemma LogGroupLinkPath(region: string, lambdaName: string)
    requires '/' !in region && '/' !in lambdaName
    ensures Split(LogGroupLink(region, JString(lambdaName)), '/')
      == ["https:", "", ConsoleHost(region), "cloudwatch", LogsPage(region), "log-group", lambdaName]
  {
    var host, page := ConsoleHost(region), LogsPage(region);
    LogLinkPiecesSplit();
    ConsoleHostHasNoSlash(region);
    LogsPageHasNoSlash(region);
    assert LogGroupLink(region, JString(lambdaName))
      == ("https:" + ['/'] + "" + ['/']) + host + (['/'] + "cloudwatch" + ['/']) + page
         + (['/'] + "log-group" + ['/']) + lambdaName;
    RegroupLogGroupLink("https:", "", host, "cloudwatch", page, "log-group", lambdaName, '/');
    var console := "https:" + ['/'] + "" + ['/'] + host + ['/'] + "cloudwatch" + ['/'] + page;
    SplitFive("https:", "", host, "cloudwatch", page, '/');
    SingleSegment("log-group", '/');
    SingleSegment(lambdaName, '/');
    SplitConcat("log-group", lambdaName, '/');
    SplitConcat(console, "log-group" + ['/'] + lambdaName, '/');
  }

  /** The link ends with the log group: the text after its last `/` is the Lambda function's name. */
  lemma LogGroupLinkEndsWithName(region: string, lambdaName: string)
    requires '/' !in lambdaName
    ensures LastSegment(LogGroupLink(region, JString(lambdaName)), '/') == lambdaName
  {
    var prefix := "https://" + ConsoleHost(region) + "/cloudwatch/" + LogsPage(region) + "/log-group";
    assert LogGroupLink(region, JString(lambdaName)) == prefix + ['/'] + lambdaName;
    LastSegmentAfterSeparator(prefix, lambdaName, '/');
  }

  /** The fixed pieces of the link that hold a `/`, each split at it. */
  lemma LogLinkPiecesSplit()
    ensures "https://" == "https:" + ['/'] + "" + ['/']
    ensures "/cloudwatch/" == ['/'] + "cloudwatch" + ['/']
    ensures "/log-group/" == ['/'] + "log-group" + ['/']
  {
  }

  lemma LogsPageHasNoSlash(region: string)
    requires '/' !in region
    ensures '/' !in LogsPage(region)
  {
    var query, fragment := "home?region=", "#logsV2:log-groups";
    assert forall i | 0 <= i < |query| :: query[i] != '/';
    assert forall i | 0 <= i < |fragment| :: fragment[i] != '/';
  }

  /** Regrouping the link's pieces into the log groups page and the log group around one `/`. */
  lemma RegroupLogGroupLink(a: string, b: string, host: string, e: string, page: string,
                            l: string, name: string, d: char)
    ensures (a + [d] + b + [d]) + host + ([d] + e + [d]) + page + ([d] + l + [d]) + name
      == (a + [d] + b + [d] + host + [d] + e + [d] + page) + [d] + (l + [d] + name)
  {
  }

  /** The message both versions build, given the rule value and the outcome of the emptiness test. */
  function Build(event: ScheduledEvent, timestamp: real, ruleName: JsValue, detailIsEmpty: bool): Message
  {
    var text := Bold(event.detailType);
    if detailIsEmpty then
      Message(None, text, [Attachment(Good, [Field("Cloudwatch Rule", ruleName, true)], timestamp)])
    else
      var name := DetailOrEmpty(event.detail, "name");
      var env := DetailOrEmpty(event.detail, "env");
      var link := LogGroupLink(event.region, DetailOrEmpty(event.detail, "lambdaName"));
      Message(None, text, [Attachment(Good, [
        Field("Event Name", name, false),
        Field("Couldwatch Rule", ruleName, true),
        Field("Environment", env, true),
        Field("Link", JString(link), false)
      ], timestamp)])
  }

  /**
   * The exported formatter exactly as written: whatever `detail` holds, the
   * four fields, with the `pop` method where the rule name belongs.
   */
  function FormatAsWritten(event: ScheduledEvent, timestamp: real): (m: Message)
    ensures m.channel.None? && m.text == Bold(event.detailType)
    ensures |m.attachments| == 1 && m.attachments[0].color == Good && m.attachments[0].ts == timestamp
    ensures Titles(m.attachments[0].fields) == FourTitles && Shorts(m.attachments[0].fields) == FourShorts
    ensures Values(m.attachments[0].fields) == [
      DetailOrEmpty(event.detail, "name"), JFunction("pop"), DetailOrEmpty(event.detail, "env"),
      JString(LogGroupLink(event.region, DetailOrEmpty(event.detail, "lambdaName")))]
  {
    var eventArn := EventArn(event.resources);
    Build(event, timestamp, RuleNameAsWritten(eventArn), DetailIsEmptyAsWritten(event.detail))
  }

  /** The formatter as evidently intended: the rule name is extracted, an empty `detail` gives one field. */
  function Format(event: ScheduledEvent, timestamp: real): (m: Message)
    ensures m.channel.None? && m.text == Bold(event.detailType)
    ensures |m.attachments| == 1 && m.attachments[0].color == Good && m.attachments[0].ts == timestamp
    ensures |event.detail| == 0 <==> |m.attachments[0].fields| == 1
    ensures |event.detail| != 0 ==> Titles(m.attachments[0].fields) == FourTitles
    ensures |event.detail| != 0 ==> Shorts(m.attachments[0].fields) == FourShorts
    ensures m.attachments[0].fields[if |event.detail| == 0 then 0 else 1].value
      == JString(RuleName(EventArn(event.resources)))
    ensures |event.detail| != 0 ==> Values(m.attachments[0].fields) == [
      DetailOrEmpty(event.detail, "name"), JString(RuleName(EventArn(event.resources))),
      DetailOrEmpty(event.detail, "env"),
      JString(LogGroupLink(event.region, DetailOrEmpty(event.detail, "lambdaName")))]
  {
    var eventArn := EventArn(event.resources);
    Build(event, timestamp, JString(RuleName(eventArn)), DetailIsEmpty(event.detail))
  }

  /** The colour is `good` on every path, as written and as intended. */
  lemma ColorAlwaysGood(event: ScheduledEvent, timestamp: real)
    ensures FormatAsWritten(event, timestamp).attachments[0].color.Name() == "good"
    ensures Format(event, timestamp).attachments[0].color.Name() == "good"
  {
  }

  /** The emptiness test as written never holds, whatever `detail` is. */
  lemma EmptinessTestNeverHolds(detail: seq<(string, JsValue)>)
    ensures !DetailIsEmptyAsWritten(detail)
  {
  }

  /**
   * As written, the one-field branch is unreachable: every event, an empty
   * `detail` included, gets the four fields, and an empty `detail` gives an
   * empty event name and environment.
   */
  lemma AsWrittenIgnoresEmptyDetail(event: ScheduledEvent, timestamp: real)
    ensures var fields := FormatAsWritten(event, timestamp).attachments[0].fields;
      && Titles(fields) == FourTitles
      && Shorts(fields) == FourShorts
      && (event.detail == [] ==> fields[0].value == JString("") && fields[2].value == JString(""))
  {
    EmptinessTestNeverHolds(event.detail);
  }

  /**
   * As written, the rule field holds the `pop` method for every event, never
   * a rule name taken from the ARN (and `JSON.stringify` drops a function
   * valued property, so Slack receives the field with no value).
   */
  lemma AsWrittenRuleIsPopMethod(event: ScheduledEvent, timestamp: real)
    ensures FormatAsWritten(event, timestamp).attachments[0].fields[1].value == JFunction("pop")
    ensures forall name: string :: FormatAsWritten(event, timestamp).attachments[0].fields[1].value != JString(name)
  {
    EmptinessTestNeverHolds(event.detail);
  }

  /**
   * The intended rule name: what follows the last `/` of the first resource
   * ARN (`arn:aws:events:<region>:<account>:rule/<name>`), `''` when there
   * are no resources.
   */
  lemma RuleNameIsLastSegment(arnPrefix: string, name: string)
    requires '/' !in name
    ensures RuleName(EventArn([arnPrefix + "/" + name])) == name
    ensures RuleName(EventArn([])) == ""
  {
    LastSegmentAfterSeparator(arnPrefix, name, '/');
  }

  /** With an empty `detail`, the intended formatter emits the rule name alone. */
  lemma EmptyDetailGivesRuleNameOnly(event: ScheduledEvent, timestamp: real)
    requires event.detail == []
    ensures Format(event, timestamp).attachments[0].fields
      == [Field("Cloudwatch Rule", JString(RuleName(EventArn(event.resources))), true)]
  {
  }

  /** With a non-empty `detail`, absent `name`, `env` and `lambdaName` render as `''`. */
  lemma MissingDetailFieldsAreEmpty(event: ScheduledEvent, timestamp: real)
    requires event.detail != []
    requires Lookup(event.detail, "name").None? && Lookup(event.detail, "env").None?
    requires Lookup(event.detail, "lambdaName").None?
    ensures var fields := Format(event, timestamp).attachments[0].fields;
      && fields[0].value == JString("")
      && fields[2].value == JString("")
      && fields[3].value == JString(LogGroupLink(event.region, JString("")))
  {
  }
}
