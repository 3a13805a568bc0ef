# SNS to Slack relay, modelled in Dafny

An AWS Lambda function that receives Amazon SNS notifications and posts a
formatted message to a Slack incoming webhook. `index.js` classifies the SNS
record by keyword. A record mentioning `CloudWatchNotifications` becomes an
alarm message, one mentioning `ecs` becomes an ECS task message, and anything
else is described key by key. The message is posted to the webhook and the
webhook's status code decides whether the invocation succeeds. The webhook
URL is a plaintext setting or a KMS-encrypted one; the first URL a
container resolves is kept for the invocations after it. The `handlers/`
directory holds stand-alone formatters: CloudWatch alarms, ECS task state
changes, scheduled CloudWatch Events rules, and a generic one.

Modules, one concept each:

- `Strings`: the JavaScript string operations the code uses.
  - `indexOf`, proved against an independent "occurs at" definition.
  - `split`, with the `split`/`join` round trip both ways.
  - `split(c).pop()` and `split(c)[n]`.
  - decimal rendering of numbers, with its parse-back round trip.
- `Js`: the JavaScript value semantics the formatters depend on.
  - what `for…in` visits;
  - `typeof v === 'object'`;
  - template-literal rendering;
  - property access and strict equality.
- `Slack`, `Sns`: the message and the record.
- `CloudWatchAlert`, `EcsTask`, `ScheduledEvent`, `DefaultHandler`: the four
  formatters of `handlers/`.
- `Relay`: the routing, the three formatters and the response handling of
  `index.js`.
- `HookUrl`: webhook URL resolution, and its behaviour over a sequence of
  invocations.
- `Lambda`: the exported handler as a class. The module-level `hookUrl` it
  updates is a field.

Three behaviours of the code that a reader might not expect:

- Routing looks only for keywords; no field names the notification's source. The CloudWatch keyword is matched against
  the subscription ARN, the subject and the message. `ecs` is matched
  against the subscription ARN, the topic ARN and the message.
- A raw string message is not used as the description directly. The
  catch-all formatter runs `for…in` over the string, so the description
  lists one character per line under its index.
- The scheduled-rule formatter never emits the rule name alone, and never
  emits the rule name at all (see Findings).

## Model

| member | source | states |
|---|---|---|
| Strings.IndexOf | index.js:305-308 | `indexOf(p) > -1` exactly when `p` occurs in the text; the result is the first occurrence |
| Strings.Split | handlers/ecsTaskHandler.js:8-10 | `split` always returns at least one part |
| Strings.JoinSplit | handlers/ecsTaskHandler.js:8-10 | joining the parts of `split(c)` with `c` gives back the text |
| Strings.SplitSeparatorFree | handlers/ecsTaskHandler.js:8-10 | no part of `split(c)` contains `c` |
| Strings.SplitJoin | handlers/ecsTaskHandler.js:8-10 | splitting the join of separator-free parts gives back the parts |
| Strings.SplitConcat | handlers/ecsTaskHandler.js:13 | splitting at one separator splits the text on each side of it independently |
| Strings.LastSegmentIsSuffix | handlers/ecsTaskHandler.js:8 | `split(c).pop()` is a suffix that holds no `c`; it is the whole text when there is no `c`, otherwise it follows a `c` |
| Strings.LastSegmentAfterSeparator | handlers/ecsTaskHandler.js:8 | `(prefix + c + last).split(c).pop()` is `last` when `last` has no `c` |
| Strings.NthField | handlers/cloudwatchAlertHandler.js:4 | `split(c)[n]` is a field free of `c`, or nothing |
| Strings.NthFieldOfJoin | handlers/cloudwatchAlertHandler.js:4 | field `n` of a `c`-joined text is the `n`-th part |
| Strings.NatToStringRoundTrip | index.js:323 | the decimal text of a number is digits only, without a leading zero, and reads back as the number |
| Strings.NatToStringInjective | handlers/defaultHandler.js:23 | different indices get different keys |
| Strings.IntToString | index.js:323 | a non-negative status code is its digits; a negative one is `-` before the digits of its magnitude |
| Strings.IntToStringInjective | index.js:323 | different status codes are written differently |
| Js.ForInEntries | handlers/defaultHandler.js:23-29 | `for…in` visits an object's properties in order; for a string, entry `i` is key `String(i)` with the one-character string at `i`; for an array, entry `i` is key `String(i)` with item `i`; nothing for other primitives |
| Js.Lookup | handlers/scheduledEventHandler.js:23 | a property is found exactly when some entry has that key, and the value found is that of the first such entry |
| Js.IsObject | handlers/defaultHandler.js:24 | `typeof` says `object` for `null`, arrays and objects, and not for strings, numbers, booleans, `undefined` or functions |
| Js.GetProperty | handlers/defaultHandler.js:6 | `message.NewStateValue`: an object's property is the value of its first entry with that key, `undefined` when there is none; for a string, number, boolean or array it is `undefined` |
| Js.Render | handlers/scheduledEventHandler.js:24 | `${v}` writes `undefined` and `null` as those words, a string as itself, an object as `[object Object]` and an empty array as nothing |
| Js.StrictEquals | handlers/scheduledEventHandler.js:8 | `===` holds only between equal values, always between equal `undefined`, `null`, booleans and strings, and never for an array, object or function |
| Js.Keys | handlers/scheduledEventHandler.js:8 | `Object.keys` is an array with one key per property |
| Slack.Bold | handlers/ecsTaskHandler.js:30 | the summary is the text between two `*` |
| Slack.WithDefaultChannel | index.js:160-163 | the spread adds the configured channel and keeps text and attachments |
| CloudWatchAlert.AlarmColor | handlers/cloudwatchAlertHandler.js:13-24 | `danger` exactly for `ALARM`, `good` exactly for `OK`, `warning` otherwise |
| CloudWatchAlert.Region | handlers/cloudwatchAlertHandler.js:4 | the region is a colon-free field of the subscription ARN, or `undefined` |
| CloudWatchAlert.RegionIsFourthField | handlers/cloudwatchAlertHandler.js:4 | for an ARN of four or more fields the region is the fourth |
| CloudWatchAlert.RegionOfShortArn | handlers/cloudwatchAlertHandler.js:4 | for fewer fields the region is `undefined` and the link says `region=undefined` |
| CloudWatchAlert.TriggerSentenceWords | handlers/cloudwatchAlertHandler.js:47 | the trigger sentence splits at spaces back into statistic, metric, operator, threshold and periods, each in its place |
| CloudWatchAlert.AlarmLinkNamesAlarm | index.js:227 | the link's fragment holds two parameters, the filter `alarm:alarmFilter=ANY` and `name=<encoded alarm name>` |
| CloudWatchAlert.HandlerLinkHasNoNameParameter | handlers/cloudwatchAlertHandler.js:62 | the handler's link fragment is one parameter, so it names no alarm |
| CloudWatchAlert.AlarmFields | handlers/cloudwatchAlertHandler.js:30-65 | the seven titles, their `short` flags and values, in order |
| CloudWatchAlert.Format | handlers/cloudwatchAlertHandler.js:1-69 | no channel, a fixed summary, one attachment with the state colour, the seven fields and the timestamp |
| EcsTask.ClusterNameOfArn | handlers/ecsTaskHandler.js:8 | the cluster is the part after the last `/` of the cluster ARN, and never holds a `/` |
| EcsTask.ServiceNameOfGroup | handlers/ecsTaskHandler.js:9 | `service:<name>` gives `<name>` |
| EcsTask.TaskDefinitionOfArn | handlers/ecsTaskHandler.js:10 | the task definition is the `family:revision` after the last `/` |
| EcsTask.TaskColor | handlers/ecsTaskHandler.js:15-27 | `danger` exactly for `STOPPED`, `good` exactly for `RUNNING`, `warning` otherwise (`PENDING` included) |
| EcsTask.TaskLinkPath | handlers/ecsTaskHandler.js:13 | the link's `/`-separated path is the regional ECS console, then `clusters/<cluster>/services/<service>/tasks` |
| EcsTask.TaskFields | handlers/ecsTaskHandler.js:33-63 | the six titles, flags and values in order, the last being the task link |
| EcsTask.Format | handlers/ecsTaskHandler.js:1-67 | no channel, the detail type in bold, one attachment with the status colour, the six fields and the timestamp |
| ScheduledEvent.EventArn | handlers/scheduledEventHandler.js:4 | the first resource ARN, or `''` when there is none |
| ScheduledEvent.DetailOrEmpty | handlers/scheduledEventHandler.js:23 | a missing or `undefined` detail property defaults to `''`; any other present value, `null` included, is kept |
| ScheduledEvent.LogGroupLinkPath | handlers/scheduledEventHandler.js:24 | the link's `/`-separated path is the region's console host, the `cloudwatch` log groups page for the same region, then `log-group/<lambdaName>` |
| ScheduledEvent.LogGroupLinkEndsWithName | handlers/scheduledEventHandler.js:24 | the log-group link ends with the Lambda function's name after its last `/` |
| ScheduledEvent.FormatAsWritten | handlers/scheduledEventHandler.js:1-51 | as written: no channel, the detail type in bold, colour `good`, the timestamp, and for every event the four titles and flags with values `name`, the `pop` function, `env` and the log-group link for `lambdaName` |
| ScheduledEvent.Format | handlers/scheduledEventHandler.js:1-51 | intended formatter: no channel, the detail type in bold, colour `good`, the timestamp, one field exactly when `detail` is empty, the rule field holding the rule name, and otherwise the values `name`, rule name, `env` and the log-group link for `lambdaName` (`''` for absent ones) |
| ScheduledEvent.ColorAlwaysGood | handlers/scheduledEventHandler.js:6 | both versions colour every message `good` |
| ScheduledEvent.EmptinessTestNeverHolds | handlers/scheduledEventHandler.js:8 | the emptiness test as written is false for every `detail` |
| ScheduledEvent.AsWrittenIgnoresEmptyDetail | handlers/scheduledEventHandler.js:8-49 | as written, every event gets the four fields, an empty `detail` included |
| ScheduledEvent.AsWrittenRuleIsPopMethod | handlers/scheduledEventHandler.js:5 | as written, the rule field holds the `pop` function and never a string |
| ScheduledEvent.RuleNameIsLastSegment | handlers/scheduledEventHandler.js:4-5 | the intended rule name is the part of the first ARN after its last `/`, `''` with no resources |
| ScheduledEvent.EmptyDetailGivesRuleNameOnly | handlers/scheduledEventHandler.js:8-21 | intended: an empty `detail` gives exactly the `Cloudwatch Rule` field |
| ScheduledEvent.MissingDetailFieldsAreEmpty | handlers/scheduledEventHandler.js:23-24 | absent name, environment and Lambda name render as `''`, and the link ends in an empty log group |
| DefaultHandler.SubjectValue | handlers/defaultHandler.js:3 | a missing SNS subject is `null`, a present one its string |
| DefaultHandler.ColorOf | handlers/defaultHandler.js:6-18 | `danger` exactly for the string `ALARM`, `good` exactly for `OK`, `warning` for everything else |
| DefaultHandler.DescriptionIsJoin | handlers/defaultHandler.js:21-29 | the description is an empty line followed by one `key: value` line per visited property, in order |
| DefaultHandler.DescriptionLines | handlers/defaultHandler.js:21-29 | splitting the description at newlines gives back exactly those lines when no line holds a newline |
| DefaultHandler.Describe | handlers/defaultHandler.js:21-29 | the loop builds the description of all the properties `for…in` visits |
| DefaultHandler.StringMessageLines | handlers/defaultHandler.js:5-29 | a string message without a newline is described one character per line under its index, and is coloured `warning` |
| DefaultHandler.Formatted | handlers/defaultHandler.js:31-48 | bold subject, one attachment with the state colour, the `Message` and `Description` fields (both long) and the timestamp |
| DefaultHandler.Format | handlers/defaultHandler.js:1-49 | the handler returns the message for the description of its input |
| DefaultHandler.AlarmObjectIsDanger | handlers/defaultHandler.js:3-12 | an object with `NewStateValue: 'ALARM'` is `danger`; a missing subject reads `*null*` |
| Relay.SubjectForMatching | index.js:299 | a missing or empty subject is matched as `no subject`; any other subject as itself |
| Relay.Classify | index.js:305-312 | CloudWatch exactly when its keyword occurs in the subscription ARN, subject or message; else ECS exactly when `ecs` occurs in the subscription ARN, topic ARN or message; else the catch-all |
| Relay.EcsAnywhereInMessage | index.js:308 | `ecs` anywhere in the message, inside a word included, routes to ECS unless CloudWatch matches |
| Relay.RouteInputs | index.js:299-308 | the topic ARN never affects the CloudWatch decision; the subject only matters through the CloudWatch keyword; a missing and an empty subject route alike |
| Relay.HandleCloudWatch | index.js:166-239 | default channel, the fixed summary, the state colour, the seven alarm fields with index.js's link, the timestamp |
| Relay.CloudWatchCopiesAgree | index.js:191-228 | the two copies of the alarm formatter agree on everything but the channel and the link |
| Relay.HandleEcsTaskNotification | index.js:93-164 | the handler file's ECS message with the default channel |
| Relay.CatchAllMessage | index.js:241-294 | the catch-all message has the default channel, the subject in bold, one `warning` attachment with the timestamp and the long `Message` and `Description` fields, holding the subject and the `for…in` description of the raw message string |
| Relay.HandleCatchAll | index.js:241-294 | the generic message for the unparsed message string, with the default channel |
| Relay.CatchAllListsCharacters | index.js:245-269 | the catch-all is always `warning`, and for a message without a newline it lists the message string one character per line |
| Relay.SlackMessage | index.js:303-312 | whichever formatter runs, the message carries the default channel and one attachment |
| Relay.BuildMessage | index.js:303-312 | the `if` chain builds the message of the route `Classify` chooses |
| Relay.Complete | index.js:314-325 | the invocation fails, so Lambda retries it, exactly when the status is 500 or more |
| Relay.ServerErrorNamesStatus | index.js:323 | a server error is the fixed prefix, the status code's digits (which read back as the code), ` - ` and the status message |
| Relay.ProcessEvent | index.js:297-326 | the message is posted to the URL given, and the invocation completes as the response calls for |
| HookUrl.Resolve | index.js:329-353 | KMS is asked exactly when no URL is kept, the plaintext setting is unusable and the encrypted one is usable; a kept URL is used as is; the plaintext setting is used as is; a decrypted URL is `https://` before the plaintext, and a failed decryption reports KMS's own error; a resolved URL is kept and not empty; a failure keeps nothing new; with no usable setting the error is `Hook URL has not been set.` |
| HookUrl.CachedUrlIsStable | index.js:330-332 | once a URL is kept, every later invocation posts to it without asking KMS |
| HookUrl.FirstSuccessSticks | index.js:330-350 | after the first invocation that resolves a URL, every later one uses that URL and never asks KMS |
| HookUrl.FailedDecryptsAreRetried | index.js:343-347 | a failed decryption keeps no URL, so every following invocation asks KMS again and reports its error |
| HookUrl.UnconfiguredAlwaysFails | index.js:336-352 | with neither setting usable (the placeholder counts as unset), every invocation fails with `Hook URL has not been set.` |
| HookUrl.PlaintextWins | index.js:333-335 | the plaintext setting is used before the encrypted one, which is then not decrypted |
| Lambda.Outcome | index.js:329-352 | with a resolved URL the message is posted to that URL and the invocation completes as the response calls for; otherwise nothing is posted and it fails with the resolution's error |
| Lambda.SlackRelay.constructor | index.js:51-56 | a new container has its settings and no URL |
| Lambda.SlackRelay.Handle | index.js:329-354 | the kept URL becomes the resolution's, and the invocation is the outcome of that resolution for the routed message |

## Left out

- Posting to the webhook (`postMessage`, index.js:64-91): the HTTP request is not modelled. The post is returned as a URL and a body. The webhook's response is a parameter.
- KMS decryption and base64 decoding: KMS's answer is a parameter, and an error is a string.
- `JSON.parse`, `JSON.stringify` and `encodeURIComponent` are parameters (uninterpreted functions). A parse error, which would throw, is not modelled.
- Timestamps: `new Date(…).getTime() / 1000` is taken as already computed (`real`).
- Numbers are kept as the text `String(n)` gives for them. Number formatting is not modelled.
- Logging (`console.log`, `console.info`, `console.error`) is left out; it has no effect on the result.
- Exceptions from missing payload fields (for example `detail.clusterArn` of an event without `detail`) are not modelled. The decoded payloads are records whose fields are all present.
- DefaultHandler.Format: requires a message that is neither `null` nor `undefined`, because reading `NewStateValue` of those throws.
- Js.GetProperty: only an object's own entries are modelled. Indices and `length` of strings and arrays, and inherited built-in methods (`toString`, say), read as `undefined` here, unlike JavaScript. The formatters read only `NewStateValue`, which is none of these, so their results are unaffected.
- Js.StrictEquals: arrays, objects and functions are taken to be distinct objects, since the value model has no object identity.
- Js.ForInEntries: the property order is the order given. JavaScript's rule that integer-like keys come first is not modelled.
- Js.ForInEntries: a string is enumerated by Unicode code point, one entry per Dafny `char`. JavaScript enumerates UTF-16 code units, so a character outside the Basic Multilingual Plane (an emoji, say) gives two entries there and one here. The same holds for DefaultHandler.StringMessageLines and Relay.CatchAllListsCharacters.
- CloudWatchAlert.AlarmFields and EcsTask.TaskFields: the payload fields of the alarm and ECS task messages are taken to be strings. This covers alarm name, description, reason, states, trigger, ARNs, status and started-by. The source copies whatever JSON value it finds into the Slack field, so a `null` description, for example, is posted as `null`. The model cannot express that.
- Concurrency between invocations is not modelled; a container handles one event at a time.
- index.js never routes to the scheduled-rule formatter (or to any file of `handlers/`). Those formatters are modelled as the stand-alone functions the files export.

## Findings

| source | as written | input that shows it | evidently intended | confidence | as-written member | corrected member |
|---|---|---|---|---|---|---|
| handlers/scheduledEventHandler.js:8 | `Object.keys(detail) === 0` compares an array with a number, so it is always false | `detail` is `{}`: four fields with empty name and environment, not the rule name alone | `Object.keys(detail).length === 0` | high, not executed | ScheduledEvent.AsWrittenIgnoresEmptyDetail | ScheduledEvent.EmptyDetailGivesRuleNameOnly |
| handlers/scheduledEventHandler.js:5 | `eventArn.split('/').pop` without a call stores the `pop` function, not the rule name | `resources` is `['arn:aws:events:us-east-1:123456789012:rule/nightly']`: the rule field holds a function, not `nightly` | `eventArn.split('/').pop()` | high, not executed | ScheduledEvent.AsWrittenRuleIsPopMethod | ScheduledEvent.RuleNameIsLastSegment |
| handlers/cloudwatchAlertHandler.js:62 | the link's fragment is `alarm:alarmFilter=ANYname=<name>`, with no `;` before `name` | alarm name `cpu-high`: the fragment is the single parameter `alarm:alarmFilter=ANYname=cpu-high` | `alarm:alarmFilter=ANY;name=<name>`, as index.js:227 writes it | high, not executed | CloudWatchAlert.HandlerLinkHasNoNameParameter | CloudWatchAlert.AlarmLinkNamesAlarm |
