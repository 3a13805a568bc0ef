/** The Slack incoming-webhook message the formatters build. */
module Slack {
  import opened Wrappers
  import opened Js

  /** The attachment colour names Slack understands: `'good'`, `'warning'`, `'danger'`. */
  datatype Color = Good | Warning | Danger
  {
    function Name(): string
    {
      match this
      case Good => "good"
      case Warning => "warning"
      case Danger => "danger"
    }
  }

  /** One `{title, value, short}` entry of an attachment. */
  datatype Field = Field(title: string, value: JsValue, short: bool)

  /** The single attachment each formatter emits. */
  datatype Attachment = Attachment(color: Color, fields: seq<Field>, ts: real)

  /**
   * A message body. `channel` is `None` when the object has no `channel` key,
   * or has it set to `undefined` (both serialise the same way).
   */
  datatype Message = Message(channel: Option<string>, text: string, attachments: seq<Attachment>)

  function Titles(fields: seq<Field>): (r: seq<string>)
    ensures |r| == |fields| && forall i :: 0 <= i < |fields| ==> r[i] == fields[i].title
  {
    seq(|fields|, i requires 0 <= i < |fields| => fields[i].title)
  }

  function Values(fields: seq<Field>): (r: seq<JsValue>)
    ensures |r| == |fields| && forall i :: 0 <= i < |fields| ==> r[i] == fields[i].value
  {
    seq(|fields|, i requires 0 <= i < |fields| => fields[i].value)
  }

  function Shorts(fields: seq<Field>): (r: seq<bool>)
    ensures |r| == |fields| && forall i :: 0 <= i < |fields| ==> r[i] == fields[i].short
  {
    seq(|fields|, i requires 0 <= i < |fields| => fields[i].short)
  }

  /** `*text*`: Slack's bold markup around a summary line. */
  function Bold(text: string): (r: string)
    ensures |r| == |text| + 2 && r[0] == '*' && r[|r| - 1] == '*' && r[1..|r| - 1] == text
  {
    "*" + text + "*"
  }

  /**
   * `{...defaults, ...message}` where `defaults` is `{channel: slackChannel}`
   * and `message` has no `channel` key of its own.
   */
  function WithDefaultChannel(slackChannel: Option<string>, m: Message): (r: Message)
    requires m.channel.None?
    ensures r.channel == slackChannel && r.text == m.text && r.attachments == m.attachments
  {
    Message(slackChannel, m.text, m.attachments)
  }
}
