/**
 * The generic formatter of handlers/defaultHandler.js, which index.js
 * repeats as `handleCatchAll`: a colour from `NewStateValue`, and a
 * description with one `key: value` line per property a `for…in` loop visits.
 */
module DefaultHandler {
  import opened Wrappers
  import opened Strings
  import opened Js
  import opened Slack

  /** `record.Sns.Subject` as a JavaScript value: `null` when SNS sent none. */
  function SubjectValue(subject: Option<string>): (v: JsValue)
    ensures subject.None? <==> v.JNull?
    ensures subject.Some? ==> v == JString(subject.value)
  {
    match subject
    case Some(s) => JString(s)
    case None => JNull
  }

  /**
   * The `switch (newState)` on `message.NewStateValue`: `case` labels compare
   * with `===`, so only the strings `'ALARM'` and `'OK'` select a colour.
   */
  function ColorOf(newState: JsValue): (c: Color)
    ensures c == Danger <==> newState == JString("ALARM")
    ensures c == Good <==> newState == JString("OK")
    ensures c == Warning <==> newState != JString("ALARM") && newState != JString("OK")
  {
    if StrictEquals(newState, JString("ALARM")) then Danger
    else if StrictEquals(newState, JString("OK")) then Good
    else Warning
  }

  /** The rendered value of one property: `JSON.stringify` for objects (and `null`), `${v}` otherwise. */
  function Rendered(v: JsValue, stringify: JsValue -> string): string
  {
    if IsObject(v) then stringify(v) else Render(v)
  }

  /** The text one property contributes after its newline: `key: rendered`. */
  function Body(entry: (string, JsValue), stringify: JsValue -> string): string
  {
    entry.0 + ": " + Rendered(entry.1, stringify)
  }

  function Bodies(es: seq<(string, JsValue)>, stringify: JsValue -> string): (r: seq<string>)
    ensures |r| == |es| && forall i :: 0 <= i < |es| ==> r[i] == Body(es[i], stringify)
  {
    seq(|es|, i requires 0 <= i < |es| => Body(es[i], stringify))
  }

  /**
   * The description after the loop has visited `es`: each step appends a
   * newline and one body to what the previous steps built.
   */
  function Description(es: seq<(string, JsValue)>, stringify: JsValue -> string): string
    decreases |es|
  {
    if |es| == 0 then ""
    else Description(es[..|es| - 1], stringify) + "\n" + Body(es[|es| - 1], stringify)
  }

  /** Dropping the last property drops the last body. */
  lemma BodiesSnoc(es: seq<(string, JsValue)>, stringify: JsValue -> string)
    requires |es| > 0
    ensures Bodies(es, stringify) == Bodies(es[..|es| - 1], stringify) + [Body(es[|es| - 1], stringify)]
  {
    var init := es[..|es| - 1];
    var bodies, initBodies := Bodies(es, stringify), Bodies(init, stringify);
    forall i | 0 <= i < |es|
      ensures bodies[i] == (initBodies + [Body(es[|es| - 1], stringify)])[i]
    {
      if i < |init| {
        assert es[i] == init[i];
      }
    }
  }

  /**
   * The description is an empty first line followed by one line per visited
   * property, in enumeration order.
   */
  lemma {:induction false} DescriptionIsJoin(es: seq<(string, JsValue)>, stringify: JsValue -> string)
    ensures Description(es, stringify) == Join([""] + Bodies(es, stringify), '\n')
    decreases |es|
  {
    if |es| == 0 {
      assert [""] + Bodies(es, stringify) == [""];
    } else {
      var init, last := es[..|es| - 1], Body(es[|es| - 1], stringify);
      DescriptionIsJoin(init, stringify);
      var before := [""] + Bodies(init, stringify);
      BodiesSnoc(es, stringify);
      assert [""] + Bodies(es, stringify) == before + [last];
      JoinSnoc(before, last, '\n');
    }
  }

  /**
   * When no key or rendered value holds a newline, splitting the description
   * at newlines gives back exactly an empty line and then one `key: value`
   * line per property: every property adds one line, and nothing else does.
   */
  lemma DescriptionLines(es: seq<(string, JsValue)>, stringify: JsValue -> string)
    requires forall i :: 0 <= i < |es| ==> '\n' !in Body(es[i], stringify)
    ensures Split(Description(es, stringify), '\n') == [""] + Bodies(es, stringify)
  {
    DescriptionIsJoin(es, stringify);
    SplitJoin([""] + Bodies(es, stringify), '\n');
  }

  /**
   * The `for…in` loop: visits the properties of `message` in order and
   * appends one line per property to the description.
   */
  method Describe(message: JsValue, stringify: JsValue -> string) returns (description: string)
    ensures description == Description(ForInEntries(message), stringify)
  {
    var entries := ForInEntries(message);
    description := "";
    var i := 0;
    while i < |entries|
      invariant 0 <= i <= |entries|
      invariant description == Description(entries[..i], stringify)
    {
      assert entries[..i + 1][..i] == entries[..i];
      description := description + "\n" + Body(entries[i], stringify);
      i := i + 1;
    }
    assert entries[..i] == entries;
  }

  /**
   * A message that is a plain string (the raw SNS message) is enumerated
   * character by character: line `i` is the decimal index `i`, `": "` and
   * the `i`-th character. A string has no `NewStateValue`, so its colour is
   * `warning`.
   */
  lemma StringMessageLines(s: string, stringify: JsValue -> string)
    requires '\n' !in s
    ensures var lines := Split(Description(ForInEntries(JString(s)), stringify), '\n');
      && |lines| == |s| + 1
      && lines[0] == ""
      && forall i :: 0 <= i < |s| ==> lines[i + 1] == NatToString(i) + ": " + [s[i]]
    ensures ColorOf(GetProperty(JString(s), "NewStateValue")) == Warning
  {
    assert GetProperty(JString(s), "NewStateValue") == JUndefined;
    var es := ForInEntries(JString(s));
    forall i | 0 <= i < |es|
      ensures Body(es[i], stringify) == NatToString(i) + ": " + [s[i]]
      ensures '\n' !in Body(es[i], stringify)
    {
      assert es[i] == (NatToString(i), JString([s[i]]));
      IndexLineHasNoNewline(i, s[i]);
    }
    DescriptionLines(es, stringify);
  }

  /** The line of the `i`-th character holds a newline only if the character is one. */
  lemma IndexLineHasNoNewline(i: nat, ch: char)
    requires ch != '\n'
    ensures '\n' !in NatToString(i) + ": " + [ch]
  {
    NatToStringRoundTrip(i);
    var line := NatToString(i) + ": " + [ch];
    assert forall k | 0 <= k < |line| :: line[k] == '\n' ==> k >= |NatToString(i)|;
  }

  /** The message the handler returns, given the description its loop built. */
  function Formatted(subject: Option<string>, timestamp: real, message: JsValue, description: string): (m: Message)
    requires !message.JNull? && !message.JUndefined?
    ensures m.channel.None? && m.text == Bold(Render(SubjectValue(subject)))
    ensures |m.attachments| == 1 && m.attachments[0].ts == timestamp
    ensures m.attachments[0].color == ColorOf(GetProperty(message, "NewStateValue"))
    ensures Titles(m.attachments[0].fields) == ["Message", "Description"]
    ensures Values(m.attachments[0].fields) == [SubjectValue(subject), JString(description)]
    ensures Shorts(m.attachments[0].fields) == [false, false]
  {
    var color := ColorOf(GetProperty(message, "NewStateValue"));
    Message(None, Bold(Render(SubjectValue(subject))), [Attachment(color, [
      Field("Message", SubjectValue(subject), false),
      Field("Description", JString(description), false)
    ], timestamp)])
  }

  /**
   * The exported handler. Reading `NewStateValue` of a `null` or `undefined`
   * message throws, so the message is neither.
   */
  method Format(subject: Option<string>, timestamp: real, message: JsValue, stringify: JsValue -> string)
    returns (m: Message)
    requires !message.JNull? && !message.JUndefined?
    ensures m == Formatted(subject, timestamp, message, Description(ForInEntries(message), stringify))
  {
    var description := Describe(message, stringify);
    m := Formatted(subject, timestamp, message, description);
  }

  /** Colour and subject: an `ALARM` object message is `danger`, and a missing subject is shown as `null`. */
  lemma AlarmObjectIsDanger(subject: Option<string>, timestamp: real, props: seq<(string, JsValue)>, description: string)
    requires Lookup(props, "NewStateValue") == Some(JString("ALARM"))
    ensures Formatted(subject, timestamp, JObject(props), description).attachments[0].color == Danger
    ensures subject.None? ==> Formatted(subject, timestamp, JObject(props), description).text == "*null*"
  {
  }
}
