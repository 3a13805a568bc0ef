/**
 * The exported handler of index.js as an object: the settings it reads once
 * per container and the `hookUrl` it keeps between invocations.
 */
module Lambda {
  import opened Wrappers
  import opened Slack
  import opened Sns
  import opened HookUrl
  import opened Relay

  /** What one invocation does: the post it makes (URL and body), if any, and how it completes. */
  datatype Invocation = Invocation(post: Option<(string, Message)>, completion: Completion)

  /**
   * The invocation that a resolution calls for: with a URL, post the message
   * and complete by the response; without one, post nothing and fail with
   * the resolution's error.
   */
  function Outcome(resolution: Resolution, message: Message, response: Response): (inv: Invocation)
    ensures inv.post.Some? <==> resolution.url.Ok?
    ensures resolution.url.Err? ==> inv.completion == Failed(resolution.url.error)
    ensures resolution.url.Ok? ==> inv == Invocation(Some((resolution.url.value, message)), Complete(response))
  {
    match resolution.url
    case Ok(url) => Invocation(Some((url, message)), Complete(response))
    case Err(e) => Invocation(None, Failed(e))
  }

  /** A container of the Lambda function. */
  class SlackRelay {
    const config: HookConfig
    const slackChannel: Option<string>
    /** The module-level `hookUrl`: `None` until an invocation resolves it. */
    var hookUrl: Option<string>

    /** A URL, once kept, is never empty. */
    ghost predicate Valid()
      reads this
    {
      hookUrl.Some? ==> hookUrl.value != ""
    }

    /** A fresh container has read its settings and knows no URL yet. */
    constructor(config: HookConfig, slackChannel: Option<string>)
      ensures Valid()
      ensures this.config == config && this.slackChannel == slackChannel && hookUrl.None?
    {
      this.config := config;
      this.slackChannel := slackChannel;
      hookUrl := None;
    }

    /**
     * `exports.handler` for one event. `decrypt` is KMS's answer if it is
     * asked, and `response` the webhook's answer if a message is posted.
     */
    method Handle(rec: SnsRecord, ext: Externals, decrypt: Result<string, string>, response: Response)
      returns (inv: Invocation)
      requires Valid()
      modifies this
      ensures Valid()
      ensures hookUrl == Resolve(old(hookUrl), config, decrypt).cache
      ensures inv == Outcome(Resolve(old(hookUrl), config, decrypt), SlackMessage(slackChannel, rec, ext), response)
    {
      if hookUrl.Some? && hookUrl.value != "" {
        var post, completion := ProcessEvent(slackChannel, hookUrl.value, rec, ext, response);
        inv := Invocation(Some(post), completion);
      } else if Truthy(config.unencryptedHookUrl) {
        hookUrl := config.unencryptedHookUrl;
        var post, completion := ProcessEvent(slackChannel, hookUrl.value, rec, ext, response);
        inv := Invocation(Some(post), completion);
      } else if KmsConfigured(config) {
        match decrypt
        case Err(e) =>
          inv := Invocation(None, Failed(e));
        case Ok(plaintext) =>
          hookUrl := Some("https://" + plaintext);
          var post, completion := ProcessEvent(slackChannel, hookUrl.value, rec, ext, response);
          inv := Invocation(Some(post), completion);
      } else {
        inv := Invocation(None, Failed(NotSetError));
      }
    }
  }
}
