/**
 * How index.js finds the webhook URL: a URL kept from an earlier invocation
 * of the same container, else the plaintext setting, else the KMS-encrypted
 * setting decrypted and prefixed with `https://`, else an error.
 */
module HookUrl {
  import opened Wrappers

  /** The two environment variables (`None` when a variable is unset). */
  datatype HookConfig = HookConfig(kmsEncryptedHookUrl: Option<string>, unencryptedHookUrl: Option<string>)

  /** The placeholder the console puts in the encrypted setting before it is filled in. */
  const Placeholder: string := "<kmsEncryptedHookUrl>"

  const NotSetError: string := "Hook URL has not been set."

  /** JavaScript truthiness of a string setting: set and not empty. */
  predicate Truthy(setting: Option<string>)
  {
    setting.Some? && setting.value != ""
  }

  /** The encrypted setting is usable: set, not empty, and not the placeholder. */
  predicate KmsConfigured(config: HookConfig)
  {
    Truthy(config.kmsEncryptedHookUrl) && config.kmsEncryptedHookUrl.value != Placeholder
  }

  /**
   * One invocation's resolution: the URL to post to or the error the
   * callback receives, the module-level `hookUrl` afterwards, and whether
   * KMS was asked to decrypt.
   */
  datatype Resolution = Resolution(url: Result<string, string>, cache: Option<string>, decrypted: bool)

  /**
   * The `if (hookUrl) … else if (unencryptedHookUrl) … else if (kms…) … else`
   * chain of the exported handler. `decrypt` is what KMS would answer for
   * the encrypted setting, consulted only on the third branch.
   */
  function Resolve(cache: Option<string>, config: HookConfig, decrypt: Result<string, string>): (r: Resolution)
    ensures r.decrypted <==> !Truthy(cache) && !Truthy(config.unencryptedHookUrl) && KmsConfigured(config)
    ensures Truthy(cache) ==> r == Resolution(Ok(cache.value), cache, false)
    ensures r.url.Ok? ==> r.cache == Some(r.url.value) && r.url.value != ""
    ensures r.url.Err? ==> r.cache == cache
    ensures r.url.Err? && !r.decrypted ==> r.url.error == NotSetError
    ensures !Truthy(cache) && Truthy(config.unencryptedHookUrl) ==> r.url == Ok(config.unencryptedHookUrl.value)
    ensures !Truthy(cache) && !Truthy(config.unencryptedHookUrl) && !KmsConfigured(config)
      ==> r == Resolution(Err(NotSetError), cache, false)
    ensures r.decrypted ==> r.url == (match decrypt case Ok(p) => Ok("https://" + p) case Err(e) => Err(e))
  {
    if Truthy(cache) then Resolution(Ok(cache.value), cache, false)
    else if Truthy(config.unencryptedHookUrl) then
      var url := config.unencryptedHookUrl.value;
      Resolution(Ok(url), Some(url), false)
    else if KmsConfigured(config) then
      match decrypt
      case Err(e) => Resolution(Err(e), cache, true)
      case Ok(plaintext) =>
        var url := "https://" + plaintext;
        Resolution(Ok(url), Some(url), true)
    else Resolution(Err(NotSetError), cache, false)
  }

  /**
   * The resolutions of successive invocations of one container, starting
   * from `cache`, KMS answering the `i`-th invocation with `decrypts[i]`.
   */
  function Run(cache: Option<string>, config: HookConfig, decrypts: seq<Result<string, string>>): (rs: seq<Resolution>)
    ensures |rs| == |decrypts|
    decreases |decrypts|
  {
    if |decrypts| == 0 then []
    else
      var r := Resolve(cache, config, decrypts[0]);
      [r] + Run(r.cache, config, decrypts[1..])
  }

  /**
   * Once a URL is known the container keeps it: every later invocation
   * posts to the same URL without asking KMS, whatever KMS would answer.
   */
  lemma {:induction false} CachedUrlIsStable(url: string, config: HookConfig, decrypts: seq<Result<string, string>>)
    requires url != ""
    ensures forall i :: 0 <= i < |decrypts| ==>
      Run(Some(url), config, decrypts)[i] == Resolution(Ok(url), Some(url), false)
    decreases |decrypts|
  {
    if |decrypts| > 0 {
      CachedUrlIsStable(url, config, decrypts[1..]);
    }
  }

  /**
   * After the first invocation that resolves a URL, every invocation posts
   * to that URL and none asks KMS; in particular KMS is asked at most once
   * successfully in a container's life.
   */
  lemma {:induction false} FirstSuccessSticks(cache: Option<string>, config: HookConfig,
                                              decrypts: seq<Result<string, string>>, i: nat, j: nat)
    requires i < j < |decrypts|
    requires Run(cache, config, decrypts)[i].url.Ok?
    ensures Run(cache, config, decrypts)[j].url == Run(cache, config, decrypts)[i].url
    ensures !Run(cache, config, decrypts)[j].decrypted
    decreases i
  {
    var r := Resolve(cache, config, decrypts[0]);
    var rest := Run(r.cache, config, decrypts[1..]);
    assert Run(cache, config, decrypts) == [r] + rest;
    if i == 0 {
      CachedUrlIsStable(r.url.value, config, decrypts[1..]);
      assert rest[j - 1] == Run(cache, config, decrypts)[j];
    } else {
      FirstSuccessSticks(r.cache, config, decrypts[1..], i - 1, j - 1);
    }
  }

  /** KMS answers with an error on every invocation. */
  function Failures(errors: seq<string>): (ds: seq<Result<string, string>>)
    ensures |ds| == |errors| && forall i :: 0 <= i < |errors| ==> ds[i] == Err(errors[i])
  {
    seq(|errors|, i requires 0 <= i < |errors| => Err(errors[i]))
  }

  /**
   * A failed decryption is not remembered: until one succeeds, every
   * invocation of a container without a URL asks KMS again and reports
   * KMS's error.
   */
  lemma {:induction false} FailedDecryptsAreRetried(config: HookConfig, errors: seq<string>)
    requires !Truthy(config.unencryptedHookUrl) && KmsConfigured(config)
    ensures forall i :: 0 <= i < |errors| ==>
      Run(None, config, Failures(errors))[i] == Resolution(Err(errors[i]), None, true)
    decreases |errors|
  {
    if |errors| > 0 {
      assert Failures(errors)[1..] == Failures(errors[1..]);
      FailedDecryptsAreRetried(config, errors[1..]);
    }
  }

  /**
   * With neither setting usable, every invocation fails with the same error
   * and never asks KMS.
   */
  lemma {:induction false} UnconfiguredAlwaysFails(config: HookConfig, decrypts: seq<Result<string, string>>)
    requires !Truthy(config.unencryptedHookUrl) && !KmsConfigured(config)
    ensures forall i :: 0 <= i < |decrypts| ==>
      Run(None, config, decrypts)[i] == Resolution(Err(NotSetError), None, false)
    decreases |decrypts|
  {
    if |decrypts| > 0 {
      UnconfiguredAlwaysFails(config, decrypts[1..]);
    }
  }

  /**
   * The plaintext setting takes precedence over the encrypted one, which is
   * then never decrypted.
   */
  lemma PlaintextWins(config: HookConfig, decrypt: Result<string, string>)
    requires Truthy(config.unencryptedHookUrl)
    ensures Resolve(None, config, decrypt) == Resolution(Ok(config.unencryptedHookUrl.value), config.unencryptedHookUrl, false)
  {
  }
}
