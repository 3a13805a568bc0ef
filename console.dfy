/**
 * The AWS console addresses that the ECS and scheduled-event links share.
 */
module Console {
  /** `<region>.console.aws.amazon.com`: the console host of a region. */
  function ConsoleHost(region: string): string
  {
    region + ".console.aws.amazon.com"
  }

  /** The host adds no `/` to the region, so a link's path starts after it. */
  lemma ConsoleHostHasNoSlash(region: string)
    requires '/' !in region
    ensures '/' !in ConsoleHost(region)
  {
    var domain := ".console.aws.amazon.com";
    assert forall i | 0 <= i < |domain| :: domain[i] != '/';
  }
}
