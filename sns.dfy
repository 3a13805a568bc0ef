/** The first record of the SNS event the Lambda function is invoked with. */
module Sns {
  import opened Wrappers

  /**
   * `event.Records[0]`: the subscription ARN, and from `Sns` the subject
   * (`None` when SNS delivers `null` because none was published), the topic
   * ARN, the message exactly as published (a string), and the timestamp as
   * the number of seconds the formatters put into `ts` (date parsing is not
   * modelled).
   */
  datatype SnsRecord = SnsRecord(
    eventSubscriptionArn: string,
    subject: Option<string>,
    topicArn: string,
    message: string,
    timestamp: real)
}
