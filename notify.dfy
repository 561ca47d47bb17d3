/** The notification service (SNS) as the handler uses it: publishing to the
    alert topic or to a phone number. */
module Notify {
  import opened PyValues

  /** One `sns.publish` call: to a topic with a subject, or to a phone number. */
  datatype Sms = ToTopic(topicArn: string, subject: string, message: string) | ToPhone(phone: string, message: string)

  /** The service seen from the handler: the publishes it accepted, in order,
      and how many calls were made. Whether a call raises is the service's
      business, given by `outage`, which names the error of the n-th call
      (counting from 0) or `None` when that call is accepted. */
  class Notifier {
    const outage: nat -> Option<string>
    var attempts: nat
    var delivered: seq<Sms>

    constructor (outage: nat -> Option<string>)
      ensures this.outage == outage && attempts == 0 && delivered == []
    {
      this.outage := outage;
      attempts := 0;
      delivered := [];
    }

    /** `sns.publish`: the call is counted; an accepted message is appended to
        what was delivered, a refused one raises and delivers nothing. */
    method Publish(m: Sms) returns (err: Option<string>)
      modifies this
      ensures err == outage(old(attempts))
      ensures attempts == old(attempts) + 1
      ensures delivered == if err.None? then old(delivered) + [m] else old(delivered)
    {
      err := outage(attempts);
      attempts := attempts + 1;
      if err.None? {
        delivered := delivered + [m];
      }
    }
  }
}
