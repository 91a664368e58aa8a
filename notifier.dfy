/**
 * The SMTP mailer. Building and sending the message is not modelled; whether the
 * SMTP server accepts a message is the `accepted` parameter, and the send methods
 * return it as their boolean result, as `send_email` does when it catches errors.
 */
module Notifier {
  import opened Effects

  class Mailer {
    const log: EffectLog
    /** Every message whose sending was attempted, in order. */
    var outbox: seq<Email>

    constructor (log: EffectLog)
      ensures this.log == log && outbox == []
    {
      this.log := log;
      outbox := [];
    }

    /**
     * `send_email`: one attempt to send `mail` to `mail.to` under `Subject(mail)`;
     * the result is whether SMTP accepted it, and a refusal is not raised.
     */
    method Send(mail: Email, accepted: bool) returns (ok: bool)
      modifies this, log
      ensures ok == accepted
      ensures outbox == old(outbox) + [mail]
      ensures log.events == old(log.events) + [Mailed(mail, accepted)]
    {
      outbox := outbox + [mail];
      log.events := log.events + [Mailed(mail, accepted)];
      ok := accepted;
    }

    /** `send_prospect_confirmation`: thanks the prospect, by first name. */
    method SendProspectConfirmation(prospectEmail: string, firstName: string, accepted: bool) returns (ok: bool)
      modifies this, log
      ensures ok == accepted
      ensures outbox == old(outbox) + [ProspectConfirmation(prospectEmail, firstName)]
      ensures outbox[|outbox| - 1].to == prospectEmail
      ensures Subject(outbox[|outbox| - 1]) == "Thank you for your submission"
      ensures log.events == old(log.events) + [Mailed(ProspectConfirmation(prospectEmail, firstName), accepted)]
    {
      ok := Send(ProspectConfirmation(prospectEmail, firstName), accepted);
    }

    /** `send_attorney_notification`: tells the attorney about a new lead. */
    method SendAttorneyNotification(attorneyEmail: string, firstName: string, lastName: string,
                                    prospectEmail: string, leadId: string, accepted: bool) returns (ok: bool)
      modifies this, log
      ensures ok == accepted
      ensures outbox == old(outbox) + [AttorneyNotification(attorneyEmail, firstName, lastName, prospectEmail, leadId)]
      ensures outbox[|outbox| - 1].to == attorneyEmail
      ensures Subject(outbox[|outbox| - 1]) == "New Lead Submission: " + firstName + " " + lastName
      ensures log.events == old(log.events)
                           + [Mailed(AttorneyNotification(attorneyEmail, firstName, lastName, prospectEmail, leadId), accepted)]
    {
      ok := Send(AttorneyNotification(attorneyEmail, firstName, lastName, prospectEmail, leadId), accepted);
    }
  }
}
