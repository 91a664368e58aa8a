/**
 * The externally visible effects of the lead workflow, in the order they happen.
 * The object store, the lead repository and the mailer share one `EffectLog`
 * and each appends what it did, so the order of effects across the three
 * collaborators can be stated.
 */
module Effects {
  import opened LeadModel

  /** The two notification messages; `leadId` is the text form of the lead's id. */
  datatype Email =
    | ProspectConfirmation(to: string, firstName: string)
    | AttorneyNotification(to: string, firstName: string, lastName: string,
                           prospectEmail: string, leadId: string)

  /** The subject line of each message; `to` is its recipient. */
  function Subject(m: Email): string {
    match m
    case ProspectConfirmation(_, _) => "Thank you for your submission"
    case AttorneyNotification(_, first, last, _, _) => "New Lead Submission: " + first + " " + last
  }

  datatype Effect =
    | Uploaded(objectName: string, url: string)   // a resume object written to the store
    | Inserted(lead: Lead)                        // a lead row committed
    | StateWritten(lead: Lead)                    // a lead's new state committed
    | Mailed(mail: Email, accepted: bool)         // a send attempted; whether SMTP accepted it

  /** Effects appended one call at a time form one appended run. */
  lemma AppendInOrder(events: seq<Effect>, a: Effect, b: Effect, c: Effect, d: Effect)
    ensures events + [a] + [b] + [c, d] == events + [a, b, c, d]
  {
  }

  class EffectLog {
    ghost var events: seq<Effect>

    constructor ()
      ensures events == []
    {
      events := [];
    }
  }
}
